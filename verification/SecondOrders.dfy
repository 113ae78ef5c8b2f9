/**
 * Exactly when a booking can get a second order at the supplier: the orders it has, and the order calls that are
 * still out and may yet create theirs.
 */
module SecondOrders {
  import opened Support
  import opened Records
  import opened Lifecycle
  import opened EveryRun
  import opened PaidRun
  import opened SupplierOrders
  import DoublePayment

  // What the supplier may still create, whatever the service does next.

  predicate OnlyCreations(steps: seq<Step>) {
    forall i :: 0 <= i < |steps| ==> steps[i].SupplierCreates?
  }

  lemma {:induction false} CreationsKeepTickets(l: Life, creations: seq<Step>)
    requires OnlyCreations(creations)
    ensures |Run(l, creations).supplierOrders| <= Tickets(Run(l, creations)) <= Tickets(l)
  {
    CallsOutIsNatural(Run(l, creations));
    if creations != [] {
      var n := |creations| - 1;
      CreationsKeepTickets(l, creations[..n]);
      NextTickets(Run(l, creations[..n]), creations[n]);
    }
  }

  lemma OneIsCreated(l: Life, k: nat, order: Order)
    requires FlightAt(l, k) == AwaitingOrder(Fulfilment)
    ensures var l' := Next(l, SupplierCreates(k, order));
            CallsOut(l') == CallsOut(l) - 1 && l'.supplierOrders == l.supplierOrders + [order]
  {
    CreationIsLogged(l, k, order);
    SumUpdate(l.flights, k, OrderPlaced(order), CallOut);
  }

  lemma OneMoreCreated(l: Life, order: Order) returns (creation: seq<Step>)
    requires CallsOut(l) > 0
    ensures |creation| == 1 && OnlyCreations(creation)
    ensures CallsOut(Run(l, creation)) == CallsOut(l) - 1 && Tickets(Run(l, creation)) == Tickets(l)
  {
    var k := SomeCallIsOut(l.flights);
    creation := [SupplierCreates(k, order)];
    OneIsCreated(l, k, order);
    RunSnoc(l, [], creation[0]);
    assert [] + [creation[0]] == creation && Run(l, []) == l;
  }

  lemma CreationsConcat(l: Life, a: seq<Step>, b: seq<Step>)
    requires OnlyCreations(a) && OnlyCreations(b)
    ensures OnlyCreations(a + b) && Run(l, a + b) == Run(Run(l, a), b)
  {
    RunConcat(l, a, b);
  }

  /** Every call that is still out can create its order, even if its answer never arrives. */
  lemma {:induction false} TicketsCanBecomeOrders(l: Life, order: Order, out: nat) returns (creations: seq<Step>)
    requires out == CallsOut(l)
    ensures OnlyCreations(creations) && |Run(l, creations).supplierOrders| == Tickets(l)
    decreases out
  {
    if out == 0 {
      creations := [];
    } else {
      var first := OneMoreCreated(l, order);
      var more := TicketsCanBecomeOrders(Run(l, first), order, out - 1);
      CreationsConcat(l, first, more);
      creations := first + more;
    }
  }

  ghost predicate CanOrderTwice(l: Life) {
    exists creations: seq<Step> :: OnlyCreations(creations) && |Run(l, creations).supplierOrders| >= 2
  }

  lemma CanOrderTwiceIffTwoTickets(l: Life)
    ensures CanOrderTwice(l) <==> Tickets(l) >= 2
  {
    if Tickets(l) >= 2 {
      CallsOutIsNatural(l);
      var creations := TicketsCanBecomeOrders(l, Order("", "", []), CallsOut(l));
    }
    if creations: seq<Step> :| OnlyCreations(creations) && |Run(l, creations).supplierOrders| >= 2 {
      CreationsKeepTickets(l, creations);
    }
  }

  // Over whole runs.

  ghost predicate NeverOrdersTwice(l: Life, steps: seq<Step>) {
    forall i :: 0 <= i <= |steps| ==> !CanOrderTwice(Run(l, steps[..i]))
  }

  /** The check a fulfilment job leaves out: that no earlier call created an order or still may. */
  ghost predicate CallsWithNothingAsked(l: Life, steps: seq<Step>) {
    forall i :: 0 <= i < |steps| && Calls(Run(l, steps[..i]), steps[i]) ==> Tickets(Run(l, steps[..i])) == 0
  }

  lemma {:induction false} AtMostOneTicket(l: Life, steps: seq<Step>, n: nat)
    requires n <= |steps| && Tickets(l) == 0 && CallsWithNothingAsked(l, steps)
    ensures 0 <= Tickets(Run(l, steps[..n])) <= 1
  {
    CallsOutIsNatural(Run(l, steps[..n]));
    if n > 0 {
      AtMostOneTicket(l, steps, n - 1);
      PrefixStep(l, steps, n - 1);
      NextTickets(Run(l, steps[..n - 1]), steps[n - 1]);
    } else {
      assert steps[..0] == [];
    }
  }

  lemma NothingAskedIffNeverTwice(l: Life, steps: seq<Step>)
    requires Tickets(l) == 0
    ensures NeverOrdersTwice(l, steps) <==> CallsWithNothingAsked(l, steps)
  {
    if CallsWithNothingAsked(l, steps) {
      forall i | 0 <= i <= |steps| ensures !CanOrderTwice(Run(l, steps[..i])) {
        AtMostOneTicket(l, steps, i);
        CanOrderTwiceIffTwoTickets(Run(l, steps[..i]));
      }
    }
    if NeverOrdersTwice(l, steps) {
      forall i | 0 <= i < |steps| && Calls(Run(l, steps[..i]), steps[i])
        ensures Tickets(Run(l, steps[..i])) == 0
      {
        PrefixStep(l, steps, i);
        CallsOutIsNatural(Run(l, steps[..i]));
        NextTickets(Run(l, steps[..i]), steps[i]);
        assert !CanOrderTwice(Run(l, steps[..i + 1]));
        CanOrderTwiceIffTwoTickets(Run(l, steps[..i + 1]));
      }
    }
  }

  /**
   * In any run, the booking can never get a second order exactly when each fulfilment job that finds it paid
   * starts its call with no order created and no call out.
   */
  lemma OrdersAtMostOnceIffNothingAsked(baseAmount: nat, markupAmount: nat, currency: string, steps: seq<Step>)
    ensures NeverOrdersTwice(Start(baseAmount, markupAmount, currency), steps)
       <==> CallsWithNothingAsked(Start(baseAmount, markupAmount, currency), steps)
  {
    NothingAskedIffNeverTwice(Start(baseAmount, markupAmount, currency), steps);
  }

  // How it happens.

  lemma TwoAsked(l: Life) returns (steps: seq<Step>)
    requires l.rows.booking.status == Paid
    ensures AllHonest(l, steps)
    ensures Run(l, steps) == l.(flights := l.flights + [AwaitingOrder(Fulfilment), AwaitingOrder(Fulfilment)])
  {
    var one := l.(flights := l.flights + [AwaitingOrder(Fulfilment)]);
    AskingAddsFlight(l, Fulfilment);
    HonestSnoc(l, [], AskSupplier(Fulfilment));
    steps := [] + [AskSupplier(Fulfilment)];
    assert Run(l, steps) == one;
    AskingAddsFlight(one, Fulfilment);
    HonestSnoc(l, steps, AskSupplier(Fulfilment));
    steps := steps + [AskSupplier(Fulfilment)];
    assert one.flights + [AwaitingOrder(Fulfilment)] ==
           l.flights + [AwaitingOrder(Fulfilment), AwaitingOrder(Fulfilment)];
  }

  /** A second fulfilment job that also finds the booking paid makes the supplier create a second order. */
  lemma TwoCallsTwoOrders(l: Life, a: Order, b: Order) returns (steps: seq<Step>)
    requires l.rows.booking.status == Paid
    ensures AllHonest(l, steps) && Run(l, steps).supplierOrders == l.supplierOrders + [a, b]
  {
    var k := |l.flights|;
    steps := TwoAsked(l);
    steps := HonestCreation(l, steps, Run(l, steps), k, a);
    steps := HonestCreation(l, steps, Run(l, steps), k + 1, b);
    assert l.supplierOrders + [a] + [b] == l.supplierOrders + [a, b];
  }

  lemma LostAnswer(l: Life, k: nat, order: Order)
    requires FlightAt(l, k) == OrderPlaced(order)
    ensures Next(l, SupplierAnswers(k, Unclear)) == l.(flights := l.flights[k := Done])
  {
  }

  lemma SecondCapture(l: Life)
    requires Sound(l) && l.rows.booking.status == Paid
    ensures var l' := Next(l, PaymentCaptured);
            l' == l.(rows := l'.rows) && l'.rows.booking.status == Paid && Payments(l'.rows) >= 2
  {
    DoublePayment.PaidStaysCaptured(l.rows);
    DoublePayment.NextPayments(l, PaymentCaptured);
  }

  lemma HonestStep(l: Life, before: seq<Step>, now: Life, step: Step, later: Life) returns (steps: seq<Step>)
    requires AllHonest(l, before) && now == Run(l, before) && Honest(now, step) && Next(now, step) == later
    ensures steps == before + [step] && AllHonest(l, steps) && Run(l, steps) == later
  {
    HonestSnoc(l, before, step);
    steps := before + [step];
  }

  function OrderedAndLost(l: Life, order: Order): Life {
    l.(flights := l.flights + [Done], supplierOrders := l.supplierOrders + [order])
  }

  /** A job calls, its order is created, and the answer is lost. */
  function LostCall(k: nat, order: Order): seq<Step> {
    [AskSupplier(Fulfilment), SupplierCreates(k, order), SupplierAnswers(k, Unclear)]
  }

  lemma CallIsLost(l: Life, before: seq<Step>, now: Life, order: Order) returns (steps: seq<Step>)
    requires AllHonest(l, before) && now == Run(l, before) && now.rows.booking.status == Paid
    ensures steps == before + LostCall(|now.flights|, order)
    ensures AllHonest(l, steps) && Run(l, steps) == OrderedAndLost(now, order)
  {
    var k := |now.flights|;
    AskingAddsFlight(now, Fulfilment);
    var calling := now.(flights := now.flights + [AwaitingOrder(Fulfilment)]);
    steps := HonestStep(l, before, now, AskSupplier(Fulfilment), calling);
    steps := HonestCreation(l, steps, calling, k, order);
    var placed := calling.(flights := calling.flights[k := OrderPlaced(order)],
                           supplierOrders := now.supplierOrders + [order]);
    LostAnswer(placed, k, order);
    assert placed.flights[k := Done] == now.flights + [Done];
    steps := HonestStep(l, steps, placed, SupplierAnswers(k, Unclear), OrderedAndLost(now, order));
  }

  function LostThenAgain(a: Order, b: Order): seq<Step> {
    PAYING + LostCall(0, a) + [PaymentCaptured] + LostCall(1, b)
  }

  /** A paid booking whose first order call was lost is captured again. */
  lemma CapturedAgain(baseAmount: nat, markupAmount: nat, currency: string, a: Order) returns (now: Life)
    ensures var start, steps := Start(baseAmount, markupAmount, currency), PAYING + LostCall(0, a) + [PaymentCaptured];
            AllHonest(start, steps) && now == Run(start, steps)
    ensures now.rows.booking.status == Paid && Payments(now.rows) >= 2
    ensures now.flights == [Done] && now.supplierOrders == [a]
  {
    var start := Start(baseAmount, markupAmount, currency);
    var paying := PaidIsReachable(baseAmount, markupAmount, currency);
    var paid := Run(start, paying);
    assert AllHonest(start, paying);
    var steps := CallIsLost(start, paying, paid, a);
    var lost := OrderedAndLost(paid, a);
    EveryRunIsSound(baseAmount, markupAmount, currency, steps);
    SecondCapture(lost);
    now := Next(lost, PaymentCaptured);
    steps := HonestStep(start, steps, lost, PaymentCaptured, now);
  }

  /**
   * From the start, with no two calls out at once: the answer of the first call is lost, a second gateway
   * transaction is captured, and the job it queues orders again.
   */
  lemma LostAnswerThenSecondJob(baseAmount: nat, markupAmount: nat, currency: string, a: Order, b: Order)
    ensures var start := Start(baseAmount, markupAmount, currency);
            && AllHonest(start, LostThenAgain(a, b))
            && var l := Run(start, LostThenAgain(a, b));
               l.rows.booking.status == Paid && Payments(l.rows) >= 2 && l.supplierOrders == [a, b]
  {
    var now := CapturedAgain(baseAmount, markupAmount, currency, a);
    var steps := CallIsLost(Start(baseAmount, markupAmount, currency), PAYING + LostCall(0, a) + [PaymentCaptured],
                            now, b);
  }
}

/**
 * A booking that was given up and refunded, and the order the supplier may create for it all the same: order calls
 * that are still out while the listing is read.
 */
module SupplierOrders {
  import opened Support
  import opened Records
  import opened BookingStateMachine
  import opened Consistency
  import opened Transactions
  import opened Lifecycle
  import opened EveryRun
  import opened PaidRun
  import FulfillmentOutcome
  import OrderCreation

  function CallOut(f: Flight): int {
    if f == AwaitingOrder(Fulfilment) then 1 else 0
  }

  function CallsOut(l: Life): int {
    SumBy(l.flights, CallOut)
  }

  /** Orders the supplier created for the booking, and calls that may yet make it create one. */
  function Tickets(l: Life): int {
    |l.supplierOrders| + CallsOut(l)
  }

  predicate Calls(l: Life, step: Step) {
    step == AskSupplier(Fulfilment) && l.rows.booking.status == Paid
  }

  lemma CallsOutIsNatural(l: Life)
    ensures 0 <= CallsOut(l)
    ensures forall k :: 0 <= k < |l.flights| && l.flights[k] == AwaitingOrder(Fulfilment) ==> 1 <= CallsOut(l)
  {
    SumNonNegative(l.flights, CallOut);
    forall k | 0 <= k < |l.flights| && l.flights[k] == AwaitingOrder(Fulfilment) ensures 1 <= CallsOut(l) {
      assert CallOut(l.flights[k]) == 1;
    }
  }

  lemma FlightMoves(l: Life, f: Flight, step: Step)
    ensures CallOut(Moved(l, f, step)) <= CallOut(f)
    ensures step.SupplierCreates? && f == AwaitingOrder(Fulfilment) ==> CallOut(Moved(l, f, step)) == 0
    ensures CallOut(Moved(l, f, step)) < CallOut(f) ==> step.SupplierCreates? || step.SupplierAnswers?
  {
  }

  lemma CallsAfterMove(l: Life, step: Step, k: nat)
    requires Mover(step) == Some(k)
    ensures CallsOut(Next(l, step)) <= CallsOut(l) - if CreatesOrder(l, step) then 1 else 0
  {
    if k < |l.flights| {
      FlightMoves(l, l.flights[k], step);
      SumUpdate(l.flights, k, Moved(l, l.flights[k], step), CallOut);
    }
  }

  lemma CallsAfterLaunch(l: Life, step: Step)
    requires Mover(step).None?
    ensures CallsOut(Next(l, step)) == CallsOut(l) + if Calls(l, step) then 1 else 0
  {
    var launched := Launched(l, step);
    assert launched.Some? && launched.value == AwaitingOrder(Fulfilment) <==> Calls(l, step);
    if launched.Some? {
      SumAppend(l.flights, launched.value, CallOut);
    }
  }

  /** A new call raises the tickets by one, and nothing else raises them. */
  lemma NextTickets(l: Life, step: Step)
    ensures if Calls(l, step) then Tickets(Next(l, step)) == Tickets(l) + 1 else Tickets(Next(l, step)) <= Tickets(l)
    ensures |l.supplierOrders| <= |Next(l, step).supplierOrders|
  {
    match Mover(step)
    case Some(k) => CallsAfterMove(l, step, k);
    case None => CallsAfterLaunch(l, step);
  }

  // From the moment the booking is given up.

  /** The settlement that gives a paid booking up and creates its refund. */
  predicate GivesUp(l: Life, step: Step) {
    TransactionOf(l, step).FailAndRefund? && l.rows.booking.status == Paid
  }

  ghost predicate NeverOrdered(l: Life) {
    forall steps: seq<Step> :: Run(l, steps).supplierOrders == []
  }

  predicate BeyondPaid(r: Rows) {
    Rank(r.booking.status) > Rank(Paid)
  }

  lemma BeyondPaidStays(r: Rows, tx: Transaction)
    requires Consistent(r) && BeyondPaid(r)
    ensures BeyondPaid(Apply(r, tx))
  {
    ApplyConsistent(r, tx);
    ApplyExtends(r, tx);
    if !BeyondPaid(Apply(r, tx)) {
      RanksClimb(r.history, r.booking.status, Apply(r, tx).history, Apply(r, tx).booking.status);
    }
  }

  lemma {:induction false} RanksClimb(before: seq<HistoryRow>, status: BookingStatus, after: seq<HistoryRow>,
                                      later: BookingStatus)
    requires Chain(before, status) && Chain(after, later) && before <= after
    ensures Rank(status) <= Rank(later)
  {
    if |before| < |after| {
      var n := |after| - 1;
      assert before <= after[..n];
      RanksClimb(before, status, after[..n], after[n].from);
    } else {
      assert before == after;
    }
  }

  lemma {:induction false} NoTicketsLater(l: Life, steps: seq<Step>)
    requires Sound(l) && BeyondPaid(l.rows) && Tickets(l) == 0
    ensures var l' := Run(l, steps); BeyondPaid(l'.rows) && Tickets(l') == 0 && l'.supplierOrders == []
  {
    CallsOutIsNatural(Run(l, steps));
    if steps != [] {
      var n := |steps| - 1;
      var before := Run(l, steps[..n]);
      NoTicketsLater(l, steps[..n]);
      RunSound(l, steps[..n]);
      BeyondPaidStays(before.rows, TransactionOf(before, steps[n]));
      NextTickets(before, steps[n]);
    }
  }

  lemma {:induction false} SomeCallIsOut(flights: seq<Flight>) returns (k: nat)
    requires SumBy(flights, CallOut) > 0
    ensures k < |flights| && flights[k] == AwaitingOrder(Fulfilment)
  {
    var n := |flights| - 1;
    if flights[n] == AwaitingOrder(Fulfilment) {
      k := n;
    } else {
      k := SomeCallIsOut(flights[..n]);
    }
  }

  lemma TicketBecomesOrder(l: Life, order: Order) returns (steps: seq<Step>)
    requires Tickets(l) > 0
    ensures Run(l, steps).supplierOrders != []
  {
    CallsOutIsNatural(l);
    steps := [];
    if l.supplierOrders == [] {
      var k := SomeCallIsOut(l.flights);
      OrderAppears(l, k, order);
      RunSnoc(l, [], SupplierCreates(k, order));
      steps := [] + [SupplierCreates(k, order)];
    } else {
      assert Run(l, steps) == l;
    }
  }

  lemma OrderAppears(l: Life, k: nat, order: Order)
    requires FlightAt(l, k) == AwaitingOrder(Fulfilment)
    ensures Next(l, SupplierCreates(k, order)).supplierOrders == l.supplierOrders + [order]
  {
  }

  lemma GivingUpMovesFlight(l: Life, step: Step)
    requires GivesUp(l, step)
    ensures step.SettleOrder? && FlightAt(l, step.flight).OrderRefused?
    ensures Next(l, step).flights == l.flights[step.flight := Done] && Next(l, step).supplierOrders == l.supplierOrders
    ensures Next(l, step).rows.booking.status == OrderFailed
  {
  }

  lemma GivingUpKeepsTickets(l: Life, step: Step)
    requires Sound(l) && GivesUp(l, step)
    ensures Sound(Next(l, step)) && BeyondPaid(Next(l, step).rows)
    ensures Next(l, step).supplierOrders == l.supplierOrders && CallsOut(Next(l, step)) == CallsOut(l)
  {
    NextSound(l, step);
    GivingUpMovesFlight(l, step);
    SumUpdate(l.flights, step.flight, Done, CallOut);
  }

  /**
   * A booking given up for lost stays without an order, whatever anyone does afterwards, exactly when at that
   * moment the supplier had created none and no order call was still out.
   */
  lemma NeverOrderedIffNothingOut(l: Life, step: Step)
    requires Sound(l) && GivesUp(l, step)
    ensures NeverOrdered(Next(l, step)) <==> l.supplierOrders == [] && CallsOut(l) == 0
  {
    var l' := Next(l, step);
    GivingUpKeepsTickets(l, step);
    CallsOutIsNatural(l);
    if Tickets(l) == 0 {
      forall steps: seq<Step> ensures Run(l', steps).supplierOrders == [] {
        NoTicketsLater(l', steps);
      }
    } else {
      var steps := TicketBecomesOrder(l', Order("", "", []));
    }
  }

  // What an honest supplier answers, and a run in which that is not enough.

  /** Answers from what the supplier has: its own order, the listing as it stands, and no webhook without an order. */
  predicate Honest(l: Life, step: Step) {
    match step
    case SupplierAnswers(k, Found(order)) =>
      (match FlightAt(l, k)
       case OrderPlaced(placed) => order == placed
       case AwaitingOrder(source) => source.Reconciliation? && order in l.supplierOrders
       case _ => true)
    case SupplierAnswers(k, Refused) =>
      (match FlightAt(l, k)
       case OrderPlaced(_) => false
       case AwaitingOrder(source) => source.Reconciliation? ==> l.supplierOrders == []
       case _ => true)
    case OrderWebhook(order) => order in l.supplierOrders
    case _ => true
  }

  ghost predicate AllHonest(l: Life, steps: seq<Step>) {
    forall i :: 0 <= i < |steps| ==> Honest(Run(l, steps[..i]), steps[i])
  }

  lemma HonestSnoc(l: Life, steps: seq<Step>, step: Step)
    requires AllHonest(l, steps) && Honest(Run(l, steps), step)
    ensures AllHonest(l, steps + [step]) && Run(l, steps + [step]) == Next(Run(l, steps), step)
  {
    RunSnoc(l, steps, step);
    forall i | 0 <= i < |steps + [step]| ensures Honest(Run(l, (steps + [step])[..i]), (steps + [step])[i]) {
      assert (steps + [step])[..i] == steps[..i] && steps[..|steps|] == steps;
    }
  }

  lemma AskingAddsFlight(l: Life, source: Source)
    requires l.rows.booking.status == Paid
    ensures Next(l, AskSupplier(source)) == l.(flights := l.flights + [AwaitingOrder(source)])
  {
  }

  lemma EmptyScanRefuses(l: Life, k: nat)
    requires FlightAt(l, k) == AwaitingOrder(Reconciliation)
    ensures Next(l, SupplierAnswers(k, Refused)) == l.(flights := l.flights[k := OrderRefused(Reconciliation)])
  {
  }

  lemma RefusalGivesUp(l: Life, k: nat)
    requires FlightAt(l, k) == OrderRefused(Reconciliation) && l.rows.booking.status == Paid
    ensures Next(l, SettleOrder(k)) ==
            l.(rows := FulfillmentOutcome.FailAndRefund(l.rows), flights := l.flights[k := Done])
    ensures FulfillmentOutcome.FailAndRefund(l.rows).booking.status == OrderFailed
  {
  }

  lemma CreationIsLogged(l: Life, k: nat, order: Order)
    requires FlightAt(l, k) == AwaitingOrder(Fulfilment)
    ensures Next(l, SupplierCreates(k, order)) ==
            l.(flights := l.flights[k := OrderPlaced(order)], supplierOrders := l.supplierOrders + [order])
  {
  }

  lemma HonestCreation(l: Life, before: seq<Step>, now: Life, k: nat, order: Order) returns (steps: seq<Step>)
    requires AllHonest(l, before) && now == Run(l, before) && FlightAt(now, k) == AwaitingOrder(Fulfilment)
    ensures steps == before + [SupplierCreates(k, order)] && AllHonest(l, steps)
    ensures Run(l, steps) ==
            now.(flights := now.flights[k := OrderPlaced(order)], supplierOrders := now.supplierOrders + [order])
  {
    CreationIsLogged(now, k, order);
    HonestSnoc(l, before, SupplierCreates(k, order));
    steps := before + [SupplierCreates(k, order)];
  }

  function LateCall(order: Order): seq<Step> {
    [AskSupplier(Fulfilment), AskSupplier(Reconciliation), SupplierAnswers(1, Refused), SettleOrder(1),
     SupplierCreates(0, order)]
  }

  /**
   * The listing is read to its end while an order call is still out: the booking is given up and its money goes
   * back, and then the call creates the order. Every answer on the way is honest.
   */
  lemma RefundedWithAnOrder(n: nat, order: Order) returns (paying: seq<Step>, steps: seq<Step>)
    requires n > 0
    ensures var paid := Run(Start(n, 0, "USD"), paying);
            && paid.rows.booking.status == Paid && paid.flights == []
            && AllHonest(paid, steps) && steps == LateCall(order)
            && var l := Run(paid, steps);
               && l.rows.booking.status == OrderFailed && l.supplierOrders == [order]
               && l.rows.refunds == [Refund(n, RefundPending, None, None, None)]
  {
    paying := PaidIsReachable(n, 0, "USD");
    steps := RefundedThenOrdered(Run(Start(n, 0, "USD"), paying), n, order);
  }

  lemma RefundedThenOrdered(paid: Life, n: nat, order: Order) returns (steps: seq<Step>)
    requires n > 0 && paid.rows.payment == Some(Payment(PaymentSucceeded, n)) && paid.rows.booking.Total() == n
    requires paid.rows.booking.status == Paid && paid.rows.refunds == [] && paid.flights == []
    requires paid.supplierOrders == []
    ensures AllHonest(paid, steps) && steps == LateCall(order)
    ensures var l := Run(paid, steps);
            && l.rows.booking.status == OrderFailed && l.supplierOrders == [order]
            && l.rows.refunds == [Refund(n, RefundPending, None, None, None)]
  {
    steps := OrderedAfterGivingUp(paid, order);
    FullRefund(paid.rows, n);
  }

  lemma FullRefund(r: Rows, n: nat)
    requires n > 0 && r.payment == Some(Payment(PaymentSucceeded, n)) && r.booking.Total() == n
    requires r.booking.status == Paid && r.refunds == []
    ensures FulfillmentOutcome.FailAndRefund(r).refunds == [Refund(n, RefundPending, None, None, None)]
  {
  }

  lemma OrderedAfterGivingUp(paid: Life, order: Order) returns (steps: seq<Step>)
    requires paid.rows.booking.status == Paid && paid.flights == [] && paid.supplierOrders == []
    ensures AllHonest(paid, steps) && steps == LateCall(order)
    ensures var l := Run(paid, steps);
            && l.rows == FulfillmentOutcome.FailAndRefund(paid.rows) && l.rows.booking.status == OrderFailed
            && l.supplierOrders == [order]
  {
    steps := GivenUpWhileOut(paid);
    steps := HonestCreation(paid, steps, Run(paid, steps), 0, order);
    assert [] + [order] == [order];
  }

  lemma GivenUpWhileOut(paid: Life) returns (steps: seq<Step>)
    requires paid.rows.booking.status == Paid && paid.flights == [] && paid.supplierOrders == []
    ensures AllHonest(paid, steps)
    ensures steps == [AskSupplier(Fulfilment), AskSupplier(Reconciliation), SupplierAnswers(1, Refused), SettleOrder(1)]
    ensures Run(paid, steps) == paid.(rows := FulfillmentOutcome.FailAndRefund(paid.rows),
                                      flights := [AwaitingOrder(Fulfilment), Done])
    ensures FulfillmentOutcome.FailAndRefund(paid.rows).booking.status == OrderFailed
  {
    steps := ListReadWhileOut(paid);
    RefusalGivesUp(Run(paid, steps), 1);
    HonestSnoc(paid, steps, SettleOrder(1));
    steps := steps + [SettleOrder(1)];
  }

  lemma ListReadWhileOut(paid: Life) returns (steps: seq<Step>)
    requires paid.rows.booking.status == Paid && paid.flights == [] && paid.supplierOrders == []
    ensures AllHonest(paid, steps)
    ensures steps == [AskSupplier(Fulfilment), AskSupplier(Reconciliation), SupplierAnswers(1, Refused)]
    ensures Run(paid, steps) == paid.(flights := [AwaitingOrder(Fulfilment), OrderRefused(Reconciliation)])
  {
    AskingAddsFlight(paid, Fulfilment);
    HonestSnoc(paid, [], AskSupplier(Fulfilment));
    steps := [] + [AskSupplier(Fulfilment)];
    var calling := paid.(flights := [AwaitingOrder(Fulfilment)]);
    assert Run(paid, steps) == calling;
    AskingAddsFlight(calling, Reconciliation);
    HonestSnoc(paid, steps, AskSupplier(Reconciliation));
    steps := steps + [AskSupplier(Reconciliation)];
    var scanning := paid.(flights := [AwaitingOrder(Fulfilment), AwaitingOrder(Reconciliation)]);
    assert Run(paid, steps) == scanning;
    EmptyScanRefuses(scanning, 1);
    HonestSnoc(paid, steps, SupplierAnswers(1, Refused));
    steps := steps + [SupplierAnswers(1, Refused)];
  }

  // Runs that cannot do that: one order call, over before the listing is read.

  predicate Undecided(f: Flight) {
    f.OrderRefused? || f == AwaitingOrder(Reconciliation)
  }

  /** A call starts before anything was asked; a scan starts with no call out; the supplier is honest. */
  ghost predicate Guarded(l: Life, step: Step) {
    && Honest(l, step)
    && (Calls(l, step) ==> Tickets(l) == 0 && forall k :: 0 <= k < |l.flights| ==> !Undecided(l.flights[k]))
    && (step == AskSupplier(Reconciliation) && l.rows.booking.status == Paid ==> CallsOut(l) == 0)
  }

  ghost predicate Settled(l: Life) {
    && Tickets(l) <= 1
    && (forall k :: 0 <= k < |l.flights| && l.flights[k].OrderRefused? ==> Tickets(l) == 0)
    && (forall k :: 0 <= k < |l.flights| && l.flights[k] == AwaitingOrder(Reconciliation) ==> CallsOut(l) == 0)
  }

  lemma LaunchedFlights(l: Life, step: Step)
    requires Mover(step).None?
    ensures Next(l, step).flights == l.flights ||
            (Next(l, step).flights == l.flights + [Launched(l, step).value] && Launched(l, step).Some?)
    ensures Launched(l, step) == Some(AwaitingOrder(Reconciliation)) ==> step == AskSupplier(Reconciliation)
    ensures Launched(l, step).Some? ==> !Launched(l, step).value.OrderRefused?
    ensures Next(l, step).supplierOrders == l.supplierOrders
  {
  }

  lemma CallSettled(l: Life, step: Step)
    requires Settled(l) && Guarded(l, step) && Mover(step).None?
    ensures Settled(Next(l, step))
  {
    var l' := Next(l, step);
    LaunchedFlights(l, step);
    CallsAfterLaunch(l, step);
    CallsOutIsNatural(l);
    forall k | 0 <= k < |l'.flights| && l'.flights[k].OrderRefused? ensures Tickets(l') == 0 {
      assert l'.flights[k] == l.flights[k] && Undecided(l.flights[k]);
    }
    forall k | 0 <= k < |l'.flights| && l'.flights[k] == AwaitingOrder(Reconciliation) ensures CallsOut(l') == 0 {
      assert k < |l.flights| ==> l.flights[k] == AwaitingOrder(Reconciliation) && Undecided(l.flights[k]);
    }
  }

  lemma RefusedSettled(l: Life, k: nat)
    requires Settled(l) && Honest(l, SupplierAnswers(k, Refused)) && k < |l.flights|
    requires l.flights[k].AwaitingOrder?
    ensures Tickets(Next(l, SupplierAnswers(k, Refused))) == 0
  {
    var l', source := Next(l, SupplierAnswers(k, Refused)), l.flights[k].source;
    assert l'.flights == l.flights[k := OrderRefused(source)] && l'.supplierOrders == l.supplierOrders;
    SumUpdate(l.flights, k, OrderRefused(source), CallOut);
    CallsOutIsNatural(l);
    OneOfTwo(source);
    if source == Fulfilment {
      assert l.flights[k] == AwaitingOrder(Fulfilment);
    } else {
      assert l.flights[k] == AwaitingOrder(Reconciliation) && FlightAt(l, k) == l.flights[k];
    }
  }

  lemma MovedSettled(l: Life, step: Step, k: nat)
    requires Settled(l) && Guarded(l, step) && Mover(step) == Some(k)
    ensures Settled(Next(l, step))
  {
    var l' := Next(l, step);
    CallsAfterMove(l, step, k);
    NextTickets(l, step);
    CallsOutIsNatural(l);
    CallsOutIsNatural(l');
    if k < |l.flights| {
      assert forall j :: 0 <= j < |l.flights| && j != k ==> l'.flights[j] == l.flights[j];
      if l'.flights[k].OrderRefused? && !l.flights[k].OrderRefused? {
        RefusedSettled(l, k);
      }
    }
  }

  lemma NextSettled(l: Life, step: Step)
    requires Settled(l) && Guarded(l, step)
    ensures Settled(Next(l, step))
  {
    match Mover(step)
    case Some(k) => MovedSettled(l, step, k);
    case None => CallSettled(l, step);
  }

  ghost predicate AllGuarded(l: Life, steps: seq<Step>) {
    forall i :: 0 <= i < |steps| ==> Guarded(Run(l, steps[..i]), steps[i])
  }

  /** Given up means without an order, then and later. */
  ghost predicate GivenUpWithoutOrder(l: Life) {
    Visits(l.rows, OrderFailed) >= 1 ==> Tickets(l) == 0 && l.supplierOrders == []
  }

  lemma NextGivenUp(l: Life, step: Step)
    requires Sound(l) && Settled(l) && Guarded(l, step) && GivenUpWithoutOrder(l)
    ensures GivenUpWithoutOrder(Next(l, step))
  {
    var l' := Next(l, step);
    NextSound(l, step);
    ChainPassedPaid(l.rows.history, l.rows.booking.status);
    CallsOutIsNatural(l');
    if GivesUp(l, step) {
      GivingUpKeepsTickets(l, step);
    } else if Visits(l'.rows, OrderFailed) >= 1 {
      OnlyGivingUpFails(l, step);
      NextTickets(l, step);
    }
  }

  lemma OnlyGivingUpFails(l: Life, step: Step)
    requires Sound(l) && !GivesUp(l, step)
    ensures Visits(Next(l, step).rows, OrderFailed) == Visits(l.rows, OrderFailed)
  {
    NotFailedOtherwise(l.rows, TransactionOf(l, step));
    FailuresCounted(l.rows, TransactionOf(l, step));
  }

  lemma NotFailedOtherwise(r: Rows, tx: Transaction)
    requires !(tx.FailAndRefund? && r.booking.status == Paid)
    ensures Apply(r, tx).booking.status == OrderFailed ==> r.booking.status == OrderFailed
  {
  }

  lemma FailuresCounted(r: Rows, tx: Transaction)
    requires Consistent(r) && (Apply(r, tx).booking.status == OrderFailed ==> r.booking.status == OrderFailed)
    ensures Visits(Apply(r, tx), OrderFailed) == Visits(r, OrderFailed)
  {
    if tx.Confirm? {
      ConfirmingFailsNothing(r, tx.order);
    } else if Apply(r, tx).history != r.history {
      HistoryMovesByTransition(r, tx);
      TransitionVisits(r, Apply(r, tx).booking.status, OrderFailed);
    }
  }

  lemma ConfirmingFailsNothing(r: Rows, order: Order)
    requires Consistent(r)
    ensures Visits(Apply(r, Confirm(order)), OrderFailed) == Visits(r, OrderFailed)
  {
    if r.booking.status == Paid {
      TransitionVisits(r, BookingStatus.Confirmed, OrderFailed);
      assert Apply(r, Confirm(order)).history == Transition(r, BookingStatus.Confirmed).value.history;
    }
  }

  lemma {:induction false} GuardedRun(l: Life, steps: seq<Step>)
    requires Sound(l) && Settled(l) && GivenUpWithoutOrder(l) && AllGuarded(l, steps)
    ensures var l' := Run(l, steps); Sound(l') && Settled(l') && GivenUpWithoutOrder(l')
  {
    if steps != [] {
      var n := |steps| - 1;
      var before := Run(l, steps[..n]);
      forall i | 0 <= i < n ensures Guarded(Run(l, steps[..n][..i]), steps[..n][i]) {
        assert steps[..n][..i] == steps[..i];
      }
      GuardedRun(l, steps[..n]);
      NextSound(before, steps[n]);
      NextSettled(before, steps[n]);
      NextGivenUp(before, steps[n]);
    }
  }

  // The clock that makes a run guarded.

  predicate Scans(l: Life, step: Step) {
    step == AskSupplier(Reconciliation) && l.rows.booking.status == Paid
  }

  /** The flight a call launched at step j of the run occupies. */
  function FlightOf(l: Life, steps: seq<Step>, j: nat): nat
    requires j <= |steps|
  {
    |Run(l, steps[..j]).flights|
  }

  ghost predicate CallsAt(l: Life, steps: seq<Step>, j: nat) {
    j < |steps| && Calls(Run(l, steps[..j]), steps[j])
  }

  /** The call launched at step j is out when step i happens. */
  ghost predicate StillOutAt(l: Life, steps: seq<Step>, j: nat, i: nat) {
    && j < i < |steps| && CallsAt(l, steps, j)
    && FlightAt(Run(l, steps[..i]), FlightOf(l, steps, j)) == AwaitingOrder(Fulfilment)
  }

  /**
   * Step i happens at time at[i]. The booking's last write before it leaves paid is its payment, at paidAt; the
   * sweep looks after its window, a call is out no longer than a call can take.
   */
  ghost predicate Clocked(l: Life, steps: seq<Step>, at: seq<int>, paidAt: int) {
    && |at| == |steps|
    && (forall i, j :: 0 <= i < j < |at| ==> at[i] <= at[j])
    && (forall i :: 0 <= i < |steps| && Scans(Run(l, steps[..i]), steps[i]) ==>
        OrderCreation.SweepMayLook(paidAt, at[i]))
    && (forall i: nat, j: nat :: StillOutAt(l, steps, j, i) ==> at[i] <= at[j] + OrderCreation.LONGEST_CALL_MS)
  }

  ghost predicate PaysAt(l: Life, steps: seq<Step>, i: nat) {
    && i < |steps|
    && Run(l, steps[..i]).rows.booking.status != Paid
    && Run(l, steps[..i + 1]).rows.booking.status == Paid
  }

  /** The clock's payment is the step that moved the booking to paid. */
  ghost predicate PaidAt(l: Life, steps: seq<Step>, at: seq<int>, paidAt: int)
    requires |at| == |steps|
  {
    forall i: nat :: PaysAt(l, steps, i) ==> at[i] == paidAt
  }

  /** One order call, started no longer than this after the payment. */
  ghost predicate StartsWithin(l: Life, steps: seq<Step>, at: seq<int>, paidAt: int, ms: int)
    requires |at| == |steps|
  {
    && (forall j: nat :: CallsAt(l, steps, j) ==> at[j] - paidAt <= ms)
    && (forall i: nat, j: nat :: i < j && CallsAt(l, steps, i) ==> !CallsAt(l, steps, j))
  }

  ghost predicate InTime(l: Life, steps: seq<Step>, at: seq<int>, paidAt: int)
    requires |at| == |steps|
  {
    StartsWithin(l, steps, at, paidAt, OrderCreation.LATEST_START_MS)
  }

  lemma {:induction false} CallWasLaunched(l: Life, steps: seq<Step>, n: nat, k: nat) returns (j: nat)
    requires n <= |steps| && l.flights == [] && FlightAt(Run(l, steps[..n]), k) == AwaitingOrder(Fulfilment)
    ensures j < n && CallsAt(l, steps, j) && FlightOf(l, steps, j) == k
  {
    assert steps[..0] == [];
    var before, step := Run(l, steps[..n - 1]), steps[n - 1];
    PrefixStep(l, steps, n - 1);
    if k < |before.flights| {
      StillOut(before, step, k);
      j := CallWasLaunched(l, steps, n - 1, k);
    } else {
      j := n - 1;
      NewlyOut(before, step, k);
    }
  }

  lemma StillOut(l: Life, step: Step, k: nat)
    requires k < |l.flights| && FlightAt(Next(l, step), k) == AwaitingOrder(Fulfilment)
    ensures l.flights[k] == AwaitingOrder(Fulfilment)
  {
  }

  lemma NewlyOut(l: Life, step: Step, k: nat)
    requires k >= |l.flights| && FlightAt(Next(l, step), k) == AwaitingOrder(Fulfilment)
    ensures Calls(l, step) && k == |l.flights|
  {
  }

  predicate Unasked(f: Flight) {
    !f.AwaitingOrder? && !f.OrderPlaced? && !f.OrderRefused?
  }

  ghost predicate NothingAsked(l: Life) {
    l.supplierOrders == [] && forall k :: 0 <= k < |l.flights| ==> Unasked(l.flights[k])
  }

  lemma {:induction false} NoneOut(flights: seq<Flight>)
    requires forall k :: 0 <= k < |flights| ==> Unasked(flights[k])
    ensures SumBy(flights, CallOut) == 0
  {
    if flights != [] {
      NoneOut(flights[..|flights| - 1]);
    }
  }

  lemma StaysUnasked(l: Life, f: Flight, step: Step)
    requires Unasked(f)
    ensures Unasked(Moved(l, f, step))
  {
  }

  lemma OneOfTwo(source: Source)
    ensures source == Fulfilment || source == Reconciliation
  {
    match source
    case Fulfilment =>
    case Reconciliation =>
  }

  lemma StillNothingAsked(l: Life, step: Step)
    requires !Calls(l, step) && !Scans(l, step) && NothingAsked(l)
    ensures NothingAsked(Next(l, step))
  {
    match Mover(step)
    case Some(k) => if k < |l.flights| { StaysUnasked(l, l.flights[k], step); }
    case None =>
      if step.AskSupplier? {
        OneOfTwo(step.source);
      }
  }

  /** Before anything was asked there is nothing to decide, no call out and no order. */
  lemma {:induction false} NothingAskedYet(l: Life, steps: seq<Step>, n: nat)
    requires n <= |steps| && l.flights == [] && l.supplierOrders == []
    requires forall i: nat :: i < n ==> !CallsAt(l, steps, i) && !Scans(Run(l, steps[..i]), steps[i])
    ensures NothingAsked(Run(l, steps[..n]))
  {
    if n > 0 {
      NothingAskedYet(l, steps, n - 1);
      assert !CallsAt(l, steps, n - 1) && !Scans(Run(l, steps[..n - 1]), steps[n - 1]);
      PrefixStep(l, steps, n - 1);
      StillNothingAsked(Run(l, steps[..n - 1]), steps[n - 1]);
    } else {
      assert steps[..0] == [];
    }
  }

  lemma ClockedIsGuarded(l: Life, steps: seq<Step>, at: seq<int>, paidAt: int, i: nat)
    requires l.flights == [] && l.supplierOrders == []
    requires Clocked(l, steps, at, paidAt) && InTime(l, steps, at, paidAt) && AllHonest(l, steps) && i < |steps|
    ensures Guarded(Run(l, steps[..i]), steps[i])
  {
    var now := Run(l, steps[..i]);
    CallsOutIsNatural(now);
    if Scans(now, steps[i]) && CallsOut(now) > 0 {
      var k := SomeCallIsOut(now.flights);
      var j := CallWasLaunched(l, steps, i, k);
      assert StillOutAt(l, steps, j, i);
      assert false;
    }
    if Calls(now, steps[i]) {
      assert CallsAt(l, steps, i);
      forall j: nat | j < i ensures !CallsAt(l, steps, j) && !Scans(Run(l, steps[..j]), steps[j]) {
        assert at[j] <= at[i];
      }
      NothingAskedYet(l, steps, i);
      NoneOut(now.flights);
    }
  }

  /**
   * In every honest run with a single order call that starts within 363 seconds of the payment, a booking that is
   * given up has no order at the supplier, and never gets one.
   */
  lemma InTimeNeverRefundsAnOrder(baseAmount: nat, markupAmount: nat, currency: string, steps: seq<Step>,
                                  at: seq<int>, paidAt: int)
    requires var start := Start(baseAmount, markupAmount, currency);
             Clocked(start, steps, at, paidAt) && InTime(start, steps, at, paidAt) && AllHonest(start, steps)
    ensures var l := Run(Start(baseAmount, markupAmount, currency), steps);
            Visits(l.rows, OrderFailed) >= 1 ==> l.supplierOrders == [] && CallsOut(l) == 0
  {
    var start := Start(baseAmount, markupAmount, currency);
    forall i | 0 <= i < |steps| ensures Guarded(Run(start, steps[..i]), steps[i]) {
      ClockedIsGuarded(start, steps, at, paidAt, i);
    }
    EveryRunIsSound(baseAmount, markupAmount, currency, []);
    SumOne(HistoryRow(Pending, Pending), RowTo(OrderFailed));
    GuardedRun(start, steps);
    CallsOutIsNatural(Run(start, steps));
  }

  // The bound on the start is exact.

  /** Paid at time 0, the call started then, the listing read as soon as both the clock and the call allow. */
  function LateRun(order: Order): seq<Step> {
    PAYING + LateCall(order)
  }

  function LateClock(start: nat): seq<int> {
    var look: nat := OrderCreation.RECONCILIATION_WINDOW_MS + 1;
    var scan := if start < look then look else start;
    [0, 0, 0, start, scan, scan, scan, scan]
  }

  lemma LateClockClimbs(start: nat)
    requires start > OrderCreation.LATEST_START_MS
    ensures forall i, j :: 0 <= i < j < 8 ==> LateClock(start)[i] <= LateClock(start)[j]
    ensures forall i :: 0 <= i < 8 ==> LateClock(start)[i] <= start + OrderCreation.LONGEST_CALL_MS
    ensures |LateClock(start)| == 8 && OrderCreation.SweepMayLook(0, LateClock(start)[4])
  {
  }

  lemma LateRunAsksOnce(l: Life, order: Order)
    ensures |LateRun(order)| == 8
    ensures forall j: nat :: CallsAt(l, LateRun(order), j) ==> j == 3
    ensures forall i :: 0 <= i < 8 && Scans(Run(l, LateRun(order)[..i]), LateRun(order)[i]) ==> i == 4
    ensures forall i :: 0 <= i < 8 && LateRun(order)[i].PaymentCaptured? ==> i == 2
  {
    var steps := LateRun(order);
    forall j: nat | CallsAt(l, steps, j) ensures j == 3 {
      assert steps[j] == AskSupplier(Fulfilment);
    }
    forall i | 0 <= i < 8 && Scans(Run(l, steps[..i]), steps[i]) ensures i == 4 {
      assert steps[i] == AskSupplier(Reconciliation);
    }
  }

  lemma LateRunFitsTheClock(l: Life, order: Order, start: nat)
    requires start > OrderCreation.LATEST_START_MS
    ensures Clocked(l, LateRun(order), LateClock(start), 0)
    ensures StartsWithin(l, LateRun(order), LateClock(start), 0, start)
    ensures PaidAt(l, LateRun(order), LateClock(start), 0)
  {
    LateRunAsksOnce(l, order);
    LateClockClimbs(start);
    forall i: nat, j: nat | StillOutAt(l, LateRun(order), j, i)
      ensures LateClock(start)[i] <= LateClock(start)[j] + OrderCreation.LONGEST_CALL_MS
    {
      assert CallsAt(l, LateRun(order), j) && j == 3;
    }
    forall i: nat | PaysAt(l, LateRun(order), i) ensures LateClock(start)[i] == 0 {
      PrefixStep(l, LateRun(order), i);
      OnlyCapturePays(Run(l, LateRun(order)[..i]), LateRun(order)[i]);
    }
  }

  lemma OnlyCapturePays(l: Life, step: Step)
    requires l.rows.booking.status != Paid && Next(l, step).rows.booking.status == Paid
    ensures step.PaymentCaptured?
  {
  }

  lemma {:induction false} HonestConcat(l: Life, a: seq<Step>, b: seq<Step>)
    requires AllHonest(l, a) && AllHonest(Run(l, a), b)
    ensures AllHonest(l, a + b)
  {
    forall i | 0 <= i < |a + b| ensures Honest(Run(l, (a + b)[..i]), (a + b)[i]) {
      if i < |a| {
        assert (a + b)[..i] == a[..i];
      } else {
        assert (a + b)[..i] == a + b[..i - |a|];
        RunConcat(l, a, b[..i - |a|]);
      }
    }
  }

  lemma OrderedLate(l: Life, paying: seq<Step>, order: Order)
    requires AllHonest(l, paying) && Run(l, paying).rows.booking.status == Paid
    requires Run(l, paying).flights == [] && Run(l, paying).supplierOrders == []
    ensures AllHonest(l, paying + LateCall(order))
    ensures var l' := Run(l, paying + LateCall(order));
            l'.rows.booking.status == OrderFailed && l'.supplierOrders == [order]
  {
    var late := OrderedAfterGivingUp(Run(l, paying), order);
    RunConcat(l, paying, late);
    HonestConcat(l, paying, late);
  }

  /** From the start: paid, called late, given up, and ordered after all. */
  lemma LateRunOrders(baseAmount: nat, markupAmount: nat, currency: string, order: Order)
    ensures var start := Start(baseAmount, markupAmount, currency);
            && AllHonest(start, LateRun(order))
            && Visits(Run(start, LateRun(order)).rows, OrderFailed) >= 1
            && Run(start, LateRun(order)).supplierOrders == [order]
  {
    var start := Start(baseAmount, markupAmount, currency);
    var paying := PaidIsReachable(baseAmount, markupAmount, currency);
    OrderedLate(start, paying, order);
    EveryRunIsSound(baseAmount, markupAmount, currency, LateRun(order));
    FailedOnce(Run(start, LateRun(order)));
  }

  lemma FailedOnce(l: Life)
    requires Sound(l) && l.rows.booking.status == OrderFailed
    ensures Visits(l.rows, OrderFailed) >= 1
  {
    ChainVisitsOnce(l.rows.history, l.rows.booking.status, OrderFailed);
  }

  /** Every honest, clocked run with one order call that starts within this time. */
  ghost predicate NeverRefundsAnOrder(baseAmount: nat, markupAmount: nat, currency: string, ms: int) {
    forall steps: seq<Step>, at: seq<int>, paidAt: int ::
      var start := Start(baseAmount, markupAmount, currency);
      Clocked(start, steps, at, paidAt) && PaidAt(start, steps, at, paidAt)
      && StartsWithin(start, steps, at, paidAt, ms) && AllHonest(start, steps) ==>
        (Visits(Run(start, steps).rows, OrderFailed) >= 1 ==> Run(start, steps).supplierOrders == [])
  }

  /**
   * For every booking: no honest run with one order call started within d of the payment leaves an order behind a
   * given-up booking, exactly when d is at most 363 seconds.
   */
  lemma NeverRefundsAnOrderIffInTime(baseAmount: nat, markupAmount: nat, currency: string, ms: int)
    ensures NeverRefundsAnOrder(baseAmount, markupAmount, currency, ms) <==> ms <= OrderCreation.LATEST_START_MS
  {
    var start := Start(baseAmount, markupAmount, currency);
    if ms <= OrderCreation.LATEST_START_MS {
      forall steps: seq<Step>, at: seq<int>, paidAt: int |
        Clocked(start, steps, at, paidAt) && StartsWithin(start, steps, at, paidAt, ms) && AllHonest(start, steps)
        ensures Visits(Run(start, steps).rows, OrderFailed) >= 1 ==> Run(start, steps).supplierOrders == []
      {
        InTimeNeverRefundsAnOrder(baseAmount, markupAmount, currency, steps, at, paidAt);
      }
    } else {
      var order := Order("", "", []);
      LateRunFitsTheClock(start, order, OrderCreation.LATEST_START_MS + 1);
      LateRunOrders(baseAmount, markupAmount, currency, order);
    }
  }
}

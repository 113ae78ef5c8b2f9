/** When a booking is paid for twice: the transition into `paid` lets a second capture through as a no-op. */
module DoublePayment {
  import opened Support
  import opened Records
  import opened BookingStateMachine
  import opened Consistency
  import opened Lifecycle
  import opened EveryRun
  import opened PaidRun
  import opened PaymentWebhooks
  import Checkout
  import Transactions
  import GatewayAmounts

  /** The guard that decides it: of the captures that commit, those that find the booking paid are one too many. */
  lemma SecondCaptureIffStillPaid(r: Rows)
    requires Consistent(r) && Checkout.Capture(r).Success?
    ensures Payments(Checkout.Capture(r).value) >= 2 <==> r.booking.status == Paid
  {
    CaptureConsistent(r);
    ChainPassedPaid(r.history, r.booking.status);
  }

  ghost predicate CapturesAt(l: Life, steps: seq<Step>, i: nat) {
    i < |steps| && steps[i].PaymentCaptured? && Run(l, steps[..i]).rows.booking.status == Paid
  }

  ghost predicate CapturesWhilePaid(l: Life, steps: seq<Step>) {
    exists i: nat :: CapturesAt(l, steps, i)
  }

  lemma CapturesSnoc(l: Life, steps: seq<Step>, n: nat)
    requires |steps| == n + 1
    ensures CapturesWhilePaid(l, steps) <==> CapturesWhilePaid(l, steps[..n]) || CapturesAt(l, steps, n)
  {
    forall i: nat | i < n ensures CapturesAt(l, steps, i) <==> CapturesAt(l, steps[..n], i) {
      assert steps[..n][..i] == steps[..i];
    }
  }

  lemma NextPayments(l: Life, step: Step)
    requires Sound(l)
    ensures Payments(Next(l, step).rows) >= 2 <==>
            Payments(l.rows) >= 2 || (step.PaymentCaptured? && l.rows.booking.status == Paid)
  {
    if step.PaymentCaptured? {
      CapturePayments(l.rows);
    } else {
      StepCaptures(l, step);
    }
  }

  lemma CapturePayments(r: Rows)
    requires Consistent(r)
    ensures Payments(Transactions.Kept(r, Checkout.Capture(r))) >= 2 <==> Payments(r) >= 2 || r.booking.status == Paid
  {
    PaidStaysCaptured(r);
    if Checkout.Capture(r).Success? {
      SecondCaptureIffStillPaid(r);
    }
  }

  /** A paid booking has been captured, so a further capture commits; after two captures no other status captures. */
  lemma PaidStaysCaptured(r: Rows)
    requires Consistent(r)
    ensures r.booking.status == Paid ==> Checkout.Capture(r).Success?
    ensures Payments(r) >= 2 && Checkout.Capture(r).Success? ==> r.booking.status == Paid
  {
    ChainPassedPaid(r.history, r.booking.status);
  }

  lemma {:induction false} PaidTwiceFrom(l: Life, steps: seq<Step>)
    requires Sound(l) && Payments(l.rows) == 0
    ensures Payments(Run(l, steps).rows) >= 2 <==> CapturesWhilePaid(l, steps)
  {
    if steps != [] {
      var n := |steps| - 1;
      PaidTwiceFrom(l, steps[..n]);
      RunSound(l, steps[..n]);
      NextPayments(Run(l, steps[..n]), steps[n]);
      CapturesSnoc(l, steps, n);
    }
  }

  /** In every run a booking has two CustomerPayment entries exactly when a capture found it already paid. */
  lemma PaidTwiceIffCapturedWhilePaid(baseAmount: nat, markupAmount: nat, currency: string, steps: seq<Step>)
    ensures Payments(Run(Start(baseAmount, markupAmount, currency), steps).rows) >= 2
       <==> CapturesWhilePaid(Start(baseAmount, markupAmount, currency), steps)
  {
    NewRowsConsistent(baseAmount, markupAmount, currency);
    PaidTwiceFrom(Start(baseAmount, markupAmount, currency), steps);
  }

  /** Such a run exists for every amount. */
  lemma PaidTwiceIsReachable(baseAmount: nat, markupAmount: nat, currency: string) returns (steps: seq<Step>)
    ensures Payments(Run(Start(baseAmount, markupAmount, currency), steps).rows) >= 2
  {
    var start := Start(baseAmount, markupAmount, currency);
    var paying := PaidIsReachable(baseAmount, markupAmount, currency);
    steps := paying + [PaymentCaptured];
    assert steps[..|paying|] == paying;
    assert CapturesAt(start, steps, |paying|);
    PaidTwiceIffCapturedWhilePaid(baseAmount, markupAmount, currency, steps);
  }

  // The same in the whole system: two attempts, two gateway transactions, and two fulfilment jobs.

  lemma RunSystemSnoc(sys: System, steps: seq<SystemStep>, step: SystemStep)
    ensures RunSystem(sys, steps + [step]) == NextSystem(RunSystem(sys, steps), step)
  {
    assert (steps + [step])[..|steps|] == steps;
  }

  /** A payment pending, or captured and not yet fulfilled, behind an attempt of the booking. */
  ghost predicate Payable(sys: System, b: BookingId, orderRef: string, total: nat, currency: string) {
    && b in sys.store.lives && orderRef in sys.store.attempts && sys.store.attempts[orderRef].booking == b
    && var r := sys.store.lives[b].rows;
       && r.booking.status in {AwaitingPayment, Paid} && r.payment.Some?
       && r.booking.Total() == total && r.booking.currency == currency
  }

  /** The marked event, the captured booking, and one more job for it. */
  ghost predicate Pays(sys: System, sys': System, b: BookingId, key: EventKey)
    requires b in sys.store.lives
  {
    && sys'.store.lives == sys.store.lives[b := Next(sys.store.lives[b], PaymentCaptured)]
    && sys'.store.attempts.Keys == sys.store.attempts.Keys
    && (forall ref :: ref in sys.store.attempts ==> sys'.store.attempts[ref].booking == sys.store.attempts[ref].booking)
    && sys'.events.Keys == sys.events.Keys + {key}
    && sys'.fulfilment == sys.fulfilment + [b]
  }

  lemma JobPays(sys: System, b: BookingId, orderRef: string, key: EventKey, payload: Option<Payload>,
                total: nat, currency: string)
    requires Payable(sys, b, orderRef, total, currency) && key.state.TransactionSucceeded?
    requires payload == Some(Payload(Some(orderRef), GatewayAmounts.ToGatewayAmount(total, currency)))
    requires key in sys.jobs && key in sys.events && sys.events[key] == Event(payload, false, None)
    ensures Pays(sys, NextSystem(sys, RunJob(key, true, true)), b, key)
  {
    CaptureApplies(sys, b, orderRef, key, payload, total, currency);
  }

  lemma StaysPayable(sys: System, sys': System, b: BookingId, key: EventKey, ref: string, total: nat, currency: string)
    requires Payable(sys, b, ref, total, currency) && Pays(sys, sys', b, key)
    ensures Payable(sys', b, ref, total, currency)
  {
  }

  lemma TransactionSucceeds(before: seq<SystemStep>, sys: System, b: BookingId, orderRef: string, id: int,
                            total: nat, currency: string) returns (steps: seq<SystemStep>)
    requires sys == RunSystem(EmptySystem(), before)
    requires Payable(sys, b, orderRef, total, currency) && EventKey(id, TransactionSucceeded) !in sys.events
    ensures Pays(sys, RunSystem(EmptySystem(), steps), b, EventKey(id, TransactionSucceeded))
  {
    var key := EventKey(id, TransactionSucceeded);
    var payload := Some(Payload(Some(orderRef), GatewayAmounts.ToGatewayAmount(total, currency)));
    RunSystemSnoc(EmptySystem(), before, DeliverWebhook(key, payload, true));
    steps := before + [DeliverWebhook(key, payload, true)];
    var delivered := Deliver(sys, key, payload, true);
    JobPays(delivered, b, orderRef, key, payload, total, currency);
    RunSystemSnoc(EmptySystem(), steps, RunJob(key, true, true));
    steps := steps + [RunJob(key, true, true)];
  }

  lemma CaptureApplies(sys: System, b: BookingId, orderRef: string, key: EventKey, payload: Option<Payload>,
                       total: nat, currency: string)
    requires Payable(sys, b, orderRef, total, currency) && key.state.TransactionSucceeded?
    requires payload == Some(Payload(Some(orderRef), GatewayAmounts.ToGatewayAmount(total, currency)))
    requires key in sys.events && sys.events[key] == Event(payload, false, None)
    ensures var outcome := Effect(sys.store, key, payload);
            && outcome.Applied? && outcome.booking == b && outcome.fulfil
            && outcome.store == Store(sys.store.lives[b := Next(sys.store.lives[b], PaymentCaptured)],
                                      Settle(sys.store, orderRef, AttemptSucceeded))
  {
  }

  lemma PassengersAct(s: Store, b: BookingId, baseAmount: nat, markupAmount: nat, currency: string)
    requires b in s.lives && s.lives[b] == Start(baseAmount, markupAmount, currency)
    ensures var s' := Perform(s, Act(b, Passengers(false, true)));
            && s' == Store(s.lives[b := Next(s.lives[b], Passengers(false, true))], s.attempts)
  {
  }

  lemma AttemptActs(s: Store, b: BookingId, orderRef: string)
    requires b in s.lives && s.lives[b].rows.booking.status == AwaitingPayment && orderRef !in s.attempts
    ensures var s' := Perform(s, StartAttempt(b, false, true, orderRef));
            && s' == Store(s.lives[b := Next(s.lives[b], Step.Attempt(false, true))],
                           s.attempts[orderRef := Attempt.Attempt(b, RequiresAction)])
  {
  }

  lemma AttemptKeepsBooking(l: Life)
    requires l.rows.booking.status == AwaitingPayment
    ensures var r := Next(l, Step.Attempt(false, true)).rows;
            r.booking == l.rows.booking && r.payment.Some? && r.ledger == l.rows.ledger
  {
  }

  /** A booking with two attempts of its customer, neither paid yet. */
  lemma TwoAttempts(b: BookingId, baseAmount: nat, markupAmount: nat, currency: string, first: string, second: string)
    returns (steps: seq<SystemStep>)
    requires first != second
    ensures var sys := RunSystem(EmptySystem(), steps);
            && Payable(sys, b, first, baseAmount + markupAmount, currency)
            && Payable(sys, b, second, baseAmount + markupAmount, currency)
            && sys.events == map[] && sys.fulfilment == []
            && sys.store.lives[b].rows.booking.status == AwaitingPayment
  {
    var empty := EmptySystem();
    steps := [];
    RunSystemSnoc(empty, steps, Elsewhere(CreateBooking(b, baseAmount, markupAmount, currency)));
    steps := steps + [Elsewhere(CreateBooking(b, baseAmount, markupAmount, currency))];
    PassengersAct(RunSystem(empty, steps).store, b, baseAmount, markupAmount, currency);
    PassengersAreSaved(baseAmount, markupAmount, currency);
    RunSystemSnoc(empty, steps, Elsewhere(Act(b, Passengers(false, true))));
    steps := steps + [Elsewhere(Act(b, Passengers(false, true)))];
    AttemptActs(RunSystem(empty, steps).store, b, first);
    AttemptKeepsBooking(RunSystem(empty, steps).store.lives[b]);
    RunSystemSnoc(empty, steps, Elsewhere(StartAttempt(b, false, true, first)));
    steps := steps + [Elsewhere(StartAttempt(b, false, true, first))];
    AttemptActs(RunSystem(empty, steps).store, b, second);
    AttemptKeepsBooking(RunSystem(empty, steps).store.lives[b]);
    RunSystemSnoc(empty, steps, Elsewhere(StartAttempt(b, false, true, second)));
    steps := steps + [Elsewhere(StartAttempt(b, false, true, second))];
  }

  /** Two succeeded transactions of one booking: paid twice over, and handed to fulfilment twice. */
  lemma TwoTransactionsPayTwice(b: BookingId, baseAmount: nat, markupAmount: nat, currency: string,
                                first: string, second: string, id: int, id': int) returns (steps: seq<SystemStep>)
    requires first != second && id != id'
    ensures var sys := RunSystem(EmptySystem(), steps);
            && b in sys.store.lives && sys.store.lives[b].rows.booking.status == Paid
            && Payments(sys.store.lives[b].rows) == 2
            && sys.fulfilment == [b, b]
  {
    var total := baseAmount + markupAmount;
    var attempting := TwoAttempts(b, baseAmount, markupAmount, currency, first, second);
    var attempted := RunSystem(EmptySystem(), attempting);
    var paying := TransactionSucceeds(attempting, attempted, b, first, id, total, currency);
    var paid := RunSystem(EmptySystem(), paying);
    StaysPayable(attempted, paid, b, EventKey(id, TransactionSucceeded), second, total, currency);
    steps := TransactionSucceeds(paying, paid, b, second, id', total, currency);
    EveryBookingIsReachable(attempting);
    ReachableSound(attempted.store.lives[b]);
    PaidByBoth(attempted.store.lives[b]);
  }

  lemma CapturedOnceMore(r: Rows)
    requires Consistent(r) && r.booking.status in {AwaitingPayment, Paid} && r.payment.Some?
    ensures var paid := Checkout.Capture(r);
            && paid.Success? && Consistent(paid.value) && paid.value.booking.status == Paid && paid.value.payment.Some?
            && Payments(paid.value) == Payments(r) + 1
  {
    CaptureConsistent(r);
  }

  lemma PaidByBoth(l: Life)
    requires Consistent(l.rows) && l.rows.booking.status == AwaitingPayment && l.rows.payment.Some?
    ensures var l' := Next(Next(l, PaymentCaptured), PaymentCaptured);
            l'.rows.booking.status == Paid && Payments(l'.rows) == 2
  {
    ChainPassedPaid(l.rows.history, l.rows.booking.status);
    CapturedOnceMore(l.rows);
    CapturedOnceMore(Checkout.Capture(l.rows).value);
  }
}

/** Which gateway events are acted on: the amount, the order reference and the booking each of them has to fit. */
module ProcessedEvents {
  import opened Support
  import opened Records
  import opened Lifecycle
  import opened PaymentWebhooks
  import Consistency
  import Transactions
  import GatewayAmounts

  /** What the gateway has to report as paid for a booking. */
  function Charged(l: Life): int {
    GatewayAmounts.ToGatewayAmount(l.rows.booking.Total(), l.rows.booking.currency)
  }

  /** The booking an order reference leads to, through an attempt and its payment. */
  predicate LeadsTo(s: Store, ref: string, b: BookingId) {
    ref in s.attempts && s.attempts[ref].booking == b && b in s.lives && s.lives[b].rows.payment.Some?
  }

  predicate Decided(state: TransactionState) {
    state.TransactionSucceeded? || state.TransactionFailed?
  }

  /** A succeeded transaction needs the right amount and a booking that waits for its money or has only just got it. */
  predicate Acceptable(s: Store, state: TransactionState, payload: Payload) {
    payload.orderRef.Some? && payload.orderRef.value in s.attempts &&
    var b := s.attempts[payload.orderRef.value].booking;
    && LeadsTo(s, payload.orderRef.value, b)
    && (state.TransactionSucceeded? ==>
          payload.amountCents == Charged(s.lives[b]) && s.lives[b].rows.booking.status in {AwaitingPayment, Paid})
  }

  /** Exactly which events a job marks; the others leave the whole system as it is, for the next sweep. */
  lemma MarkedExactlyWhenAcceptable(sys: System, key: EventKey, enqueues: bool)
    requires key in Unprocessed(sys)
    ensures var sys', payload := ProcessEvent(sys, key, enqueues), sys.events[key].payload;
            && (IsProcessed(sys', key) <==>
                  payload.Some? && payload.value.orderRef.Some? && Decided(key.state) ==>
                    Acceptable(sys.store, key.state, payload.value))
            && (!IsProcessed(sys', key) ==> sys' == sys)
  {
  }

  /** A succeeded transaction that reports any other amount pays nothing, marks nothing and queues nothing. */
  lemma WrongAmountChangesNothing(sys: System, key: EventKey, enqueues: bool, ref: string, b: BookingId)
    requires key in sys.events && key.state.TransactionSucceeded?
    requires sys.events[key].payload.Some? && sys.events[key].payload.value.orderRef == Some(ref)
    requires LeadsTo(sys.store, ref, b) && sys.events[key].payload.value.amountCents != Charged(sys.store.lives[b])
    ensures ProcessEvent(sys, key, enqueues) == sys
  {
    if key in Unprocessed(sys) {
      MarkedExactlyWhenAcceptable(sys, key, enqueues);
    }
  }

  /** A new event whose first job is queued and run is settled at once, or left for the sweep. */
  lemma DeliveredEventIsApplied(sys: System, key: EventKey, payload: Option<Payload>, enqueues: bool)
    requires key !in sys.events
    ensures var sys' := RunSystem(sys, [DeliverWebhook(key, payload, true), RunJob(key, true, enqueues)]);
            && sys'.jobs == sys.jobs && sys'.store == StoreAfter(sys.store, Effect(sys.store, key, payload))
            && (IsProcessed(sys', key) <==> !Effect(sys.store, key, payload).Unresolved?)
  {
    var delivered := sys.(events := sys.events[key := Event(payload, false, None)]);
    RunSystemTwo(sys, DeliverWebhook(key, payload, true), RunJob(key, true, enqueues));
    assert NextSystem(sys, DeliverWebhook(key, payload, true)) ==
           delivered.(jobs := delivered.jobs + multiset{key});
    JobIsUsedUp(delivered, key, enqueues);
  }

  // Over every run of the system.

  /** What a later state keeps of an earlier one: terms of bookings, and the booking of every attempt. */
  ghost predicate Keeps(s: Store, s': Store) {
    && (forall b :: b in s.lives ==> b in s'.lives && Consistency.SameTerms(s.lives[b].rows, s'.lives[b].rows))
    && (forall ref :: ref in s.attempts ==> ref in s'.attempts && s'.attempts[ref].booking == s.attempts[ref].booking)
  }

  lemma NextKeepsTerms(l: Life, step: Step)
    requires Reachable(l)
    ensures Consistency.SameTerms(l.rows, Next(l, step).rows)
  {
    ReachableSound(l);
    Consistency.ApplyConsistent(l.rows, TransactionOf(l, step));
  }

  lemma MoveKeeps(s: Store, b: BookingId, step: Step, s': Store)
    requires AllReachable(s) && b in s.lives && s'.lives == s.lives[b := Next(s.lives[b], step)]
    requires forall ref :: ref in s.attempts ==> ref in s'.attempts && s'.attempts[ref] == s.attempts[ref]
    ensures Keeps(s, s')
  {
    NextKeepsTerms(s.lives[b], step);
  }

  lemma PerformKeeps(s: Store, a: Action)
    requires AllReachable(s)
    ensures Keeps(s, Perform(s, a))
  {
    match a
    case CreateBooking(_, _, _, _) =>
    case StartAttempt(b, offerExpired, gatewayOk, ref) =>
      if b in s.lives && ref !in s.attempts {
        MoveKeeps(s, b, Step.Attempt(offerExpired, gatewayOk), Perform(s, a));
      }
    case Act(b, step) =>
      if b in s.lives && !step.PaymentCaptured? && !step.Attempt? && !Rejected(s, b, step) {
        MoveKeeps(s, b, step, Perform(s, a));
      }
  }

  lemma EffectKeeps(s: Store, key: EventKey, payload: Option<Payload>)
    requires AllReachable(s)
    ensures Keeps(s, StoreAfter(s, Effect(s, key, payload)))
  {
    var outcome := Effect(s, key, payload);
    if outcome.Applied? {
      NextKeepsTerms(s.lives[outcome.booking], PaymentCaptured);
    }
  }

  lemma NextKeeps(sys: System, step: SystemStep)
    requires AllReachable(sys.store)
    ensures Keeps(sys.store, NextSystem(sys, step).store)
  {
    match step
    case RunJob(key, _, _) =>
      if key in sys.events {
        EffectKeeps(sys.store, key, sys.events[key].payload);
      }
    case Elsewhere(action) => PerformKeeps(sys.store, action);
    case _ =>
  }

  /** The event was paid for this booking, through an attempt of this booking, and in full. */
  ghost predicate PaidInFull(sys: System, b: BookingId, key: EventKey)
    requires key in sys.events
  {
    var payload := sys.events[key].payload;
    && payload.Some? && payload.value.orderRef.Some?
    && payload.value.orderRef.value in sys.store.attempts
    && sys.store.attempts[payload.value.orderRef.value].booking == b
    && b in sys.store.lives
    && payload.value.amountCents == Charged(sys.store.lives[b])
  }

  ghost predicate AllPaidInFull(sys: System, b: BookingId) {
    forall key :: key in Captures(sys, b) ==> PaidInFull(sys, b, key)
  }

  lemma OldCaptureStays(sys: System, sys': System, b: BookingId, key: EventKey)
    requires key in sys.events && PaidInFull(sys, b, key) && Keeps(sys.store, sys'.store)
    requires key in sys'.events && sys'.events[key].payload == sys.events[key].payload
    ensures PaidInFull(sys', b, key)
  {
  }

  lemma NewCaptureFits(sys: System, step: SystemStep, b: BookingId)
    requires step.RunJob? && Marks(sys, step) && AllReachable(sys.store)
    requires step.key in Captures(NextSystem(sys, step), b)
    ensures PaidInFull(NextSystem(sys, step), b, step.key)
  {
    var key := step.key;
    var payload := sys.events[key].payload;
    MarkedExactlyWhenAcceptable(sys, key, step.enqueues);
    assert key.state.TransactionSucceeded? && Effect(sys.store, key, payload).Applied?;
    assert PaidInFull(sys, b, key);
    NextKeeps(sys, step);
    EventRowStays(sys, step, key);
    OldCaptureStays(sys, NextSystem(sys, step), b, key);
  }

  lemma NextPaidInFull(sys: System, step: SystemStep, b: BookingId)
    requires AllReachable(sys.store) && AllPaidInFull(sys, b)
    ensures AllPaidInFull(NextSystem(sys, step), b)
  {
    var sys' := NextSystem(sys, step);
    NextKeeps(sys, step);
    forall key | key in Captures(sys', b) ensures PaidInFull(sys', b, key) {
      StepMarks(sys, step, key);
      EventRowStays(sys, step, key);
      if IsProcessed(sys, key) {
        OldCaptureStays(sys, sys', b, key);
      } else {
        NewCaptureFits(sys, step, b);
      }
    }
  }

  /**
   * In every run each capture of a booking is an event that came through one of its own attempts and reported the
   * booking's whole total in the gateway's currency.
   */
  lemma {:induction false} EveryCaptureIsInFull(steps: seq<SystemStep>, b: BookingId)
    ensures AllPaidInFull(RunSystem(EmptySystem(), steps), b)
  {
    if steps != [] {
      var n := |steps| - 1;
      EveryCaptureIsInFull(steps[..n], b);
      EveryBookingIsReachable(steps[..n]);
      NextPaidInFull(RunSystem(EmptySystem(), steps[..n]), steps[n], b);
      RunSystemStep(EmptySystem(), steps);
    }
  }

  ghost predicate AttemptsPaid(s: Store) {
    forall ref :: ref in s.attempts ==> LeadsTo(s, ref, s.attempts[ref].booking)
  }

  lemma PaymentStays(l: Life, step: Step)
    requires l.rows.payment.Some?
    ensures Next(l, step).rows.payment.Some?
  {
  }

  lemma StepKeepsAttemptsPaid(s: Store, b: BookingId, step: Step, s': Store)
    requires AttemptsPaid(s) && b in s.lives && s'.lives == s.lives[b := Next(s.lives[b], step)]
    requires forall ref :: ref in s'.attempts ==>
                 (ref in s.attempts && s'.attempts[ref].booking == s.attempts[ref].booking)
                 || (s'.attempts[ref].booking == b && Next(s.lives[b], step).rows.payment.Some?)
    ensures AttemptsPaid(s')
  {
    if s.lives[b].rows.payment.Some? {
      PaymentStays(s.lives[b], step);
    }
  }

  lemma PerformKeepsAttemptsPaid(s: Store, a: Action)
    requires AttemptsPaid(s)
    ensures AttemptsPaid(Perform(s, a))
  {
    match a
    case CreateBooking(_, _, _, _) =>
    case StartAttempt(b, offerExpired, gatewayOk, ref) =>
      if b in s.lives && ref !in s.attempts {
        StepKeepsAttemptsPaid(s, b, Step.Attempt(offerExpired, gatewayOk), Perform(s, a));
      }
    case Act(b, step) =>
      if b in s.lives && Perform(s, a) != s {
        StepKeepsAttemptsPaid(s, b, step, Perform(s, a));
      }
  }

  lemma EffectKeepsAttemptsPaid(s: Store, key: EventKey, payload: Option<Payload>)
    requires AttemptsPaid(s)
    ensures AttemptsPaid(StoreAfter(s, Effect(s, key, payload)))
  {
    var outcome := Effect(s, key, payload);
    if outcome.Applied? && outcome.fulfil {
      StepKeepsAttemptsPaid(s, outcome.booking, PaymentCaptured, outcome.store);
    }
  }

  /** In every run each attempt leads to its booking and a payment of that booking: none is kept of a refused one. */
  lemma {:induction false} EveryAttemptHasItsPayment(steps: seq<SystemStep>)
    ensures AttemptsPaid(RunSystem(EmptySystem(), steps).store)
  {
    if steps != [] {
      var n := |steps| - 1;
      var before := RunSystem(EmptySystem(), steps[..n]);
      EveryAttemptHasItsPayment(steps[..n]);
      match steps[n] {
        case RunJob(key, _, _) =>
          if key in before.events {
            EffectKeepsAttemptsPaid(before.store, key, before.events[key].payload);
          }
        case Elsewhere(action) => PerformKeepsAttemptsPaid(before.store, action);
        case _ =>
      }
    }
  }

  // What the status of an attempt says.

  ghost predicate Decides(sys: System, key: EventKey, ref: string) {
    && IsProcessed(sys, key) && Decided(key.state)
    && sys.events[key].payload.Some? && sys.events[key].payload.value.orderRef == Some(ref)
  }

  ghost predicate StatusTold(sys: System, ref: string)
    requires ref in sys.store.attempts
  {
    var status := sys.store.attempts[ref].status;
    && (status == RequiresAction <==> forall key :: !Decides(sys, key, ref))
    && (status == AttemptSucceeded ==> exists key :: Decides(sys, key, ref) && key.state.TransactionSucceeded?)
    && (status == AttemptFailed ==> exists key :: Decides(sys, key, ref) && key.state.TransactionFailed?)
    && status != Processing
  }

  ghost predicate AttemptsTold(sys: System) {
    && (forall ref :: ref in sys.store.attempts ==> StatusTold(sys, ref))
    && (forall key, ref :: Decides(sys, key, ref) ==> ref in sys.store.attempts)
  }

  lemma DecidesStays(sys: System, step: SystemStep, key: EventKey, ref: string)
    ensures Decides(NextSystem(sys, step), key, ref) <==>
            Decides(sys, key, ref) ||
              (step.RunJob? && Marks(sys, step) && step.key == key && Decided(key.state)
               && sys.events[key].payload.Some? && sys.events[key].payload.value.orderRef == Some(ref))
  {
    StepMarks(sys, step, key);
    EventRowStays(sys, step, key);
  }

  lemma SettledBy(sys: System, step: SystemStep, ref: string)
    requires step.RunJob? && Marks(sys, step) && Decided(step.key.state)
    requires sys.events[step.key].payload.Some? && sys.events[step.key].payload.value.orderRef == Some(ref)
    ensures ref in sys.store.attempts
    ensures NextSystem(sys, step).store.attempts ==
            sys.store.attempts[ref := sys.store.attempts[ref].(status :=
                if step.key.state.TransactionSucceeded? then AttemptSucceeded else AttemptFailed)]
  {
    MarkedExactlyWhenAcceptable(sys, step.key, step.enqueues);
  }

  lemma OtherwiseUnsettled(sys: System, step: SystemStep)
    requires step.RunJob?
    requires Marks(sys, step) && Decided(step.key.state) ==>
               sys.events[step.key].payload.None? || sys.events[step.key].payload.value.orderRef.None?
    ensures NextSystem(sys, step).store.attempts == sys.store.attempts
  {
  }

  lemma OnlyNewAttempts(sys: System, step: SystemStep, ref: string)
    requires !step.RunJob? && ref in NextSystem(sys, step).store.attempts
    ensures ref in sys.store.attempts ==> NextSystem(sys, step).store.attempts[ref] == sys.store.attempts[ref]
    ensures ref !in sys.store.attempts ==> NextSystem(sys, step).store.attempts[ref].status == RequiresAction
  {
  }

  lemma SameDecisions(sys: System, sys': System, ref: string)
    requires ref in sys.store.attempts && StatusTold(sys, ref)
    requires ref in sys'.store.attempts && sys'.store.attempts[ref] == sys.store.attempts[ref]
    requires forall key :: Decides(sys', key, ref) <==> Decides(sys, key, ref)
    ensures StatusTold(sys', ref)
  {
  }

  lemma JobTellsAttempts(sys: System, step: SystemStep, ref: string)
    requires AttemptsTold(sys) && step.RunJob? && ref in NextSystem(sys, step).store.attempts
    ensures StatusTold(NextSystem(sys, step), ref)
  {
    var sys' := NextSystem(sys, step);
    forall key
      ensures Decides(sys', key, ref) <==> Decides(sys, key, ref) || (Decides(sys', key, ref) && key == step.key)
    {
      DecidesStays(sys, step, key, ref);
    }
    DecidesStays(sys, step, step.key, ref);
    var decided := Marks(sys, step) && Decided(step.key.state) && sys.events[step.key].payload.Some?
                   && sys.events[step.key].payload.value.orderRef.Some?;
    if decided {
      var settled := sys.events[step.key].payload.value.orderRef.value;
      SettledBy(sys, step, settled);
      if settled == ref {
        assert Decides(sys', step.key, ref);
      } else {
        SameDecisions(sys, sys', ref);
      }
    } else {
      OtherwiseUnsettled(sys, step);
      SameDecisions(sys, sys', ref);
    }
  }

  lemma OtherStepTellsAttempts(sys: System, step: SystemStep, ref: string)
    requires AttemptsTold(sys) && !step.RunJob? && ref in NextSystem(sys, step).store.attempts
    ensures StatusTold(NextSystem(sys, step), ref)
  {
    var sys' := NextSystem(sys, step);
    forall key ensures Decides(sys', key, ref) <==> Decides(sys, key, ref) {
      DecidesStays(sys, step, key, ref);
    }
    OnlyNewAttempts(sys, step, ref);
    if ref in sys.store.attempts {
      SameDecisions(sys, sys', ref);
    }
  }

  lemma NextTellsAttempts(sys: System, step: SystemStep)
    requires AttemptsTold(sys) && AllReachable(sys.store)
    ensures AttemptsTold(NextSystem(sys, step))
  {
    var sys' := NextSystem(sys, step);
    NextKeeps(sys, step);
    forall ref | ref in sys'.store.attempts ensures StatusTold(sys', ref) {
      if step.RunJob? {
        JobTellsAttempts(sys, step, ref);
      } else {
        OtherStepTellsAttempts(sys, step, ref);
      }
    }
    forall key, ref | Decides(sys', key, ref) ensures ref in sys'.store.attempts {
      DecidesStays(sys, step, key, ref);
      if !Decides(sys, key, ref) {
        SettledBy(sys, step, ref);
      }
    }
  }

  /**
   * In every run an attempt still requires action exactly when no processed event decided it, and one that has
   * succeeded or failed has a processed event that says so.
   */
  lemma {:induction false} AttemptStatusIsTold(steps: seq<SystemStep>)
    ensures AttemptsTold(RunSystem(EmptySystem(), steps))
  {
    if steps != [] {
      var n := |steps| - 1;
      AttemptStatusIsTold(steps[..n]);
      EveryBookingIsReachable(steps[..n]);
      NextTellsAttempts(RunSystem(EmptySystem(), steps[..n]), steps[n]);
      RunSystemStep(EmptySystem(), steps);
    }
  }
}

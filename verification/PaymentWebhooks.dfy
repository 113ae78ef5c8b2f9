/**
 * The at-least-once webhook pipeline over all bookings: event rows deduplicate deliveries, jobs repeat and
 * get lost, a sweep brings them back, and each event's effect is applied in the transaction that marks it.
 */
module PaymentWebhooks {
  import opened Support
  import opened Records
  import opened Lifecycle
  import Transactions
  import EveryRun
  import Consistency
  import Checkout
  import GatewayAmounts
  import BookingStateMachine
  import RefundExecution

  type BookingId = string

  datatype TransactionState = TransactionPending | TransactionSucceeded | TransactionFailed

  /** The dedupe key: a transaction id and its state. Redeliveries share it, progressions do not. */
  datatype EventKey = EventKey(transactionId: int, state: TransactionState)

  datatype Payload = Payload(orderRef: Option<string>, amountCents: int)

  /** `booking` is filled in when the event is processed, like the row's payment column. */
  datatype Event = Event(payload: Option<Payload>, processed: bool, booking: Option<BookingId>)

  datatype AttemptStatus = RequiresAction | Processing | AttemptSucceeded | AttemptFailed

  datatype Attempt = Attempt(booking: BookingId, status: AttemptStatus)

  /** What the events act on. */
  datatype Store = Store(lives: map<BookingId, Life>, attempts: map<string, Attempt>)

  datatype System = System(
    store: Store,
    events: map<EventKey, Event>,
    jobs: multiset<EventKey>,
    fulfilment: seq<BookingId>)

  /** Unresolved covers every throw and every early return that leaves the event unprocessed. */
  datatype Outcome = Unresolved | Acknowledged | Applied(store: Store, booking: BookingId, fulfil: bool)

  function Resolve(s: Store, orderRef: string): Option<BookingId> {
    if orderRef in s.attempts then
      var b := s.attempts[orderRef].booking;
      if b in s.lives && s.lives[b].rows.payment.Some? then Some(b) else None
    else
      None
  }

  function Expects(l: Life, amountCents: int): bool {
    amountCents == GatewayAmounts.ToGatewayAmount(l.rows.booking.Total(), l.rows.booking.currency)
  }

  function Settle(s: Store, orderRef: string, status: AttemptStatus): map<string, Attempt>
    requires orderRef in s.attempts
  {
    s.attempts[orderRef := s.attempts[orderRef].(status := status)]
  }

  /** What processing one event does, apart from marking it processed. */
  function Effect(s: Store, key: EventKey, payload: Option<Payload>): Outcome {
    if payload.None? || key.state.TransactionPending? || payload.value.orderRef.None? then
      Acknowledged
    else
      var ref := payload.value.orderRef.value;
      match Resolve(s, ref)
      case None => Unresolved
      case Some(b) =>
        if key.state.TransactionFailed? then
          Applied(s.(attempts := Settle(s, ref, AttemptFailed)), b, false)
        else if !Expects(s.lives[b], payload.value.amountCents) || Checkout.Capture(s.lives[b].rows).Failure? then
          Unresolved
        else
          Applied(Store(s.lives[b := Next(s.lives[b], PaymentCaptured)], Settle(s, ref, AttemptSucceeded)), b, true)
  }

  function StoreAfter(s: Store, outcome: Outcome): Store {
    if outcome.Applied? then outcome.store else s
  }

  function ProcessEvent(sys: System, key: EventKey, enqueues: bool): System {
    if key !in sys.events || sys.events[key].processed then
      sys
    else
      var outcome := Effect(sys.store, key, sys.events[key].payload);
      if outcome.Unresolved? then
        sys
      else
        System(StoreAfter(sys.store, outcome),
               sys.events[key := Event(sys.events[key].payload, true,
                   if outcome.Applied? then Some(outcome.booking) else None)],
               sys.jobs,
               if outcome.Applied? && outcome.fulfil && enqueues then sys.fulfilment + [outcome.booking]
               else sys.fulfilment)
  }

  function Deliver(sys: System, key: EventKey, payload: Option<Payload>, enqueues: bool): System {
    if key in sys.events then
      sys
    else
      sys.(events := sys.events[key := Event(payload, false, None)],
           jobs := if enqueues then sys.jobs + multiset{key} else sys.jobs)
  }

  function Unprocessed(sys: System): set<EventKey> {
    set key | key in sys.events && !sys.events[key].processed
  }

  /** Everything that is not the webhook pipeline. */
  datatype Action =
    | CreateBooking(booking: BookingId, baseAmount: nat, markupAmount: nat, currency: string)
    | StartAttempt(booking: BookingId, offerExpired: bool, gatewayOk: bool, orderRef: string)
    | Act(booking: BookingId, step: Step)

  /** The table's unique constraint on the supplier's order id refuses a second booking for one order. */
  ghost predicate OrderTaken(s: Store, b: BookingId, step: Step)
    requires b in s.lives
  {
    && Confirms(s.lives[b], step)
    && exists other :: other in s.lives && other != b &&
         s.lives[other].rows.booking.supplierOrderId == Some(TransactionOf(s.lives[b], step).order.id)
  }

  /** And that on the gateway's refund id refuses to record a refund under the id of another booking's refund. */
  ghost predicate RefundIdTaken(s: Store, b: BookingId, step: Step)
    requires b in s.lives
  {
    var tx := TransactionOf(s.lives[b], step);
    && tx.Record?
    && RefundExecution.MayExecute(s.lives[b].rows, tx.row)
    && exists other, refund :: other in s.lives && other != b && refund in s.lives[other].rows.refunds &&
         refund.providerRefundId == Some(tx.providerRefundId)
  }

  /** A step whose transaction a constraint across bookings rolls back. */
  ghost predicate Rejected(s: Store, b: BookingId, step: Step)
    requires b in s.lives
  {
    OrderTaken(s, b, step) || RefundIdTaken(s, b, step)
  }

  ghost function Perform(s: Store, a: Action): Store {
    match a
    case CreateBooking(b, baseAmount, markupAmount, currency) =>
      if b in s.lives then s else s.(lives := s.lives[b := Start(baseAmount, markupAmount, currency)])
    case StartAttempt(b, offerExpired, gatewayOk, ref) =>
      if b !in s.lives || ref in s.attempts then s
      else
        var starting := s.lives[b].rows.booking.status == AwaitingPayment && !offerExpired && gatewayOk;
        Store(s.lives[b := Next(s.lives[b], Step.Attempt(offerExpired, gatewayOk))],
              if starting then s.attempts[ref := Attempt.Attempt(b, RequiresAction)] else s.attempts)
    case Act(b, step) =>
      if b !in s.lives || step.PaymentCaptured? || step.Attempt? || Rejected(s, b, step) then s
      else s.(lives := s.lives[b := Next(s.lives[b], step)])
  }

  datatype SystemStep =
    | DeliverWebhook(key: EventKey, payload: Option<Payload>, enqueues: bool)
    | SweepUnprocessed(found: set<EventKey>)
    | LoseJob(key: EventKey)
    | RunJob(key: EventKey, acknowledged: bool, enqueues: bool)
    | Elsewhere(action: Action)

  /** A queued job may run any number of times before it is acknowledged, and may vanish unrun. */
  ghost function NextSystem(sys: System, step: SystemStep): System {
    match step
    case DeliverWebhook(key, payload, enqueues) => Deliver(sys, key, payload, enqueues)
    case SweepUnprocessed(found) => sys.(jobs := sys.jobs + multiset(found * Unprocessed(sys)))
    case LoseJob(key) => sys.(jobs := sys.jobs - multiset{key})
    case RunJob(key, acknowledged, enqueues) =>
      if key !in sys.jobs then sys
      else
        var done := ProcessEvent(sys, key, enqueues);
        done.(jobs := if acknowledged then sys.jobs - multiset{key} else sys.jobs)
    case Elsewhere(action) => sys.(store := Perform(sys.store, action))
  }

  ghost function RunSystem(sys: System, steps: seq<SystemStep>): System {
    if steps == [] then sys else NextSystem(RunSystem(sys, steps[..|steps| - 1]), steps[|steps| - 1])
  }

  function EmptySystem(): System {
    System(Store(map[], map[]), map[], multiset{}, [])
  }

  // The ideal: no event rows, no jobs, each event applied where it stands.

  datatype IdealStep = Once(key: EventKey, payload: Option<Payload>) | Otherwise(action: Action)

  ghost function IdealNext(s: Store, step: IdealStep): Store {
    match step
    case Once(key, payload) => StoreAfter(s, Effect(s, key, payload))
    case Otherwise(action) => Perform(s, action)
  }

  ghost function RunIdeal(s: Store, steps: seq<IdealStep>): Store {
    if steps == [] then s else IdealNext(RunIdeal(s, steps[..|steps| - 1]), steps[|steps| - 1])
  }

  /** A job run that marks an event, or an action outside the pipeline; every other step leaves the store alone. */
  ghost function ProjectStep(sys: System, step: SystemStep): seq<IdealStep> {
    if step.Elsewhere? then [Otherwise(step.action)]
    else if step.RunJob? && Marks(sys, step) then [Once(step.key, sys.events[step.key].payload)]
    else []
  }

  ghost function Project(sys: System, steps: seq<SystemStep>): seq<IdealStep> {
    if steps == [] then []
    else
      var n := |steps| - 1;
      Project(sys, steps[..n]) + ProjectStep(RunSystem(sys, steps[..n]), steps[n])
  }

  ghost predicate Marks(sys: System, step: SystemStep)
    requires step.RunJob?
  {
    step.key in sys.events && !sys.events[step.key].processed && NextSystem(sys, step).events[step.key].processed
  }

  lemma StepRefines(sys: System, step: SystemStep)
    ensures var ideal := ProjectStep(sys, step);
            && |ideal| <= 1
            && NextSystem(sys, step).store == if ideal == [] then sys.store else IdealNext(sys.store, ideal[0])
  {
    if step.RunJob? && step.key in sys.events && !sys.events[step.key].processed {
      assert NextSystem(sys, step).store ==
             if step.key in sys.jobs
             then StoreAfter(sys.store, Effect(sys.store, step.key, sys.events[step.key].payload)) else sys.store;
    }
  }

  lemma RunIdealAppend(s: Store, steps: seq<IdealStep>, more: seq<IdealStep>)
    requires |more| <= 1
    ensures RunIdeal(s, steps + more) ==
            if more == [] then RunIdeal(s, steps) else IdealNext(RunIdeal(s, steps), more[0])
  {
    if more == [] {
      assert steps + more == steps;
    } else {
      assert (steps + more)[..|steps|] == steps;
    }
  }

  /** Forgetting event rows and jobs, every run of the pipeline is a run that applies each event where it is marked. */
  lemma {:induction false} PipelineRefinesIdeal(sys: System, steps: seq<SystemStep>)
    ensures RunSystem(sys, steps).store == RunIdeal(sys.store, Project(sys, steps))
  {
    if steps != [] {
      var n := |steps| - 1;
      var before, step := RunSystem(sys, steps[..n]), steps[n];
      PipelineRefinesIdeal(sys, steps[..n]);
      StepRefines(before, step);
      RunIdealAppend(sys.store, Project(sys, steps[..n]), ProjectStep(before, step));
    }
  }

  lemma RunSystemTwo(sys: System, a: SystemStep, b: SystemStep)
    ensures RunSystem(sys, [a, b]) == NextSystem(NextSystem(sys, a), b)
  {
    assert [a, b][..1] == [a] && [a][..0] == [];
    assert RunSystem(sys, [a]) == NextSystem(sys, a);
  }

  lemma SweepQueues(sys: System, key: EventKey)
    requires key in Unprocessed(sys)
    ensures NextSystem(sys, SweepUnprocessed({key})) == sys.(jobs := sys.jobs + multiset{key})
  {
    assert {key} * Unprocessed(sys) == {key};
  }

  lemma JobIsUsedUp(sys: System, key: EventKey, enqueues: bool)
    ensures NextSystem(sys.(jobs := sys.jobs + multiset{key}), RunJob(key, true, enqueues)) ==
            ProcessEvent(sys, key, enqueues)
  {
    assert sys.jobs + multiset{key} - multiset{key} == sys.jobs;
  }

  /** What a sweep brings back is unprocessed, and each such event it finds gets one more job. */
  lemma SweepBringsBack(sys: System, found: set<EventKey>, key: EventKey)
    ensures NextSystem(sys, SweepUnprocessed(found)).jobs[key] ==
            sys.jobs[key] + if key in found && key in sys.events && !IsProcessed(sys, key) then 1 else 0
  {
    assert multiset(found * Unprocessed(sys))[key] == if key in found * Unprocessed(sys) then 1 else 0;
  }

  /**
   * No event is stranded: whatever became of its jobs, one sweep and one job mark an unprocessed event and do
   * exactly what it is for, unless it is unresolved, when they change nothing and leave it to the next sweep.
   */
  lemma SweptEventIsApplied(sys: System, key: EventKey, enqueues: bool)
    requires key in Unprocessed(sys)
    ensures var outcome := Effect(sys.store, key, sys.events[key].payload);
            var sys' := RunSystem(sys, [SweepUnprocessed({key}), RunJob(key, true, enqueues)]);
            && sys'.store == StoreAfter(sys.store, outcome) && sys'.jobs == sys.jobs
            && (IsProcessed(sys', key) <==> !outcome.Unresolved?)
            && (outcome.Unresolved? ==> sys' == sys)
            && sys'.fulfilment ==
               sys.fulfilment + if outcome.Applied? && outcome.fulfil && enqueues then [outcome.booking] else []
  {
    RunSystemTwo(sys, SweepUnprocessed({key}), RunJob(key, true, enqueues));
    SweepQueues(sys, key);
    JobIsUsedUp(sys, key, enqueues);
  }

  function AppliedKeys(steps: seq<IdealStep>): seq<EventKey> {
    if steps == [] then []
    else
      var last := steps[|steps| - 1];
      AppliedKeys(steps[..|steps| - 1]) + if last.Once? then [last.key] else []
  }

  predicate Distinct(keys: seq<EventKey>) {
    forall i, j :: 0 <= i < j < |keys| ==> keys[i] != keys[j]
  }

  predicate IsProcessed(sys: System, key: EventKey) {
    key in sys.events && sys.events[key].processed
  }

  lemma ProcessMarks(sys: System, processed: EventKey, enqueues: bool, key: EventKey)
    ensures IsProcessed(sys, key) ==> IsProcessed(ProcessEvent(sys, processed, enqueues), key)
    ensures key != processed ==> (IsProcessed(ProcessEvent(sys, processed, enqueues), key) <==> IsProcessed(sys, key))
    ensures processed !in sys.events ==> processed !in ProcessEvent(sys, processed, enqueues).events
  {
  }

  lemma StepMarks(sys: System, step: SystemStep, key: EventKey)
    ensures IsProcessed(NextSystem(sys, step), key) <==>
              IsProcessed(sys, key) || (step.RunJob? && step.key == key && Marks(sys, step))
  {
    match step
    case RunJob(processed, _, enqueues) => ProcessMarks(sys, processed, enqueues, key);
    case _ =>
  }

  ghost function MarkedBy(sys: System, step: SystemStep): seq<EventKey> {
    if step.RunJob? && Marks(sys, step) then [step.key] else []
  }

  lemma AppliedKeysAppend(ideal: seq<IdealStep>, more: seq<IdealStep>)
    requires |more| <= 1
    ensures AppliedKeys(ideal + more) ==
            AppliedKeys(ideal) + if more != [] && more[0].Once? then [more[0].key] else []
  {
    if more == [] {
      assert ideal + more == ideal;
    } else {
      assert (ideal + more)[..|ideal|] == ideal;
    }
  }

  lemma AppliedKeysStep(sys: System, steps: seq<SystemStep>)
    requires steps != []
    ensures var n := |steps| - 1;
            AppliedKeys(Project(sys, steps)) ==
                AppliedKeys(Project(sys, steps[..n])) + MarkedBy(RunSystem(sys, steps[..n]), steps[n])
  {
    var n := |steps| - 1;
    AppliedKeysAppend(Project(sys, steps[..n]), ProjectStep(RunSystem(sys, steps[..n]), steps[n]));
  }

  lemma MarkedKeysExtend(keys: seq<EventKey>, before: System, step: SystemStep)
    requires Distinct(keys) && forall key :: key in keys <==> IsProcessed(before, key)
    ensures Distinct(keys + MarkedBy(before, step))
    ensures forall key :: key in keys + MarkedBy(before, step) <==> IsProcessed(NextSystem(before, step), key)
  {
    forall key ensures key in keys + MarkedBy(before, step) <==> IsProcessed(NextSystem(before, step), key) {
      StepMarks(before, step, key);
    }
    if MarkedBy(before, step) == [] {
      assert keys + MarkedBy(before, step) == keys;
    } else {
      assert step.key !in keys;
    }
  }

  lemma RunSystemStep(sys: System, steps: seq<SystemStep>)
    requires steps != []
    ensures RunSystem(sys, steps) == NextSystem(RunSystem(sys, steps[..|steps| - 1]), steps[|steps| - 1])
  {
  }

  /** In that run no event occurs twice, and the events that occur are exactly the ones marked processed. */
  lemma {:induction false} EachEventAppliedOnce(steps: seq<SystemStep>)
    ensures Distinct(AppliedKeys(Project(EmptySystem(), steps)))
    ensures forall key :: key in AppliedKeys(Project(EmptySystem(), steps)) <==>
          IsProcessed(RunSystem(EmptySystem(), steps), key)
  {
    if steps != [] {
      var empty, n := EmptySystem(), |steps| - 1;
      EachEventAppliedOnce(steps[..n]);
      MarkedKeysExtend(AppliedKeys(Project(empty, steps[..n])), RunSystem(empty, steps[..n]), steps[n]);
      AppliedKeysStep(empty, steps);
      RunSystemStep(empty, steps);
    }
  }

  ghost predicate RowStays(sys: System, sys': System, key: EventKey) {
    key in sys.events ==>
      && key in sys'.events
      && sys'.events[key].payload == sys.events[key].payload
      && (sys.events[key].processed ==> sys'.events[key] == sys.events[key])
  }

  lemma ProcessKeepsRow(sys: System, processed: EventKey, enqueues: bool, key: EventKey)
    ensures RowStays(sys, ProcessEvent(sys, processed, enqueues), key)
  {
    if processed in sys.events {
      var outcome := Effect(sys.store, processed, sys.events[processed].payload);
    }
  }

  lemma EventRowStays(sys: System, step: SystemStep, key: EventKey)
    ensures RowStays(sys, NextSystem(sys, step), key)
  {
    match step
    case RunJob(processed, _, enqueues) => ProcessKeepsRow(sys, processed, enqueues, key);
    case _ =>
  }

  /** The payload an ideal step applies is the first one delivered for its key. */
  lemma {:induction false} EventRowsStay(sys: System, steps: seq<SystemStep>, key: EventKey)
    requires key in sys.events
    ensures var sys' := RunSystem(sys, steps);
            && key in sys'.events
            && sys'.events[key].payload == sys.events[key].payload
            && (sys.events[key].processed ==> sys'.events[key] == sys.events[key])
  {
    if steps != [] {
      var n := |steps| - 1;
      EventRowsStay(sys, steps[..n], key);
      EventRowStays(RunSystem(sys, steps[..n]), steps[n], key);
      RunSystemStep(sys, steps);
    }
  }

  // Per booking: every life in the system is a run of its own, and its captures are its processed events.

  ghost predicate Reachable(l: Life) {
    exists baseAmount: nat, markupAmount: nat, currency: string, steps: seq<Step> ::
      l == Run(Start(baseAmount, markupAmount, currency), steps)
  }

  lemma ReachableNext(l: Life, step: Step)
    requires Reachable(l)
    ensures Reachable(Next(l, step))
  {
    var baseAmount: nat, markupAmount: nat, currency: string, steps: seq<Step> :|
      l == Run(Start(baseAmount, markupAmount, currency), steps);
    RunSnoc(Start(baseAmount, markupAmount, currency), steps, step);
    assert Next(l, step) == Run(Start(baseAmount, markupAmount, currency), steps + [step]);
  }

  ghost predicate AllReachable(s: Store) {
    forall b :: b in s.lives ==> Reachable(s.lives[b])
  }

  lemma PerformReachable(s: Store, a: Action)
    requires AllReachable(s)
    ensures AllReachable(Perform(s, a))
  {
    match a
    case CreateBooking(b, baseAmount, markupAmount, currency) =>
      assert Start(baseAmount, markupAmount, currency) == Run(Start(baseAmount, markupAmount, currency), []);
    case StartAttempt(b, offerExpired, gatewayOk, _) =>
      if b in s.lives { ReachableNext(s.lives[b], Step.Attempt(offerExpired, gatewayOk)); }
    case Act(b, step) =>
      if b in s.lives { ReachableNext(s.lives[b], step); }
  }

  lemma EffectReachable(s: Store, key: EventKey, payload: Option<Payload>)
    requires AllReachable(s)
    ensures AllReachable(StoreAfter(s, Effect(s, key, payload)))
  {
    var outcome := Effect(s, key, payload);
    if outcome.Applied? {
      ReachableNext(s.lives[outcome.booking], PaymentCaptured);
    }
  }

  /** So whatever holds in every run of one booking holds of every booking in every run of the system. */
  lemma {:induction false} EveryBookingIsReachable(steps: seq<SystemStep>)
    ensures AllReachable(RunSystem(EmptySystem(), steps).store)
  {
    if steps != [] {
      var n := |steps| - 1;
      var before := RunSystem(EmptySystem(), steps[..n]);
      EveryBookingIsReachable(steps[..n]);
      match steps[n] {
        case RunJob(key, _, _) =>
          if key in before.events {
            EffectReachable(before.store, key, before.events[key].payload);
          }
        case Elsewhere(action) => PerformReachable(before.store, action);
        case _ =>
      }
    }
  }

  lemma ReachableSound(l: Life)
    requires Reachable(l)
    ensures EveryRun.Sound(l)
  {
    var baseAmount: nat, markupAmount: nat, currency: string, steps: seq<Step> :|
      l == Run(Start(baseAmount, markupAmount, currency), steps);
    EveryRun.EveryRunIsSound(baseAmount, markupAmount, currency, steps);
  }

  ghost predicate OneTransaction(keys: set<EventKey>) {
    forall j, k :: j in keys && k in keys ==> j.transactionId == k.transactionId
  }

  ghost function Captures(sys: System, b: BookingId): set<EventKey> {
    set key | key in sys.events && key.state.TransactionSucceeded? && sys.events[key].processed
        && sys.events[key].booking == Some(b)
  }

  function Captured(s: Store, b: BookingId): int {
    if b in s.lives then Payments(s.lives[b].rows) else 0
  }

  ghost predicate CapturesCounted(sys: System) {
    && AllReachable(sys.store)
    && (forall b :: Captured(sys.store, b) == |Captures(sys, b)|)
    && JobsNamePaid(sys)
  }

  /** Marking a succeeded event adds exactly its key to the captures of the booking it paid. */
  lemma CaptureMarks(sys: System, key: EventKey, enqueues: bool)
    requires key in sys.events && !sys.events[key].processed
    requires Effect(sys.store, key, sys.events[key].payload).Applied?
    ensures var outcome := Effect(sys.store, key, sys.events[key].payload);
            var sys' := ProcessEvent(sys, key, enqueues);
            && (forall b :: Captures(sys', b) ==
                  Captures(sys, b) + if outcome.fulfil && b == outcome.booking then {key} else {})
            && key !in Captures(sys, outcome.booking)
  {
    var outcome := Effect(sys.store, key, sys.events[key].payload);
    var sys' := ProcessEvent(sys, key, enqueues);
    assert outcome.fulfil <==> key.state.TransactionSucceeded?;
    forall b
      ensures Captures(sys', b) == Captures(sys, b) + if outcome.fulfil && b == outcome.booking then {key} else {}
    {
      forall k
        ensures k in Captures(sys', b) <==>
                k in Captures(sys, b) + if outcome.fulfil && b == outcome.booking then {key} else {}
      {
      }
    }
  }

  /** One booking's life moves on: its captures grow by `more`, and a booking that has been paid stays so. */
  ghost predicate LifeMoves(lives: map<BookingId, Life>, lives': map<BookingId, Life>, x: BookingId, more: int) {
    && x in lives && x in lives' && lives' == lives[x := lives'[x]]
    && Payments(lives'[x].rows) == Payments(lives[x].rows) + more
    && Visits(lives'[x].rows, Paid) >= Visits(lives[x].rows, Paid)
    && (Visits(lives[x].rows, Paid) == 1 ==> Visits(lives'[x].rows, Paid) == 1)
    && (more > 0 ==> Visits(lives'[x].rows, Paid) == 1)
  }

  lemma CaptureMoves(l: Life)
    requires Reachable(l) && Checkout.Capture(l.rows).Success?
    ensures var r, r' := l.rows, Next(l, PaymentCaptured).rows;
            Payments(r') == Payments(r) + 1 && Visits(r', Paid) == 1 && Visits(r', Paid) >= Visits(r, Paid)
  {
    ReachableSound(l);
    Consistency.CaptureConsistent(l.rows);
    PaidVisits(l.rows, Checkout.Capture(l.rows).value);
  }

  lemma EffectCaptures(s: Store, key: EventKey, payload: Option<Payload>)
    requires AllReachable(s) && Effect(s, key, payload).Applied?
    ensures var outcome := Effect(s, key, payload);
            if outcome.fulfil then LifeMoves(s.lives, outcome.store.lives, outcome.booking, 1)
            else outcome.store.lives == s.lives
  {
    var outcome := Effect(s, key, payload);
    if outcome.fulfil {
      CaptureMoves(s.lives[outcome.booking]);
    }
  }

  lemma PaidVisits(r: Rows, r': Rows)
    requires Consistency.Consistent(r) && Consistency.Consistent(r') && Payments(r) <= Payments(r')
    ensures Visits(r', Paid) >= Visits(r, Paid)
    ensures Payments(r') >= 1 ==> Visits(r', Paid) == 1
  {
    BookingStateMachine.ChainVisitsOnce(r.history, r.booking.status, Paid);
    BookingStateMachine.ChainVisitsOnce(r'.history, r'.booking.status, Paid);
  }

  /** No action outside the pipeline captures money. */
  lemma StepCaptures(l: Life, step: Step)
    requires EveryRun.Sound(l) && !step.PaymentCaptured?
    ensures Payments(Next(l, step).rows) == Payments(l.rows)
  {
    var tx := TransactionOf(l, step);
    EntriesOtherThanPayments(l.rows, tx);
  }

  /** At most one entry is appended, and not a customer's payment. */
  ghost predicate NoPaymentEntry(r: Rows, r': Rows) {
    r'.ledger == r.ledger ||
      (|r'.ledger| == |r.ledger| + 1
       && r'.ledger == r.ledger + [r'.ledger[|r.ledger|]] && !r'.ledger[|r.ledger|].kind.CustomerPayment?)
  }

  lemma OtherEntries(r: Rows, tx: Transactions.Transaction)
    requires !tx.Capture?
    ensures NoPaymentEntry(r, Transactions.Apply(r, tx))
  {
  }

  lemma EntriesOtherThanPayments(r: Rows, tx: Transactions.Transaction)
    requires !tx.Capture?
    ensures Payments(Transactions.Apply(r, tx)) == Payments(r)
  {
    OtherEntries(r, tx);
    OtherEntryKeepsPayments(r, Transactions.Apply(r, tx));
  }

  lemma OtherEntryKeepsPayments(r: Rows, r': Rows)
    requires NoPaymentEntry(r, r')
    ensures Payments(r') == Payments(r)
  {
    if r'.ledger != r.ledger {
      SumAppend(r.ledger, r'.ledger[|r.ledger|], PaymentEntry);
    }
  }

  lemma OtherStepMoves(lives: map<BookingId, Life>, x: BookingId, step: Step)
    requires x in lives && Reachable(lives[x]) && !step.PaymentCaptured?
    ensures LifeMoves(lives, lives[x := Next(lives[x], step)], x, 0)
  {
    var l := lives[x];
    ReachableSound(l);
    EveryRun.NextSound(l, step);
    StepCaptures(l, step);
    PaidVisits(l.rows, Next(l, step).rows);
    BookingStateMachine.ChainVisitsOnce(l.rows.history, l.rows.booking.status, Paid);
  }

  /** No action outside the pipeline captures money or unpays a booking. */
  ghost predicate NothingCaptured(s: Store, s': Store) {
    forall b ::
      && Captured(s', b) == Captured(s, b)
      && (b in s.lives ==> b in s'.lives)
      && (b in s.lives && Visits(s.lives[b].rows, Paid) == 1 ==> Visits(s'.lives[b].rows, Paid) == 1)
  }

  lemma MoveCapturesNothing(s: Store, s': Store, x: BookingId)
    requires LifeMoves(s.lives, s'.lives, x, 0)
    ensures NothingCaptured(s, s')
  {
  }

  lemma PerformCaptures(s: Store, a: Action)
    requires AllReachable(s)
    ensures NothingCaptured(s, Perform(s, a))
  {
    match a
    case CreateBooking(_, baseAmount, markupAmount, currency) =>
      assert Payments(Start(baseAmount, markupAmount, currency).rows) == 0;
    case StartAttempt(x, offerExpired, gatewayOk, ref) =>
      if x in s.lives && ref !in s.attempts {
        OtherStepMoves(s.lives, x, Step.Attempt(offerExpired, gatewayOk));
        MoveCapturesNothing(s, Perform(s, a), x);
      }
    case Act(x, step) =>
      if x in s.lives && !step.PaymentCaptured? && !step.Attempt? && !Rejected(s, x, step) {
        OtherStepMoves(s.lives, x, step);
        MoveCapturesNothing(s, Perform(s, a), x);
      }
  }

  ghost predicate JobsNamePaid(sys: System) {
    forall b :: b in sys.fulfilment ==> b in sys.store.lives && Visits(sys.store.lives[b].rows, Paid) == 1
  }

  lemma CaptureIsCounted(s: Store, s': Store, x: BookingId, more: int)
    requires LifeMoves(s.lives, s'.lives, x, more)
    ensures forall b :: Captured(s', b) == Captured(s, b) + if b == x then more else 0
  {
  }

  lemma AppliedCaptures(sys: System, key: EventKey, enqueues: bool)
    requires CapturesCounted(sys) && key in sys.events && !sys.events[key].processed
    requires Effect(sys.store, key, sys.events[key].payload).Applied?
    ensures var sys' := ProcessEvent(sys, key, enqueues);
            forall b :: Captured(sys'.store, b) == |Captures(sys', b)|
  {
    var sys' := ProcessEvent(sys, key, enqueues);
    var outcome := Effect(sys.store, key, sys.events[key].payload);
    EffectCaptures(sys.store, key, sys.events[key].payload);
    if outcome.fulfil {
      CaptureIsCounted(sys.store, sys'.store, outcome.booking, 1);
    }
    CaptureMarks(sys, key, enqueues);
    forall b ensures Captured(sys'.store, b) == |Captures(sys', b)| {
      assert Captured(sys.store, b) == |Captures(sys, b)|;
    }
  }

  lemma AppliedJobs(sys: System, key: EventKey, enqueues: bool)
    requires AllReachable(sys.store) && JobsNamePaid(sys) && key in sys.events && !sys.events[key].processed
    requires Effect(sys.store, key, sys.events[key].payload).Applied?
    ensures JobsNamePaid(ProcessEvent(sys, key, enqueues))
  {
    EffectCaptures(sys.store, key, sys.events[key].payload);
  }

  lemma ProcessCounts(sys: System, key: EventKey, enqueues: bool)
    requires CapturesCounted(sys)
    ensures CapturesCounted(ProcessEvent(sys, key, enqueues))
  {
    if key in sys.events && !sys.events[key].processed {
      var outcome := Effect(sys.store, key, sys.events[key].payload);
      EffectReachable(sys.store, key, sys.events[key].payload);
      if outcome.Applied? {
        AppliedCaptures(sys, key, enqueues);
        AppliedJobs(sys, key, enqueues);
      } else if outcome.Acknowledged? {
        forall b ensures Captures(ProcessEvent(sys, key, enqueues), b) == Captures(sys, b) {}
      }
    }
  }

  lemma ElsewhereCounts(sys: System, a: Action)
    requires CapturesCounted(sys)
    ensures CapturesCounted(sys.(store := Perform(sys.store, a)))
  {
    PerformReachable(sys.store, a);
    PerformCaptures(sys.store, a);
    forall b ensures Captures(sys.(store := Perform(sys.store, a)), b) == Captures(sys, b) {}
  }

  lemma OnlyQueueMoves(sys: System, sys': System)
    requires CapturesCounted(sys) && sys'.store == sys.store && sys'.fulfilment == sys.fulfilment
    requires forall key :: IsProcessed(sys, key) ==> IsProcessed(sys', key) && sys'.events[key] == sys.events[key]
    requires forall key :: IsProcessed(sys', key) ==> IsProcessed(sys, key)
    ensures CapturesCounted(sys')
  {
    forall b ensures Captures(sys', b) == Captures(sys, b) {
      forall key ensures key in Captures(sys', b) <==> key in Captures(sys, b) {
        assert IsProcessed(sys, key) <==> IsProcessed(sys', key);
      }
    }
  }

  lemma NextSystemCounts(sys: System, step: SystemStep)
    requires CapturesCounted(sys)
    ensures CapturesCounted(NextSystem(sys, step))
  {
    match step
    case RunJob(key, _, enqueues) =>
      ProcessCounts(sys, key, enqueues);
      OnlyQueueMoves(if key in sys.jobs then ProcessEvent(sys, key, enqueues) else sys, NextSystem(sys, step));
    case Elsewhere(action) => ElsewhereCounts(sys, action);
    case _ => OnlyQueueMoves(sys, NextSystem(sys, step));
  }

  lemma {:induction false} RunSystemCounts(steps: seq<SystemStep>)
    ensures CapturesCounted(RunSystem(EmptySystem(), steps))
  {
    if steps != [] {
      RunSystemCounts(steps[..|steps| - 1]);
      NextSystemCounts(RunSystem(EmptySystem(), steps[..|steps| - 1]), steps[|steps| - 1]);
      RunSystemStep(EmptySystem(), steps);
    } else {
      forall b ensures Captures(EmptySystem(), b) == {} {}
    }
  }

  /**
   * In every run of the system: a booking's captures are its processed succeeded events, one ledger entry each,
   * so one gateway transaction pays it once; a refund always finds the transaction to refund; and a
   * fulfilment job names a booking that has moved to paid.
   */
  lemma CapturesAreProcessedEvents(steps: seq<SystemStep>, b: BookingId)
    ensures var sys := RunSystem(EmptySystem(), steps);
            && (b in sys.fulfilment ==> b in sys.store.lives && Visits(sys.store.lives[b].rows, Paid) == 1)
            && (b in sys.store.lives ==>
                  var r := sys.store.lives[b].rows;
                  && Payments(r) == |Captures(sys, b)|
                  && (r.refunds != [] ==> Captures(sys, b) != {})
                  && (OneTransaction(Captures(sys, b)) ==> Payments(r) <= 1))
  {
    var sys := RunSystem(EmptySystem(), steps);
    RunSystemCounts(steps);
    if b in sys.store.lives {
      ReachableSound(sys.store.lives[b]);
      assert Captured(sys.store, b) == |Captures(sys, b)|;
      var keys := Captures(sys, b);
      if keys != {} && OneTransaction(keys) {
        var key :| key in keys;
        forall k | k in keys ensures k == key {}
        assert keys == {key};
      }
    }
  }

  function Swept(all: set<EventKey>, left: set<EventKey>, accepted: set<EventKey>): multiset<EventKey> {
    multiset((all - left) * accepted)
  }

  lemma SweptOnce(all: set<EventKey>, left: set<EventKey>, accepted: set<EventKey>, key: EventKey)
    requires key in left && left <= all
    ensures Swept(all, left - {key}, accepted) ==
            Swept(all, left, accepted) + if key in accepted then multiset{key} else multiset{}
  {
    var seen := (all - left) * accepted;
    assert (all - (left - {key})) * accepted == if key in accepted then seen + {key} else seen;
  }

  lemma SweptAll(stale: set<EventKey>, unprocessed: set<EventKey>, accepted: set<EventKey>)
    ensures stale * unprocessed * accepted == stale * accepted * unprocessed
  {
  }

  method SweepInto(jobs: multiset<EventKey>, found: set<EventKey>, accepted: set<EventKey>)
    returns (r: multiset<EventKey>)
    ensures r == jobs + multiset(found * accepted)
  {
    var left := found;
    r := jobs;
    while left != {}
      invariant left <= found && r == jobs + Swept(found, left, accepted)
      decreases left
    {
      var key :| key in left;
      SweptOnce(found, left, accepted, key);
      left := left - {key};
      if key in accepted {
        r := r + multiset{key};
      }
    }
    assert (found - {}) * accepted == found * accepted;
  }

  /** The tables and queues behind the pipeline, updated in place. */
  class WebhookTables {
    var lives: map<BookingId, Life>
    var attempts: map<string, Attempt>
    var events: map<EventKey, Event>
    var jobs: multiset<EventKey>
    var fulfilment: seq<BookingId>

    function Snapshot(): System
      reads this
    {
      System(Store(lives, attempts), events, jobs, fulfilment)
    }

    constructor ()
      ensures Snapshot() == EmptySystem()
    {
      lives, attempts, events := map[], map[], map[];
      jobs, fulfilment := multiset{}, [];
    }

    /** `queueUp` is whether the queue accepts the job; the row stays either way. */
    method HandleWebhook(key: EventKey, payload: Option<Payload>, queueUp: bool) returns (duplicate: bool)
      modifies this`events, this`jobs
      ensures duplicate <==> key in old(events)
      ensures Snapshot() == Deliver(old(Snapshot()), key, payload, queueUp)
    {
      if key in events {
        return true;
      }
      events := events[key := Event(payload, false, None)];
      if queueUp {
        jobs := jobs + multiset{key};
      }
      return false;
    }

    method Process(key: EventKey, queueUp: bool)
      modifies this`lives, this`attempts, this`events, this`fulfilment
      ensures Snapshot() == ProcessEvent(old(Snapshot()), key, queueUp)
    {
      if key !in events || events[key].processed {
        return;
      }
      var payload := events[key].payload;
      if payload.None? || key.state.TransactionPending? || payload.value.orderRef.None? {
        events := events[key := Event(payload, true, None)];
        return;
      }
      var ref := payload.value.orderRef.value;
      if ref !in attempts {
        return;
      }
      var booking := attempts[ref].booking;
      if booking !in lives || lives[booking].rows.payment.None? {
        return;
      }
      var fulfil := false;
      if key.state.TransactionSucceeded? {
        var rows := lives[booking].rows;
        var expected := GatewayAmounts.ToGatewayAmount(rows.booking.Total(), rows.booking.currency);
        if payload.value.amountCents != expected || Checkout.Capture(rows).Failure? {
          return;
        }
        lives := lives[booking := Next(lives[booking], PaymentCaptured)];
        attempts := attempts[ref := attempts[ref].(status := AttemptSucceeded)];
        fulfil := true;
      } else {
        attempts := attempts[ref := attempts[ref].(status := AttemptFailed)];
      }
      events := events[key := Event(payload, true, Some(booking))];
      if fulfil && queueUp {
        fulfilment := fulfilment + [booking];
      }
    }

    /** `stale` are the rows old enough for the sweep; `accepted` are the ones the queue takes. */
    method Sweep(stale: set<EventKey>, accepted: set<EventKey>)
      modifies this`jobs
      ensures Snapshot() == NextSystem(old(Snapshot()), SweepUnprocessed(stale * accepted))
    {
      ghost var all := Unprocessed(Snapshot());
      jobs := SweepInto(jobs, stale * Unprocessed(Snapshot()), accepted);
      SweptAll(stale, all, accepted);
    }
  }
}

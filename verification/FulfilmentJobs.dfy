/** How many order calls the webhook pipeline can start: from gateway transactions over jobs to orders. */
module FulfilmentJobs {
  import opened Support
  import opened Records
  import opened Lifecycle
  import opened PaymentWebhooks
  import opened SupplierOrders

  lemma CapturesGrow(sys: System, step: SystemStep, b: BookingId)
    ensures Captures(sys, b) <= Captures(NextSystem(sys, step), b)
    ensures |Captures(sys, b)| <= |Captures(NextSystem(sys, step), b)|
  {
    forall key | key in Captures(sys, b) ensures key in Captures(NextSystem(sys, step), b) {
      EventRowStays(sys, step, key);
    }
    SubsetSize(Captures(sys, b), Captures(NextSystem(sys, step), b));
  }

  ghost predicate JobsWithinCaptures(sys: System, b: BookingId) {
    multiset(sys.fulfilment)[b] <= |Captures(sys, b)|
  }

  lemma ProcessQueuesWithin(sys: System, key: EventKey, enqueues: bool, b: BookingId)
    requires JobsWithinCaptures(sys, b)
    ensures ProcessEvent(sys, key, enqueues).fulfilment == sys.fulfilment ||
            JobsWithinCaptures(ProcessEvent(sys, key, enqueues), b)
  {
    var sys' := ProcessEvent(sys, key, enqueues);
    if sys'.fulfilment != sys.fulfilment {
      var outcome := Effect(sys.store, key, sys.events[key].payload);
      CaptureMarks(sys, key, enqueues);
      assert multiset(sys.fulfilment + [outcome.booking]) == multiset(sys.fulfilment) + multiset{outcome.booking};
    }
  }

  lemma NextQueuesWithin(sys: System, step: SystemStep, b: BookingId)
    requires JobsWithinCaptures(sys, b)
    ensures JobsWithinCaptures(NextSystem(sys, step), b)
  {
    CapturesGrow(sys, step, b);
    if step.RunJob? && step.key in sys.jobs {
      ProcessQueuesWithin(sys, step.key, step.enqueues, b);
      assert NextSystem(sys, step).events == ProcessEvent(sys, step.key, step.enqueues).events;
    }
  }

  /** In every run of the system a booking gets at most one fulfilment job per processed succeeded event. */
  lemma {:induction false} JobsAreCaptures(steps: seq<SystemStep>, b: BookingId)
    ensures JobsWithinCaptures(RunSystem(EmptySystem(), steps), b)
  {
    if steps != [] {
      var n := |steps| - 1;
      JobsAreCaptures(steps[..n], b);
      NextQueuesWithin(RunSystem(EmptySystem(), steps[..n]), steps[n], b);
      RunSystemStep(EmptySystem(), steps);
    }
  }

  // From jobs to orders.

  function AsksFor(b: BookingId): SystemStep -> int {
    (step: SystemStep) => if step == Elsewhere(Act(b, AskSupplier(Fulfilment))) then 1 else 0
  }

  /** How often a fulfilment job of the booking was run. */
  function JobRuns(steps: seq<SystemStep>, b: BookingId): int {
    SumBy(steps, AsksFor(b))
  }

  function TicketsOf(s: Store, b: BookingId): int {
    if b in s.lives then Tickets(s.lives[b]) else 0
  }

  lemma StepTickets(l: Life, step: Step)
    ensures Tickets(Next(l, step)) <= Tickets(l) + if step == AskSupplier(Fulfilment) then 1 else 0
  {
    NextTickets(l, step);
  }

  lemma PerformTickets(s: Store, a: Action, b: BookingId)
    ensures TicketsOf(Perform(s, a), b) <= TicketsOf(s, b) + AsksFor(b)(Elsewhere(a))
  {
    match a
    case CreateBooking(_, baseAmount, markupAmount, currency) =>
      assert Tickets(Start(baseAmount, markupAmount, currency)) == 0;
    case StartAttempt(x, offerExpired, gatewayOk, _) =>
      if x in s.lives {
        StepTickets(s.lives[x], Step.Attempt(offerExpired, gatewayOk));
      }
    case Act(x, step) =>
      if x in s.lives {
        StepTickets(s.lives[x], step);
      }
  }

  lemma EffectTickets(s: Store, key: EventKey, payload: Option<Payload>, b: BookingId)
    ensures TicketsOf(StoreAfter(s, Effect(s, key, payload)), b) <= TicketsOf(s, b)
  {
    if b in s.lives {
      StepTickets(s.lives[b], PaymentCaptured);
    }
  }

  lemma NextSystemTickets(sys: System, step: SystemStep, b: BookingId)
    ensures TicketsOf(NextSystem(sys, step).store, b) <= TicketsOf(sys.store, b) + AsksFor(b)(step)
  {
    match step
    case RunJob(key, _, _) =>
      if key in sys.events {
        EffectTickets(sys.store, key, sys.events[key].payload, b);
      }
    case Elsewhere(action) => PerformTickets(sys.store, action, b);
    case _ =>
  }

  lemma {:induction false} TicketsWithinJobRuns(steps: seq<SystemStep>, b: BookingId)
    ensures TicketsOf(RunSystem(EmptySystem(), steps).store, b) <= JobRuns(steps, b)
  {
    if steps != [] {
      var n := |steps| - 1;
      TicketsWithinJobRuns(steps[..n], b);
      NextSystemTickets(RunSystem(EmptySystem(), steps[..n]), steps[n], b);
      RunSystemStep(EmptySystem(), steps);
    }
  }

  /**
   * When no fulfilment job is run more than once, a booking has at most one order per captured transaction, whatever
   * is delivered, lost or repeated; with one gateway transaction it has at most one.
   */
  lemma OrdersWithinPayments(steps: seq<SystemStep>, b: BookingId)
    requires var sys := RunSystem(EmptySystem(), steps);
             b in sys.store.lives && JobRuns(steps, b) <= multiset(sys.fulfilment)[b]
    ensures var sys := RunSystem(EmptySystem(), steps);
            var l := sys.store.lives[b];
            && |l.supplierOrders| <= Tickets(l) <= Payments(l.rows)
            && (OneTransaction(Captures(sys, b)) ==> |l.supplierOrders| <= 1)
  {
    TicketsWithinJobRuns(steps, b);
    JobsAreCaptures(steps, b);
    CapturesAreProcessedEvents(steps, b);
    CallsOutIsNatural(RunSystem(EmptySystem(), steps).store.lives[b]);
  }
}

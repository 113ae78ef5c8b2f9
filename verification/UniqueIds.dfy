/** The supplier's order ids and the gateway's refund ids, each used once across all bookings. */
module UniqueIds {
  import opened Support
  import opened Records
  import opened Lifecycle
  import opened PaymentWebhooks
  import RefundExecution
  import Transactions

  function OrderIdOf(s: Store, b: BookingId): Option<string> {
    if b in s.lives then s.lives[b].rows.booking.supplierOrderId else None
  }

  function IdInRow(r: Rows, row: nat): Option<string> {
    if row < |r.refunds| then r.refunds[row].providerRefundId else None
  }

  function RefundIdOf(s: Store, b: BookingId, row: nat): Option<string> {
    if b in s.lives then IdInRow(s.lives[b].rows, row) else None
  }

  ghost predicate OrderIdsUnique(s: Store) {
    forall b, c :: b != c && OrderIdOf(s, b).Some? ==> OrderIdOf(s, c) != OrderIdOf(s, b)
  }

  ghost predicate RefundIdsUnique(s: Store) {
    forall b, c, i: nat, j: nat :: (b != c || i != j) && RefundIdOf(s, b, i).Some? ==>
        RefundIdOf(s, c, j) != RefundIdOf(s, b, i)
  }

  lemma OrderIdMoves(l: Life, step: Step)
    ensures Next(l, step).rows.booking.supplierOrderId ==
            if Confirms(l, step) then Some(TransactionOf(l, step).order.id) else l.rows.booking.supplierOrderId
  {
  }

  /** The step records this refund under its id. */
  predicate RecordsRow(l: Life, step: Step, row: nat) {
    var tx := TransactionOf(l, step);
    tx.Record? && tx.row == row && RefundExecution.MayRecord(l.rows, row, tx.providerRefundId)
  }

  lemma ApplyKeepsIds(r: Rows, tx: Transactions.Transaction, row: nat)
    ensures IdInRow(Transactions.Apply(r, tx), row) ==
            if tx.Record? && tx.row == row && RefundExecution.MayRecord(r, row, tx.providerRefundId)
            then Some(tx.providerRefundId) else IdInRow(r, row)
  {
  }

  lemma RefundIdMoves(l: Life, step: Step, row: nat)
    ensures IdInRow(Next(l, step).rows, row) ==
            if RecordsRow(l, step, row) then Some(TransactionOf(l, step).providerRefundId) else IdInRow(l.rows, row)
  {
    ApplyKeepsIds(l.rows, TransactionOf(l, step), row);
  }

  lemma FreshOrderId(s: Store, b: BookingId, step: Step, c: BookingId)
    requires b in s.lives && b != c && !OrderTaken(s, b, step) && Confirms(s.lives[b], step)
    ensures OrderIdOf(s, c) != Some(TransactionOf(s.lives[b], step).order.id)
  {
  }

  lemma FreshRefundId(s: Store, b: BookingId, step: Step, row: nat, c: BookingId, other: nat)
    requires b in s.lives && RecordsRow(s.lives[b], step, row) && !RefundIdTaken(s, b, step)
    requires b != c || row != other
    ensures RefundIdOf(s, c, other) != Some(TransactionOf(s.lives[b], step).providerRefundId)
  {
    if c in s.lives && other < |s.lives[c].rows.refunds| {
      assert s.lives[c].rows.refunds[other] in s.lives[c].rows.refunds;
    }
  }

  lemma StepKeepsOrderIds(s: Store, b: BookingId, step: Step, s': Store)
    requires b in s.lives && s'.lives == s.lives[b := Next(s.lives[b], step)]
    requires OrderIdsUnique(s) && !OrderTaken(s, b, step)
    ensures OrderIdsUnique(s')
  {
    OrderIdMoves(s.lives[b], step);
    forall c, d | c != d && OrderIdOf(s', c).Some? ensures OrderIdOf(s', d) != OrderIdOf(s', c) {
      assert OrderIdOf(s, c).Some? ==> OrderIdOf(s, d) != OrderIdOf(s, c);
      assert OrderIdOf(s, d).Some? ==> OrderIdOf(s, c) != OrderIdOf(s, d);
      if Confirms(s.lives[b], step) {
        if c == b { FreshOrderId(s, b, step, d); }
        if d == b { FreshOrderId(s, b, step, c); }
      }
    }
  }

  lemma TwoRowsStayApart(s: Store, b: BookingId, step: Step, s': Store, c: BookingId, i: nat, d: BookingId, j: nat)
    requires b in s.lives && s'.lives == s.lives[b := Next(s.lives[b], step)]
    requires RefundIdsUnique(s) && !RefundIdTaken(s, b, step)
    requires (c != d || i != j) && RefundIdOf(s', c, i).Some?
    ensures RefundIdOf(s', d, j) != RefundIdOf(s', c, i)
  {
    var l := s.lives[b];
    RefundIdMoves(l, step, i);
    RefundIdMoves(l, step, j);
    assert RefundIdOf(s, c, i).Some? ==> RefundIdOf(s, d, j) != RefundIdOf(s, c, i);
    assert RefundIdOf(s, d, j).Some? ==> RefundIdOf(s, c, i) != RefundIdOf(s, d, j);
    if c == b && RecordsRow(l, step, i) {
      FreshRefundId(s, b, step, i, d, j);
    } else if d == b && RecordsRow(l, step, j) {
      FreshRefundId(s, b, step, j, c, i);
    }
  }

  lemma StepKeepsRefundIds(s: Store, b: BookingId, step: Step, s': Store)
    requires b in s.lives && s'.lives == s.lives[b := Next(s.lives[b], step)]
    requires RefundIdsUnique(s) && !RefundIdTaken(s, b, step)
    ensures RefundIdsUnique(s')
  {
    forall c, d, i: nat, j: nat | (c != d || i != j) && RefundIdOf(s', c, i).Some?
      ensures RefundIdOf(s', d, j) != RefundIdOf(s', c, i)
    {
      TwoRowsStayApart(s, b, step, s', c, i, d, j);
    }
  }

  ghost predicate IdsUnique(s: Store) {
    OrderIdsUnique(s) && RefundIdsUnique(s)
  }

  lemma StepKeepsIds(s: Store, b: BookingId, step: Step, s': Store)
    requires b in s.lives && s'.lives == s.lives[b := Next(s.lives[b], step)]
    requires IdsUnique(s) && !Rejected(s, b, step)
    ensures IdsUnique(s')
  {
    StepKeepsOrderIds(s, b, step, s');
    StepKeepsRefundIds(s, b, step, s');
  }

  lemma NewBookingHasNoIds(s: Store, b: BookingId, baseAmount: nat, markupAmount: nat, currency: string)
    requires IdsUnique(s) && b !in s.lives
    ensures IdsUnique(s.(lives := s.lives[b := Start(baseAmount, markupAmount, currency)]))
  {
    var s' := s.(lives := s.lives[b := Start(baseAmount, markupAmount, currency)]);
    forall c ensures OrderIdOf(s', c) == OrderIdOf(s, c) {}
    forall c, i: nat ensures RefundIdOf(s', c, i) == RefundIdOf(s, c, i) {}
  }

  lemma PerformKeepsIds(s: Store, a: Action)
    requires IdsUnique(s)
    ensures IdsUnique(Perform(s, a))
  {
    match a
    case CreateBooking(b, baseAmount, markupAmount, currency) =>
      if b !in s.lives { NewBookingHasNoIds(s, b, baseAmount, markupAmount, currency); }
    case StartAttempt(b, offerExpired, gatewayOk, ref) =>
      if b in s.lives && ref !in s.attempts {
        StepKeepsIds(s, b, Step.Attempt(offerExpired, gatewayOk), Perform(s, a));
      }
    case Act(b, step) =>
      if b in s.lives && !step.PaymentCaptured? && !step.Attempt? && !Rejected(s, b, step) {
        StepKeepsIds(s, b, step, Perform(s, a));
      }
  }

  lemma SameLivesKeepIds(s: Store, s': Store)
    requires IdsUnique(s) && s'.lives == s.lives
    ensures IdsUnique(s')
  {
    forall c ensures OrderIdOf(s', c) == OrderIdOf(s, c) {}
    forall c, i: nat ensures RefundIdOf(s', c, i) == RefundIdOf(s, c, i) {}
  }

  lemma EffectKeepsIds(s: Store, key: EventKey, payload: Option<Payload>)
    requires IdsUnique(s)
    ensures IdsUnique(StoreAfter(s, Effect(s, key, payload)))
  {
    var outcome := Effect(s, key, payload);
    if outcome.Applied? && outcome.fulfil {
      StepKeepsIds(s, outcome.booking, PaymentCaptured, outcome.store);
    } else {
      SameLivesKeepIds(s, StoreAfter(s, outcome));
    }
  }

  /** In every run no two bookings hold one supplier order, and no two refunds one gateway refund. */
  lemma {:induction false} IdsAreUnique(steps: seq<SystemStep>)
    ensures IdsUnique(RunSystem(EmptySystem(), steps).store)
  {
    if steps != [] {
      var n := |steps| - 1;
      var before := RunSystem(EmptySystem(), steps[..n]);
      IdsAreUnique(steps[..n]);
      match steps[n] {
        case RunJob(key, _, _) =>
          if key in before.events {
            EffectKeepsIds(before.store, key, before.events[key].payload);
          }
        case Elsewhere(action) => PerformKeepsIds(before.store, action);
        case _ =>
      }
    }
  }
}

/** The two-phase refund protocol: a pending row first, the gateway's answer recorded later. */
module RefundExecution {
  import opened Support
  import opened Records
  import opened BookingStateMachine

  predicate Refundable(s: PaymentStatus) {
    s == PaymentSucceeded || s == PaymentPartiallyRefunded
  }

  function CreatePending(r: Rows, amount: int, initiatedBy: Option<string>,
                         supplierRefund: Option<int>): Result<Rows, Error>
  {
    if r.payment.None? then
      Failure(NotFound)
    else if !Refundable(r.payment.value.status) then
      Failure(IllegalTransition)
    else if amount <= 0 || Committed(r) + amount > r.payment.value.amount then
      Failure(ValidationError)
    else
      Success(r.(refunds := r.refunds + [Refund(amount, RefundPending, initiatedBy, supplierRefund, None)]))
  }

  /** The unlocked read at the start of an execution: only a pending row goes on to the gateway. */
  predicate MayExecute(r: Rows, row: nat) {
    r.payment.Some? && row < |r.refunds| && r.refunds[row].status == RefundPending
  }

  /** The row, its ledger entry and the payment's rollup, before the booking itself moves. */
  function RollUp(r: Rows, row: nat, providerRefundId: string): Rows
    requires MayExecute(r, row)
  {
    var paid := r.refunds[row].(status := RefundSucceeded, providerRefundId := Some(providerRefundId));
    var recorded := r.(refunds := r.refunds[row := paid],
                       ledger := r.ledger + [LedgerEntry(GatewayRefund, -paid.amount, Some(row))]);
    var full := Succeeded(recorded) >= r.payment.value.amount;
    recorded.(payment := Some(r.payment.value.(status := if full then PaymentRefunded else PaymentPartiallyRefunded)))
  }

  /** The table's unique constraint refuses a second row with the gateway's id of another refund. */
  predicate IdTaken(r: Rows, row: nat, providerRefundId: string) {
    exists j :: 0 <= j < |r.refunds| && j != row && r.refunds[j].providerRefundId == Some(providerRefundId)
  }

  predicate MayRecord(r: Rows, row: nat, providerRefundId: string) {
    MayExecute(r, row) && !IdTaken(r, row, providerRefundId)
  }

  /** The recording transaction, which reads the row again under its lock. */
  function Record(r: Rows, row: nat, providerRefundId: string): Rows {
    if !MayRecord(r, row, providerRefundId) then
      r
    else
      var rolled := RollUp(r, row, providerRefundId);
      if Succeeded(rolled) >= rolled.payment.value.amount && r.booking.status in {Cancelled, OrderFailed} then
        Transition(rolled, Refunded).value
      else
        rolled
  }

  function SetRefundStatus(r: Rows, row: nat, from: RefundStatus, to: RefundStatus): Rows {
    if row < |r.refunds| && r.refunds[row].status == from then
      r.(refunds := r.refunds[row := r.refunds[row].(status := to)])
    else
      r
  }

  function MarkFailed(r: Rows, row: nat): Rows {
    SetRefundStatus(r, row, RefundPending, RefundFailed)
  }

  /** An admin's retry puts a failed row back to pending and looks at nothing else. */
  function Retry(r: Rows, row: nat): Rows {
    SetRefundStatus(r, row, RefundFailed, RefundPending)
  }

  method SumCommittedRefunds(refunds: seq<Refund>) returns (sum: int)
    ensures sum == SumBy(refunds, CommittedAmount)
  {
    sum := 0;
    for i := 0 to |refunds|
      invariant sum == SumBy(refunds[..i], CommittedAmount)
    {
      assert refunds[..i + 1] == refunds[..i] + [refunds[i]];
      SumAppend(refunds[..i], refunds[i], CommittedAmount);
      if refunds[i].status in {RefundPending, RefundSucceeded} {
        sum := sum + refunds[i].amount;
      }
    }
    assert refunds[..|refunds|] == refunds;
  }

  method SumSucceededRefunds(refunds: seq<Refund>) returns (sum: int)
    ensures sum == SumBy(refunds, SucceededAmount)
  {
    sum := 0;
    for i := 0 to |refunds|
      invariant sum == SumBy(refunds[..i], SucceededAmount)
    {
      assert refunds[..i + 1] == refunds[..i] + [refunds[i]];
      SumAppend(refunds[..i], refunds[i], SucceededAmount);
      if refunds[i].status == RefundSucceeded {
        sum := sum + refunds[i].amount;
      }
    }
    assert refunds[..|refunds|] == refunds;
  }

  method CreatePendingRefund(db: Tables, amount: int, initiatedBy: Option<string>, supplierRefund: Option<int>)
    returns (outcome: Result<(), Error>)
    modifies db`refunds
    ensures Settles(outcome, old(db.Snapshot()), db.Snapshot(),
                    CreatePending(old(db.Snapshot()), amount, initiatedBy, supplierRefund))
    ensures outcome == Failure(NotFound) <==> db.payment.None?
    ensures outcome == Failure(IllegalTransition) <==>
            db.payment.Some? && db.payment.value.status in {PaymentPending, PaymentFailed, PaymentRefunded}
  {
    if db.payment.None? {
      return Failure(NotFound);
    }
    var payment := db.payment.value;
    if payment.status != PaymentSucceeded && payment.status != PaymentPartiallyRefunded {
      return Failure(IllegalTransition);
    }
    if amount <= 0 {
      return Failure(ValidationError);
    }
    var committed := SumCommittedRefunds(db.refunds);
    if committed + amount > payment.amount {
      return Failure(ValidationError);
    }
    db.refunds := db.refunds + [Refund(amount, RefundPending, initiatedBy, supplierRefund, None)];
    return Success(());
  }

  /** What an execution reports: whether it went to the gateway, and whether it completed the refund. */
  datatype Execution = Execution(executed: bool, fullyRefunded: bool)

  /** The unlocked read before the gateway call; None goes on to the gateway. */
  method BeginExecution(db: Tables, row: nat) returns (outcome: Result<Option<Execution>, Error>)
    ensures outcome == Success(None) <==> MayExecute(db.Snapshot(), row)
    ensures outcome.Success? && outcome.value.Some? <==> row < |db.refunds| && db.refunds[row].status != RefundPending
    ensures outcome.Success? && outcome.value.Some? ==> outcome.value == Some(Execution(false, false))
  {
    if row >= |db.refunds| {
      return Failure(NotFound);
    }
    if db.refunds[row].status != RefundPending {
      return Success(Some(Execution(false, false)));
    }
    return if db.payment.None? then Failure(NotFound) else Success(None);
  }

  /**
   * The gateway has answered, so the execution counts as executed even when the row changed meanwhile and
   * nothing is recorded.
   */
  method RecordExecution(db: Tables, row: nat, providerRefundId: string) returns (outcome: Result<Execution, Error>)
    modifies db
    ensures db.Snapshot() == Record(old(db.Snapshot()), row, providerRefundId)
    ensures outcome.Failure? <==>
              MayExecute(old(db.Snapshot()), row) && IdTaken(old(db.Snapshot()), row, providerRefundId)
    ensures outcome.Success? ==> outcome.value.executed
    ensures outcome.Success? ==>
              (outcome.value.fullyRefunded <==>
               MayExecute(old(db.Snapshot()), row) && Succeeded(db.Snapshot()) >= db.payment.value.amount)
  {
    if db.payment.None? || row >= |db.refunds| || db.refunds[row].status != RefundPending {
      return Success(Execution(true, false));
    }
    if IdTaken(db.Snapshot(), row, providerRefundId) {
      return Failure(ServerError);
    }
    var paid := db.refunds[row].(status := RefundSucceeded, providerRefundId := Some(providerRefundId));
    db.refunds := db.refunds[row := paid];
    db.CreateEntry(GatewayRefund, -paid.amount, Some(row));
    var refundedTotal := SumSucceededRefunds(db.refunds);
    var full := refundedTotal >= db.payment.value.amount;
    db.payment := Some(db.payment.value.(status := if full then PaymentRefunded else PaymentPartiallyRefunded));
    if full {
      if db.booking.status == Cancelled || db.booking.status == OrderFailed {
        var _ := TransitionTo(db, Refunded);
      }
    }
    return Success(Execution(true, full));
  }

  method MarkRefundFailed(db: Tables, row: nat)
    modifies db`refunds
    ensures db.Snapshot() == MarkFailed(old(db.Snapshot()), row)
  {
    if row < |db.refunds| && db.refunds[row].status == RefundPending {
      db.refunds := db.refunds[row := db.refunds[row].(status := RefundFailed)];
    }
  }

  method RetryRefund(db: Tables, row: nat) returns (outcome: Result<(), Error>)
    modifies db`refunds
    ensures db.Snapshot() == Retry(old(db.Snapshot()), row)
    ensures outcome.Success? <==> row < |old(db.refunds)| && old(db.refunds)[row].status != RefundSucceeded
  {
    if row >= |db.refunds| {
      return Failure(NotFound);
    }
    if db.refunds[row].status == RefundSucceeded {
      return Failure(IllegalTransition);
    }
    if db.refunds[row].status == RefundFailed {
      db.refunds := db.refunds[row := db.refunds[row].(status := RefundPending)];
    }
    return Success(());
  }

  // What the two phases do to the sums.

  lemma CreatePendingReserves(r: Rows, amount: int, initiatedBy: Option<string>, supplierRefund: Option<int>)
    ensures var created := CreatePending(r, amount, initiatedBy, supplierRefund);
            created.Success? ==>
              && Committed(created.value) == Committed(r) + amount <= r.payment.value.amount
              && Succeeded(created.value) == Succeeded(r)
  {
    if CreatePending(r, amount, initiatedBy, supplierRefund).Success? {
      var row := Refund(amount, RefundPending, initiatedBy, supplierRefund, None);
      SumAppend(r.refunds, row, CommittedAmount);
      SumAppend(r.refunds, row, SucceededAmount);
    }
  }

  /** A pending row is already committed, so recording moves money without committing more. */
  lemma RecordMovesReservedMoney(r: Rows, row: nat, id: string)
    requires MayRecord(r, row, id)
    ensures var r' := Record(r, row, id);
            && Committed(r') == Committed(r)
            && Succeeded(r') == Succeeded(r) + r.refunds[row].amount
            && Balance(r') == Balance(r) - r.refunds[row].amount
            && r'.payment.value.amount == r.payment.value.amount
            && (r'.payment.value.status == PaymentRefunded <==> Succeeded(r') >= r.payment.value.amount)
            && r'.payment.value.status in {PaymentRefunded, PaymentPartiallyRefunded}
  {
    var paid := r.refunds[row].(status := RefundSucceeded, providerRefundId := Some(id));
    SumUpdate(r.refunds, row, paid, CommittedAmount);
    SumUpdate(r.refunds, row, paid, SucceededAmount);
    SumAppend(r.ledger, LedgerEntry(GatewayRefund, -paid.amount, Some(row)), AnyEntry);
  }

  lemma SetRefundStatusShiftsCommitment(r: Rows, row: nat, from: RefundStatus, to: RefundStatus)
    requires row < |r.refunds| && r.refunds[row].status == from
    requires from != RefundSucceeded && to != RefundSucceeded && from != to
    ensures var r' := SetRefundStatus(r, row, from, to);
            && Succeeded(r') == Succeeded(r)
            && Committed(r') == Committed(r) + (if to == RefundPending then 1 else -1) * r.refunds[row].amount
  {
    var changed := r.refunds[row].(status := to);
    SumUpdate(r.refunds, row, changed, CommittedAmount);
    SumUpdate(r.refunds, row, changed, SucceededAmount);
  }
}

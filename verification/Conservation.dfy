/**
 * Conservation of a booking's money when the outside world behaves plainly: one succeeded gateway
 * transaction, one supplier cancellation that gives back at most the fare, no manual refunds and no
 * adjustments. All four are read off logs that only grow, so they hold throughout a run that ends with them.
 */
module Conservation {
  import opened Support
  import opened Records
  import opened BookingStateMachine
  import opened Consistency
  import opened Transactions
  import opened Lifecycle
  import opened EveryRun
  import RefundExecution
  import Cancellation
  import Checkout

  ghost predicate PlainRows(r: Rows) {
    && Payments(r) <= 1
    && SumBy(r.refunds, ManualRow) == 0
    && SumBy(r.ledger, AdjustmentEntry) == 0
  }

  ghost predicate Plain(l: Life) {
    && PlainRows(l.rows)
    && |l.supplierRefunds| <= 1
    && (forall s :: s in l.supplierRefunds ==> 0 <= s <= l.rows.booking.baseAmount)
  }

  /** What the customer is owed back by the cancellation the supplier granted. */
  function Owed(r: Rows, grants: seq<int>): int {
    if grants == [] then r.booking.markupAmount else grants[0] + r.booking.markupAmount
  }

  predicate OneRefund(r: Rows, amount: int) {
    |r.refunds| == 1 && r.refunds[0].amount == amount
  }

  /** Which refund row a booking holds in each status, and what of it has been paid out. */
  ghost predicate Shape(r: Rows, grants: seq<int>) {
    && (forall s :: s in grants ==> 0 <= s <= r.booking.baseAmount)
    && |grants| <= 1
    && (Visits(r, BookingStatus.Cancelled) == 0 || |grants| == 1)
    && SumBy(r.ledger, SupplierRefundAmount) == (if Visits(r, BookingStatus.Cancelled) == 0 then 0 else grants[0])
    && match r.booking.status
       case Pending => true
       case AwaitingPayment => true
       case Failed => true
       case Paid => r.refunds == [] && r.payment.Some? && r.payment.value.status == PaymentSucceeded
       case Confirmed => r.refunds == [] && r.payment.Some? && r.payment.value.status == PaymentSucceeded
       case OrderFailed =>
         if r.booking.Total() == 0 then r.refunds == []
         else OneRefund(r, r.booking.Total()) && r.refunds[0].status != RefundSucceeded
       case Cancelled =>
         if Owed(r, grants) == 0 then r.refunds == []
         else
           && OneRefund(r, Owed(r, grants))
           && (r.refunds[0].status == RefundSucceeded ==> Owed(r, grants) < r.booking.Total())
       case Refunded =>
         && OneRefund(r, r.booking.Total())
         && r.refunds[0].status == RefundSucceeded
         && (Visits(r, BookingStatus.Cancelled) == 1 ==> grants[0] == r.booking.baseAmount)
  }

  predicate Open(f: Flight) {
    f.SupplierCancelled? || f.ReadyToCancel?
  }

  /** A process the supplier granted a cancellation finds the booking still confirmed. */
  ghost predicate FlightFits(l: Life, f: Flight) {
    && (Open(f) ==> l.supplierRefunds == [f.supplierRefund] && l.rows.booking.status == BookingStatus.Confirmed)
    && (f.ReadyToCancel? ==> f.canRefund == (Owed(l.rows, l.supplierRefunds) > 0))
    && (f.AwaitingCancellation? ==> Visits(l.rows, BookingStatus.Confirmed) == 1)
  }

  ghost predicate CancelsFit(l: Life) {
    && (forall k :: 0 <= k < |l.flights| ==> FlightFits(l, l.flights[k]))
    && (forall j, k :: 0 <= j < k < |l.flights| ==> !(Open(l.flights[j]) && Open(l.flights[k])))
  }

  ghost predicate Conserving(l: Life) {
    Shape(l.rows, l.supplierRefunds) && CancelsFit(l)
  }

  // The logs only grow.

  lemma ManualRowsGrow(r: Rows, tx: Transaction)
    ensures SumBy(r.refunds, ManualRow) <= SumBy(Apply(r, tx).refunds, ManualRow)
  {
    var r' := Apply(r, tx);
    if |r'.refunds| > |r.refunds| {
      assert r'.refunds == r.refunds + [r'.refunds[|r.refunds|]];
      RowAdds(r.refunds, r'.refunds[|r.refunds|]);
    } else if r'.refunds != r.refunds {
      var i := tx.row;
      assert r'.refunds == r.refunds[i := r'.refunds[i]];
      RowChanges(r.refunds, i, r'.refunds[i]);
    }
  }

  lemma EntriesGrow(before: seq<LedgerEntry>, after: seq<LedgerEntry>)
    requires before <= after
    ensures SumBy(before, PaymentEntry) <= SumBy(after, PaymentEntry)
    ensures SumBy(before, AdjustmentEntry) <= SumBy(after, AdjustmentEntry)
  {
    var added := after[|before|..];
    assert after == before + added;
    SumConcat(before, added, PaymentEntry);
    SumConcat(before, added, AdjustmentEntry);
    SumNonNegative(added, PaymentEntry);
    SumNonNegative(added, AdjustmentEntry);
  }

  lemma PlainBackwards(l: Life, step: Step)
    requires Sound(l) && Plain(Next(l, step))
    ensures Plain(l)
  {
    var tx := TransactionOf(l, step);
    ApplyConsistent(l.rows, tx);
    TablesGrow(l.rows, tx);
    EntriesGrow(l.rows.ledger, Next(l, step).rows.ledger);
    ManualRowsGrow(l.rows, tx);
    SumNonNegative(l.rows.refunds, ManualRow);
    SumNonNegative(l.rows.ledger, AdjustmentEntry);
    forall s | s in l.supplierRefunds ensures s in Next(l, step).supplierRefunds {}
  }

  // Each transaction keeps the shape.

  lemma EarlyShape(r: Rows, tx: Transaction, grants: seq<int>)
    requires Consistent(r) && Shape(r, grants)
    requires tx.SavePassengers? || tx.StartPayment? || tx.Expire?
    ensures Shape(Apply(r, tx), grants)
  {
    var r' := Apply(r, tx);
    if r'.history != r.history {
      HistoryMovesByTransition(r, tx);
      TransitionKeepsChain(r, r'.booking.status);
    }
  }

  lemma CaptureShape(r: Rows, grants: seq<int>)
    requires Consistent(r) && Shape(r, grants) && PlainRows(Apply(r, Capture))
    ensures Shape(Apply(r, Capture), grants)
  {
    if Checkout.Capture(r).Success? {
      CaptureConsistent(r);
      ChainPassedPaid(r.history, r.booking.status);
      TransitionKeepsChain(r, Paid);
    }
  }

  lemma ConfirmShape(r: Rows, order: Order, grants: seq<int>)
    requires Consistent(r) && Shape(r, grants)
    ensures Shape(Apply(r, Confirm(order)), grants)
  {
    if r.booking.status == Paid {
      TransitionKeepsChain(r, BookingStatus.Confirmed);
      EntryAdds(r.ledger, LedgerEntry(SupplierCharge, -(r.booking.baseAmount as int), None));
      assert Apply(r, Confirm(order)).history == Transition(r, BookingStatus.Confirmed).value.history;
    }
  }

  lemma FailShape(r: Rows, grants: seq<int>)
    requires Consistent(r) && Shape(r, grants)
    ensures Shape(Apply(r, FailAndRefund), grants)
  {
    if r.booking.status == Paid {
      TransitionKeepsChain(r, OrderFailed);
      var failed := Transition(r, OrderFailed).value;
      assert Committed(failed) == 0;
    }
  }

  function CancelRow(r: Rows, user: string, s: int): seq<Refund> {
    var owed := s + r.booking.markupAmount;
    if owed == 0 then [] else [Refund(owed, RefundPending, Some(user), Some(s), None)]
  }

  function CancelledRows(r: Rows, user: string, s: int): Rows {
    r.(booking := r.booking.(status := BookingStatus.Cancelled),
       history := r.history + [HistoryRow(BookingStatus.Confirmed, BookingStatus.Cancelled)],
       refunds := CancelRow(r, user, s),
       ledger := if s > 0 then r.ledger + [SupplierEntry(r, s)] else r.ledger)
  }

  function SupplierEntry(r: Rows, s: int): LedgerEntry {
    LedgerEntry(SupplierRefund, s, if s + r.booking.markupAmount > 0 then Some(0) else None)
  }

  lemma GrantedCommit(r: Rows, user: string, s: int)
    requires r.payment == Some(Payment(PaymentSucceeded, r.booking.Total()))
    requires r.refunds == [] && 0 <= s <= r.booking.baseAmount && r.booking.status == BookingStatus.Confirmed
    ensures Cancellation.Commit(r, s, user, s + r.booking.markupAmount > 0) == Success(CancelledRows(r, user, s))
  {
    var cancelled := Transition(r, BookingStatus.Cancelled).value;
    assert Committed(cancelled) == 0;
    var owed := s + r.booking.markupAmount;
    if owed > 0 {
      assert cancelled.refunds + CancelRow(r, user, s) == CancelRow(r, user, s);
      assert Cancellation.WithRefund(cancelled, s, user, true) == Success(cancelled.(refunds := CancelRow(r, user, s)));
    }
  }

  lemma ShapeOfCancelled(r: Rows, user: string, s: int)
    requires Consistent(r) && Shape(r, [s]) && r.booking.status == BookingStatus.Confirmed
    ensures Shape(CancelledRows(r, user, s), [s])
  {
    ChainPassedPaid(r.history, BookingStatus.Confirmed);
    TransitionVisits(r, BookingStatus.Cancelled, BookingStatus.Cancelled);
    EntryAdds(r.ledger, SupplierEntry(r, s));
    assert s in [s];
  }

  /** The heart of the matter: the one granted cancellation is never rejected. */
  lemma CancelShape(r: Rows, user: string, grants: seq<int>)
    requires Consistent(r) && Shape(r, grants)
    requires |grants| == 1 && r.booking.status == BookingStatus.Confirmed
    ensures Cancellation.Commit(r, grants[0], user, Owed(r, grants) > 0) == Success(CancelledRows(r, user, grants[0]))
    ensures Shape(CancelledRows(r, user, grants[0]), grants)
  {
    assert grants == [grants[0]] && grants[0] in grants;
    GrantedCommit(r, user, grants[0]);
    ShapeOfCancelled(r, user, grants[0]);
  }

  lemma AtMostOneRefund(r: Rows, grants: seq<int>)
    requires Consistent(r) && Shape(r, grants)
    ensures |r.refunds| <= 1
    ensures r.refunds != [] ==> r.booking.status in {OrderFailed, BookingStatus.Cancelled, Refunded}
  {
    ChainPassedPaid(r.history, r.booking.status);
  }

  lemma RollUpOne(r: Rows, row: nat, id: string, grants: seq<int>)
    requires Consistent(r) && Shape(r, grants) && RefundExecution.MayExecute(r, row)
    ensures var rolled := RefundExecution.RollUp(r, row, id);
            && rolled.refunds == [r.refunds[0].(status := RefundSucceeded, providerRefundId := Some(id))]
            && Succeeded(rolled) == r.refunds[0].amount
            && SumBy(rolled.ledger, SupplierRefundAmount) == SumBy(r.ledger, SupplierRefundAmount)
            && rolled.booking == r.booking && rolled.history == r.history
            && rolled.payment.value.amount == r.booking.Total()
  {
    AtMostOneRefund(r, grants);
    EntryAdds(r.ledger, LedgerEntry(GatewayRefund, -r.refunds[0].amount, Some(0)));
    SumOne(r.refunds[0].(status := RefundSucceeded, providerRefundId := Some(id)), SucceededAmount);
  }

  lemma RecordShape(r: Rows, row: nat, id: string, grants: seq<int>)
    requires Consistent(r) && Shape(r, grants)
    ensures Shape(Apply(r, Record(row, id)), grants)
  {
    if RefundExecution.MayRecord(r, row, id) {
      var rolled := RefundExecution.RollUp(r, row, id);
      AtMostOneRefund(r, grants);
      RollUpOne(r, row, id, grants);
      assert grants != [] ==> grants[0] in grants;
      ChainPassedPaid(r.history, r.booking.status);
      TransitionKeepsChain(rolled, Refunded);
    }
  }

  lemma StatusShape(r: Rows, tx: Transaction, grants: seq<int>)
    requires Shape(r, grants) && (tx.MarkFailed? || tx.Retry?)
    ensures Shape(Apply(r, tx), grants)
  {
  }

  lemma NoManualRefund(r: Rows, user: string, amount: int)
    requires PlainRows(Apply(r, Transaction.ManualRefund(user, amount)))
    ensures Apply(r, Transaction.ManualRefund(user, amount)) == r
  {
    if RefundExecution.CreatePending(r, amount, Some(user), None).Success? {
      var x := Refund(amount, RefundPending, Some(user), None, None);
      RowAdds(r.refunds, x);
      SumNonNegative(r.refunds, ManualRow);
    }
  }

  lemma AdjustmentIsLogged(r: Rows, amount: int)
    ensures SumBy(Apply(r, Transaction.Adjust(amount)).ledger, AdjustmentEntry) > 0
  {
    EntryAdds(r.ledger, LedgerEntry(Adjustment, amount, None));
    SumNonNegative(r.ledger, AdjustmentEntry);
  }

  /** A cancelling transaction comes from a process whose flight the invariant describes. */
  predicate Granted(r: Rows, tx: Transaction, grants: seq<int>) {
    (tx.CustomerCancel? || tx.AdminCancel?) ==>
      && grants == [tx.supplierRefund]
      && r.booking.status == BookingStatus.Confirmed
      && (tx.AdminCancel? ==> tx.canRefund == (Owed(r, grants) > 0))
  }

  lemma ApplyShape(r: Rows, tx: Transaction, grants: seq<int>)
    requires Consistent(r) && Shape(r, grants) && PlainRows(Apply(r, tx)) && Granted(r, tx, grants)
    ensures Shape(Apply(r, tx), grants)
    ensures tx.CustomerCancel? || tx.AdminCancel? ==> Apply(r, tx).booking.status == BookingStatus.Cancelled
  {
    match tx
    case NoTransaction =>
    case SavePassengers(_, _) => EarlyShape(r, tx, grants);
    case StartPayment(_, _) => EarlyShape(r, tx, grants);
    case Expire => EarlyShape(r, tx, grants);
    case Capture => CaptureShape(r, grants);
    case Confirm(order) => ConfirmShape(r, order, grants);
    case FailAndRefund => FailShape(r, grants);
    case CustomerCancel(_, user) => CancelShape(r, user, grants);
    case AdminCancel(_, user, _) => CancelShape(r, user, grants);
    case ManualRefund(user, amount) => NoManualRefund(r, user, amount);
    case Record(row, id) => RecordShape(r, row, id, grants);
    case MarkFailed(_) => StatusShape(r, tx, grants);
    case Retry(_) => StatusShape(r, tx, grants);
    case Adjust(amount) => AdjustmentIsLogged(r, amount);
  }

  // Whole runs.

  lemma FlightsMove(l: Life, step: Step, k: nat)
    requires k < |Next(l, step).flights|
    ensures Mover(step) != Some(k) && k < |l.flights| ==> Next(l, step).flights[k] == l.flights[k]
    ensures k >= |l.flights| ==> Launched(l, step) == Some(Next(l, step).flights[k])
    ensures Open(Next(l, step).flights[k]) ==>
              k < |l.flights| && (Open(l.flights[k]) ||
                (l.flights[k].AwaitingCancellation? && step.SupplierCancels? && Mover(step) == Some(k)))
  {
  }

  lemma StepIsGranted(l: Life, step: Step)
    requires CancelsFit(l)
    ensures Granted(l.rows, TransactionOf(l, step), l.supplierRefunds)
  {
    if step.CommitCancel? && step.flight < |l.flights| {
      assert FlightAt(l, step.flight) == l.flights[step.flight];
    }
  }

  /** A process that was allowed to ask for a cancellation finds the booking confirmed until one is granted. */
  lemma StillConfirmed(r: Rows, grants: seq<int>)
    requires Consistent(r) && Shape(r, grants) && grants == [] && Visits(r, BookingStatus.Confirmed) == 1
    ensures r.booking.status == BookingStatus.Confirmed
  {
    ChainPassedPaid(r.history, r.booking.status);
  }

  lemma OnlyCancellingLeavesConfirmed(r: Rows, tx: Transaction)
    requires r.booking.status == BookingStatus.Confirmed && !tx.CustomerCancel? && !tx.AdminCancel?
    ensures Apply(r, tx).booking.status == BookingStatus.Confirmed
  {
  }

  lemma GrantShape(r: Rows, s: int)
    requires Consistent(r) && Shape(r, []) && 0 <= s <= r.booking.baseAmount
    ensures Shape(r, [s])
  {
    ChainPassedPaid(r.history, r.booking.status);
  }

  lemma NextShape(l: Life, step: Step)
    requires Sound(l) && Conserving(l) && Plain(Next(l, step))
    ensures Shape(Next(l, step).rows, Next(l, step).supplierRefunds)
  {
    var tx, grants := TransactionOf(l, step), SupplierRefunds(l, step);
    if grants == l.supplierRefunds {
      StepIsGranted(l, step);
      ApplyShape(l.rows, tx, grants);
    } else {
      assert tx == NoTransaction && l.supplierRefunds == [] && grants == [step.supplierRefund];
      assert step.supplierRefund in Next(l, step).supplierRefunds;
      GrantShape(l.rows, step.supplierRefund);
    }
  }

  /** A flight the supplier had already granted before this step. */
  lemma GrantStays(l: Life, step: Step, s: int)
    requires l.supplierRefunds == [s] && Plain(Next(l, step))
    ensures SupplierRefunds(l, step) == [s]
  {
    assert |SupplierRefunds(l, step)| <= 1;
  }

  lemma CommittingFlight(l: Life, step: Step) returns (j: nat)
    requires TransactionOf(l, step).CustomerCancel? || TransactionOf(l, step).AdminCancel?
    ensures j < |l.flights| && Open(l.flights[j]) && Flights(l, step) == l.flights[j := Done]
  {
    j := step.flight;
  }

  /** While the process it was granted to is still at work, no other transaction takes the booking out of confirmed. */
  lemma ConfirmedUntilCommit(l: Life, step: Step, k: nat)
    requires CancelsFit(l) && k < |l.flights| && Open(l.flights[k]) && Open(Flights(l, step)[k])
    ensures Next(l, step).rows.booking.status == BookingStatus.Confirmed
  {
    var tx := TransactionOf(l, step);
    assert FlightFits(l, l.flights[k]);
    if !tx.CustomerCancel? && !tx.AdminCancel? {
      OnlyCancellingLeavesConfirmed(l.rows, tx);
    } else {
      var j := CommittingFlight(l, step);
      assert false;
    }
  }

  lemma GrantedFlightStays(l: Life, step: Step, k: nat)
    requires Sound(l) && Conserving(l) && Plain(Next(l, step))
    requires k < |l.flights| && Open(l.flights[k]) && Open(Flights(l, step)[k])
    ensures SupplierRefunds(l, step) == [Flights(l, step)[k].supplierRefund]
    ensures Next(l, step).rows.booking.status == BookingStatus.Confirmed
    ensures Flights(l, step)[k].ReadyToCancel? ==>
          Flights(l, step)[k].canRefund == (Owed(l.rows, l.supplierRefunds) > 0)
  {
    assert FlightFits(l, l.flights[k]);
    GrantStays(l, step, l.flights[k].supplierRefund);
    ConfirmedUntilCommit(l, step, k);
  }

  lemma NewGrant(l: Life, step: Step, k: nat)
    requires Sound(l) && Conserving(l) && Plain(Next(l, step))
    requires k < |l.flights| && l.flights[k].AwaitingCancellation? && step.SupplierCancels? && step.flight == k
    ensures l.supplierRefunds == [] && SupplierRefunds(l, step) == [Flights(l, step)[k].supplierRefund]
    ensures Flights(l, step)[k].SupplierCancelled?
    ensures Next(l, step).rows == l.rows && l.rows.booking.status == BookingStatus.Confirmed
  {
    assert |SupplierRefunds(l, step)| <= 1;
    StillConfirmed(l.rows, l.supplierRefunds);
  }

  lemma OpenFlightFits(l: Life, step: Step, k: nat)
    requires Sound(l) && Conserving(l) && Plain(Next(l, step)) && k < |Flights(l, step)| && Open(Flights(l, step)[k])
    ensures FlightFits(Next(l, step), Flights(l, step)[k])
  {
    FlightsMove(l, step, k);
    if Open(l.flights[k]) {
      GrantedFlightStays(l, step, k);
      ApplyConsistent(l.rows, TransactionOf(l, step));
    } else {
      NewGrant(l, step, k);
    }
  }

  lemma ConfirmedStaysVisited(r: Rows, tx: Transaction)
    requires Consistent(r) && (Visits(r, BookingStatus.Confirmed) == 1 || r.booking.status == BookingStatus.Confirmed)
    ensures Visits(Apply(r, tx), BookingStatus.Confirmed) == 1
  {
    ApplyExtends(r, tx);
    ChainPassedPaid(r.history, r.booking.status);
  }

  lemma AskingFlightFits(l: Life, step: Step, k: nat)
    requires Sound(l) && CancelsFit(l) && k < |Flights(l, step)| && Flights(l, step)[k].AwaitingCancellation?
    ensures FlightFits(Next(l, step), Flights(l, step)[k])
  {
    FlightsMove(l, step, k);
    if k < |l.flights| {
      assert l.flights[k] == Flights(l, step)[k] && FlightFits(l, l.flights[k]);
    }
    ConfirmedStaysVisited(l.rows, TransactionOf(l, step));
  }

  lemma NextFlightFits(l: Life, step: Step, k: nat)
    requires Sound(l) && Conserving(l) && Plain(Next(l, step)) && k < |Flights(l, step)|
    ensures FlightFits(Next(l, step), Flights(l, step)[k])
  {
    if Open(Flights(l, step)[k]) {
      OpenFlightFits(l, step, k);
    } else if Flights(l, step)[k].AwaitingCancellation? {
      AskingFlightFits(l, step, k);
    }
  }

  lemma NextCancelsFit(l: Life, step: Step)
    requires Sound(l) && Conserving(l) && Plain(Next(l, step))
    ensures CancelsFit(Next(l, step))
  {
    var l' := Next(l, step);
    forall k | 0 <= k < |l'.flights| ensures FlightFits(l', l'.flights[k]) {
      NextFlightFits(l, step, k);
    }
    forall j, k | 0 <= j < k < |l'.flights| ensures !(Open(l'.flights[j]) && Open(l'.flights[k])) {
      FlightsMove(l, step, j);
      FlightsMove(l, step, k);
      if Open(l'.flights[j]) && Open(l'.flights[k]) {
        var granted := if Open(l.flights[j]) then k else j;
        if !Open(l.flights[granted]) {
          NewGrant(l, step, granted);
        }
      }
    }
  }

  lemma NextConserving(l: Life, step: Step)
    requires Sound(l) && Conserving(l) && Plain(Next(l, step))
    ensures Conserving(Next(l, step))
  {
    NextShape(l, step);
    NextCancelsFit(l, step);
  }

  lemma {:induction false} RunConserving(l: Life, steps: seq<Step>)
    requires Sound(l) && Conserving(l) && Plain(Run(l, steps))
    ensures Conserving(Run(l, steps))
  {
    if steps != [] {
      var earlier, last := steps[..|steps| - 1], steps[|steps| - 1];
      RunSound(l, earlier);
      PlainBackwards(Run(l, earlier), last);
      RunConserving(l, earlier);
      NextConserving(Run(l, earlier), last);
    }
  }

  /** What the ledger of a booking adds up to in each status. */
  function Expected(r: Rows, supplierRefund: int): int {
    match r.booking.status
    case Pending => 0
    case AwaitingPayment => 0
    case Failed => 0
    case Paid => r.booking.Total()
    case OrderFailed => r.booking.Total()
    case Confirmed => r.booking.markupAmount
    case Cancelled => if IsSucceeded(r, 0) then 0 else supplierRefund + r.booking.markupAmount
    case Refunded => 0
  }

  /**
   * The books of a booking balance in every plain run: they hold the total while paid or failed and unrefunded,
   * the markup while confirmed, markup and supplier refund while cancelled and unrefunded, nothing once refunded.
   */
  lemma MoneyIsConserved(baseAmount: nat, markupAmount: nat, currency: string, steps: seq<Step>)
    requires Plain(Run(Start(baseAmount, markupAmount, currency), steps))
    ensures var l := Run(Start(baseAmount, markupAmount, currency), steps);
            && l.rows.booking.Total() == baseAmount + markupAmount
            && (l.rows.booking.status == BookingStatus.Cancelled ==> |l.supplierRefunds| == 1)
            && Balance(l.rows) == Expected(l.rows, if l.supplierRefunds == [] then 0 else l.supplierRefunds[0])
  {
    var l := Run(Start(baseAmount, markupAmount, currency), steps);
    PlainRunInvariant(baseAmount, markupAmount, currency, steps);
    BalanceOfShape(l.rows, l.supplierRefunds);
  }

  lemma PlainRunInvariant(baseAmount: nat, markupAmount: nat, currency: string, steps: seq<Step>)
    requires Plain(Run(Start(baseAmount, markupAmount, currency), steps))
    ensures var l := Run(Start(baseAmount, markupAmount, currency), steps);
            && Sound(l) && Conserving(l)
            && l.rows.booking.baseAmount == baseAmount && l.rows.booking.markupAmount == markupAmount
  {
    var start := Start(baseAmount, markupAmount, currency);
    EveryRunIsSound(baseAmount, markupAmount, currency, steps);
    NewRowsConsistent(baseAmount, markupAmount, currency);
    SumOne(HistoryRow(Pending, Pending), RowTo(BookingStatus.Cancelled));
    RunExtends(start, steps);
    RunConserving(start, steps);
  }

  function PaidOut(r: Rows): int {
    if IsSucceeded(r, 0) then r.refunds[0].amount else 0
  }

  lemma PaidOutIsSucceeded(r: Rows, grants: seq<int>)
    requires Consistent(r) && Shape(r, grants)
    ensures Succeeded(r) == PaidOut(r)
  {
    AtMostOneRefund(r, grants);
    if r.refunds != [] {
      assert r.refunds == [r.refunds[0]];
      SumOne(r.refunds[0], SucceededAmount);
    }
  }

  /** With one captured payment, the entry counts are the visits the history shows. */
  lemma CountsAreVisits(r: Rows)
    requires Consistent(r) && PlainRows(r)
    ensures Payments(r) == Visits(r, Paid) && (Payments(r) == 0 || Payments(r) == 1)
    ensures Charges(r) == Visits(r, BookingStatus.Confirmed) && (Charges(r) == 0 || Charges(r) == 1)
  {
    ChainPassedPaid(r.history, r.booking.status);
    ChainVisitsOnce(r.history, r.booking.status, BookingStatus.Confirmed);
  }

  lemma PlainBalance(r: Rows)
    requires Consistent(r) && PlainRows(r)
    ensures Balance(r) ==
            (if Payments(r) == 1 then r.booking.Total() else 0) - (if Charges(r) == 1 then r.booking.baseAmount else 0)
            + SumBy(r.ledger, SupplierRefundAmount) - Succeeded(r)
  {
    BalanceLaw(r);
    NoAdjustedMoney(r.ledger);
    CountsAreVisits(r);
    OnceOrNever(r.booking.Total(), Payments(r));
    OnceOrNever(r.booking.baseAmount, Charges(r));
  }

  lemma OnceOrNever(x: int, n: int)
    requires 0 <= n <= 1
    ensures x * n == if n == 1 then x else 0
  {
  }

  lemma BalanceOfShape(r: Rows, grants: seq<int>)
    requires Consistent(r) && Shape(r, grants) && PlainRows(r)
    ensures Balance(r) == Expected(r, if grants == [] then 0 else grants[0])
    ensures r.booking.status == BookingStatus.Cancelled ==> |grants| == 1
  {
    PlainBalance(r);
    CountsAreVisits(r);
    PaidOutIsSucceeded(r, grants);
    ChainPassedPaid(r.history, r.booking.status);
    ChainVisitsOnce(r.history, r.booking.status, BookingStatus.Cancelled);
    ChainVisitsOnce(r.history, r.booking.status, BookingStatus.Confirmed);
  }

  lemma {:induction false} NoAdjustedMoney(ledger: seq<LedgerEntry>)
    requires SumBy(ledger, AdjustmentEntry) == 0
    ensures SumBy(ledger, AdjustmentAmount) == 0
  {
    if ledger != [] {
      SumNonNegative(ledger[..|ledger| - 1], AdjustmentEntry);
      NoAdjustedMoney(ledger[..|ledger| - 1]);
    }
  }

  /** In a plain run neither path can lose the cancellation the supplier has granted. */
  lemma GrantedCancellationCommits(baseAmount: nat, markupAmount: nat, currency: string, steps: seq<Step>, k: nat)
    requires Plain(Run(Start(baseAmount, markupAmount, currency), steps))
    requires var tx := TransactionOf(Run(Start(baseAmount, markupAmount, currency), steps), CommitCancel(k));
             tx.CustomerCancel? || tx.AdminCancel?
    ensures var l := Run(Start(baseAmount, markupAmount, currency), steps);
            var r := Apply(l.rows, TransactionOf(l, CommitCancel(k)));
            && l.rows.booking.status == BookingStatus.Confirmed
            && r.booking.status == BookingStatus.Cancelled
            && |l.supplierRefunds| == 1
            && (if Owed(l.rows, l.supplierRefunds) == 0 then r.refunds == []
                else OneRefund(r, l.supplierRefunds[0] + markupAmount) && r.refunds[0].status == RefundPending)
  {
    var l := Run(Start(baseAmount, markupAmount, currency), steps);
    PlainRunInvariant(baseAmount, markupAmount, currency, steps);
    StepIsGranted(l, CommitCancel(k));
    CancelPends(l.rows, TransactionOf(l, CommitCancel(k)), l.supplierRefunds);
  }

  lemma CancelPends(r: Rows, tx: Transaction, grants: seq<int>)
    requires Consistent(r) && Shape(r, grants) && Granted(r, tx, grants) && (tx.CustomerCancel? || tx.AdminCancel?)
    ensures var r' := Apply(r, tx);
            && r'.booking.status == BookingStatus.Cancelled
            && r'.refunds == if Owed(r, grants) == 0 then []
                             else [Refund(Owed(r, grants), RefundPending, Some(tx.user), Some(grants[0]), None)]
  {
    CancelShape(r, tx.user, grants);
  }

  /**
   * Once a cancelled booking's refund is recorded, it ends refunded exactly when the supplier returned the
   * whole fare.
   */
  lemma FullFareEndsRefunded(baseAmount: nat, markupAmount: nat, currency: string, steps: seq<Step>)
    requires Plain(Run(Start(baseAmount, markupAmount, currency), steps))
    requires var r := Run(Start(baseAmount, markupAmount, currency), steps).rows;
             Visits(r, BookingStatus.Cancelled) == 1 && IsSucceeded(r, 0)
    ensures var l := Run(Start(baseAmount, markupAmount, currency), steps);
            |l.supplierRefunds| == 1 && (l.rows.booking.status == Refunded <==> l.supplierRefunds[0] == baseAmount)
  {
    var l := Run(Start(baseAmount, markupAmount, currency), steps);
    PlainRunInvariant(baseAmount, markupAmount, currency, steps);
    ChainPassedPaid(l.rows.history, l.rows.booking.status);
  }
}

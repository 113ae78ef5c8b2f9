/** What every transaction keeps true of one booking's rows, whatever the interleaving. */
module Consistency {
  import opened Support
  import opened Records
  import opened BookingStateMachine
  import opened RefundExecution
  import opened Cancellation
  import opened Transactions
  import Checkout
  import FulfillmentOutcome

  predicate IsSucceeded(r: Rows, row: nat) {
    row < |r.refunds| && r.refunds[row].status == RefundSucceeded
  }

  ghost predicate EntryFits(r: Rows, e: LedgerEntry) {
    match e.kind
    case CustomerPayment => e.amount == r.booking.Total()
    case SupplierCharge => e.amount == -(r.booking.baseAmount as int)
    case SupplierRefund => e.amount > 0
    case GatewayRefund =>
      e.refund.Some? && IsSucceeded(r, e.refund.value) && e.amount == -r.refunds[e.refund.value].amount
    case Adjustment => true
  }

  /** The history is a chain, and the ledger counts the moves along it. */
  ghost predicate HistoryFits(r: Rows) {
    && Chain(r.history, r.booking.status)
    && 0 <= Payments(r)
    && (Payments(r) >= 1 <==> Visits(r, Paid) == 1)
    && Charges(r) == Visits(r, Confirmed)
    && SumBy(r.refunds, AutomaticRow) <= Visits(r, OrderFailed)
    && (Visits(r, BookingStatus.Cancelled) == 0 ==> SumBy(r.ledger, SupplierRefundAmount) == 0)
  }

  ghost predicate PaymentFits(r: Rows) {
    match r.payment
    case None => r.refunds == [] && Payments(r) == 0
    case Some(p) =>
      && p.amount == r.booking.Total()
      && p.status != PaymentFailed
      && (p.status == PaymentPending <==> Payments(r) == 0)
      && (Payments(r) == 0 ==> r.refunds == [])
      && (p.status == PaymentRefunded ==> Succeeded(r) >= p.amount)
  }

  /** One gateway entry per succeeded refund and none for any other. */
  ghost predicate LedgerFits(r: Rows) {
    && (forall e :: e in r.ledger ==> EntryFits(r, e))
    && (forall row: nat {:trigger IsSucceeded(r, row)} ::
          SumBy(r.ledger, RefundRecorded(row)) == if IsSucceeded(r, row) then 1 else 0)
    && SumBy(r.ledger, GatewayRefundAmount) == -Succeeded(r)
  }

  ghost predicate Consistent(r: Rows) {
    && HistoryFits(r)
    && PaymentFits(r)
    && LedgerFits(r)
    && (forall i :: 0 <= i < |r.refunds| ==> r.refunds[i].amount > 0)
    && (r.booking.status == Refunded ==> r.payment.Some? && Succeeded(r) >= r.payment.value.amount)
    && (Visits(r, Confirmed) == 0 ==> r.documents == [])
    && (Visits(r, Confirmed) == 0 <==> r.booking.supplierOrderId.None?)
  }

  /** The columns no transaction writes. */
  ghost predicate SameTerms(r: Rows, r': Rows) {
    && r'.booking.baseAmount == r.booking.baseAmount
    && r'.booking.markupAmount == r.booking.markupAmount
    && r'.booking.currency == r.booking.currency
  }

  lemma NewRowsConsistent(baseAmount: nat, markupAmount: nat, currency: string)
    ensures Consistent(NewRows(baseAmount, markupAmount, currency))
  {
  }

  // One appended ledger entry, one appended or changed refund row.

  lemma EntryAdds(ledger: seq<LedgerEntry>, e: LedgerEntry)
    ensures var l := ledger + [e];
            && SumBy(l, AnyEntry) == SumBy(ledger, AnyEntry) + e.amount
            && SumBy(l, PaymentEntry) == SumBy(ledger, PaymentEntry) + PaymentEntry(e)
            && SumBy(l, ChargeEntry) == SumBy(ledger, ChargeEntry) + ChargeEntry(e)
            && SumBy(l, AdjustmentEntry) == SumBy(ledger, AdjustmentEntry) + AdjustmentEntry(e)
            && SumBy(l, SupplierRefundAmount) == SumBy(ledger, SupplierRefundAmount) + SupplierRefundAmount(e)
            && SumBy(l, GatewayRefundAmount) == SumBy(ledger, GatewayRefundAmount) + GatewayRefundAmount(e)
            && SumBy(l, AdjustmentAmount) == SumBy(ledger, AdjustmentAmount) + AdjustmentAmount(e)
    ensures forall row ::
              SumBy(ledger + [e], RefundRecorded(row)) == SumBy(ledger, RefundRecorded(row)) + RefundRecorded(row)(e)
  {
    SumAppend(ledger, e, AnyEntry);
    SumAppend(ledger, e, PaymentEntry);
    SumAppend(ledger, e, ChargeEntry);
    SumAppend(ledger, e, AdjustmentEntry);
    SumAppend(ledger, e, SupplierRefundAmount);
    SumAppend(ledger, e, GatewayRefundAmount);
    SumAppend(ledger, e, AdjustmentAmount);
    forall row
      ensures SumBy(ledger + [e], RefundRecorded(row)) == SumBy(ledger, RefundRecorded(row)) + RefundRecorded(row)(e)
    {
      SumAppend(ledger, e, RefundRecorded(row));
    }
  }

  lemma RowAdds(refunds: seq<Refund>, x: Refund)
    ensures var t := refunds + [x];
            && SumBy(t, SucceededAmount) == SumBy(refunds, SucceededAmount) + SucceededAmount(x)
            && SumBy(t, CommittedAmount) == SumBy(refunds, CommittedAmount) + CommittedAmount(x)
            && SumBy(t, AutomaticRow) == SumBy(refunds, AutomaticRow) + AutomaticRow(x)
            && SumBy(t, ManualRow) == SumBy(refunds, ManualRow) + ManualRow(x)
  {
    SumAppend(refunds, x, SucceededAmount);
    SumAppend(refunds, x, CommittedAmount);
    SumAppend(refunds, x, AutomaticRow);
    SumAppend(refunds, x, ManualRow);
  }

  lemma RowChanges(refunds: seq<Refund>, i: nat, x: Refund)
    requires i < |refunds|
    requires x.initiatedBy == refunds[i].initiatedBy && x.supplierRefund == refunds[i].supplierRefund
    ensures var t := refunds[i := x];
            && SumBy(t, SucceededAmount) ==
                 SumBy(refunds, SucceededAmount) - SucceededAmount(refunds[i]) + SucceededAmount(x)
            && SumBy(t, CommittedAmount) ==
                 SumBy(refunds, CommittedAmount) - CommittedAmount(refunds[i]) + CommittedAmount(x)
            && SumBy(t, AutomaticRow) == SumBy(refunds, AutomaticRow)
            && SumBy(t, ManualRow) == SumBy(refunds, ManualRow)
  {
    SumUpdate(refunds, i, x, SucceededAmount);
    SumUpdate(refunds, i, x, CommittedAmount);
    SumUpdate(refunds, i, x, AutomaticRow);
    SumUpdate(refunds, i, x, ManualRow);
  }

  /** Refund rows that agree on what succeeded, and the same terms, leave every entry as fitting as it was. */
  ghost predicate SameSucceeded(r: Rows, r': Rows) {
    && SameTerms(r, r')
    && (forall row: nat :: IsSucceeded(r', row) == IsSucceeded(r, row))
    && (forall row: nat :: IsSucceeded(r, row) ==> r'.refunds[row] == r.refunds[row])
    && Succeeded(r') == Succeeded(r)
  }

  lemma SameLedgerFits(r: Rows, r': Rows)
    requires LedgerFits(r) && SameSucceeded(r, r') && r'.ledger == r.ledger
    ensures LedgerFits(r')
  {
    forall e | e in r'.ledger ensures EntryFits(r', e) {
      assert EntryFits(r, e);
    }
  }

  lemma LongerLedgerFits(r: Rows, r': Rows, e: LedgerEntry)
    requires LedgerFits(r) && SameSucceeded(r, r') && r'.ledger == r.ledger + [e]
    requires EntryFits(r', e) && !e.kind.GatewayRefund?
    ensures LedgerFits(r')
  {
    EntryAdds(r.ledger, e);
    forall x | x in r'.ledger ensures EntryFits(r', x) {
      assert x in r.ledger ==> EntryFits(r, x);
    }
  }

  // Each transaction in turn.

  /** A move between statuses that carry no ledger entry of their own. */
  lemma MoveConsistent(r: Rows, to: BookingStatus)
    requires Consistent(r) && Transition(r, to).Success?
    requires to in {AwaitingPayment, Failed, OrderFailed, Cancelled} ||
             (to == Refunded && r.payment.Some? && Succeeded(r) >= r.payment.value.amount)
    ensures var r' := Transition(r, to).value;
            Consistent(r') && SameTerms(r, r') && r' == r.(booking := r'.booking, history := r'.history)
  {
    TransitionKeepsChain(r, to);
    SameLedgerFits(r, Transition(r, to).value);
  }

  lemma PassengersConsistent(r: Rows, offerExpired: bool, inputsValid: bool)
    requires Consistent(r)
    ensures var saved := Checkout.SavePassengers(r, offerExpired, inputsValid);
            saved.Success? ==> Consistent(saved.value) && SameTerms(r, saved.value)
  {
    if Checkout.SavePassengers(r, offerExpired, inputsValid).Success? {
      MoveConsistent(r, AwaitingPayment);
    }
  }

  lemma StartPaymentConsistent(r: Rows, offerExpired: bool, gatewayOk: bool)
    requires Consistent(r)
    ensures var r' := Checkout.StartPayment(r, offerExpired, gatewayOk); Consistent(r') && SameTerms(r, r')
  {
    if r.booking.status == AwaitingPayment {
      if offerExpired {
        MoveConsistent(r, Failed);
      } else if gatewayOk {
        SameLedgerFits(r, Checkout.WithPayment(r));
      }
    }
  }

  lemma ExpireConsistent(r: Rows)
    requires Consistent(r)
    ensures Consistent(Checkout.Expire(r)) && SameTerms(r, Checkout.Expire(r))
  {
    if Transition(r, Failed).Success? {
      MoveConsistent(r, Failed);
    }
  }

  lemma CaptureHistoryFits(r: Rows)
    requires Consistent(r) && Checkout.Capture(r).Success?
    ensures HistoryFits(Checkout.Capture(r).value)
    ensures forall s :: s != Paid ==> Visits(Checkout.Capture(r).value, s) == Visits(r, s)
  {
    TransitionKeepsChain(r, Paid);
    EntryAdds(r.ledger, LedgerEntry(CustomerPayment, r.payment.value.amount, None));
    ChainVisitsOnce(Transition(r, Paid).value.history, Paid, Paid);
  }

  lemma CaptureConsistent(r: Rows)
    requires Consistent(r) && Checkout.Capture(r).Success?
    ensures Consistent(Checkout.Capture(r).value) && SameTerms(r, Checkout.Capture(r).value)
    ensures Payments(Checkout.Capture(r).value) == Payments(r) + 1
  {
    var r' := Checkout.Capture(r).value;
    var e := LedgerEntry(CustomerPayment, r.payment.value.amount, None);
    LongerLedgerFits(r, r', e);
    CaptureHistoryFits(r);
    EntryAdds(r.ledger, e);
  }

  lemma ConfirmHistoryFits(r: Rows, order: Order)
    requires Consistent(r) && r.booking.status == Paid
    ensures HistoryFits(FulfillmentOutcome.Confirm(r, order))
    ensures Visits(FulfillmentOutcome.Confirm(r, order), Confirmed) == 1
    ensures Payments(FulfillmentOutcome.Confirm(r, order)) == Payments(r)
  {
    TransitionKeepsChain(r, Confirmed);
    EntryAdds(r.ledger, LedgerEntry(SupplierCharge, -(r.booking.baseAmount as int), None));
    ChainVisitsOnce(r.history, Paid, Confirmed);
    assert FulfillmentOutcome.Confirm(r, order).history == Transition(r, Confirmed).value.history;
  }

  lemma ConfirmConsistent(r: Rows, order: Order)
    requires Consistent(r)
    ensures Consistent(FulfillmentOutcome.Confirm(r, order)) && SameTerms(r, FulfillmentOutcome.Confirm(r, order))
  {
    if r.booking.status == Paid {
      ConfirmHistoryFits(r, order);
      LongerLedgerFits(r, FulfillmentOutcome.Confirm(r, order),
                       LedgerEntry(SupplierCharge, -(r.booking.baseAmount as int), None));
    }
  }

  /** A new refund row that has not succeeded. */
  lemma NewRowConsistent(r: Rows, x: Refund)
    requires Consistent(r) && r.payment.Some? && Payments(r) > 0
    requires x.amount > 0 && x.status == RefundPending
    requires x.initiatedBy.None? ==> SumBy(r.refunds, AutomaticRow) + 1 <= Visits(r, OrderFailed)
    ensures Consistent(r.(refunds := r.refunds + [x]))
  {
    RowAdds(r.refunds, x);
    SameLedgerFits(r, r.(refunds := r.refunds + [x]));
  }

  lemma CreatePendingConsistent(r: Rows, amount: int, initiatedBy: Option<string>, supplierRefund: Option<int>)
    requires Consistent(r) && CreatePending(r, amount, initiatedBy, supplierRefund).Success?
    requires initiatedBy.None? ==> SumBy(r.refunds, AutomaticRow) + 1 <= Visits(r, OrderFailed)
    ensures var r' := CreatePending(r, amount, initiatedBy, supplierRefund).value; Consistent(r') && SameTerms(r, r')
  {
    NewRowConsistent(r, Refund(amount, RefundPending, initiatedBy, supplierRefund, None));
  }

  lemma FailAndRefundConsistent(r: Rows)
    requires Consistent(r)
    ensures Consistent(FulfillmentOutcome.FailAndRefund(r)) && SameTerms(r, FulfillmentOutcome.FailAndRefund(r))
  {
    if r.booking.status == Paid {
      MoveConsistent(r, OrderFailed);
      var failed := Transition(r, OrderFailed).value;
      TransitionKeepsChain(r, OrderFailed);
      ChainVisitsOnce(r.history, Paid, OrderFailed);
      if CreatePending(failed, r.booking.Total(), None, None).Success? {
        CreatePendingConsistent(failed, r.booking.Total(), None, None);
      }
    }
  }

  lemma SupplierRefundConsistent(r: Rows, amount: int, refund: Option<nat>)
    requires Consistent(r) && amount > 0 && Visits(r, BookingStatus.Cancelled) == 1
    ensures Consistent(r.(ledger := r.ledger + [LedgerEntry(SupplierRefund, amount, refund)]))
  {
    var r' := r.(ledger := r.ledger + [LedgerEntry(SupplierRefund, amount, refund)]);
    EntryAdds(r.ledger, LedgerEntry(SupplierRefund, amount, refund));
    LongerLedgerFits(r, r', LedgerEntry(SupplierRefund, amount, refund));
  }

  lemma CommitConsistent(r: Rows, s: int, user: string, wanted: bool)
    requires Consistent(r) && Commit(r, s, user, wanted).Success?
    ensures Consistent(Commit(r, s, user, wanted).value) && SameTerms(r, Commit(r, s, user, wanted).value)
  {
    var cancelled := Transition(r, Cancelled).value;
    MoveConsistent(r, Cancelled);
    var refunding := WithRefund(cancelled, s, user, wanted).value;
    if wanted {
      CreatePendingConsistent(cancelled, CustomerReceives(cancelled, s), Some(user), Some(s));
    }
    if s > 0 {
      ChainPassedPaid(refunding.history, BookingStatus.Cancelled);
      SupplierRefundConsistent(refunding, s, if wanted then Some(|r.refunds|) else None);
    }
  }

  lemma RollUpLedgerFits(r: Rows, row: nat, id: string)
    requires LedgerFits(r) && MayExecute(r, row)
    ensures LedgerFits(RollUp(r, row, id))
  {
    var r' := RollUp(r, row, id);
    var paid := r.refunds[row].(status := RefundSucceeded, providerRefundId := Some(id));
    RowChanges(r.refunds, row, paid);
    EntryAdds(r.ledger, LedgerEntry(GatewayRefund, -paid.amount, Some(row)));
    forall i: nat ensures SumBy(r'.ledger, RefundRecorded(i)) == if IsSucceeded(r', i) then 1 else 0 {
      assert IsSucceeded(r', i) == (IsSucceeded(r, i) || i == row);
    }
    forall x | x in r'.ledger ensures EntryFits(r', x) {
      assert x in r.ledger ==> EntryFits(r, x);
    }
  }

  lemma RollUpConsistent(r: Rows, row: nat, id: string)
    requires Consistent(r) && MayExecute(r, row)
    ensures Consistent(RollUp(r, row, id))
  {
    var r' := RollUp(r, row, id);
    var paid := r.refunds[row].(status := RefundSucceeded, providerRefundId := Some(id));
    var e := LedgerEntry(GatewayRefund, -paid.amount, Some(row));
    RowChanges(r.refunds, row, paid);
    EntryAdds(r.ledger, e);
    RollUpLedgerFits(r, row, id);
    assert Succeeded(r') == Succeeded(r) + paid.amount;
  }

  lemma RecordConsistent(r: Rows, row: nat, id: string)
    requires Consistent(r)
    ensures Consistent(RefundExecution.Record(r, row, id)) && SameTerms(r, RefundExecution.Record(r, row, id))
  {
    if MayRecord(r, row, id) {
      RollUpConsistent(r, row, id);
      var rolled := RollUp(r, row, id);
      if Succeeded(rolled) >= rolled.payment.value.amount && r.booking.status in {Cancelled, OrderFailed} {
        MoveConsistent(rolled, Refunded);
      }
    }
  }

  lemma SetRefundStatusConsistent(r: Rows, row: nat, from: RefundStatus, to: RefundStatus)
    requires Consistent(r) && from != RefundSucceeded && to != RefundSucceeded
    ensures Consistent(SetRefundStatus(r, row, from, to)) && SameTerms(r, SetRefundStatus(r, row, from, to))
  {
    if row < |r.refunds| && r.refunds[row].status == from {
      var r' := SetRefundStatus(r, row, from, to);
      RowChanges(r.refunds, row, r.refunds[row].(status := to));
      SameLedgerFits(r, r');
    }
  }

  lemma AdjustConsistent(r: Rows, amount: int)
    requires Consistent(r)
    ensures Consistent(r.(ledger := r.ledger + [LedgerEntry(Adjustment, amount, None)]))
  {
    var r' := r.(ledger := r.ledger + [LedgerEntry(Adjustment, amount, None)]);
    EntryAdds(r.ledger, LedgerEntry(Adjustment, amount, None));
    LongerLedgerFits(r, r', LedgerEntry(Adjustment, amount, None));
  }

  ghost predicate Keeps(r: Rows, r': Rows) {
    Consistent(r') && SameTerms(r, r')
  }

  lemma CancelConsistent(r: Rows, s: int, user: string, wanted: bool)
    requires Consistent(r)
    ensures Keeps(r, Kept(r, Commit(r, s, user, wanted)))
  {
    if Commit(r, s, user, wanted).Success? {
      CommitConsistent(r, s, user, wanted);
    }
  }

  lemma ManualRefundConsistent(r: Rows, user: string, amount: int)
    requires Consistent(r)
    ensures Keeps(r, Kept(r, CreatePending(r, amount, Some(user), None)))
  {
    if CreatePending(r, amount, Some(user), None).Success? {
      CreatePendingConsistent(r, amount, Some(user), None);
    }
  }

  lemma CheckoutConsistent(r: Rows, tx: Transaction)
    requires Consistent(r) && (tx.SavePassengers? || tx.StartPayment? || tx.Expire? || tx.Capture?)
    ensures Keeps(r, Apply(r, tx))
  {
    match tx
    case SavePassengers(offerExpired, inputsValid) => PassengersConsistent(r, offerExpired, inputsValid);
    case StartPayment(offerExpired, gatewayOk) => StartPaymentConsistent(r, offerExpired, gatewayOk);
    case Expire => ExpireConsistent(r);
    case Capture => if Checkout.Capture(r).Success? { CaptureConsistent(r); }
  }

  lemma ApplyConsistent(r: Rows, tx: Transaction)
    requires Consistent(r)
    ensures Consistent(Apply(r, tx)) && SameTerms(r, Apply(r, tx))
  {
    if tx.SavePassengers? || tx.StartPayment? || tx.Expire? || tx.Capture? {
      CheckoutConsistent(r, tx);
    } else {
      match tx
      case CustomerCancel(s, user) => CancelConsistent(r, s, user, CustomerReceives(r, s) > 0);
      case AdminCancel(s, user, canRefund) => CancelConsistent(r, s, user, canRefund);
      case ManualRefund(user, amount) => ManualRefundConsistent(r, user, amount);
      case Record(row, id) => RecordConsistent(r, row, id);
      case MarkFailed(row) => SetRefundStatusConsistent(r, row, RefundPending, RefundFailed);
      case Retry(row) => SetRefundStatusConsistent(r, row, RefundFailed, RefundPending);
      case Confirm(order) => ConfirmConsistent(r, order);
      case FailAndRefund => FailAndRefundConsistent(r);
      case Adjust(amount) => AdjustConsistent(r, amount);
      case _ =>
    }
  }
}

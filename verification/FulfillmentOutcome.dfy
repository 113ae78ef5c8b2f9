/** The two ways a paid booking can leave `paid`, whichever path gets there first. */
module FulfillmentOutcome {
  import opened Support
  import opened Records
  import opened BookingStateMachine
  import opened RefundExecution

  function Confirm(r: Rows, order: Order): Rows {
    if r.booking.status != Paid then
      r
    else
      r.(booking := r.booking.(status := Confirmed,
                               supplierOrderId := Some(order.id),
                               bookingReference := Some(order.reference)),
         history := r.history + [HistoryRow(Paid, Confirmed)],
         ledger := r.ledger + [LedgerEntry(SupplierCharge, -(r.booking.baseAmount as int), None)],
         documents := r.documents + order.documents)
  }

  /** The refund is best effort: a payment that cannot be refunded keeps the failed order without one. */
  function FailAndRefund(r: Rows): Rows {
    if r.booking.status != Paid then
      r
    else
      var failed := Transition(r, OrderFailed).value;
      match CreatePending(failed, r.booking.Total(), None, None)
      case Success(refunding) => refunding
      case Failure(_) => failed
  }

  method ConfirmPaidBooking(db: Tables, order: Order) returns (applied: bool)
    modifies db
    ensures applied == (old(db.booking.status) == Paid)
    ensures db.Snapshot() == Confirm(old(db.Snapshot()), order)
  {
    if db.booking.status != Paid {
      return false;
    }
    db.booking := db.booking.(supplierOrderId := Some(order.id), bookingReference := Some(order.reference));
    var _ := TransitionTo(db, Confirmed);
    db.CreateEntry(SupplierCharge, -(db.booking.baseAmount as int), None);
    ghost var before := db.Snapshot();
    for i := 0 to |order.documents|
      invariant db.Snapshot() == before.(documents := before.documents + order.documents[..i])
    {
      assert order.documents[..i + 1] == order.documents[..i] + [order.documents[i]];
      db.documents := db.documents + [order.documents[i]];
    }
    assert order.documents[..|order.documents|] == order.documents;
    return true;
  }

  method FailPaidBookingAndRefund(db: Tables) returns (applied: bool, refund: Option<nat>)
    modifies db
    ensures applied == (old(db.booking.status) == Paid)
    ensures db.Snapshot() == FailAndRefund(old(db.Snapshot()))
    ensures refund == if |db.refunds| > |old(db.refunds)| then Some(|old(db.refunds)|) else None
  {
    if db.booking.status != Paid {
      return false, None;
    }
    var _ := TransitionTo(db, OrderFailed);
    refund := CreateFullRefund(db);
    return true, refund;
  }

  method CreateFullRefund(db: Tables) returns (refund: Option<nat>)
    modifies db`refunds
    ensures db.Snapshot() ==
            match CreatePending(old(db.Snapshot()), old(db.booking.Total()), None, None)
            case Success(rows) => rows
            case Failure(_) => old(db.Snapshot())
    ensures refund == if |db.refunds| > |old(db.refunds)| then Some(|old(db.refunds)|) else None
  {
    if db.payment.None? || !Refundable(db.payment.value.status) {
      return None;
    }
    var row := |db.refunds|;
    var created := CreatePendingRefund(db, db.booking.Total(), None, None);
    return if created.Success? then Some(row) else None;
  }
}

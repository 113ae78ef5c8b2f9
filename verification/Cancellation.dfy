/** Cancelling a confirmed booking, by its customer or by an admin, after the supplier cancelled the order. */
module Cancellation {
  import opened Support
  import opened Records
  import opened BookingStateMachine
  import opened RefundExecution

  datatype Actor = Customer(user: string) | Admin(user: string)

  function CustomerReceives(r: Rows, supplierRefund: int): int {
    supplierRefund + r.booking.markupAmount
  }

  /** What either path checks before it calls the supplier. Only the customer path looks at the payment. */
  predicate MayStart(r: Rows, actor: Actor) {
    && r.booking.status == Confirmed
    && (actor.Customer? ==> r.payment.Some? && Refundable(r.payment.value.status))
  }

  /** The admin path reads the payment after the supplier call and outside the transaction. */
  predicate CanRefund(r: Rows, supplierRefund: int) {
    && r.payment.Some?
    && Refundable(r.payment.value.status)
    && CustomerReceives(r, supplierRefund) > 0
  }

  function WithRefund(r: Rows, supplierRefund: int, user: string, wanted: bool): Result<Rows, Error> {
    if wanted then
      CreatePending(r, CustomerReceives(r, supplierRefund), Some(user), Some(supplierRefund))
    else
      Success(r)
  }

  /** `wanted` is whether the transaction asks for a refund row. */
  function Commit(r: Rows, supplierRefund: int, user: string, wanted: bool): Result<Rows, Error> {
    var cancelled :- Transition(r, Cancelled);
    var refunding :- WithRefund(cancelled, supplierRefund, user, wanted);
    Success(if supplierRefund > 0 then
              refunding.(ledger := refunding.ledger +
                [LedgerEntry(SupplierRefund, supplierRefund, if wanted then Some(|r.refunds|) else None)])
            else
              refunding)
  }

  function CustomerCommit(r: Rows, supplierRefund: int, user: string): Result<Rows, Error> {
    Commit(r, supplierRefund, user, CustomerReceives(r, supplierRefund) > 0)
  }

  method CommitCancellation(db: Tables, supplierRefund: int, actor: Actor, canRefund: bool)
    returns (outcome: Result<(), Error>)
    modifies db
    ensures Settles(outcome, old(db.Snapshot()), db.Snapshot(),
                    match actor
                    case Customer(user) => CustomerCommit(old(db.Snapshot()), supplierRefund, user)
                    case Admin(user) => Commit(old(db.Snapshot()), supplierRefund, user, canRefund))
  {
    var saved := db.Snapshot();
    var customerReceives := supplierRefund + db.booking.markupAmount;
    outcome := TransitionTo(db, Cancelled);
    if outcome.Failure? {
      return;
    }
    var refund: Option<nat> := None;
    if (actor.Customer? && customerReceives > 0) || (actor.Admin? && canRefund) {
      refund := Some(|db.refunds|);
      outcome := CreatePendingRefund(db, customerReceives, Some(actor.user), Some(supplierRefund));
      if outcome.Failure? {
        db.Rollback(saved);
        return;
      }
    }
    if supplierRefund > 0 {
      db.CreateEntry(SupplierRefund, supplierRefund, refund);
    }
  }

  /**
   * A cancellation that asks for a refund row commits exactly when the booking is confirmed (or already
   * cancelled) and the refund still fits beside the refunds committed before it.
   */
  lemma CommitsExactlyWhenTheRefundFits(r: Rows, s: int, user: string)
    ensures Commit(r, s, user, true).Success? <==>
              && r.booking.status in {Confirmed, Cancelled}
              && CanRefund(r, s)
              && Committed(r) + CustomerReceives(r, s) <= r.payment.value.amount
  {
    if Transition(r, Cancelled).Success? {
      assert Committed(Transition(r, Cancelled).value) == Committed(r);
    }
  }
}

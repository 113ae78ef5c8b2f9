/** From a fresh booking to captured money: passengers, payment attempts, expiry and the capture itself. */
module Checkout {
  import opened Support
  import opened Records
  import opened BookingStateMachine

  /** Submitting passengers for an expired offer fails the booking and then throws, which undoes the failing. */
  function SavePassengers(r: Rows, offerExpired: bool, inputsValid: bool): Result<Rows, Error> {
    if r.booking.status != Pending then Failure(IllegalTransition)
    else if offerExpired then Failure(OfferExpired)
    else if !inputsValid then Failure(ValidationError)
    else Transition(r, AwaitingPayment)
  }

  /** One payment per booking, its amount fixed to the booking's total by the first attempt. */
  function WithPayment(r: Rows): Rows {
    if r.payment.Some? then r else r.(payment := Some(Payment(PaymentPending, r.booking.Total())))
  }

  /** Unlike the step above, an expired offer is committed here and reported afterwards. */
  function StartPayment(r: Rows, offerExpired: bool, gatewayOk: bool): Rows {
    if r.booking.status != AwaitingPayment then r
    else if offerExpired then Transition(r, Failed).value
    else if gatewayOk then WithPayment(r)
    else r
  }

  function Expire(r: Rows): Rows {
    match Transition(r, Failed)
    case Success(failed) => failed
    case Failure(_) => r
  }

  /** The rows a succeeded gateway transaction changes. A booking that is already paid is charged again. */
  function Capture(r: Rows): Result<Rows, Error> {
    if r.payment.None? then
      Failure(NotFound)
    else
      var paid :- Transition(r, Paid);
      Success(paid.(payment := Some(r.payment.value.(status := PaymentSucceeded)),
                    ledger := r.ledger + [LedgerEntry(CustomerPayment, r.payment.value.amount, None)]))
  }

  method SubmitPassengers(db: Tables, offerExpired: bool, inputsValid: bool) returns (outcome: Result<(), Error>)
    modifies db
    ensures Settles(outcome, old(db.Snapshot()), db.Snapshot(),
                    SavePassengers(old(db.Snapshot()), offerExpired, inputsValid))
    ensures outcome == Failure(IllegalTransition) <==> old(db.booking.status) != Pending
    ensures outcome == Failure(OfferExpired) <==> old(db.booking.status) == Pending && offerExpired
    ensures outcome == Failure(ValidationError) <==>
            old(db.booking.status) == Pending && !offerExpired && !inputsValid
  {
    var saved := db.Snapshot();
    if db.booking.status != Pending {
      return Failure(IllegalTransition);
    }
    if offerExpired {
      var _ := TransitionTo(db, Failed);
      db.Rollback(saved);
      return Failure(OfferExpired);
    }
    if !inputsValid {
      return Failure(ValidationError);
    }
    outcome := TransitionTo(db, AwaitingPayment);
  }

  method CreateOrGetPaymentAttempt(db: Tables, offerExpired: bool, gatewayOk: bool) returns (outcome: Result<(), Error>)
    modifies db
    ensures db.Snapshot() == StartPayment(old(db.Snapshot()), offerExpired, gatewayOk)
    ensures outcome.Success? <==> old(db.booking.status) == AwaitingPayment && !offerExpired && gatewayOk
    ensures outcome == Failure(IllegalTransition) <==> old(db.booking.status) != AwaitingPayment
    ensures outcome == Failure(OfferExpired) <==> old(db.booking.status) == AwaitingPayment && offerExpired
  {
    var saved := db.Snapshot();
    if db.booking.status != AwaitingPayment {
      return Failure(IllegalTransition);
    }
    if offerExpired {
      var _ := TransitionTo(db, Failed);
      return Failure(OfferExpired);
    }
    if db.payment.None? {
      db.payment := Some(Payment(PaymentPending, db.booking.Total()));
    }
    if !gatewayOk {
      db.Rollback(saved);
      return Failure(SupplierUnavailable);
    }
    return Success(());
  }

  method CapturePayment(db: Tables) returns (outcome: Result<(), Error>)
    modifies db
    ensures Settles(outcome, old(db.Snapshot()), db.Snapshot(), Capture(old(db.Snapshot())))
  {
    if db.payment.None? {
      return Failure(NotFound);
    }
    outcome := TransitionTo(db, Paid);
    if outcome.Success? {
      db.payment := Some(db.payment.value.(status := PaymentSucceeded));
      db.CreateEntry(CustomerPayment, db.payment.value.amount, None);
    }
  }
}

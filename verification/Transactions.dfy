/** Every transaction on one booking's rows, as one operation; a rolled-back one changes nothing. */
module Transactions {
  import opened Support
  import opened Records
  import Checkout
  import RefundExecution
  import FulfillmentOutcome
  import Cancellation

  datatype Transaction =
    | NoTransaction
    | SavePassengers(offerExpired: bool, inputsValid: bool)
    | StartPayment(offerExpired: bool, gatewayOk: bool)
    | Expire
    | Capture
    | Confirm(order: Order)
    | FailAndRefund
    | CustomerCancel(supplierRefund: int, user: string)
    | AdminCancel(supplierRefund: int, user: string, canRefund: bool)
    | ManualRefund(user: string, amount: int)
    | Record(row: nat, providerRefundId: string)
    | MarkFailed(row: nat)
    | Retry(row: nat)
    | Adjust(amount: int)

  function Kept(r: Rows, outcome: Result<Rows, Error>): Rows {
    match outcome
    case Success(rows) => rows
    case Failure(_) => r
  }

  function Apply(r: Rows, tx: Transaction): Rows {
    match tx
    case NoTransaction => r
    case SavePassengers(offerExpired, inputsValid) => Kept(r, Checkout.SavePassengers(r, offerExpired, inputsValid))
    case StartPayment(offerExpired, gatewayOk) => Checkout.StartPayment(r, offerExpired, gatewayOk)
    case Expire => Checkout.Expire(r)
    case Capture => Kept(r, Checkout.Capture(r))
    case Confirm(order) => FulfillmentOutcome.Confirm(r, order)
    case FailAndRefund => FulfillmentOutcome.FailAndRefund(r)
    case CustomerCancel(s, user) => Kept(r, Cancellation.CustomerCommit(r, s, user))
    case AdminCancel(s, user, canRefund) => Kept(r, Cancellation.Commit(r, s, user, canRefund))
    case ManualRefund(user, amount) => Kept(r, RefundExecution.CreatePending(r, amount, Some(user), None))
    case Record(row, id) => RefundExecution.Record(r, row, id)
    case MarkFailed(row) => RefundExecution.MarkFailed(r, row)
    case Retry(row) => RefundExecution.Retry(r, row)
    case Adjust(amount) => r.(ledger := r.ledger + [LedgerEntry(Adjustment, amount, None)])
  }
}

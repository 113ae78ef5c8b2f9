/**
 * One booking driven by every actor at once. A database transaction is one atomic step; a process that
 * called the supplier or the gateway keeps what it read before the call in a flight, however stale.
 */
module Lifecycle {
  import opened Support
  import opened Records
  import opened Cancellation
  import opened Transactions
  import RefundExecution

  datatype Source = Fulfilment | Reconciliation

  datatype Flight =
    | AwaitingOrder(source: Source)
    | OrderPlaced(order: Order)
    | OrderKnown(source: Source, order: Order)
    | OrderRefused(source: Source)
    | AwaitingCancellation(actor: Actor)
    | SupplierCancelled(actor: Actor, supplierRefund: int)
    | ReadyToCancel(user: string, supplierRefund: int, canRefund: bool)
    | AwaitingGateway(row: nat)
    | GatewayDone(row: nat, providerRefundId: string)
    | Done

  /** What the supplier tells an asking process: an order, a definite no, or nothing to act on. */
  datatype Answer = Found(order: Order) | Refused | Unclear

  /**
   * The rows, the processes in flight, and a log of what the outside world did: for every gateway refund that
   * moved money the row it was for, every refund a supplier granted with a cancellation, and every order the
   * supplier created for this booking.
   */
  datatype Life = Life(
    rows: Rows,
    flights: seq<Flight>,
    gatewayCalls: seq<nat>,
    supplierRefunds: seq<int>,
    supplierOrders: seq<Order>,
    emailsDue: nat,
    emailsSent: nat)

  datatype Step =
    | Passengers(offerExpired: bool, inputsValid: bool)
    | Attempt(offerExpired: bool, gatewayOk: bool)
    | ExpirySweep
    | PaymentCaptured
    | AskSupplier(source: Source)
    | SupplierCreates(flight: nat, order: Order)
    | SupplierAnswers(flight: nat, answer: Answer)
    | SettleOrder(flight: nat)
    | OrderWebhook(order: Order)
    | StartCancellation(actor: Actor)
    | SupplierCancels(flight: nat, supplierRefund: int)
    | ReadPayment(flight: nat)
    | CommitCancel(flight: nat)
    | ManualRefund(user: string, amount: int)
    | StartExecution(row: nat)
    | GatewayRefunds(flight: nat, providerRefundId: string)
    | GatewayFails(flight: nat, moneyMoved: bool)
    | RecordExecution(flight: nat)
    | MarkRefundFailed(row: nat)
    | RetryRefund(row: nat)
    | SendEmail
    | Adjust(amount: int)

  function Start(baseAmount: nat, markupAmount: nat, currency: string): Life {
    Life(NewRows(baseAmount, markupAmount, currency), [], [], [], [], 0, 0)
  }

  function FlightAt(l: Life, k: nat): Flight {
    if k < |l.flights| then l.flights[k] else Done
  }

  /** The transaction a step runs, given what its process read before. */
  function TransactionOf(l: Life, step: Step): Transaction {
    match step
    case Passengers(offerExpired, inputsValid) => SavePassengers(offerExpired, inputsValid)
    case Attempt(offerExpired, gatewayOk) => StartPayment(offerExpired, gatewayOk)
    case ExpirySweep => Expire
    case PaymentCaptured => Capture
    case OrderWebhook(order) => Confirm(order)
    case SettleOrder(k) =>
      (match FlightAt(l, k)
       case OrderKnown(_, order) => Confirm(order)
       case OrderRefused(_) => FailAndRefund
       case _ => NoTransaction)
    case CommitCancel(k) =>
      (match FlightAt(l, k)
       case SupplierCancelled(actor, s) => if actor.Customer? then CustomerCancel(s, actor.user) else NoTransaction
       case ReadyToCancel(user, s, canRefund) => AdminCancel(s, user, canRefund)
       case _ => NoTransaction)
    case ManualRefund(user, amount) => Transaction.ManualRefund(user, amount)
    case RecordExecution(k) =>
      (match FlightAt(l, k)
       case GatewayDone(row, id) => Record(row, id)
       case _ => NoTransaction)
    case MarkRefundFailed(row) => MarkFailed(row)
    case RetryRefund(row) => Retry(row)
    case Adjust(amount) => Transaction.Adjust(amount)
    case _ => NoTransaction
  }

  /** The process a step starts, once its unlocked read lets it through. */
  function Launched(l: Life, step: Step): Option<Flight> {
    match step
    case AskSupplier(source) => if l.rows.booking.status == Paid then Some(AwaitingOrder(source)) else None
    case StartCancellation(actor) => if MayStart(l.rows, actor) then Some(AwaitingCancellation(actor)) else None
    case StartExecution(row) => if RefundExecution.MayExecute(l.rows, row) then Some(AwaitingGateway(row)) else None
    case _ => None
  }

  /** Where a step leaves the process it belongs to. */
  function Moved(l: Life, flight: Flight, step: Step): Flight {
    match (step, flight)
    case (SupplierAnswers(_, answer), AwaitingOrder(source)) =>
      (match answer
       case Found(order) => OrderKnown(source, order)
       case Refused => OrderRefused(source)
       case Unclear => Done)
    case (SupplierCreates(_, order), AwaitingOrder(source)) => if source.Fulfilment? then OrderPlaced(order) else flight
    case (SupplierAnswers(_, answer), OrderPlaced(_)) =>
      (match answer
       case Found(order) => OrderKnown(Fulfilment, order)
       case Refused => OrderRefused(Fulfilment)
       case Unclear => Done)
    case (SettleOrder(_), OrderKnown(_, _)) => Done
    case (SettleOrder(_), OrderRefused(_)) => Done
    case (SupplierCancels(_, s), AwaitingCancellation(actor)) => SupplierCancelled(actor, s)
    case (ReadPayment(_), SupplierCancelled(actor, s)) =>
      if actor.Admin? then ReadyToCancel(actor.user, s, CanRefund(l.rows, s)) else flight
    case (CommitCancel(_), SupplierCancelled(actor, _)) => if actor.Customer? then Done else flight
    case (CommitCancel(_), ReadyToCancel(_, _, _)) => Done
    case (GatewayRefunds(_, id), AwaitingGateway(row)) => GatewayDone(row, id)
    case (GatewayFails(_, _), AwaitingGateway(_)) => Done
    case (RecordExecution(_), GatewayDone(_, _)) => Done
    case _ => flight
  }

  function Mover(step: Step): Option<nat> {
    match step
    case SupplierCreates(k, _) => Some(k)
    case SupplierAnswers(k, _) => Some(k)
    case SettleOrder(k) => Some(k)
    case SupplierCancels(k, _) => Some(k)
    case ReadPayment(k) => Some(k)
    case CommitCancel(k) => Some(k)
    case GatewayRefunds(k, _) => Some(k)
    case GatewayFails(k, _) => Some(k)
    case RecordExecution(k) => Some(k)
    case _ => None
  }

  function Flights(l: Life, step: Step): seq<Flight> {
    match Mover(step)
    case Some(k) => if k < |l.flights| then l.flights[k := Moved(l, l.flights[k], step)] else l.flights
    case None =>
      match Launched(l, step)
      case Some(flight) => l.flights + [flight]
      case None => l.flights
  }

  /** A call that ends in an error, a timeout say, may have moved the money all the same. */
  predicate MovesMoney(l: Life, step: Step) {
    && (step.GatewayRefunds? || (step.GatewayFails? && step.moneyMoved))
    && FlightAt(l, step.flight).AwaitingGateway?
  }

  function GatewayCalls(l: Life, step: Step): seq<nat> {
    if MovesMoney(l, step) then l.gatewayCalls + [FlightAt(l, step.flight).row] else l.gatewayCalls
  }

  function SupplierRefunds(l: Life, step: Step): seq<int> {
    if step.SupplierCancels? && FlightAt(l, step.flight).AwaitingCancellation? then
      l.supplierRefunds + [step.supplierRefund]
    else
      l.supplierRefunds
  }

  /** A call that is still out can make the supplier create its order; the listing scan only reads. */
  predicate CreatesOrder(l: Life, step: Step) {
    step.SupplierCreates? && FlightAt(l, step.flight) == AwaitingOrder(Fulfilment)
  }

  function SupplierOrders(l: Life, step: Step): seq<Order> {
    if CreatesOrder(l, step) then l.supplierOrders + [step.order] else l.supplierOrders
  }

  /** The path that found the booking paid owes the customer one email. */
  predicate Confirms(l: Life, step: Step) {
    TransactionOf(l, step).Confirm? && l.rows.booking.status == Paid
  }

  predicate Sends(l: Life, step: Step) {
    step.SendEmail? && l.emailsDue > 0
  }

  function Next(l: Life, step: Step): Life {
    Life(Apply(l.rows, TransactionOf(l, step)),
         Flights(l, step),
         GatewayCalls(l, step),
         SupplierRefunds(l, step),
         SupplierOrders(l, step),
         (if Confirms(l, step) then l.emailsDue + 1 else if Sends(l, step) then l.emailsDue - 1 else l.emailsDue),
         (if Sends(l, step) then l.emailsSent + 1 else l.emailsSent))
  }

  function Run(l: Life, steps: seq<Step>): Life {
    if steps == [] then l else Next(Run(l, steps[..|steps| - 1]), steps[|steps| - 1])
  }

  lemma {:induction false} RunConcat(l: Life, a: seq<Step>, b: seq<Step>)
    ensures Run(l, a + b) == Run(Run(l, a), b)
  {
    if b == [] {
      assert a + b == a;
    } else {
      var n := |b| - 1;
      assert (a + b)[..|a| + n] == a + b[..n];
      RunConcat(l, a, b[..n]);
    }
  }

  lemma RunSnoc(l: Life, steps: seq<Step>, step: Step)
    ensures Run(l, steps + [step]) == Next(Run(l, steps), step)
  {
    assert (steps + [step])[..|steps|] == steps;
  }

  lemma RunTwo(l: Life, a: Step, b: Step)
    ensures Run(l, [a, b]) == Next(Next(l, a), b)
  {
    assert [a, b][..1] == [a] && [a][..0] == [];
    assert Run(l, [a]) == Next(l, a);
  }

  lemma PrefixStep(l: Life, steps: seq<Step>, i: nat)
    requires i < |steps|
    ensures Run(l, steps[..i + 1]) == Next(Run(l, steps[..i]), steps[i])
  {
    assert steps[..i + 1][..i] == steps[..i];
  }
}

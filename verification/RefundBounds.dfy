/** How much is refunded, and how often the gateway is asked: what holds always, and exactly when the rest does. */
module RefundBounds {
  import opened Support
  import opened Records
  import opened BookingStateMachine
  import opened Consistency
  import opened Transactions
  import opened Lifecycle
  import opened EveryRun
  import opened PaidRun
  import RefundExecution
  import Cancellation

  // Pending and succeeded refunds against the payment.

  ghost predicate WithinPayment(r: Rows) {
    r.payment.Some? ==> Committed(r) <= r.payment.value.amount
  }

  /** The check an admin's retry leaves out: the failed row must still fit beside the committed ones. */
  predicate RetryFits(r: Rows, step: Step) {
    step.RetryRefund? && step.row < |r.refunds| && r.refunds[step.row].status == RefundFailed && r.payment.Some? ==>
      Committed(r) + r.refunds[step.row].amount <= r.payment.value.amount
  }

  lemma CreatingStaysWithin(r: Rows, amount: int, initiatedBy: Option<string>, supplierRefund: Option<int>)
    requires WithinPayment(r)
    ensures WithinPayment(Kept(r, RefundExecution.CreatePending(r, amount, initiatedBy, supplierRefund)))
  {
    RefundExecution.CreatePendingReserves(r, amount, initiatedBy, supplierRefund);
  }

  lemma CancellingStaysWithin(r: Rows, s: int, user: string, wanted: bool)
    requires WithinPayment(r)
    ensures WithinPayment(Kept(r, Cancellation.Commit(r, s, user, wanted)))
  {
    if Cancellation.Commit(r, s, user, wanted).Success? && wanted {
      var cancelled := Transition(r, BookingStatus.Cancelled).value;
      CreatingStaysWithin(cancelled, Cancellation.CustomerReceives(cancelled, s), Some(user), Some(s));
    }
  }

  lemma RecordingStaysWithin(r: Rows, row: nat, id: string)
    requires WithinPayment(r)
    ensures WithinPayment(RefundExecution.Record(r, row, id))
  {
    if RefundExecution.MayRecord(r, row, id) {
      RefundExecution.RecordMovesReservedMoney(r, row, id);
    }
  }

  lemma ApplyStaysWithin(r: Rows, tx: Transaction)
    requires Consistent(r) && WithinPayment(r) && !tx.Retry?
    ensures WithinPayment(Apply(r, tx))
  {
    match tx
    case FailAndRefund =>
      if r.booking.status == Paid {
        CreatingStaysWithin(Transition(r, OrderFailed).value, r.booking.Total(), None, None);
      }
    case CustomerCancel(s, user) => CancellingStaysWithin(r, s, user, Cancellation.CustomerReceives(r, s) > 0);
    case AdminCancel(s, user, canRefund) => CancellingStaysWithin(r, s, user, canRefund);
    case ManualRefund(user, amount) => CreatingStaysWithin(r, amount, Some(user), None);
    case Record(row, id) => RecordingStaysWithin(r, row, id);
    case MarkFailed(row) =>
      if row < |r.refunds| && r.refunds[row].status == RefundPending {
        RefundExecution.SetRefundStatusShiftsCommitment(r, row, RefundPending, RefundFailed);
      }
    case _ =>
  }

  lemma StepStaysWithinIffRetryFits(l: Life, step: Step)
    requires Sound(l) && WithinPayment(l.rows)
    ensures WithinPayment(Next(l, step).rows) <==> RetryFits(l.rows, step)
  {
    OnlyRetryingRetries(l, step);
    if step.RetryRefund? {
      RetryStaysWithinIffItFits(l.rows, step);
    } else {
      ApplyStaysWithin(l.rows, TransactionOf(l, step));
    }
  }

  lemma OnlyRetryingRetries(l: Life, step: Step)
    ensures TransactionOf(l, step).Retry? <==> step.RetryRefund?
    ensures step.RetryRefund? ==> Next(l, step).rows == RefundExecution.Retry(l.rows, step.row)
  {
  }

  lemma RetryStaysWithinIffItFits(r: Rows, step: Step)
    requires WithinPayment(r) && step.RetryRefund?
    ensures WithinPayment(RefundExecution.Retry(r, step.row)) <==> RetryFits(r, step)
  {
    if step.row < |r.refunds| && r.refunds[step.row].status == RefundFailed {
      RefundExecution.SetRefundStatusShiftsCommitment(r, step.row, RefundFailed, RefundPending);
    }
  }

  ghost predicate AlwaysWithin(l: Life, steps: seq<Step>) {
    forall i :: 0 <= i <= |steps| ==> WithinPayment(Run(l, steps[..i]).rows)
  }

  ghost predicate RetriesFit(l: Life, steps: seq<Step>) {
    forall i :: 0 <= i < |steps| ==> RetryFits(Run(l, steps[..i]).rows, steps[i])
  }

  /** The committed refunds stay within the payment throughout a run exactly when every retry in it still fits. */
  lemma AlwaysWithinIffRetriesFit(baseAmount: nat, markupAmount: nat, currency: string, steps: seq<Step>)
    ensures AlwaysWithin(Start(baseAmount, markupAmount, currency), steps)
       <==> RetriesFit(Start(baseAmount, markupAmount, currency), steps)
  {
    var start := Start(baseAmount, markupAmount, currency);
    forall i | 0 <= i < |steps| && WithinPayment(Run(start, steps[..i]).rows)
      ensures WithinPayment(Run(start, steps[..i + 1]).rows) <==> RetryFits(Run(start, steps[..i]).rows, steps[i])
    {
      EveryRunIsSound(baseAmount, markupAmount, currency, steps[..i]);
      PrefixStep(start, steps, i);
      StepStaysWithinIffRetryFits(Run(start, steps[..i]), steps[i]);
    }
    if RetriesFit(start, steps) {
      WithinByInduction(start, steps, |steps|);
    }
    if AlwaysWithin(start, steps) {
      forall i | 0 <= i < |steps| ensures RetryFits(Run(start, steps[..i]).rows, steps[i]) {
        assert WithinPayment(Run(start, steps[..i]).rows) && WithinPayment(Run(start, steps[..i + 1]).rows);
      }
    }
  }

  lemma {:induction false} WithinByInduction(l: Life, steps: seq<Step>, n: nat)
    requires n <= |steps| && WithinPayment(l.rows) && RetriesFit(l, steps)
    requires forall i :: 0 <= i < |steps| && WithinPayment(Run(l, steps[..i]).rows) ==>
               (WithinPayment(Run(l, steps[..i + 1]).rows) <==> RetryFits(Run(l, steps[..i]).rows, steps[i]))
    ensures forall i :: 0 <= i <= n ==> WithinPayment(Run(l, steps[..i]).rows)
  {
    if n > 0 {
      WithinByInduction(l, steps, n - 1);
      assert WithinPayment(Run(l, steps[..n - 1 + 1]).rows);
    } else {
      assert steps[..0] == [];
    }
  }

  // Every amount can be paid, refunded by hand, refunded by hand again, retried, and so refunded twice.

  function ByHand(n: int, status: RefundStatus): Refund {
    Refund(n, status, Some("admin"), None, None)
  }

  lemma RefundedByHand(l: Life, n: nat)
    requires l.rows.payment == Some(Payment(PaymentSucceeded, n)) && n > 0 && Committed(l.rows) == 0
    ensures Next(l, Step.ManualRefund("admin", n)) ==
            l.(rows := l.rows.(refunds := l.rows.refunds + [ByHand(n, RefundPending)]))
  {
  }

  lemma FirstFails(l: Life, n: nat)
    requires l.rows.refunds == [ByHand(n, RefundPending)]
    ensures Next(l, MarkRefundFailed(0)) == l.(rows := l.rows.(refunds := [ByHand(n, RefundFailed)]))
  {
  }

  lemma FirstIsRetried(l: Life, n: nat, other: Refund)
    requires l.rows.refunds == [ByHand(n, RefundFailed), other]
    ensures Next(l, RetryRefund(0)) == l.(rows := l.rows.(refunds := [ByHand(n, RefundPending), other]))
  {
  }

  lemma OneFailed(l: Life, n: nat)
    requires l.rows.payment == Some(Payment(PaymentSucceeded, n)) && n > 0 && l.rows.refunds == []
    ensures Run(l, [Step.ManualRefund("admin", n), MarkRefundFailed(0)]) ==
            l.(rows := l.rows.(refunds := [ByHand(n, RefundFailed)]))
  {
    RunTwo(l, Step.ManualRefund("admin", n), MarkRefundFailed(0));
    RefundedByHand(l, n);
    FirstFails(Next(l, Step.ManualRefund("admin", n)), n);
  }

  lemma OneFailedOneRetried(l: Life, n: nat)
    requires l.rows.payment == Some(Payment(PaymentSucceeded, n)) && n > 0
    requires l.rows.refunds == [ByHand(n, RefundFailed)]
    ensures Run(l, [Step.ManualRefund("admin", n), RetryRefund(0)]) ==
            l.(rows := l.rows.(refunds := [ByHand(n, RefundPending), ByHand(n, RefundPending)]))
  {
    RunTwo(l, Step.ManualRefund("admin", n), RetryRefund(0));
    SumOne(ByHand(n, RefundFailed), CommittedAmount);
    RefundedByHand(l, n);
    FirstIsRetried(Next(l, Step.ManualRefund("admin", n)), n, ByHand(n, RefundPending));
  }

  /** Paid, refunded by hand without success, refunded by hand again, and the first refund retried. */
  lemma RetriedTwice(l: Life, n: nat) returns (steps: seq<Step>)
    requires l.rows.payment == Some(Payment(PaymentSucceeded, n)) && n > 0 && l.rows.refunds == []
    ensures Run(l, steps) == l.(rows := l.rows.(refunds := [ByHand(n, RefundPending), ByHand(n, RefundPending)]))
    ensures RetryRefund(0) in steps
  {
    var failing := [Step.ManualRefund("admin", n), MarkRefundFailed(0)];
    var retrying := [Step.ManualRefund("admin", n), RetryRefund(0)];
    OneFailed(l, n);
    OneFailedOneRetried(Run(l, failing), n);
    RunConcat(l, failing, retrying);
    assert retrying[1] == RetryRefund(0);
    steps := failing + retrying;
  }

  lemma StartingAddsFlight(l: Life, row: nat)
    requires RefundExecution.MayExecute(l.rows, row)
    ensures Next(l, StartExecution(row)) == l.(flights := l.flights + [AwaitingGateway(row)])
  {
  }

  lemma AnswerIsKept(l: Life, k: nat, row: nat, id: string)
    requires FlightAt(l, k) == AwaitingGateway(row)
    ensures Next(l, GatewayRefunds(k, id)) ==
            l.(flights := l.flights[k := GatewayDone(row, id)], gatewayCalls := l.gatewayCalls + [row])
  {
  }

  lemma RecordingEndsFlight(l: Life, k: nat, row: nat, id: string)
    requires FlightAt(l, k) == GatewayDone(row, id)
    ensures Next(l, RecordExecution(k)) ==
            l.(rows := RefundExecution.Record(l.rows, row, id), flights := l.flights[k := Done])
  {
  }

  function Execution(row: nat, k: nat, id: string): seq<Step> {
    [StartExecution(row), GatewayRefunds(k, id), RecordExecution(k)]
  }

  /** One undisturbed execution of a pending row by a fresh process. */
  lemma ExecutionRecords(l: Life, row: nat, id: string)
    requires RefundExecution.MayExecute(l.rows, row)
    ensures Run(l, Execution(row, |l.flights|, id)).rows == RefundExecution.Record(l.rows, row, id)
  {
    var k := |l.flights|;
    var called := Run(l, [StartExecution(row), GatewayRefunds(k, id)]);
    RunTwo(l, StartExecution(row), GatewayRefunds(k, id));
    StartingAddsFlight(l, row);
    AnswerIsKept(Next(l, StartExecution(row)), k, row, id);
    RecordingEndsFlight(called, k, row, id);
    RunSnoc(l, [StartExecution(row), GatewayRefunds(k, id)], RecordExecution(k));
    assert [StartExecution(row), GatewayRefunds(k, id)] + [RecordExecution(k)] == Execution(row, k, id);
  }

  lemma RecordedRow(l: Life, row: nat, n: nat, id: string)
    requires l.rows.payment.Some? && l.rows.payment.value.amount == n && row < |l.rows.refunds|
    requires l.rows.refunds[row] == ByHand(n, RefundPending) && !RefundExecution.IdTaken(l.rows, row, id)
    ensures var r' := Run(l, Execution(row, |l.flights|, id)).rows;
            && r'.payment.Some? && r'.payment.value.amount == n && Succeeded(r') == Succeeded(l.rows) + n
            && r'.refunds == l.rows.refunds[row := ByHand(n, RefundSucceeded).(providerRefundId := Some(id))]
  {
    ExecutionRecords(l, row, id);
    RefundExecution.RecordMovesReservedMoney(l.rows, row, id);
  }

  lemma FirstRecorded(l: Life, n: nat, first: string)
    requires l.rows.payment == Some(Payment(PaymentSucceeded, n)) && n > 0
    requires l.rows.refunds == [ByHand(n, RefundPending), ByHand(n, RefundPending)]
    ensures var r := Run(l, Execution(0, |l.flights|, first)).rows;
            && r.payment.Some? && r.payment.value.amount == n && Succeeded(r) == n
            && r.refunds == [ByHand(n, RefundSucceeded).(providerRefundId := Some(first)), ByHand(n, RefundPending)]
  {
    var x := ByHand(n, RefundPending);
    SumOne(x, SucceededAmount);
    SumAppend([x], x, SucceededAmount);
    assert [x] + [x] == l.rows.refunds;
    RecordedRow(l, 0, n, first);
  }

  /** The gateway gives each of the two refunds an id of its own. */
  lemma BothExecuted(l: Life, n: nat, first: string, second: string) returns (steps: seq<Step>)
    requires l.rows.payment == Some(Payment(PaymentSucceeded, n)) && n > 0 && first != second
    requires l.rows.refunds == [ByHand(n, RefundPending), ByHand(n, RefundPending)]
    ensures var r := Run(l, steps).rows;
            && r.payment.Some? && r.payment.value.amount == n && Succeeded(r) == 2 * n
            && |r.refunds| == 2
            && r.refunds[0].providerRefundId == Some(first) && r.refunds[1].providerRefundId == Some(second)
  {
    var one := Execution(0, |l.flights|, first);
    var l1 := Run(l, one);
    FirstRecorded(l, n, first);
    RecordedRow(l1, 1, n, second);
    RunConcat(l, one, Execution(1, |l1.flights|, second));
    steps := one + Execution(1, |l1.flights|, second);
  }

  /** Without the missing check a retry can lead to refunding twice what was paid, whatever the amount. */
  lemma RetryCanOverRefund(n: nat, first: string, second: string) returns (steps: seq<Step>)
    requires n > 0 && first != second
    ensures var r := Run(Start(n, 0, "USD"), steps).rows;
            && r.payment.Some? && r.payment.value.amount == n && Succeeded(r) == 2 * n
            && |r.refunds| == 2
            && r.refunds[0].providerRefundId == Some(first) && r.refunds[1].providerRefundId == Some(second)
  {
    var start := Start(n, 0, "USD");
    var paying := PaidIsReachable(n, 0, "USD");
    var retrying := RetriedTwice(Run(start, paying), n);
    var executing := BothExecuted(Run(Run(start, paying), retrying), n, first, second);
    RunConcat(start, paying, retrying);
    RunConcat(start, paying + retrying, executing);
    steps := paying + retrying + executing;
  }

  // A cancellation the supplier has granted can still be lost to a refund committed before it.

  lemma ConfirmedAndRefunding(l: Life, n: nat, order: Order)
    requires l.rows.payment == Some(Payment(PaymentSucceeded, n)) && n > 0
    requires l.rows.refunds == [] && l.rows.booking.status == Paid
    ensures var l' := Run(l, [OrderWebhook(order), Step.ManualRefund("admin", n)]);
            && l'.rows.booking == l.rows.booking.(status := BookingStatus.Confirmed, supplierOrderId := Some(order.id),
                                                  bookingReference := Some(order.reference))
            && l'.rows.payment == l.rows.payment && Committed(l'.rows) == n && l'.flights == l.flights
            && l'.supplierRefunds == l.supplierRefunds
  {
    RunTwo(l, OrderWebhook(order), Step.ManualRefund("admin", n));
    RefundedByHand(Next(l, OrderWebhook(order)), n);
    SumOne(ByHand(n, RefundPending), CommittedAmount);
  }

  lemma CancellingAddsFlight(l: Life, actor: Cancellation.Actor)
    requires Cancellation.MayStart(l.rows, actor)
    ensures Next(l, StartCancellation(actor)) == l.(flights := l.flights + [AwaitingCancellation(actor)])
  {
  }

  lemma GrantMovesFlight(l: Life, actor: Cancellation.Actor, n: nat)
    requires l.flights == [AwaitingCancellation(actor)]
    ensures Next(l, SupplierCancels(0, n)) ==
            l.(flights := [SupplierCancelled(actor, n)], supplierRefunds := l.supplierRefunds + [n])
  {
  }

  lemma GrantIsKept(l: Life, actor: Cancellation.Actor, n: nat)
    requires Cancellation.MayStart(l.rows, actor) && l.flights == []
    ensures Run(l, [StartCancellation(actor), SupplierCancels(0, n)]) ==
            l.(flights := [SupplierCancelled(actor, n)], supplierRefunds := l.supplierRefunds + [n])
  {
    RunTwo(l, StartCancellation(actor), SupplierCancels(0, n));
    CancellingAddsFlight(l, actor);
    GrantMovesFlight(Next(l, StartCancellation(actor)), actor, n);
  }

  lemma PaymentReadAfterGrant(l: Life, user: string, n: nat)
    requires l.rows.payment == Some(Payment(PaymentSucceeded, n)) && n > 0
    requires l.flights == [SupplierCancelled(Cancellation.Admin(user), n)]
    ensures Next(l, ReadPayment(0)) == l.(flights := [ReadyToCancel(user, n, true)])
  {
  }

  lemma CommitRolledBack(l: Life, user: string, n: nat)
    requires l.flights == [ReadyToCancel(user, n, true)] && Cancellation.Commit(l.rows, n, user, true).Failure?
    ensures Next(l, CommitCancel(0)) == l.(flights := [Done])
  {
  }

  lemma RefundIsRefused(l: Life, user: string, n: nat)
    requires l.rows.payment == Some(Payment(PaymentSucceeded, n)) && n > 0 && Committed(l.rows) == n
    requires l.flights == [SupplierCancelled(Cancellation.Admin(user), n)]
    ensures Run(l, [ReadPayment(0), CommitCancel(0)]) == l.(flights := [Done])
  {
    RunTwo(l, ReadPayment(0), CommitCancel(0));
    PaymentReadAfterGrant(l, user, n);
    Cancellation.CommitsExactlyWhenTheRefundFits(l.rows, n, user);
    CommitRolledBack(Next(l, ReadPayment(0)), user, n);
  }

  lemma CustomerCommitRolledBack(l: Life, user: string, n: nat)
    requires l.flights == [SupplierCancelled(Cancellation.Customer(user), n)] && n > 0
    requires Cancellation.Commit(l.rows, n, user, true).Failure?
    ensures Next(l, CommitCancel(0)) == l.(flights := [Done])
  {
  }

  lemma CustomerRefused(l: Life, user: string, n: nat)
    requires l.rows.payment == Some(Payment(PaymentSucceeded, n)) && n > 0 && Committed(l.rows) == n
    requires l.flights == [SupplierCancelled(Cancellation.Customer(user), n)]
    ensures Run(l, [CommitCancel(0)]) == l.(flights := [Done])
  {
    Cancellation.CommitsExactlyWhenTheRefundFits(l.rows, n, user);
    CustomerCommitRolledBack(l, user, n);
    RunSnoc(l, [], CommitCancel(0));
    assert [] + [CommitCancel(0)] == [CommitCancel(0)];
  }

  lemma GrantedButRefused(l: Life, actor: Cancellation.Actor, n: nat) returns (steps: seq<Step>)
    requires l.rows.payment == Some(Payment(PaymentSucceeded, n)) && n > 0 && Committed(l.rows) == n
    requires l.rows.booking.status == BookingStatus.Confirmed && l.flights == [] && l.supplierRefunds == []
    ensures Run(l, steps) == l.(flights := [Done], supplierRefunds := [n]) && StartCancellation(actor) in steps
  {
    var granting := [StartCancellation(actor), SupplierCancels(0, n)];
    var refusing := if actor.Admin? then [ReadPayment(0), CommitCancel(0)] else [CommitCancel(0)];
    GrantIsKept(l, actor, n);
    if actor.Admin? {
      RefundIsRefused(Run(l, granting), actor.user, n);
    } else {
      CustomerRefused(Run(l, granting), actor.user, n);
    }
    RunConcat(l, granting, refusing);
    assert l.supplierRefunds + [n] == [n];
    assert granting[0] == StartCancellation(actor);
    steps := granting + refusing;
  }

  lemma CancellationCanBeLost(n: nat, order: Order, actor: Cancellation.Actor) returns (steps: seq<Step>)
    requires n > 0
    ensures StartCancellation(actor) in steps
    ensures var l := Run(Start(n, 0, "USD"), steps);
            l.rows.booking.status == BookingStatus.Confirmed && l.supplierRefunds == [n] && l.flights == [Done]
  {
    var start := Start(n, 0, "USD");
    var paying := PaidIsReachable(n, 0, "USD");
    var refunding := [OrderWebhook(order), Step.ManualRefund("admin", n)];
    ConfirmedAndRefunding(Run(start, paying), n, order);
    RunConcat(start, paying, refunding);
    var cancelling := GrantedButRefused(Run(start, paying + refunding), actor, n);
    RunConcat(start, paying + refunding, cancelling);
    steps := paying + refunding + cancelling;
  }

  /** The supplier has cancelled the order and returned the fare, yet the booking stays confirmed. */
  lemma AdminCancellationCanBeLost(n: nat, order: Order) returns (steps: seq<Step>)
    requires n > 0
    ensures StartCancellation(Cancellation.Admin("admin")) in steps
    ensures var l := Run(Start(n, 0, "USD"), steps);
            l.rows.booking.status == BookingStatus.Confirmed && l.supplierRefunds == [n] && l.flights == [Done]
  {
    steps := CancellationCanBeLost(n, order, Cancellation.Admin("admin"));
  }

  /** The customer path checks the payment's status before it calls the supplier, and not what is left of it. */
  lemma CustomerCancellationCanBeLost(n: nat, order: Order) returns (steps: seq<Step>)
    requires n > 0
    ensures StartCancellation(Cancellation.Customer("user")) in steps
    ensures var l := Run(Start(n, 0, "USD"), steps);
            l.rows.booking.status == BookingStatus.Confirmed && l.supplierRefunds == [n] && l.flights == [Done]
  {
    steps := CancellationCanBeLost(n, order, Cancellation.Customer("user"));
  }

  // How often the gateway moves money for one refund row.

  function Calls(l: Life, row: nat): nat {
    multiset(l.gatewayCalls)[row]
  }

  predicate Unfinished(f: Flight, row: nat) {
    (f.AwaitingGateway? || f.GatewayDone?) && f.row == row
  }

  predicate Idle(l: Life, row: nat) {
    forall k :: 0 <= k < |l.flights| ==> !Unfinished(l.flights[k], row)
  }

  /**
   * Executions of a row that wait for each other: one starts, or its row is given up, only when none is
   * unfinished, a gateway call that errs has moved nothing, and the gateway's refund ids are its own.
   */
  predicate Serial(l: Life, step: Step) {
    match step
    case StartExecution(row) => Idle(l, row)
    case MarkRefundFailed(row) => Idle(l, row)
    case GatewayFails(_, moneyMoved) => !moneyMoved
    case RecordExecution(k) =>
      (match FlightAt(l, k)
       case GatewayDone(row, id) => !RefundExecution.IdTaken(l.rows, row, id)
       case _ => true)
    case _ => true
  }

  ghost predicate AllSerial(l: Life, steps: seq<Step>) {
    forall i :: 0 <= i < |steps| ==> Serial(Run(l, steps[..i]), steps[i])
  }

  /**
   * One unfinished execution at most, and the row pending while there is one; with none, either no money
   * moved or it moved once and is recorded.
   */
  ghost predicate Orderly(l: Life, row: nat) {
    && (forall j, k :: 0 <= j < k < |l.flights| && Unfinished(l.flights[j], row) ==> !Unfinished(l.flights[k], row))
    && (forall k :: 0 <= k < |l.flights| && Unfinished(l.flights[k], row) ==>
          RefundExecution.MayExecute(l.rows, row) && Calls(l, row) == if l.flights[k].GatewayDone? then 1 else 0)
    && (Idle(l, row) ==> Calls(l, row) == 0 || (Calls(l, row) == 1 && IsSucceeded(l.rows, row)))
  }

  lemma PendingStays(r: Rows, tx: Transaction, row: nat)
    requires RefundExecution.MayExecute(r, row) && !(tx.Record? && tx.row == row) && !(tx.MarkFailed? && tx.row == row)
    ensures RefundExecution.MayExecute(Apply(r, tx), row)
  {
  }

  /** What a step does to the flights and calls of one row, seen from its own flight. */
  predicate Touches(l: Life, step: Step, row: nat) {
    || (step.StartExecution? && step.row == row)
    || ((step.GatewayRefunds? || step.GatewayFails? || step.RecordExecution?)
        && Unfinished(FlightAt(l, step.flight), row))
  }

  lemma UntouchedRow(l: Life, step: Step, row: nat)
    requires !Touches(l, step, row)
    ensures |l.flights| <= |Flights(l, step)|
    ensures forall k :: 0 <= k < |Flights(l, step)| ==>
              (Unfinished(Flights(l, step)[k], row) <==> k < |l.flights| && Unfinished(l.flights[k], row))
    ensures forall k :: 0 <= k < |l.flights| && Unfinished(l.flights[k], row) ==> Flights(l, step)[k] == l.flights[k]
    ensures multiset(GatewayCalls(l, step))[row] == Calls(l, row)
    ensures !(TransactionOf(l, step).Record? && TransactionOf(l, step).row == row)
  {
  }

  lemma UntouchedOrderly(l: Life, step: Step, row: nat)
    requires Orderly(l, row) && Serial(l, step) && !Touches(l, step, row)
    ensures Orderly(Next(l, step), row)
  {
    var l', tx := Next(l, step), TransactionOf(l, step);
    UntouchedRow(l, step, row);
    SucceededRowsStay(l.rows, tx);
    if Idle(l', row) {
      assert Idle(l, row) by {
        forall k | 0 <= k < |l.flights| ensures !Unfinished(l.flights[k], row) {
          assert !Unfinished(l'.flights[k], row);
        }
      }
    } else if !(tx.MarkFailed? && tx.row == row) && RefundExecution.MayExecute(l.rows, row) {
      PendingStays(l.rows, tx, row);
    }
  }

  lemma StartedOrderly(l: Life, row: nat)
    requires Orderly(l, row) && Serial(l, StartExecution(row))
    ensures Orderly(Next(l, StartExecution(row)), row)
  {
    if RefundExecution.MayExecute(l.rows, row) {
      StartingAddsFlight(l, row);
    }
  }

  lemma MovedOrderly(l: Life, step: Step, row: nat)
    requires Orderly(l, row) && Serial(l, step)
    requires step.GatewayRefunds? || step.GatewayFails? || step.RecordExecution?
    requires Unfinished(FlightAt(l, step.flight), row)
    ensures Orderly(Next(l, step), row)
  {
    var l', k := Next(l, step), step.flight;
    assert forall j :: 0 <= j < |l.flights| && j != k ==>
        l'.flights[j] == l.flights[j] && !Unfinished(l.flights[j], row);
    if l.flights[k].AwaitingGateway? && step.GatewayRefunds? {
      AnswerIsKept(l, k, row, step.providerRefundId);
      assert multiset(l'.gatewayCalls) == multiset(l.gatewayCalls) + multiset{row};
      assert Unfinished(l'.flights[k], row);
    } else if l.flights[k].GatewayDone? && step.RecordExecution? {
      RecordingEndsFlight(l, k, row, l.flights[k].providerRefundId);
    } else {
      assert l'.gatewayCalls == l.gatewayCalls && l'.rows == l.rows;
      assert l'.flights[k] == l.flights[k] || (l'.flights[k] == Done && l.flights[k].AwaitingGateway?);
      assert l'.flights[k] == l.flights[k] ==> Unfinished(l'.flights[k], row);
    }
  }

  lemma NextOrderly(l: Life, step: Step, row: nat)
    requires Orderly(l, row) && Serial(l, step)
    ensures Orderly(Next(l, step), row)
  {
    if !Touches(l, step, row) {
      UntouchedOrderly(l, step, row);
    } else if step.StartExecution? {
      StartedOrderly(l, row);
    } else {
      MovedOrderly(l, step, row);
    }
  }

  lemma {:induction false} SerialRunOrderly(l: Life, steps: seq<Step>, row: nat)
    requires Orderly(l, row) && AllSerial(l, steps)
    ensures Orderly(Run(l, steps), row)
  {
    if steps != [] {
      var n := |steps| - 1;
      forall i | 0 <= i < n ensures Serial(Run(l, steps[..n][..i]), steps[..n][i]) {
        assert steps[..n][..i] == steps[..i];
      }
      SerialRunOrderly(l, steps[..n], row);
      assert Serial(Run(l, steps[..n]), steps[n]);
      NextOrderly(Run(l, steps[..n]), steps[n], row);
    }
  }

  /** When executions of a row wait for each other, the gateway moves its money at most once. */
  lemma SerialExecutionsPayOnce(baseAmount: nat, markupAmount: nat, currency: string, steps: seq<Step>, row: nat)
    requires AllSerial(Start(baseAmount, markupAmount, currency), steps)
    ensures Calls(Run(Start(baseAmount, markupAmount, currency), steps), row) <= 1
  {
    var l := Run(Start(baseAmount, markupAmount, currency), steps);
    SerialRunOrderly(Start(baseAmount, markupAmount, currency), steps, row);
    if !Idle(l, row) {
      var k :| 0 <= k < |l.flights| && Unfinished(l.flights[k], row);
    }
  }

  /** When a second execution starts beside one still waiting, the money can move twice, though it is recorded once. */
  lemma OverlappingExecutionsPayTwice(l: Life, row: nat, k: nat, first: string, second: string)
    returns (steps: seq<Step>)
    requires RefundExecution.MayRecord(l.rows, row, first) && FlightAt(l, k) == AwaitingGateway(row)
    ensures var l' := Run(l, steps);
            && Calls(l', row) == Calls(l, row) + 2
            && l'.rows == RefundExecution.Record(l.rows, row, first) && Consistency.IsSucceeded(l'.rows, row)
  {
    var n := |l.flights|;
    StartingAddsFlight(l, row);
    var l1 := Next(l, StartExecution(row));
    AnswerIsKept(l1, k, row, first);
    var l2 := Next(l1, GatewayRefunds(k, first));
    AnswerIsKept(l2, n, row, second);
    var l3 := Next(l2, GatewayRefunds(n, second));
    RecordingEndsFlight(l3, k, row, first);
    var l4 := Next(l3, RecordExecution(k));
    RecordingEndsFlight(l4, n, row, second);
    RecordSettles(l.rows, row, first);
    var a, b := [StartExecution(row)], [GatewayRefunds(k, first)];
    var c, d := [GatewayRefunds(n, second)], [RecordExecution(k)];
    RunSnoc(l, [], StartExecution(row));
    RunSnoc(l, a, GatewayRefunds(k, first));
    RunSnoc(l, a + b, GatewayRefunds(n, second));
    RunSnoc(l, a + b + c, RecordExecution(k));
    RunSnoc(l, a + b + c + d, RecordExecution(n));
    steps := a + b + c + d + [RecordExecution(n)];
    assert Run(l, steps).gatewayCalls == l.gatewayCalls + [row] + [row];
  }

  lemma RecordSettles(r: Rows, row: nat, id: string)
    requires RefundExecution.MayRecord(r, row, id)
    ensures Consistency.IsSucceeded(RefundExecution.Record(r, row, id), row)
    ensures !RefundExecution.MayExecute(RefundExecution.Record(r, row, id), row)
  {
  }
}

/**
 * What makes a booking enter each of its statuses: told from the steps of the actors and what their processes
 * know, and exact for every run.
 */
module Milestones {
  import opened Support
  import opened Records
  import opened BookingStateMachine
  import opened Consistency
  import opened Transactions
  import opened Lifecycle
  import opened EveryRun
  import RefundExecution
  import Cancellation
  import Checkout

  // When a refund row can be made, without looking at the payment's status.

  /** The money was captured, and the amount fits beside what is pending or already returned. */
  predicate RefundFits(r: Rows, amount: int) {
    Payments(r) >= 1 && 0 < amount && Committed(r) + amount <= r.booking.Total()
  }

  lemma {:induction false} CommittedCoversSucceeded(refunds: seq<Refund>)
    requires forall i :: 0 <= i < |refunds| ==> refunds[i].amount > 0
    ensures SumBy(refunds, SucceededAmount) <= SumBy(refunds, CommittedAmount)
  {
    if refunds != [] {
      CommittedCoversSucceeded(refunds[..|refunds| - 1]);
    }
  }

  lemma RefundAcceptedIffItFits(r: Rows, amount: int, initiatedBy: Option<string>, supplierRefund: Option<int>)
    requires Consistent(r)
    ensures RefundExecution.CreatePending(r, amount, initiatedBy, supplierRefund).Success? <==> RefundFits(r, amount)
  {
    CommittedCoversSucceeded(r.refunds);
  }

  // The steps that move a booking.

  /** The supplier has cancelled; the refund that is asked for, if any, has to fit. */
  predicate Commits(r: Rows, f: Flight) {
    match f
    case SupplierCancelled(Customer(_), s) =>
      s + r.booking.markupAmount > 0 ==> RefundFits(r, s + r.booking.markupAmount)
    case ReadyToCancel(_, s, canRefund) => canRefund ==> RefundFits(r, s + r.booking.markupAmount)
    case _ => false
  }

  /** A pending row, under an id of its own, that returns the last of the money. */
  predicate Completes(r: Rows, row: nat, id: string) {
    && row < |r.refunds| && r.refunds[row].status == RefundPending
    && (forall j :: 0 <= j < |r.refunds| && j != row ==> r.refunds[j].providerRefundId != Some(id))
    && Succeeded(r) + r.refunds[row].amount >= r.booking.Total()
  }

  predicate Enters(l: Life, step: Step, s: BookingStatus) {
    var now := l.rows.booking.status;
    match s
    case Pending => false
    case AwaitingPayment => step == Passengers(false, true) && now == Pending
    case Failed =>
      || (step.ExpirySweep? && now in {Pending, AwaitingPayment})
      || (step.Attempt? && step.offerExpired && now == AwaitingPayment)
    case Paid => step.PaymentCaptured? && now == AwaitingPayment && l.rows.payment.Some?
    case Confirmed =>
      now == Paid && (step.OrderWebhook? || (step.SettleOrder? && FlightAt(l, step.flight).OrderKnown?))
    case OrderFailed => now == Paid && step.SettleOrder? && FlightAt(l, step.flight).OrderRefused?
    case Cancelled =>
      now == BookingStatus.Confirmed && step.CommitCancel? && Commits(l.rows, FlightAt(l, step.flight))
    case Refunded =>
      && now in {BookingStatus.Cancelled, OrderFailed} && step.RecordExecution?
      && FlightAt(l, step.flight).GatewayDone?
      && Completes(l.rows, FlightAt(l, step.flight).row, FlightAt(l, step.flight).providerRefundId)
  }

  predicate Moves(r: Rows, r': Rows, s: BookingStatus) {
    r'.booking.status == s && r.booking.status != s
  }

  lemma CommitMoves(r: Rows, s: int, user: string, wanted: bool)
    requires Consistent(r)
    ensures var r' := Kept(r, Cancellation.Commit(r, s, user, wanted));
            && (r'.booking.status != r.booking.status <==>
                  r.booking.status == BookingStatus.Confirmed
                  && (wanted ==> RefundFits(r, s + r.booking.markupAmount)))
            && (r'.booking.status != r.booking.status ==> r'.booking.status == BookingStatus.Cancelled)
  {
    if r.booking.status == BookingStatus.Confirmed {
      var cancelled := Transition(r, BookingStatus.Cancelled).value;
      MoveConsistent(r, BookingStatus.Cancelled);
      RefundAcceptedIffItFits(cancelled, s + r.booking.markupAmount, Some(user), Some(s));
    }
  }

  lemma RecordMoves(r: Rows, row: nat, id: string)
    requires Consistent(r)
    ensures var r' := RefundExecution.Record(r, row, id);
            && (r'.booking.status != r.booking.status <==>
                  r.booking.status in {BookingStatus.Cancelled, OrderFailed} && Completes(r, row, id))
            && (r'.booking.status != r.booking.status ==> r'.booking.status == Refunded)
  {
    if RefundExecution.MayRecord(r, row, id) {
      var paid := r.refunds[row].(status := RefundSucceeded, providerRefundId := Some(id));
      SumUpdate(r.refunds, row, paid, SucceededAmount);
    }
  }

  lemma CheckoutMoves(l: Life, step: Step, s: BookingStatus)
    requires s != Pending
    requires step.Passengers? || step.Attempt? || step.ExpirySweep? || step.PaymentCaptured?
    ensures Moves(l.rows, Next(l, step).rows, s) <==> Enters(l, step, s)
  {
  }

  lemma SettlingMoves(l: Life, step: Step, s: BookingStatus)
    requires step.OrderWebhook? || step.SettleOrder?
    ensures Moves(l.rows, Next(l, step).rows, s) <==> Enters(l, step, s)
  {
  }

  lemma NextRows(l: Life, step: Step, tx: Transaction)
    requires TransactionOf(l, step) == tx
    ensures Next(l, step).rows == Apply(l.rows, tx)
  {
  }

  /** What a commit comes to, whoever asked for it. */
  lemma CommittedRows(l: Life, k: nat)
    ensures var r, r', f := l.rows, Next(l, CommitCancel(k)).rows, FlightAt(l, k);
            match f
            case SupplierCancelled(Customer(user), s) =>
              r' == Kept(r, Cancellation.Commit(r, s, user, s + r.booking.markupAmount > 0))
            case ReadyToCancel(user, s, canRefund) => r' == Kept(r, Cancellation.Commit(r, s, user, canRefund))
            case _ => r' == r
  {
    NextRows(l, CommitCancel(k), TransactionOf(l, CommitCancel(k)));
  }

  lemma CancellingMoves(l: Life, k: nat, s: BookingStatus)
    requires Consistent(l.rows)
    ensures Moves(l.rows, Next(l, CommitCancel(k)).rows, s) <==> Enters(l, CommitCancel(k), s)
  {
    var r' := Next(l, CommitCancel(k)).rows;
    CommittedRows(l, k);
    match FlightAt(l, k) {
      case SupplierCancelled(Customer(user), refund) =>
        CommitMoves(l.rows, refund, user, refund + l.rows.booking.markupAmount > 0);
      case ReadyToCancel(user, refund, canRefund) => CommitMoves(l.rows, refund, user, canRefund);
      case _ =>
    }
    CommitEnters(l, k, r', s);
  }

  lemma CommitEnters(l: Life, k: nat, r': Rows, s: BookingStatus)
    requires r'.booking.status != l.rows.booking.status <==>
               l.rows.booking.status == BookingStatus.Confirmed && Commits(l.rows, FlightAt(l, k))
    requires r'.booking.status != l.rows.booking.status ==> r'.booking.status == BookingStatus.Cancelled
    ensures Moves(l.rows, r', s) <==> Enters(l, CommitCancel(k), s)
  {
  }

  lemma RecordedRows(l: Life, k: nat)
    ensures var r, r', f := l.rows, Next(l, RecordExecution(k)).rows, FlightAt(l, k);
            r' == if f.GatewayDone? then RefundExecution.Record(r, f.row, f.providerRefundId) else r
  {
    NextRows(l, RecordExecution(k), TransactionOf(l, RecordExecution(k)));
  }

  lemma RecordingMoves(l: Life, k: nat, s: BookingStatus)
    requires Consistent(l.rows)
    ensures Moves(l.rows, Next(l, RecordExecution(k)).rows, s) <==> Enters(l, RecordExecution(k), s)
  {
    var r' := Next(l, RecordExecution(k)).rows;
    RecordedRows(l, k);
    if FlightAt(l, k).GatewayDone? {
      RecordMoves(l.rows, FlightAt(l, k).row, FlightAt(l, k).providerRefundId);
    }
    RecordEnters(l, k, r', s);
  }

  lemma RecordEnters(l: Life, k: nat, r': Rows, s: BookingStatus)
    requires r'.booking.status != l.rows.booking.status <==>
               l.rows.booking.status in {BookingStatus.Cancelled, OrderFailed} && FlightAt(l, k).GatewayDone?
               && Completes(l.rows, FlightAt(l, k).row, FlightAt(l, k).providerRefundId)
    requires r'.booking.status != l.rows.booking.status ==> r'.booking.status == Refunded
    ensures Moves(l.rows, r', s) <==> Enters(l, RecordExecution(k), s)
  {
  }

  lemma OthersMoveNothing(l: Life, step: Step, s: BookingStatus)
    requires !step.Passengers? && !step.Attempt? && !step.ExpirySweep? && !step.PaymentCaptured?
    requires !step.OrderWebhook? && !step.SettleOrder? && !step.CommitCancel? && !step.RecordExecution?
    ensures Moves(l.rows, Next(l, step).rows, s) <==> Enters(l, step, s)
  {
  }

  lemma StatusMoves(l: Life, step: Step, s: BookingStatus)
    requires Sound(l) && s != Pending
    ensures Moves(l.rows, Next(l, step).rows, s) <==> Enters(l, step, s)
  {
    if step.Passengers? || step.Attempt? || step.ExpirySweep? || step.PaymentCaptured? {
      CheckoutMoves(l, step, s);
    } else if step.OrderWebhook? || step.SettleOrder? {
      SettlingMoves(l, step, s);
    } else if step.CommitCancel? {
      CancellingMoves(l, step.flight, s);
    } else if step.RecordExecution? {
      RecordingMoves(l, step.flight, s);
    } else {
      OthersMoveNothing(l, step, s);
    }
  }

  lemma ConfirmingVisits(r: Rows, order: Order, s: BookingStatus)
    requires Consistent(r) && r.booking.status == Paid
    ensures Visits(Apply(r, Confirm(order)), s) == Visits(r, s) + if s == BookingStatus.Confirmed then 1 else 0
  {
    TransitionVisits(r, BookingStatus.Confirmed, s);
    assert Apply(r, Confirm(order)).history == Transition(r, BookingStatus.Confirmed).value.history;
  }

  lemma MovingVisits(r: Rows, r': Rows, s: BookingStatus)
    requires Consistent(r) && Consistent(r') && MovedByTransition(r, r')
    ensures Visits(r', s) == Visits(r, s) + if Moves(r, r', s) then 1 else 0
  {
    if r'.history != r.history {
      TransitionVisits(r, r'.booking.status, s);
    }
  }

  lemma VisitsFollowMoves(r: Rows, tx: Transaction, s: BookingStatus)
    requires Consistent(r)
    ensures Visits(Apply(r, tx), s) == Visits(r, s) + if Moves(r, Apply(r, tx), s) then 1 else 0
  {
    if tx.Confirm? {
      if r.booking.status == Paid {
        ConfirmingVisits(r, tx.order, s);
      }
    } else {
      ApplyConsistent(r, tx);
      HistoryMovesByTransition(r, tx);
      MovingVisits(r, Apply(r, tx), s);
    }
  }

  lemma NextVisits(l: Life, step: Step, s: BookingStatus)
    requires Sound(l) && s != Pending
    ensures Visits(Next(l, step).rows, s) == Visits(l.rows, s) + if Enters(l, step, s) then 1 else 0
  {
    StatusMoves(l, step, s);
    VisitsFollowMoves(l.rows, TransactionOf(l, step), s);
  }

  // Over whole runs.

  ghost predicate EntersAt(l: Life, steps: seq<Step>, i: nat, s: BookingStatus) {
    i < |steps| && Enters(Run(l, steps[..i]), steps[i], s)
  }

  ghost predicate Entered(l: Life, steps: seq<Step>, s: BookingStatus) {
    exists i: nat :: EntersAt(l, steps, i, s)
  }

  lemma EnteredSnoc(l: Life, steps: seq<Step>, n: nat, s: BookingStatus)
    requires |steps| == n + 1
    ensures Entered(l, steps, s) <==> Entered(l, steps[..n], s) || EntersAt(l, steps, n, s)
  {
    forall i: nat | i < n ensures EntersAt(l, steps, i, s) <==> EntersAt(l, steps[..n], i, s) {
      assert steps[..n][..i] == steps[..i];
    }
  }

  lemma {:induction false} VisitedIffEntered(l: Life, steps: seq<Step>, s: BookingStatus)
    requires Sound(l) && s != Pending && Visits(l.rows, s) == 0
    ensures 0 <= Visits(Run(l, steps).rows, s)
    ensures Visits(Run(l, steps).rows, s) >= 1 <==> Entered(l, steps, s)
  {
    if steps != [] {
      var n := |steps| - 1;
      VisitedIffEntered(l, steps[..n], s);
      RunSound(l, steps[..n]);
      NextVisits(Run(l, steps[..n]), steps[n], s);
      EnteredSnoc(l, steps, n, s);
    }
  }

  /** In every run a booking has been in a status exactly when one of the steps that lead there met it before. */
  lemma StatusIsEnteredExactlySo(baseAmount: nat, markupAmount: nat, currency: string, steps: seq<Step>,
                                 s: BookingStatus)
    requires s != Pending
    ensures var start := Start(baseAmount, markupAmount, currency);
            && (Visits(Run(start, steps).rows, s) == 1 <==> Entered(start, steps, s))
            && (Visits(Run(start, steps).rows, s) == 0 <==> !Entered(start, steps, s))
            && (Run(start, steps).rows.booking.status == s ==> Entered(start, steps, s))
  {
    var start := Start(baseAmount, markupAmount, currency);
    var l := Run(start, steps);
    EveryRunIsSound(baseAmount, markupAmount, currency, []);
    SumOne(HistoryRow(Pending, Pending), RowTo(s));
    VisitedIffEntered(start, steps, s);
    EveryRunIsSound(baseAmount, markupAmount, currency, steps);
    ChainVisitsOnce(l.rows.history, l.rows.booking.status, s);
  }

  /** And no second step does it again. */
  lemma NotEnteredAgain(baseAmount: nat, markupAmount: nat, currency: string, steps: seq<Step>, s: BookingStatus,
                        i: nat, j: nat)
    requires EntersAt(Start(baseAmount, markupAmount, currency), steps, i, s) && i < j
    ensures !EntersAt(Start(baseAmount, markupAmount, currency), steps, j, s)
  {
    var start := Start(baseAmount, markupAmount, currency);
    if j < |steps| {
      var before := Run(start, steps[..j]);
      assert steps[..j][..i] == steps[..i];
      assert EntersAt(start, steps[..j], i, s);
      StatusIsEnteredExactlySo(baseAmount, markupAmount, currency, steps[..j], s);
      EveryRunIsSound(baseAmount, markupAmount, currency, steps[..j]);
      NextSound(before, steps[j]);
      NextVisits(before, steps[j], s);
      ChainVisitsOnce(Next(before, steps[j]).rows.history, Next(before, steps[j]).rows.booking.status, s);
    }
  }

  // What is asked for outside the booking's own path.

  function ByHand(user: string, amount: int): Refund {
    Refund(amount, RefundPending, Some(user), None, None)
  }

  lemma ManualRefundAdds(r: Rows, user: string, amount: int)
    requires Consistent(r)
    ensures Apply(r, Transaction.ManualRefund(user, amount)) ==
            if RefundFits(r, amount) then r.(refunds := r.refunds + [ByHand(user, amount)]) else r
  {
    RefundAcceptedIffItFits(r, amount, Some(user), None);
  }

  /** In every run a refund by hand is accepted exactly when the money is there for it. */
  lemma ManualRefundAcceptedIffItFits(baseAmount: nat, markupAmount: nat, currency: string, steps: seq<Step>,
                                      user: string, amount: int)
    ensures var l := Run(Start(baseAmount, markupAmount, currency), steps);
            Next(l, Step.ManualRefund(user, amount)).rows ==
              if RefundFits(l.rows, amount)
              then l.rows.(refunds := l.rows.refunds + [ByHand(user, amount)]) else l.rows
  {
    var l := Run(Start(baseAmount, markupAmount, currency), steps);
    EveryRunIsSound(baseAmount, markupAmount, currency, steps);
    ManualRefundAdds(l.rows, user, amount);
    NextRows(l, Step.ManualRefund(user, amount), Transaction.ManualRefund(user, amount));
  }

  /** An adjustment moves the balance by its amount, whatever the booking's status, and nothing else. */
  lemma AdjustmentMovesTheBalance(l: Life, amount: int)
    ensures var l' := Next(l, Step.Adjust(amount));
            Balance(l'.rows) == Balance(l.rows) + amount && l' == l.(rows := l.rows.(ledger := l'.rows.ledger))
  {
    SumAppend(l.rows.ledger, LedgerEntry(Adjustment, amount, None), AnyEntry);
  }

  /** The booking is confirmed, and for its customer the payment is not marked refunded. */
  predicate Cancellable(r: Rows, actor: Cancellation.Actor) {
    && r.booking.status == BookingStatus.Confirmed
    && (actor.Customer? ==> r.payment.Some? && r.payment.value.status != PaymentRefunded)
  }

  lemma MayStartIffCancellable(r: Rows, actor: Cancellation.Actor)
    requires Consistent(r)
    ensures Cancellation.MayStart(r, actor) <==> Cancellable(r, actor)
  {
    ChainPassedPaid(r.history, r.booking.status);
  }

  lemma AskingToCancel(l: Life, actor: Cancellation.Actor)
    ensures Next(l, StartCancellation(actor)) ==
            if Cancellation.MayStart(l.rows, actor)
            then l.(flights := l.flights + [AwaitingCancellation(actor)]) else l
  {
  }

  /** In every run exactly such a booking is cancelled at the supplier. */
  lemma CancellationStartsIff(baseAmount: nat, markupAmount: nat, currency: string, steps: seq<Step>,
                              actor: Cancellation.Actor)
    ensures var l := Run(Start(baseAmount, markupAmount, currency), steps);
            Next(l, StartCancellation(actor)) ==
              if Cancellable(l.rows, actor) then l.(flights := l.flights + [AwaitingCancellation(actor)]) else l
  {
    var l := Run(Start(baseAmount, markupAmount, currency), steps);
    EveryRunIsSound(baseAmount, markupAmount, currency, steps);
    MayStartIffCancellable(l.rows, actor);
    AskingToCancel(l, actor);
  }

  // What the supplier answers decides.

  /** A process that waits for the supplier: an order call, with or without its order, or a listing scan. */
  predicate Waits(f: Flight) {
    f.AwaitingOrder? || f.OrderPlaced?
  }

  lemma AnswerMovesFlight(l: Life, k: nat, answer: Answer)
    requires k < |l.flights| && Waits(l.flights[k])
    ensures var l' := Next(l, SupplierAnswers(k, answer));
            && l' == l.(flights := l.flights[k := l'.flights[k]])
            && (answer.Found? ==> l'.flights[k].OrderKnown? && l'.flights[k].order == answer.order)
            && (answer.Refused? ==> l'.flights[k].OrderRefused?)
            && (answer.Unclear? ==> l'.flights[k] == Done)
  {
  }

  lemma SettledFlight(l: Life, k: nat)
    requires k < |l.flights| && l.rows.booking.status == Paid
    ensures var f, r' := l.flights[k], Next(l, SettleOrder(k)).rows;
            && (f.OrderKnown? ==>
                  r'.booking.status == BookingStatus.Confirmed && r'.booking.supplierOrderId == Some(f.order.id))
            && (f.OrderRefused? ==> r'.booking.status == OrderFailed)
            && (f.Done? ==> r' == l.rows)
  {
  }

  /** Whoever asked, a booking still paid is confirmed with the order found, given up on a refusal, and else left. */
  lemma AnswerDecides(l: Life, k: nat, answer: Answer)
    requires k < |l.flights| && Waits(l.flights[k]) && l.rows.booking.status == Paid
    ensures var r' := Run(l, [SupplierAnswers(k, answer), SettleOrder(k)]).rows;
            match answer
            case Found(order) =>
              r'.booking.status == BookingStatus.Confirmed && r'.booking.supplierOrderId == Some(order.id)
            case Refused => r'.booking.status == OrderFailed
            case Unclear => r' == l.rows
  {
    RunTwo(l, SupplierAnswers(k, answer), SettleOrder(k));
    AnswerMovesFlight(l, k, answer);
    SettledFlight(Next(l, SupplierAnswers(k, answer)), k);
  }

  // Checkout.

  /** A submission that is refused, for whatever reason, leaves no trace, and neither does a failing gateway. */
  lemma RefusedCheckoutChangesNothing(l: Life, step: Step)
    requires step.Passengers? || (step.Attempt? && !step.offerExpired)
    requires step.Passengers? ==> step != Passengers(false, true) || l.rows.booking.status != Pending
    requires step.Attempt? ==> !step.gatewayOk || l.rows.booking.status != AwaitingPayment
    ensures Next(l, step) == l
  {
  }

  ghost predicate Attempts(l: Life, steps: seq<Step>, i: nat) {
    i < |steps| && steps[i] == Attempt(false, true) && Run(l, steps[..i]).rows.booking.status == AwaitingPayment
  }

  ghost predicate Attempted(l: Life, steps: seq<Step>) {
    exists i: nat :: Attempts(l, steps, i)
  }

  lemma AttemptedSnoc(l: Life, steps: seq<Step>, n: nat)
    requires |steps| == n + 1
    ensures Attempted(l, steps) <==> Attempted(l, steps[..n]) || Attempts(l, steps, n)
  {
    forall i: nat | i < n ensures Attempts(l, steps, i) <==> Attempts(l, steps[..n], i) {
      assert steps[..n][..i] == steps[..i];
    }
  }

  lemma ApplyMakesPayment(r: Rows, tx: Transaction)
    ensures Apply(r, tx).payment.Some? <==>
            r.payment.Some? || (tx == StartPayment(false, true) && r.booking.status == AwaitingPayment)
  {
  }

  lemma NextPayment(l: Life, step: Step)
    ensures Next(l, step).rows.payment.Some? <==>
            l.rows.payment.Some? || (step == Attempt(false, true) && l.rows.booking.status == AwaitingPayment)
  {
    ApplyMakesPayment(l.rows, TransactionOf(l, step));
    NextRows(l, step, TransactionOf(l, step));
  }

  /** A payment row exists exactly when an attempt on an offer still valid reached the gateway. */
  lemma {:induction false} PaymentIffAttempted(l: Life, steps: seq<Step>)
    requires l.rows.payment.None?
    ensures Run(l, steps).rows.payment.Some? <==> Attempted(l, steps)
  {
    if steps != [] {
      var n := |steps| - 1;
      PaymentIffAttempted(l, steps[..n]);
      NextPayment(Run(l, steps[..n]), steps[n]);
      AttemptedSnoc(l, steps, n);
    }
  }

  /** In every run one more email step delivers what a confirmation still owes, and an earlier one nothing. */
  lemma OneEmailPerConfirmation(baseAmount: nat, markupAmount: nat, currency: string, steps: seq<Step>)
    ensures var l := Run(Start(baseAmount, markupAmount, currency), steps);
            Next(l, SendEmail).emailsSent == Visits(l.rows, BookingStatus.Confirmed)
  {
    var l := Run(Start(baseAmount, markupAmount, currency), steps);
    EveryRunIsSound(baseAmount, markupAmount, currency, steps);
    ChainVisitsOnce(l.rows.history, l.rows.booking.status, BookingStatus.Confirmed);
  }
}

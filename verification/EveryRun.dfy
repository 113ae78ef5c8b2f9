/** Safety over whole runs of one booking: what holds after any steps, in any order, from the start. */
module EveryRun {
  import opened Support
  import opened Records
  import opened BookingStateMachine
  import opened Consistency
  import opened Transactions
  import opened Lifecycle
  import RefundExecution
  import Cancellation

  ghost predicate CallsFit(l: Life) {
    && (forall row: nat :: IsSucceeded(l.rows, row) ==> row in l.gatewayCalls)
    && (forall k :: 0 <= k < |l.flights| && l.flights[k].GatewayDone? ==> l.flights[k].row in l.gatewayCalls)
  }

  /** Emails follow confirmations, and only a row the gateway was called for can be recorded. */
  ghost predicate Sound(l: Life) {
    && Consistent(l.rows)
    && l.emailsDue + l.emailsSent == Visits(l.rows, BookingStatus.Confirmed)
    && CallsFit(l)
  }

  /** Tables only grow, a succeeded refund row never changes, and a confirmed order stays the order. */
  ghost predicate Extends(r: Rows, r': Rows) {
    && SameTerms(r, r')
    && r.history <= r'.history
    && r.ledger <= r'.ledger
    && |r.refunds| <= |r'.refunds|
    && (forall row: nat :: IsSucceeded(r, row) ==> IsSucceeded(r', row) && r'.refunds[row] == r.refunds[row])
    && (Visits(r, BookingStatus.Confirmed) == 1 ==>
          && Visits(r', BookingStatus.Confirmed) == 1
          && r'.documents == r.documents
          && r'.booking.supplierOrderId == r.booking.supplierOrderId
          && r'.booking.bookingReference == r.booking.bookingReference)
  }

  /** Only a confirming path moves the count of confirmations, and only from `paid`. */
  lemma ApplyVisitsConfirmed(r: Rows, tx: Transaction)
    requires Consistent(r)
    ensures Visits(Apply(r, tx), BookingStatus.Confirmed) ==
            Visits(r, BookingStatus.Confirmed) + if tx.Confirm? && r.booking.status == Paid then 1 else 0
  {
    if tx.Confirm? {
      if r.booking.status == Paid {
        TransitionKeepsChain(r, BookingStatus.Confirmed);
        assert Apply(r, tx).history == Transition(r, BookingStatus.Confirmed).value.history;
      }
    } else if Apply(r, tx).history != r.history {
      HistoryMovesByTransition(r, tx);
      TransitionKeepsChain(r, Apply(r, tx).booking.status);
    }
  }

  ghost predicate MovedByTransition(r: Rows, r': Rows) {
    r'.history != r.history ==>
      && Transition(r, r'.booking.status).Success?
      && Transition(r, r'.booking.status).value.history == r'.history
      && r'.booking.status != r.booking.status
      && r'.booking.status != BookingStatus.Confirmed
  }

  lemma RecordMovesByTransition(r: Rows, row: nat, id: string)
    ensures MovedByTransition(r, RefundExecution.Record(r, row, id))
  {
    if RefundExecution.MayRecord(r, row, id) {
      var rolled := RefundExecution.RollUp(r, row, id);
      assert rolled.history == r.history && rolled.booking == r.booking;
    }
  }

  lemma CommitMovesByTransition(r: Rows, s: int, user: string, wanted: bool)
    ensures MovedByTransition(r, Kept(r, Cancellation.Commit(r, s, user, wanted)))
  {
  }

  lemma HistoryMovesByTransition(r: Rows, tx: Transaction)
    requires !tx.Confirm?
    ensures MovedByTransition(r, Apply(r, tx))
  {
    match tx
    case Record(row, id) => RecordMovesByTransition(r, row, id);
    case CustomerCancel(s, user) => CommitMovesByTransition(r, s, user, Cancellation.CustomerReceives(r, s) > 0);
    case AdminCancel(s, user, canRefund) => CommitMovesByTransition(r, s, user, canRefund);
    case _ =>
  }

  lemma SucceededRowsStay(r: Rows, tx: Transaction)
    ensures forall row: nat :: IsSucceeded(r, row) ==>
          IsSucceeded(Apply(r, tx), row) && Apply(r, tx).refunds[row] == r.refunds[row]
    ensures |r.refunds| <= |Apply(r, tx).refunds|
  {
  }

  lemma TablesGrow(r: Rows, tx: Transaction)
    ensures r.history <= Apply(r, tx).history && r.ledger <= Apply(r, tx).ledger
  {
  }

  lemma OnlyConfirmingSetsTheOrder(r: Rows, tx: Transaction)
    requires r.booking.status != Paid
    ensures var r' := Apply(r, tx);
            && r'.documents == r.documents
            && r'.booking.supplierOrderId == r.booking.supplierOrderId
            && r'.booking.bookingReference == r.booking.bookingReference
  {
  }

  lemma ApplyExtends(r: Rows, tx: Transaction)
    requires Consistent(r)
    ensures Extends(r, Apply(r, tx))
  {
    ApplyConsistent(r, tx);
    SucceededRowsStay(r, tx);
    TablesGrow(r, tx);
    ApplyVisitsConfirmed(r, tx);
    ChainPassedPaid(r.history, r.booking.status);
    if r.booking.status != Paid {
      OnlyConfirmingSetsTheOrder(r, tx);
    }
  }

  lemma CalledFlights(l: Life, step: Step, k: nat)
    requires CallsFit(l) && k < |Flights(l, step)| && Flights(l, step)[k].GatewayDone?
    ensures Flights(l, step)[k].row in GatewayCalls(l, step)
  {
  }

  lemma NextCalls(l: Life, step: Step)
    requires Sound(l)
    ensures CallsFit(Next(l, step))
  {
    var l', tx := Next(l, step), TransactionOf(l, step);
    forall row: nat | IsSucceeded(l'.rows, row) ensures row in l'.gatewayCalls {
      if !IsSucceeded(l.rows, row) {
        OnlyRecordingSucceeds(l.rows, tx, row);
        assert FlightAt(l, step.flight).GatewayDone? && FlightAt(l, step.flight).row == row;
      }
    }
    forall k | 0 <= k < |l'.flights| && l'.flights[k].GatewayDone? ensures l'.flights[k].row in l'.gatewayCalls {
      CalledFlights(l, step, k);
    }
  }

  lemma OnlyRecordingSucceeds(r: Rows, tx: Transaction, row: nat)
    requires IsSucceeded(Apply(r, tx), row) && !IsSucceeded(r, row)
    ensures tx.Record? && tx.row == row
  {
  }

  lemma NextSound(l: Life, step: Step)
    requires Sound(l)
    ensures Sound(Next(l, step))
  {
    ApplyConsistent(l.rows, TransactionOf(l, step));
    ApplyVisitsConfirmed(l.rows, TransactionOf(l, step));
    NextCalls(l, step);
  }

  lemma {:induction false} RunSound(l: Life, steps: seq<Step>)
    requires Sound(l)
    ensures Sound(Run(l, steps))
  {
    if steps != [] {
      RunSound(l, steps[..|steps| - 1]);
      NextSound(Run(l, steps[..|steps| - 1]), steps[|steps| - 1]);
    }
  }

  lemma EveryRunIsSound(baseAmount: nat, markupAmount: nat, currency: string, steps: seq<Step>)
    ensures Sound(Run(Start(baseAmount, markupAmount, currency), steps))
  {
    NewRowsConsistent(baseAmount, markupAmount, currency);
    RunSound(Start(baseAmount, markupAmount, currency), steps);
  }

  lemma {:induction false} RunExtends(l: Life, steps: seq<Step>)
    requires Sound(l)
    ensures Extends(l.rows, Run(l, steps).rows)
  {
    if steps != [] {
      var before := Run(l, steps[..|steps| - 1]);
      RunSound(l, steps[..|steps| - 1]);
      RunExtends(l, steps[..|steps| - 1]);
      ApplyExtends(before.rows, TransactionOf(before, steps[|steps| - 1]));
    }
  }

  // What the invariant means for a reader of the tables.

  /** An expired booking never holds captured money, and no booking changes status more than five times. */
  lemma HistoryInEveryRun(baseAmount: nat, markupAmount: nat, currency: string, steps: seq<Step>)
    ensures var r := Run(Start(baseAmount, markupAmount, currency), steps).rows;
            && Chain(r.history, r.booking.status)
            && |r.history| <= 6
            && (Payments(r) >= 1 <==> Visits(r, Paid) == 1)
            && (r.booking.status in {Pending, AwaitingPayment, BookingStatus.Failed} ==>
                  Payments(r) == 0 && r.refunds == [] && Balance(r) == SumBy(r.ledger, AdjustmentAmount))
  {
    var r := Run(Start(baseAmount, markupAmount, currency), steps).rows;
    EveryRunIsSound(baseAmount, markupAmount, currency, steps);
    ChainIsBounded(r.history, r.booking.status);
    if r.booking.status in {Pending, AwaitingPayment, BookingStatus.Failed} {
      NothingBeforePaid(r);
    }
  }

  lemma NothingBeforePaid(r: Rows)
    requires Consistent(r) && r.booking.status in {Pending, AwaitingPayment, BookingStatus.Failed}
    ensures Payments(r) == 0 && r.refunds == [] && Balance(r) == SumBy(r.ledger, AdjustmentAmount)
  {
    ChainPassedPaid(r.history, r.booking.status);
    ChainVisitsOnce(r.history, r.booking.status, BookingStatus.Cancelled);
    ChainVisitsOnce(r.history, r.booking.status, BookingStatus.Confirmed);
    assert Visits(r, BookingStatus.Cancelled) == 0 && Visits(r, BookingStatus.Confirmed) == 0;
    BalanceLaw(r);
  }

  /** Whoever wins the race out of `paid`, it is left once: one charge, one email, and never a refund beside them. */
  lemma PaidIsLeftOnce(baseAmount: nat, markupAmount: nat, currency: string, steps: seq<Step>)
    ensures var l := Run(Start(baseAmount, markupAmount, currency), steps);
            && Charges(l.rows) == Visits(l.rows, BookingStatus.Confirmed) <= 1
            && (forall e :: e in l.rows.ledger && e.kind == SupplierCharge ==> e.amount == -(baseAmount as int))
            && l.emailsSent <= Charges(l.rows)
            && Charges(l.rows) + SumBy(l.rows.refunds, AutomaticRow) <= 1
  {
    var l := Run(Start(baseAmount, markupAmount, currency), steps);
    EveryRunIsSound(baseAmount, markupAmount, currency, steps);
    NewRowsConsistent(baseAmount, markupAmount, currency);
    RunExtends(Start(baseAmount, markupAmount, currency), steps);
    ChainVisitsEachRankOnce(l.rows.history, l.rows.booking.status, BookingStatus.Confirmed, OrderFailed);
  }

  /** The stored documents and order are those of the step that confirmed, whatever came before or after it. */
  lemma WinnerKeepsItsDocuments(baseAmount: nat, markupAmount: nat, currency: string,
                                before: seq<Step>, winning: Step, after: seq<Step>)
    requires Confirms(Run(Start(baseAmount, markupAmount, currency), before), winning)
    ensures var l := Run(Start(baseAmount, markupAmount, currency), before);
            var order := TransactionOf(l, winning).order;
            var r := Run(Start(baseAmount, markupAmount, currency), before + [winning] + after).rows;
            && r.documents == order.documents
            && r.booking.supplierOrderId == Some(order.id)
            && r.booking.bookingReference == Some(order.reference)
  {
    var start := Start(baseAmount, markupAmount, currency);
    var l := Run(start, before);
    EveryRunIsSound(baseAmount, markupAmount, currency, before);
    WinnerIsStored(l, winning);
    RunSnoc(start, before, winning);
    RunConcat(start, before + [winning], after);
    RunExtends(Next(l, winning), after);
  }

  lemma WinnerIsStored(l: Life, winning: Step)
    requires Sound(l) && Confirms(l, winning)
    ensures var order, r := TransactionOf(l, winning).order, Next(l, winning).rows;
            && Sound(Next(l, winning))
            && Visits(r, BookingStatus.Confirmed) == 1
            && r.documents == order.documents
            && r.booking.supplierOrderId == Some(order.id)
            && r.booking.bookingReference == Some(order.reference)
  {
    NextSound(l, winning);
    ApplyVisitsConfirmed(l.rows, TransactionOf(l, winning));
    ChainVisitsOnce(l.rows.history, Paid, BookingStatus.Confirmed);
  }

  /** A succeeded refund row stays as it is and keeps exactly the one gateway entry it was recorded with. */
  lemma RefundIsRecordedOnce(baseAmount: nat, markupAmount: nat, currency: string, steps: seq<Step>, more: seq<Step>,
                             row: nat)
    ensures var l := Run(Start(baseAmount, markupAmount, currency), steps);
            var later := Run(Start(baseAmount, markupAmount, currency), steps + more);
            && SumBy(later.rows.ledger, GatewayRefundAmount) == -Succeeded(later.rows)
            && SumBy(later.rows.ledger, RefundRecorded(row)) == (if IsSucceeded(later.rows, row) then 1 else 0)
            && (IsSucceeded(l.rows, row) ==>
                  && IsSucceeded(later.rows, row)
                  && later.rows.refunds[row] == l.rows.refunds[row]
                  && row in l.gatewayCalls)
  {
    var start := Start(baseAmount, markupAmount, currency);
    EveryRunIsSound(baseAmount, markupAmount, currency, steps);
    EveryRunIsSound(baseAmount, markupAmount, currency, steps + more);
    RunConcat(start, steps, more);
    RunExtends(Run(start, steps), more);
    assert IsSucceeded(Run(start, steps + more).rows, row) || !IsSucceeded(Run(start, steps + more).rows, row);
  }

  /** Refunded always means refunded in full, manual refunds and retries included. */
  lemma RefundedIsCovered(baseAmount: nat, markupAmount: nat, currency: string, steps: seq<Step>)
    ensures var r := Run(Start(baseAmount, markupAmount, currency), steps).rows;
            r.booking.status == Refunded ==>
              && r.payment.Some?
              && Succeeded(r) >= r.payment.value.amount == baseAmount + markupAmount
  {
    EveryRunIsSound(baseAmount, markupAmount, currency, steps);
    NewRowsConsistent(baseAmount, markupAmount, currency);
    RunExtends(Start(baseAmount, markupAmount, currency), steps);
  }

  /** The ledger of a booking always adds up from what happened to it. */
  lemma {:induction false} EntriesAddUp(r: Rows, ledger: seq<LedgerEntry>)
    requires forall e :: e in ledger ==> EntryFits(r, e)
    ensures SumBy(ledger, AnyEntry) ==
            r.booking.Total() * SumBy(ledger, PaymentEntry) - r.booking.baseAmount * SumBy(ledger, ChargeEntry)
            + SumBy(ledger, SupplierRefundAmount) + SumBy(ledger, GatewayRefundAmount) + SumBy(ledger, AdjustmentAmount)
  {
    if ledger != [] {
      var earlier, total, base := ledger[..|ledger| - 1], r.booking.Total(), r.booking.baseAmount;
      EntriesAddUp(r, earlier);
      var payments, charges := SumBy(earlier, PaymentEntry), SumBy(earlier, ChargeEntry);
      assert total * (payments + 1) == total * payments + total;
      assert base * (charges + 1) == base * charges + base;
      assert EntryFits(r, ledger[|ledger| - 1]);
    }
  }

  lemma BalanceLaw(r: Rows)
    requires Consistent(r)
    ensures Balance(r) ==
            r.booking.Total() * Payments(r) - r.booking.baseAmount * Charges(r)
            + SumBy(r.ledger, SupplierRefundAmount) - Succeeded(r) + SumBy(r.ledger, AdjustmentAmount)
  {
    EntriesAddUp(r, r.ledger);
  }
}

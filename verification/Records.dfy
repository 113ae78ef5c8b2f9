/** The rows that belong to one booking, as values and as the tables the services update in place. */
module Records {
  import opened Support

  datatype BookingStatus =
    | Pending
    | AwaitingPayment
    | Paid
    | Confirmed
    | OrderFailed
    | Cancelled
    | Failed
    | Refunded

  datatype PaymentStatus =
    | PaymentPending
    | PaymentSucceeded
    | PaymentFailed
    | PaymentRefunded
    | PaymentPartiallyRefunded

  datatype RefundStatus = RefundPending | RefundSucceeded | RefundFailed

  datatype EntryType = CustomerPayment | GatewayRefund | SupplierCharge | SupplierRefund | Adjustment

  datatype Error =
    | NotFound
    | IllegalTransition
    | ValidationError
    | OfferExpired
    | SupplierUnavailable
    | AttemptNotFound
    | AmountMismatch
    | Unauthenticated
    | ServerError

  datatype Document = Document(kind: string, identifier: string)

  datatype Order = Order(id: string, reference: string, documents: seq<Document>)

  datatype Booking = Booking(
    status: BookingStatus,
    baseAmount: nat,
    markupAmount: nat,
    currency: string,
    supplierOrderId: Option<string>,
    bookingReference: Option<string>)
  {
    /** The table's check constraint keeps total_amount equal to this sum. */
    function Total(): nat {
      baseAmount + markupAmount
    }
  }

  datatype HistoryRow = HistoryRow(from: BookingStatus, to: BookingStatus)

  datatype Payment = Payment(status: PaymentStatus, amount: nat)

  /** `initiatedBy` is None only for the automatic refund of a failed order. */
  datatype Refund = Refund(
    amount: int,
    status: RefundStatus,
    initiatedBy: Option<string>,
    supplierRefund: Option<int>,
    providerRefundId: Option<string>)

  /** `refund` is the position of the refund row the entry refers to. */
  datatype LedgerEntry = LedgerEntry(kind: EntryType, amount: int, refund: Option<nat>)

  datatype Rows = Rows(
    booking: Booking,
    history: seq<HistoryRow>,
    payment: Option<Payment>,
    refunds: seq<Refund>,
    ledger: seq<LedgerEntry>,
    documents: seq<Document>)

  function NewRows(baseAmount: nat, markupAmount: nat, currency: string): Rows {
    Rows(Booking(Pending, baseAmount, markupAmount, currency, None, None),
         [HistoryRow(Pending, Pending)], None, [], [], [])
  }

  // Weights over the ledger, the refund table and the history.

  function AnyEntry(e: LedgerEntry): int { e.amount }

  function PaymentEntry(e: LedgerEntry): int { if e.kind == CustomerPayment then 1 else 0 }

  function ChargeEntry(e: LedgerEntry): int { if e.kind == SupplierCharge then 1 else 0 }

  function AdjustmentEntry(e: LedgerEntry): int { if e.kind == Adjustment then 1 else 0 }

  function SupplierRefundAmount(e: LedgerEntry): int { if e.kind == SupplierRefund then e.amount else 0 }

  function GatewayRefundAmount(e: LedgerEntry): int { if e.kind == GatewayRefund then e.amount else 0 }

  function AdjustmentAmount(e: LedgerEntry): int { if e.kind == Adjustment then e.amount else 0 }

  function RefundRecorded(row: nat): LedgerEntry -> int {
    (e: LedgerEntry) => if e.kind == GatewayRefund && e.refund == Some(row) then 1 else 0
  }

  function SucceededAmount(r: Refund): int { if r.status == RefundSucceeded then r.amount else 0 }

  function CommittedAmount(r: Refund): int { if r.status != RefundFailed then r.amount else 0 }

  function AutomaticRow(r: Refund): int { if r.initiatedBy.None? then 1 else 0 }

  /** Only the two cancellation paths fill in the supplier's part of a refund. */
  function ManualRow(r: Refund): int { if r.initiatedBy.Some? && r.supplierRefund.None? then 1 else 0 }

  function RowTo(status: BookingStatus): HistoryRow -> int {
    (h: HistoryRow) => if h.to == status then 1 else 0
  }

  function Balance(r: Rows): int { SumBy(r.ledger, AnyEntry) }

  function Payments(r: Rows): int { SumBy(r.ledger, PaymentEntry) }

  function Charges(r: Rows): int { SumBy(r.ledger, ChargeEntry) }

  function Succeeded(r: Rows): int { SumBy(r.refunds, SucceededAmount) }

  function Committed(r: Rows): int { SumBy(r.refunds, CommittedAmount) }

  function Visits(r: Rows, status: BookingStatus): int { SumBy(r.history, RowTo(status)) }

  /** The tables of one booking. Each service method below runs one transaction on them. */
  class Tables {
    var booking: Booking
    var history: seq<HistoryRow>
    var payment: Option<Payment>
    var refunds: seq<Refund>
    var ledger: seq<LedgerEntry>
    var documents: seq<Document>

    function Snapshot(): Rows
      reads this
    {
      Rows(booking, history, payment, refunds, ledger, documents)
    }

    constructor (baseAmount: nat, markupAmount: nat, currency: string)
      ensures Snapshot() == NewRows(baseAmount, markupAmount, currency)
    {
      booking := Booking(Pending, baseAmount, markupAmount, currency, None, None);
      history := [HistoryRow(Pending, Pending)];
      payment := None;
      refunds, ledger, documents := [], [], [];
    }

    /** A throw inside a transaction puts every row back. */
    method Rollback(saved: Rows)
      modifies this
      ensures Snapshot() == saved
    {
      booking, history, payment := saved.booking, saved.history, saved.payment;
      refunds, ledger, documents := saved.refunds, saved.ledger, saved.documents;
    }

    method CreateEntry(kind: EntryType, amount: int, refund: Option<nat>)
      modifies this`ledger
      ensures ledger == old(ledger) + [LedgerEntry(kind, amount, refund)]
    {
      ledger := ledger + [LedgerEntry(kind, amount, refund)];
    }
  }

  /** A transaction that committed left `expected`; one that threw left the rows as they were. */
  predicate Settles(outcome: Result<(), Error>, before: Rows, after: Rows, expected: Result<Rows, Error>) {
    match expected
    case Success(rows) => outcome.Success? && after == rows
    case Failure(e) => outcome == Failure(e) && after == before
  }
}

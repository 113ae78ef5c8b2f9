/** How a booking gets paid: passengers, one payment attempt, one capture. */
module PaidRun {
  import opened Support
  import opened Records
  import opened Lifecycle

  lemma PassengersAreSaved(baseAmount: nat, markupAmount: nat, currency: string)
    ensures var start := Start(baseAmount, markupAmount, currency);
            var r := start.rows;
            Next(start, Passengers(false, true)) ==
              start.(rows := r.(booking := r.booking.(status := AwaitingPayment),
                                history := r.history + [HistoryRow(Pending, AwaitingPayment)]))
  {
  }

  lemma AttemptAddsPayment(l: Life)
    requires l.rows.booking.status == AwaitingPayment && l.rows.payment.None?
    ensures Next(l, Attempt(false, true)) ==
            l.(rows := l.rows.(payment := Some(Payment(PaymentPending, l.rows.booking.Total()))))
  {
  }

  lemma CaptureMarksPaid(l: Life)
    requires l.rows.booking.status == AwaitingPayment && l.rows.payment.Some?
    ensures var l' := Next(l, PaymentCaptured);
            && l' == l.(rows := l'.rows)
            && l'.rows.booking == l.rows.booking.(status := Paid)
            && l'.rows.payment == Some(l.rows.payment.value.(status := PaymentSucceeded))
            && l'.rows.refunds == l.rows.refunds
  {
  }

  const PAYING: seq<Step> := [Passengers(false, true), Attempt(false, true), PaymentCaptured]

  lemma PaidIsReachable(baseAmount: nat, markupAmount: nat, currency: string) returns (steps: seq<Step>)
    ensures steps == PAYING
    ensures var r := Run(Start(baseAmount, markupAmount, currency), steps).rows;
            && r.booking.status == Paid
            && r.payment == Some(Payment(PaymentSucceeded, baseAmount + markupAmount))
            && r.refunds == []
    ensures var l := Run(Start(baseAmount, markupAmount, currency), steps);
            l.flights == [] && l.supplierRefunds == [] && l.supplierOrders == []
            && l.rows.booking.baseAmount == baseAmount && l.rows.booking.markupAmount == markupAmount
  {
    var start := Start(baseAmount, markupAmount, currency);
    PassengersAreSaved(baseAmount, markupAmount, currency);
    RunSnoc(start, [], Passengers(false, true));
    steps := [] + [Passengers(false, true)];
    AttemptAddsPayment(Run(start, steps));
    RunSnoc(start, steps, Attempt(false, true));
    steps := steps + [Attempt(false, true)];
    CaptureMarksPaid(Run(start, steps));
    RunSnoc(start, steps, PaymentCaptured);
    steps := steps + [PaymentCaptured];
  }
}

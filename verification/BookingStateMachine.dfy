/** The legal-edge table of a booking and the history every transition leaves behind. */
module BookingStateMachine {
  import opened Support
  import opened Records

  function LegalTargets(from: BookingStatus): set<BookingStatus> {
    match from
    case Pending => {AwaitingPayment, Failed}
    case AwaitingPayment => {Paid, Failed}
    case Paid => {Confirmed, OrderFailed}
    case Confirmed => {Cancelled}
    case Cancelled => {Refunded}
    case OrderFailed => {Refunded}
    case Failed => {}
    case Refunded => {}
  }

  function Transition(r: Rows, to: BookingStatus): Result<Rows, Error> {
    if r.booking.status == to then
      Success(r)
    else if to !in LegalTargets(r.booking.status) then
      Failure(IllegalTransition)
    else
      Success(r.(booking := r.booking.(status := to),
                 history := r.history + [HistoryRow(r.booking.status, to)]))
  }

  method TransitionTo(db: Tables, to: BookingStatus) returns (outcome: Result<(), Error>)
    modifies db`booking, db`history
    ensures Settles(outcome, old(db.Snapshot()), db.Snapshot(), Transition(old(db.Snapshot()), to))
  {
    var from := db.booking.status;
    if from == to {
      return Success(());
    }
    if to !in LegalTargets(from) {
      return Failure(IllegalTransition);
    }
    db.booking := db.booking.(status := to);
    db.history := db.history + [HistoryRow(from, to)];
    return Success(());
  }

  /** Every legal edge climbs strictly, so a booking never returns to a status it left. */
  function Rank(s: BookingStatus): nat {
    match s
    case Pending => 0
    case AwaitingPayment => 1
    case Paid => 2
    case Confirmed => 3
    case OrderFailed => 3
    case Cancelled => 4
    case Failed => 5
    case Refunded => 5
  }

  /** A linked chain of legal edges from the opening row to the current status. */
  predicate Chain(history: seq<HistoryRow>, status: BookingStatus) {
    && |history| > 0
    && history[0] == HistoryRow(Pending, Pending)
    && (forall i :: 0 < i < |history| ==>
          history[i].from == history[i - 1].to && history[i].to in LegalTargets(history[i].from))
    && history[|history| - 1].to == status
  }

  lemma {:induction false} ChainIsBounded(history: seq<HistoryRow>, status: BookingStatus)
    requires Chain(history, status)
    ensures |history| <= Rank(status) + 1 <= 6
  {
    var n := |history| - 1;
    if n > 0 {
      ChainIsBounded(history[..n], history[n - 1].to);
    }
  }

  /** Two distinct statuses of one rank exclude each other, and each status is entered at most once. */
  lemma {:induction false} ChainVisitsEachRankOnce(history: seq<HistoryRow>, status: BookingStatus, a: BookingStatus,
                                                   b: BookingStatus)
    requires Chain(history, status) && a != b && Rank(a) == Rank(b)
    ensures 0 <= SumBy(history, RowTo(a)) && 0 <= SumBy(history, RowTo(b))
    ensures SumBy(history, RowTo(a)) + SumBy(history, RowTo(b)) <= (if Rank(a) <= Rank(status) then 1 else 0)
    ensures status == a ==> SumBy(history, RowTo(a)) == 1
  {
    var n := |history| - 1;
    if n > 0 {
      ChainVisitsEachRankOnce(history[..n], history[n - 1].to, a, b);
    }
  }

  lemma {:induction false} ChainVisitsOnce(history: seq<HistoryRow>, status: BookingStatus, s: BookingStatus)
    requires Chain(history, status)
    ensures 0 <= SumBy(history, RowTo(s)) <= (if Rank(s) <= Rank(status) then 1 else 0)
    ensures status == s ==> SumBy(history, RowTo(s)) == 1
  {
    var n := |history| - 1;
    if n > 0 {
      ChainVisitsOnce(history[..n], history[n - 1].to, s);
    }
  }

  /** Every status but the two ways of ending without money lies behind `paid`. */
  lemma {:induction false} ChainPassedPaid(history: seq<HistoryRow>, status: BookingStatus)
    requires Chain(history, status)
    ensures SumBy(history, RowTo(Paid)) == (if status in {Pending, AwaitingPayment, Failed} then 0 else 1)
    ensures SumBy(history, RowTo(Confirmed)) >= 1 ==> status in {Confirmed, Cancelled, Refunded}
    ensures SumBy(history, RowTo(OrderFailed)) >= 1 ==> status in {OrderFailed, Refunded}
    ensures status in {Confirmed, Cancelled} ==> SumBy(history, RowTo(Confirmed)) == 1
    ensures status == Cancelled ==> SumBy(history, RowTo(Cancelled)) == 1
    ensures status == Refunded ==> SumBy(history, RowTo(Confirmed)) == SumBy(history, RowTo(Cancelled))
    ensures status in {Pending, AwaitingPayment, Paid, Confirmed, OrderFailed, Failed} ==>
          SumBy(history, RowTo(Cancelled)) == 0
  {
    var n := |history| - 1;
    ChainVisitsOnce(history, status, Confirmed);
    ChainVisitsOnce(history, status, Cancelled);
    ChainVisitsOnce(history, status, OrderFailed);
    if n > 0 {
      ChainPassedPaid(history[..n], history[n - 1].to);
      ChainVisitsOnce(history[..n], history[n - 1].to, Confirmed);
      ChainVisitsOnce(history[..n], history[n - 1].to, Cancelled);
      ChainVisitsOnce(history[..n], history[n - 1].to, OrderFailed);
    }
  }

  lemma TransitionVisits(r: Rows, to: BookingStatus, s: BookingStatus)
    requires Chain(r.history, r.booking.status) && Transition(r, to).Success?
    ensures 0 <= Visits(r, s)
    ensures Visits(Transition(r, to).value, s) == Visits(r, s) + if s == to && r.booking.status != to then 1 else 0
  {
    ChainVisitsOnce(r.history, r.booking.status, s);
    if r.booking.status != to {
      SumAppend(r.history, HistoryRow(r.booking.status, to), RowTo(s));
    }
  }

  lemma TransitionKeepsChain(r: Rows, to: BookingStatus)
    requires Chain(r.history, r.booking.status)
    ensures Transition(r, to).Success? ==>
              var r' := Transition(r, to).value;
              && Chain(r'.history, r'.booking.status)
              && r'.booking.status == to
              && (forall s :: 0 <= Visits(r, s) &&
                    Visits(r', s) == Visits(r, s) + (if s == to && r.booking.status != to then 1 else 0))
  {
    if Transition(r, to).Success? {
      var r' := Transition(r, to).value;
      forall s
        ensures 0 <= Visits(r, s)
        ensures Visits(r', s) == Visits(r, s) + (if s == to && r.booking.status != to then 1 else 0)
      {
        TransitionVisits(r, to, s);
      }
    }
  }
}

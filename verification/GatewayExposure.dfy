/**
 * Exactly when one refund row can move its money twice: the gateway calls that already moved it, and those that
 * are still out and may yet do so.
 */
module GatewayExposure {
  import opened Support
  import opened Records
  import opened Lifecycle
  import opened Consistency
  import opened PaidRun
  import opened RefundBounds
  import RefundExecution

  function Awaiting(row: nat): Flight -> int {
    (f: Flight) => if f == AwaitingGateway(row) then 1 else 0
  }

  function Open(l: Life, row: nat): int {
    SumBy(l.flights, Awaiting(row))
  }

  function Exposure(l: Life, row: nat): int {
    Calls(l, row) + Open(l, row)
  }

  /** An execution that gets past its unlocked read. */
  predicate Launches(l: Life, step: Step, row: nat) {
    step == StartExecution(row) && RefundExecution.MayExecute(l.rows, row)
  }

  lemma OpenIsNatural(l: Life, row: nat)
    ensures 0 <= Open(l, row)
    ensures forall k :: 0 <= k < |l.flights| && l.flights[k] == AwaitingGateway(row) ==> 1 <= Open(l, row)
  {
    SumNonNegative(l.flights, Awaiting(row));
    forall k | 0 <= k < |l.flights| && l.flights[k] == AwaitingGateway(row) ensures 1 <= Open(l, row) {
      assert Awaiting(row)(l.flights[k]) == 1;
    }
  }

  lemma CallsMove(l: Life, step: Step, row: nat)
    ensures Calls(Next(l, step), row) ==
            Calls(l, row) + if MovesMoney(l, step) && FlightAt(l, step.flight) == AwaitingGateway(row) then 1 else 0
  {
    if MovesMoney(l, step) {
      var called := FlightAt(l, step.flight).row;
      assert multiset(l.gatewayCalls + [called]) == multiset(l.gatewayCalls) + multiset{called};
    }
  }

  lemma FlightMoves(l: Life, f: Flight, step: Step, row: nat)
    ensures Awaiting(row)(Moved(l, f, step)) <= Awaiting(row)(f)
    ensures (step.GatewayRefunds? || step.GatewayFails?) && f == AwaitingGateway(row) ==>
          Awaiting(row)(Moved(l, f, step)) == 0
  {
  }

  lemma OpenAfterMove(l: Life, step: Step, k: nat, row: nat)
    requires Mover(step) == Some(k)
    ensures Open(Next(l, step), row) <=
            Open(l, row) - if MovesMoney(l, step) && FlightAt(l, k) == AwaitingGateway(row) then 1 else 0
  {
    if k < |l.flights| {
      FlightMoves(l, l.flights[k], step, row);
      SumUpdate(l.flights, k, Moved(l, l.flights[k], step), Awaiting(row));
    }
  }

  lemma OpenAfterLaunch(l: Life, step: Step, row: nat)
    requires Mover(step).None?
    ensures Open(Next(l, step), row) == Open(l, row) + if Launches(l, step, row) then 1 else 0
  {
    var launched := Launched(l, step);
    assert launched.Some? && launched.value == AwaitingGateway(row) <==> Launches(l, step, row);
    if launched.Some? {
      SumAppend(l.flights, launched.value, Awaiting(row));
    }
  }

  /** A launch raises the exposure of its row by one, and nothing else raises it. */
  lemma NextExposure(l: Life, step: Step, row: nat)
    ensures Calls(l, row) <= Calls(Next(l, step), row)
    ensures if Launches(l, step, row) then Exposure(Next(l, step), row) == Exposure(l, row) + 1
            else Exposure(Next(l, step), row) <= Exposure(l, row)
  {
    CallsMove(l, step, row);
    match Mover(step)
    case Some(k) => OpenAfterMove(l, step, k, row);
    case None => OpenAfterLaunch(l, step, row);
  }

  // What the gateway may still do, whatever the service does next.

  predicate OnlyAnswers(steps: seq<Step>) {
    forall i :: 0 <= i < |steps| ==> steps[i].GatewayRefunds? || steps[i].GatewayFails?
  }

  lemma {:induction false} AnswersKeepExposure(l: Life, answers: seq<Step>, row: nat)
    requires OnlyAnswers(answers)
    ensures Calls(Run(l, answers), row) <= Exposure(Run(l, answers), row) <= Exposure(l, row)
  {
    OpenIsNatural(Run(l, answers), row);
    if answers != [] {
      var n := |answers| - 1;
      AnswersKeepExposure(l, answers[..n], row);
      NextExposure(Run(l, answers[..n]), answers[n], row);
    }
  }

  lemma {:induction false} SomeoneAwaits(flights: seq<Flight>, row: nat) returns (k: nat)
    requires SumBy(flights, Awaiting(row)) > 0
    ensures k < |flights| && flights[k] == AwaitingGateway(row)
  {
    var n := |flights| - 1;
    if flights[n] == AwaitingGateway(row) {
      k := n;
    } else {
      k := SomeoneAwaits(flights[..n], row);
    }
  }

  lemma ErrorAfterPaying(l: Life, k: nat, row: nat)
    requires FlightAt(l, k) == AwaitingGateway(row)
    ensures Next(l, GatewayFails(k, true)) ==
          l.(flights := l.flights[k := Done], gatewayCalls := l.gatewayCalls + [row])
  {
  }

  lemma OneIsPaid(l: Life, k: nat, row: nat)
    requires FlightAt(l, k) == AwaitingGateway(row)
    ensures var l' := Next(l, GatewayFails(k, true));
            Open(l', row) == Open(l, row) - 1 && Calls(l', row) == Calls(l, row) + 1
  {
    ErrorAfterPaying(l, k, row);
    assert multiset(l.gatewayCalls + [row]) == multiset(l.gatewayCalls) + multiset{row};
    SumUpdate(l.flights, k, Done, Awaiting(row));
  }

  lemma OneMorePaid(l: Life, row: nat) returns (answer: seq<Step>)
    requires Open(l, row) > 0
    ensures |answer| == 1 && OnlyAnswers(answer)
    ensures Open(Run(l, answer), row) == Open(l, row) - 1 && Exposure(Run(l, answer), row) == Exposure(l, row)
  {
    var k := SomeoneAwaits(l.flights, row);
    answer := [GatewayFails(k, true)];
    OneIsPaid(l, k, row);
    RunSnoc(l, [], answer[0]);
    assert [] + [answer[0]] == answer && Run(l, []) == l;
  }

  lemma AnswersConcat(l: Life, a: seq<Step>, b: seq<Step>)
    requires OnlyAnswers(a) && OnlyAnswers(b)
    ensures OnlyAnswers(a + b) && Run(l, a + b) == Run(Run(l, a), b)
  {
    RunConcat(l, a, b);
  }

  /** Every call that is still out can move its money, even if it never says so. */
  lemma {:induction false} ExposureCanBePaid(l: Life, row: nat, open: nat) returns (answers: seq<Step>)
    requires open == Open(l, row)
    ensures OnlyAnswers(answers) && Calls(Run(l, answers), row) == Exposure(l, row)
    decreases open
  {
    if open == 0 {
      answers := [];
    } else {
      var first := OneMorePaid(l, row);
      var more := ExposureCanBePaid(Run(l, first), row, open - 1);
      AnswersConcat(l, first, more);
      answers := first + more;
    }
  }

  ghost predicate CanPayTwice(l: Life, row: nat) {
    exists answers: seq<Step> :: OnlyAnswers(answers) && Calls(Run(l, answers), row) >= 2
  }

  lemma CanPayTwiceIffExposed(l: Life, row: nat)
    ensures CanPayTwice(l, row) <==> Exposure(l, row) >= 2
  {
    if Exposure(l, row) >= 2 {
      OpenIsNatural(l, row);
      var answers := ExposureCanBePaid(l, row, Open(l, row));
    }
    if answers: seq<Step> :| OnlyAnswers(answers) && Calls(Run(l, answers), row) >= 2 {
      AnswersKeepExposure(l, answers, row);
    }
  }

  // Over whole runs.

  ghost predicate NeverPaysTwice(l: Life, steps: seq<Step>, row: nat) {
    forall i :: 0 <= i <= |steps| ==> !CanPayTwice(Run(l, steps[..i]), row)
  }

  /** The check an execution leaves out: that no earlier call for the row moved its money or still may. */
  ghost predicate LaunchesUnexposed(l: Life, steps: seq<Step>, row: nat) {
    forall i :: 0 <= i < |steps| && Launches(Run(l, steps[..i]), steps[i], row) ==>
        Exposure(Run(l, steps[..i]), row) == 0
  }

  lemma {:induction false} UnexposedRun(l: Life, steps: seq<Step>, row: nat, n: nat)
    requires n <= |steps| && Exposure(l, row) == 0 && LaunchesUnexposed(l, steps, row)
    ensures 0 <= Exposure(Run(l, steps[..n]), row) <= 1
  {
    OpenIsNatural(Run(l, steps[..n]), row);
    if n > 0 {
      UnexposedRun(l, steps, row, n - 1);
      PrefixStep(l, steps, n - 1);
      NextExposure(Run(l, steps[..n - 1]), steps[n - 1], row);
    } else {
      assert steps[..0] == [];
    }
  }

  lemma UnexposedIffNeverTwice(l: Life, steps: seq<Step>, row: nat)
    requires Exposure(l, row) == 0
    ensures NeverPaysTwice(l, steps, row) <==> LaunchesUnexposed(l, steps, row)
  {
    if LaunchesUnexposed(l, steps, row) {
      forall i | 0 <= i <= |steps| ensures !CanPayTwice(Run(l, steps[..i]), row) {
        UnexposedRun(l, steps, row, i);
        CanPayTwiceIffExposed(Run(l, steps[..i]), row);
      }
    }
    if NeverPaysTwice(l, steps, row) {
      forall i | 0 <= i < |steps| && Launches(Run(l, steps[..i]), steps[i], row)
        ensures Exposure(Run(l, steps[..i]), row) == 0
      {
        PrefixStep(l, steps, i);
        OpenIsNatural(Run(l, steps[..i]), row);
        NextExposure(Run(l, steps[..i]), steps[i], row);
        assert !CanPayTwice(Run(l, steps[..i + 1]), row);
        CanPayTwiceIffExposed(Run(l, steps[..i + 1]), row);
      }
    }
  }

  /**
   * In any run, no refund row can ever move its money twice exactly when each of its executions starts with
   * nothing moved and nothing out: then no timeout, retry, give-up or overlap can do it.
   */
  lemma PaysAtMostOnceIffLaunchedUnexposed(baseAmount: nat, markupAmount: nat, currency: string, steps: seq<Step>,
                                           row: nat)
    ensures NeverPaysTwice(Start(baseAmount, markupAmount, currency), steps, row)
       <==> LaunchesUnexposed(Start(baseAmount, markupAmount, currency), steps, row)
  {
    UnexposedIffNeverTwice(Start(baseAmount, markupAmount, currency), steps, row);
  }

  // The two ways it happens although every execution starts with none of the row's executions unfinished.

  ghost predicate StartsIdle(l: Life, steps: seq<Step>, row: nat) {
    forall i :: 0 <= i < |steps| && steps[i] == StartExecution(row) ==> Idle(Run(l, steps[..i]), row)
  }

  lemma StartsIdleSnoc(l: Life, steps: seq<Step>, step: Step, row: nat)
    requires StartsIdle(l, steps, row) && (step == StartExecution(row) ==> Idle(Run(l, steps), row))
    ensures StartsIdle(l, steps + [step], row)
  {
    forall i | 0 <= i < |steps + [step]| && (steps + [step])[i] == StartExecution(row)
      ensures Idle(Run(l, (steps + [step])[..i]), row)
    {
      assert (steps + [step])[..i] == steps[..i];
      assert steps[..|steps|] == steps;
    }
  }

  lemma IdleRunExtends(l: Life, steps: seq<Step>, step: Step, row: nat, l': Life) returns (more: seq<Step>)
    requires StartsIdle(l, steps, row) && (step == StartExecution(row) ==> Idle(Run(l, steps), row))
    requires Next(Run(l, steps), step) == l'
    ensures more == steps + [step] && StartsIdle(l, more, row) && Run(l, more) == l'
  {
    more := steps + [step];
    StartsIdleSnoc(l, steps, step, row);
    RunSnoc(l, steps, step);
  }

  /** From an idle, pending row: one more execution, alone, recorded under this id. */
  lemma ExecutedAgain(l: Life, steps: seq<Step>, row: nat, id: string) returns (more: seq<Step>)
    requires StartsIdle(l, steps, row) && Idle(Run(l, steps), row)
    requires RefundExecution.MayRecord(Run(l, steps).rows, row, id)
    ensures StartsIdle(l, more, row)
    ensures Calls(Run(l, more), row) == Calls(Run(l, steps), row) + 1
    ensures Run(l, more).rows == RefundExecution.Record(Run(l, steps).rows, row, id)
  {
    var before := Run(l, steps);
    var n := |before.flights|;
    StartingAddsFlight(before, row);
    var launched := Next(before, StartExecution(row));
    AnswerIsKept(launched, n, row, id);
    var answered := Next(launched, GatewayRefunds(n, id));
    RecordingEndsFlight(answered, n, row, id);
    more := IdleRunExtends(l, steps, StartExecution(row), row, launched);
    more := IdleRunExtends(l, more, GatewayRefunds(n, id), row, answered);
    more := IdleRunExtends(l, more, RecordExecution(n), row, Next(answered, RecordExecution(n)));
    assert Run(l, more).gatewayCalls == before.gatewayCalls + [row];
    assert multiset(before.gatewayCalls + [row]) == multiset(before.gatewayCalls) + multiset{row};
  }

  /** A call times out after it moved the money, the job is retried alone, and the money moves again. */
  lemma ErringCallPaysTwice(l: Life, row: nat, id: string) returns (steps: seq<Step>)
    requires Idle(l, row) && RefundExecution.MayRecord(l.rows, row, id)
    ensures StartsIdle(l, steps, row)
    ensures Calls(Run(l, steps), row) == Calls(l, row) + 2
    ensures Run(l, steps).rows == RefundExecution.Record(l.rows, row, id) && IsSucceeded(Run(l, steps).rows, row)
  {
    var n := |l.flights|;
    StartingAddsFlight(l, row);
    var launched := Next(l, StartExecution(row));
    ErrorAfterPaying(launched, n, row);
    var failed := Next(launched, GatewayFails(n, true));
    steps := IdleRunExtends(l, [], StartExecution(row), row, launched);
    steps := IdleRunExtends(l, steps, GatewayFails(n, true), row, failed);
    assert failed.flights == l.flights + [Done];
    assert multiset(l.gatewayCalls + [row]) == multiset(l.gatewayCalls) + multiset{row};
    steps := ExecutedAgain(l, steps, row, id);
    RecordSettles(l.rows, row, id);
  }

  lemma GivingUpFailsRow(l: Life, row: nat)
    requires RefundExecution.MayExecute(l.rows, row)
    ensures var failed := l.rows.refunds[row].(status := RefundFailed);
            Next(l, MarkRefundFailed(row)) == l.(rows := l.rows.(refunds := l.rows.refunds[row := failed]))
  {
  }

  lemma RetryRestoresRow(l: Life, rows: Rows, row: nat)
    requires RefundExecution.MayExecute(rows, row)
    requires l.rows == rows.(refunds := rows.refunds[row := rows.refunds[row].(status := RefundFailed)])
    ensures Next(l, RetryRefund(row)) == l.(rows := rows)
  {
    var x := rows.refunds[row];
    assert rows.refunds[row := x.(status := RefundFailed)][row := x] == rows.refunds;
  }

  /** A row is given up while its call is out; the answer is not recorded, and a retry pays again. */
  lemma GivenUpCallPaysTwice(l: Life, row: nat, first: string, second: string) returns (steps: seq<Step>)
    requires Idle(l, row) && RefundExecution.MayRecord(l.rows, row, second)
    ensures StartsIdle(l, steps, row)
    ensures Calls(Run(l, steps), row) == Calls(l, row) + 2
    ensures Run(l, steps).rows == RefundExecution.Record(l.rows, row, second) && IsSucceeded(Run(l, steps).rows, row)
  {
    var n := |l.flights|;
    StartingAddsFlight(l, row);
    var launched := Next(l, StartExecution(row));
    GivingUpFailsRow(launched, row);
    var givenUp := Next(launched, MarkRefundFailed(row));
    AnswerIsKept(givenUp, n, row, first);
    var answered := Next(givenUp, GatewayRefunds(n, first));
    RecordingEndsFlight(answered, n, row, first);
    var skipped := Next(answered, RecordExecution(n));
    assert skipped.rows == givenUp.rows;
    RetryRestoresRow(skipped, l.rows, row);
    var retried := Next(skipped, RetryRefund(row));
    steps := IdleRunExtends(l, [], StartExecution(row), row, launched);
    steps := IdleRunExtends(l, steps, MarkRefundFailed(row), row, givenUp);
    steps := IdleRunExtends(l, steps, GatewayRefunds(n, first), row, answered);
    steps := IdleRunExtends(l, steps, RecordExecution(n), row, skipped);
    steps := IdleRunExtends(l, steps, RetryRefund(row), row, retried);
    assert retried.flights == l.flights + [Done];
    assert multiset(l.gatewayCalls + [row]) == multiset(l.gatewayCalls) + multiset{row};
    steps := ExecutedAgain(l, steps, row, second);
    RecordSettles(l.rows, row, second);
  }

  // All three ways are runs from the start.

  lemma StartsIdleConcat(l: Life, a: seq<Step>, b: seq<Step>, row: nat)
    requires StartsIdle(l, a, row) && StartsIdle(Run(l, a), b, row)
    ensures StartsIdle(l, a + b, row) && Run(l, a + b) == Run(Run(l, a), b)
  {
    RunConcat(l, a, b);
    forall i | 0 <= i < |a + b| && (a + b)[i] == StartExecution(row) ensures Idle(Run(l, (a + b)[..i]), row) {
      if i < |a| {
        assert (a + b)[..i] == a[..i];
      } else {
        assert (a + b)[..i] == a + b[..i - |a|];
        RunConcat(l, a, b[..i - |a|]);
      }
    }
  }

  lemma RefundIsAdded(l: Life, n: nat)
    requires l.rows.payment == Some(Payment(PaymentSucceeded, n)) && n > 0 && l.rows.refunds == [] && l.flights == []
    ensures var l' := Next(l, Step.ManualRefund("admin", n));
            l'.rows.payment.Some? && l'.rows.refunds == [ByHand(n, RefundPending)] && l'.flights == []
  {
    RefundedByHand(l, n);
  }

  /** Paid, and one refund created by hand. */
  lemma PendingIsReachable(n: nat) returns (steps: seq<Step>)
    requires n > 0
    ensures StartsIdle(Start(n, 0, "USD"), steps, 0)
    ensures var l := Run(Start(n, 0, "USD"), steps);
            l.rows.payment.Some? && l.rows.refunds == [ByHand(n, RefundPending)] && l.flights == []
  {
    var start := Start(n, 0, "USD");
    var paying := PaidIsReachable(n, 0, "USD");
    var paid := Run(start, paying);
    RefundIsAdded(paid, n);
    steps := IdleRunExtends(start, paying, Step.ManualRefund("admin", n), 0, Next(paid, Step.ManualRefund("admin", n)));
  }

  /** One refund of everything that was paid moves its money twice, in each of the three ways. */
  lemma PayingTwiceIsReachable(n: nat) returns (erring: seq<Step>, givenUp: seq<Step>, overlapping: seq<Step>)
    requires n > 0
    ensures var start := Start(n, 0, "USD");
            && StartsIdle(start, erring, 0) && StartsIdle(start, givenUp, 0)
            && forall steps :: steps in {erring, givenUp, overlapping} ==>
                 Calls(Run(start, steps), 0) >= 2 && IsSucceeded(Run(start, steps).rows, 0)
  {
    var start := Start(n, 0, "USD");
    var pending := PendingIsReachable(n);
    var l := Run(start, pending);
    var more := ErringCallPaysTwice(l, 0, "a");
    StartsIdleConcat(start, pending, more, 0);
    erring := pending + more;
    more := GivenUpCallPaysTwice(l, 0, "a", "b");
    StartsIdleConcat(start, pending, more, 0);
    givenUp := pending + more;
    overlapping := OverlappingIsReachable(n, pending);
  }

  lemma OverlappingIsReachable(n: nat, pending: seq<Step>) returns (steps: seq<Step>)
    requires var l := Run(Start(n, 0, "USD"), pending);
             l.rows.payment.Some? && l.rows.refunds == [ByHand(n, RefundPending)] && l.flights == []
    ensures Calls(Run(Start(n, 0, "USD"), steps), 0) >= 2 && IsSucceeded(Run(Start(n, 0, "USD"), steps).rows, 0)
  {
    var start := Start(n, 0, "USD");
    var l := Run(start, pending);
    StartingAddsFlight(l, 0);
    RunSnoc(start, pending, StartExecution(0));
    var launched := pending + [StartExecution(0)];
    var more := OverlappingExecutionsPayTwice(Run(start, launched), 0, 0, "a", "b");
    RunConcat(start, launched, more);
    steps := launched + more;
  }
}

/** One call that creates an order at the supplier: when it posts again, what it concludes, and how long it takes. */
module OrderCreation {
  import opened Support

  /** What happened to one POST. A lost one had no answer in time, yet may have created the order. */
  datatype Reply =
    | Lost(created: bool, ms: nat)
    | Answered(status: nat, readable: bool, created: bool, ms: nat)

  /** An unexpected outcome is a success answer that cannot be read. */
  datatype Outcome = Ordered | Definitive(status: nat) | Ambiguous | Unexpected

  const RETRY_DELAYS_MS: seq<nat> := [2000, 5000, 10000]

  const TIMEOUT_MS: nat := 130000

  const RECONCILIATION_WINDOW_MS: nat := 900000

  const LONGEST_CALL_MS: nat := 537000

  const LATEST_START_MS: nat := 363000

  predicate Unavailable(reply: Reply) {
    reply.Answered? && reply.status == 503
  }

  function Classify(reply: Reply): Outcome {
    match reply
    case Lost(_, _) => Ambiguous
    case Answered(status, readable, _, _) =>
      if 200 <= status < 300 then (if readable then Ordered else Unexpected)
      else if 400 <= status < 500 then Definitive(status)
      else Ambiguous
  }

  function Duration(reply: Reply): int { reply.ms }

  function Creation(reply: Reply): int { if reply.created then 1 else 0 }

  function Delay(ms: nat): int { ms }

  /** The time spent between the first n + 1 posts. */
  function Waits(n: nat): int
    requires n <= |RETRY_DELAYS_MS|
  {
    SumBy(RETRY_DELAYS_MS[..n], Delay)
  }

  lemma NextWait(n: nat)
    requires n < |RETRY_DELAYS_MS|
    ensures Waits(n + 1) == Waits(n) + RETRY_DELAYS_MS[n]
  {
    assert RETRY_DELAYS_MS[..n + 1] == RETRY_DELAYS_MS[..n] + [RETRY_DELAYS_MS[n]];
    SumAppend(RETRY_DELAYS_MS[..n], RETRY_DELAYS_MS[n], Delay);
  }

  /** The replies a call can end with. */
  predicate Conversation(replies: seq<Reply>) {
    && 1 <= |replies| <= 4
    && (forall i :: 0 <= i < |replies| - 1 ==> Unavailable(replies[i]))
    && (Unavailable(replies[|replies| - 1]) ==> |replies| == 4)
  }

  /** The time of these posts and of the first waits. */
  function Elapsed(replies: seq<Reply>, waits: nat): int
    requires waits <= |RETRY_DELAYS_MS|
  {
    SumBy(replies, Duration) + Waits(waits)
  }

  lemma NextPost(replies: seq<Reply>, reply: Reply, waits: nat)
    requires waits <= |RETRY_DELAYS_MS|
    ensures Elapsed(replies + [reply], waits) == Elapsed(replies, waits) + reply.ms
  {
    SumAppend(replies, reply, Duration);
  }

  ghost predicate AllUnavailable(replies: seq<Reply>, post: nat -> Reply) {
    forall i :: 0 <= i < |replies| ==> replies[i] == post(i) && Unavailable(replies[i])
  }

  /** The replies in order, and the time spent on them and on the waits between them. */
  method CreateOrder(post: nat -> Reply) returns (outcome: Outcome, replies: seq<Reply>, elapsed: int)
    ensures forall i :: 0 <= i < |replies| ==> replies[i] == post(i)
    ensures Conversation(replies)
    ensures outcome == Classify(replies[|replies| - 1])
    ensures elapsed == Elapsed(replies, |replies| - 1)
  {
    replies, elapsed := [], 0;
    assert RETRY_DELAYS_MS[..0] == [];
    while true
      invariant |replies| <= 3 && AllUnavailable(replies, post)
      invariant elapsed == Elapsed(replies, |replies|)
      decreases 4 - |replies|
    {
      var attempt := |replies|;
      var reply := post(attempt);
      NextPost(replies, reply, attempt);
      replies := replies + [reply];
      elapsed := elapsed + reply.ms;
      if reply.Lost? {
        return Ambiguous, replies, elapsed;
      }
      if reply.status != 503 || attempt == |RETRY_DELAYS_MS| {
        break;
      }
      NextWait(attempt);
      elapsed := elapsed + RETRY_DELAYS_MS[attempt];
    }
    var last := replies[|replies| - 1];
    if 200 <= last.status < 300 {
      outcome := if last.readable then Ordered else Unexpected;
    } else if 400 <= last.status < 500 {
      outcome := Definitive(last.status);
    } else {
      outcome := Ambiguous;
    }
  }

  /** The supplier's word: a rejection or a 503 created nothing, a success other than 202 created the order, in time. */
  predicate Promises(reply: Reply) {
    && reply.ms <= TIMEOUT_MS
    && (reply.Answered? && (reply.status == 503 || 400 <= reply.status < 500) ==> !reply.created)
    && (reply.Answered? && 200 <= reply.status < 300 && reply.status != 202 ==> reply.created)
  }

  ghost predicate AllPromise(replies: seq<Reply>) {
    forall i :: 0 <= i < |replies| ==> Promises(replies[i])
  }

  /** A supplier that keeps its word and, when it accepts an order, has created it too. */
  predicate Honest(reply: Reply) {
    Promises(reply) && (reply.Answered? && reply.status == 202 ==> reply.created)
  }

  ghost predicate AllHonest(replies: seq<Reply>) {
    forall i :: 0 <= i < |replies| ==> Honest(replies[i])
  }

  function Created(replies: seq<Reply>): int {
    SumBy(replies, Creation)
  }

  lemma {:induction false} UnavailableCreatesNothing(replies: seq<Reply>)
    requires AllPromise(replies) && forall i :: 0 <= i < |replies| ==> Unavailable(replies[i])
    ensures Created(replies) == 0
  {
    if replies != [] {
      UnavailableCreatesNothing(replies[..|replies| - 1]);
      assert Promises(replies[|replies| - 1]);
    }
  }

  /** What each outcome says about the orders this call left at the supplier. */
  lemma OutcomeTellsTheOrders(replies: seq<Reply>)
    requires Conversation(replies) && AllHonest(replies)
    ensures 0 <= Created(replies) <= 1
    ensures var outcome := Classify(replies[|replies| - 1]);
            && (outcome.Definitive? ==> Created(replies) == 0)
            && (outcome.Ordered? || outcome.Unexpected? ==> Created(replies) == 1)
            && (Created(replies) == 1 && outcome.Ambiguous? ==> !Unavailable(replies[|replies| - 1]))
  {
    assert forall i :: 0 <= i < |replies| ==> Honest(replies[i]);
    UnavailableCreatesNothing(replies[..|replies| - 1]);
  }

  lemma {:induction false} DurationIsBounded(replies: seq<Reply>)
    requires AllHonest(replies)
    ensures SumBy(replies, Duration) <= TIMEOUT_MS * |replies|
  {
    if replies != [] {
      DurationIsBounded(replies[..|replies| - 1]);
      assert Honest(replies[|replies| - 1]);
    }
  }

  /** The waits in front of the second, third and fourth post, added up. */
  lemma PostsAreSpaced()
    ensures Waits(0) == 0 && Waits(1) == 2000 && Waits(2) == 7000 && Waits(3) == 17000
  {
    assert RETRY_DELAYS_MS[..0] == [];
    NextWait(0);
    NextWait(1);
    NextWait(2);
  }

  /** Counted from its own start, a call ends well within the window. */
  lemma SettlesBeforeTheSweep(replies: seq<Reply>)
    requires Conversation(replies) && AllHonest(replies)
    ensures Elapsed(replies, |replies| - 1) <= LONGEST_CALL_MS == 537000 < RECONCILIATION_WINDOW_MS
  {
    DurationIsBounded(replies);
    PostsAreSpaced();
  }

  lemma LongestCall() returns (replies: seq<Reply>)
    ensures Conversation(replies) && AllHonest(replies) && Elapsed(replies, |replies| - 1) == LONGEST_CALL_MS
  {
    var x := Answered(503, false, false, TIMEOUT_MS);
    replies := [x, x, x, x];
    SumOne(x, Duration);
    SumAppend([x], x, Duration);
    SumAppend([x, x], x, Duration);
    SumAppend([x, x, x], x, Duration);
    assert [x] + [x] == [x, x] && [x, x] + [x] == [x, x, x] && [x, x, x] + [x] == replies;
    PostsAreSpaced();
  }

  /** The sweep takes bookings whose last write lies more than the window back. */
  predicate SweepMayLook(paidAt: int, now: int) {
    paidAt < now - RECONCILIATION_WINDOW_MS
  }

  ghost predicate OverBeforeTheSweep(paidAt: int, start: int) {
    forall replies: seq<Reply>, now: int ::
      Conversation(replies) && AllHonest(replies) && SweepMayLook(paidAt, now) ==>
        start + Elapsed(replies, |replies| - 1) < now
  }

  /**
   * The window counts from the move to paid, the call from when its job runs. Every call is over before the sweep
   * may look at its booking exactly when it starts within 363 seconds of the payment.
   */
  lemma OverBeforeTheSweepIffStartedInTime(paidAt: int, start: int)
    ensures OverBeforeTheSweep(paidAt, start) <==> start - paidAt <= LATEST_START_MS
  {
    if start - paidAt <= LATEST_START_MS {
      forall replies: seq<Reply>, now: int | Conversation(replies) && AllHonest(replies) && SweepMayLook(paidAt, now)
        ensures start + Elapsed(replies, |replies| - 1) < now
      {
        SettlesBeforeTheSweep(replies);
      }
    }
    if OverBeforeTheSweep(paidAt, start) {
      var replies := LongestCall();
      assert SweepMayLook(paidAt, paidAt + RECONCILIATION_WINDOW_MS + 1);
    }
  }

  // What a success answer is worth when the supplier may also accept an order for later.

  /** The code takes 202 for an order, though none need exist. */
  lemma AcceptedIsNotOrdered(ms: nat)
    requires ms <= TIMEOUT_MS
    ensures var replies := [Answered(202, true, false, ms)];
            && Conversation(replies) && AllPromise(replies)
            && Classify(replies[0]) == Ordered && Created(replies) == 0
  {
    SumOne(Answered(202, true, false, ms), Creation);
  }

  ghost predicate AlwaysOneOrder(status: nat) {
    forall replies: seq<Reply> :: Conversation(replies) && AllPromise(replies) && EndsWith(replies, status) ==>
        Created(replies) == 1
  }

  predicate EndsWith(replies: seq<Reply>, status: nat) {
    replies != [] && replies[|replies| - 1].Answered? && replies[|replies| - 1].status == status
  }

  /** A success status stands for exactly one order, in every call that ends with it, unless it is 202. */
  lemma SuccessMeansOneOrderUnlessAccepted(status: nat)
    requires 200 <= status < 300
    ensures AlwaysOneOrder(status) <==> status != 202
  {
    if status == 202 {
      AcceptedIsNotOrdered(0);
      assert EndsWith([Answered(202, true, false, 0)], 202);
    } else {
      forall replies: seq<Reply> | Conversation(replies) && AllPromise(replies) && EndsWith(replies, status)
        ensures Created(replies) == 1
      {
        UnavailableCreatesNothing(replies[..|replies| - 1]);
        assert Promises(replies[|replies| - 1]);
      }
    }
  }

  // What an error answer is worth.

  ghost predicate NeverAnOrder(status: nat) {
    forall replies: seq<Reply> :: Conversation(replies) && AllPromise(replies) && EndsWith(replies, status) ==>
        Created(replies) == 0
  }

  predicate MayHaveCreated(status: nat) {
    !(status == 503 || 400 <= status < 500)
  }

  lemma OneReplyMayCreate(status: nat)
    requires MayHaveCreated(status)
    ensures !NeverAnOrder(status)
  {
    var replies := [Answered(status, true, true, 0)];
    SumOne(replies[0], Creation);
    assert Conversation(replies) && AllPromise(replies) && EndsWith(replies, status) && Created(replies) == 1;
  }

  lemma RejectedCreatesNothing(status: nat)
    requires !MayHaveCreated(status)
    ensures NeverAnOrder(status)
  {
    forall replies: seq<Reply> | Conversation(replies) && AllPromise(replies) && EndsWith(replies, status)
      ensures Created(replies) == 0
    {
      UnavailableCreatesNothing(replies[..|replies| - 1]);
      assert Promises(replies[|replies| - 1]);
    }
  }

  /**
   * What a call concludes from its last answer is exactly what that answer proves, apart from a 503 that is left to
   * the sweep: a definite failure when no call that ends so has created anything, an order only when the answer
   * could be read too, and anything unknown otherwise.
   */
  lemma ConclusionIsWhatTheAnswerProves(status: nat, readable: bool, created: bool, ms: nat)
    ensures var outcome := Classify(Answered(status, readable, created, ms));
            && (outcome == Definitive(status) <==> status != 503 && NeverAnOrder(status))
            && (outcome == Ordered <==> readable && (AlwaysOneOrder(status) || status == 202))
            && (outcome == Unexpected <==> !readable && (AlwaysOneOrder(status) || status == 202))
            && (outcome == Ambiguous <==>
                  status == 503 || !(NeverAnOrder(status) || AlwaysOneOrder(status) || status == 202))
  {
    if MayHaveCreated(status) {
      OneReplyMayCreate(status);
    } else {
      RejectedCreatesNothing(status);
    }
    if 200 <= status < 300 {
      SuccessMeansOneOrderUnlessAccepted(status);
    } else {
      NoOrderIsPossible(status);
    }
  }

  /** Outside the success statuses a call may well end without an order. */
  lemma NoOrderIsPossible(status: nat)
    requires !(200 <= status < 300)
    ensures !AlwaysOneOrder(status)
  {
    var last := Answered(status, true, false, 0);
    var replies := if status == 503 then [last, last, last, last] else [last];
    assert Conversation(replies) && AllPromise(replies) && EndsWith(replies, status);
    if status == 503 {
      UnavailableCreatesNothing(replies);
    } else {
      SumOne(last, Creation);
    }
  }
}

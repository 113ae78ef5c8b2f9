/**
 * The outbound bucket that search and booking share, in five-hundredths of a token: it holds 100 tokens, a call
 * takes one, and one five-hundredth comes back every millisecond.
 */
module TokenBucket {
  import opened Support

  const CAPACITY: int := 50000

  const COST: int := 500

  datatype Stored = Stored(tokens: int, lastRefill: int)

  /** What is in the bucket now, computed from what was last written and when. */
  function Refilled(stored: Option<Stored>, now: int): int {
    match stored
    case None => CAPACITY
    case Some(s) => if s.tokens + (now - s.lastRefill) < CAPACITY then s.tokens + (now - s.lastRefill) else CAPACITY
  }

  function Admits(stored: Option<Stored>, now: int): bool {
    Refilled(stored, now) >= COST
  }

  /** A rejected call writes nothing, not even the refill it has just computed. */
  function AfterCheck(stored: Option<Stored>, now: int): Option<Stored> {
    if Admits(stored, now) then Some(Stored(Refilled(stored, now) - COST, now)) else stored
  }

  /** The shared key: the search service and the booking service each run this check on it. */
  class OutboundBucket {
    var stored: Option<Stored>

    constructor ()
      ensures stored == None
    {
      stored := None;
    }

    method Check(now: int) returns (admitted: bool)
      modifies this
      ensures admitted == Admits(old(stored), now)
      ensures stored == AfterCheck(old(stored), now)
    {
      var tokens := if stored.Some? then stored.value.tokens else CAPACITY;
      var lastRefill := if stored.Some? then stored.value.lastRefill else now;
      tokens := tokens + (now - lastRefill);
      if tokens > CAPACITY {
        tokens := CAPACITY;
      }
      if tokens < COST {
        return false;
      }
      stored := Some(Stored(tokens - COST, now));
      return true;
    }
  }

  // A bucket that really ticks, a millisecond at a time.

  function Tick(level: int, ms: nat): int {
    if ms == 0 then level
    else
      var before := Tick(level, ms - 1);
      if before < CAPACITY then before + 1 else CAPACITY
  }

  datatype Caller = Search | Booking

  datatype Call = Call(caller: Caller, at: int)

  ghost predicate InOrder(calls: seq<Call>, start: int) {
    && (forall i :: 0 <= i < |calls| ==> start <= calls[i].at)
    && (forall i, j :: 0 <= i < j < |calls| ==> calls[i].at <= calls[j].at)
  }

  /** The stored bucket after a run of calls, one after the other. */
  function StoredAfter(stored: Option<Stored>, calls: seq<Call>): Option<Stored> {
    if calls == [] then stored
    else AfterCheck(StoredAfter(stored, calls[..|calls| - 1]), calls[|calls| - 1].at)
  }

  function LastTime(calls: seq<Call>, start: int): int {
    if calls == [] then start else calls[|calls| - 1].at
  }

  /** The level of the ticking bucket when the last of the calls arrives, before it takes anything. */
  function Arriving(level: int, start: int, calls: seq<Call>): int
    requires InOrder(calls, start) && calls != []
    decreases |calls|, 0
  {
    var n := |calls| - 1;
    Tick(Ticking(level, start, calls[..n]), calls[n].at - LastTime(calls[..n], start))
  }

  /** The level of the ticking bucket after the calls; a call takes a token when a whole one is there. */
  function Ticking(level: int, start: int, calls: seq<Call>): int
    requires InOrder(calls, start)
    decreases |calls|, 1
  {
    if calls == [] then level
    else
      var before := Arriving(level, start, calls);
      if before >= COST then before - COST else before
  }

  /** Refilling lazily is refilling continuously. */
  lemma {:induction false} TickAdds(level: int, ms: nat)
    requires level <= CAPACITY
    ensures Tick(level, ms) == if level + ms < CAPACITY then level + ms else CAPACITY
  {
    if ms > 0 {
      TickAdds(level, ms - 1);
    }
  }

  lemma {:induction false} LazyLevelIsTicking(calls: seq<Call>, start: int)
    requires InOrder(calls, start)
    ensures Refilled(StoredAfter(None, calls), LastTime(calls, start)) == Ticking(CAPACITY, start, calls) <= CAPACITY
    ensures StoredAfter(None, calls).Some? ==> StoredAfter(None, calls).value.lastRefill <= LastTime(calls, start)
  {
    if calls != [] {
      var n := |calls| - 1;
      LazyLevelIsTicking(calls[..n], start);
      TickAdds(Ticking(CAPACITY, start, calls[..n]), calls[n].at - LastTime(calls[..n], start));
    }
  }

  /** Every call gets the decision the ticking bucket would give it. */
  lemma LazyDecidesAsTicking(calls: seq<Call>, start: int)
    requires InOrder(calls, start) && calls != []
    ensures var n := |calls| - 1;
            Admits(StoredAfter(None, calls[..n]), calls[n].at) <==> Arriving(CAPACITY, start, calls) >= COST
  {
    var n := |calls| - 1;
    LazyLevelIsTicking(calls[..n], start);
    TickAdds(Ticking(CAPACITY, start, calls[..n]), calls[n].at - LastTime(calls[..n], start));
  }

  // How many calls get through a window.

  /** Calls of both services count alike. */
  function Admitted(stored: Option<Stored>, calls: seq<Call>): nat {
    if calls == [] then 0
    else
      var n := |calls| - 1;
      Admitted(stored, calls[..n]) +
      if Admits(StoredAfter(stored, calls[..n]), calls[n].at) then 1 else 0
  }

  /** A bucket no run of calls could have left fuller than full, or behind the clock. */
  predicate Plausible(stored: Option<Stored>, now: int) {
    stored.Some? ==> 0 <= stored.value.tokens <= CAPACITY && stored.value.lastRefill <= now
  }

  lemma {:induction false} CallsSpendTokens(stored: Option<Stored>, calls: seq<Call>, start: int)
    requires Plausible(stored, start) && InOrder(calls, start)
    ensures Plausible(StoredAfter(stored, calls), LastTime(calls, start))
    ensures COST * Admitted(stored, calls) + Refilled(StoredAfter(stored, calls), LastTime(calls, start))
            <= Refilled(stored, start) + (LastTime(calls, start) - start)
  {
    if calls != [] {
      CallsSpendTokens(stored, calls[..|calls| - 1], start);
    }
  }

  /**
   * In any window of T milliseconds at most 100 + T/500 calls get through, whoever makes them and whatever
   * happened before: the window is the stretch `calls` of a longer run.
   */
  lemma WindowIsBounded(before: seq<Call>, calls: seq<Call>, start: int, T: nat)
    requires InOrder(before + calls, start)
    requires calls != [] && calls[|calls| - 1].at - calls[0].at <= T
    ensures Admitted(StoredAfter(None, before), calls) <= 100 + T / 500
  {
    var all := before + calls;
    assert InOrder(before, start) by {
      assert forall i :: 0 <= i < |before| ==> all[i] == before[i];
    }
    assert InOrder(calls, calls[0].at) by {
      assert forall i :: 0 <= i < |calls| ==> all[|before| + i] == calls[i];
    }
    CallsSpendTokens(None, before, start);
    assert before != [] ==> LastTime(before, start) == all[|before| - 1].at <= all[|before|].at == calls[0].at;
    assert all[|before|] == calls[0];
    CallsSpendTokens(StoredAfter(None, before), calls, calls[0].at);
  }

  /** A run from time 0 that leaves these tokens at this time, with so many calls admitted. */
  ghost predicate Leaves(calls: seq<Call>, tokens: int, last: int, admitted: nat) {
    && InOrder(calls, 0) && calls != [] && calls[0].at == 0 && calls[|calls| - 1].at == last
    && StoredAfter(None, calls) == Some(Stored(tokens, last))
    && Admitted(None, calls) == admitted
  }

  lemma FirstCall(c: Call)
    requires c.at == 0
    ensures Leaves([c], CAPACITY - COST, 0, 1)
  {
    assert [c][..0] == [];
  }

  lemma OneMore(calls: seq<Call>, c: Call, tokens: int, last: int, admitted: nat)
    requires Leaves(calls, tokens, last, admitted) && last <= c.at
    requires COST <= tokens + (c.at - last) <= CAPACITY
    ensures Leaves(calls + [c], tokens + (c.at - last) - COST, c.at, admitted + 1)
  {
    assert (calls + [c])[..|calls|] == calls;
  }

  lemma {:induction false} Burst(n: nat) returns (calls: seq<Call>)
    requires 0 < n <= 100
    ensures Leaves(calls, CAPACITY - COST * n, 0, n)
  {
    if n == 1 {
      calls := [Call(Search, 0)];
      FirstCall(Call(Search, 0));
    } else {
      calls := Burst(n - 1);
      OneMore(calls, Call(Search, 0), CAPACITY - COST * (n - 1), 0, n - 1);
      calls := calls + [Call(Search, 0)];
    }
  }

  /** A full bucket's worth at once, then one call each time a whole token has come back. */
  lemma {:induction false} BurstThenTrickle(m: nat) returns (calls: seq<Call>)
    ensures Leaves(calls, 0, 500 * m, 100 + m)
  {
    if m == 0 {
      calls := Burst(100);
    } else {
      calls := BurstThenTrickle(m - 1);
      OneMore(calls, Call(Booking, 500 * m), 0, 500 * (m - 1), 100 + (m - 1));
      calls := calls + [Call(Booking, 500 * m)];
    }
  }

  /** The bound is exact for every window length. */
  lemma BoundIsAttained(T: nat) returns (calls: seq<Call>)
    ensures InOrder(calls, 0) && calls != [] && calls[|calls| - 1].at - calls[0].at <= T
    ensures Admitted(None, calls) == 100 + T / 500
  {
    calls := BurstThenTrickle(T / 500);
  }
}

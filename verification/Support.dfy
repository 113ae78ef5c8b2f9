/** Shared vocabulary: optional values, failures, and sums over append-only tables. */
module Support {

  datatype Option<+T> = None | Some(value: T)

  datatype Result<+T, +E> = Success(value: T) | Failure(error: E) {
    predicate IsFailure() {
      Failure?
    }

    function PropagateFailure<U>(): Result<U, E>
      requires Failure?
    {
      Failure(error)
    }

    function Extract(): T
      requires Success?
    {
      value
    }
  }

  /** The sum of a weight over a table, newest row last. Counting is summing a 0/1 weight. */
  function SumBy<T>(s: seq<T>, weight: T -> int): int {
    if s == [] then 0 else SumBy(s[..|s| - 1], weight) + weight(s[|s| - 1])
  }

  lemma SumAppend<T>(s: seq<T>, x: T, weight: T -> int)
    ensures SumBy(s + [x], weight) == SumBy(s, weight) + weight(x)
  {
    assert (s + [x])[..|s|] == s;
  }

  lemma SumOne<T>(x: T, weight: T -> int)
    ensures SumBy([x], weight) == weight(x)
  {
    assert [x][..0] == [];
  }

  lemma {:induction false} SumUpdate<T>(s: seq<T>, i: nat, x: T, weight: T -> int)
    requires i < |s|
    ensures SumBy(s[i := x], weight) == SumBy(s, weight) - weight(s[i]) + weight(x)
  {
    var t, n := s[i := x], |s| - 1;
    if i == n {
      assert t[..n] == s[..n];
    } else {
      assert t[..n] == s[..n][i := x];
      SumUpdate(s[..n], i, x, weight);
    }
  }

  lemma {:induction false} SumConcat<T>(s: seq<T>, t: seq<T>, weight: T -> int)
    ensures SumBy(s + t, weight) == SumBy(s, weight) + SumBy(t, weight)
  {
    if t == [] {
      assert s + t == s;
    } else {
      var n := |t| - 1;
      assert (s + t)[..|s| + n] == s + t[..n];
      SumConcat(s, t[..n], weight);
    }
  }

  lemma {:induction false} SumNonNegative<T>(s: seq<T>, weight: T -> int)
    requires forall i :: 0 <= i < |s| ==> 0 <= weight(s[i])
    ensures 0 <= SumBy(s, weight)
    ensures forall i :: 0 <= i < |s| ==> weight(s[i]) <= SumBy(s, weight)
  {
    if s != [] {
      var n := |s| - 1;
      SumNonNegative(s[..n], weight);
      forall i | 0 <= i < |s| ensures weight(s[i]) <= SumBy(s, weight) {
        if i < n {
          assert s[..n][i] == s[i];
        }
      }
    }
  }

  lemma SubsetSize<T>(small: set<T>, large: set<T>)
    requires small <= large
    ensures |small| <= |large|
  {
    assert large == small + (large - small);
  }
}

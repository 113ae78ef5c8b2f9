/**
 * A user's bookings page by page, newest first. The table keeps creation times in microseconds; a cursor
 * carries the last row's time cut to milliseconds.
 */
module Pagination {
  import opened Support
  import opened Records

  datatype Listed = Listed(user: nat, createdAt: nat, id: nat)

  datatype Cursor = Cursor(time: nat, id: nat)

  datatype Page = Page(data: seq<Listed>, next: Option<Cursor>)

  /** Newest first, the larger id first among rows of one instant. */
  predicate Before(a: Listed, b: Listed) {
    a.createdAt > b.createdAt || (a.createdAt == b.createdAt && a.id > b.id)
  }

  predicate Passes(row: Listed, c: Cursor) {
    row.createdAt < c.time || (row.createdAt == c.time && row.id < c.id)
  }

  function CursorOf(row: Listed): Cursor {
    Cursor(row.createdAt / 1000 * 1000, row.id)
  }

  predicate Wanted(row: Listed, user: nat, c: Option<Cursor>) {
    row.user == user && (c.Some? ==> Passes(row, c.value))
  }

  function Filter(rows: seq<Listed>, user: nat, c: Option<Cursor>): seq<Listed> {
    if rows == [] then []
    else (if Wanted(rows[0], user, c) then [rows[0]] else []) + Filter(rows[1..], user, c)
  }

  function Insert(row: Listed, sorted: seq<Listed>): seq<Listed> {
    if sorted == [] || Before(row, sorted[0]) then [row] + sorted else [sorted[0]] + Insert(row, sorted[1..])
  }

  function Sort(rows: seq<Listed>): seq<Listed> {
    if rows == [] then [] else Insert(rows[0], Sort(rows[1..]))
  }

  /** The rows the database returns: WHERE, then ORDER BY, then at most `take` of them. */
  function Query(table: seq<Listed>, user: nat, c: Option<Cursor>, take: nat): seq<Listed> {
    var rows := Sort(Filter(table, user, c));
    if |rows| <= take then rows else rows[..take]
  }

  /** The whole listing of a user. */
  function Listing(table: seq<Listed>, user: nat): seq<Listed> {
    Sort(Filter(table, user, None))
  }

  /** The page a cursor leads to on a listing. */
  function PageAt(listing: seq<Listed>, limit: nat, c: Option<Cursor>): Page
    requires limit > 0
  {
    var rows := if c.None? then listing else Rest(listing, c.value);
    if |rows| <= limit then Page(rows, None) else Page(rows[..limit], Some(CursorOf(rows[limit - 1])))
  }

  function Rest(listing: seq<Listed>, c: Cursor): seq<Listed> {
    if listing == [] || Passes(listing[0], c) then listing else Rest(listing[1..], c)
  }

  /** Asking for no rows at all fails as soon as there is one: the cursor would be the last of an empty page. */
  method GetBookings(table: seq<Listed>, user: nat, limit: nat, c: Option<Cursor>) returns (r: Result<Page, Error>)
    requires Keyed(table)
    ensures r.Failure? <==> limit == 0 && Query(table, user, c, 1) != []
    ensures limit > 0 ==> r == Success(PageAt(Listing(table, user), limit, c))
  {
    var bookings := Query(table, user, c, limit + 1);
    QueryIsRest(table, user, c);
    var nextCursor: Option<Cursor> := None;
    if |bookings| > limit {
      assert bookings[..|bookings| - 1] == Sort(Filter(table, user, c))[..limit];
      bookings := bookings[..|bookings| - 1];
      if bookings == [] {
        return Failure(ServerError);
      }
      nextCursor := Some(CursorOf(bookings[|bookings| - 1]));
    }
    return Success(Page(bookings, nextCursor));
  }

  // The database's view of a cursor is the rest of the listing.

  predicate Keyed(rows: seq<Listed>) {
    forall i, j :: 0 <= i < j < |rows| ==> rows[i].id != rows[j].id
  }

  predicate Sorted(rows: seq<Listed>) {
    forall i, j :: 0 <= i < j < |rows| ==> Before(rows[i], rows[j])
  }

  lemma FirstStaysFirst(first: Listed, rest: seq<Listed>, row: Listed, inserted: seq<Listed>)
    requires Sorted([first] + rest) && Sorted(inserted) && Before(first, row)
    requires forall x :: x in inserted <==> x in rest || x == row
    ensures Sorted([first] + inserted)
  {
    forall k | 0 <= k < |inserted| ensures Before(first, inserted[k]) {
      assert inserted[k] in inserted;
      if inserted[k] in rest {
        var j :| 0 <= j < |rest| && rest[j] == inserted[k];
        assert Before(([first] + rest)[0], ([first] + rest)[j + 1]);
      }
    }
  }

  lemma RowBeforeAll(row: Listed, sorted: seq<Listed>)
    requires Sorted(sorted) && sorted != [] && Before(row, sorted[0])
    ensures Sorted([row] + sorted)
  {
    forall k | 0 <= k < |sorted| ensures Before(row, sorted[k]) {
      if k > 0 { assert Before(sorted[0], sorted[k]); }
    }
  }

  lemma {:induction false} InsertSorts(row: Listed, sorted: seq<Listed>)
    requires Sorted(sorted) && forall x :: x in sorted ==> x.id != row.id
    ensures Sorted(Insert(row, sorted))
    ensures multiset(Insert(row, sorted)) == multiset(sorted) + multiset{row}
    ensures forall x :: x in Insert(row, sorted) <==> x in sorted || x == row
  {
    if sorted != [] {
      assert sorted == [sorted[0]] + sorted[1..];
      if Before(row, sorted[0]) {
        RowBeforeAll(row, sorted);
      } else {
        assert sorted[0] in sorted;
        InsertSorts(row, sorted[1..]);
        FirstStaysFirst(sorted[0], sorted[1..], row, Insert(row, sorted[1..]));
      }
    }
  }

  /** The listing is the table's rows of the user, each once, in order. */
  lemma {:induction false} SortSorts(rows: seq<Listed>)
    requires Keyed(rows)
    ensures Sorted(Sort(rows)) && multiset(Sort(rows)) == multiset(rows)
    ensures forall x :: x in Sort(rows) <==> x in rows
  {
    if rows != [] {
      assert rows == [rows[0]] + rows[1..];
      SortSorts(rows[1..]);
      InsertSorts(rows[0], Sort(rows[1..]));
    }
  }

  lemma {:induction false} FilterKeeps(rows: seq<Listed>, user: nat, c: Option<Cursor>)
    requires Keyed(rows)
    ensures Keyed(Filter(rows, user, c))
    ensures forall x :: x in Filter(rows, user, c) <==> x in rows && Wanted(x, user, c)
  {
    if rows != [] {
      assert rows == [rows[0]] + rows[1..];
      FilterKeeps(rows[1..], user, c);
      var rest := Filter(rows[1..], user, c);
      forall j | 0 <= j < |rest| ensures rest[j].id != rows[0].id {
        assert rest[j] in rows[1..];
      }
    }
  }

  lemma SortCons(row: Listed, rows: seq<Listed>)
    ensures Sort([row] + rows) == Insert(row, Sort(rows))
  {
    assert ([row] + rows)[1..] == rows;
  }

  lemma {:induction false} InsertFilters(row: Listed, sorted: seq<Listed>, c: Cursor)
    requires Sorted(sorted) && forall x :: x in sorted ==> x.id != row.id
    ensures Rest(Insert(row, sorted), c) == if Passes(row, c) then Insert(row, Rest(sorted, c)) else Rest(sorted, c)
  {
    if sorted != [] {
      assert sorted == [sorted[0]] + sorted[1..];
      assert sorted[0] in sorted;
      if !Before(row, sorted[0]) {
        assert Insert(row, sorted)[1..] == Insert(row, sorted[1..]);
        InsertFilters(row, sorted[1..], c);
      } else {
        assert Insert(row, sorted)[1..] == sorted;
        RestOfPassed(row, sorted, c);
      }
    }
  }

  /** A row in front of a listing that does not pass leaves what passes of it unchanged. */
  lemma RestOfPassed(row: Listed, sorted: seq<Listed>, c: Cursor)
    requires sorted != [] && Before(row, sorted[0])
    ensures Passes(row, c) ==> Rest(sorted, c) == sorted
  {
  }

  /** One more row of the table, of this user or of another. */
  lemma SortedFilterStep(row: Listed, rows: seq<Listed>, user: nat, c: Cursor)
    requires Keyed([row] + rows)
    requires Sort(Filter(rows, user, Some(c))) == Rest(Sort(Filter(rows, user, None)), c)
    ensures Sort(Filter([row] + rows, user, Some(c))) == Rest(Sort(Filter([row] + rows, user, None)), c)
  {
    var table, all, passed := [row] + rows, Filter(rows, user, None), Filter(rows, user, Some(c));
    assert table[1..] == rows;
    assert Filter(table, user, None) == if row.user == user then [row] + all else all;
    assert Filter(table, user, Some(c)) == if row.user == user && Passes(row, c) then [row] + passed else passed;
    if row.user == user {
      assert Keyed(rows) by {
        forall i, j | 0 <= i < j < |rows| ensures rows[i].id != rows[j].id {
          assert table[i + 1].id != table[j + 1].id;
        }
      }
      FilterKeeps(rows, user, None);
      SortSorts(all);
      SortCons(row, all);
      SortCons(row, passed);
      forall x | x in Sort(all) ensures x.id != row.id {
        var k :| 0 <= k < |rows| && rows[k] == x;
        assert table[k + 1] == x;
      }
      InsertFilters(row, Sort(all), c);
    }
  }

  lemma {:induction false} SortedFilterIsRest(rows: seq<Listed>, user: nat, c: Cursor)
    requires Keyed(rows)
    ensures Sort(Filter(rows, user, Some(c))) == Rest(Sort(Filter(rows, user, None)), c)
  {
    if rows != [] {
      assert rows == [rows[0]] + rows[1..];
      SortedFilterIsRest(rows[1..], user, c);
      SortedFilterStep(rows[0], rows[1..], user, c);
    }
  }

  lemma QueryIsRest(table: seq<Listed>, user: nat, c: Option<Cursor>)
    requires Keyed(table)
    ensures Sort(Filter(table, user, c)) ==
            if c.None? then Listing(table, user) else Rest(Listing(table, user), c.value)
  {
    if c.Some? {
      SortedFilterIsRest(table, user, c.value);
    }
  }

  // Following the cursors from the first page.

  /** The place in the listing a cursor leads to. */
  function Stopped(listing: seq<Listed>, c: Cursor): nat {
    if listing == [] || Passes(listing[0], c) then 0 else 1 + Stopped(listing[1..], c)
  }

  function Skip(listing: seq<Listed>, c: Option<Cursor>): nat {
    match c
    case None => 0
    case Some(cursor) => Stopped(listing, cursor)
  }

  lemma {:induction false} RestIsSuffix(listing: seq<Listed>, c: Cursor)
    requires Sorted(listing)
    ensures var k := Stopped(listing, c);
            && k <= |listing| && Rest(listing, c) == listing[k..]
            && (forall j :: 0 <= j < k ==> !Passes(listing[j], c))
            && (forall j :: k <= j < |listing| ==> Passes(listing[j], c))
  {
    if listing != [] {
      if Passes(listing[0], c) {
        forall j | 0 < j < |listing| ensures Passes(listing[j], c) {
          assert Before(listing[0], listing[j]);
        }
      } else {
        RestIsSuffix(listing[1..], c);
        forall j | 0 <= j < |listing| ensures Passes(listing[j], c) <==> j >= Stopped(listing, c) {
          if j > 0 { assert listing[j] == listing[1..][j - 1]; }
        }
      }
    }
  }

  /** No row up to and including the cursor's own row passes it. */
  lemma CursorStopsAt(listing: seq<Listed>, p: nat)
    requires Sorted(listing) && p < |listing|
    ensures p < Stopped(listing, CursorOf(listing[p])) <= |listing|
  {
    var c := CursorOf(listing[p]);
    RestIsSuffix(listing, c);
    assert !Passes(listing[p], c);
  }

  function Follow(listing: seq<Listed>, limit: nat, c: Option<Cursor>): seq<Listed>
    requires Sorted(listing) && limit > 0
    decreases |listing| - Skip(listing, c)
  {
    var page := PageAt(listing, limit, c);
    if page.next.None? then
      page.data
    else
      NextPageIsFurther(listing, limit, c);
      page.data + Follow(listing, limit, page.next)
  }

  lemma PageIsSlice(listing: seq<Listed>, limit: nat, c: Option<Cursor>)
    requires Sorted(listing) && limit > 0
    ensures var k, page := Skip(listing, c), PageAt(listing, limit, c);
            && k <= |listing|
            && (|listing| - k <= limit ==> page == Page(listing[k..], None))
            && (|listing| - k > limit ==> page == Page(listing[k..k + limit], Some(CursorOf(listing[k + limit - 1]))))
  {
    if c.Some? {
      RestIsSuffix(listing, c.value);
    }
  }

  lemma NextPageIsFurther(listing: seq<Listed>, limit: nat, c: Option<Cursor>)
    requires Sorted(listing) && limit > 0 && PageAt(listing, limit, c).next.Some?
    ensures Skip(listing, c) + limit <= Skip(listing, PageAt(listing, limit, c).next) <= |listing|
  {
    PageIsSlice(listing, limit, c);
    CursorStopsAt(listing, Skip(listing, c) + limit - 1);
  }

  /** A page may end before row k only if row k still passes the cursor of the row before it. */
  predicate BoundaryFits(listing: seq<Listed>, k: nat)
    requires 0 < k < |listing|
  {
    Passes(listing[k], CursorOf(listing[k - 1]))
  }

  /** The boundaries of full pages that start at a row. */
  predicate BoundariesFit(listing: seq<Listed>, limit: nat, from: nat)
    requires limit > 0
    decreases |listing| - from
  {
    from + limit < |listing| ==> BoundaryFits(listing, from + limit) && BoundariesFit(listing, limit, from + limit)
  }

  lemma FollowUnfolds(listing: seq<Listed>, limit: nat, c: Option<Cursor>)
    requires Sorted(listing) && limit > 0
    ensures var k := Skip(listing, c);
            && k <= |listing|
            && (|listing| - k <= limit ==> Follow(listing, limit, c) == listing[k..])
            && (|listing| - k > limit ==>
                  Follow(listing, limit, c) ==
                      listing[k..k + limit] + Follow(listing, limit, Some(CursorOf(listing[k + limit - 1]))))
  {
    PageIsSlice(listing, limit, c);
  }

  lemma BoundaryIsNext(listing: seq<Listed>, p: nat)
    requires Sorted(listing) && p + 1 < |listing|
    ensures p + 1 <= Stopped(listing, CursorOf(listing[p])) <= |listing|
    ensures BoundaryFits(listing, p + 1) <==> Stopped(listing, CursorOf(listing[p])) == p + 1
  {
    CursorStopsAt(listing, p);
    RestIsSuffix(listing, CursorOf(listing[p]));
  }

  /** A full page completes the listing if its boundary fits and what follows is complete. */
  lemma PageThenRest(listing: seq<Listed>, limit: nat, k: nat, next: nat, tail: seq<Listed>)
    requires Sorted(listing) && limit > 0 && k + limit <= next <= |listing| && k + limit < |listing|
    requires BoundaryFits(listing, k + limit) <==> next == k + limit
    requires |tail| <= |listing| - next
    requires tail == listing[next..] <==> BoundariesFit(listing, limit, next)
    ensures |listing[k..k + limit] + tail| <= |listing| - k
    ensures listing[k..k + limit] + tail == listing[k..] <==> BoundariesFit(listing, limit, k)
  {
    var head := listing[k..k + limit];
    if next == k + limit {
      assert listing[k..] == head + listing[next..];
      if head + tail == listing[k..] {
        assert tail == (head + tail)[limit..] == listing[next..];
      }
    } else {
      assert |head + tail| < |listing[k..]|;
    }
  }

  /** Where the page after the one that starts at k starts. */
  function NextStart(listing: seq<Listed>, limit: nat, k: nat): nat
    requires limit > 0 && k + limit < |listing|
  {
    Stopped(listing, CursorOf(listing[k + limit - 1]))
  }

  function FollowAt(listing: seq<Listed>, limit: nat, k: nat): seq<Listed>
    requires Sorted(listing) && limit > 0 && k <= |listing|
    decreases |listing| - k
  {
    if |listing| - k <= limit then listing[k..]
    else
      BoundaryIsNext(listing, k + limit - 1);
      listing[k..k + limit] + FollowAt(listing, limit, NextStart(listing, limit, k))
  }

  lemma FollowAtUnfolds(listing: seq<Listed>, limit: nat, k: nat)
    requires Sorted(listing) && limit > 0 && k + limit < |listing|
    ensures k + limit <= NextStart(listing, limit, k) <= |listing|
    ensures FollowAt(listing, limit, k) ==
            listing[k..k + limit] + FollowAt(listing, limit, NextStart(listing, limit, k))
  {
    BoundaryIsNext(listing, k + limit - 1);
  }

  lemma {:induction false} FollowIsFollowAt(listing: seq<Listed>, limit: nat, c: Option<Cursor>, k: nat)
    requires Sorted(listing) && limit > 0 && k == Skip(listing, c)
    ensures k <= |listing| && Follow(listing, limit, c) == FollowAt(listing, limit, k)
    decreases |listing| - k
  {
    FollowUnfolds(listing, limit, c);
    if |listing| - k > limit {
      FollowAtUnfolds(listing, limit, k);
      FollowIsFollowAt(listing, limit, Some(CursorOf(listing[k + limit - 1])), NextStart(listing, limit, k));
    }
  }

  lemma {:induction false} FollowFrom(listing: seq<Listed>, limit: nat, k: nat)
    requires Sorted(listing) && limit > 0 && k <= |listing|
    ensures |FollowAt(listing, limit, k)| <= |listing| - k
    ensures FollowAt(listing, limit, k) == listing[k..] <==> BoundariesFit(listing, limit, k)
    decreases |listing| - k
  {
    if |listing| - k > limit {
      var next := NextStart(listing, limit, k);
      BoundaryIsNext(listing, k + limit - 1);
      FollowFrom(listing, limit, next);
      PageThenRest(listing, limit, k, next, FollowAt(listing, limit, next));
    }
  }

  lemma LaterRow(listing: seq<Listed>, from: nat, x: Listed) returns (j: nat)
    requires from <= |listing| && x in listing[from..]
    ensures from <= j < |listing| && listing[j] == x
  {
    var i :| 0 <= i < |listing[from..]| && listing[from..][i] == x;
    j := from + i;
  }

  lemma SortedConcat(listing: seq<Listed>, k: nat, m: nat, next: nat, tail: seq<Listed>)
    requires Sorted(listing) && k <= m <= next <= |listing| && Sorted(tail)
    requires forall x :: x in tail ==> x in listing[next..]
    ensures Sorted(listing[k..m] + tail)
  {
    var rows := listing[k..m] + tail;
    forall i, j | 0 <= i < j < |rows| ensures Before(rows[i], rows[j]) {
      if i < m - k <= j {
        var p := LaterRow(listing, next, rows[j]);
        assert Before(listing[k + i], listing[p]);
      }
    }
  }

  lemma {:induction false} FollowedRowsAreLater(listing: seq<Listed>, limit: nat, k: nat, x: Listed)
    requires Sorted(listing) && limit > 0 && k <= |listing| && x in FollowAt(listing, limit, k)
    ensures x in listing[k..]
    decreases |listing| - k
  {
    if |listing| - k > limit {
      var next := NextStart(listing, limit, k);
      FollowAtUnfolds(listing, limit, k);
      if x in listing[k..k + limit] {
        assert listing[k..] == listing[k..k + limit] + listing[k + limit..];
      } else {
        FollowedRowsAreLater(listing, limit, next, x);
        assert listing[k..] == listing[k..next] + listing[next..];
      }
    }
  }

  /** Even where rows are lost, none comes twice or out of order. */
  lemma {:induction false} NothingRepeats(listing: seq<Listed>, limit: nat, k: nat)
    requires Sorted(listing) && limit > 0 && k <= |listing|
    ensures Sorted(FollowAt(listing, limit, k))
    decreases |listing| - k
  {
    if |listing| - k > limit {
      var next := NextStart(listing, limit, k);
      FollowAtUnfolds(listing, limit, k);
      NothingRepeats(listing, limit, next);
      forall x | x in FollowAt(listing, limit, next) ensures x in listing[next..] {
        FollowedRowsAreLater(listing, limit, next, x);
      }
      SortedConcat(listing, k, k + limit, next, FollowAt(listing, limit, next));
    }
  }

  lemma {:induction false} WholeMillisecondsFit(listing: seq<Listed>, limit: nat, from: nat)
    requires Sorted(listing) && limit > 0 && forall row :: row in listing ==> row.createdAt % 1000 == 0
    ensures BoundariesFit(listing, limit, from)
    decreases |listing| - from
  {
    if from + limit < |listing| {
      var last := listing[from + limit - 1];
      assert last in listing && Before(last, listing[from + limit]);
      assert last.createdAt / 1000 * 1000 == last.createdAt;
      WholeMillisecondsFit(listing, limit, from + limit);
    }
  }

  /**
   * The pages of a user concatenate to the whole listing exactly when every page boundary falls where the next
   * row passes the cut cursor. Whole milliseconds always do.
   */
  lemma PagesCoverTheListing(table: seq<Listed>, user: nat, limit: nat)
    requires Keyed(table) && limit > 0
    ensures Sorted(Listing(table, user))
    ensures forall row :: row in Listing(table, user) <==> row in table && row.user == user
    ensures Sorted(Follow(Listing(table, user), limit, None))
    ensures Follow(Listing(table, user), limit, None) == Listing(table, user)
       <==> BoundariesFit(Listing(table, user), limit, 0)
    ensures (forall row :: row in table ==> row.createdAt % 1000 == 0) ==>
              Follow(Listing(table, user), limit, None) == Listing(table, user)
  {
    var listing := Listing(table, user);
    FilterKeeps(table, user, None);
    SortSorts(Filter(table, user, None));
    FollowIsFollowAt(listing, limit, None, 0);
    FollowFrom(listing, limit, 0);
    NothingRepeats(listing, limit, 0);
    if forall row :: row in table ==> row.createdAt % 1000 == 0 {
      WholeMillisecondsFit(listing, limit, 0);
    }
  }

  /** Two bookings of one millisecond, one row a page: the second is never listed. */
  lemma SameMillisecondIsLost(user: nat)
    ensures var table := [Listed(user, 1900, 1), Listed(user, 1500, 2)];
            Keyed(table) && Sorted(Listing(table, user)) && |Listing(table, user)| == 2
            && Follow(Listing(table, user), 1, None) == [Listed(user, 1900, 1)]
  {
    var a, b := Listed(user, 1900, 1), Listed(user, 1500, 2);
    var none: seq<Listed> := [];
    assert [a, b][1..] == [b] && [b][1..] == none;
    assert Filter([b], user, None) == [b];
    assert Filter([a, b], user, None) == [a, b];
    assert Sort([b]) == [b];
    assert Listing([a, b], user) == [a, b];
    assert CursorOf(a) == Cursor(1000, 1) && !Passes(a, CursorOf(a)) && !Passes(b, CursorOf(a));
    assert Stopped(none, CursorOf(a)) == 0;
    var c := CursorOf(a);
    assert !Passes([b][0], c);
    assert Stopped([b], c) == 1 + Stopped([b][1..], c);
    assert Stopped([b][1..], c) == Stopped(none, c);
    assert Rest([b], CursorOf(a)) == [] && Stopped([b], CursorOf(a)) == 1;
    assert Rest([a, b], CursorOf(a)) == [] && Stopped([a, b], CursorOf(a)) == 2;
    assert PageAt([a, b], 1, None) == Page([a], Some(CursorOf(a)));
    assert PageAt([a, b], 1, Some(CursorOf(a))) == Page([], None);
  }
}

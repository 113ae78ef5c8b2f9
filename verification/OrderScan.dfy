/**
 * Looking an order up in the supplier's listing, page by page, and what the reconciliation sweep makes of it.
 * A page may change between two requests, so the supplier answers each request on its own.
 */
module OrderScan {
  import opened Support
  import opened OrderCreation

  datatype Listed = Listed(id: string, key: Option<string>)

  datatype Reply = Broken | Page(data: seq<Listed>, after: Option<string>)

  /** The supplier's answer to the n-th request, which carries a cursor from the second page on. */
  type Supplier = (nat, Option<string>) -> Reply

  datatype Lookup = LookupFailed | Lookup(order: Option<Listed>, complete: bool)

  type Match = Listed -> bool

  const MAX_PAGES: nat := 40

  /** The first accepted order, as the array's own find returns it. */
  function Find(orders: seq<Listed>, matches: Match): Option<Listed> {
    if orders == [] then None
    else if matches(orders[0]) then Some(orders[0])
    else Find(orders[1..], matches)
  }

  /** No cursor and an empty one both end the listing. */
  function Cursor(page: Reply): Option<string>
    requires page.Page?
  {
    if page.after == Some("") then None else page.after
  }

  // Reading the whole listing first and searching it afterwards.

  datatype Ending = ListEnds | CapReached | Breaks

  datatype Listing = Listing(orders: seq<Listed>, pages: nat, ending: Ending)

  function ReadAll(supplier: Supplier, page: nat, after: Option<string>, maxPages: nat): Listing
    decreases maxPages - page
  {
    if page >= maxPages then
      Listing([], 0, CapReached)
    else
      match supplier(page, after)
      case Broken => Listing([], 0, Breaks)
      case Page(data, _) =>
        var cursor := Cursor(supplier(page, after));
        if cursor.None? then
          Listing(data, 1, ListEnds)
        else
          var rest := ReadAll(supplier, page + 1, cursor, maxPages);
          Listing(data + rest.orders, 1 + rest.pages, rest.ending)
  }

  function Verdict(listing: Listing, matches: Match): Lookup {
    var found := Find(listing.orders, matches);
    if found.Some? then Lookup(found, true)
    else if listing.ending.Breaks? then LookupFailed
    else Lookup(None, listing.ending.ListEnds?)
  }

  lemma {:induction false} FindConcat(a: seq<Listed>, b: seq<Listed>, matches: Match)
    ensures Find(a + b, matches) == if Find(a, matches).Some? then Find(a, matches) else Find(b, matches)
  {
    if a == [] {
      assert a + b == b;
    } else {
      assert (a + b)[1..] == a[1..] + b;
      FindConcat(a[1..], b, matches);
    }
  }

  /** The scan stops at the first match, and still agrees with searching everything it could have read. */
  method FindOrder(supplier: Supplier, matches: Match, maxPages: nat := MAX_PAGES) returns (lookup: Lookup)
    ensures lookup == Verdict(ReadAll(supplier, 0, None, maxPages), matches)
  {
    var after: Option<string> := None;
    for page := 0 to maxPages
      invariant Verdict(ReadAll(supplier, 0, None, maxPages), matches) ==
                Verdict(ReadAll(supplier, page, after, maxPages), matches)
    {
      var reply := supplier(page, after);
      if reply.Broken? {
        return LookupFailed;
      }
      var found := Find(reply.data, matches);
      var cursor := Cursor(reply);
      if cursor.Some? {
        FindConcat(reply.data, ReadAll(supplier, page + 1, cursor, maxPages).orders, matches);
      }
      if found.Some? {
        return Lookup(found, true);
      }
      if cursor.None? {
        return Lookup(None, true);
      }
      after := cursor;
    }
    return Lookup(None, false);
  }

  // What a lookup proves.

  lemma {:induction false} FindIsFirst(orders: seq<Listed>, matches: Match)
    ensures var found := Find(orders, matches);
            && (found.None? ==> forall i :: 0 <= i < |orders| ==> !matches(orders[i]))
            && (found.Some? ==> exists i :: 0 <= i < |orders| && orders[i] == found.value && matches(orders[i])
                                         && forall j :: 0 <= j < i ==> !matches(orders[j]))
  {
    if orders != [] && !matches(orders[0]) {
      FindIsFirst(orders[1..], matches);
      if Find(orders[1..], matches).Some? {
        var i :| 0 <= i < |orders[1..]| && orders[1..][i] == Find(orders, matches).value && matches(orders[1..][i])
                 && forall j :: 0 <= j < i ==> !matches(orders[1..][j]);
        assert orders[i + 1] == Find(orders, matches).value;
        forall j | 0 <= j < i + 1 ensures !matches(orders[j]) {
          if j > 0 { assert orders[1..][j - 1] == orders[j]; }
        }
      }
    }
  }

  lemma {:induction false} CapMeansEveryPage(supplier: Supplier, page: nat, after: Option<string>, maxPages: nat)
    ensures var all := ReadAll(supplier, page, after, maxPages);
            && (all.ending.CapReached? ==> all.pages == if page <= maxPages then maxPages - page else 0)
            && (page <= maxPages ==> all.pages <= maxPages - page)
    decreases maxPages - page
  {
    if page < maxPages {
      var reply := supplier(page, after);
      if reply.Page? && Cursor(reply).Some? {
        CapMeansEveryPage(supplier, page + 1, Cursor(reply), maxPages);
      }
    }
  }

  /** A listing that stands still, handed out in pages behind opaque cursors. */
  ghost predicate Serves(supplier: Supplier, orders: seq<Listed>, size: nat, cursors: nat -> string) {
    && (forall n: nat :: IsPageOf(supplier(n, None), orders, size, cursors, 0))
    && (forall n: nat, k: nat :: k <= |orders| ==> IsPageOf(supplier(n, Some(cursors(k))), orders, size, cursors, k))
    && (forall k: nat :: cursors(k) != "")
  }

  /** The last page has no cursor, or an empty one. */
  ghost predicate IsPageOf(reply: Reply, orders: seq<Listed>, size: nat, cursors: nat -> string, from: nat)
    requires from <= |orders|
  {
    || reply == PageOf(orders, size, cursors, from)
    || (from + size >= |orders| && reply == Page(orders[from..], Some("")))
  }

  function PageOf(orders: seq<Listed>, size: nat, cursors: nat -> string, from: nat): Reply
    requires from <= |orders|
  {
    if from + size >= |orders| then Page(orders[from..], None)
    else Page(orders[from..from + size], Some(cursors(from + size)))
  }

  /** How far a number of pages gets. */
  function Reach(orders: seq<Listed>, size: nat, from: nat, pages: nat): (r: nat)
    requires from <= |orders|
    ensures from <= r <= |orders|
    decreases pages
  {
    if pages == 0 || from + size >= |orders| then (if pages == 0 then from else |orders|)
    else Reach(orders, size, from + size, pages - 1)
  }

  lemma OnePageMore(size: nat, pages: nat)
    ensures size * (pages + 1) == size + size * pages && size * pages >= 0
  {
  }

  lemma {:induction false} ReachIsProduct(orders: seq<Listed>, size: nat, from: nat, pages: nat)
    requires from <= |orders|
    ensures var all := from + size * pages;
            Reach(orders, size, from, pages) == if pages == 0 then from else if all >= |orders| then |orders| else all
    decreases pages
  {
    if pages > 0 {
      OnePageMore(size, pages - 1);
      if from + size < |orders| {
        ReachIsProduct(orders, size, from + size, pages - 1);
      }
    }
  }

  lemma PageServed(supplier: Supplier, orders: seq<Listed>, size: nat, cursors: nat -> string,
                   page: nat, after: Option<string>, from: nat, maxPages: nat)
    requires Serves(supplier, orders, size, cursors) && from <= |orders| && page < maxPages
    requires after == (if page == 0 then None else Some(cursors(from))) && (page == 0 ==> from == 0)
    ensures ReadAll(supplier, page, after, maxPages) ==
            if from + size >= |orders| then Listing(orders[from..], 1, ListEnds)
            else var rest := ReadAll(supplier, page + 1, Some(cursors(from + size)), maxPages);
                 Listing(orders[from..from + size] + rest.orders, 1 + rest.pages, rest.ending)
  {
    assert IsPageOf(supplier(page, after), orders, size, cursors, from);
  }

  lemma SliceSplits(orders: seq<Listed>, from: nat, middle: nat, end: nat)
    requires from <= middle <= end <= |orders|
    ensures orders[from..end] == orders[from..middle] + orders[middle..end]
  {
  }

  lemma {:induction false} ReadingServed(supplier: Supplier, orders: seq<Listed>, size: nat, cursors: nat -> string,
                                         page: nat, after: Option<string>, from: nat, maxPages: nat)
    requires Serves(supplier, orders, size, cursors)
    requires from <= |orders| && page <= maxPages && (page < maxPages || from < |orders|)
    requires after == (if page == 0 then None else Some(cursors(from))) && (page == 0 ==> from == 0)
    ensures var all := ReadAll(supplier, page, after, maxPages);
            var reach := Reach(orders, size, from, maxPages - page);
            && all.orders == orders[from..reach]
            && all.ending == if reach == |orders| then ListEnds else CapReached
    decreases maxPages - page
  {
    if page < maxPages {
      PageServed(supplier, orders, size, cursors, page, after, from, maxPages);
      if from + size < |orders| {
        ReadingServed(supplier, orders, size, cursors, page + 1, Some(cursors(from + size)), from + size, maxPages);
        SliceSplits(orders, from, from + size, Reach(orders, size, from, maxPages - page));
      }
    }
  }

  /**
   * On a listing that stands still the scan is a search of its first maxPages pages: absence is only reported
   * when those are the whole listing, and a match behind them is never reported at all.
   */
  lemma ScanOfServedListing(supplier: Supplier, orders: seq<Listed>, size: nat, cursors: nat -> string,
                            maxPages: nat, matches: Match)
    requires Serves(supplier, orders, size, cursors) && maxPages > 0
    ensures var reach := if size * maxPages >= |orders| then |orders| else size * maxPages;
            var lookup := Verdict(ReadAll(supplier, 0, None, maxPages), matches);
            lookup == if Find(orders[..reach], matches).Some? then Lookup(Find(orders[..reach], matches), true)
                      else Lookup(None, reach == |orders|)
  {
    ReadingServed(supplier, orders, size, cursors, 0, None, 0, maxPages);
    ReachIsProduct(orders, size, 0, maxPages);
  }

  // What the sweep does with a lookup.

  datatype Decision = ConfirmFrom(order: Listed) | FailAndRefund | LeaveInPaid

  function HasKey(key: string): Match {
    (order: Listed) => order.key == Some(key)
  }

  method ReconcileBooking(supplier: Supplier, key: string) returns (decision: Decision)
    ensures decision == Decide(Verdict(ReadAll(supplier, 0, None, MAX_PAGES), HasKey(key)))
  {
    var lookup := FindOrder(supplier, HasKey(key));
    if lookup.LookupFailed? {
      return LeaveInPaid;
    }
    if lookup.order.Some? {
      return ConfirmFrom(lookup.order.value);
    }
    if !lookup.complete {
      return LeaveInPaid;
    }
    return FailAndRefund;
  }

  function Decide(lookup: Lookup): Decision {
    match lookup
    case LookupFailed => LeaveInPaid
    case Lookup(Some(order), _) => ConfirmFrom(order)
    case Lookup(None, complete) => if complete then FailAndRefund else LeaveInPaid
  }

  /** The money goes back only when the list was read to its end without the booking's key. */
  lemma RefundsOnlyProvenAbsence(supplier: Supplier, key: string)
    ensures var all := ReadAll(supplier, 0, None, MAX_PAGES);
            (Decide(Verdict(all, HasKey(key))) == FailAndRefund <==>
             all.ending == ListEnds && forall i :: 0 <= i < |all.orders| ==> all.orders[i].key != Some(key))
  {
    var all := ReadAll(supplier, 0, None, MAX_PAGES);
    FindIsFirst(all.orders, HasKey(key));
    if Find(all.orders, HasKey(key)).Some? {
      var i :| 0 <= i < |all.orders| && HasKey(key)(all.orders[i]);
    } else {
      forall i | 0 <= i < |all.orders| ensures all.orders[i].key != Some(key) {
        assert !HasKey(key)(all.orders[i]);
      }
    }
  }

  /** Leaving the booking as it is means a failed request, or all forty pages read and more to come. */
  lemma LeavesOnlyTheUnknown(supplier: Supplier, key: string)
    ensures var all := ReadAll(supplier, 0, None, MAX_PAGES);
            Decide(Verdict(all, HasKey(key))) == LeaveInPaid ==>
              all.ending == Breaks || (all.ending == CapReached && all.pages == MAX_PAGES)
  {
    CapMeansEveryPage(supplier, 0, None, MAX_PAGES);
  }

  // A call that created the order, and the sweep after it.

  function KeyedOrder(key: string): Listed -> int {
    (order: Listed) => if order.key == Some(key) then 1 else 0
  }

  lemma {:induction false} KeyIsFoundIffCounted(orders: seq<Listed>, key: string)
    ensures 0 <= SumBy(orders, KeyedOrder(key))
    ensures SumBy(orders, KeyedOrder(key)) == 0 <==> forall i :: 0 <= i < |orders| ==> !HasKey(key)(orders[i])
  {
    if orders != [] {
      var n := |orders| - 1;
      KeyIsFoundIffCounted(orders[..n], key);
      if SumBy(orders[..n], KeyedOrder(key)) != 0 {
        var i :| 0 <= i < n && HasKey(key)(orders[..n][i]);
        assert HasKey(key)(orders[i]);
      } else {
        assert forall i :: 0 <= i < n ==> orders[..n][i] == orders[i];
      }
    }
  }

  datatype Resolution = BookingConfirmed | BookingRefunded | StillPaid

  /** Where the booking ends: by the call itself when its answer is clear, by the sweep when it is not. */
  function Resolve(outcome: Outcome, swept: Decision): Resolution {
    match outcome
    case Ordered => BookingConfirmed
    case Definitive(_) => BookingRefunded
    case _ =>
      match swept
      case ConfirmFrom(_) => BookingConfirmed
      case FailAndRefund => BookingRefunded
      case LeaveInPaid => StillPaid
  }

  /**
   * On a listing that fits, the sweep finds the key exactly when it is there; on any listing it finds only what
   * is there.
   */
  lemma SweepMatchesTheListing(supplier: Supplier, orders: seq<Listed>, size: nat, cursors: nat -> string, key: string)
    requires Serves(supplier, orders, size, cursors)
    ensures var swept := Decide(Verdict(ReadAll(supplier, 0, None, MAX_PAGES), HasKey(key)));
            && (swept.ConfirmFrom? ==> SumBy(orders, KeyedOrder(key)) > 0)
            && (swept.FailAndRefund? ==> SumBy(orders, KeyedOrder(key)) == 0)
            && (|orders| <= size * MAX_PAGES ==> !swept.LeaveInPaid?)
  {
    var reach := if size * MAX_PAGES >= |orders| then |orders| else size * MAX_PAGES;
    ScanOfServedListing(supplier, orders, size, cursors, MAX_PAGES, HasKey(key));
    KeyIsFoundIffCounted(orders, key);
    FindIsFirst(orders[..reach], HasKey(key));
    if Find(orders[..reach], HasKey(key)).Some? {
      var i :| 0 <= i < reach && HasKey(key)(orders[..reach][i]);
      assert HasKey(key)(orders[i]);
    } else {
      assert orders[..|orders|] == orders;
    }
  }

  /**
   * For one call that is over when the sweep reads a listing that stands still, whatever its outcome: the booking
   * is only confirmed with an order at the supplier and only refunded without one, and it is resolved unless the
   * listing outgrows the scan. What a call that is still out changes is shown with the life of a booking.
   */
  lemma ResolutionMatchesTheSupplier(replies: seq<OrderCreation.Reply>, supplier: Supplier, orders: seq<Listed>,
                                     size: nat, cursors: nat -> string, key: string)
    requires Conversation(replies) && AllHonest(replies)
    requires Serves(supplier, orders, size, cursors)
    requires SumBy(orders, KeyedOrder(key)) == Created(replies)
    ensures var swept := Decide(Verdict(ReadAll(supplier, 0, None, MAX_PAGES), HasKey(key)));
            var resolution := Resolve(Classify(replies[|replies| - 1]), swept);
            && (resolution == BookingConfirmed ==> Created(replies) == 1)
            && (resolution == BookingRefunded ==> Created(replies) == 0)
            && (|orders| <= size * MAX_PAGES ==> resolution != StillPaid)
  {
    OutcomeTellsTheOrders(replies);
    SweepMatchesTheListing(supplier, orders, size, cursors, key);
  }

  const PAGE_SIZE: nat := 50

  /**
   * Of a listing that stands still and has no order with the key, the sweep reads two thousand orders at most: it
   * refunds exactly when there are no more.
   */
  lemma TwoThousandOrdersAreRead(supplier: Supplier, orders: seq<Listed>, cursors: nat -> string, key: string)
    requires Serves(supplier, orders, PAGE_SIZE, cursors)
    requires forall i :: 0 <= i < |orders| ==> orders[i].key != Some(key)
    ensures var swept := Decide(Verdict(ReadAll(supplier, 0, None, MAX_PAGES), HasKey(key)));
            swept == if |orders| <= 2000 then FailAndRefund else LeaveInPaid
  {
    var reach := if PAGE_SIZE * MAX_PAGES >= |orders| then |orders| else PAGE_SIZE * MAX_PAGES;
    ScanOfServedListing(supplier, orders, PAGE_SIZE, cursors, MAX_PAGES, HasKey(key));
    FindIsFirst(orders[..reach], HasKey(key));
  }
}

/**
 * search-flights.ts, page after page: following nextCursor until hasNextPage
 * is false, while flights sell out, appear and change between the pages.
 */
module SearchWalk {
  import opened Basics
  import opened Counting
  import opened Ordering
  import opened FlightSearch
  import opened SearchCursor

  datatype SearchResult =
    | PageOf(items: seq<Row>, hasNextPage: bool, nextCursor: Option<Cursor>)
    | InvalidCursor

  function SearchFlights(w: World, q: Query, cursor: Option<Cursor>, now: Instant): SearchResult {
    var after := if cursor.Some? then Decode(cursor.value, ScopeOf(q)) else None;
    if cursor.Some? && after.None? then InvalidCursor
    else
      var page := Search(w, q, after, now);
      PageOf(page.items, page.hasNextPage,
             if page.hasNextPage && page.items != [] then Some(Encode(page.items[|page.items| - 1], ScopeOf(q)))
             else None)
  }

  /** The tables and the clock when one page is read. */
  datatype Reading = Reading(world: World, now: Instant)

  datatype Walked = Walked(rows: seq<Row>, finished: bool)

  /** Page after page, one reading each, until there is no next page or the readings run out. */
  function Walk(readings: seq<Reading>, q: Query, cursor: Option<Cursor>): Walked {
    if readings == [] then Walked([], false)
    else
      var page := SearchFlights(readings[0].world, q, cursor, readings[0].now);
      if page.InvalidCursor? then Walked([], false)
      else if page.nextCursor.None? then Walked(page.items, !page.hasNextPage)
      else
        var rest := Walk(readings[1..], q, page.nextCursor);
        Walked(page.items + rest.rows, rest.finished)
  }

  /** Cursors of this search read back: the interval has four-digit years and every fare is a safe integer. */
  predicate CursorsWork(readings: seq<Reading>, q: Query) {
    && HasFourDigitYear(q.from) && HasFourDigitYear(q.to)
    && forall i | 0 <= i < |readings| ::
         forall k | k in readings[i].world.db.fares :: readings[i].world.db.fares[k] <= MAX_SAFE_INTEGER
  }

  function CursorAt(q: Query, after: Option<Row>): Option<Cursor> {
    if after.None? then None else Some(Encode(after.value, ScopeOf(q)))
  }

  /** A row this search could have ended a page with. */
  predicate Seen(q: Query, row: Row) { q.from <= row.departureAt < q.to && row.lowestFare <= MAX_SAFE_INTEGER }

  /** Through the cursor, the next page starts exactly after the row it was made from. */
  lemma NextPage(w: World, q: Query, after: Option<Row>, now: Instant)
    requires HasFourDigitYear(q.from) && HasFourDigitYear(q.to) && (after.Some? ==> Seen(q, after.value))
    ensures
      var page := SearchFlights(w, q, CursorAt(q, after), now);
      var exact := Search(w, q, after, now);
      var last := if exact.hasNextPage && exact.items != [] then Some(exact.items[|exact.items| - 1]) else None;
      && page.PageOf? && page.items == exact.items && page.hasNextPage == exact.hasNextPage
      && page.nextCursor == CursorAt(q, last)
  {
    hide InOrder, Encode, Decode, Matching;
    if after.Some? {
      RoundTrip(after.value, ScopeOf(q));
      var rows := Matching(w, q, now);
      forall x | x in rows
        ensures KeyLess(q.sort, KeyPart(after.value, q.sort), x) <==> KeyLess(q.sort, after.value, x)
      {
        KeyPartIsEnough(after.value, x, q.sort);
      }
      assert After(rows, q.sort, Some(KeyPart(after.value, q.sort))) == After(rows, q.sort, after);
    }
  }

  lemma MatchingIsSeen(w: World, q: Query, now: Instant, row: Row)
    requires row in Matching(w, q, now) && forall k | k in w.db.fares :: w.db.fares[k] <= MAX_SAFE_INTEGER
    ensures Seen(q, row)
    ensures row.id in w.db.flights && MatchesQuery(w, q, row.id, now) && row == RowOf(w, q, row.id, now)
  {
  }

  /** A page's rows come from its own reading, in order, past the cursor. */
  lemma PageRows(w: World, q: Query, after: Option<Row>, now: Instant)
    ensures
      var items := Search(w, q, after, now).items;
      && Increasing(items, ByKey(q.sort))
      && (forall x | x in items :: x in Matching(w, q, now) && (after.Some? ==> KeyLess(q.sort, after.value, x)))
  {
    hide Matching;
    RowOrder(q.sort);
    var all := InOrder(After(Matching(w, q, now), q.sort, after), q.sort);
    PageIsExact(w, q, after, now);
    Cut(all, Min(|all|, q.limit), ByKey(q.sort));
    var items := Search(w, q, after, now).items;
    assert items == all[..Min(|all|, q.limit)];
    forall x | x in items ensures x in all {
    }
  }

  // ---- sort = departure, over changing worlds ----

  function Last(items: seq<Row>): Option<Row> { if items == [] then None else Some(items[|items| - 1]) }

  predicate LimitOk(q: Query) { 1 <= q.limit }

  /** Unfolding one page of a walk that starts after `after`. */
  lemma WalkUnfolds(readings: seq<Reading>, q: Query, after: Option<Row>)
    requires readings != [] && LimitOk(q) && CursorsWork(readings, q) && (after.Some? ==> Seen(q, after.value))
    ensures
      var page := Search(readings[0].world, q, after, readings[0].now);
      && (page.hasNextPage ==> page.items != [] && Seen(q, Last(page.items).value))
      && CursorsWork(readings[1..], q)
      && var walk := Walk(readings, q, CursorAt(q, after));
         if page.hasNextPage then
           var rest := Walk(readings[1..], q, CursorAt(q, Last(page.items)));
           walk.rows == page.items + rest.rows && walk.finished == rest.finished
         else walk == Walked(page.items, true)
  {
    hide Matching, InOrder, Encode, Decode;
    var w, now := readings[0].world, readings[0].now;
    NextPage(w, q, after, now);
    var page := Search(w, q, after, now);
    PageRows(w, q, after, now);
    if page.hasNextPage {
      assert page.items != [];
      MatchingIsSeen(w, q, now, page.items[|page.items| - 1]);
    }
  }

  /** Every row of a walk lies after where it started, and comes from one of its readings. */
  lemma {:induction false} WalkGoesForward(readings: seq<Reading>, q: Query, after: Option<Row>)
    requires LimitOk(q) && CursorsWork(readings, q) && (after.Some? ==> Seen(q, after.value))
    ensures forall x | x in Walk(readings, q, CursorAt(q, after)).rows ::
      && (after.Some? ==> KeyLess(q.sort, after.value, x))
      && exists i | 0 <= i < |readings| :: x in Matching(readings[i].world, q, readings[i].now)
    decreases |readings|
  {
    hide Matching, Search, CursorsWork, Seen;
    if readings != [] {
      WalkUnfolds(readings, q, after);
      var page := Search(readings[0].world, q, after, readings[0].now);
      PageRows(readings[0].world, q, after, readings[0].now);
      if page.hasNextPage {
        WalkGoesForward(readings[1..], q, Last(page.items));
        forall x | x in Walk(readings[1..], q, CursorAt(q, Last(page.items))).rows
          ensures after.Some? ==> KeyLess(q.sort, after.value, x)
          ensures exists i | 0 <= i < |readings| :: x in Matching(readings[i].world, q, readings[i].now)
        {
          assert Last(page.items).value in page.items;
          var i :| 0 <= i < |readings[1..]| && x in Matching(readings[1..][i].world, q, readings[1..][i].now);
          assert readings[i + 1] == readings[1..][i];
        }
      }
    }
  }

  /** `f` matches whenever a page is read, always departing at `at`. */
  ghost predicate AlwaysMatches(readings: seq<Reading>, q: Query, f: Id, at: Instant) {
    forall i | 0 <= i < |readings| ::
      MatchesQuery(readings[i].world, q, f, readings[i].now) && readings[i].world.db.flights[f].departureAt == at
  }

  function Occurrences(rows: seq<Row>, f: Id): nat {
    if rows == [] then 0 else Occurrences(rows[1..], f) + (if rows[0].id == f then 1 else 0)
  }

  lemma {:induction false} OccurrencesAdd(a: seq<Row>, b: seq<Row>, f: Id)
    ensures Occurrences(a + b, f) == Occurrences(a, f) + Occurrences(b, f)
  {
    if a == [] {
      assert a + b == b;
    } else {
      assert (a + b)[1..] == a[1..] + b;
      OccurrencesAdd(a[1..], b, f);
    }
  }

  lemma {:induction false} NoOccurrence(rows: seq<Row>, f: Id)
    requires forall x | x in rows :: x.id != f
    ensures Occurrences(rows, f) == 0
  {
    if rows != [] { NoOccurrence(rows[1..], f); }
  }

  lemma {:induction false} OneOccurrence(rows: seq<Row>, x: Row)
    requires x in rows && Distinct(rows) && forall y | y in rows && y.id == x.id :: y == x
    ensures Occurrences(rows, x.id) == 1
  {
    if rows[0] == x {
      forall y | y in rows[1..] ensures y.id != x.id {
        var i :| 1 <= i < |rows| && rows[i] == y;
      }
      NoOccurrence(rows[1..], x.id);
    } else {
      OneOccurrence(rows[1..], x);
    }
  }

  lemma AlwaysMatchingRow(readings: seq<Reading>, q: Query, f: Id, at: Instant, i: nat, x: Row)
    requires AlwaysMatches(readings, q, f, at) && i < |readings|
    requires x in Matching(readings[i].world, q, readings[i].now) && x.id == f
    ensures x.departureAt == at
  {
  }

  lemma IncreasingIsDistinct(rows: seq<Row>, sort: Sort)
    requires Increasing(rows, ByKey(sort))
    ensures Distinct(rows)
  {
  }

  /** A row on the page is there once, and the page does not end before it. */
  lemma OnThePage(w: World, q: Query, after: Option<Row>, now: Instant, x: Row)
    requires x in Search(w, q, after, now).items
    ensures
      var items := Search(w, q, after, now).items;
      Occurrences(items, x.id) == 1 && !KeyLess(q.sort, Last(items).value, x)
  {
    hide Matching, Occurrences, Search, KeyLess;
    var items := Search(w, q, after, now).items;
    PageRows(w, q, after, now);
    IncreasingIsDistinct(items, q.sort);
    forall y | y in items && y.id == x.id ensures y == x {
      OneRowPerFlight(w, q, now, x, y);
    }
    OneOccurrence(items, x);
    LastIsLargest(items, q.sort, x);
  }

  /** A match past the cursor that is not on the page lies after its end, and there is a next page. */
  lemma OffThePage(w: World, q: Query, after: Option<Row>, now: Instant, x: Row)
    requires LimitOk(q) && x in Matching(w, q, now) && x !in Search(w, q, after, now).items
    requires after.Some? ==> KeyLess(q.sort, after.value, x)
    ensures
      var page := Search(w, q, after, now);
      page.hasNextPage && page.items != [] && KeyLess(q.sort, Last(page.items).value, x)
  {
    hide Matching, KeyLess, RowLess, Search;
    RowOrder(q.sort);
    PageIsExact(w, q, after, now);
    PageRows(w, q, after, now);
    var all := InOrder(After(Matching(w, q, now), q.sort, after), q.sort);
    var page := Search(w, q, after, now);
    var n := Min(|all|, q.limit);
    Cut(all, n, ByKey(q.sort));
    assert x in all && page.items == all[..n];
    var last := page.items[n - 1];
    assert last in all[..n] && x in all[n..];
    OneRowPerFlightKey(w, q, now, last, x);
  }

  /** One page by departure: `x` is on it once, or it lies after the page's end and there is a next page. */
  lemma PageHasItOrGoesOn(w: World, q: Query, after: Option<Row>, now: Instant, x: Row)
    requires LimitOk(q) && x in Matching(w, q, now)
    requires after.Some? ==> KeyLess(q.sort, after.value, x)
    ensures
      var page := Search(w, q, after, now);
      if x in page.items then Occurrences(page.items, x.id) == 1 && !KeyLess(q.sort, Last(page.items).value, x)
      else
        && page.hasNextPage && Occurrences(page.items, x.id) == 0
        && page.items != [] && KeyLess(q.sort, Last(page.items).value, x)
  {
    hide Matching, Occurrences, Search, KeyLess;
    var page := Search(w, q, after, now);
    if x in page.items {
      OnThePage(w, q, after, now, x);
    } else {
      OffThePage(w, q, after, now, x);
      PageRows(w, q, after, now);
      forall y | y in page.items ensures y.id != x.id {
        if y.id == x.id { OneRowPerFlight(w, q, now, x, y); }
      }
      NoOccurrence(page.items, x.id);
    }
  }

  lemma LastIsLargest(rows: seq<Row>, sort: Sort, x: Row)
    requires Increasing(rows, ByKey(sort)) && x in rows
    ensures !KeyLess(sort, rows[|rows| - 1], x)
  {
  }

  /** Within one result the order and the keyset condition agree. */
  lemma OneRowPerFlightKey(w: World, q: Query, now: Instant, a: Row, b: Row)
    requires a in Matching(w, q, now) && b in Matching(w, q, now)
    ensures RowLess(q.sort, a, b) <==> KeyLess(q.sort, a, b)
  {
  }

  /**
   * By departure: a flight that matches whenever a page is read is listed
   * exactly once, whatever sells out, appears or changes around it.
   */
  lemma {:induction false} ListedExactlyOnce(readings: seq<Reading>, q: Query, after: Option<Row>, f: Id, at: Instant)
    requires q.sort.BY_DEPARTURE? && LimitOk(q) && CursorsWork(readings, q) && AlwaysMatches(readings, q, f, at)
    requires after.Some? ==> Seen(q, after.value) && TimeThenId(after.value, Row(at, f, 0))
    requires Walk(readings, q, CursorAt(q, after)).finished
    ensures Occurrences(Walk(readings, q, CursorAt(q, after)).rows, f) == 1
    decreases |readings|
  {
    hide Matching, Search, CursorsWork, Seen, Occurrences;
    var w, now := readings[0].world, readings[0].now;
    var x := RowOf(w, q, f, now);
    MatchingRow(w, q, f, now);
    WalkUnfolds(readings, q, after);
    PageHasItOrGoesOn(w, q, after, now, x);
    var page := Search(w, q, after, now);
    if page.hasNextPage {
      var rest := Walk(readings[1..], q, CursorAt(q, Last(page.items)));
      OccurrencesAdd(page.items, rest.rows, f);
      if x in page.items {
        NotListedAgain(readings, q, Last(page.items), f, at);
      } else {
        ListedExactlyOnce(readings[1..], q, Last(page.items), f, at);
      }
    }
  }

  lemma MatchingRow(w: World, q: Query, f: Id, now: Instant)
    requires MatchesQuery(w, q, f, now)
    ensures RowOf(w, q, f, now) in Matching(w, q, now)
  {
  }

  lemma NotListedAgain(readings: seq<Reading>, q: Query, after: Option<Row>, f: Id, at: Instant)
    requires readings != [] && q.sort.BY_DEPARTURE? && LimitOk(q) && CursorsWork(readings, q)
    requires AlwaysMatches(readings, q, f, at)
    requires after.Some? && Seen(q, after.value) && !TimeThenId(after.value, Row(at, f, 0))
    ensures Occurrences(Walk(readings[1..], q, CursorAt(q, after)).rows, f) == 0
  {
    hide Matching, CursorsWork, Seen, Occurrences, Walk;
    CursorsWorkTail(readings, q);
    WalkGoesForward(readings[1..], q, after);
    forall x | x in Walk(readings[1..], q, CursorAt(q, after)).rows ensures x.id != f {
      var i :| 0 <= i < |readings[1..]| && x in Matching(readings[1..][i].world, q, readings[1..][i].now);
      if x.id == f { AlwaysMatchingRow(readings, q, f, at, i + 1, x); }
    }
    NoOccurrence(Walk(readings[1..], q, CursorAt(q, after)).rows, f);
  }

  lemma CursorsWorkTail(readings: seq<Reading>, q: Query)
    requires readings != [] && CursorsWork(readings, q)
    ensures CursorsWork(readings[1..], q)
  {
  }

  // ---- Both sorts, on an unchanging set ----

  function Same(r: Reading, n: nat): (readings: seq<Reading>)
    ensures |readings| == n && forall i | 0 <= i < n :: readings[i] == r
  {
    seq(n, i => r)
  }

  function RowBefore(all: seq<Row>, i: nat): Option<Row>
    requires i <= |all|
  {
    if i == 0 then None else Some(all[i - 1])
  }

  /** What lies after the i-th row of the sorted result is the rest of it. */
  lemma AfterIsRest(w: World, q: Query, now: Instant, i: nat)
    requires i <= |InOrder(Matching(w, q, now), q.sort)|
    ensures
      var all := InOrder(Matching(w, q, now), q.sort);
      InOrder(After(Matching(w, q, now), q.sort, RowBefore(all, i)), q.sort) == all[i..]
  {
    hide Matching, KeyLess, RowLess;
    var rows := Matching(w, q, now);
    var all := InOrder(rows, q.sort);
    var rest := After(rows, q.sort, RowBefore(all, i));
    RowOrder(q.sort);
    Cut(all, i, ByKey(q.sort));
    if i > 0 {
      assert all[i - 1] in all[..i] by { assert all[..i][i - 1] == all[i - 1]; }
      forall x | x in rows ensures x in rest <==> x in all[i..] {
        OneRowPerFlightKey(w, q, now, all[i - 1], x);
        if x in all[..i] { FrontIsNotAfter(all, q.sort, i, x); }
      }
    }
    IncreasingUnique(InOrder(rest, q.sort), all[i..], ByKey(q.sort));
  }

  lemma FrontIsNotAfter(all: seq<Row>, sort: Sort, i: nat, x: Row)
    requires 0 < i <= |all| && Increasing(all, ByKey(sort)) && x in all[..i]
    ensures !RowLess(sort, all[i - 1], x)
  {
  }

  lemma OnePageLess(n: nat, limit: nat, i: nat, total: nat)
    requires 1 <= n && i + limit < total <= i + n * limit
    ensures 2 <= n && total <= i + limit + (n - 1) * limit
  {
  }

  /** One page of the rest: its first `limit` rows, and a next page exactly when some are left. */
  lemma PageOfRest(r: Reading, q: Query, i: nat)
    requires LimitOk(q) && i <= |InOrder(Matching(r.world, q, r.now), q.sort)|
    ensures
      var all := InOrder(Matching(r.world, q, r.now), q.sort);
      var page := Search(r.world, q, RowBefore(all, i), r.now);
      && (page.hasNextPage <==> i + q.limit < |all|)
      && (page.hasNextPage ==>
            page.items == all[i..i + q.limit] && Last(page.items) == RowBefore(all, i + q.limit))
      && (!page.hasNextPage ==> page.items == all[i..])
  {
    hide Matching, Search, InOrder, After;
    AfterIsRest(r.world, q, r.now, i);
    PageIsExact(r.world, q, RowBefore(InOrder(Matching(r.world, q, r.now), q.sort), i), r.now);
  }

  /** From the i-th row on, enough pages read exactly the rest, in order, and then there is no next page. */
  lemma {:induction false} RestIsWalked(r: Reading, q: Query, i: nat, n: nat)
    requires LimitOk(q) && 1 <= n && CursorsWork(Same(r, n), q)
    requires i <= |InOrder(Matching(r.world, q, r.now), q.sort)| <= i + n * q.limit
    ensures
      var all := InOrder(Matching(r.world, q, r.now), q.sort);
      Walk(Same(r, n), q, CursorAt(q, RowBefore(all, i))) == Walked(all[i..], true)
    decreases n
  {
    hide Matching, InOrder, CursorsWork, Seen, Walk, Search, CursorAt, LimitOk;
    var all := InOrder(Matching(r.world, q, r.now), q.sort);
    RowBeforeIsSeen(r, q, i, n);
    PageOfRest(r, q, i);
    WalkUnfolds(Same(r, n), q, RowBefore(all, i));
    if Search(r.world, q, RowBefore(all, i), r.now).hasNextPage {
      OnePageLess(n, q.limit, i, |all|);
      assert Same(r, n)[1..] == Same(r, n - 1);
      RestIsWalked(r, q, i + q.limit, n - 1);
      assert all[i..] == all[i..i + q.limit] + all[i + q.limit..];
    }
  }

  lemma RowBeforeIsSeen(r: Reading, q: Query, i: nat, n: nat)
    requires 1 <= n && CursorsWork(Same(r, n), q) && i <= |InOrder(Matching(r.world, q, r.now), q.sort)|
    ensures
      var after := RowBefore(InOrder(Matching(r.world, q, r.now), q.sort), i);
      after.Some? ==> Seen(q, after.value)
  {
    hide Matching;
    var all := InOrder(Matching(r.world, q, r.now), q.sort);
    assert Same(r, n)[0] == r;
    if i > 0 {
      assert all[i - 1] in all;
      MatchingIsSeen(r.world, q, r.now, all[i - 1]);
    }
  }

  /** On an unchanging set, for both sorts and any limit: the pages are exactly the sorted matches, and the walk ends. */
  lemma PagesAreTheSortedMatches(r: Reading, q: Query, n: nat)
    requires LimitOk(q) && 1 <= n && CursorsWork(Same(r, n), q)
    requires |Matching(r.world, q, r.now)| <= n * q.limit
    ensures Walk(Same(r, n), q, None) == Walked(InOrder(Matching(r.world, q, r.now), q.sort), true)
  {
    hide Matching, CursorsWork, Walk;
    var all := InOrder(Matching(r.world, q, r.now), q.sort);
    RestIsWalked(r, q, 0, n);
    assert all[0..] == all;
  }
}

/** What a search lists, stated in what a hold would be granted; in which order; and what its cursor is good for. */
module SearchAnswers {
  import opened Basics
  import opened Ordering
  import opened Schema
  import opened Lifecycle
  import opened Transactions
  import opened HoldFacts
  import opened FlightSearch
  import opened SearchCursor
  import opened SearchWalk

  // ---- A flight is listed iff the party could hold seats there ----

  /** The class has a fare, and an automatic hold of that many of its seats would be granted now. */
  predicate CouldHold(t: Tables, f: Id, c: FareClass, passengers: nat, now: Instant) {
    (f, c) in t.fares && TakenSeats(t, f, Auto(passengers, c), {}, now) != []
  }

  /** The flight is there, flies the route and leaves within the interval. */
  predicate FliesAsAsked(w: World, q: Query, f: Id) {
    && f in w.db.flights && f in w.routes && w.routes[f] == (q.origin, q.destination)
    && q.from <= w.db.flights[f].departureAt < q.to
  }

  /** `fare` is the least fare of the classes the party could hold seats in. */
  predicate CheapestToHold(t: Tables, f: Id, passengers: nat, now: Instant, fare: nat) {
    && (exists c :: CouldHold(t, f, c, passengers, now) && t.fares[(f, c)] == fare)
    && (forall c | CouldHold(t, f, c, passengers, now) :: fare <= t.fares[(f, c)])
  }

  lemma RoomIsAHold(t: Tables, f: Id, c: FareClass, passengers: nat, now: Instant)
    requires 1 <= passengers
    ensures FlightOnSale(t, f, now) && HasRoom(t, f, c, passengers) <==> CouldHold(t, f, c, passengers, now)
  {
    hide FlightOnSale, FreeSeats;
    AutoHoldIff(t, f, passengers, c, {}, now);
    assert FreeSeats(t, f, c) - {} == FreeSeats(t, f, c);
  }

  lemma MatchIsAHold(w: World, q: Query, f: Id, now: Instant)
    requires 1 <= q.passengers
    ensures MatchesQuery(w, q, f, now) <==>
      FliesAsAsked(w, q, f) && exists c :: CouldHold(w.db, f, c, q.passengers, now)
    ensures MatchesQuery(w, q, f, now) ==>
      forall fare :: fare == RowOf(w, q, f, now).lowestFare <==> CheapestToHold(w.db, f, q.passengers, now, fare)
  {
    hide HasRoom, CouldHold, LowestFare, OnSale;
    RoomIsAHold(w.db, f, ECONOMY, q.passengers, now);
    RoomIsAHold(w.db, f, BUSINESS, q.passengers, now);
    HoldIsPriced(w.db, f, q.passengers, now);
    if !MatchesQuery(w, q, f, now) && FliesAsAsked(w, q, f) {
      forall c ensures !CouldHold(w.db, f, c, q.passengers, now) {
        if c.ECONOMY? {} else {}
      }
    }
    if MatchesQuery(w, q, f, now) {
      var fare := RowOf(w, q, f, now).lowestFare;
      forall c | CouldHold(w.db, f, c, q.passengers, now) ensures fare <= w.db.fares[(f, c)] {
        if c.ECONOMY? {} else {}
      }
    }
  }

  lemma HoldIsPriced(t: Tables, f: Id, passengers: nat, now: Instant)
    ensures forall c | CouldHold(t, f, c, passengers, now) :: (f, c) in t.fares
  {
  }

  /** The rows of a search: one for each flight on the route where the party could hold seats, at the cheapest such fare. */
  lemma RowsAreHolds(w: World, q: Query, now: Instant, row: Row)
    requires 1 <= q.passengers
    ensures row in Matching(w, q, now) <==>
      && FliesAsAsked(w, q, row.id) && row.departureAt == w.db.flights[row.id].departureAt
      && CheapestToHold(w.db, row.id, q.passengers, now, row.lowestFare)
  {
    hide MatchesQuery, FliesAsAsked, CheapestToHold, LowestFare;
    MatchIsAHold(w, q, row.id, now);
    if CheapestToHold(w.db, row.id, q.passengers, now, row.lowestFare) {
      CheapestIsAHold(w.db, row.id, q.passengers, now, row.lowestFare);
    }
    if FliesAsAsked(w, q, row.id) { FlightIsThere(w, q, row.id); }
  }

  lemma FlightIsThere(w: World, q: Query, f: Id)
    requires FliesAsAsked(w, q, f)
    ensures f in w.db.flights
  {
  }

  lemma CheapestIsAHold(t: Tables, f: Id, passengers: nat, now: Instant, fare: nat)
    requires CheapestToHold(t, f, passengers, now, fare)
    ensures exists c :: CouldHold(t, f, c, passengers, now)
  {
    hide CouldHold;
  }

  // ---- The order, and what a page leaves out ----

  /** Cheaper first when asked by price; then, or else at once, earlier first; then by id. */
  predicate SortsBefore(sort: Sort, a: Row, b: Row) {
    || (sort.BY_PRICE? && a.lowestFare < b.lowestFare)
    || ((sort.BY_PRICE? ==> a.lowestFare == b.lowestFare)
        && (a.departureAt < b.departureAt || (a.departureAt == b.departureAt && a.id < b.id)))
  }

  predicate ComesAfter(sort: Sort, after: Option<Row>, x: Row) { after.Some? ==> SortsBefore(sort, after.value, x) }

  /**
   * A page holds rows of the search past the cursor, in order and at most the
   * limit; what it leaves out of them comes later and only because the page
   * is full, and there is a next page exactly when something is left out.
   */
  lemma PageSays(w: World, q: Query, after: Option<Row>, now: Instant)
    ensures
      var page, rows := Search(w, q, after, now), Matching(w, q, now);
      && |page.items| <= q.limit
      && (forall i, j | 0 <= i < j < |page.items| :: SortsBefore(q.sort, page.items[i], page.items[j]))
      && (forall x | x in page.items :: x in rows && ComesAfter(q.sort, after, x))
      && (forall x, y | x in rows && ComesAfter(q.sort, after, x) && x !in page.items && y in page.items ::
            SortsBefore(q.sort, y, x))
      && (page.hasNextPage <==> exists x | x in rows :: ComesAfter(q.sort, after, x) && x !in page.items)
      && (page.hasNextPage ==> |page.items| == q.limit)
  {
    hide Matching, InOrder, Search;
    var page, rows := Search(w, q, after, now), Matching(w, q, now);
    var all := InOrder(After(rows, q.sort, after), q.sort);
    var n := Min(|all|, q.limit);
    PageIsExact(w, q, after, now);
    PageRows(w, q, after, now);
    RowOrder(q.sort);
    Cut(all, n, ByKey(q.sort));
    assert page.items == all[..n];
    forall i, j | 0 <= i < j < |page.items| ensures SortsBefore(q.sort, page.items[i], page.items[j]) {
      InOrderIsSorted(w, q, now, page.items[i], page.items[j]);
    }
    forall x, y | x in rows && ComesAfter(q.sort, after, x) && x !in page.items && y in page.items
      ensures SortsBefore(q.sort, y, x)
    {
      assert x in all;
      InOrderIsSorted(w, q, now, y, x);
    }
    if page.hasNextPage {
      assert all[n] in all && all[n] in all[n..];
    }
  }

  lemma InOrderIsSorted(w: World, q: Query, now: Instant, a: Row, b: Row)
    requires a in Matching(w, q, now) && b in Matching(w, q, now) && ByKey(q.sort)(a, b)
    ensures SortsBefore(q.sort, a, b)
  {
    hide Matching;
    OneRowPerFlightKey(w, q, now, a, b);
  }

  lemma {:induction false} NoMoreThanIds(rows: set<Row>, ids: set<Id>)
    requires forall x | x in rows :: x.id in ids
    requires forall x, y | x in rows && y in rows && x.id == y.id :: x == y
    ensures |rows| <= |ids|
    decreases |rows|
  {
    if rows != {} {
      var x :| x in rows;
      NoMoreThanIds(rows - {x}, ids - {x.id});
    }
  }

  lemma NoMoreRowsThanFlights(w: World, q: Query, now: Instant)
    ensures |Matching(w, q, now)| <= |w.db.flights|
    ensures Search(w, q, None, now).hasNextPage ==> |Matching(w, q, now)| > q.limit
  {
    hide MatchesQuery, InOrder;
    assert After(Matching(w, q, now), q.sort, None) == Matching(w, q, now);
    NoMoreThanIds(Matching(w, q, now), w.db.flights.Keys);
    assert |w.db.flights.Keys| == |w.db.flights|;
  }

  /**
   * The first page, when it is not cut short, lists exactly the flights on
   * the route where the party could hold seats now, each at the least fare it
   * could hold at; a limit of as many rows as there are flights never cuts it.
   */
  lemma SearchMeetsHold(w: World, q: Query, now: Instant)
    requires 1 <= q.passengers
    ensures |w.db.flights| <= q.limit ==> !Search(w, q, None, now).hasNextPage
    ensures !Search(w, q, None, now).hasNextPage ==> forall row: Row ::
      row in Search(w, q, None, now).items <==>
        && FliesAsAsked(w, q, row.id) && row.departureAt == w.db.flights[row.id].departureAt
        && CheapestToHold(w.db, row.id, q.passengers, now, row.lowestFare)
  {
    hide Search, Matching, CheapestToHold;
    PageSays(w, q, None, now);
    var page := Search(w, q, None, now);
    if page.hasNextPage {
      NoMoreRowsThanFlights(w, q, now);
    } else {
      forall row: Row ensures row in page.items <==> row in Matching(w, q, now) {
        assert ComesAfter(q.sort, None, row);
      }
      forall row: Row ensures
        row in Matching(w, q, now) <==>
          && FliesAsAsked(w, q, row.id) && row.departureAt == w.db.flights[row.id].departureAt
          && CheapestToHold(w.db, row.id, q.passengers, now, row.lowestFare)
      {
        RowsAreHolds(w, q, now, row);
      }
    }
  }

  // ---- What a next-page cursor is good for ----

  /** The same search up to how many rows a page has. */
  predicate SameSearch(q: Query, r: Query) {
    && q.origin == r.origin && q.destination == r.destination && q.from == r.from && q.to == r.to
    && q.passengers == r.passengers && q.sort == r.sort
  }

  /**
   * A page's next cursor works for its own search, with any limit and at any
   * later reading, and then lists only what comes after that page's last row;
   * for a search that differs in anything else it is refused.
   */
  lemma CursorIsForItsSearch(
    w: World, q: Query, cursor: Option<Cursor>, now: Instant, w2: World, r: Query, now2: Instant)
    requires forall k | k in w.db.fares :: w.db.fares[k] <= MAX_SAFE_INTEGER
    requires SearchFlights(w, q, cursor, now).PageOf? && SearchFlights(w, q, cursor, now).nextCursor.Some?
    requires -62167219200000 <= q.from && q.to <= 253402300800000
    ensures
      var page := SearchFlights(w, q, cursor, now);
      var next := SearchFlights(w2, r, page.nextCursor, now2);
      && page.items != [] && (next.PageOf? <==> SameSearch(q, r))
      && (next.PageOf? ==> forall x | x in next.items :: SortsBefore(q.sort, page.items[|page.items| - 1], x))
  {
    hide Search, Matching, Encode, Decode;
    var page := SearchFlights(w, q, cursor, now);
    var after := if cursor.Some? then Decode(cursor.value, ScopeOf(q)) else None;
    PageRows(w, q, after, now);
    var last := page.items[|page.items| - 1];
    MatchingIsSeen(w, q, now, last);
    if SameSearch(q, r) {
      RoundTrip(last, ScopeOf(q));
      PageSays(w2, r, Some(KeyPart(last, q.sort)), now2);
    } else {
      WrongScopeIsRefused(last, ScopeOf(q), ScopeOf(r));
    }
  }
}

/** A search whose own next page cannot be read: the first page ends in the year 10000. */
module LateDeparture {
  import opened Basics
  import opened Ordering
  import opened Schema
  import opened Transactions
  import opened Runs
  import opened FlightSearch
  import opened SearchCursor
  import opened SearchWalk

  // ---- Exactly when a page's cursor works ----

  /** A page's next cursor is refused, by every later reading, iff its last departure has no four-digit year. */
  lemma NextCursorIsRefusedIff(w: World, q: Query, cursor: Option<Cursor>, now: Instant, w2: World, now2: Instant)
    requires forall k | k in w.db.fares :: w.db.fares[k] <= MAX_SAFE_INTEGER
    ensures
      var page := SearchFlights(w, q, cursor, now);
      page.PageOf? && page.nextCursor.Some? ==>
        && page.items != []
        && (SearchFlights(w2, q, page.nextCursor, now2).InvalidCursor?
            <==> !(-62167219200000 <= page.items[|page.items| - 1].departureAt <= 253402300799999))
  {
    hide Search, Matching, Encode, Decode;
    var page := SearchFlights(w, q, cursor, now);
    if page.PageOf? && page.nextCursor.Some? {
      var after := if cursor.Some? then Decode(cursor.value, ScopeOf(q)) else None;
      PageRows(w, q, after, now);
      var last := page.items[|page.items| - 1];
      MatchingIsSeen(w, q, now, last);
      RoundTrip(last, ScopeOf(q));
    }
  }

  // ---- A search where it happens ----

  const NEW_YEAR := LAST_FOUR_DIGIT_INSTANT + 1
  const FIRST := SeatKey(1, SeatPosition(1, 'A'))
  const SECOND := SeatKey(2, SeatPosition(1, 'A'))

  /** An operator opens two flights after the turn of the year 10000 and prices them. */
  function Opening(): seq<Txn> {
    [DoAddFlight(1, Flight(StoredFlightStatus.OPEN, NEW_YEAR), map[FIRST := ECONOMY]),
     DoAddFlight(2, Flight(StoredFlightStatus.OPEN, NEW_YEAR + HOUR_MS), map[SECOND := ECONOMY]),
     DoSetFare(1, ECONOMY, 100),
     DoSetFare(2, ECONOMY, 100)]
  }

  function TwoFlights(): Tables {
    Tables(
      map[1 := Flight(StoredFlightStatus.OPEN, NEW_YEAR), 2 := Flight(StoredFlightStatus.OPEN, NEW_YEAR + HOUR_MS)],
      map[(1, ECONOMY) := 100, (2, ECONOMY) := 100],
      map[FIRST := Seat(ECONOMY, AVAILABLE, None), SECOND := Seat(ECONOMY, AVAILABLE, None)],
      map[], map[], map[], [], [])
  }

  lemma FirstSteps(t1: Tables, t2: Tables)
    requires t1 == Apply(EMPTY, Opening()[0]) && t2 == Apply(t1, Opening()[1])
    ensures Enabled(EMPTY, Opening()[0]) && Enabled(t1, Opening()[1])
    ensures t2 == TwoFlights().(fares := map[])
  {
    assert t2.seats == TwoFlights().seats;
  }

  lemma LastSteps(t2: Tables, t3: Tables)
    requires t2 == TwoFlights().(fares := map[]) && t3 == Apply(t2, Opening()[2])
    ensures Enabled(t2, Opening()[2]) && Enabled(t3, Opening()[3]) && Apply(t3, Opening()[3]) == TwoFlights()
  {
    assert Apply(t3, Opening()[3]).fares == TwoFlights().fares;
  }

  lemma OpeningHappens()
    ensures Legal(EMPTY, Opening()) && Run(EMPTY, Opening()) == TwoFlights()
  {
    hide Apply, Enabled, Legal, Run, TwoFlights;
    var xs := Opening();
    var t1 := Apply(EMPTY, xs[0]);
    var t2 := Apply(t1, xs[1]);
    var t3 := Apply(t2, xs[2]);
    FirstSteps(t1, t2);
    LastSteps(t2, t3);
    RunNowhere(Apply(t3, xs[3]));
    RunOnward(t3, xs[3], []);
    assert [xs[3]] + [] == [xs[3]];
    RunOnward(t2, xs[2], [xs[3]]);
    RunOnward(t1, xs[1], [xs[2]] + [xs[3]]);
    RunOnward(EMPTY, xs[0], [xs[1]] + ([xs[2]] + [xs[3]]));
    assert xs == [xs[0]] + ([xs[1]] + ([xs[2]] + [xs[3]]));
  }

  function Everywhere(): World { World(TwoFlights(), map[1 := ("JFK", "SGN"), 2 := ("JFK", "SGN")]) }

  /** One passenger, by departure, one flight a page, on 9999-12-31 in New York, five hours behind UTC. */
  function OnNewYear(): Query {
    Query("JFK", "SGN", NEW_YEAR - 19 * HOUR_MS, NEW_YEAR + 5 * HOUR_MS, 1, BY_DEPARTURE, 1)
  }

  function FirstRow(): Row { Row(NEW_YEAR, 1, 100) }
  function SecondRow(): Row { Row(NEW_YEAR + HOUR_MS, 2, 100) }

  lemma OneFreeSeat(f: Id, k: SeatKey)
    requires (f == 1 && k == FIRST) || (f == 2 && k == SECOND)
    ensures FreeSeats(TwoFlights(), f, ECONOMY) == {k}
    ensures HasRoom(TwoFlights(), f, ECONOMY, 1) && !HasRoom(TwoFlights(), f, BUSINESS, 1)
    ensures LowestFare(TwoFlights(), f, 1) == 100
  {
  }

  lemma TwoMatch(now: Instant)
    requires now < NEW_YEAR - HOUR_MS
    ensures Matching(Everywhere(), OnNewYear(), now) == {FirstRow(), SecondRow()}
  {
    OneFreeSeat(1, FIRST);
    OneFreeSeat(2, SECOND);
    var w, q := Everywhere(), OnNewYear();
    assert MatchesQuery(w, q, 1, now) && RowOf(w, q, 1, now) == FirstRow();
    assert MatchesQuery(w, q, 2, now) && RowOf(w, q, 2, now) == SecondRow();
    assert w.db.flights.Keys == {1, 2};
  }

  lemma TwoInOrder()
    ensures InOrder({FirstRow(), SecondRow()}, BY_DEPARTURE) == [FirstRow(), SecondRow()]
  {
    RowOrder(BY_DEPARTURE);
    IncreasingUnique(InOrder({FirstRow(), SecondRow()}, BY_DEPARTURE), [FirstRow(), SecondRow()], ByKey(BY_DEPARTURE));
  }

  /**
   * The concrete case, in tables a legal run leaves: the first page holds one
   * flight of two and a cursor for the other, every search refuses that
   * cursor, and so the walk lists one flight and never finishes, whatever is
   * read later.
   */
  lemma LateDepartureIsRefused(now: Instant, later: seq<Reading>)
    requires now < NEW_YEAR - HOUR_MS
    ensures Legal(EMPTY, Opening()) && Run(EMPTY, Opening()) == Everywhere().db
    ensures
      var page := SearchFlights(Everywhere(), OnNewYear(), None, now);
      && page == PageOf([FirstRow()], true, Some(Encode(FirstRow(), ScopeOf(OnNewYear()))))
      && (forall w, at :: SearchFlights(w, OnNewYear(), page.nextCursor, at).InvalidCursor?)
    ensures Walk([Reading(Everywhere(), now)] + later, OnNewYear(), None) == Walked([FirstRow()], false)
  {
    hide Matching, InOrder, Opening, TwoFlights;
    OpeningHappens();
    FirstPage(now);
    var page := SearchFlights(Everywhere(), OnNewYear(), None, now);
    RoundTrip(FirstRow(), ScopeOf(OnNewYear()));
    var readings := [Reading(Everywhere(), now)] + later;
    assert readings[1..] == later;
    if later != [] {
      assert SearchFlights(later[0].world, OnNewYear(), page.nextCursor, later[0].now).InvalidCursor?;
    }
  }

  lemma FirstPage(now: Instant)
    requires now < NEW_YEAR - HOUR_MS
    ensures SearchFlights(Everywhere(), OnNewYear(), None, now)
         == PageOf([FirstRow()], true, Some(Encode(FirstRow(), ScopeOf(OnNewYear()))))
  {
    hide Matching, InOrder;
    TwoMatch(now);
    TwoInOrder();
    assert After({FirstRow(), SecondRow()}, BY_DEPARTURE, None) == {FirstRow(), SecondRow()};
    assert [FirstRow(), SecondRow()][..1] == [FirstRow()];
  }
}

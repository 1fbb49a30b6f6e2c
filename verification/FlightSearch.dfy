/** flight-search-sql.ts and postgres-flight-search.ts: matching, lowest fare, one page after a key. */
module FlightSearch {
  import opened Basics
  import opened Ordering
  import opened Schema
  import opened Lifecycle
  import opened Transactions

  datatype Sort = BY_DEPARTURE | BY_PRICE

  /** A validated search; its local dates are given as the interval of instants they stand for. */
  datatype Query = Query(
    origin: string, destination: string, from: Instant, to: Instant, passengers: nat, sort: Sort, limit: nat)

  /** What one statement reads: the tables, and each flight's route. */
  datatype World = World(db: Tables, routes: map<Id, (string, string)>)

  /** One row of the result: the part the order and the cursor use. */
  datatype Row = Row(departureAt: Instant, id: Id, lowestFare: nat)

  function Available(t: Tables, f: Id, fareClass: FareClass): nat { |FreeSeats(t, f, fareClass)| }

  predicate IsCandidate(w: World, q: Query, f: Id, now: Instant) {
    && f in w.db.flights && f in w.routes && w.routes[f] == (q.origin, q.destination)
    && q.from <= w.db.flights[f].departureAt < q.to
    && OnSale(w.db.flights[f], now)
  }

  predicate HasRoom(t: Tables, f: Id, fareClass: FareClass, passengers: nat) {
    (f, fareClass) in t.fares && Available(t, f, fareClass) >= passengers
  }

  predicate MatchesQuery(w: World, q: Query, f: Id, now: Instant) {
    IsCandidate(w, q, f, now) && (HasRoom(w.db, f, ECONOMY, q.passengers) || HasRoom(w.db, f, BUSINESS, q.passengers))
  }

  /** The cheapest class with room for everybody. */
  function LowestFare(t: Tables, f: Id, passengers: nat): (fare: nat)
    requires HasRoom(t, f, ECONOMY, passengers) || HasRoom(t, f, BUSINESS, passengers)
    ensures
      || (HasRoom(t, f, ECONOMY, passengers) && fare == t.fares[(f, ECONOMY)])
      || (HasRoom(t, f, BUSINESS, passengers) && fare == t.fares[(f, BUSINESS)])
    ensures HasRoom(t, f, ECONOMY, passengers) ==> fare <= t.fares[(f, ECONOMY)]
    ensures HasRoom(t, f, BUSINESS, passengers) ==> fare <= t.fares[(f, BUSINESS)]
  {
    if !HasRoom(t, f, BUSINESS, passengers) then t.fares[(f, ECONOMY)]
    else if !HasRoom(t, f, ECONOMY, passengers) then t.fares[(f, BUSINESS)]
    else Min(t.fares[(f, ECONOMY)], t.fares[(f, BUSINESS)])
  }

  function RowOf(w: World, q: Query, f: Id, now: Instant): Row
    requires MatchesQuery(w, q, f, now)
  {
    Row(w.db.flights[f].departureAt, f, LowestFare(w.db, f, q.passengers))
  }

  function Matching(w: World, q: Query, now: Instant): set<Row> {
    set f | f in w.db.flights && MatchesQuery(w, q, f, now) :: RowOf(w, q, f, now)
  }

  // ---- The order ----

  predicate TimeThenId(a: Row, b: Row) {
    a.departureAt < b.departureAt || (a.departureAt == b.departureAt && a.id < b.id)
  }

  /** Strictly after in the sort key: what the keyset condition compares. */
  predicate KeyLess(sort: Sort, a: Row, b: Row) {
    match sort
    case BY_DEPARTURE => TimeThenId(a, b)
    case BY_PRICE => a.lowestFare < b.lowestFare || (a.lowestFare == b.lowestFare && TimeThenId(a, b))
  }

  /** ORDER BY: the sort key, made total over all rows (two rows of one result never share an id). */
  predicate RowLess(sort: Sort, a: Row, b: Row) {
    KeyLess(sort, a, b) || (!KeyLess(sort, b, a) && a.lowestFare < b.lowestFare)
  }

  function ByKey(sort: Sort): (Row, Row) -> bool { (a, b) => RowLess(sort, a, b) }

  lemma RowOrder(sort: Sort)
    ensures StrictTotalOrder(ByKey(sort))
  {
  }

  function InOrder(rows: set<Row>, sort: Sort): (r: seq<Row>)
    ensures |r| == |rows|
    ensures forall x :: x in r <==> x in rows
    ensures Increasing(r, ByKey(sort))
  {
    RowOrder(sort);
    Sorted(rows, ByKey(sort))
  }

  // ---- One page ----

  datatype Page = Page(items: seq<Row>, hasNextPage: bool)

  function After(rows: set<Row>, sort: Sort, after: Option<Row>): set<Row> {
    set x | x in rows && (after.None? || KeyLess(sort, after.value, x))
  }

  function Take(rows: seq<Row>, n: nat): seq<Row> { if |rows| <= n then rows else rows[..n] }

  /** `limit + 1` rows are fetched; the extra one only says that a next page exists. */
  function Search(w: World, q: Query, after: Option<Row>, now: Instant): Page {
    var rows := Take(InOrder(After(Matching(w, q, now), q.sort, after), q.sort), q.limit + 1);
    Page(Take(rows, q.limit), |rows| > q.limit)
  }

  /** What a page promises: in order, past the cursor, and nothing that belongs before its end is missing. */
  lemma PageIsExact(w: World, q: Query, after: Option<Row>, now: Instant)
    ensures
      var all := InOrder(After(Matching(w, q, now), q.sort, after), q.sort);
      var page := Search(w, q, after, now);
      && page.items == Take(all, q.limit)
      && (page.hasNextPage <==> |all| > q.limit)
  {
  }

  lemma OneRowPerFlight(w: World, q: Query, now: Instant, a: Row, b: Row)
    requires a in Matching(w, q, now) && b in Matching(w, q, now) && a.id == b.id
    ensures a == b
  {
  }
}

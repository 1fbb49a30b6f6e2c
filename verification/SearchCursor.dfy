/**
 * search-cursor.ts: a cursor is the last row's sort key sealed to the search
 * that produced it. The hash is an injective function, base64url and JSON
 * lossless; what a client sends may be anything.
 */
module SearchCursor {
  import opened Basics
  import opened FlightSearch

  /** Everything a cursor belongs to: the search without its page. */
  datatype SearchScope = SearchScope(
    origin: string, destination: string, from: Instant, to: Instant, passengers: nat, sort: Sort)

  function ScopeOf(q: Query): SearchScope { SearchScope(q.origin, q.destination, q.from, q.to, q.passengers, q.sort) }

  /** One entry of a cursor's key as JSON carries it. */
  datatype KeyEntry = Number(n: int) | Time(at: Instant) | Uuid(id: Id) | Other(text: string)

  /** SHA-256 taken as injective: a seal is what it was made from. */
  datatype Seal = Seal(version: int, key: seq<KeyEntry>, scope: SearchScope) | Text(text: string)

  /**
   * What the wire carries once decoded: not JSON, not an object of this
   * shape, or the three fields and whatever else the JSON text holds (other
   * fields, spaces).
   */
  datatype Cursor = Damaged(text: string) | Sealed(v: int, k: seq<KeyEntry>, s: Seal, extra: string)

  const VERSION := 1

  /** ISO_INSTANT has four year digits: 0000-01-01 to 9999-12-31. */
  const FIRST_FOUR_DIGIT_INSTANT := -62167219200000
  const LAST_FOUR_DIGIT_INSTANT := 253402300799999

  predicate HasFourDigitYear(at: Instant) { FIRST_FOUR_DIGIT_INSTANT <= at <= LAST_FOUR_DIGIT_INSTANT }

  function SortKey(row: Row, sort: Sort): seq<KeyEntry> {
    if sort.BY_PRICE? then [Number(row.lowestFare), Time(row.departureAt), Uuid(row.id)]
    else [Time(row.departureAt), Uuid(row.id)]
  }

  function Encode(row: Row, scope: SearchScope): Cursor {
    var k := SortKey(row, scope.sort);
    Sealed(VERSION, k, Seal(VERSION, k, scope), "")
  }

  function ReadKey(k: seq<KeyEntry>, sort: Sort): Option<Row> {
    var parts := if sort.BY_PRICE? then k else [Number(0)] + k;
    if |k| != (if sort.BY_PRICE? then 3 else 2) then None
    else if !(parts[1].Time? && HasFourDigitYear(parts[1].at)) then None
    else if !parts[2].Uuid? then None
    else if !(parts[0].Number? && 0 <= parts[0].n <= MAX_SAFE_INTEGER) then None
    else Some(Row(parts[1].at, parts[2].id, parts[0].n))
  }

  function Decode(cursor: Cursor, scope: SearchScope): Option<Row> {
    if cursor.Damaged? || cursor.v != VERSION then None
    else
      var row := ReadKey(cursor.k, scope.sort);
      if row.None? || cursor.s != Seal(VERSION, cursor.k, scope) then None else row
  }

  /** The part of a row its own order uses. */
  function KeyPart(row: Row, sort: Sort): Row { if sort.BY_PRICE? then row else row.(lowestFare := 0) }

  /**
   * Round trip: the next page's cursor is read back exactly when the last
   * departure has a four-digit year (and, by price, the fare is a safe
   * integer); a later year makes the code refuse its own cursor.
   */
  lemma RoundTrip(row: Row, scope: SearchScope)
    ensures Decode(Encode(row, scope), scope) == Some(KeyPart(row, scope.sort))
      <==> -62167219200000 <= row.departureAt <= 253402300799999
           && (scope.sort.BY_PRICE? ==> row.lowestFare <= 9007199254740991)
    ensures Decode(Encode(row, scope), scope).Some? ==>
      Decode(Encode(row, scope), scope) == Some(KeyPart(row, scope.sort))
  {
  }

  /** A cursor made for another search is refused. */
  lemma WrongScopeIsRefused(row: Row, made: SearchScope, used: SearchScope)
    requires made != used
    ensures Decode(Encode(row, made), used).None?
  {
  }

  /** Never a best guess: what is accepted is the cursor this search makes for that key, but for text nobody reads. */
  lemma AcceptedMeansMade(cursor: Cursor, scope: SearchScope)
    requires Decode(cursor, scope).Some?
    ensures cursor.Sealed? && cursor.v == 1 && cursor.(extra := "") == Encode(Decode(cursor, scope).value, scope)
  {
  }

  /** The keyset condition cannot tell a row from its key part. */
  lemma KeyPartIsEnough(row: Row, x: Row, sort: Sort)
    ensures KeyLess(sort, KeyPart(row, sort), x) <==> KeyLess(sort, row, x)
  {
  }
}

/** seat-layout.ts: a compact cabin description becomes one seat per position, or every problem found. */
module SeatLayout {
  import opened Basics
  import opened Counting
  import opened Schema

  const MAX_CABINS := 10
  const MAX_LETTERS_PER_ROW := 10
  const MAX_SEATS := 900
  const MIN_ROW := 1
  const MAX_ROW := 99

  /** A cabin as the request sends it; None is a value of the wrong type. */
  datatype RawCabin =
    | NotAnObject
    | RawCabin(fareClass: Option<FareClass>, fromRow: Option<int>, toRow: Option<int>, letters: Option<string>)

  datatype Cabin = Cabin(fareClass: FareClass, fromRow: nat, toRow: nat, letters: string)

  datatype LayoutSeat = LayoutSeat(position: SeatPosition, fareClass: FareClass)

  datatype Code =
    | INVALID_CABIN | INVALID_FARE_CLASS | INVALID_ROW | INVALID_ROW_RANGE
    | INVALID_SEAT_LETTERS | DUPLICATE_SEAT_LETTER

  datatype Issue =
    | InvalidSeatLayout
    | InvalidCabinCount
    | CabinIssue(cabin: nat, code: Code)
    | RowsOverlap(cabin: nat, earlier: nat)
    | TooManySeats(total: nat)

  datatype Expansion = Expanded(seats: seq<LayoutSeat>) | Rejected(issues: seq<Issue>)

  // ---- What a valid layout is ----

  predicate IsSeatLetter(c: char) { 'A' <= c <= 'K' }

  predicate RowOk(row: Option<int>) { row.Some? && MIN_ROW <= row.value <= MAX_ROW }

  predicate LettersOk(letters: string) {
    && 1 <= |letters| <= MAX_LETTERS_PER_ROW
    && (forall i | 0 <= i < |letters| :: IsSeatLetter(letters[i]))
    && Distinct(letters)
  }

  predicate CabinOk(raw: RawCabin) {
    && raw.RawCabin? && raw.fareClass.Some? && RowOk(raw.fromRow) && RowOk(raw.toRow)
    && raw.fromRow.value <= raw.toRow.value
    && raw.letters.Some? && LettersOk(raw.letters.value)
  }

  function CabinOf(raw: RawCabin): Cabin
    requires CabinOk(raw)
  {
    Cabin(raw.fareClass.value, raw.fromRow.value, raw.toRow.value, raw.letters.value)
  }

  /** A parsed cabin: what CabinOk leaves. */
  predicate IsCabin(c: Cabin) { MIN_ROW <= c.fromRow <= c.toRow <= MAX_ROW && LettersOk(c.letters) }

  predicate Overlap(a: Cabin, b: Cabin) { a.fromRow <= b.toRow && b.fromRow <= a.toRow }

  predicate PairOverlaps(cabins: seq<Cabin>, c: nat, e: nat) {
    e < c < |cabins| && Overlap(cabins[c], cabins[e])
  }

  predicate NoOverlaps(cabins: seq<Cabin>) {
    forall i, j | 0 <= i < j < |cabins| :: !Overlap(cabins[i], cabins[j])
  }

  function SeatCount(c: Cabin): nat
    requires c.fromRow <= c.toRow
  {
    (c.toRow - c.fromRow + 1) * |c.letters|
  }

  function TotalSeats(cabins: seq<Cabin>): nat
    requires forall i | 0 <= i < |cabins| :: IsCabin(cabins[i])
  {
    if cabins == [] then 0
    else
      var last := cabins[|cabins| - 1];
      assert IsCabin(last);
      TotalSeats(cabins[..|cabins| - 1]) + SeatCount(last)
  }

  function CabinsOf(raw: seq<RawCabin>): (r: seq<Cabin>)
    requires forall i | 0 <= i < |raw| :: CabinOk(raw[i])
    ensures |r| == |raw| && forall i | 0 <= i < |r| :: r[i] == CabinOf(raw[i]) && IsCabin(r[i])
  {
    assert forall i | 0 <= i < |raw| :: CabinOk(raw[i]) && IsCabin(CabinOf(raw[i]));
    seq(|raw|, i requires 0 <= i < |raw| => CabinOf(raw[i]))
  }

  /** A cabin that can be built: a class, rows upwards within 1 to 99, and 1 to 10 different letters from A to K. */
  predicate Buildable(raw: RawCabin) {
    && raw.RawCabin? && raw.fareClass.Some? && raw.fromRow.Some? && raw.toRow.Some? && raw.letters.Some?
    && 1 <= raw.fromRow.value <= raw.toRow.value <= 99
    && var letters := raw.letters.value;
       && 1 <= |letters| <= 10 && (forall i | 0 <= i < |letters| :: 'A' <= letters[i] <= 'K')
       && forall i, j | 0 <= i < j < |letters| :: letters[i] != letters[j]
  }

  lemma CabinOkIff(raw: RawCabin)
    ensures CabinOk(raw) <==> Buildable(raw)
  {
  }

  /** Every cabin's rows lie before or behind every other's. */
  predicate RowsApart(cabins: seq<Cabin>) {
    forall i, j | 0 <= i < j < |cabins| ::
      cabins[i].toRow < cabins[j].fromRow || cabins[j].toRow < cabins[i].fromRow
  }

  /** One to ten buildable cabins with their rows apart, and at most 900 seats in all. */
  predicate LayoutOk(raw: seq<RawCabin>) {
    && 1 <= |raw| <= 10 && (forall i | 0 <= i < |raw| :: Buildable(raw[i]) && CabinOk(raw[i]))
    && RowsApart(CabinsOf(raw)) && TotalSeats(CabinsOf(raw)) <= 900
  }

  lemma ApartIff(cabins: seq<Cabin>)
    ensures RowsApart(cabins) <==> NoOverlaps(cabins)
  {
    forall i, j | 0 <= i < j < |cabins|
      ensures Overlap(cabins[i], cabins[j]) <==>
        !(cabins[i].toRow < cabins[j].fromRow || cabins[j].toRow < cabins[i].fromRow)
    {
    }
  }

  // ---- The seats of a layout ----

  function RowSeats(c: Cabin, row: nat): (r: seq<LayoutSeat>)
    ensures |r| == |c.letters|
    ensures forall i | 0 <= i < |r| :: r[i] == LayoutSeat(SeatPosition(row, c.letters[i]), c.fareClass)
  {
    seq(|c.letters|, i requires 0 <= i < |c.letters| => LayoutSeat(SeatPosition(row, c.letters[i]), c.fareClass))
  }

  /** Rows fromRow up to, not including, `end`. */
  function SeatsBefore(c: Cabin, end: nat): seq<LayoutSeat>
    requires c.fromRow <= end
    decreases end - c.fromRow
  {
    if end == c.fromRow then [] else SeatsBefore(c, end - 1) + RowSeats(c, end - 1)
  }

  function CabinSeats(c: Cabin): seq<LayoutSeat>
    requires c.fromRow <= c.toRow
  {
    SeatsBefore(c, c.toRow + 1)
  }

  function LayoutSeats(cabins: seq<Cabin>): seq<LayoutSeat>
    requires forall i | 0 <= i < |cabins| :: IsCabin(cabins[i])
  {
    if cabins == [] then []
    else
      var last := cabins[|cabins| - 1];
      assert IsCabin(last);
      LayoutSeats(cabins[..|cabins| - 1]) + CabinSeats(last)
  }

  predicate InCabin(c: Cabin, s: LayoutSeat) {
    c.fromRow <= s.position.row <= c.toRow && s.position.letter in c.letters && s.fareClass == c.fareClass
  }

  predicate DistinctPositions(seats: seq<LayoutSeat>) {
    forall i, j | 0 <= i < j < |seats| :: seats[i].position != seats[j].position
  }

  lemma RowIsExact(c: Cabin, row: nat)
    requires LettersOk(c.letters)
    ensures DistinctPositions(RowSeats(c, row))
    ensures forall s :: s in RowSeats(c, row) <==>
      s.position.row == row && s.position.letter in c.letters && s.fareClass == c.fareClass
  {
  }

  /** The rows so far: every position once, exactly the cabin's, `letters` per row. */
  lemma {:induction false} RowsAreExact(c: Cabin, end: nat)
    requires IsCabin(c) && c.fromRow <= end
    ensures |SeatsBefore(c, end)| == (end - c.fromRow) * |c.letters|
    ensures DistinctPositions(SeatsBefore(c, end))
    ensures forall s :: s in SeatsBefore(c, end) <==>
      c.fromRow <= s.position.row < end && s.position.letter in c.letters && s.fareClass == c.fareClass
    decreases end
  {
    hide DistinctPositions;
    if end == c.fromRow {
      EmptyLayout();
    } else {
      RowsAreExact(c, end - 1);
      var before, row := SeatsBefore(c, end - 1), RowSeats(c, end - 1);
      assert (end - c.fromRow) * |c.letters| == (end - 1 - c.fromRow) * |c.letters| + |c.letters|;
      RowIsExact(c, end - 1);
      DistinctJoin(before, row);
    }
  }

  lemma DistinctJoin(a: seq<LayoutSeat>, b: seq<LayoutSeat>)
    requires DistinctPositions(a) && DistinctPositions(b)
    requires forall s, t | s in a && t in b :: s.position != t.position
    ensures DistinctPositions(a + b)
  {
  }

  predicate InSome(cabins: seq<Cabin>, s: LayoutSeat) { exists i :: 0 <= i < |cabins| && InCabin(cabins[i], s) }

  lemma InSomeLast(cabins: seq<Cabin>, s: LayoutSeat)
    requires cabins != []
    ensures InSome(cabins, s) <==> InSome(cabins[..|cabins| - 1], s) || InCabin(cabins[|cabins| - 1], s)
  {
  }

  /** Distinct positions, exactly the summed cabin sizes, exactly the cabins' seats. */
  lemma {:induction false} LayoutIsExact(cabins: seq<Cabin>)
    requires (forall i | 0 <= i < |cabins| :: IsCabin(cabins[i])) && NoOverlaps(cabins)
    ensures |LayoutSeats(cabins)| == TotalSeats(cabins)
    ensures DistinctPositions(LayoutSeats(cabins))
    ensures forall s :: s in LayoutSeats(cabins) <==> InSome(cabins, s)
  {
    hide DistinctPositions, LettersOk, InSome;
    if cabins == [] {
      EmptyLayout();
    } else {
      var last := |cabins| - 1;
      var front := cabins[..last];
      LayoutIsExact(front);
      assert IsCabin(cabins[last]);
      RowsAreExact(cabins[last], cabins[last].toRow + 1);
      var before, these := LayoutSeats(front), CabinSeats(cabins[last]);
      forall s, t | s in before && t in these ensures s.position != t.position {
        ApartFromLast(cabins, s);
      }
      DistinctJoin(before, these);
      forall s ensures s in LayoutSeats(cabins) <==> InSome(cabins, s) {
        InSomeLast(cabins, s);
      }
    }
  }

  lemma EmptyLayout()
    ensures DistinctPositions([]) && forall s :: !InSome([], s)
  {
  }

  lemma ApartFromLast(cabins: seq<Cabin>, s: LayoutSeat)
    requires cabins != [] && NoOverlaps(cabins) && InSome(cabins[..|cabins| - 1], s)
    ensures !(cabins[|cabins| - 1].fromRow <= s.position.row <= cabins[|cabins| - 1].toRow)
  {
  }

  // ---- Parsing ----

  method ParseSeatLetters(raw: Option<string>, cabin: nat, issues: seq<Issue>)
    returns (letters: Option<string>, found: seq<Issue>)
    ensures issues <= found
    ensures letters == (if raw.Some? && LettersOk(raw.value) then raw else None)
    ensures letters.Some? <==> found == issues
  {
    if raw.None? || raw.value == "" || |raw.value| > MAX_LETTERS_PER_ROW {
      return None, issues + [CabinIssue(cabin, INVALID_SEAT_LETTERS)];
    }
    if !(forall i | 0 <= i < |raw.value| :: IsSeatLetter(raw.value[i])) {
      return None, issues + [CabinIssue(cabin, INVALID_SEAT_LETTERS)];
    }
    if !Distinct(raw.value) {
      return None, issues + [CabinIssue(cabin, DUPLICATE_SEAT_LETTER)];
    }
    return raw, issues;
  }

  /** Every problem of the cabin is pushed; no issue means a cabin. */
  method ParseCabin(raw: RawCabin, cabin: nat, issues: seq<Issue>) returns (c: Option<Cabin>, found: seq<Issue>)
    ensures issues <= found
    ensures c == (if CabinOk(raw) then Some(CabinOf(raw)) else None)
    ensures c.Some? <==> Buildable(raw)
    ensures c.Some? ==> raw == RawCabin(Some(c.value.fareClass), Some(c.value.fromRow), Some(c.value.toRow), Some(c.value.letters))
    ensures c.Some? <==> found == issues
  {
    CabinOkIff(raw);
    found := issues;
    if raw.NotAnObject? {
      return None, found + [CabinIssue(cabin, INVALID_CABIN)];
    }
    if raw.fareClass.None? {
      found := found + [CabinIssue(cabin, INVALID_FARE_CLASS)];
    }
    if !RowOk(raw.fromRow) {
      found := found + [CabinIssue(cabin, INVALID_ROW)];
    }
    if !RowOk(raw.toRow) {
      found := found + [CabinIssue(cabin, INVALID_ROW)];
    }
    if RowOk(raw.fromRow) && RowOk(raw.toRow) && raw.fromRow.value > raw.toRow.value {
      found := found + [CabinIssue(cabin, INVALID_ROW_RANGE)];
    }
    var letters;
    letters, found := ParseSeatLetters(raw.letters, cabin, found);
    if |found| > |issues| || letters.None? {
      return None, found;
    }
    return Some(Cabin(raw.fareClass.value, raw.fromRow.value, raw.toRow.value, letters.value)), found;
  }

  method ParseCabins(raw: seq<RawCabin>) returns (cabins: seq<Cabin>, issues: seq<Issue>)
    ensures issues == [] <==> forall i | 0 <= i < |raw| :: CabinOk(raw[i])
    ensures issues == [] ==> cabins == CabinsOf(raw)
  {
    cabins, issues := [], [];
    var i := 0;
    while i < |raw|
      invariant 0 <= i <= |raw|
      invariant issues == [] <==> forall k | 0 <= k < i :: CabinOk(raw[k])
      invariant issues == [] ==> |cabins| == i && forall k | 0 <= k < i :: cabins[k] == CabinOf(raw[k])
    {
      var c, found := ParseCabin(raw[i], i, issues);
      if c.Some? {
        cabins := cabins + [c.value];
      }
      issues, i := found, i + 1;
    }
  }

  lemma InAppend(issues: seq<Issue>, issue: Issue)
    ensures forall x :: x in issues + [issue] <==> x in issues || x == issue
  {
  }

  /** One issue for each pair of cabins that share a row, and for no other pair. */
  method FindOverlaps(cabins: seq<Cabin>) returns (issues: seq<Issue>)
    requires forall i | 0 <= i < |cabins| :: IsCabin(cabins[i])
    ensures forall c: nat, e: nat :: RowsOverlap(c, e) in issues <==> PairOverlaps(cabins, c, e)
    ensures Distinct(issues) && forall x | x in issues :: x.RowsOverlap?
  {
    issues := [];
    var i := 0;
    while i < |cabins|
      invariant 0 <= i <= |cabins| && Distinct(issues)
      invariant forall c: nat, e: nat :: RowsOverlap(c, e) in issues <==> PairOverlaps(cabins, c, e) && c < i
      invariant forall x | x in issues :: x.RowsOverlap?
    {
      var earlier := 0;
      while earlier < i
        invariant 0 <= earlier <= i && Distinct(issues)
        invariant forall c: nat, e: nat :: RowsOverlap(c, e) in issues <==>
          PairOverlaps(cabins, c, e) && (c < i || (c == i && e < earlier))
        invariant forall x | x in issues :: x.RowsOverlap?
      {
        var firstRow := if cabins[i].fromRow >= cabins[earlier].fromRow then cabins[i].fromRow else cabins[earlier].fromRow;
        var lastRow := if cabins[i].toRow <= cabins[earlier].toRow then cabins[i].toRow else cabins[earlier].toRow;
        assert IsCabin(cabins[i]) && IsCabin(cabins[earlier]);
        assert PairOverlaps(cabins, i, earlier) <==> firstRow <= lastRow;
        if firstRow <= lastRow {
          InAppend(issues, RowsOverlap(i, earlier));
          issues := issues + [RowsOverlap(i, earlier)];
        }
        earlier := earlier + 1;
      }
      i := i + 1;
    }
  }

  // ---- Expanding ----

  method SumSeats(cabins: seq<Cabin>) returns (total: nat)
    requires forall i | 0 <= i < |cabins| :: IsCabin(cabins[i])
    ensures total == TotalSeats(cabins)
  {
    total := 0;
    var i := 0;
    while i < |cabins|
      invariant 0 <= i <= |cabins| && total == TotalSeats(cabins[..i])
    {
      assert cabins[..i + 1][..i] == cabins[..i];
      total, i := total + SeatCount(cabins[i]), i + 1;
    }
    assert cabins[..i] == cabins;
  }

  method ExpandCabin(c: Cabin, before: seq<LayoutSeat>) returns (seats: seq<LayoutSeat>)
    requires IsCabin(c)
    ensures seats == before + CabinSeats(c)
  {
    seats := before;
    var row := c.fromRow;
    while row <= c.toRow
      invariant c.fromRow <= row <= c.toRow + 1 && seats == before + SeatsBefore(c, row)
    {
      var i := 0;
      while i < |c.letters|
        invariant 0 <= i <= |c.letters| && seats == before + SeatsBefore(c, row) + RowSeats(c, row)[..i]
      {
        assert RowSeats(c, row)[..i + 1] == RowSeats(c, row)[..i] + [LayoutSeat(SeatPosition(row, c.letters[i]), c.fareClass)];
        seats, i := seats + [LayoutSeat(SeatPosition(row, c.letters[i]), c.fareClass)], i + 1;
      }
      assert RowSeats(c, row)[..i] == RowSeats(c, row);
      row := row + 1;
    }
  }

  /**
   * The layout is expanded exactly when it is valid: at most 900 seats, every
   * position once, exactly the seats of its cabins; otherwise every problem
   * comes back and nothing is expanded.
   */
  method ExpandSeatLayout(input: Option<seq<RawCabin>>) returns (r: Expansion)
    ensures r.Expanded? <==> input.Some? && LayoutOk(input.value)
    ensures r.Expanded? ==>
      && |r.seats| == TotalSeats(CabinsOf(input.value)) <= 900
      && DistinctPositions(r.seats)
      && forall s :: s in r.seats <==> InSome(CabinsOf(input.value), s)
    ensures r.Rejected? ==> r.issues != []
  {
    if input.None? {
      return Rejected([InvalidSeatLayout]);
    }
    var raw := input.value;
    if |raw| == 0 || |raw| > MAX_CABINS {
      return Rejected([InvalidCabinCount]);
    }
    var cabins, issues := ParseCabins(raw);
    AllBuildable(raw);
    if issues != [] {
      return Rejected(issues);
    }
    ApartIff(cabins);
    issues := FindOverlaps(cabins);
    NoIssueMeansNoOverlap(cabins, issues);
    var total := SumSeats(cabins);
    if total > MAX_SEATS {
      issues := issues + [TooManySeats(total)];
    }
    if issues != [] {
      return Rejected(issues);
    }
    var seats := ExpandAll(cabins);
    LayoutIsExact(cabins);
    return Expanded(seats);
  }

  lemma AllBuildable(raw: seq<RawCabin>)
    ensures (forall i | 0 <= i < |raw| :: CabinOk(raw[i])) <==> (forall i | 0 <= i < |raw| :: Buildable(raw[i]))
  {
    forall i | 0 <= i < |raw| ensures CabinOk(raw[i]) <==> Buildable(raw[i]) {
      CabinOkIff(raw[i]);
    }
  }

  lemma NoIssueMeansNoOverlap(cabins: seq<Cabin>, issues: seq<Issue>)
    requires forall c: nat, e: nat :: RowsOverlap(c, e) in issues <==> PairOverlaps(cabins, c, e)
    requires forall x | x in issues :: x.RowsOverlap?
    ensures issues == [] <==> NoOverlaps(cabins)
  {
    if issues != [] {
      var x := issues[0];
      assert x in issues;
      assert RowsOverlap(x.cabin, x.earlier) in issues;
    } else {
      forall i, j | 0 <= i < j < |cabins| ensures !Overlap(cabins[i], cabins[j]) {
        assert RowsOverlap(j, i) !in issues;
      }
    }
  }

  method ExpandAll(cabins: seq<Cabin>) returns (seats: seq<LayoutSeat>)
    requires forall i | 0 <= i < |cabins| :: IsCabin(cabins[i])
    ensures seats == LayoutSeats(cabins)
  {
    seats := [];
    var i := 0;
    while i < |cabins|
      invariant 0 <= i <= |cabins| && seats == LayoutSeats(cabins[..i])
    {
      seats := ExpandCabin(cabins[i], seats);
      assert cabins[..i + 1][..i] == cabins[..i];
      i := i + 1;
    }
    assert cabins[..i] == cabins;
  }

  // ---- Counting by class ----

  function ClassSeats(cabins: seq<Cabin>, fareClass: FareClass): nat
    requires forall i | 0 <= i < |cabins| :: IsCabin(cabins[i])
  {
    if cabins == [] then 0
    else
      var last := cabins[|cabins| - 1];
      assert IsCabin(last);
      ClassSeats(cabins[..|cabins| - 1], fareClass) + (if last.fareClass == fareClass then SeatCount(last) else 0)
  }

  function CountClass(seats: seq<LayoutSeat>, fareClass: FareClass): nat {
    if seats == [] then 0
    else CountClass(seats[..|seats| - 1], fareClass) + (if seats[|seats| - 1].fareClass == fareClass then 1 else 0)
  }

  lemma {:induction false} CountClassAdds(a: seq<LayoutSeat>, b: seq<LayoutSeat>, fareClass: FareClass)
    ensures CountClass(a + b, fareClass) == CountClass(a, fareClass) + CountClass(b, fareClass)
    decreases |b|
  {
    if b == [] {
      assert a + b == a;
    } else {
      assert (a + b)[..|a + b| - 1] == a + b[..|b| - 1];
      CountClassAdds(a, b[..|b| - 1], fareClass);
    }
  }

  lemma {:induction false} OneClassCounts(seats: seq<LayoutSeat>, own: FareClass, fareClass: FareClass)
    requires forall i | 0 <= i < |seats| :: seats[i].fareClass == own
    ensures CountClass(seats, fareClass) == if own == fareClass then |seats| else 0
  {
    if seats != [] { OneClassCounts(seats[..|seats| - 1], own, fareClass); }
  }

  /** A class counted seat by seat is the size of its cabins. */
  lemma {:induction false} ClassesAddUp(cabins: seq<Cabin>, fareClass: FareClass)
    requires forall i | 0 <= i < |cabins| :: IsCabin(cabins[i])
    ensures CountClass(LayoutSeats(cabins), fareClass) == ClassSeats(cabins, fareClass)
  {
    hide LettersOk, CountClass, DistinctPositions;
    if cabins == [] {
      OneClassCounts([], fareClass, fareClass);
    } else {
      var last := cabins[|cabins| - 1];
      var front := cabins[..|cabins| - 1];
      assert IsCabin(last);
      ClassesAddUp(front, fareClass);
      RowsAreExact(last, last.toRow + 1);
      var these := CabinSeats(last);
      forall i | 0 <= i < |these| ensures these[i].fareClass == last.fareClass {
        assert these[i] in these;
      }
      OneClassCounts(these, last.fareClass, fareClass);
      CountClassAdds(LayoutSeats(front), these, fareClass);
    }
  }

  method CountSeatsByFareClass(seats: seq<LayoutSeat>) returns (economy: nat, business: nat)
    ensures economy == CountClass(seats, ECONOMY) && business == CountClass(seats, BUSINESS)
    ensures economy + business == |seats|
  {
    economy, business := 0, 0;
    var i := 0;
    while i < |seats|
      invariant 0 <= i <= |seats| && economy + business == i
      invariant economy == CountClass(seats[..i], ECONOMY) && business == CountClass(seats[..i], BUSINESS)
    {
      assert seats[..i + 1][..i] == seats[..i];
      if seats[i].fareClass.ECONOMY? { economy := economy + 1; } else { business := business + 1; }
      i := i + 1;
    }
    assert seats[..i] == seats;
  }
}

/** booking-validation.ts: the body of a create request, and what the hold may rely on once it is valid. */
module BookingValidation {
  import opened Basics
  import opened Counting
  import opened Schema
  import opened Transactions

  // ---- Seat codes (seat-position.ts) ----

  predicate IsDigit(c: char) { '0' <= c <= '9' }

  function DigitValue(c: char): nat
    requires IsDigit(c)
  {
    (c - '0') as nat
  }

  predicate IsLetter(c: char) { 'A' <= c <= 'K' }

  /** A row 1 to 99 without leading zero, then a letter A to K. */
  function ParseSeatPosition(code: string): Option<SeatPosition> {
    if |code| == 2 && IsDigit(code[0]) && code[0] != '0' && IsLetter(code[1]) then
      Some(SeatPosition(DigitValue(code[0]), code[1]))
    else if |code| == 3 && IsDigit(code[0]) && code[0] != '0' && IsDigit(code[1]) && IsLetter(code[2]) then
      Some(SeatPosition(10 * DigitValue(code[0]) + DigitValue(code[1]), code[2]))
    else None
  }

  function DigitOf(n: nat): char
    requires n < 10
  {
    '0' + n as char
  }

  /** The row in decimal, then the letter; rows are below 100. */
  function FormatSeatPosition(p: SeatPosition): string
    requires p.row < 100
  {
    (if p.row < 10 then [DigitOf(p.row)] else [DigitOf(p.row / 10), DigitOf(p.row % 10)]) + [p.letter]
  }

  /** A valid code is the one rendering of its seat, so comparing codes is comparing seats. */
  lemma CodeIsItsSeat(code: string)
    requires ParseSeatPosition(code).Some?
    ensures ParseSeatPosition(code).value.row < 100
    ensures FormatSeatPosition(ParseSeatPosition(code).value) == code
  {
  }

  /** The seat codes are exactly these: the row 1 to 99 in decimal without leading zeros, then the letter A to K. */
  lemma CodeIff(code: string, p: SeatPosition)
    ensures ParseSeatPosition(code) == Some(p) <==>
      var digits := "0123456789";
      && 1 <= p.row <= 99 && 'A' <= p.letter <= 'K'
      && code == (if p.row < 10 then [digits[p.row]] else [digits[p.row / 10], digits[p.row % 10]]) + [p.letter]
  {
    var digits := "0123456789";
    forall n | 0 <= n < 10 ensures digits[n] == DigitOf(n) {
      DigitText(n);
    }
    if 1 <= p.row <= 99 && 'A' <= p.letter <= 'K' { FormattedReads(p); }
    if ParseSeatPosition(code).Some? { CodeIsItsSeat(code); }
  }

  lemma DigitText(n: nat)
    requires n < 10
    ensures "0123456789"[n] == DigitOf(n)
  {
    var digits := "0123456789";
    assert digits[0] == '0' && digits[1] == '1' && digits[2] == '2' && digits[3] == '3' && digits[4] == '4';
    assert digits[5] == '5' && digits[6] == '6' && digits[7] == '7' && digits[8] == '8' && digits[9] == '9';
  }

  lemma FormattedReads(p: SeatPosition)
    requires 1 <= p.row <= 99 && 'A' <= p.letter <= 'K'
    ensures ParseSeatPosition(FormatSeatPosition(p)) == Some(p)
  {
  }

  // ---- The body ----

  /** `Code` is any string the client sent as a seat. */
  datatype RawSeat = NoSeat | NotAString | Code(text: string)

  /** `name` is the trimmed name, None when it is not a string. */
  datatype RawPassenger = NotAnObject | RawPassenger(name: Option<string>, seat: RawSeat)

  datatype RawFare = NoFare | NotAFareClass | Fare(fareClass: FareClass)

  datatype RawBody =
    | NotAnObjectBody
    | RawBody(hasPassengerName: bool, passengers: Option<seq<RawPassenger>>, fareClass: RawFare)

  datatype Issue =
    | InvalidBody
    | PassengerNameUnsupported
    | InvalidPassengerCount
    | InvalidPassenger(index: nat)
    | NameRequired(index: nat)
    | InvalidSeat(index: nat)
    | FareClassMissing
    | InvalidFareClass
    | FareClassUnsupported
    | MixedSeatSelection
    | DuplicateSeat(index: nat)

  datatype Validated = Valid(input: CreateInput) | Invalid(issues: seq<Issue>)

  predicate SeatReads(seat: RawSeat) { seat.NoSeat? || (seat.Code? && ParseSeatPosition(seat.text).Some?) }

  predicate PassengerOk(p: RawPassenger) {
    p.RawPassenger? && p.name.Some? && p.name.value != "" && SeatReads(p.seat)
  }

  /** The seat a valid passenger names. */
  function SeatOf(p: RawPassenger): Option<SeatPosition> {
    if p.RawPassenger? && p.seat.Code? then ParseSeatPosition(p.seat.text) else None
  }

  predicate AllOk(ps: seq<RawPassenger>) { forall i | 0 <= i < |ps| :: PassengerOk(ps[i]) }

  predicate NoneNames(ps: seq<RawPassenger>) { forall i | 0 <= i < |ps| :: SeatOf(ps[i]).None? }

  predicate AllName(ps: seq<RawPassenger>) { forall i | 0 <= i < |ps| :: SeatOf(ps[i]).Some? }

  predicate Repeats(ps: seq<RawPassenger>, i: nat) {
    i < |ps| && exists j | 0 <= j < i :: SeatOf(ps[j]) == SeatOf(ps[i])
  }

  /** Every passenger names a seat, or none does; named seats differ. */
  predicate Acceptable(body: RawBody) {
    && body.RawBody? && !body.hasPassengerName && body.passengers.Some?
    && 1 <= |body.passengers.value| <= 9
    && AllOk(body.passengers.value)
    && if NoneNames(body.passengers.value) then body.fareClass.Fare?
       else
         && body.fareClass.NoFare? && AllName(body.passengers.value)
         && forall i | 0 <= i < |body.passengers.value| :: !Repeats(body.passengers.value, i)
  }

  function Names(ps: seq<RawPassenger>): (r: seq<string>)
    requires AllOk(ps)
    ensures |r| == |ps| && forall i | 0 <= i < |r| :: r[i] == ps[i].name.value
  {
    seq(|ps|, i requires 0 <= i < |ps| => ps[i].name.value)
  }

  function Positions(ps: seq<RawPassenger>): (r: seq<SeatPosition>)
    requires AllName(ps)
    ensures |r| == |ps| && forall i | 0 <= i < |r| :: r[i] == SeatOf(ps[i]).value
  {
    seq(|ps|, i requires 0 <= i < |ps| => SeatOf(ps[i]).value)
  }

  method ValidatePassenger(p: RawPassenger, index: nat, issues: seq<Issue>) returns (found: seq<Issue>)
    ensures issues <= found && (found == issues <==> PassengerOk(p))
  {
    found := issues;
    if p.NotAnObject? {
      return found + [InvalidPassenger(index)];
    }
    if p.name.None? || p.name.value == "" {
      found := found + [NameRequired(index)];
    }
    if !SeatReads(p.seat) {
      found := found + [InvalidSeat(index)];
    }
  }

  method ValidatePassengers(ps: seq<RawPassenger>, issues: seq<Issue>) returns (found: seq<Issue>)
    ensures issues <= found && (found == issues <==> AllOk(ps))
  {
    found := issues;
    var i := 0;
    while i < |ps|
      invariant 0 <= i <= |ps| && issues <= found
      invariant found == issues <==> forall k | 0 <= k < i :: PassengerOk(ps[k])
    {
      found := ValidatePassenger(ps[i], i, found);
      i := i + 1;
    }
  }

  lemma NamedByCode(ps: seq<RawPassenger>, i: nat)
    requires AllName(ps) && i < |ps|
    ensures ps[i].RawPassenger? && ps[i].seat.Code?
    ensures SeatOf(ps[i]).value.row < 100 && FormatSeatPosition(SeatOf(ps[i]).value) == ps[i].seat.text
  {
  }

  lemma SeenIffRepeated(ps: seq<RawPassenger>, i: nat, seen: set<string>)
    requires AllName(ps) && i < |ps|
    requires forall k | 0 <= k < i :: ps[k].RawPassenger? && ps[k].seat.Code? && ps[k].seat.text in seen
    requires forall code | code in seen ::
      exists k :: 0 <= k < i && ps[k].RawPassenger? && ps[k].seat.Code? && ps[k].seat.text == code
    ensures ps[i].RawPassenger? && ps[i].seat.Code? && (ps[i].seat.text in seen <==> Repeats(ps, i))
  {
    hide ParseSeatPosition, FormatSeatPosition;
    NamedByCode(ps, i);
    if ps[i].seat.text in seen {
      var k :| 0 <= k < i && ps[k].RawPassenger? && ps[k].seat.Code? && ps[k].seat.text == ps[i].seat.text;
      assert SeatOf(ps[k]) == SeatOf(ps[i]);
    }
    if Repeats(ps, i) {
      var j :| 0 <= j < i && SeatOf(ps[j]) == SeatOf(ps[i]);
      NamedByCode(ps, j);
    }
  }

  /** Each later repeat is reported, the first use is not. */
  method FindDuplicates(ps: seq<RawPassenger>, issues: seq<Issue>) returns (found: seq<Issue>)
    requires AllOk(ps) && AllName(ps)
    ensures issues <= found && (found == issues <==> forall i | 0 <= i < |ps| :: !Repeats(ps, i))
    ensures forall issue :: issue in found[|issues|..] <==>
      issue.DuplicateSeat? && issue.index < |ps| && Repeats(ps, issue.index)
    ensures Distinct(found[|issues|..])
  {
    hide ParseSeatPosition, FormatSeatPosition, Repeats, PassengerOk;
    found := issues;
    var seen: set<string> := {};
    var i := 0;
    while i < |ps|
      invariant 0 <= i <= |ps| && issues <= found
      invariant forall k | 0 <= k < i :: ps[k].RawPassenger? && ps[k].seat.Code? && ps[k].seat.text in seen
      invariant forall code | code in seen ::
        exists k :: 0 <= k < i && ps[k].RawPassenger? && ps[k].seat.Code? && ps[k].seat.text == code
      invariant found == issues <==> forall k | 0 <= k < i :: !Repeats(ps, k)
      invariant forall issue :: issue in found[|issues|..] <==>
        issue.DuplicateSeat? && issue.index < i && Repeats(ps, issue.index)
      invariant Distinct(found[|issues|..])
    {
      NamedByCode(ps, i);
      var code := FormatSeatPosition(SeatOf(ps[i]).value);
      SeenIffRepeated(ps, i, seen);
      if code in seen {
        assert (found + [DuplicateSeat(i)])[|issues|..] == found[|issues|..] + [DuplicateSeat(i)];
        found := found + [DuplicateSeat(i)];
      }
      seen := seen + {code};
      i := i + 1;
    }
  }

  method ReadBody(body: RawBody) returns (ps: Option<seq<RawPassenger>>, issues: seq<Issue>)
    ensures ps.Some? <==> body.RawBody? && body.passengers.Some? && 1 <= |body.passengers.value| <= MAX_PASSENGERS
    ensures ps.Some? ==> ps == body.passengers && (issues == [] <==> !body.hasPassengerName && AllOk(ps.value))
    ensures ps.None? ==> issues != []
  {
    if body.NotAnObjectBody? {
      return None, [InvalidBody];
    }
    issues := [];
    if body.hasPassengerName {
      issues := issues + [PassengerNameUnsupported];
    }
    if body.passengers.None? || |body.passengers.value| == 0 || |body.passengers.value| > MAX_PASSENGERS {
      return None, issues + [InvalidPassengerCount];
    }
    issues := ValidatePassengers(body.passengers.value, issues);
    return body.passengers, issues;
  }

  /**
   * Accepted exactly when acceptable; what comes out is a valid request in
   * the client's order — its chosen seats are distinct, which is what makes
   * the hold's row count a verdict.
   */
  method ValidateCreateBookingInput(body: RawBody) returns (r: Validated)
    ensures r.Valid? <==> Acceptable(body)
    ensures r.Valid? ==>
      && ValidInput(r.input) && r.input.names == Names(body.passengers.value)
      && (if NoneNames(body.passengers.value)
          then r.input == AutoSeats(body.fareClass.fareClass, Names(body.passengers.value))
          else r.input == ChosenSeats(Names(body.passengers.value), Positions(body.passengers.value)))
    ensures r.Invalid? ==> r.issues != []
  {
    hide PassengerOk, Repeats;
    var ps, issues := ReadBody(body);
    if ps.None? || issues != [] {
      return Invalid(issues);
    }
    var valid := ps.value;
    if NoneNames(valid) {
      if body.fareClass.NoFare? {
        return Invalid([FareClassMissing]);
      }
      if body.fareClass.NotAFareClass? {
        return Invalid([InvalidFareClass]);
      }
      return Valid(AutoSeats(body.fareClass.fareClass, Names(valid)));
    }
    if !body.fareClass.NoFare? {
      issues := issues + [FareClassUnsupported];
    }
    if !AllName(valid) {
      return Invalid([MixedSeatSelection]);
    }
    issues := FindDuplicates(valid, issues);
    if issues != [] {
      return Invalid(issues);
    }
    NoRepeatMeansDistinct(valid);
    return Valid(ChosenSeats(Names(valid), Positions(valid)));
  }

  lemma NoRepeatMeansDistinct(ps: seq<RawPassenger>)
    requires AllName(ps)
    ensures (forall i | 0 <= i < |ps| :: !Repeats(ps, i)) <==> Distinct(Positions(ps))
  {
    var positions := Positions(ps);
    if forall i | 0 <= i < |ps| :: !Repeats(ps, i) {
      forall i, j | 0 <= i < j < |positions| ensures positions[i] != positions[j] {
        assert !Repeats(ps, j);
      }
    }
    if Distinct(positions) {
      forall i | 0 <= i < |ps| ensures !Repeats(ps, i) {
        forall j | 0 <= j < i ensures SeatOf(ps[j]) != SeatOf(ps[i]) {
          assert positions[j] != positions[i];
        }
      }
    }
  }
}

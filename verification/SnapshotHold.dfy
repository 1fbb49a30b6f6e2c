/**
 * Creating a booking under READ COMMITTED: the hold statement finds flight,
 * seats and fares in its snapshot and locks each at its own time, the
 * references are drawn one insert after the other, and a refusal reads again
 * later. What it writes is one atomic create on the tables it commits to.
 */
module SnapshotHold {
  import opened Basics
  import opened Counting
  import opened Ordering
  import opened Schema
  import opened Lifecycle
  import opened Transactions
  import opened Invariants
  import opened BookingRepository
  import opened Snapshots
  import opened SnapshotCancel

  /**
   * When things happen, as numbers of commits since the snapshot: the flight
   * is locked at `flight`, each seat and each class's fare at its own time,
   * the n-th reference is tried at `draws[n]`, a refusal reads the flight
   * again at `reread` and the classes at `classes`. `skipped` seats were
   * locked by others when the automatic hold came to them.
   */
  datatype HoldTimes = HoldTimes(
    flight: nat, seats: map<SeatKey, nat>, fares: map<FareClass, nat>, draws: seq<nat>, reread: nat, classes: nat,
    skipped: set<SeatKey>)

  /** Every time lies between the snapshot and the commit. */
  predicate HoldInTime(line: seq<Tables>, h: HoldTimes) {
    && h.flight < |line| && h.reread < |line| && h.classes < |line|
    && (forall k | k in h.seats :: h.seats[k] < |line|)
    && (forall c | c in h.fares :: h.fares[c] < |line|)
    && (forall i | 0 <= i < |h.draws| :: h.draws[i] < |line|)
  }

  // ---- The hold statement ----

  /** The join with a flight on sale: in the snapshot, and again on the flight row as locked. */
  ghost predicate StillOnSale(line: seq<Tables>, f: Id, now: Instant, h: HoldTimes)
    requires HoldInTime(line, h)
  {
    FlightOnSale(line[0], f, now) && FlightOnSale(line[h.flight], f, now)
  }

  /** The seat as its lock found it. */
  ghost predicate FreeWhenLocked(line: seq<Tables>, h: HoldTimes, k: SeatKey)
    requires HoldInTime(line, h)
  {
    k in h.seats && k in line[h.seats[k]].seats && line[h.seats[k]].seats[k].status.AVAILABLE?
  }

  /** Automatic: the snapshot's free seats of the class that are not skipped and still free when locked. */
  ghost function LockableSeats(line: seq<Tables>, f: Id, fareClass: FareClass, h: HoldTimes): set<SeatKey>
    requires HoldInTime(line, h)
  {
    set k | k in FreeSeats(line[0], f, fareClass) && k !in h.skipped && FreeWhenLocked(line, h, k)
            && line[h.seats[k]].seats[k].fareClass == fareClass
  }

  /** The seats it holds, all or none; LIMIT counts the rows it locked. */
  ghost function HeldKeys(line: seq<Tables>, f: Id, request: HoldRequest, now: Instant, h: HoldTimes): seq<SeatKey>
    requires HoldInTime(line, h)
  {
    if !StillOnSale(line, f, now, h) then []
    else match request
      case Auto(count, fareClass) =>
        var free := LockableSeats(line, f, fareClass, h);
        if |free| >= count then SortedSeats(free)[..count] else []
      case Chosen(positions) =>
        var keys := KeysAt(f, positions);
        if Distinct(positions) && (forall i | 0 <= i < |keys| :: keys[i] in line[0].seats && FreeWhenLocked(line, h, keys[i]))
        then keys else []
  }

  /** The statement came upon rows to lock: seats of the snapshot, joined to their flight. */
  ghost predicate FoundRows(line: seq<Tables>, f: Id, request: HoldRequest, h: HoldTimes)
    requires HoldInTime(line, h)
  {
    match request
    case Auto(_, fareClass) => LockableSeats(line, f, fareClass, h) != {}
    case Chosen(positions) => exists i | 0 <= i < |positions| :: SeatKey(f, positions[i]) in line[0].seats
  }

  /** The locks it keeps: the flight with the first row, the seats it counted, the fares it held seats at. */
  ghost predicate HoldLocked(line: seq<Tables>, f: Id, request: HoldRequest, now: Instant, h: HoldTimes)
    requires HoldInTime(line, h)
  {
    StillOnSale(line, f, now, h) ==>
      && (FoundRows(line, f, request, h) ==> FlightLocked(line, f, h.flight))
      && (HeldKeys(line, f, request, now, h) != [] ==>
            forall c | (f, c) in line[0].fares :: c in h.fares && FareLocked(line, f, c, h.fares[c]))
      && match request
         case Auto(count, fareClass) =>
           var free := SortedSeats(LockableSeats(line, f, fareClass, h));
           forall i | 0 <= i < |free| && i < count :: free[i] in h.seats && SeatLocked(line, free[i], h.seats[free[i]])
         case Chosen(positions) =>
           forall i | 0 <= i < |positions| && SeatKey(f, positions[i]) in line[0].seats ::
             SeatKey(f, positions[i]) in h.seats
             && SeatLocked(line, SeatKey(f, positions[i]), h.seats[SeatKey(f, positions[i])])
  }

  ghost predicate FareLocked(line: seq<Tables>, f: Id, c: FareClass, g: nat)
    requires g < |line|
  {
    (f, c) in line[g].fares
    && forall j | g <= j < |line| :: (f, c) in line[j].fares && line[j].fares[(f, c)] == line[g].fares[(f, c)]
  }

  /** What the held rows show: each seat as locked, each fare the snapshot knew as locked. */
  ghost function HoldView(line: seq<Tables>, f: Id, keys: seq<SeatKey>, h: HoldTimes): Tables
    requires HoldInTime(line, h)
  {
    line[0].(
      seats := map k | k in line[0].seats ::
        if k in keys && k in h.seats && k in line[h.seats[k]].seats then line[h.seats[k]].seats[k] else line[0].seats[k],
      fares := map c | c in line[0].fares ::
        if c.0 == f && c.1 in h.fares && c in line[h.fares[c.1]].fares then line[h.fares[c.1]].fares[c]
        else line[0].fares[c])
  }

  // ---- The whole transaction ----

  /** The first draw whose insert went through, each tried at its own time. */
  ghost function DrawnReference(line: seq<Tables>, draws: seq<nat>, times: seq<nat>): Option<(nat, nat)>
    requires forall i | 0 <= i < |times| :: times[i] < |line|
    decreases |draws|
  {
    if draws == [] || times == [] then None
    else if !ReferenceTaken(line[times[0]], draws[0]) then Some((draws[0], times[0]))
    else DrawnReference(line, draws[1..], times[1..])
  }

  /** An inserted row's index entries keep its reference and id from everybody else. */
  ghost predicate EntriesKept(line: seq<Tables>, reference: nat, id: Id, j: nat)
    requires j < |line|
  {
    forall i | j <= i < |line| :: !ReferenceTaken(line[i], reference) && id !in line[i].bookings
  }

  /** Why nothing was held, from the locked rows or, when there were none, from a later read of the flight. */
  ghost function RefusalSeen(line: seq<Tables>, f: Id, request: HoldRequest, now: Instant, h: HoldTimes): HoldRefusal
    requires HoldInTime(line, h)
  {
    var later := line[h.reread];
    match request
    case Auto(_, fareClass) =>
      if f !in later.flights then FlightNotFound
      else if !IsBookable(later.flights[f], now) then SalesClosed
      else if HasClass(line[h.classes], f, fareClass) then NotEnoughSeats else FareClassNotOnFlight
    case Chosen(positions) =>
      var keys := KeysAt(f, positions);
      var rows := StillOnSale(line, f, now, h) && exists i | 0 <= i < |keys| :: keys[i] in line[0].seats;
      if !rows && f !in later.flights then FlightNotFound
      else if !rows && !IsBookable(later.flights[f], now) then SalesClosed
      else
        var unknown := if rows then UnknownOf(line[0], f, positions) else positions;
        if unknown != [] then UnknownSeats(unknown)
        else SeatsUnavailable(TakenOf(HoldView(line, f, keys, h), f, positions))
  }

  /** The held seats, the booking, its audit entry and its event, on the tables of the commit. */
  ghost function Stored(end: Tables, id: Id, booking: Booking, keys: seq<SeatKey>, now: Instant): Tables {
    end.(seats := Hold(end.seats, Elems(keys), id),
         bookings := end.bookings[id := booking],
         audit := end.audit + [AuditEntry(BOOKING_CREATED(Total(booking)), Account(booking.owner), id, now)],
         outbox := end.outbox + [OutboxRow(BookingHeld(id, booking.passengers, Total(booking)), now)])
  }

  /** After the hold: price, draw, store. `drawn` is the reference that went in, `idTaken` whether the id was there then. */
  ghost function AfterHold(
    end: Tables, view: Tables, r: CreateRequest, keys: seq<SeatKey>, drawn: Option<nat>, idTaken: bool, now: Instant)
    : Outcome<CreateResult>
  {
    if |keys| != |r.input.names| || !AllPriced(view, keys) then Outcome(end, Err("seat without a fare"))
    else if SumPrices(Passengers(view, r.input.names, keys)) > MAX_SAFE_INTEGER then Outcome(end, Err("total out of range"))
    else if drawn.None? then Outcome(end, Err("no free reference"))
    else if idTaken then Outcome(end, Err("duplicate booking id"))
    else
      var booking := NewBooking(view, r, keys, drawn.value, now);
      Outcome(Stored(end, r.id, booking, keys, now), Ok(Created(r.id, booking)))
  }

  ghost function CreateStatements(line: seq<Tables>, r: CreateRequest, now: Instant, h: HoldTimes): Outcome<CreateResult>
    requires HoldInTime(line, h)
  {
    var end := AtCommit(line);
    if !ValidInput(r.input) then Outcome(end, Ok(ValidationFailed))
    else
      var request := ToHoldRequest(r.input);
      var keys := HeldKeys(line, r.flightId, request, now, h);
      var view := HoldView(line, r.flightId, keys, h);
      if keys == [] then Outcome(end, Ok(Refused(RefusalSeen(line, r.flightId, request, now, h))))
      else
        var drawn := DrawnReference(line, FirstDraws(r.draws), h.draws);
        AfterHold(end, view, r, keys, if drawn.Some? then Some(drawn.value.0) else None,
                  drawn.Some? && drawn.value.1 < |line| && r.id in line[drawn.value.1].bookings, now)
  }

  /** What an atomic create of the final tables has to pass over: skipped rows, and rows not free when their turn came. */
  ghost function PassedSeats(line: seq<Tables>, r: CreateRequest, h: HoldTimes): set<SeatKey>
    requires HoldInTime(line, h)
  {
    if r.input.AutoSeats? then
      h.skipped + (set k | k in AtCommit(line).seats && k !in LockableSeats(line, r.flightId, r.input.fareClass, h))
    else {}
  }

  // ---- The seats ----

  /** A sorted prefix and, sorted, anything that comes after it. */
  lemma PrefixThenRest(all: seq<SeatKey>, n: nat, fewer: set<SeatKey>)
    requires Increasing(all, SeatLess) && n <= |all| && forall k | k in fewer :: k in all
    ensures Increasing(all[..n] + SortedSeats(fewer - Elems(all[..n])), SeatLess)
  {
    SeatOrder();
    Cut(all, n, SeatLess);
    var first, rest := all[..n], SortedSeats(fewer - Elems(all[..n]));
    forall a, b | a in first && b in rest ensures SeatLess(a, b) {
      assert b in all && b !in first;
      assert b in all[n..];
    }
  }

  /** Losing later rows of a sorted set changes none of the first `n`. */
  lemma SamePrefix(more: set<SeatKey>, fewer: set<SeatKey>, n: nat)
    requires fewer <= more && n <= |more|
    requires forall i | 0 <= i < n :: SortedSeats(more)[i] in fewer
    ensures n <= |fewer| && SortedSeats(fewer)[..n] == SortedSeats(more)[..n]
  {
    hide SeatLess, StrictTotalOrder;
    SeatOrder();
    var all := SortedSeats(more);
    var first := all[..n];
    var whole := first + SortedSeats(fewer - Elems(first));
    PrefixThenRest(all, n, fewer);
    forall k ensures k in whole <==> k in SortedSeats(fewer) {
      if k in first {
        var i :| 0 <= i < n && first[i] == k;
        assert all[i] in fewer;
      }
    }
    IncreasingUnique(whole, SortedSeats(fewer), SeatLess);
    assert whole[..n] == first;
  }

  /** A sorted set read to the end is the set. */
  lemma AllInPrefix(more: set<SeatKey>, fewer: set<SeatKey>)
    requires fewer <= more && forall i | 0 <= i < |more| :: SortedSeats(more)[i] in fewer
    ensures fewer == more
  {
    forall k | k in more ensures k in fewer {
      var i :| 0 <= i < |more| && SortedSeats(more)[i] == k;
    }
  }

  lemma LockedSeatIsAsAtEnd(line: seq<Tables>, k: SeatKey, g: nat)
    requires g < |line| && SeatLocked(line, k, g)
    ensures k in line[g].seats && k in AtCommit(line).seats
    ensures AtCommit(line).seats[k] == line[g].seats[k]
  {
  }

  /** The rows it counted are free at the commit. */
  lemma CountedStayFree(line: seq<Tables>, f: Id, fareClass: FareClass, h: HoldTimes, k: SeatKey)
    requires HoldInTime(line, h) && k in LockableSeats(line, f, fareClass, h) && SeatLocked(line, k, h.seats[k])
    ensures k in FreeSeats(AtCommit(line), f, fareClass)
  {
    LockedSeatIsAsAtEnd(line, k, h.seats[k]);
  }

  lemma AtEnd(end: Tables, free: set<SeatKey>, lockable: set<SeatKey>, skipped: set<SeatKey>)
    requires lockable !! skipped && forall k | k in free :: k in end.seats
    ensures
      var passed := skipped + (set k | k in end.seats && k !in lockable);
      free - passed == free * lockable
  {
  }

  /** The automatic hold's seats are the first free seats of the final tables past those it passed over. */
  lemma AutoSeatsAreFirst(line: seq<Tables>, r: CreateRequest, now: Instant, h: HoldTimes)
    requires HoldInTime(line, h) && r.input.AutoSeats? && StillOnSale(line, r.flightId, now, h)
    requires HoldLocked(line, r.flightId, ToHoldRequest(r.input), now, h)
    ensures HeldKeys(line, r.flightId, ToHoldRequest(r.input), now, h)
         == TakenSeats(AtCommit(line), r.flightId, ToHoldRequest(r.input), PassedSeats(line, r, h), now)
  {
    hide StillOnSale, FlightOnSale, FlightLocked, FareLocked, SeatLocked, FreeSeats, LockableSeats, SortedSeats;
    var f, fareClass, count := r.flightId, r.input.fareClass, |r.input.names|;
    var end := AtCommit(line);
    var more := LockableSeats(line, f, fareClass, h);
    LockableIsNotSkipped(line, f, fareClass, h);
    FreeSeatsExist(end, f, fareClass);
    AtEnd(end, FreeSeats(end, f, fareClass), more, h.skipped);
    var fewer := FreeSeats(end, f, fareClass) * more;
    var n := Min(count, |more|);
    forall i | 0 <= i < n ensures SortedSeats(more)[i] in fewer {
      assert SortedSeats(more)[i] in more;
      CountedStayFree(line, f, fareClass, h, SortedSeats(more)[i]);
    }
    SamePrefix(more, fewer, n);
    if |more| < count { AllInPrefix(more, fewer); }
    if more != {} { StillOnSaleAtEnd(line, f, now, h); }
  }

  lemma LockableIsNotSkipped(line: seq<Tables>, f: Id, fareClass: FareClass, h: HoldTimes)
    requires HoldInTime(line, h)
    ensures LockableSeats(line, f, fareClass, h) !! h.skipped
  {
  }

  lemma FreeSeatsExist(t: Tables, f: Id, fareClass: FareClass)
    ensures forall k | k in FreeSeats(t, f, fareClass) :: k in t.seats
  {
  }

  lemma StillOnSaleAtEnd(line: seq<Tables>, f: Id, now: Instant, h: HoldTimes)
    requires HoldInTime(line, h) && StillOnSale(line, f, now, h) && FlightLocked(line, f, h.flight)
    ensures FlightOnSale(AtCommit(line), f, now)
  {
    hide OnSale;
  }

  /** A row as locked says what the final tables say of that seat. */
  lemma ChosenRowAgrees(line: seq<Tables>, f: Id, positions: seq<SeatPosition>, now: Instant, h: HoldTimes, i: nat)
    requires Timeline(line) && HoldInTime(line, h) && StillOnSale(line, f, now, h) && i < |positions|
    requires HoldLocked(line, f, Chosen(positions), now, h)
    ensures
      var k := SeatKey(f, positions[i]);
      k in line[0].seats && FreeWhenLocked(line, h, k)
      <==> k in AtCommit(line).seats && AtCommit(line).seats[k].status.AVAILABLE?
  {
    hide Inv, Timeline, FlightLocked, SeatLocked, FareLocked, HeldKeys, FoundRows, OnSale;
    var k := SeatKey(f, positions[i]);
    SeatKeysSame(line, 0, |line| - 1, k);
    if k in line[0].seats { LockedSeatIsAsAtEnd(line, k, h.seats[k]); }
  }

  /** The chosen hold's verdict on the locked rows is the verdict of the final tables. */
  lemma ChosenSeatsAreFree(line: seq<Tables>, r: CreateRequest, now: Instant, h: HoldTimes)
    requires Timeline(line) && HoldInTime(line, h) && r.input.ChosenSeats? && StillOnSale(line, r.flightId, now, h)
    requires HoldLocked(line, r.flightId, ToHoldRequest(r.input), now, h)
    ensures HeldKeys(line, r.flightId, ToHoldRequest(r.input), now, h)
         == TakenSeats(AtCommit(line), r.flightId, ToHoldRequest(r.input), PassedSeats(line, r, h), now)
  {
    hide Inv, Timeline, FlightLocked, SeatLocked, FareLocked, FlightOnSale, FreeWhenLocked;
    var f, positions := r.flightId, r.input.positions;
    var end := AtCommit(line);
    var keys := KeysAt(f, positions);
    forall i | 0 <= i < |keys|
      ensures keys[i] in line[0].seats && FreeWhenLocked(line, h, keys[i]) <==>
              keys[i] in end.seats && end.seats[keys[i]].status.AVAILABLE?
    {
      ChosenRowAgrees(line, f, positions, now, h, i);
    }
    if FoundRows(line, f, Chosen(positions), h) {
      StillOnSaleAtEnd(line, f, now, h);
    } else if positions != [] {
      assert SeatKey(f, positions[0]) !in line[0].seats;
    }
  }

  /** Whatever it waited for, the hold takes the seats an atomic hold of the final tables takes. */
  lemma HoldIsAtomic(line: seq<Tables>, r: CreateRequest, now: Instant, h: HoldTimes)
    requires Timeline(line) && HoldInTime(line, h) && StillOnSale(line, r.flightId, now, h)
    requires HoldLocked(line, r.flightId, ToHoldRequest(r.input), now, h)
    ensures HeldKeys(line, r.flightId, ToHoldRequest(r.input), now, h)
         == TakenSeats(AtCommit(line), r.flightId, ToHoldRequest(r.input), PassedSeats(line, r, h), now)
  {
    hide *;
    if r.input.AutoSeats? {
      AutoSeatsAreFirst(line, r, now, h);
    } else {
      ChosenSeatsAreFree(line, r, now, h);
    }
  }

  // ---- Seats and prices as locked are those of the commit ----

  lemma HeldKeyIsLocked(line: seq<Tables>, f: Id, request: HoldRequest, now: Instant, h: HoldTimes, k: SeatKey)
    requires HoldInTime(line, h) && HoldLocked(line, f, request, now, h) && k in HeldKeys(line, f, request, now, h)
    ensures k.flightId == f && k in line[0].seats && k in h.seats && SeatLocked(line, k, h.seats[k])
  {
    hide FlightOnSale, FlightLocked, FareLocked, SeatLocked;
    if request.Auto? {
      var free := SortedSeats(LockableSeats(line, f, request.fareClass, h));
      var i :| 0 <= i < request.count && i < |free| && free[i] == k;
      assert free[i] in free;
    } else {
      var i :| 0 <= i < |request.seats| && KeysAt(f, request.seats)[i] == k;
      assert SeatKey(f, request.seats[i]) in line[0].seats;
    }
  }

  lemma ViewIsAsAtEnd(line: seq<Tables>, f: Id, request: HoldRequest, now: Instant, h: HoldTimes, k: SeatKey)
    requires HoldInTime(line, h) && HoldLocked(line, f, request, now, h) && StillOnSale(line, f, now, h)
    requires k in HeldKeys(line, f, request, now, h)
    ensures
      var view, end := HoldView(line, f, HeldKeys(line, f, request, now, h), h), AtCommit(line);
      k in view.seats && k in end.seats && view.seats[k] == end.seats[k]
  {
    hide StillOnSale, HoldLocked, HeldKeys;
    HeldKeyIsLocked(line, f, request, now, h, k);
    LockedSeatIsAsAtEnd(line, k, h.seats[k]);
  }

  lemma FareIsAsAtEnd(
    line: seq<Tables>, f: Id, request: HoldRequest, now: Instant, h: HoldTimes, c: FareClass, keys: seq<SeatKey>)
    requires HoldInTime(line, h) && HoldLocked(line, f, request, now, h) && StillOnSale(line, f, now, h)
    requires (f, c) in line[0].fares
    requires HeldKeys(line, f, request, now, h) != []
    ensures
      var view, end := HoldView(line, f, keys, h), AtCommit(line);
      (f, c) in view.fares && (f, c) in end.fares && view.fares[(f, c)] == end.fares[(f, c)]
  {
    hide StillOnSale, FlightLocked, SeatLocked, LockableSeats;
    assert FareLocked(line, f, c, h.fares[c]);
  }

  /** Every held seat is priced from rows that are still the same at the commit. */
  lemma PassengersAreAsAtEnd(line: seq<Tables>, r: CreateRequest, now: Instant, h: HoldTimes)
    requires HoldInTime(line, h) && StillOnSale(line, r.flightId, now, h)
    requires HoldLocked(line, r.flightId, ToHoldRequest(r.input), now, h)
    requires |HeldKeys(line, r.flightId, ToHoldRequest(r.input), now, h)| == |r.input.names|
    requires
      var keys := HeldKeys(line, r.flightId, ToHoldRequest(r.input), now, h);
      AllPriced(HoldView(line, r.flightId, keys, h), keys)
    ensures
      var keys := HeldKeys(line, r.flightId, ToHoldRequest(r.input), now, h);
      && AllPriced(AtCommit(line), keys)
      && Passengers(AtCommit(line), r.input.names, keys)
         == Passengers(HoldView(line, r.flightId, keys, h), r.input.names, keys)
  {
    hide StillOnSale, HoldLocked, HeldKeys;
    var f, request := r.flightId, ToHoldRequest(r.input);
    var keys := HeldKeys(line, f, request, now, h);
    var view, end := HoldView(line, f, keys, h), AtCommit(line);
    forall i | 0 <= i < |keys|
      ensures keys[i] in end.seats && view.seats[keys[i]] == end.seats[keys[i]] && keys[i].flightId == f
      ensures (f, end.seats[keys[i]].fareClass) in end.fares
      ensures view.fares[(f, end.seats[keys[i]].fareClass)] == end.fares[(f, end.seats[keys[i]].fareClass)]
    {
      ViewIsAsAtEnd(line, f, request, now, h, keys[i]);
      HeldKeyIsLocked(line, f, request, now, h, keys[i]);
      FareIsAsAtEnd(line, f, request, now, h, end.seats[keys[i]].fareClass, keys);
    }
  }

  // ---- References ----

  lemma TakenStaysTaken(line: seq<Tables>, j: nat, reference: nat)
    requires Timeline(line) && j < |line| && ReferenceTaken(line[j], reference)
    ensures ReferenceTaken(AtCommit(line), reference)
  {
    hide Inv, Timeline;
    Moments(line, j, |line| - 1);
    var b :| b in line[j].bookings && line[j].bookings[b].reference == reference;
    assert b in AtCommit(line).bookings && AtCommit(line).bookings[b].reference == reference;
  }

  /** The booking's id was there when its reference would have gone in. */
  ghost predicate Collides(line: seq<Tables>, drawn: Option<(nat, nat)>, id: Id) {
    drawn.Some? && drawn.value.1 < |line| && id in line[drawn.value.1].bookings
  }

  /** What went in keeps its entries. */
  ghost predicate DrawKept(line: seq<Tables>, drawn: Option<(nat, nat)>, id: Id) {
    drawn.Some? && drawn.value.1 < |line| && !Collides(line, drawn, id) ==>
      EntriesKept(line, drawn.value.0, id, drawn.value.1)
  }

  /** The draws that failed are taken at the commit too, so the one that went in is the first free one there. */
  lemma {:induction false} DrawnIsFirstFree(line: seq<Tables>, draws: seq<nat>, times: seq<nat>, id: Id)
    requires Timeline(line) && forall i | 0 <= i < |times| :: times[i] < |line|
    requires DrawKept(line, DrawnReference(line, draws, times), id)
    ensures
      var drawn := DrawnReference(line, draws, times);
      && (drawn.Some? ==> drawn.value.1 < |line|)
      && (drawn.Some? && !Collides(line, drawn, id) ==> FreeReference(AtCommit(line), draws) == Some(drawn.value.0))
      && (drawn.None? && |draws| <= |times| ==> FreeReference(AtCommit(line), draws).None?)
    decreases |draws|
  {
    hide Inv, Timeline, ReferenceTaken;
    if draws != [] && times != [] {
      if ReferenceTaken(line[times[0]], draws[0]) {
        TakenStaysTaken(line, times[0], draws[0]);
        assert forall i | 0 <= i < |times[1..]| :: times[1..][i] == times[i + 1];
        DrawnIsFirstFree(line, draws[1..], times[1..], id);
      } else if !Collides(line, Some((draws[0], times[0])), id) {
        assert EntriesKept(line, draws[0], id, times[0]);
      }
    }
  }

  lemma StillCollides(line: seq<Tables>, drawn: Option<(nat, nat)>, id: Id)
    requires Timeline(line) && DrawKept(line, drawn, id) && (drawn.Some? ==> drawn.value.1 < |line|)
    ensures drawn.Some? ==> (Collides(line, drawn, id) <==> id in AtCommit(line).bookings)
  {
    hide Inv, Timeline;
    if drawn.Some? {
      Moments(line, drawn.value.1, |line| - 1);
    }
  }

  // ---- The transaction ----

  lemma CreateGoesOn(t: Tables, r: CreateRequest, now: Instant)
    requires ValidInput(r.input)
    ensures
      var keys := TakenSeats(t, r.flightId, ToHoldRequest(r.input), r.locked, now);
      keys != [] ==>
        CreateBooking(t, r, now) == AfterHold(t, t, r, keys, FreeReference(t, FirstDraws(r.draws)), r.id in t.bookings, now)
  {
    hide TakenSeats, FreeReference, AllPriced, SumPrices, Hold;
  }

  ghost function Drawn(line: seq<Tables>, r: CreateRequest, h: HoldTimes): Option<(nat, nat)>
    requires HoldInTime(line, h)
  {
    DrawnReference(line, FirstDraws(r.draws), h.draws)
  }

  /** All it locked and inserted stays as it is until the commit. */
  ghost predicate Locked(line: seq<Tables>, r: CreateRequest, now: Instant, h: HoldTimes)
    requires HoldInTime(line, h)
  {
    HoldLocked(line, r.flightId, ToHoldRequest(r.input), now, h) && DrawKept(line, Drawn(line, r, h), r.id)
  }

  ghost function KeysFor(line: seq<Tables>, r: CreateRequest, now: Instant, h: HoldTimes): seq<SeatKey>
    requires HoldInTime(line, h)
  {
    HeldKeys(line, r.flightId, ToHoldRequest(r.input), now, h)
  }

  /** Alike in tables and in whether it throws; alike altogether unless it throws. */
  ghost predicate SameOutcome(a: Outcome<CreateResult>, b: Outcome<CreateResult>) {
    a.db == b.db && (a.result.Ok? <==> b.result.Ok?) && (a.result.Ok? ==> a.result == b.result)
  }

  lemma SameAfterHold(
    end: Tables, view: Tables, r: CreateRequest, r': CreateRequest, keys: seq<SeatKey>, drawn: Option<nat>, idTaken: bool,
    free: Option<nat>, there: bool, now: Instant)
    requires r' == r.(locked := r'.locked) && AllPriced(view, keys) && AllPriced(end, keys)
    requires |keys| == |r.input.names| ==> Passengers(view, r.input.names, keys) == Passengers(end, r.input.names, keys)
    requires if drawn.None? then free.None? else idTaken == there && (!idTaken ==> free == drawn)
    ensures SameOutcome(AfterHold(end, view, r, keys, drawn, idTaken, now), AfterHold(end, end, r', keys, free, there, now))
  {
    hide AllPriced, SumPrices, Stored;
  }

  /** From the held seats on, the statements and the atomic create go the same way. */
  lemma AfterHoldAgrees(line: seq<Tables>, r: CreateRequest, now: Instant, h: HoldTimes)
    requires Timeline(line) && HoldInTime(line, h) && StillOnSale(line, r.flightId, now, h) && ValidInput(r.input)
    requires Locked(line, r, now, h) && KeysFor(line, r, now, h) != []
    requires |KeysFor(line, r, now, h)| == |r.input.names|
    requires AllPriced(HoldView(line, r.flightId, KeysFor(line, r, now, h), h), KeysFor(line, r, now, h))
    requires Drawn(line, r, h).None? ==> |FirstDraws(r.draws)| <= |h.draws|
    ensures
      SameOutcome(CreateStatements(line, r, now, h),
                  CreateBooking(AtCommit(line), r.(locked := PassedSeats(line, r, h)), now))
  {
    hide Inv, Timeline, StillOnSale, HoldLocked, HeldKeys, HoldView, TakenSeats, FreeReference, DrawnReference,
         AllPriced, ValidInput, DrawKept, Collides, PassedSeats, AfterHold, CreateBooking, SameOutcome, Passengers,
         FirstDraws;
    var end, keys := AtCommit(line), KeysFor(line, r, now, h);
    var r' := r.(locked := PassedSeats(line, r, h));
    var view, drawn := HoldView(line, r.flightId, keys, h), Drawn(line, r, h);
    HoldIsAtomic(line, r, now, h);
    CreateGoesOn(end, r', now);
    PassengersAreAsAtEnd(line, r, now, h);
    DrawTimes(line, h);
    DrawnIsFirstFree(line, FirstDraws(r.draws), h.draws, r.id);
    StillCollides(line, drawn, r.id);
    SameAfterHold(
      end, view, r, r', keys, if drawn.Some? then Some(drawn.value.0) else None, Collides(line, drawn, r.id),
      FreeReference(end, FirstDraws(r.draws)), r.id in end.bookings, now);
    StatementsAfterHold(line, r, now, h);
  }

  lemma DrawTimes(line: seq<Tables>, h: HoldTimes)
    requires HoldInTime(line, h)
    ensures forall i | 0 <= i < |h.draws| :: h.draws[i] < |line|
  {
  }

  lemma StatementsAfterHold(line: seq<Tables>, r: CreateRequest, now: Instant, h: HoldTimes)
    requires HoldInTime(line, h) && ValidInput(r.input) && KeysFor(line, r, now, h) != []
    ensures
      var keys, drawn := KeysFor(line, r, now, h), Drawn(line, r, h);
      CreateStatements(line, r, now, h)
      == AfterHold(AtCommit(line), HoldView(line, r.flightId, keys, h), r, keys,
                   if drawn.Some? then Some(drawn.value.0) else None, Collides(line, drawn, r.id), now)
  {
    hide HeldKeys, HoldView, DrawnReference, AfterHold, ValidInput;
  }

  lemma CreatedMeans(line: seq<Tables>, r: CreateRequest, now: Instant, h: HoldTimes)
    requires HoldInTime(line, h)
    ensures
      var done, keys := CreateStatements(line, r, now, h), KeysFor(line, r, now, h);
      if done.result.Ok? && done.result.value.Created? then
        && ValidInput(r.input) && StillOnSale(line, r.flightId, now, h) && keys != [] && |keys| == |r.input.names|
        && AllPriced(HoldView(line, r.flightId, keys, h), keys) && Drawn(line, r, h).Some?
      else done.db == AtCommit(line)
  {
    hide HoldView, DrawnReference, ValidInput, AllPriced, SumPrices, Stored, StillOnSale;
  }

  /**
   * Whatever it waited for: a booking that is created is the one an atomic
   * create of the final tables makes there, seats, prices, reference, audit
   * entry and event; anything else writes nothing.
   */
  lemma CreationIsAtomic(line: seq<Tables>, r: CreateRequest, now: Instant, h: HoldTimes)
    requires Timeline(line) && HoldInTime(line, h) && Locked(line, r, now, h)
    ensures
      var end, done := AtCommit(line), CreateStatements(line, r, now, h);
      if done.result.Ok? && done.result.value.Created? then
        done == CreateBooking(end, r.(locked := PassedSeats(line, r, h)), now)
      else done.db == end
  {
    hide Inv, Timeline, Locked, Drawn, Keys, CreateStatements, CreateBooking, PassedSeats, AllPriced, HoldView,
         ValidInput, StillOnSale;
    CreatedMeans(line, r, now, h);
    var done := CreateStatements(line, r, now, h);
    if done.result.Ok? && done.result.value.Created? {
      AfterHoldAgrees(line, r, now, h);
    }
  }

  // ---- Refusals ----

  /** No operator touches the flight or its fares in between. */
  ghost predicate Untouched(line: seq<Tables>, f: Id) {
    forall j | 0 <= j < |line| ::
      && (f in line[j].flights <==> f in line[0].flights)
      && (f in line[0].flights ==> line[j].flights[f] == line[0].flights[f])
      && forall c :: ((f, c) in line[j].fares <==> (f, c) in line[0].fares)
                     && ((f, c) in line[0].fares ==> line[j].fares[(f, c)] == line[0].fares[(f, c)])
  }

  lemma {:induction false} UnknownAlike(a: Tables, b: Tables, f: Id, positions: seq<SeatPosition>)
    requires forall i | 0 <= i < |positions| :: SeatKey(f, positions[i]) in a.seats <==> SeatKey(f, positions[i]) in b.seats
    ensures UnknownOf(a, f, positions) == UnknownOf(b, f, positions)
  {
    if positions != [] {
      assert forall i | 0 <= i < |positions[1..]| :: positions[1..][i] == positions[i + 1];
      UnknownAlike(a, b, f, positions[1..]);
    }
  }

  lemma {:induction false} TakenAlike(a: Tables, b: Tables, f: Id, positions: seq<SeatPosition>)
    requires forall i | 0 <= i < |positions| ::
      var k := SeatKey(f, positions[i]);
      (k in a.seats <==> k in b.seats) && (k in a.seats ==> a.seats[k].status == b.seats[k].status)
    ensures TakenOf(a, f, positions) == TakenOf(b, f, positions)
  {
    if positions != [] {
      assert forall i | 0 <= i < |positions[1..]| :: positions[1..][i] == positions[i + 1];
      TakenAlike(a, b, f, positions[1..]);
    }
  }

  lemma {:induction false} NoneKnown(t: Tables, f: Id, positions: seq<SeatPosition>)
    requires forall i | 0 <= i < |positions| :: SeatKey(f, positions[i]) !in t.seats
    ensures UnknownOf(t, f, positions) == positions
  {
    if positions != [] {
      assert forall i | 0 <= i < |positions[1..]| :: positions[1..][i] == positions[i + 1];
      NoneKnown(t, f, positions[1..]);
    }
  }

  lemma ClassesAlike(line: seq<Tables>, f: Id, fareClass: FareClass, j: nat)
    requires Timeline(line) && j < |line| && f in line[j].flights
    ensures HasClass(line[j], f, fareClass) <==> HasClass(AtCommit(line), f, fareClass)
  {
    hide Inv, Timeline;
    var before, end := line[j], AtCommit(line);
    if HasClass(before, f, fareClass) {
      var k :| k in before.seats && k.flightId == f && before.seats[k].fareClass == fareClass;
      SeatKeysSame(line, j, |line| - 1, k);
      assert k in end.seats && k.flightId == f && end.seats[k].fareClass == fareClass;
    }
    if HasClass(end, f, fareClass) {
      var k :| k in end.seats && k.flightId == f && end.seats[k].fareClass == fareClass;
      SeatKeysSame(line, j, |line| - 1, k);
      assert k in before.seats && k.flightId == f && before.seats[k].fareClass == fareClass;
    }
  }

  /** A chosen hold names the seats in the way as the final tables would. */
  lemma ChosenRefusalIsTheSame(line: seq<Tables>, f: Id, positions: seq<SeatPosition>, now: Instant, h: HoldTimes)
    requires Timeline(line) && HoldInTime(line, h) && StillOnSale(line, f, now, h)
    requires HoldLocked(line, f, Chosen(positions), now, h) && positions != []
    requires Untouched(line, f)
    ensures RefusalSeen(line, f, Chosen(positions), now, h) == Refusal(AtCommit(line), f, Chosen(positions), now)
  {
    hide Inv, Timeline, IsBookable, OnSale, FareLocked, FlightLocked, SeatLocked, UnknownOf, TakenOf;
    var end, keys := AtCommit(line), KeysAt(f, positions);
    var view := HoldView(line, f, keys, h);
    forall i | 0 <= i < |positions|
      ensures keys[i] in line[0].seats <==> keys[i] in end.seats
      ensures keys[i] in line[0].seats ==> view.seats[keys[i]] == end.seats[keys[i]]
    {
      SeatKeysSame(line, 0, |line| - 1, keys[i]);
      if keys[i] in line[0].seats {
        assert SeatKey(f, positions[i]) in line[0].seats;
        LockedSeatIsAsAtEnd(line, keys[i], h.seats[keys[i]]);
      }
    }
    UnknownAlike(line[0], end, f, positions);
    TakenAlike(view, end, f, positions);
    if forall i | 0 <= i < |keys| :: keys[i] !in line[0].seats { NoneKnown(line[0], f, positions); }
    OnSaleIsBookable(line[0].flights[f], now);
  }

  lemma AutoRefusalIsTheSame(line: seq<Tables>, f: Id, count: nat, fareClass: FareClass, now: Instant, h: HoldTimes)
    requires Timeline(line) && HoldInTime(line, h) && Untouched(line, f)
    ensures RefusalSeen(line, f, Auto(count, fareClass), now, h) == Refusal(AtCommit(line), f, Auto(count, fareClass), now)
  {
    hide Inv, Timeline, HasClass, IsBookable;
    if f in line[0].flights { ClassesAlike(line, f, fareClass, h.classes); }
  }

  lemma OffSaleRefusalIsTheSame(line: seq<Tables>, f: Id, request: HoldRequest, now: Instant, h: HoldTimes)
    requires HoldInTime(line, h) && Untouched(line, f) && !StillOnSale(line, f, now, h)
    ensures !FlightOnSale(AtCommit(line), f, now)
    ensures RefusalSeen(line, f, request, now, h) == Refusal(AtCommit(line), f, request, now)
  {
    hide HasClass, IsBookable, OnSale, UnknownOf, TakenOf;
    if f in line[0].flights { OnSaleIsBookable(line[0].flights[f], now); }
  }

  /** Nothing held: the answer is the one the final tables give. */
  lemma RefusalIsAtomic(line: seq<Tables>, r: CreateRequest, now: Instant, h: HoldTimes)
    requires Timeline(line) && HoldInTime(line, h) && Locked(line, r, now, h) && Untouched(line, r.flightId)
    requires ValidInput(r.input) && KeysFor(line, r, now, h) == []
    ensures
      CreateStatements(line, r, now, h)
      == CreateBooking(AtCommit(line), r.(locked := PassedSeats(line, r, h)), now)
  {
    hide Inv, Timeline, StillOnSale, HoldLocked, HeldKeys, TakenSeats, PassedSeats, RefusalSeen, Refusal,
         Untouched, DrawKept, FlightOnSale;
    var f, request := r.flightId, ToHoldRequest(r.input);
    if StillOnSale(line, f, now, h) {
      HoldIsAtomic(line, r, now, h);
      if r.input.AutoSeats? {
        AutoRefusalIsTheSame(line, f, |r.input.names|, r.input.fareClass, now, h);
      } else {
        ChosenRefusalIsTheSame(line, f, r.input.positions, now, h);
      }
    } else {
      OffSaleRefusalIsTheSame(line, f, request, now, h);
      OffSaleTakesNothing(AtCommit(line), f, request, PassedSeats(line, r, h), now);
    }
  }

  lemma OffSaleTakesNothing(t: Tables, f: Id, request: HoldRequest, locked: set<SeatKey>, now: Instant)
    requires !FlightOnSale(t, f, now)
    ensures TakenSeats(t, f, request, locked, now) == []
  {
  }

  // ---- When no operator interferes ----

  lemma UnpricedAtEnd(line: seq<Tables>, r: CreateRequest, now: Instant, h: HoldTimes)
    requires HoldInTime(line, h) && StillOnSale(line, r.flightId, now, h) && Untouched(line, r.flightId)
    requires HoldLocked(line, r.flightId, ToHoldRequest(r.input), now, h)
    requires AllPriced(AtCommit(line), KeysFor(line, r, now, h))
    ensures AllPriced(HoldView(line, r.flightId, KeysFor(line, r, now, h), h), KeysFor(line, r, now, h))
  {
    hide StillOnSale, HoldLocked, HeldKeys;
    var f, request := r.flightId, ToHoldRequest(r.input);
    var keys := KeysFor(line, r, now, h);
    var view, end := HoldView(line, f, keys, h), AtCommit(line);
    forall i | 0 <= i < |keys|
      ensures keys[i] in view.seats && (keys[i].flightId, view.seats[keys[i]].fareClass) in view.fares
    {
      ViewIsAsAtEnd(line, f, request, now, h, keys[i]);
      HeldKeyIsLocked(line, f, request, now, h, keys[i]);
      assert (f, end.seats[keys[i]].fareClass) in line[0].fares;
    }
  }

  lemma HeldIsFull(line: seq<Tables>, r: CreateRequest, now: Instant, h: HoldTimes)
    requires HoldInTime(line, h) && ValidInput(r.input) && KeysFor(line, r, now, h) != []
    ensures |KeysFor(line, r, now, h)| == |r.input.names| && StillOnSale(line, r.flightId, now, h)
  {
    hide StillOnSale, LockableSeats;
  }

  lemma UnpricedThrows(t: Tables, r: CreateRequest, now: Instant, keys: seq<SeatKey>)
    requires ValidInput(r.input) && keys == TakenSeats(t, r.flightId, ToHoldRequest(r.input), r.locked, now)
    requires keys != [] && !AllPriced(t, keys)
    ensures CreateBooking(t, r, now) == Outcome(t, Err("seat without a fare"))
  {
    hide TakenSeats, FreeReference, SumPrices, AllPriced;
  }

  lemma UnpricedStatementsThrow(line: seq<Tables>, r: CreateRequest, now: Instant, h: HoldTimes)
    requires HoldInTime(line, h) && ValidInput(r.input) && KeysFor(line, r, now, h) != []
    requires !AllPriced(HoldView(line, r.flightId, KeysFor(line, r, now, h), h), KeysFor(line, r, now, h))
    ensures CreateStatements(line, r, now, h) == Outcome(AtCommit(line), Err("seat without a fare"))
  {
    hide HeldKeys, HoldView, DrawnReference, AllPriced, ValidInput, SumPrices, Stored;
  }

  /**
   * While no operator touches the flight or its fares, granted, refused and
   * thrown alike: the create's tables and answer are those of one atomic
   * create of the tables it commits to.
   */
  lemma UndisturbedCreateIsAtomic(line: seq<Tables>, r: CreateRequest, now: Instant, h: HoldTimes)
    requires Timeline(line) && HoldInTime(line, h) && Locked(line, r, now, h) && Untouched(line, r.flightId)
    requires |FirstDraws(r.draws)| <= |h.draws|
    ensures
      SameOutcome(CreateStatements(line, r, now, h),
                  CreateBooking(AtCommit(line), r.(locked := PassedSeats(line, r, h)), now))
  {
    hide Inv, Timeline, StillOnSale, HoldLocked, HeldKeys, HoldView, TakenSeats, AllPriced, PassedSeats,
         ValidInput, Untouched, DrawKept, FirstDraws, AfterHold, CreateBooking, CreateStatements, DrawnReference;
    var end, keys := AtCommit(line), KeysFor(line, r, now, h);
    if !ValidInput(r.input) {
      InvalidIsTheSame(line, r, now, h);
    } else if keys == [] {
      RefusalIsAtomic(line, r, now, h);
    } else {
      HeldIsFull(line, r, now, h);
      if AllPriced(HoldView(line, r.flightId, keys, h), keys) {
        AfterHoldAgrees(line, r, now, h);
      } else {
        HoldIsAtomic(line, r, now, h);
        if AllPriced(end, keys) { UnpricedAtEnd(line, r, now, h); }
        UnpricedThrows(end, r.(locked := PassedSeats(line, r, h)), now, keys);
        UnpricedStatementsThrow(line, r, now, h);
      }
    }
  }

  lemma InvalidIsTheSame(line: seq<Tables>, r: CreateRequest, now: Instant, h: HoldTimes)
    requires HoldInTime(line, h) && !ValidInput(r.input)
    ensures
      CreateStatements(line, r, now, h)
      == CreateBooking(AtCommit(line), r.(locked := PassedSeats(line, r, h)), now)
  {
    hide ValidInput, PassedSeats;
  }
}

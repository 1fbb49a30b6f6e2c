/** postgres-booking-repository.ts: the statements that move seats and bookings. */
module BookingRepository {
  import opened Basics
  import opened Counting
  import opened Schema
  import opened Lifecycle
  import opened Transactions
  import opened BookingDb

  // ---- Holding seats ----

  datatype HoldResult = SeatsHeld(seats: seq<HeldSeat>) | NotHeld(refusal: HoldRefusal)

  /** The held seats with the price of their class, from one version of the fares. */
  function Priced(t: Tables, keys: seq<SeatKey>): (r: seq<HeldSeat>)
    requires AllPriced(t, keys)
    ensures |r| == |keys|
    ensures forall i | 0 <= i < |r| ::
      var fareClass := t.seats[keys[i]].fareClass;
      r[i] == HeldSeat(keys[i].position, fareClass, t.fares[(keys[i].flightId, fareClass)])
  {
    seq(|keys|, i requires 0 <= i < |keys| =>
      var fareClass := t.seats[keys[i]].fareClass;
      HeldSeat(keys[i].position, fareClass, t.fares[(keys[i].flightId, fareClass)]))
  }

  /** What a hold statement writes and answers; a seat without a fare throws. */
  function HoldSeats(
    t: Tables, flightId: Id, id: Id, request: HoldRequest, locked: set<SeatKey>, now: Instant): Outcome<HoldResult>
  {
    var keys := TakenSeats(t, flightId, request, locked, now);
    if keys == [] then Outcome(t, Ok(NotHeld(Refusal(t, flightId, request, now))))
    else
      Outcome(t.(seats := Hold(t.seats, Elems(keys), id)),
              if AllPriced(t, keys) then Ok(SeatsHeld(Priced(t, keys))) else Err("seat without a fare"))
  }

  /** The SQL window and isBookable agree at every instant. */
  lemma OnSaleIsBookable(flight: Flight, now: Instant)
    ensures OnSale(flight, now) <==> IsBookable(flight, now)
  {
  }

  function FirstSeats(keys: seq<SeatKey>, limit: nat): seq<SeatKey> {
    if |keys| <= limit then keys else keys[..limit]
  }

  /** The rows the auto statement picks: in seat order, at most `count`, none off sale. */
  function Candidates(
    t: Tables, flightId: Id, count: nat, fareClass: FareClass, locked: set<SeatKey>, now: Instant): seq<SeatKey>
  {
    if FlightOnSale(t, flightId, now)
    then FirstSeats(SortedSeats(FreeSeats(t, flightId, fareClass) - locked), count)
    else []
  }

  /** All or nothing: the statement's `enough` test takes every candidate or none. */
  lemma EnoughDecides(t: Tables, flightId: Id, count: nat, fareClass: FareClass, locked: set<SeatKey>, now: Instant)
    ensures
      var candidates := Candidates(t, flightId, count, fareClass, locked, now);
      TakenSeats(t, flightId, Auto(count, fareClass), locked, now) == if |candidates| == count then candidates else []
  {
  }

  method HoldAutoSeats(
    db: Database, flightId: Id, id: Id, count: nat, fareClass: FareClass, locked: set<SeatKey>, now: Instant)
    returns (r: Result<HoldResult>)
    modifies db
    ensures Outcome(db.Contents(), r)
         == HoldSeats(old(db.Contents()), flightId, id, Auto(count, fareClass), locked, now)
  {
    hide Candidates, TakenSeats, Refusal;
    var t := db.Contents();
    var candidates := Candidates(t, flightId, count, fareClass, locked, now);
    EnoughDecides(t, flightId, count, fareClass, locked, now);
    if |candidates| == count && candidates != [] {
      db.seats := Hold(db.seats, Elems(candidates), id);
      if AllPriced(t, candidates) {
        return Ok(SeatsHeld(Priced(t, candidates)));
      }
      return Err("seat without a fare");
    }
    var refusal := ClassifyAutoRefused(db, flightId, count, fareClass, now);
    return Ok(NotHeld(refusal));
  }

  method ClassifyAutoRefused(db: Database, flightId: Id, count: nat, fareClass: FareClass, now: Instant)
    returns (refusal: HoldRefusal)
    ensures refusal == Refusal(db.Contents(), flightId, Auto(count, fareClass), now)
  {
    if flightId !in db.flights {
      return FlightNotFound;
    }
    if !IsBookable(db.flights[flightId], now) {
      return SalesClosed;
    }
    return if HasClass(db.Contents(), flightId, fareClass) then NotEnoughSeats else FareClassNotOnFlight;
  }

  /** The rows the chosen-seat statement locks. */
  function RequestedRows(t: Tables, flightId: Id, positions: seq<SeatPosition>, now: Instant): (r: set<SeatKey>)
    ensures forall k :: k in r <==>
      FlightOnSale(t, flightId, now) && k in t.seats && k.flightId == flightId && k.position in positions
  {
    if FlightOnSale(t, flightId, now)
    then set k | k in t.seats && k.flightId == flightId && k.position in positions
    else {}
  }

  predicate AllAvailable(t: Tables, rows: set<SeatKey>) {
    forall k | k in rows :: k in t.seats && t.seats[k].status.AVAILABLE?
  }

  /**
   * The statement's verdict counts rows. The count is right exactly because
   * it can only be reached by distinct, existing seats.
   */
  lemma CountDecides(t: Tables, flightId: Id, positions: seq<SeatPosition>, now: Instant)
    requires FlightOnSale(t, flightId, now)
    ensures
      var rows := RequestedRows(t, flightId, positions, now);
      |rows| == |positions| && AllAvailable(t, rows) <==> Distinct(positions) && AllFree(t, KeysAt(flightId, positions))
    ensures
      var rows := RequestedRows(t, flightId, positions, now);
      |rows| == |positions| ==> rows == Elems(KeysAt(flightId, positions))
  {
    var rows := RequestedRows(t, flightId, positions, now);
    var keys := KeysAt(flightId, positions);
    var all := Elems(keys);
    DistinctIffFull(keys);
    assert Distinct(keys) <==> Distinct(positions) by {
      if Distinct(keys) {
        forall i, j | 0 <= i < j < |positions| ensures positions[i] != positions[j] {
          assert keys[i] != keys[j];
        }
      }
    }
    forall k | k in rows ensures k in all {
      var i :| 0 <= i < |positions| && positions[i] == k.position;
      assert keys[i] == k;
    }
    SubsetSizes(rows, all);
    if AllFree(t, keys) {
      forall k | k in all ensures k in rows && t.seats[k].status.AVAILABLE? {
        var i :| 0 <= i < |keys| && keys[i] == k;
        assert positions[i] == k.position;
      }
      assert rows == all;
    }
    if |rows| == |positions| && AllAvailable(t, rows) {
      forall i | 0 <= i < |keys| ensures keys[i] in t.seats && t.seats[keys[i]].status.AVAILABLE? {
        assert keys[i] in all;
      }
    }
  }

  /** Requested seats the statement did not find, in request order. */
  function NotFound(rows: set<SeatKey>, flightId: Id, positions: seq<SeatPosition>): seq<SeatPosition> {
    if positions == [] then []
    else (if SeatKey(flightId, positions[0]) in rows then [] else [positions[0]])
         + NotFound(rows, flightId, positions[1..])
  }

  /** Requested seats the statement found taken, in request order. */
  function NotAvailable(t: Tables, rows: set<SeatKey>, flightId: Id, positions: seq<SeatPosition>): seq<SeatPosition> {
    if positions == [] then []
    else var k := SeatKey(flightId, positions[0]);
         (if k in rows && k in t.seats && t.seats[k].status.AVAILABLE? then [] else [positions[0]])
         + NotAvailable(t, rows, flightId, positions[1..])
  }

  /** What the statement's own rows tell is what the table tells. */
  lemma {:induction false} RowsTell(t: Tables, rows: set<SeatKey>, flightId: Id, positions: seq<SeatPosition>)
    requires forall p | p in positions :: SeatKey(flightId, p) in rows <==> SeatKey(flightId, p) in t.seats
    ensures NotFound(rows, flightId, positions) == UnknownOf(t, flightId, positions)
    ensures NotFound(rows, flightId, positions) == [] ==>
      NotAvailable(t, rows, flightId, positions) == TakenOf(t, flightId, positions)
  {
    if positions != [] {
      RowsTell(t, rows, flightId, positions[1..]);
      assert positions[0] in positions;
    }
  }

  method HoldChosenSeats(
    db: Database, flightId: Id, id: Id, requested: seq<SeatPosition>, now: Instant)
    returns (r: Result<HoldResult>)
    modifies db
    ensures Outcome(db.Contents(), r) == HoldSeats(old(db.Contents()), flightId, id, Chosen(requested), {}, now)
  {
    var t := db.Contents();
    var rows := RequestedRows(t, flightId, requested, now);
    var keys := KeysAt(flightId, requested);
    if FlightOnSale(t, flightId, now) {
      CountDecides(t, flightId, requested, now);
    }
    if rows != {} && |rows| == |requested| && AllAvailable(t, rows) {
      db.seats := Hold(db.seats, rows, id);
      if AllPriced(t, keys) {
        return Ok(SeatsHeld(Priced(t, keys)));
      }
      return Err("seat without a fare");
    }
    assert TakenSeats(t, flightId, Chosen(requested), {}, now) == [] by {
      if FlightOnSale(t, flightId, now) && requested != [] { assert rows == {} ==> |rows| == 0; }
    }
    if rows == {} {
      if flightId !in db.flights {
        return Ok(NotHeld(FlightNotFound));
      }
      if !IsBookable(db.flights[flightId], now) {
        return Ok(NotHeld(SalesClosed));
      }
    }
    RowsTell(t, rows, flightId, requested);
    var unknown := NotFound(rows, flightId, requested);
    if unknown != [] {
      return Ok(NotHeld(UnknownSeats(unknown)));
    }
    return Ok(NotHeld(SeatsUnavailable(NotAvailable(t, rows, flightId, requested))));
  }

  // ---- Storing a booking ----

  datatype InsertResult = Inserted | ReferenceIsTaken

  /** A taken reference writes nothing and leaves the transaction usable; a duplicate id raises. */
  method InsertBooking(db: Database, id: Id, booking: Booking) returns (r: Result<InsertResult>)
    modifies db`bookings
    ensures r == (if ReferenceTaken(old(db.Contents()), booking.reference) then Ok(ReferenceIsTaken)
                  else if id in old(db.bookings) then Err("duplicate booking id")
                  else Ok(Inserted))
    ensures db.bookings == if r == Ok(Inserted) then old(db.bookings)[id := booking] else old(db.bookings)
  {
    if ReferenceTaken(db.Contents(), booking.reference) {
      return Ok(ReferenceIsTaken);
    }
    if id in db.bookings {
      return Err("duplicate booking id");
    }
    db.bookings := db.bookings[id := booking];
    return Ok(Inserted);
  }

  // ---- Confirming and cancelling ----

  /** A hold confirmed at once: its row and every seat it owns. */
  function Confirmed(t: Tables, id: Id): Tables
    requires id in t.bookings
  {
    t.(bookings := WithStatus(t.bookings, id, CONFIRMED), seats := Book(t.seats, SeatsOf(t.seats, {id})))
  }

  /** A booking cancelled at once: its row and every seat it owns. */
  function Ended(t: Tables, id: Id): Tables
    requires id in t.bookings
  {
    t.(bookings := WithStatus(t.bookings, id, BookingStatus.CANCELLED), seats := Release(t.seats, SeatsOf(t.seats, {id})))
  }

  /** The seats are booked only for the row the statement confirmed. */
  method ConfirmHold(db: Database, id: Id, scope: Scope, now: Instant) returns (r: Option<Booking>)
    modifies db`bookings, db`seats
    ensures
      var t := old(db.Contents());
      if Confirmable(t, id, scope, now) then
        r == Some(t.bookings[id].(status := CONFIRMED)) && db.Contents() == Confirmed(t, id)
      else r == None && db.Contents() == t
  {
    if !Confirmable(db.Contents(), id, scope, now) {
      return None;
    }
    db.seats := Book(db.seats, SeatsOf(db.seats, {id}));
    db.bookings := WithStatus(db.bookings, id, CONFIRMED);
    return Some(db.bookings[id]);
  }

  /** The seats are released only for the row the statement cancelled; the rest only picks the answer. */
  method CancelStatements(db: Database, id: Id, scope: Scope, now: Instant) returns (r: Result<CancelOutcome>)
    modifies db`bookings, db`seats
    ensures r == Cancel(old(db.Contents()), id, scope, 0, now).result
    ensures
      var t := old(db.Contents());
      if Cancellable(t, id, scope, now) then
        r.Ok? && r.value.Cancelled? && db.Contents() == Ended(t, id)
      else db.Contents() == t && !(r.Ok? && r.value.Cancelled?)
  {
    if Cancellable(db.Contents(), id, scope, now) {
      var codes := SeatCodes(db.seats, id);
      db.seats := Release(db.seats, SeatsOf(db.seats, {id}));
      db.bookings := WithStatus(db.bookings, id, BookingStatus.CANCELLED);
      return Ok(Cancelled(db.bookings[id].flightId, db.bookings[id].reference, codes));
    }
    if id !in db.bookings || !InScope(db.bookings[id], scope) || db.bookings[id].flightId !in db.flights {
      return Ok(CancelOutcome.NotFound);
    }
    var booking := db.bookings[id];
    return ClassifyNotCancelled(
      booking.status, booking.holdExpiresAt, db.flights[booking.flightId].departureAt, now);
  }

  // ---- Changing a seat ----

  method ChangeSeatStatements(db: Database, id: Id, position: nat, target: SeatPosition, scope: Scope, now: Instant)
    returns (r: Result<ChangeSeatOutcome>)
    modifies db`bookings, db`seats
    ensures r == ChangeSeatVerdict(old(db.Contents()), id, position, target, scope, now)
    ensures
      var o := ChangeSeat(old(db.Contents()), id, position, target, scope, 0, now);
      db.bookings == o.db.bookings && db.seats == o.db.seats
  {
    if id !in db.bookings || !InScope(db.bookings[id], scope) || db.bookings[id].flightId !in db.flights {
      return Ok(BookingNotFound);
    }
    var booking := db.bookings[id];
    if position < 1 || |booking.passengers| < position {
      return Ok(PassengerNotFound);
    }
    if !booking.status.CONFIRMED? {
      return Ok(NotChangeable);
    }
    var current := booking.passengers[position - 1].seat;
    if current == target {
      return Ok(Unchanged);
    }
    if !IsBookable(db.flights[booking.flightId], now) {
      return Ok(ChangeSalesClosed);
    }
    var own, wanted := SeatKey(booking.flightId, current), SeatKey(booking.flightId, target);
    if own !in db.seats || db.seats[own].bookingId != Some(id) || !db.seats[own].status.BOOKED? {
      return Err("seat is not BOOKED for the booking");
    }
    if wanted !in db.seats {
      return Ok(UnknownSeat);
    }
    if db.seats[wanted].fareClass != db.seats[own].fareClass {
      return Ok(FareClassMismatch(db.seats[own].fareClass, db.seats[wanted].fareClass));
    }
    if !db.seats[wanted].status.AVAILABLE? {
      return Ok(SeatUnavailable);
    }
    db.seats := db.seats[own := Released(db.seats[own])];
    db.seats := db.seats[wanted := db.seats[wanted].(status := SeatStatus.BOOKED, bookingId := Some(id))];
    db.bookings := db.bookings[id := Reseated(booking, position, target)];
    return Ok(Changed(current, target));
  }
}

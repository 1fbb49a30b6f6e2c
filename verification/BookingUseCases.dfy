/**
 * create-booking.ts, cancel-booking.ts and change-seat.ts: each request is
 * one transaction of successive writes, and a throw rolls all of them back.
 */
module BookingUseCases {
  import opened Basics
  import opened Schema
  import opened Lifecycle
  import opened Transactions
  import opened BookingDb
  import opened BookingRepository

  // ---- Totals (booking-total.ts, money.ts) ----

  function AddMoney(left: nat, right: nat): Result<nat> {
    if left + right > MAX_SAFE_INTEGER then Err("total out of range") else Ok(left + right)
  }

  function SumMoney(prices: seq<nat>): Result<nat> {
    if prices == [] then Ok(0)
    else
      var front := SumMoney(prices[..|prices| - 1]);
      if front.Err? then front else AddMoney(front.value, prices[|prices| - 1])
  }

  function PricesOf(passengers: seq<Passenger>): (r: seq<nat>)
    ensures |r| == |passengers|
    ensures forall i | 0 <= i < |r| :: r[i] == passengers[i].price
  {
    seq(|passengers|, i requires 0 <= i < |passengers| => passengers[i].price)
  }

  /** The checked sum refuses exactly when the whole sum is out of range: no partial sum can be the culprit alone. */
  lemma {:induction false} SumIsExactOrRefused(passengers: seq<Passenger>)
    ensures SumMoney(PricesOf(passengers))
         == if SumPrices(passengers) <= MAX_SAFE_INTEGER then Ok(SumPrices(passengers)) else Err("total out of range")
    decreases |passengers|
  {
    if passengers != [] {
      var last := |passengers| - 1;
      SumIsExactOrRefused(passengers[..last]);
      assert PricesOf(passengers)[..last] == PricesOf(passengers[..last]);
    }
  }

  // ---- Create ----

  function SeatPassengers(names: seq<string>, seats: seq<HeldSeat>): (r: seq<Passenger>)
    requires |names| == |seats|
    ensures |r| == |names|
    ensures forall i | 0 <= i < |r| :: r[i] == Passenger(names[i], seats[i].seat, seats[i].fareClass, seats[i].price)
  {
    seq(|names|, i requires 0 <= i < |names| =>
      Passenger(names[i], seats[i].seat, seats[i].fareClass, seats[i].price))
  }

  lemma HeldSeatsAreThePassengers(t: Tables, names: seq<string>, keys: seq<SeatKey>)
    requires |names| == |keys| && AllPriced(t, keys)
    ensures SeatPassengers(names, Priced(t, keys)) == Passengers(t, names, keys)
  {
  }

  method CreateWithFreeReference(db: Database, id: Id, held: Booking, draws: seq<nat>) returns (r: Result<Booking>)
    modifies db`bookings
    ensures
      var t := old(db.Contents());
      var reference := FreeReference(t, FirstDraws(draws));
      if reference.None? then r == Err("no free reference") && db.bookings == t.bookings
      else if id in t.bookings then r == Err("duplicate booking id") && db.bookings == t.bookings
      else r == Ok(held.(reference := reference.value)) && db.bookings == t.bookings[id := r.value]
  {
    var tries := FirstDraws(draws);
    var attempt := 0;
    while attempt < |tries|
      invariant 0 <= attempt <= |tries|
      invariant db.bookings == old(db.bookings)
      invariant FreeReference(old(db.Contents()), tries[attempt..]) == FreeReference(old(db.Contents()), tries)
    {
      var booking := held.(reference := tries[attempt]);
      var inserted := InsertBooking(db, id, booking);
      if inserted.Err? {
        return Err(inserted.message);
      }
      if inserted.value.Inserted? {
        return Ok(booking);
      }
      assert tries[attempt..][1..] == tries[attempt + 1..];
      attempt := attempt + 1;
    }
    return Err("no free reference");
  }

  lemma {:induction false} ReferencesFrame(t: Tables, t': Tables, draws: seq<nat>)
    requires t'.bookings == t.bookings
    ensures FreeReference(t', draws) == FreeReference(t, draws)
  {
    if draws != [] { ReferencesFrame(t, t', draws[1..]); }
  }

  method HoldRequested(db: Database, r: CreateRequest, now: Instant) returns (held: Result<HoldResult>)
    modifies db
    ensures Outcome(db.Contents(), held)
         == HoldSeats(old(db.Contents()), r.flightId, r.id, ToHoldRequest(r.input), r.locked, now)
  {
    match ToHoldRequest(r.input)
    case Auto(count, fareClass) =>
      held := HoldAutoSeats(db, r.flightId, r.id, count, fareClass, r.locked, now);
    case Chosen(positions) =>
      held := HoldChosenSeats(db, r.flightId, r.id, positions, now);
  }

  method Create(db: Database, r: CreateRequest, now: Instant) returns (result: Result<CreateResult>)
    modifies db
    ensures Outcome(db.Contents(), result) == CreateBooking(old(db.Contents()), r, now)
  {
    if !ValidInput(r.input) {
      return Ok(ValidationFailed);
    }
    var start := db.Contents();
    result := CreateInTransaction(db, r, now);
    if result.Err? {
      db.Rollback(start);
    }
  }

  method CreateInTransaction(db: Database, r: CreateRequest, now: Instant) returns (result: Result<CreateResult>)
    requires ValidInput(r.input)
    modifies db
    ensures result == CreateBooking(old(db.Contents()), r, now).result
    ensures result.Ok? ==> db.Contents() == CreateBooking(old(db.Contents()), r, now).db
  {
    hide TakenSeats, Refusal, FreeReference, Hold, AllPriced, ValidInput, SumMoney;
    ghost var t := db.Contents();
    ghost var keys := TakenSeats(t, r.flightId, ToHoldRequest(r.input), r.locked, now);
    var held := HoldRequested(db, r, now);
    if held.Err? {
      return Err(held.message);
    }
    if held.value.NotHeld? {
      return Ok(Refused(held.value.refusal));
    }
    var seats := held.value.seats;
    if |seats| != |r.input.names| {
      return Err("seat without a fare");
    }
    HeldSeatsAreThePassengers(t, r.input.names, keys);
    var passengers := SeatPassengers(r.input.names, seats);
    SumIsExactOrRefused(passengers);
    var total := SumMoney(PricesOf(passengers));
    if total.Err? {
      return Err(total.message);
    }
    var draft :=
      Booking(0, r.flightId, r.owner, BookingStatus.HELD, now, Some(now + HOLD_DURATION_MS), passengers);
    ReferencesFrame(t, db.Contents(), FirstDraws(r.draws));
    var booking := CreateWithFreeReference(db, r.id, draft, r.draws);
    if booking.Err? {
      return Err(booking.message);
    }
    db.Record(BOOKING_CREATED(total.value), Account(r.owner), r.id, now);
    db.Enqueue(BookingHeld(r.id, passengers, total.value), now);
    return Ok(Created(r.id, booking.value));
  }

  // ---- Cancel ----

  /** SUCCEEDED becomes REFUND_PENDING, due now; at most one row matches. */
  method MarkRefundPendingForCancelledBooking(db: Database, bookingId: Id, now: Instant) returns (refund: Option<Refund>)
    modifies db`payments
    ensures refund == RefundOf(old(db.Contents()), bookingId)
    ensures db.payments == RefundsDue(old(db.Contents()), bookingId, now)
  {
    refund := RefundOf(db.Contents(), bookingId);
    db.payments := RefundsDue(db.Contents(), bookingId, now);
  }

  lemma RefundFrame(t: Tables, t': Tables, id: Id, now: Instant)
    requires t'.payments == t.payments
    ensures RefundOf(t', id) == RefundOf(t, id) && RefundsDue(t', id, now) == RefundsDue(t, id, now)
  {
  }

  method CancelBooking(db: Database, id: Id, scope: Scope, actor: Id, now: Instant) returns (r: Result<CancelOutcome>)
    modifies db
    ensures Outcome(db.Contents(), r) == Cancel(old(db.Contents()), id, scope, actor, now)
  {
    hide RefundOf, RefundsDue, SeatCodes, Cancellable, ClassifyNotCancelled, SeatsOf, Release;
    ghost var t := db.Contents();
    r := CancelStatements(db, id, scope, now);
    if r.Err? || !r.value.Cancelled? {
      return;
    }
    RefundFrame(t, db.Contents(), id, now);
    var refund := MarkRefundPendingForCancelledBooking(db, id, now);
    db.Record(
      BOOKING_CANCELLED(if refund.Some? then Some(refund.value.paymentId) else None), Account(actor), id, now);
    if refund.Some? {
      db.Record(PAYMENT_REFUND_PENDING, Account(actor), refund.value.paymentId, now);
    }
    db.Enqueue(BookingCancelled(id, r.value.seats, refund), now);
  }

  // ---- Change seat ----

  method ChangePassengerSeat(
    db: Database, id: Id, position: nat, target: SeatPosition, scope: Scope, actor: Id, now: Instant)
    returns (r: Result<ChangeSeatOutcome>)
    modifies db
    ensures Outcome(db.Contents(), r) == ChangeSeat(old(db.Contents()), id, position, target, scope, actor, now)
  {
    r := ChangeSeatStatements(db, id, position, target, scope, now);
    if r.Ok? && r.value.Changed? {
      db.Record(BOOKING_SEAT_CHANGED(position, r.value.from, r.value.to), Account(actor), id, now);
    }
  }
}

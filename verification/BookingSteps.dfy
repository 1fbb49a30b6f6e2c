/** Create, cancel and change seat keep the invariant. */
module BookingSteps {
  import opened Basics
  import opened Counting
  import opened Schema
  import opened Lifecycle
  import opened Transactions
  import opened Invariants
  import opened Preservation

  // ---- Create ----

  /** What a hold takes: distinct free seats of the flight, one a passenger, in the asked class or places. */
  lemma TakenSeatsAreFree(t: Tables, flightId: Id, request: HoldRequest, locked: set<SeatKey>, now: Instant)
    ensures
      var keys := TakenSeats(t, flightId, request, locked, now);
      keys != [] ==>
        && Distinct(keys) && flightId in t.flights
        && |keys| == (if request.Auto? then request.count else |request.seats|)
        && forall i | 0 <= i < |keys| ::
             keys[i] in t.seats && keys[i].flightId == flightId && t.seats[keys[i]].status.AVAILABLE?
  {
    hide FreeSeats, SortedSeats;
    var keys := TakenSeats(t, flightId, request, locked, now);
    if keys != [] && request.Auto? {
      LowestSeatsAreFree(t, flightId, request.fareClass, locked, request.count);
    }
  }

  lemma LowestSeatsAreFree(t: Tables, flightId: Id, fareClass: FareClass, locked: set<SeatKey>, count: nat)
    requires count <= |FreeSeats(t, flightId, fareClass) - locked|
    ensures
      var keys := SortedSeats(FreeSeats(t, flightId, fareClass) - locked)[..count];
      && Distinct(keys)
      && forall i | 0 <= i < |keys| ::
           keys[i] in t.seats && keys[i].flightId == flightId && t.seats[keys[i]].status.AVAILABLE?
  {
    hide SortedSeats;
    var free := FreeSeats(t, flightId, fareClass) - locked;
    var sorted := SortedSeats(free);
    forall i | 0 <= i < |sorted|
      ensures sorted[i] in t.seats && sorted[i].flightId == flightId && t.seats[sorted[i]].status.AVAILABLE?
    {
      assert sorted[i] in free;
    }
    forall i, j | 0 <= i < j < count ensures sorted[..count][i] != sorted[..count][j] {
      assert SeatLess(sorted[i], sorted[j]);
    }
  }

  lemma CreateKeepsInventory(
    seats: map<SeatKey, Seat>, bookings: map<Id, Booking>, id: Id, booking: Booking)
    requires Inventory(seats, bookings) && id !in bookings
    requires WellFormed(booking) && booking.status.HELD?
    requires forall i | 0 <= i < |booking.passengers| ::
      var k := BookingKeys(booking)[i];
      k in seats && seats[k].status.AVAILABLE? && seats[k].fareClass == booking.passengers[i].fareClass
    ensures Inventory(Hold(seats, Elems(BookingKeys(booking)), id), bookings[id := booking])
  {
    var keys := Elems(BookingKeys(booking));
    var seats', bookings' := Hold(seats, keys, id), bookings[id := booking];
    forall k | k in seats' ensures SeatOk(bookings', k, seats'[k]) {
      assert SeatOk(bookings, k, seats[k]);
    }
    forall b | b in bookings' && IsLive(bookings'[b].status) ensures OwnsItsSeats(seats', b, bookings'[b]) {
      if b != id {
        assert OwnsItsSeats(seats, b, bookings[b]);
        HeldSeatsStay(seats, bookings, b, keys);
      }
    }
  }

  /** Seats a live booking owns are not free, so a hold does not take them. */
  lemma HeldSeatsStay(seats: map<SeatKey, Seat>, bookings: map<Id, Booking>, b: Id, keys: set<SeatKey>)
    requires Inventory(seats, bookings) && b in bookings && IsLive(bookings[b].status)
    requires forall k | k in keys :: k in seats && seats[k].status.AVAILABLE?
    ensures forall i | 0 <= i < |bookings[b].passengers| :: BookingKeys(bookings[b])[i] !in keys
  {
  }

  lemma CreateKeepsEvents(
    bookings: map<Id, Booking>, payments: map<Id, Payment>, outbox: seq<OutboxRow>, id: Id, booking: Booking, row: OutboxRow)
    requires Events(bookings, payments, outbox) && id !in bookings && booking.status.HELD?
    requires row.event.BookingHeld? && row.event.bookingId == id && EventOk(payments, row.event)
    ensures Events(bookings[id := booking], payments, outbox + [row])
  {
    CountAppend(outbox, row);
    var bookings' := bookings[id := booking];
    forall c: Id ensures BookingEvents(bookings', outbox + [row], c) {
      assert BookingEvents(bookings, outbox, c);
    }
    forall p: Id ensures PaymentEvents(payments, outbox + [row], p) {
      assert PaymentEvents(payments, outbox, p);
    }
  }

  lemma NewBookingIsWellFormed(t: Tables, r: CreateRequest, keys: seq<SeatKey>, reference: nat, now: Instant)
    requires References(t) && ValidInput(r.input) && |r.input.names| == |keys| && AllPriced(t, keys) && Distinct(keys)
    requires forall i | 0 <= i < |keys| :: keys[i].flightId == r.flightId
    requires SumPrices(Passengers(t, r.input.names, keys)) <= MAX_SAFE_INTEGER
    ensures WellFormed(NewBooking(t, r, keys, reference, now))
    ensures BookingKeys(NewBooking(t, r, keys, reference, now)) == keys
  {
  }

  lemma FreeReferenceIsFree(t: Tables, draws: seq<nat>)
    ensures FreeReference(t, draws).Some? ==> !ReferenceTaken(t, FreeReference(t, draws).value)
  {
  }

  lemma CreateKeepsInv(t: Tables, r: CreateRequest, now: Instant)
    requires Inv(t)
    ensures Inv(CreateBooking(t, r, now).db)
  {
    hide Inventory, Money, Events, Keys, TakenSeats, Refusal, FreeReference, Hold;
    var o := CreateBooking(t, r, now);
    if o.result.Ok? && o.result.value.Created? {
      var keys := TakenSeats(t, r.flightId, ToHoldRequest(r.input), r.locked, now);
      var reference := FreeReference(t, FirstDraws(r.draws)).value;
      var booking := NewBooking(t, r, keys, reference, now);
      var row := OutboxRow(BookingHeld(r.id, booking.passengers, Total(booking)), now);
      TakenSeatsAreFree(t, r.flightId, ToHoldRequest(r.input), r.locked, now);
      FreeReferenceIsFree(t, FirstDraws(r.draws));
      NewBookingIsWellFormed(t, r, keys, reference, now);
      CreateKeepsInventory(t.seats, t.bookings, r.id, booking);
      CreateKeepsEvents(t.bookings, t.payments, t.outbox, r.id, booking, row);
      KeysFrame(t.payments, t.keys, t.outbox, row);
      MoneyFrame(t.bookings, o.db.bookings, t.payments);
    }
  }

  // ---- Cancel ----

  lemma CancelKeepsMoney(bookings: map<Id, Booking>, payments: map<Id, Payment>, payments': map<Id, Payment>, b: Id)
    requires Money(bookings, payments) && b in bookings && AllEvolve(payments, payments')
    requires forall p | p in payments ::
      (payments[p].status.SUCCEEDED? && payments[p].bookingId != b) <==> payments'[p].status.SUCCEEDED?
    ensures Money(WithStatus(bookings, b, BookingStatus.CANCELLED), payments')
  {
    var bookings' := WithStatus(bookings, b, BookingStatus.CANCELLED);
    assert Total(bookings'[b]) == Total(bookings[b]);
    forall p | p in payments' ensures PaymentOk(bookings', payments'[p]) {
      assert PaymentOk(bookings, payments[p]) && Evolves(payments[p], payments'[p]);
    }
    forall p, q | p in payments' && q in payments' && p != q ensures Compatible(payments'[p], payments'[q]) {
      assert Compatible(payments[p], payments[q]) && Evolves(payments[p], payments'[p]) && Evolves(payments[q], payments'[q]);
    }
    forall c | c in bookings' && bookings'[c].status.CONFIRMED? ensures exists p :: PaidBy(payments', c, p) {
      assert c != b && bookings[c].status.CONFIRMED?;
      var p :| PaidBy(payments, c, p);
      assert Evolves(payments[p], payments'[p]) && PaidBy(payments', c, p);
    }
  }

  lemma RefundIsPaid(t: Tables, b: Id)
    ensures RefundOf(t, b).Some? <==> SucceededOf(t, b) != {}
    ensures RefundOf(t, b).Some? ==>
      RefundOf(t, b).value.paymentId in SucceededOf(t, b)
      && RefundOf(t, b).value.amount == t.payments[RefundOf(t, b).value.paymentId].amount
  {
  }

  lemma CancelKeepsInv(t: Tables, id: Id, scope: Scope, actor: Id, now: Instant)
    requires Inv(t)
    ensures Inv(Cancel(t, id, scope, actor, now).db)
  {
    hide Inventory, Money, Events, Keys, SeatCodes, SeatsOf, Release, RefundOf, CancelAudit, ClassifyNotCancelled;
    var t' := Cancel(t, id, scope, actor, now).db;
    if Cancellable(t, id, scope, now) {
      var row := OutboxRow(BookingCancelled(id, SeatCodes(t.seats, id), RefundOf(t, id)), now);
      EndKeepsInventory(t.seats, t.bookings, id, BookingStatus.CANCELLED);
      EndReport(t, id);
      RefundIsPaid(t, id);
      PaymentRows(t.bookings, t.payments);
      EndEventKept(t.bookings, t.payments, t.outbox, id, BookingStatus.CANCELLED, row);
      KeysFrame(t.payments, t.keys, t.outbox, row);
      forall p | p in t.payments ensures Evolves(t.payments[p], t'.payments[p]) {
        assert PaymentOk(t.bookings, t.payments[p]);
      }
      EvolvingKeepsEvents(t'.bookings, t.payments, t'.payments, t'.outbox);
      EvolvingKeepsKeys(t.payments, t'.payments, t.keys, t'.outbox);
      CancelKeepsMoney(t.bookings, t.payments, t'.payments, id);
    }
  }

  // ---- Seat change ----

  function SeatKeyOf(booking: Booking, position: nat): SeatKey
    requires 1 <= position <= |booking.passengers|
  {
    SeatKey(booking.flightId, booking.passengers[position - 1].seat)
  }

  /** The old seat freed, the new one taken. */
  function Moved(seats: map<SeatKey, Seat>, own: SeatKey, wanted: SeatKey, id: Id): map<SeatKey, Seat>
    requires own in seats && wanted in seats
  {
    seats[own := Released(seats[own])][wanted := seats[wanted].(status := SeatStatus.BOOKED, bookingId := Some(id))]
  }

  /** A CONFIRMED booking's passenger and a free seat of the same class. */
  predicate MayMove(seats: map<SeatKey, Seat>, bookings: map<Id, Booking>, id: Id, position: nat, wanted: SeatKey) {
    && id in bookings && bookings[id].status.CONFIRMED? && 1 <= position <= |bookings[id].passengers|
    && wanted.flightId == bookings[id].flightId
    && var own := SeatKeyOf(bookings[id], position);
       && own != wanted && own in seats && wanted in seats
       && seats[wanted].status.AVAILABLE? && seats[wanted].fareClass == seats[own].fareClass
  }

  lemma OwnSeatIsOwn(
    seats: map<SeatKey, Seat>, bookings: map<Id, Booking>, id: Id, position: nat, wanted: SeatKey)
    requires Inventory(seats, bookings) && MayMove(seats, bookings, id, position, wanted)
    ensures WellFormed(bookings[id]) && OwnsItsSeats(seats, id, bookings[id])
    ensures BookingKeys(bookings[id])[position - 1] == SeatKeyOf(bookings[id], position)
    ensures seats[SeatKeyOf(bookings[id], position)].bookingId == Some(id) && seats[wanted].bookingId.None?
  {
    hide SeatOk;
    assert BookingKeys(bookings[id])[position - 1] == SeatKeyOf(bookings[id], position);
    FreeHasNoBooking(seats, bookings, wanted);
  }

  lemma FreeHasNoBooking(seats: map<SeatKey, Seat>, bookings: map<Id, Booking>, k: SeatKey)
    requires Inventory(seats, bookings) && k in seats && seats[k].status.AVAILABLE?
    ensures seats[k].bookingId.None?
  {
    assert SeatOk(bookings, k, seats[k]);
  }

  lemma MovedSeatsAreOk(
    seats: map<SeatKey, Seat>, bookings: map<Id, Booking>, id: Id, position: nat, wanted: SeatKey, k: SeatKey)
    requires Inventory(seats, bookings) && MayMove(seats, bookings, id, position, wanted)
    requires k in seats
    ensures
      var seats' := Moved(seats, SeatKeyOf(bookings[id], position), wanted, id);
      SeatOk(bookings[id := Reseated(bookings[id], position, wanted.position)], k, seats'[k])
  {
    hide Inventory, OwnsItsSeats, Reseated, Total;
    OwnSeatIsOwn(seats, bookings, id, position, wanted);
    ReseatedKeys(bookings[id], position, wanted.position);
    ReseatedRow(bookings[id], position, wanted.position);
    SeatIsOk(seats, bookings, k);
  }

  lemma SeatIsOk(seats: map<SeatKey, Seat>, bookings: map<Id, Booking>, k: SeatKey)
    requires Inventory(seats, bookings) && k in seats
    ensures SeatOk(bookings, k, seats[k])
  {
  }

  /** The moved booking owns its seats, the new one included. */
  lemma MovedOwnsItsSeats(
    seats: map<SeatKey, Seat>, bookings: map<Id, Booking>, id: Id, position: nat, wanted: SeatKey)
    requires Inventory(seats, bookings) && MayMove(seats, bookings, id, position, wanted)
    ensures
      OwnsItsSeats(Moved(seats, SeatKeyOf(bookings[id], position), wanted, id), id,
                   Reseated(bookings[id], position, wanted.position))
  {
    hide Inventory, SeatOk;
    var booking, booking' := bookings[id], Reseated(bookings[id], position, wanted.position);
    OwnSeatIsOwn(seats, bookings, id, position, wanted);
    ReseatedKeys(booking, position, wanted.position);
    var seats' := Moved(seats, SeatKeyOf(booking, position), wanted, id);
    forall i | 0 <= i < |booking'.passengers|
      ensures var k := BookingKeys(booking')[i];
        k in seats' && seats'[k].bookingId == Some(id) && seats'[k].fareClass == booking'.passengers[i].fareClass
    {
      assert BookingKeys(booking)[i] in seats;
    }
  }

  /** Nobody else's seats are touched. */
  lemma OthersOwnTheirSeats(
    seats: map<SeatKey, Seat>, bookings: map<Id, Booking>, id: Id, position: nat, wanted: SeatKey, b: Id)
    requires Inventory(seats, bookings) && MayMove(seats, bookings, id, position, wanted)
    requires b in bookings && b != id && OwnsItsSeats(seats, b, bookings[b])
    ensures OwnsItsSeats(Moved(seats, SeatKeyOf(bookings[id], position), wanted, id), b, bookings[b])
  {
    hide Inventory, SeatOk;
    OwnSeatIsOwn(seats, bookings, id, position, wanted);
  }

  lemma ReseatKeepsInventory(
    seats: map<SeatKey, Seat>, bookings: map<Id, Booking>, id: Id, position: nat, target: SeatPosition)
    requires id in bookings && Inventory(seats, bookings)
    requires MayMove(seats, bookings, id, position, SeatKey(bookings[id].flightId, target))
    ensures
      var wanted := SeatKey(bookings[id].flightId, target);
      Inventory(Moved(seats, SeatKeyOf(bookings[id], position), wanted, id),
                bookings[id := Reseated(bookings[id], position, target)])
  {
    hide SeatOk, OwnsItsSeats, WellFormed, Reseated, Moved;
    var wanted, own := SeatKey(bookings[id].flightId, target), SeatKeyOf(bookings[id], position);
    var seats', bookings' := Moved(seats, own, wanted, id), bookings[id := Reseated(bookings[id], position, target)];
    MovedKeys(seats, own, wanted, id);
    ReseatedIsWellFormed(seats, bookings, id, position, target);
    ReseatedRow(bookings[id], position, target);
    MovedOwnsItsSeats(seats, bookings, id, position, wanted);
    forall k | k in seats' ensures SeatOk(bookings', k, seats'[k]) {
      MovedSeatsAreOk(seats, bookings, id, position, wanted, k);
    }
    forall b | b in bookings' && IsLive(bookings'[b].status) ensures OwnsItsSeats(seats', b, bookings'[b]) {
      if b != id { OthersOwnTheirSeats(seats, bookings, id, position, wanted, b); }
    }
  }

  lemma MovedKeys(seats: map<SeatKey, Seat>, own: SeatKey, wanted: SeatKey, id: Id)
    requires own in seats && wanted in seats
    ensures Moved(seats, own, wanted, id).Keys == seats.Keys
  {
  }

  /** Only the moved passenger's seat differs, and no other passenger sits there. */
  lemma ReseatedKeys(booking: Booking, position: nat, target: SeatPosition)
    requires 1 <= position <= |booking.passengers| && WellFormed(booking)
    ensures forall i | 0 <= i < |booking.passengers| && i != position - 1 ::
      BookingKeys(Reseated(booking, position, target))[i] == BookingKeys(booking)[i]
      && BookingKeys(booking)[i] != BookingKeys(booking)[position - 1]
    ensures BookingKeys(Reseated(booking, position, target))[position - 1] == SeatKey(booking.flightId, target)
    ensures forall k :: k in BookingKeys(Reseated(booking, position, target)) <==>
      k == SeatKey(booking.flightId, target)
      || (k in BookingKeys(booking) && k != BookingKeys(booking)[position - 1])
  {
  }

  lemma ReseatedIsWellFormed(seats: map<SeatKey, Seat>, bookings: map<Id, Booking>, id: Id, position: nat, target: SeatPosition)
    requires Inventory(seats, bookings) && id in bookings && bookings[id].status.CONFIRMED?
    requires 1 <= position <= |bookings[id].passengers|
    requires SeatKey(bookings[id].flightId, target) in seats
    requires seats[SeatKey(bookings[id].flightId, target)].status.AVAILABLE?
    ensures WellFormed(Reseated(bookings[id], position, target))
    ensures Total(Reseated(bookings[id], position, target)) == Total(bookings[id])
  {
    var booking := bookings[id];
    assert WellFormed(booking);
    ReseatKeepsSum(booking.passengers, position - 1, target);
    HeldSeatsStay(seats, bookings, id, {SeatKey(booking.flightId, target)});
    forall i | 0 <= i < |booking.passengers| ensures booking.passengers[i].seat != target {
      assert BookingKeys(booking)[i] != SeatKey(booking.flightId, target);
    }
  }

  /** Rows that keep their status have the same events. */
  lemma SameStatusKeepsEvents(
    bookings: map<Id, Booking>, bookings': map<Id, Booking>, payments: map<Id, Payment>, outbox: seq<OutboxRow>)
    requires Events(bookings, payments, outbox) && bookings'.Keys == bookings.Keys
    requires forall b | b in bookings :: bookings'[b].status == bookings[b].status
    ensures Events(bookings', payments, outbox)
  {
    forall b: Id ensures BookingEvents(bookings', outbox, b) {
      assert BookingEvents(bookings, outbox, b);
    }
  }

  lemma ReseatedPaysTheSame(booking: Booking, position: nat, target: SeatPosition)
    requires 1 <= position <= |booking.passengers|
    ensures PaidForTheSame(booking, Reseated(booking, position, target))
  {
    ReseatKeepsSum(booking.passengers, position - 1, target);
  }

  /** A change that went through moves the two seats and one passenger, and writes one audit entry. */
  lemma ChangedTables(t: Tables, id: Id, position: nat, target: SeatPosition, scope: Scope, actor: Id, now: Instant)
    ensures
      var o := ChangeSeat(t, id, position, target, scope, actor, now);
      if !(o.result.Ok? && o.result.value.Changed?) then o.db == t
      else
        && id in t.bookings && t.bookings[id].status.CONFIRMED? && 1 <= position <= |t.bookings[id].passengers|
        && var wanted := SeatKey(t.bookings[id].flightId, target);
           && MayMove(t.seats, t.bookings, id, position, wanted)
           && o.db == t.(
                seats := Moved(t.seats, SeatKeyOf(t.bookings[id], position), wanted, id),
                bookings := t.bookings[id := Reseated(t.bookings[id], position, target)], audit := o.db.audit)
  {
    hide Reseated, Released, IsBookable;
  }

  lemma InventoryOf(t: Tables)
    requires Inv(t)
    ensures Inventory(t.seats, t.bookings)
  {
    hide Inventory, Money, Events, Keys;
  }

  lemma RowPaysTheSame(bookings: map<Id, Booking>, id: Id, c: Booking)
    requires id in bookings && PaidForTheSame(bookings[id], c)
    ensures forall b | b in bookings :: b in bookings[id := c] && PaidForTheSame(bookings[b], bookings[id := c][b])
  {
    hide SumPrices;
  }

  /** New seats for the passengers of one booking, at the same total, in tables whose inventory is right. */
  lemma ReseatedRowKeepsInv(t: Tables, t': Tables, id: Id, c: Booking)
    requires Inv(t) && id in t.bookings && c == t.bookings[id].(passengers := c.passengers)
    requires Total(c) == Total(t.bookings[id])
    requires t' == t.(seats := t'.seats, bookings := t.bookings[id := c], audit := t'.audit)
    requires Inventory(t'.seats, t'.bookings) && t'.seats.Keys == t.seats.Keys
    ensures Inv(t')
  {
    hide Inventory, Money, Events, Keys, Total;
    MoneyFrame(t.bookings, t'.bookings, t.payments);
    SameStatusKeepsEvents(t.bookings, t'.bookings, t.payments, t.outbox);
  }

  /** A seat change keeps the invariant and every price. */
  lemma ChangeSeatKeepsInv(
    t: Tables, id: Id, position: nat, target: SeatPosition, scope: Scope, actor: Id, now: Instant)
    requires Inv(t)
    ensures Inv(ChangeSeat(t, id, position, target, scope, actor, now).db)
    ensures forall b | b in t.bookings ::
      var db := ChangeSeat(t, id, position, target, scope, actor, now).db;
      b in db.bookings && PaidForTheSame(t.bookings[b], db.bookings[b])
  {
    hide Inv, Inventory, Reseated, ChangeSeat, SumPrices, Moved;
    InventoryOf(t);
    var o := ChangeSeat(t, id, position, target, scope, actor, now);
    ChangedTables(t, id, position, target, scope, actor, now);
    if o.result.Ok? && o.result.value.Changed? {
      var moved := Reseated(t.bookings[id], position, target);
      var wanted := SeatKey(t.bookings[id].flightId, target);
      MovedKeys(t.seats, SeatKeyOf(t.bookings[id], position), wanted, id);
      ReseatKeepsInventory(t.seats, t.bookings, id, position, target);
      ReseatedRow(t.bookings[id], position, target);
      ReseatedPaysTheSame(t.bookings[id], position, target);
      RowPaysTheSame(t.bookings, id, moved);
      ReseatedRowKeepsInv(t, o.db, id, moved);
    }
  }

  /** A seat change touches nothing of the row but its passengers. */
  lemma ReseatedRow(booking: Booking, position: nat, target: SeatPosition)
    requires 1 <= position <= |booking.passengers|
    ensures Reseated(booking, position, target)
      == booking.(passengers := Reseated(booking, position, target).passengers)
  {
  }
}

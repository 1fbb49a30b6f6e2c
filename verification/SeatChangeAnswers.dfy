/** What a seat change is answered, stated in what the caller could look up before, and what it leaves. */
module SeatChangeAnswers {
  import opened Basics
  import opened Schema
  import opened Lifecycle
  import opened Transactions
  import opened Invariants
  import opened CreateAnswers
  import opened CancelAnswers
  import opened ExpiryView

  /** Up to here nothing depends on the wanted seat: whose booking, which passenger, and is it confirmed. */
  lemma WhoseSeatIff(
    t: Tables, id: Id, position: nat, target: SeatPosition, scope: Scope, actor: Id, now: Instant)
    requires Inv(t)
    ensures
      var o := ChangeSeat(t, id, position, target, scope, actor, now);
      && o.result.Ok? && (o.result.value.BookingNotFound? <==> !MaySee(t, id, scope))
      && (MaySee(t, id, scope) ==>
            var b := t.bookings[id];
            var there := 1 <= position <= |b.passengers|;
            && (o.result.value.PassengerNotFound? <==> !there)
            && (o.result.value.NotChangeable? <==> there && !b.status.CONFIRMED?))
      && (!o.result.value.Changed? ==> o.db == t)
  {
    hide Inventory, Money, Events, Keys, IsBookable;
    if MaySee(t, id, scope) && t.bookings[id].status.CONFIRMED? && 1 <= position <= |t.bookings[id].passengers| {
      OwnSeat(t, id, position - 1);
    }
  }

  predicate SeatOfClass(t: Tables, k: SeatKey, fareClass: FareClass) {
    k in t.seats && t.seats[k].fareClass == fareClass
  }

  predicate FreeOfClass(t: Tables, k: SeatKey, fareClass: FareClass) {
    SeatOfClass(t, k, fareClass) && t.seats[k].status.AVAILABLE?
  }

  /**
   * For a passenger of a confirmed booking: the same seat changes nothing,
   * otherwise the flight must be on sale, the seat must exist, be of the
   * passenger's class, and be free; then the passenger moves, and only then.
   */
  lemma WhichSeatIff(
    t: Tables, id: Id, position: nat, target: SeatPosition, scope: Scope, actor: Id, now: Instant)
    requires Inv(t) && MaySee(t, id, scope) && t.bookings[id].status.CONFIRMED?
    requires 1 <= position <= |t.bookings[id].passengers|
    ensures
      var answer, b := ChangeSeat(t, id, position, target, scope, actor, now).result, t.bookings[id];
      var passenger, wanted := b.passengers[position - 1], SeatKey(b.flightId, target);
      var moves := target != passenger.seat && OpenForSale(t, b.flightId, now);
      && (answer == Ok(Unchanged) <==> target == passenger.seat)
      && (answer == Ok(ChangeSalesClosed) <==> target != passenger.seat && !OpenForSale(t, b.flightId, now))
      && (answer == Ok(UnknownSeat) <==> moves && wanted !in t.seats)
      && (answer.Ok? && answer.value.FareClassMismatch? <==>
            moves && wanted in t.seats && !SeatOfClass(t, wanted, passenger.fareClass))
      && (answer.Ok? && answer.value.FareClassMismatch? ==>
            answer.value == FareClassMismatch(passenger.fareClass, t.seats[wanted].fareClass))
      && (answer == Ok(SeatUnavailable) <==>
            moves && SeatOfClass(t, wanted, passenger.fareClass) && !FreeOfClass(t, wanted, passenger.fareClass))
      && (answer.Ok? && answer.value.Changed? <==> moves && FreeOfClass(t, wanted, passenger.fareClass))
      && (answer.Ok? && answer.value.Changed? ==> answer.value == Changed(passenger.seat, target))
  {
    hide Inventory, Money, Events, Keys;
    OwnSeat(t, id, position - 1);
  }

  /**
   * A change frees the passenger's old seat, takes the wanted one for the
   * booking, moves that passenger and nobody else, and is audited once.
   */
  lemma ChangeLeaves(
    t: Tables, id: Id, position: nat, target: SeatPosition, scope: Scope, actor: Id, now: Instant)
    requires Inv(t) && ChangeSeat(t, id, position, target, scope, actor, now).result.Ok?
    requires ChangeSeat(t, id, position, target, scope, actor, now).result.value.Changed?
    ensures id in t.bookings && 1 <= position <= |t.bookings[id].passengers|
    ensures
      var db, b := ChangeSeat(t, id, position, target, scope, actor, now).db, t.bookings[id];
      var own, wanted := SeatKey(b.flightId, b.passengers[position - 1].seat), SeatKey(b.flightId, target);
      && own in t.seats && wanted in t.seats && own != wanted
      && db.seats == t.seats[own := Seat(t.seats[own].fareClass, AVAILABLE, None)]
                            [wanted := Seat(t.seats[wanted].fareClass, BOOKED, Some(id))]
      && db.bookings.Keys == t.bookings.Keys && (forall c | c in t.bookings && c != id :: db.bookings[c] == t.bookings[c])
      && db.bookings[id] == b.(passengers := db.bookings[id].passengers)
      && |db.bookings[id].passengers| == |b.passengers|
      && (forall i | 0 <= i < |b.passengers| :: db.bookings[id].passengers[i]
            == if i == position - 1 then b.passengers[i].(seat := target) else b.passengers[i])
      && db.audit == t.audit
           + [AuditEntry(BOOKING_SEAT_CHANGED(position, b.passengers[position - 1].seat, target), Account(actor), id, now)]
      && db.payments == t.payments && db.keys == t.keys && db.outbox == t.outbox
      && db.flights == t.flights && db.fares == t.fares
  {
    hide Inventory, Money, Events, Keys, References, IsBookable;
  }
}

/** What every committed state promises: inventory, money, keys, events. */
module Invariants {
  import opened Basics
  import opened Counting
  import opened Schema
  import opened Lifecycle
  import opened Transactions

  // ---- Inventory ----

  /** The seats a booking's passengers name, in passenger order. */
  function BookingKeys(booking: Booking): (r: seq<SeatKey>)
    ensures |r| == |booking.passengers|
    ensures forall i | 0 <= i < |r| :: r[i] == SeatKey(booking.flightId, booking.passengers[i].seat)
  {
    seq(|booking.passengers|, i requires 0 <= i < |booking.passengers| =>
      SeatKey(booking.flightId, booking.passengers[i].seat))
  }

  function SeatStatusFor(status: BookingStatus): SeatStatus {
    if status.CONFIRMED? then SeatStatus.BOOKED else SeatStatus.HELD
  }

  /** A seat is AVAILABLE iff it has no booking; its booking is live and names it. */
  ghost predicate SeatOk(bookings: map<Id, Booking>, k: SeatKey, seat: Seat) {
    && (seat.status.AVAILABLE? <==> seat.bookingId.None?)
    && (seat.bookingId.Some? ==>
          && seat.bookingId.value in bookings
          && IsLive(bookings[seat.bookingId.value].status)
          && k in BookingKeys(bookings[seat.bookingId.value])
          && seat.status == SeatStatusFor(bookings[seat.bookingId.value].status))
  }

  /** CHECK and UNIQUE constraints of a booking and its passengers. */
  ghost predicate WellFormed(booking: Booking) {
    && 1 <= |booking.passengers| <= MAX_PASSENGERS
    && (forall i, j | 0 <= i < j < |booking.passengers| :: booking.passengers[i].seat != booking.passengers[j].seat)
    && (forall i | 0 <= i < |booking.passengers| :: 1 <= booking.passengers[i].price)
    && Total(booking) <= MAX_SAFE_INTEGER
    && booking.holdExpiresAt.Some?
  }

  /** A live booking owns every seat its passengers name, in the class they paid for. */
  ghost predicate OwnsItsSeats(seats: map<SeatKey, Seat>, id: Id, booking: Booking) {
    forall i | 0 <= i < |booking.passengers| ::
      var k := BookingKeys(booking)[i];
      k in seats && seats[k].bookingId == Some(id) && seats[k].fareClass == booking.passengers[i].fareClass
  }

  ghost predicate Inventory(seats: map<SeatKey, Seat>, bookings: map<Id, Booking>) {
    && (forall k | k in seats :: SeatOk(bookings, k, seats[k]))
    && (forall b | b in bookings :: WellFormed(bookings[b]))
    && (forall b | b in bookings && IsLive(bookings[b].status) :: OwnsItsSeats(seats, b, bookings[b]))
  }

  /** Foreign keys, UQ_bookings_reference and the fare CHECKs. */
  ghost predicate References(t: Tables) {
    && (forall k | k in t.seats :: k.flightId in t.flights)
    && (forall b | b in t.bookings :: t.bookings[b].flightId in t.flights)
    && (forall a, b | a in t.bookings && b in t.bookings && a != b :: t.bookings[a].reference != t.bookings[b].reference)
    && (forall f | f in t.fares :: 1 <= t.fares[f] <= MAX_SAFE_INTEGER)
  }

  // ---- Money ----

  predicate WasCharged(status: PaymentStatus) {
    status.SUCCEEDED? || status.REFUND_PENDING? || status.REFUNDED? || status.REFUND_FAILED?
  }

  /** The CHECK constraints of a payment, and its amount: the booking's total. */
  ghost predicate PaymentOk(bookings: map<Id, Booking>, p: Payment) {
    && p.bookingId in bookings
    && p.amount == Total(bookings[p.bookingId])
    && (p.token.Some? <==> p.status.PROCESSING?)
    && (p.nextAttemptAt.Some? <==> NeedsReconciling(p.status))
    && (p.providerReference.Some? <==> WasCharged(p.status))
    && (p.status.FAILED? ==> p.failureReason.Some?)
    && (p.status.SUCCEEDED? ==> bookings[p.bookingId].status.CONFIRMED?)
  }

  ghost predicate PaidBy(payments: map<Id, Payment>, bookingId: Id, p: Id) {
    p in payments && payments[p].status.SUCCEEDED? && payments[p].bookingId == bookingId
  }

  /** Two payments of one booking are never both SUCCEEDED, nor both PROCESSING. */
  predicate Compatible(p: Payment, q: Payment) {
    p.bookingId == q.bookingId ==>
      (p.status.SUCCEEDED? ==> !q.status.SUCCEEDED?) && (p.status.PROCESSING? ==> !q.status.PROCESSING?)
  }

  /** At most one SUCCEEDED and one PROCESSING payment a booking; CONFIRMED means paid. */
  ghost predicate Money(bookings: map<Id, Booking>, payments: map<Id, Payment>) {
    && (forall p | p in payments :: PaymentOk(bookings, payments[p]))
    && (forall p, q | p in payments && q in payments && p != q :: Compatible(payments[p], payments[q]))
    && (forall b | b in bookings && bookings[b].status.CONFIRMED? :: exists p :: PaidBy(payments, b, p))
  }

  // ---- Events ----

  datatype EventKind = HELD_EVENT | CONFIRMED_EVENT | CANCELLED_EVENT | EXPIRED_EVENT | PAID_EVENT

  /** PAID_EVENT is the confirmation seen from its payment; the others name a booking. */
  predicate Matches(e: Event, kind: EventKind, id: Id) {
    match kind
    case HELD_EVENT => e.BookingHeld? && e.bookingId == id
    case CONFIRMED_EVENT => e.BookingConfirmed? && e.bookingId == id
    case CANCELLED_EVENT => e.BookingCancelled? && e.bookingId == id
    case EXPIRED_EVENT => e.BookingExpired? && e.bookingId == id
    case PAID_EVENT => e.BookingConfirmed? && e.paymentId == id
  }

  function Count(outbox: seq<OutboxRow>, kind: EventKind, id: Id): nat {
    if outbox == [] then 0
    else Count(outbox[..|outbox| - 1], kind, id)
         + (if Matches(outbox[|outbox| - 1].event, kind, id) then 1 else 0)
  }

  lemma CountAppend(outbox: seq<OutboxRow>, row: OutboxRow)
    ensures forall kind, id ::
      Count(outbox + [row], kind, id) == Count(outbox, kind, id) + (if Matches(row.event, kind, id) then 1 else 0)
  {
  }

  /** What consumers check: an end event names 1 to 9 distinct seats, a confirmation the amount paid. */
  ghost predicate EventOk(payments: map<Id, Payment>, e: Event) {
    match e
    case BookingHeld(_, passengers, total) => 1 <= |passengers| <= MAX_PASSENGERS && total == SumPrices(passengers)
    case BookingConfirmed(b, passengers, total, p, amount) =>
      p in payments && payments[p].bookingId == b && payments[p].amount == amount == total == SumPrices(passengers)
    case BookingCancelled(b, seats, refund) =>
      && 1 <= |seats| <= MAX_PASSENGERS && Distinct(seats)
      && (refund.Some? ==>
            && refund.value.paymentId in payments
            && payments[refund.value.paymentId].bookingId == b
            && payments[refund.value.paymentId].amount == refund.value.amount)
    case BookingExpired(_, seats) => 1 <= |seats| <= MAX_PASSENGERS && Distinct(seats)
  }

  ghost predicate BookingStatusIs(bookings: map<Id, Booking>, b: Id, status: BookingStatus) {
    b in bookings && bookings[b].status == status
  }

  ghost predicate BookingEvents(bookings: map<Id, Booking>, outbox: seq<OutboxRow>, b: Id) {
    && Count(outbox, HELD_EVENT, b) == (if b in bookings then 1 else 0)
    && Count(outbox, CANCELLED_EVENT, b) == (if BookingStatusIs(bookings, b, BookingStatus.CANCELLED) then 1 else 0)
    && Count(outbox, EXPIRED_EVENT, b) == (if BookingStatusIs(bookings, b, BookingStatus.EXPIRED) then 1 else 0)
    && Count(outbox, CONFIRMED_EVENT, b) <= 1
    && (BookingStatusIs(bookings, b, CONFIRMED) ==> Count(outbox, CONFIRMED_EVENT, b) == 1)
    && (Count(outbox, CONFIRMED_EVENT, b) == 1 ==>
          BookingStatusIs(bookings, b, CONFIRMED) || BookingStatusIs(bookings, b, BookingStatus.CANCELLED))
  }

  ghost predicate PaymentEvents(payments: map<Id, Payment>, outbox: seq<OutboxRow>, p: Id) {
    && Count(outbox, PAID_EVENT, p) <= 1
    && (p in payments && payments[p].status.SUCCEEDED? ==> Count(outbox, PAID_EVENT, p) == 1)
    && (p !in payments || !WasCharged(payments[p].status) ==> Count(outbox, PAID_EVENT, p) == 0)
  }

  /** One creation, at most one confirmation and one end per booking, each told exactly once. */
  ghost predicate Events(bookings: map<Id, Booking>, payments: map<Id, Payment>, outbox: seq<OutboxRow>) {
    && (forall i | 0 <= i < |outbox| :: EventOk(payments, outbox[i].event))
    && (forall b: Id :: BookingEvents(bookings, outbox, b))
    && (forall p: Id :: PaymentEvents(payments, outbox, p))
  }

  // ---- Keys ----

  /** The stored response says what the payment's own phase 3 committed. */
  ghost predicate ResponseAgrees(payments: map<Id, Payment>, outbox: seq<OutboxRow>, r: StoredResponse, p: Id)
    requires p in payments
  {
    && r.status in {201, 402, 409}
    && (r.status == 402 <==> payments[p].status.FAILED?)
    && (r.status == 201 <==> Count(outbox, PAID_EVENT, p) == 1)
    && (r.status == 201 ==>
          && r.body.Confirmation?
          && r.body.payment.id == p
          && r.body.bookingId == payments[p].bookingId
          && r.body.payment.amount == payments[p].amount == Total(r.body.booking))
  }

  ghost predicate KeyOk(payments: map<Id, Payment>, outbox: seq<OutboxRow>, row: KeyRow) {
    && (row.status.COMPLETED? <==> row.response.Some?)
    && (row.status.COMPLETED? <==> row.completedAt.Some?)
    && (row.paymentId.Some? ==> row.paymentId.value in payments)
    && (row.status.IN_PROGRESS? ==> row.paymentId.Some? && payments[row.paymentId.value].status.PROCESSING?)
    && (row.status.COMPLETED? && row.paymentId.Some? ==>
          && !payments[row.paymentId.value].status.PROCESSING?
          && ResponseAgrees(payments, outbox, row.response.value, row.paymentId.value))
  }

  ghost predicate StartedBy(keys: map<KeyId, KeyRow>, p: Id, k: KeyId) {
    k in keys && keys[k].paymentId == Some(p)
  }

  /** IN_PROGRESS keys and PROCESSING payments correspond one to one. */
  ghost predicate Keys(payments: map<Id, Payment>, keys: map<KeyId, KeyRow>, outbox: seq<OutboxRow>) {
    && (forall k | k in keys :: KeyOk(payments, outbox, keys[k]))
    && (forall k, l | k in keys && l in keys && k != l ::
          keys[k].paymentId.None? || keys[k].paymentId != keys[l].paymentId)
    && (forall p | p in payments && payments[p].status.PROCESSING? :: exists k :: StartedBy(keys, p, k))
  }

  ghost predicate Inv(t: Tables) {
    && Inventory(t.seats, t.bookings)
    && References(t)
    && Money(t.bookings, t.payments)
    && Events(t.bookings, t.payments, t.outbox)
    && Keys(t.payments, t.keys, t.outbox)
  }

  // ---- Consequences ----

  /** The seats found by booking_id are exactly the passengers' seats while the booking is live, none after. */
  lemma OwnedSeats(t: Tables, b: Id)
    requires Inventory(t.seats, t.bookings) && b in t.bookings
    ensures IsLive(t.bookings[b].status) ==>
      SeatsOf(t.seats, {b}) == Elems(BookingKeys(t.bookings[b]))
      && |SeatsOf(t.seats, {b})| == |t.bookings[b].passengers|
    ensures !IsLive(t.bookings[b].status) ==> SeatsOf(t.seats, {b}) == {}
  {
    var booking := t.bookings[b];
    var owned := SeatsOf(t.seats, {b});
    forall k | k in owned ensures IsLive(booking.status) && k in BookingKeys(booking) {
      assert SeatOk(t.bookings, k, t.seats[k]);
    }
    if IsLive(booking.status) {
      assert OwnsItsSeats(t.seats, b, booking);
      assert owned == Elems(BookingKeys(booking));
      assert WellFormed(booking);
      DistinctIffFull(BookingKeys(booking));
    }
  }

  lemma SeatCodesDistinct(seats: map<SeatKey, Seat>, flightId: Id, b: Id)
    requires forall k | k in SeatsOf(seats, {b}) :: k.flightId == flightId
    ensures |SeatCodes(seats, b)| == |SeatsOf(seats, {b})|
    ensures Distinct(SeatCodes(seats, b))
    ensures forall p :: p in SeatCodes(seats, b) <==> SeatKey(flightId, p) in SeatsOf(seats, {b})
  {
  }

  /** Ending a live booking reports exactly its passengers' seats: 1 to 9, distinct. */
  lemma EndReport(t: Tables, b: Id)
    requires Inventory(t.seats, t.bookings) && b in t.bookings && IsLive(t.bookings[b].status)
    ensures 1 <= |SeatCodes(t.seats, b)| <= MAX_PASSENGERS
    ensures Distinct(SeatCodes(t.seats, b))
    ensures forall p :: p in SeatCodes(t.seats, b) <==>
      SeatKey(t.bookings[b].flightId, p) in BookingKeys(t.bookings[b])
  {
    OwnedSeats(t, b);
    SeatCodesDistinct(t.seats, t.bookings[b].flightId, b);
    assert WellFormed(t.bookings[b]);
  }

  /** A booking's paid payment is its only one. */
  lemma SucceededIs(t: Tables, b: Id, q: Id)
    requires Inv(t) && q in SucceededOf(t, b)
    ensures SucceededOf(t, b) == {q}
  {
  }

  /** A booking is paid exactly while it is CONFIRMED. */
  lemma PaidIffConfirmed(t: Tables, b: Id)
    requires Inv(t) && b in t.bookings
    ensures SucceededOf(t, b) != {} <==> t.bookings[b].status.CONFIRMED?
  {
    hide Inventory, Events, Keys;
    if t.bookings[b].status.CONFIRMED? {
      var p: Id :| PaidBy(t.payments, b, p);
      assert p in SucceededOf(t, b);
    }
    forall p | p in SucceededOf(t, b) ensures t.bookings[b].status.CONFIRMED? {
      assert PaymentOk(t.bookings, t.payments[p]);
    }
  }
}

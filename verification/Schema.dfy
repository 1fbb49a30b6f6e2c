/** The tables of booking_db: one datatype per row, one map per table. */
module Schema {
  import opened Basics
  import opened Ordering

  datatype FareClass = ECONOMY | BUSINESS

  datatype SeatPosition = SeatPosition(row: nat, letter: char)

  /** Primary key of flight_seats. */
  datatype SeatKey = SeatKey(flightId: Id, position: SeatPosition)

  datatype SeatStatus = AVAILABLE | HELD | BOOKED

  datatype Seat = Seat(fareClass: FareClass, status: SeatStatus, bookingId: Option<Id>)

  datatype StoredFlightStatus = SCHEDULED | OPEN | CANCELLED

  datatype Flight = Flight(status: StoredFlightStatus, departureAt: Instant)

  /** A passenger with the price snapshot its seat was held at (whole dong). */
  datatype Passenger = Passenger(name: string, seat: SeatPosition, fareClass: FareClass, price: nat)

  datatype BookingStatus = HELD | CONFIRMED | CANCELLED | EXPIRED

  datatype Booking = Booking(
    reference: nat,
    flightId: Id,
    owner: Id,
    status: BookingStatus,
    createdAt: Instant,
    holdExpiresAt: Option<Instant>,
    passengers: seq<Passenger>)

  datatype PaymentStatus = PROCESSING | SUCCEEDED | FAILED | REFUND_PENDING | REFUNDED | REFUND_FAILED

  datatype Payment = Payment(
    bookingId: Id,
    accountId: Id,
    amount: nat,
    status: PaymentStatus,
    providerReference: Option<string>,
    failureReason: Option<string>,
    token: Option<string>,
    attempts: nat,
    nextAttemptAt: Option<Instant>,
    createdAt: Instant,
    updatedAt: Instant)

  /** Primary key of idempotency_keys; the operation is always pay-booking. */
  datatype KeyId = KeyId(accountId: Id, key: nat)

  datatype KeyStatus = IN_PROGRESS | COMPLETED

  /** The payment as a response shows it. */
  datatype PaymentView = PaymentView(
    id: Id, bookingId: Id, status: PaymentStatus, amount: nat,
    providerReference: Option<string>, createdAt: Instant)

  datatype ResponseBody =
    | Confirmation(payment: PaymentView, bookingId: Id, booking: Booking)
    | ErrorBody(code: string, message: string)

  datatype StoredResponse = StoredResponse(status: nat, body: ResponseBody)

  datatype KeyRow = KeyRow(
    fingerprint: string,
    status: KeyStatus,
    response: Option<StoredResponse>,
    paymentId: Option<Id>,
    createdAt: Instant,
    completedAt: Option<Instant>)

  datatype Actor = Account(id: Id) | HoldExpiryJob | ReconciliationJob

  datatype AuditAction =
    | BOOKING_CREATED(totalVnd: nat)
    | BOOKING_CONFIRMED(paymentId: Id, amountVnd: nat)
    | BOOKING_CANCELLED(refundPaymentId: Option<Id>)
    | BOOKING_EXPIRED(seats: seq<SeatPosition>)
    | BOOKING_SEAT_CHANGED(position: nat, from: SeatPosition, to: SeatPosition)
    | PAYMENT_FAILED(reason: string)
    | PAYMENT_REFUND_PENDING
    | PAYMENT_REFUNDED
    | PAYMENT_REFUND_FAILED(reason: string)

  /** `target` is a payment id for the PAYMENT_ actions, a booking id for the others. */
  datatype AuditEntry = AuditEntry(action: AuditAction, actor: Actor, target: Id, occurredAt: Instant)

  datatype Event =
    | BookingHeld(bookingId: Id, passengers: seq<Passenger>, total: nat)
    | BookingConfirmed(bookingId: Id, passengers: seq<Passenger>, total: nat, paymentId: Id, amount: nat)
    | BookingCancelled(bookingId: Id, seats: seq<SeatPosition>, refund: Option<Refund>)
    | BookingExpired(bookingId: Id, seats: seq<SeatPosition>)

  datatype Refund = Refund(paymentId: Id, amount: nat)

  datatype OutboxRow = OutboxRow(event: Event, createdAt: Instant)

  datatype Tables = Tables(
    flights: map<Id, Flight>,
    fares: map<(Id, FareClass), nat>,
    seats: map<SeatKey, Seat>,
    bookings: map<Id, Booking>,
    payments: map<Id, Payment>,
    keys: map<KeyId, KeyRow>,
    audit: seq<AuditEntry>,
    outbox: seq<OutboxRow>)

  /** Whose bookings a caller reaches: its own, or every account's. */
  datatype Scope = Owner(accountId: Id) | All

  predicate InScope(booking: Booking, scope: Scope) {
    scope.All? || booking.owner == scope.accountId
  }

  /** Seat order: flight, then row, then letter. */
  predicate SeatLess(a: SeatKey, b: SeatKey) {
    || a.flightId < b.flightId
    || (a.flightId == b.flightId
        && (a.position.row < b.position.row
            || (a.position.row == b.position.row && a.position.letter < b.position.letter)))
  }

  lemma SeatOrder()
    ensures StrictTotalOrder(SeatLess)
  {
  }

  /** (time, id): the order of the expiry and reconciliation sweeps. */
  predicate DueLess(a: (Instant, Id), b: (Instant, Id)) {
    a.0 < b.0 || (a.0 == b.0 && a.1 < b.1)
  }

  lemma DueOrder()
    ensures StrictTotalOrder(DueLess)
  {
  }

  function SortedSeats(s: set<SeatKey>): (r: seq<SeatKey>)
    ensures |r| == |s|
    ensures forall k :: k in r <==> k in s
    ensures Increasing(r, SeatLess)
  {
    SeatOrder();
    Sorted(s, SeatLess)
  }

  function SortedDue(s: set<(Instant, Id)>): (r: seq<(Instant, Id)>)
    ensures |r| == |s|
    ensures forall d :: d in r <==> d in s
    ensures Increasing(r, DueLess)
  {
    DueOrder();
    Sorted(s, DueLess)
  }

  function PositionsOf(keys: seq<SeatKey>): (r: seq<SeatPosition>)
    ensures |r| == |keys|
    ensures forall i | 0 <= i < |r| :: r[i] == keys[i].position
  {
    seq(|keys|, i requires 0 <= i < |keys| => keys[i].position)
  }

  // ---- Booking totals (booking-total.ts, money.ts) ----

  function SumPrices(passengers: seq<Passenger>): nat {
    if passengers == [] then 0
    else SumPrices(passengers[..|passengers| - 1]) + passengers[|passengers| - 1].price
  }

  /** The booking's total is derived from its passengers' price snapshots. */
  function Total(booking: Booking): nat { SumPrices(booking.passengers) }

  /** Same names, classes and prices, passenger by passenger, and the same total. */
  predicate PaidForTheSame(b: Booking, c: Booking) {
    && Total(c) == Total(b) && |c.passengers| == |b.passengers|
    && forall i | 0 <= i < |b.passengers| :: c.passengers[i] == b.passengers[i].(seat := c.passengers[i].seat)
  }

  /** Reseating a passenger moves no price. */
  lemma {:induction false} ReseatKeepsSum(passengers: seq<Passenger>, i: nat, seat: SeatPosition)
    requires i < |passengers|
    ensures SumPrices(passengers[i := passengers[i].(seat := seat)]) == SumPrices(passengers)
    decreases |passengers|
  {
    var moved := passengers[i := passengers[i].(seat := seat)];
    var last := |passengers| - 1;
    if i < last {
      ReseatKeepsSum(passengers[..last], i, seat);
      assert moved[..last] == passengers[..last][i := passengers[i].(seat := seat)];
    } else {
      assert moved[..last] == passengers[..last];
    }
  }
}

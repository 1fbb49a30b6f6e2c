/**
 * What each database transaction does, as a function from the committed
 * tables to the tables it commits. A transaction that throws commits the
 * tables it started from. The methods in Database.dfy and the use cases are
 * proved against these functions; the invariants are proved about them.
 */
module Transactions {
  import opened Basics
  import opened Counting
  import opened Ordering
  import opened Schema
  import opened Lifecycle

  /** The committed tables and what the caller got. */
  datatype Outcome<+R> = Outcome(db: Tables, result: Result<R>)

  // ---- Seats of bookings (updateSeatsOf) ----

  predicate OwnedBy(seat: Seat, ids: set<Id>) {
    seat.bookingId.Some? && seat.bookingId.value in ids
  }

  function SeatsOf(seats: map<SeatKey, Seat>, ids: set<Id>): set<SeatKey> {
    set k | k in seats && OwnedBy(seats[k], ids)
  }

  function SeatCodes(seats: map<SeatKey, Seat>, id: Id): seq<SeatPosition> {
    PositionsOf(SortedSeats(SeatsOf(seats, {id})))
  }

  function Released(seat: Seat): Seat { seat.(status := AVAILABLE, bookingId := None) }

  function Release(seats: map<SeatKey, Seat>, keys: set<SeatKey>): (r: map<SeatKey, Seat>)
    ensures r.Keys == seats.Keys
  {
    map k | k in seats :: if k in keys then Released(seats[k]) else seats[k]
  }

  function Book(seats: map<SeatKey, Seat>, keys: set<SeatKey>): (r: map<SeatKey, Seat>)
    ensures r.Keys == seats.Keys
  {
    map k | k in seats :: if k in keys then seats[k].(status := SeatStatus.BOOKED) else seats[k]
  }

  function Hold(seats: map<SeatKey, Seat>, keys: set<SeatKey>, id: Id): (r: map<SeatKey, Seat>)
    ensures r.Keys == seats.Keys
  {
    map k | k in seats ::
      if k in keys then seats[k].(status := SeatStatus.HELD, bookingId := Some(id)) else seats[k]
  }

  function WithStatus(bookings: map<Id, Booking>, id: Id, status: BookingStatus): map<Id, Booking>
    requires id in bookings
  {
    bookings[id := bookings[id].(status := status)]
  }

  // ---- Hold and create (create-booking.ts, holdSeats) ----

  const MAX_PASSENGERS := 9
  const HOLD_DURATION_MS := 15 * MINUTE_MS
  const MAX_REFERENCE_ATTEMPTS := 5

  datatype HoldRequest = Auto(count: nat, fareClass: FareClass) | Chosen(seats: seq<SeatPosition>)

  datatype HeldSeat = HeldSeat(seat: SeatPosition, fareClass: FareClass, price: nat)

  datatype HoldRefusal =
    | NotEnoughSeats
    | FareClassNotOnFlight
    | SeatsUnavailable(seats: seq<SeatPosition>)
    | UnknownSeats(seats: seq<SeatPosition>)
    | SalesClosed
    | FlightNotFound

  /** A validated request: every passenger names a seat, or none does. */
  datatype CreateInput =
    | AutoSeats(fareClass: FareClass, names: seq<string>)
    | ChosenSeats(names: seq<string>, positions: seq<SeatPosition>)

  predicate ValidInput(input: CreateInput) {
    && 1 <= |input.names| <= MAX_PASSENGERS
    && (input.ChosenSeats? ==> |input.positions| == |input.names| && Distinct(input.positions))
  }

  function ToHoldRequest(input: CreateInput): HoldRequest {
    if input.AutoSeats? then Auto(|input.names|, input.fareClass) else Chosen(input.positions)
  }

  function KeysAt(flightId: Id, positions: seq<SeatPosition>): (r: seq<SeatKey>)
    ensures |r| == |positions|
    ensures forall i | 0 <= i < |r| :: r[i] == SeatKey(flightId, positions[i])
  {
    seq(|positions|, i requires 0 <= i < |positions| => SeatKey(flightId, positions[i]))
  }

  function FreeSeats(t: Tables, flightId: Id, fareClass: FareClass): set<SeatKey> {
    set k | k in t.seats && k.flightId == flightId && t.seats[k].status.AVAILABLE? && t.seats[k].fareClass == fareClass
  }

  predicate FlightOnSale(t: Tables, flightId: Id, now: Instant) {
    flightId in t.flights && OnSale(t.flights[flightId], now)
  }

  predicate AllFree(t: Tables, keys: seq<SeatKey>) {
    forall i | 0 <= i < |keys| :: keys[i] in t.seats && t.seats[keys[i]].status.AVAILABLE?
  }

  /** The seats a hold takes, in passenger order; none when it is refused. `locked`: rows SKIP LOCKED passes over. */
  function TakenSeats(t: Tables, flightId: Id, request: HoldRequest, locked: set<SeatKey>, now: Instant): seq<SeatKey> {
    if !FlightOnSale(t, flightId, now) then []
    else match request
      case Auto(count, fareClass) =>
        var free := FreeSeats(t, flightId, fareClass) - locked;
        if |free| >= count then SortedSeats(free)[..count] else []
      case Chosen(positions) =>
        var keys := KeysAt(flightId, positions);
        if Distinct(positions) && AllFree(t, keys) then keys else []
  }

  predicate HasClass(t: Tables, flightId: Id, fareClass: FareClass) {
    exists k | k in t.seats :: k.flightId == flightId && t.seats[k].fareClass == fareClass
  }

  function UnknownOf(t: Tables, flightId: Id, positions: seq<SeatPosition>): seq<SeatPosition> {
    if positions == [] then []
    else (if SeatKey(flightId, positions[0]) in t.seats then [] else [positions[0]])
         + UnknownOf(t, flightId, positions[1..])
  }

  function TakenOf(t: Tables, flightId: Id, positions: seq<SeatPosition>): seq<SeatPosition> {
    if positions == [] then []
    else var k := SeatKey(flightId, positions[0]);
         (if k in t.seats && !t.seats[k].status.AVAILABLE? then [positions[0]] else [])
         + TakenOf(t, flightId, positions[1..])
  }

  function Refusal(t: Tables, flightId: Id, request: HoldRequest, now: Instant): HoldRefusal {
    if flightId !in t.flights then FlightNotFound
    else if !IsBookable(t.flights[flightId], now) then SalesClosed
    else match request
      case Auto(_, fareClass) =>
        if HasClass(t, flightId, fareClass) then NotEnoughSeats else FareClassNotOnFlight
      case Chosen(positions) =>
        var unknown := UnknownOf(t, flightId, positions);
        if unknown != [] then UnknownSeats(unknown) else SeatsUnavailable(TakenOf(t, flightId, positions))
  }

  predicate AllPriced(t: Tables, keys: seq<SeatKey>) {
    forall i | 0 <= i < |keys| :: keys[i] in t.seats && (keys[i].flightId, t.seats[keys[i]].fareClass) in t.fares
  }

  function Passengers(t: Tables, names: seq<string>, keys: seq<SeatKey>): (r: seq<Passenger>)
    requires |names| == |keys| && AllPriced(t, keys)
    ensures |r| == |names|
    ensures forall i | 0 <= i < |r| ::
      var fareClass := t.seats[keys[i]].fareClass;
      r[i] == Passenger(names[i], keys[i].position, fareClass, t.fares[(keys[i].flightId, fareClass)])
  {
    seq(|names|, i requires 0 <= i < |names| =>
      var fareClass := t.seats[keys[i]].fareClass;
      Passenger(names[i], keys[i].position, fareClass, t.fares[(keys[i].flightId, fareClass)]))
  }

  predicate ReferenceTaken(t: Tables, reference: nat) {
    exists b | b in t.bookings :: t.bookings[b].reference == reference
  }

  /** The first free reference among the draws. */
  function FreeReference(t: Tables, draws: seq<nat>): Option<nat> {
    if draws == [] then None
    else if !ReferenceTaken(t, draws[0]) then Some(draws[0])
    else FreeReference(t, draws[1..])
  }

  datatype CreateResult =
    | Created(id: Id, booking: Booking)
    | Refused(refusal: HoldRefusal)
    | ValidationFailed

  /** What a create request brings: the generated id and the references it draws. */
  datatype CreateRequest = CreateRequest(
    flightId: Id, id: Id, input: CreateInput, owner: Id, draws: seq<nat>, locked: set<SeatKey>)

  function NewBooking(t: Tables, r: CreateRequest, keys: seq<SeatKey>, reference: nat, now: Instant): Booking
    requires |r.input.names| == |keys| && AllPriced(t, keys)
  {
    Booking(reference, r.flightId, r.owner, BookingStatus.HELD, now, Some(now + HOLD_DURATION_MS),
            Passengers(t, r.input.names, keys))
  }

  function FirstDraws(draws: seq<nat>): seq<nat> {
    if |draws| <= MAX_REFERENCE_ATTEMPTS then draws else draws[..MAX_REFERENCE_ATTEMPTS]
  }

  function CreateBooking(t: Tables, r: CreateRequest, now: Instant): Outcome<CreateResult> {
    if !ValidInput(r.input) then Outcome(t, Ok(ValidationFailed))
    else
      var request := ToHoldRequest(r.input);
      var keys := TakenSeats(t, r.flightId, request, r.locked, now);
      if keys == [] then Outcome(t, Ok(Refused(Refusal(t, r.flightId, request, now))))
      else if |keys| != |r.input.names| || !AllPriced(t, keys) then Outcome(t, Err("seat without a fare"))
      else if SumPrices(Passengers(t, r.input.names, keys)) > MAX_SAFE_INTEGER then Outcome(t, Err("total out of range"))
      else
        var reference := FreeReference(t, FirstDraws(r.draws));
        if reference.None? then Outcome(t, Err("no free reference"))
        else if r.id in t.bookings then Outcome(t, Err("duplicate booking id"))
        else
          var booking := NewBooking(t, r, keys, reference.value, now);
          Outcome(
            t.(seats := Hold(t.seats, Elems(keys), r.id),
               bookings := t.bookings[r.id := booking],
               audit := t.audit + [AuditEntry(BOOKING_CREATED(Total(booking)), Account(r.owner), r.id, now)],
               outbox := t.outbox + [OutboxRow(BookingHeld(r.id, booking.passengers, Total(booking)), now)]),
            Ok(Created(r.id, booking)))
  }

  // ---- Payment rows (postgres-payment-repository.ts) ----

  predicate HasStatus(t: Tables, id: Id, status: PaymentStatus) {
    id in t.payments && t.payments[id].status == status
  }

  function Transition(
    p: Payment, to: PaymentStatus, now: Instant, reference: Option<string>, reason: Option<string>): Payment
  {
    p.(status := to, updatedAt := now,
       providerReference := if reference.Some? then reference else p.providerReference,
       failureReason := if reason.Some? then reason else p.failureReason,
       token := None,
       nextAttemptAt := if to.REFUND_PENDING? then Some(now) else None,
       attempts := 0)
  }

  /** UQ_payments_booking_succeeded would refuse `id` becoming SUCCEEDED. */
  predicate PaidAlready(t: Tables, id: Id)
    requires id in t.payments
  {
    exists q | q in t.payments ::
      q != id && t.payments[q].status.SUCCEEDED? && t.payments[q].bookingId == t.payments[id].bookingId
  }

  // ---- Idempotency keys (postgres-idempotency-repository.ts) ----

  function OpenKeysOf(t: Tables, paymentId: Id): set<KeyId> {
    set k | k in t.keys && t.keys[k].status.IN_PROGRESS? && t.keys[k].paymentId == Some(paymentId)
  }

  function Completed(row: KeyRow, response: StoredResponse, now: Instant): KeyRow {
    row.(status := COMPLETED, response := Some(response), completedAt := Some(now))
  }

  function CompleteKeys(
    keys: map<KeyId, KeyRow>, picked: set<KeyId>, response: StoredResponse, now: Instant): map<KeyId, KeyRow>
  {
    map k | k in keys :: if k in picked then Completed(keys[k], response, now) else keys[k]
  }

  // ---- Responses (payment-response.ts) ----

  const REFUNDED_MESSAGE :=
    "Booking was cancelled or expired while the payment was processed; the payment is being refunded"
  const NOT_HELD_MESSAGE := "Booking is not held or its hold has expired"
  const UNDER_MARGIN_MESSAGE := "Booking hold expires in 60 seconds or less; it can no longer be paid"

  function NotPayable(message: string): StoredResponse {
    StoredResponse(409, ErrorBody("BOOKING_NOT_PAYABLE", message))
  }

  function NotFoundResponse(): StoredResponse {
    StoredResponse(404, ErrorBody("BOOKING_NOT_FOUND", "Booking was not found"))
  }

  function DeclinedResponse(reason: string): StoredResponse {
    StoredResponse(402, ErrorBody("PAYMENT_DECLINED", "Payment was declined: " + reason))
  }

  function ConfirmedResponse(id: Id, p: Payment, reference: string, booking: Booking): StoredResponse {
    StoredResponse(201, Confirmation(
      PaymentView(id, p.bookingId, SUCCEEDED, p.amount, Some(reference), p.createdAt), p.bookingId, booking))
  }

  // ---- Phase 3 (settle-payment.ts) ----

  predicate Confirmable(t: Tables, bookingId: Id, scope: Scope, now: Instant) {
    bookingId in t.bookings && InScope(t.bookings[bookingId], scope) && HoldIsValid(t.bookings[bookingId], now)
  }

  /** `p` is the caller's copy of payment `id`, taken when it was started or claimed. */
  function Charged(t: Tables, id: Id, p: Payment, reference: string, actor: Actor, now: Instant): Outcome<StoredResponse> {
    var confirms := Confirmable(t, p.bookingId, Owner(p.accountId), now);
    if !HasStatus(t, id, PROCESSING) then Outcome(t, Err("payment is not PROCESSING"))
    else if confirms && PaidAlready(t, id) then Outcome(t, Err("UQ_payments_booking_succeeded"))
    else if |OpenKeysOf(t, id)| != 1 then Outcome(t, Err("key is not in progress"))
    else if confirms then
      var booking := t.bookings[p.bookingId].(status := CONFIRMED);
      var response := ConfirmedResponse(id, p, reference, booking);
      Outcome(
        t.(bookings := t.bookings[p.bookingId := booking],
           seats := Book(t.seats, SeatsOf(t.seats, {p.bookingId})),
           payments := t.payments[id := Transition(t.payments[id], SUCCEEDED, now, Some(reference), None)],
           keys := CompleteKeys(t.keys, OpenKeysOf(t, id), response, now),
           audit := t.audit + [AuditEntry(BOOKING_CONFIRMED(id, p.amount), actor, p.bookingId, now)],
           outbox := t.outbox
             + [OutboxRow(BookingConfirmed(p.bookingId, booking.passengers, Total(booking), id, p.amount), now)]),
        Ok(response))
    else
      var response := NotPayable(REFUNDED_MESSAGE);
      Outcome(
        t.(payments := t.payments[id := Transition(t.payments[id], REFUND_PENDING, now, Some(reference), None)],
           keys := CompleteKeys(t.keys, OpenKeysOf(t, id), response, now),
           audit := t.audit + [AuditEntry(PAYMENT_REFUND_PENDING, actor, id, now)]),
        Ok(response))
  }

  function Declined(t: Tables, id: Id, reason: string, actor: Actor, now: Instant): Outcome<StoredResponse> {
    if !HasStatus(t, id, PROCESSING) then Outcome(t, Err("payment is not PROCESSING"))
    else if |OpenKeysOf(t, id)| != 1 then Outcome(t, Err("key is not in progress"))
    else
      Outcome(
        t.(payments := t.payments[id := Transition(t.payments[id], FAILED, now, None, Some(reason))],
           keys := CompleteKeys(t.keys, OpenKeysOf(t, id), DeclinedResponse(reason), now),
           audit := t.audit + [AuditEntry(PAYMENT_FAILED(reason), actor, id, now)]),
        Ok(DeclinedResponse(reason)))
  }

  // ---- Phase 1 (pay-for-booking.ts) ----

  const PAYMENT_START_MARGIN_MS := MINUTE_MS

  datatype PayRequest = PayRequest(
    bookingId: Id, actor: Id, key: nat, fingerprint: string, token: string, amount: nat, paymentId: Id)

  datatype PayOutcome =
    | Answered(response: StoredResponse, replayed: bool)
    | KeyReused
    | KeyInProgress
    | AmountMismatch(total: nat)
    | PaymentInProgress
    | Started(payment: Payment)

  function Find(t: Tables, id: Id, scope: Scope): Option<Booking> {
    if id in t.bookings && InScope(t.bookings[id], scope) then Some(t.bookings[id]) else None
  }

  predicate CanStartPayment(booking: Booking, now: Instant) {
    && booking.status.HELD?
    && booking.holdExpiresAt.Some?
    && booking.holdExpiresAt.value > now + PAYMENT_START_MARGIN_MS
  }

  function NewPayment(r: PayRequest, amount: nat, now: Instant, reconcileAfterMs: int): Payment {
    Payment(r.bookingId, r.actor, amount, PROCESSING, None, None, Some(r.token), 0,
            Some(now + reconcileAfterMs), now, now)
  }

  predicate PaymentRunning(t: Tables, bookingId: Id) {
    exists q | q in t.payments :: t.payments[q].status.PROCESSING? && t.payments[q].bookingId == bookingId
  }

  function FreshKey(r: PayRequest, now: Instant): KeyRow {
    KeyRow(r.fingerprint, IN_PROGRESS, None, None, now, None)
  }

  /** `read` is what the unlocked read of the booking returned. */
  function StartPayment(
    t: Tables, read: Option<Booking>, r: PayRequest, now: Instant, reconcileAfterMs: int): Outcome<PayOutcome>
  {
    var k := KeyId(r.actor, r.key);
    if k in t.keys then
      var row := t.keys[k];
      if row.status.COMPLETED? && row.response.None? then Outcome(t, Err("completed key has no response"))
      else if row.fingerprint != r.fingerprint then Outcome(t, Ok(KeyReused))
      else if row.status.COMPLETED? then Outcome(t, Ok(Answered(row.response.value, true)))
      else Outcome(t, Ok(KeyInProgress))
    else if read.None? then
      Outcome(t.(keys := t.keys[k := Completed(FreshKey(r, now), NotFoundResponse(), now)]),
              Ok(Answered(NotFoundResponse(), false)))
    else if !CanStartPayment(read.value, now) then
      var response := NotPayable(if HoldIsValid(read.value, now) then UNDER_MARGIN_MESSAGE else NOT_HELD_MESSAGE);
      Outcome(t.(keys := t.keys[k := Completed(FreshKey(r, now), response, now)]), Ok(Answered(response, false)))
    else if r.amount != Total(read.value) then Outcome(t, Ok(AmountMismatch(Total(read.value))))
    else if PaymentRunning(t, r.bookingId) then Outcome(t, Ok(PaymentInProgress))
    else if r.paymentId in t.payments || r.bookingId !in t.bookings || r.amount == 0 then
      Outcome(t, Err("payments constraint"))
    else
      var payment := NewPayment(r, Total(read.value), now, reconcileAfterMs);
      Outcome(t.(payments := t.payments[r.paymentId := payment],
                 keys := t.keys[k := FreshKey(r, now).(paymentId := Some(r.paymentId))]),
              Ok(Started(payment)))
  }

  // ---- Reconciliation's transactions (claimDue, reschedule, recordRefund) ----

  predicate NeedsReconciling(status: PaymentStatus) { status.PROCESSING? || status.REFUND_PENDING? }

  function DuePayments(t: Tables, now: Instant, locked: set<Id>): set<(Instant, Id)> {
    set p | p in t.payments && p !in locked && NeedsReconciling(t.payments[p].status)
            && t.payments[p].nextAttemptAt.Some? && t.payments[p].nextAttemptAt.value <= now
         :: (t.payments[p].nextAttemptAt.value, p)
  }

  function FirstIds(due: seq<(Instant, Id)>, limit: nat): (r: seq<Id>)
    ensures |r| == Min(|due|, limit)
    ensures forall i | 0 <= i < |r| :: r[i] == due[i].1
  {
    seq(Min(|due|, limit), i requires 0 <= i < |due| => due[i].1)
  }

  /** The first ids by (time, id): members of the set, and every member left out comes after them. */
  lemma FirstIdsAreFirst(due: set<(Instant, Id)>, limit: nat)
    ensures
      var sorted := SortedDue(due);
      var ids := FirstIds(sorted, limit);
      && |ids| == Min(|due|, limit) <= |sorted|
      && (forall i | 0 <= i < |ids| :: sorted[i] in due && ids[i] == sorted[i].1)
      && (forall i, d | 0 <= i < |ids| && d in due && d.1 !in ids :: DueLess(sorted[i], d))
  {
    var sorted := SortedDue(due);
    var ids := FirstIds(sorted, limit);
    forall i, d | 0 <= i < |ids| && d in due && d.1 !in ids ensures DueLess(sorted[i], d) {
      var j :| 0 <= j < |sorted| && sorted[j] == d;
      assert forall m | 0 <= m < |ids| :: ids[m] == sorted[m].1;
    }
  }

  function ClaimedIds(t: Tables, now: Instant, limit: nat, locked: set<Id>): seq<Id> {
    FirstIds(SortedDue(DuePayments(t, now, locked)), limit)
  }

  function Leased(p: Payment, until: Instant): Payment {
    p.(nextAttemptAt := Some(until), attempts := p.attempts + 1)
  }

  function ClaimDue(t: Tables, now: Instant, leaseMs: int, limit: nat, locked: set<Id>): Tables {
    var ids := ClaimedIds(t, now, limit, locked);
    t.(payments := map p | p in t.payments :: if p in ids then Leased(t.payments[p], now + leaseMs) else t.payments[p])
  }

  function Reschedule(t: Tables, id: Id, status: PaymentStatus, at: Instant): Outcome<()> {
    if HasStatus(t, id, status) then
      Outcome(t.(payments := t.payments[id := t.payments[id].(nextAttemptAt := Some(at))]), Ok(()))
    else Outcome(t, Err("payment cannot be rescheduled"))
  }

  /** `failure` is None when the gateway refunded. */
  function RecordRefund(t: Tables, id: Id, failure: Option<string>, now: Instant): Outcome<()> {
    if !HasStatus(t, id, REFUND_PENDING) then Outcome(t, Err("payment is not REFUND_PENDING"))
    else
      var to := if failure.None? then REFUNDED else REFUND_FAILED;
      var action := if failure.None? then PAYMENT_REFUNDED else PAYMENT_REFUND_FAILED(failure.value);
      Outcome(t.(payments := t.payments[id := Transition(t.payments[id], to, now, None, failure)],
                 audit := t.audit + [AuditEntry(action, ReconciliationJob, id, now)]),
              Ok(()))
  }

  // ---- Cancel (cancel-booking.ts) ----

  predicate Cancellable(t: Tables, id: Id, scope: Scope, now: Instant) {
    && id in t.bookings && InScope(t.bookings[id], scope)
    && t.bookings[id].flightId in t.flights
    && CancelMatches(t.bookings[id], t.flights[t.bookings[id].flightId].departureAt, now)
  }

  function SucceededOf(t: Tables, bookingId: Id): (r: set<Id>)
    ensures r <= t.payments.Keys
  {
    set p | p in t.payments && t.payments[p].bookingId == bookingId && t.payments[p].status.SUCCEEDED?
  }

  function RefundDue(p: Payment, now: Instant): Payment {
    p.(status := REFUND_PENDING, updatedAt := now, nextAttemptAt := Some(now), attempts := 0)
  }

  /** markRefundPendingForCancelledBooking: the booking's SUCCEEDED payment becomes REFUND_PENDING, due now. */
  function RefundsDue(t: Tables, bookingId: Id, now: Instant): (r: map<Id, Payment>)
    ensures r.Keys == t.payments.Keys
  {
    var paid := SucceededOf(t, bookingId);
    map p | p in t.payments :: if p in paid then RefundDue(t.payments[p], now) else t.payments[p]
  }

  predicate IdLess(a: Id, b: Id) { a < b }

  lemma IdOrder()
    ensures StrictTotalOrder(IdLess)
  {
  }

  function RefundOf(t: Tables, bookingId: Id): Option<Refund> {
    var paid := SucceededOf(t, bookingId);
    IdOrder();
    if paid == {} then None
    else var p := Sorted(paid, IdLess)[0]; Some(Refund(p, t.payments[p].amount))
  }

  function CancelAudit(id: Id, refund: Option<Refund>, actor: Id, now: Instant): seq<AuditEntry> {
    [AuditEntry(BOOKING_CANCELLED(if refund.Some? then Some(refund.value.paymentId) else None), Account(actor), id, now)]
    + (if refund.Some? then [AuditEntry(PAYMENT_REFUND_PENDING, Account(actor), refund.value.paymentId, now)] else [])
  }

  function Cancel(t: Tables, id: Id, scope: Scope, actor: Id, now: Instant): Outcome<CancelOutcome> {
    if Cancellable(t, id, scope, now) then
      var booking := t.bookings[id];
      var codes := SeatCodes(t.seats, id);
      Outcome(
        t.(bookings := WithStatus(t.bookings, id, BookingStatus.CANCELLED),
           seats := Release(t.seats, SeatsOf(t.seats, {id})),
           payments := RefundsDue(t, id, now),
           audit := t.audit + CancelAudit(id, RefundOf(t, id), actor, now),
           outbox := t.outbox + [OutboxRow(BookingCancelled(id, codes, RefundOf(t, id)), now)]),
        Ok(Cancelled(booking.flightId, booking.reference, codes)))
    else if id !in t.bookings || !InScope(t.bookings[id], scope) || t.bookings[id].flightId !in t.flights then
      Outcome(t, Ok(NotFound))
    else
      var booking := t.bookings[id];
      Outcome(t, ClassifyNotCancelled(
        booking.status, booking.holdExpiresAt, t.flights[booking.flightId].departureAt, now))
  }

  // ---- Seat change (changeSeatInTransaction) ----

  datatype ChangeSeatOutcome =
    | Changed(from: SeatPosition, to: SeatPosition)
    | Unchanged
    | BookingNotFound
    | PassengerNotFound
    | NotChangeable
    | ChangeSalesClosed
    | UnknownSeat
    | FareClassMismatch(seatFareClass: FareClass, targetFareClass: FareClass)
    | SeatUnavailable

  /** The decision; `position` is 1-based. */
  function ChangeSeatVerdict(
    t: Tables, id: Id, position: nat, target: SeatPosition, scope: Scope, now: Instant): Result<ChangeSeatOutcome>
  {
    if id !in t.bookings || !InScope(t.bookings[id], scope) || t.bookings[id].flightId !in t.flights then Ok(BookingNotFound)
    else
      var booking := t.bookings[id];
      if !(1 <= position <= |booking.passengers|) then Ok(PassengerNotFound)
      else if !booking.status.CONFIRMED? then Ok(NotChangeable)
      else
        var current := booking.passengers[position - 1].seat;
        var own, wanted := SeatKey(booking.flightId, current), SeatKey(booking.flightId, target);
        if current == target then Ok(Unchanged)
        else if !IsBookable(t.flights[booking.flightId], now) then Ok(ChangeSalesClosed)
        else if own !in t.seats || t.seats[own].bookingId != Some(id) || !t.seats[own].status.BOOKED? then
          Err("seat is not BOOKED for the booking")
        else if wanted !in t.seats then Ok(UnknownSeat)
        else if t.seats[wanted].fareClass != t.seats[own].fareClass then
          Ok(FareClassMismatch(t.seats[own].fareClass, t.seats[wanted].fareClass))
        else if !t.seats[wanted].status.AVAILABLE? then Ok(SeatUnavailable)
        else Ok(Changed(current, target))
  }

  function Reseated(booking: Booking, position: nat, target: SeatPosition): Booking
    requires 1 <= position <= |booking.passengers|
  {
    booking.(passengers := booking.passengers[position - 1 := booking.passengers[position - 1].(seat := target)])
  }

  function ChangeSeat(
    t: Tables, id: Id, position: nat, target: SeatPosition, scope: Scope, actor: Id, now: Instant)
    : Outcome<ChangeSeatOutcome>
  {
    var verdict := ChangeSeatVerdict(t, id, position, target, scope, now);
    if verdict.Ok? && verdict.value.Changed? then
      var booking := t.bookings[id];
      var own, wanted := SeatKey(booking.flightId, verdict.value.from), SeatKey(booking.flightId, target);
      Outcome(
        t.(seats := t.seats[own := Released(t.seats[own])]
                           [wanted := t.seats[wanted].(status := SeatStatus.BOOKED, bookingId := Some(id))],
           bookings := t.bookings[id := Reseated(booking, position, target)],
           audit := t.audit
             + [AuditEntry(BOOKING_SEAT_CHANGED(position, verdict.value.from, target), Account(actor), id, now)]),
        verdict)
    else Outcome(t, verdict)
  }

  // ---- Expiry (expire-holds.ts, expireDueHolds) ----

  function DueHolds(t: Tables, now: Instant, locked: set<Id>): set<(Instant, Id)> {
    set b | b in t.bookings && b !in locked && HoldIsDue(t.bookings[b], now)
         :: (t.bookings[b].holdExpiresAt.value, b)
  }

  function ExpiredIds(t: Tables, now: Instant, limit: nat, locked: set<Id>): seq<Id> {
    FirstIds(SortedDue(DueHolds(t, now, locked)), limit)
  }

  /** One hold ends: its row, its seats, one audit entry, one event. */
  function ExpireOne(t: Tables, id: Id, now: Instant): Tables
    requires id in t.bookings
  {
    t.(bookings := WithStatus(t.bookings, id, BookingStatus.EXPIRED),
       seats := Release(t.seats, SeatsOf(t.seats, {id})),
       audit := t.audit + [AuditEntry(BOOKING_EXPIRED(SeatCodes(t.seats, id)), HoldExpiryJob, id, now)],
       outbox := t.outbox + [OutboxRow(BookingExpired(id, SeatCodes(t.seats, id)), now)])
  }

  /** The holds end one after the other. */
  function ExpireAll(t: Tables, ids: seq<Id>, now: Instant): (r: Tables)
    requires forall i | 0 <= i < |ids| :: ids[i] in t.bookings
    ensures r.bookings.Keys == t.bookings.Keys
    decreases |ids|
  {
    if ids == [] then t
    else
      var last := |ids| - 1;
      ExpireOne(ExpireAll(t, ids[..last], now), ids[last], now)
  }

  /** A batch names due holds, each once. */
  lemma DueHoldsExist(t: Tables, now: Instant, limit: nat, locked: set<Id>)
    ensures Distinct(ExpiredIds(t, now, limit, locked))
    ensures forall i | 0 <= i < |ExpiredIds(t, now, limit, locked)| ::
      var id := ExpiredIds(t, now, limit, locked)[i];
      id in t.bookings && HoldIsDue(t.bookings[id], now) && id !in locked
  {
    var due := SortedDue(DueHolds(t, now, locked));
    assert forall i | 0 <= i < |due| :: due[i] in DueHolds(t, now, locked);
    forall i, j | 0 <= i < j < |due| ensures due[i].1 != due[j].1 {
      assert DueLess(due[i], due[j]);
    }
  }

  function ExpireBatch(t: Tables, now: Instant, limit: nat, locked: set<Id>): Tables {
    DueHoldsExist(t, now, limit, locked);
    ExpireAll(t, ExpiredIds(t, now, limit, locked), now)
  }

  // ---- Key cleanup (cleanup-idempotency-keys.ts) ----

  const IDEMPOTENCY_KEY_RETENTION_MS := 24 * HOUR_MS

  function OldKeys(t: Tables, cutoff: Instant, locked: set<KeyId>): set<KeyId> {
    set k | k in t.keys && k !in locked && t.keys[k].status.COMPLETED? && t.keys[k].createdAt < cutoff
  }

  function DeleteKeys(t: Tables, picked: set<KeyId>): Tables {
    t.(keys := map k | k in t.keys && k !in picked :: t.keys[k])
  }
}

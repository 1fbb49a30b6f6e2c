/** booking-lifecycle.ts and flight-lifecycle.ts: statuses derived from the clock. */
module Lifecycle {
  import opened Basics
  import opened Schema

  const SALES_CLOSE_BEFORE_DEPARTURE_MS := HOUR_MS
  const CANCELLATION_WINDOW_MS := DAY_MS

  datatype FlightStatus = SCHEDULED | OPEN | CLOSED | DEPARTED | CANCELLED

  function EffectiveFlightStatus(flight: Flight, now: Instant): FlightStatus {
    if flight.status.CANCELLED? then FlightStatus.CANCELLED
    else if now >= flight.departureAt then DEPARTED
    else if flight.status.OPEN? && now >= flight.departureAt - SALES_CLOSE_BEFORE_DEPARTURE_MS then CLOSED
    else if flight.status.OPEN? then FlightStatus.OPEN
    else FlightStatus.SCHEDULED
  }

  /** The clock's part of a flight's status, at every instant. */
  lemma FlightStatusIff(flight: Flight, now: Instant)
    ensures
      var shown, off := EffectiveFlightStatus(flight, now), flight.status.CANCELLED?;
      && (shown.CANCELLED? <==> off)
      && (shown.DEPARTED? <==> !off && flight.departureAt <= now)
      && (shown.CLOSED? <==> flight.status.OPEN? && flight.departureAt - 3600000 <= now < flight.departureAt)
      && (shown.OPEN? <==> flight.status.OPEN? && now < flight.departureAt - 3600000)
      && (shown.SCHEDULED? <==> flight.status.SCHEDULED? && now < flight.departureAt)
  {
  }

  predicate IsBookable(flight: Flight, now: Instant) {
    EffectiveFlightStatus(flight, now) == FlightStatus.OPEN
  }

  /** The SQL condition every hold and search statement carries. */
  predicate OnSale(flight: Flight, now: Instant) {
    flight.status.OPEN? && flight.departureAt - HOUR_MS > now
  }

  predicate IsHoldLapsed(holdExpiresAt: Instant, now: Instant) {
    holdExpiresAt <= now
  }

  function EffectiveBookingStatus(status: BookingStatus, holdExpiresAt: Option<Instant>, now: Instant): BookingStatus {
    if status.HELD? && holdExpiresAt.Some? && IsHoldLapsed(holdExpiresAt.value, now) then BookingStatus.EXPIRED
    else status
  }

  function CancellableUntil(departureAt: Instant): Instant { departureAt - CANCELLATION_WINDOW_MS }

  predicate IsCancellationWindowOpen(departureAt: Instant, now: Instant) {
    CancellableUntil(departureAt) > now
  }

  datatype CancelOutcome =
    | Cancelled(flightId: Id, reference: nat, seats: seq<SeatPosition>)
    | AlreadyCancelled
    | Expired
    | WindowClosed(cancellableUntil: Instant)
    | NotFound

  /** Why a cancel matched no row; `Err` is the source's throw. */
  function ClassifyNotCancelled(
    status: BookingStatus, holdExpiresAt: Option<Instant>, departureAt: Instant, now: Instant): Result<CancelOutcome>
  {
    var effective := EffectiveBookingStatus(status, holdExpiresAt, now);
    if effective.CANCELLED? then Ok(AlreadyCancelled)
    else if effective.EXPIRED? then Ok(Expired)
    else if effective.CONFIRMED? && !IsCancellationWindowOpen(departureAt, now) then
      Ok(WindowClosed(CancellableUntil(departureAt)))
    else Err("cancel matched no row")
  }

  /** The WHERE of the hold's confirmation and of a hold's cancel: the still-valid side of BR-BOOK-10. */
  predicate HoldIsValid(booking: Booking, now: Instant) {
    booking.status.HELD? && booking.holdExpiresAt.Some? && booking.holdExpiresAt.value > now
  }

  /** The WHERE of the expiry sweep: the lapsed side. */
  predicate HoldIsDue(booking: Booking, now: Instant) {
    booking.status.HELD? && booking.holdExpiresAt.Some? && booking.holdExpiresAt.value <= now
  }

  /** The WHERE of the cancel statement. */
  predicate CancelMatches(booking: Booking, departureAt: Instant, now: Instant) {
    || (booking.status.CONFIRMED? && departureAt - 24 * HOUR_MS > now)
    || HoldIsValid(booking, now)
  }

  /** A booking still owns its seats. */
  predicate IsLive(status: BookingStatus) { status.HELD? || status.CONFIRMED? }
}

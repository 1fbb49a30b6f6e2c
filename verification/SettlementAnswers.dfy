/** What phase 3 leaves, table by table, in each of its three endings. */
module SettlementAnswers {
  import opened Basics
  import opened Schema
  import opened Lifecycle
  import opened Transactions
  import opened Invariants
  import opened PaymentSteps
  import opened PayAnswers
  import opened CancelAnswers

  /** Exactly the passengers' seats become BOOKED; a seat keeps its class. */
  predicate BookedOnly(seats: map<SeatKey, Seat>, seats': map<SeatKey, Seat>, id: Id, b: Booking) {
    && seats'.Keys == seats.Keys
    && forall k | k in seats ::
         seats'[k] == if IsSeatOf(b, k) then Seat(seats[k].fareClass, BOOKED, Some(id)) else seats[k]
  }

  /** Exactly the key of payment `id` gets the answer. */
  ghost predicate AnsweredOnly(
    keys: map<KeyId, KeyRow>, keys': map<KeyId, KeyRow>, id: Id, response: StoredResponse, now: Instant)
  {
    exists k :: k in keys && keys[k].paymentId == Some(id) && keys[k].status.IN_PROGRESS?
      && keys' == keys[k := keys[k].(status := COMPLETED, response := Some(response), completedAt := Some(now))]
  }

  lemma OneKeyIsAnswered(t: Tables, id: Id, response: StoredResponse, now: Instant)
    requires Inv(t) && HasStatus(t, id, PROCESSING)
    ensures AnsweredOnly(t.keys, CompleteKeys(t.keys, OpenKeysOf(t, id), response, now), id, response, now)
  {
    hide Inventory, Money, Events, References, OpenKeysOf;
    KeyIsOpen(t, id);
    assert exists k :: StartedBy(t.keys, id, k);
    var k :| StartedBy(t.keys, id, k);
    KeyIsInProgress(t, id, k);
    var keys' := CompleteKeys(t.keys, OpenKeysOf(t, id), response, now);
    assert keys' == t.keys[k := t.keys[k].(status := COMPLETED, response := Some(response), completedAt := Some(now))];
  }

  lemma KeyIsInProgress(t: Tables, id: Id, k: KeyId)
    requires OpenKeysOf(t, id) == {k}
    ensures k in t.keys && t.keys[k].status.IN_PROGRESS?
  {
    assert k in OpenKeysOf(t, id);
  }

  lemma BookingItsSeats(t: Tables, id: Id)
    requires Inv(t) && id in t.bookings && IsLive(t.bookings[id].status)
    ensures BookedOnly(t.seats, Book(t.seats, SeatsOf(t.seats, {id})), id, t.bookings[id])
  {
    hide Inv, SeatsOf, IsSeatOf;
    forall k | k in t.seats
      ensures k in SeatsOf(t.seats, {id}) <==> IsSeatOf(t.bookings[id], k)
      ensures k in SeatsOf(t.seats, {id}) ==> t.seats[k].bookingId == Some(id)
    {
      SeatsOfAreItsPassengers(t, id, k);
      if k in SeatsOf(t.seats, {id}) { OwnedIsOwned(t.seats, id, k); }
    }
  }

  lemma OwnedIsOwned(seats: map<SeatKey, Seat>, id: Id, k: SeatKey)
    requires k in SeatsOf(seats, {id})
    ensures k in seats && seats[k].bookingId == Some(id)
  {
  }

  /** The row of a payment that has left PROCESSING. */
  function Over(p: Payment, status: PaymentStatus, now: Instant): Payment {
    p.(status := status, updatedAt := now, token := None, nextAttemptAt := None, attempts := 0)
  }

  /**
   * A charge recorded while the payer's hold was valid: that booking becomes
   * CONFIRMED and its seats BOOKED, that payment SUCCEEDED under the
   * provider's reference, its key gets the 201, one audit entry and one event
   * name booking, passengers, payment and amount; nothing else changes.
   */
  lemma ConfirmationLeaves(t: Tables, id: Id, p: Payment, reference: string, actor: Actor, now: Instant)
    requires Inv(t) && CopyOf(t, id, p) && HasStatus(t, id, PROCESSING)
    requires PayersHold(t, t.payments[id].bookingId, t.payments[id].accountId, now)
    ensures
      var o, q, b := Charged(t, id, p, reference, actor, now), t.payments[id], t.payments[id].bookingId;
      var booking := t.bookings[b];
      && o.result.Ok?
      && o.db.bookings == t.bookings[b := booking.(status := CONFIRMED)]
      && BookedOnly(t.seats, o.db.seats, b, booking)
      && o.db.payments == t.payments[id := Over(q, SUCCEEDED, now).(providerReference := Some(reference))]
      && AnsweredOnly(t.keys, o.db.keys, id, o.result.value, now)
      && o.db.audit == t.audit + [AuditEntry(BOOKING_CONFIRMED(id, q.amount), actor, b, now)]
      && o.db.outbox == t.outbox
           + [OutboxRow(BookingConfirmed(b, booking.passengers, Total(booking), id, q.amount), now)]
      && o.db.flights == t.flights && o.db.fares == t.fares
  {
    hide Inv, Book, SeatsOf, CompleteKeys, OpenKeysOf, SumPrices, PaidAlready, BookedOnly, AnsweredOnly, ConfirmedResponse;
    ChargedKeepsInv(t, id, p, reference, actor, now);
    BookingItsSeats(t, p.bookingId);
    var o := Charged(t, id, p, reference, actor, now);
    OneKeyIsAnswered(t, id, o.result.value, now);
  }

  /** Otherwise the money has to go back: the payment is due for its refund at once, and no booking, seat or event moves. */
  lemma RefundLeaves(t: Tables, id: Id, p: Payment, reference: string, actor: Actor, now: Instant)
    requires Inv(t) && CopyOf(t, id, p) && HasStatus(t, id, PROCESSING)
    requires !PayersHold(t, t.payments[id].bookingId, t.payments[id].accountId, now)
    ensures
      var o, q := Charged(t, id, p, reference, actor, now), t.payments[id];
      && o.result.Ok? && AnsweredOnly(t.keys, o.db.keys, id, o.result.value, now)
      && o.db == t.(
           payments := t.payments[id :=
             Over(q, REFUND_PENDING, now).(providerReference := Some(reference), nextAttemptAt := Some(now))],
           keys := o.db.keys,
           audit := t.audit + [AuditEntry(PAYMENT_REFUND_PENDING, actor, id, now)])
  {
    hide Inv, Book, SeatsOf, CompleteKeys, OpenKeysOf, Total, PaidAlready, AnsweredOnly, ConfirmedResponse, NotPayable;
    ChargedKeepsInv(t, id, p, reference, actor, now);
    var o := Charged(t, id, p, reference, actor, now);
    OneKeyIsAnswered(t, id, o.result.value, now);
  }

  /** A decline: the payment is FAILED for its reason, its key gets the 402, and nothing else moves. */
  lemma DeclineLeaves(t: Tables, id: Id, reason: string, actor: Actor, now: Instant)
    requires Inv(t) && HasStatus(t, id, PROCESSING)
    ensures
      var o, q := Declined(t, id, reason, actor, now), t.payments[id];
      && o.result.Ok? && AnsweredOnly(t.keys, o.db.keys, id, o.result.value, now)
      && o.db == t.(
           payments := t.payments[id := Over(q, FAILED, now).(failureReason := Some(reason))],
           keys := o.db.keys,
           audit := t.audit + [AuditEntry(PAYMENT_FAILED(reason), actor, id, now)])
  {
    hide Inv, CompleteKeys, OpenKeysOf, AnsweredOnly, DeclinedResponse;
    DeclinedKeepsInv(t, id, reason, actor, now);
    OneKeyIsAnswered(t, id, Declined(t, id, reason, actor, now).result.value, now);
  }
}

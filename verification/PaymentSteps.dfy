/** Phase 1, phase 3 and key cleanup keep the invariant. */
module PaymentSteps {
  import opened Basics
  import opened Schema
  import opened Lifecycle
  import opened Transactions
  import opened Invariants
  import opened Preservation

  // ---- Phase 3 ----

  /** A PROCESSING payment has exactly one key, in progress: completeForPayment always finds it. */
  lemma KeyIsOpen(t: Tables, id: Id)
    requires Keys(t.payments, t.keys, t.outbox) && HasStatus(t, id, PROCESSING)
    ensures |OpenKeysOf(t, id)| == 1
    ensures forall k | k in t.keys && t.keys[k].paymentId == Some(id) :: OpenKeysOf(t, id) == {k}
  {
    var k :| StartedBy(t.keys, id, k);
    assert KeyOk(t.payments, t.outbox, t.keys[k]);
    forall l | l in t.keys && t.keys[l].paymentId == Some(id) ensures l == k {
      assert t.keys[l].paymentId == t.keys[k].paymentId;
    }
    assert OpenKeysOf(t, id) == {k};
  }

  lemma SettleKeepsKeys(t: Tables, id: Id, q: Payment, outbox': seq<OutboxRow>, response: StoredResponse, now: Instant)
    requires Keys(t.payments, t.keys, t.outbox) && HasStatus(t, id, PROCESSING)
    requires !q.status.PROCESSING?
    requires forall p: Id | p != id :: Count(outbox', PAID_EVENT, p) == Count(t.outbox, PAID_EVENT, p)
    requires ResponseAgrees(t.payments[id := q], outbox', response, id)
    ensures Keys(t.payments[id := q], CompleteKeys(t.keys, OpenKeysOf(t, id), response, now), outbox')
  {
    KeyIsOpen(t, id);
    var payments' := t.payments[id := q];
    var keys' := CompleteKeys(t.keys, OpenKeysOf(t, id), response, now);
    forall k | k in keys' ensures KeyOk(payments', outbox', keys'[k]) {
      assert KeyOk(t.payments, t.outbox, t.keys[k]);
    }
    forall p | p in payments' && payments'[p].status.PROCESSING? ensures exists k :: StartedBy(keys', p, k) {
      var k :| StartedBy(t.keys, p, k);
      assert StartedBy(keys', p, k);
    }
  }

  lemma ConfirmBooksItsSeats(seats: map<SeatKey, Seat>, bookings: map<Id, Booking>, b: Id)
    requires Inventory(seats, bookings) && b in bookings && bookings[b].status.HELD?
    ensures
      var seats' := Book(seats, SeatsOf(seats, {b}));
      forall k | k in seats' :: SeatOk(WithStatus(bookings, b, CONFIRMED), k, seats'[k])
  {
    hide WellFormed, OwnsItsSeats;
    var bookings' := WithStatus(bookings, b, CONFIRMED);
    assert BookingKeys(bookings'[b]) == BookingKeys(bookings[b]);
    var seats' := Book(seats, SeatsOf(seats, {b}));
    forall k | k in seats' ensures SeatOk(bookings', k, seats'[k]) {
      assert SeatOk(bookings, k, seats[k]);
    }
  }

  lemma ConfirmKeepsInventory(seats: map<SeatKey, Seat>, bookings: map<Id, Booking>, b: Id)
    requires Inventory(seats, bookings) && b in bookings && bookings[b].status.HELD?
    ensures Inventory(Book(seats, SeatsOf(seats, {b})), WithStatus(bookings, b, CONFIRMED))
  {
    hide SeatOk, SeatsOf;
    var bookings' := WithStatus(bookings, b, CONFIRMED);
    var seats' := Book(seats, SeatsOf(seats, {b}));
    ConfirmBooksItsSeats(seats, bookings, b);
    assert BookingKeys(bookings'[b]) == BookingKeys(bookings[b]);
    assert Total(bookings'[b]) == Total(bookings[b]);
    forall c | c in bookings' && IsLive(bookings'[c].status) ensures OwnsItsSeats(seats', c, bookings'[c]) {
      assert OwnsItsSeats(seats, c, bookings[c]);
    }
  }

  /** A HELD booking has no SUCCEEDED payment: UQ_payments_booking_succeeded is never hit. */
  lemma HeldIsUnpaid(bookings: map<Id, Booking>, payments: map<Id, Payment>, b: Id)
    requires Money(bookings, payments) && b in bookings && bookings[b].status.HELD?
    ensures forall p | p in payments && payments[p].bookingId == b :: !payments[p].status.SUCCEEDED?
  {
  }

  lemma ConfirmKeepsMoney(bookings: map<Id, Booking>, payments: map<Id, Payment>, id: Id, reference: string, now: Instant)
    requires Money(bookings, payments) && id in payments && payments[id].status.PROCESSING?
    requires payments[id].bookingId in bookings && bookings[payments[id].bookingId].status.HELD?
    ensures Money(
      WithStatus(bookings, payments[id].bookingId, CONFIRMED),
      payments[id := Transition(payments[id], SUCCEEDED, now, Some(reference), None)])
  {
    var b := payments[id].bookingId;
    var bookings' := WithStatus(bookings, b, CONFIRMED);
    var payments' := payments[id := Transition(payments[id], SUCCEEDED, now, Some(reference), None)];
    assert Total(bookings'[b]) == Total(bookings[b]);
    HeldIsUnpaid(bookings, payments, b);
    forall p | p in payments' ensures PaymentOk(bookings', payments'[p]) {
      assert PaymentOk(bookings, payments[p]);
    }
    forall p, q | p in payments' && q in payments' && p != q ensures Compatible(payments'[p], payments'[q]) {
      assert Compatible(payments[p], payments[q]);
    }
    forall c | c in bookings' && bookings'[c].status.CONFIRMED? ensures exists p :: PaidBy(payments', c, p) {
      if c == b {
        assert PaidBy(payments', b, id);
      } else {
        var p :| PaidBy(payments, c, p);
        assert PaidBy(payments', c, p);
      }
    }
  }

  /** Replacing a PROCESSING row by one with the same booking and amount leaves old events true. */
  lemma SettledRowKeepsEvent(payments: map<Id, Payment>, id: Id, q: Payment, e: Event)
    requires EventOk(payments, e)
    requires id in payments ==> q.bookingId == payments[id].bookingId && q.amount == payments[id].amount
    ensures EventOk(payments[id := q], e)
  {
  }

  lemma ConfirmKeepsEvents(
    bookings: map<Id, Booking>, payments: map<Id, Payment>, outbox: seq<OutboxRow>, id: Id, q: Payment, row: OutboxRow)
    requires Events(bookings, payments, outbox) && id in payments && payments[id].status.PROCESSING?
    requires q.bookingId == payments[id].bookingId && q.amount == payments[id].amount && q.status.SUCCEEDED?
    requires q.bookingId in bookings && bookings[q.bookingId].status.HELD?
    requires row.event.BookingConfirmed? && row.event.bookingId == q.bookingId && row.event.paymentId == id
    requires EventOk(payments, row.event)
    ensures Events(WithStatus(bookings, q.bookingId, CONFIRMED), payments[id := q], outbox + [row])
  {
    CountAppend(outbox, row);
    var bookings', payments', outbox' := WithStatus(bookings, q.bookingId, CONFIRMED), payments[id := q], outbox + [row];
    forall c: Id ensures BookingEvents(bookings', outbox', c) {
      assert BookingEvents(bookings, outbox, c);
    }
    forall p: Id ensures PaymentEvents(payments', outbox', p) {
      assert PaymentEvents(payments, outbox, p);
    }
    forall i | 0 <= i < |outbox'| ensures EventOk(payments', outbox'[i].event) {
      SettledRowKeepsEvent(payments, id, q, outbox'[i].event);
    }
  }

  /** FAILED and REFUND_PENDING come without an event. */
  lemma SilentSettleKeepsEvents(
    bookings: map<Id, Booking>, payments: map<Id, Payment>, outbox: seq<OutboxRow>, id: Id, q: Payment)
    requires Events(bookings, payments, outbox) && id in payments && payments[id].status.PROCESSING?
    requires q.bookingId == payments[id].bookingId && q.amount == payments[id].amount && !q.status.SUCCEEDED?
    ensures Events(bookings, payments[id := q], outbox)
  {
    var payments' := payments[id := q];
    forall p: Id ensures PaymentEvents(payments', outbox, p) {
      assert PaymentEvents(payments, outbox, p);
    }
    forall i | 0 <= i < |outbox| ensures EventOk(payments', outbox[i].event) {
      SettledRowKeepsEvent(payments, id, q, outbox[i].event);
    }
  }

  lemma SilentSettleKeepsMoney(bookings: map<Id, Booking>, payments: map<Id, Payment>, id: Id, q: Payment)
    requires Money(bookings, payments) && id in payments && payments[id].status.PROCESSING?
    requires PaymentOk(bookings, q) && q.bookingId == payments[id].bookingId
    requires !q.status.SUCCEEDED? && !q.status.PROCESSING?
    ensures Money(bookings, payments[id := q])
  {
    var payments' := payments[id := q];
    forall p, r | p in payments' && r in payments' && p != r ensures Compatible(payments'[p], payments'[r]) {
      assert Compatible(payments[p], payments[r]);
    }
    forall b | b in bookings && bookings[b].status.CONFIRMED? ensures exists p :: PaidBy(payments', b, p) {
      var p :| PaidBy(payments, b, p);
      assert PaidBy(payments', b, p);
    }
  }

  /** The caller's copy of a payment agrees with the row on what never changes. */
  predicate CopyOf(t: Tables, id: Id, p: Payment) {
    id in t.payments ==>
      && t.payments[id].bookingId == p.bookingId
      && t.payments[id].accountId == p.accountId
      && t.payments[id].amount == p.amount
      && t.payments[id].createdAt == p.createdAt
  }

  lemma NoPaidEventWhileProcessing(t: Tables, id: Id)
    requires Events(t.bookings, t.payments, t.outbox) && HasStatus(t, id, PROCESSING)
    ensures Count(t.outbox, PAID_EVENT, id) == 0
  {
    assert PaymentEvents(t.payments, t.outbox, id);
  }

  lemma ChargedConfirmsKeepsInv(t: Tables, id: Id, p: Payment, reference: string, actor: Actor, now: Instant)
    requires Inv(t) && CopyOf(t, id, p) && HasStatus(t, id, PROCESSING)
    requires Confirmable(t, p.bookingId, Owner(p.accountId), now)
    ensures Charged(t, id, p, reference, actor, now).result.Ok?
    ensures Inv(Charged(t, id, p, reference, actor, now).db)
  {
    hide Inventory, Money, Events, Keys, SeatsOf, Book, OpenKeysOf, CompleteKeys;
    var t' := Charged(t, id, p, reference, actor, now).db;
    KeyIsOpen(t, id);
    HeldIsUnpaid(t.bookings, t.payments, p.bookingId);
    PaymentRows(t.bookings, t.payments);
    NoPaidEventWhileProcessing(t, id);
    var booking := t.bookings[p.bookingId].(status := CONFIRMED);
    var q := Transition(t.payments[id], SUCCEEDED, now, Some(reference), None);
    var row := OutboxRow(BookingConfirmed(p.bookingId, booking.passengers, Total(booking), id, p.amount), now);
    assert PaymentOk(t.bookings, t.payments[id]);
    CountAppend(t.outbox, row);
    ConfirmKeepsInventory(t.seats, t.bookings, p.bookingId);
    ConfirmKeepsMoney(t.bookings, t.payments, id, reference, now);
    HeldBookingSize(t, p.bookingId);
    ConfirmKeepsEvents(t.bookings, t.payments, t.outbox, id, q, row);
    SettleKeepsKeys(t, id, q, t.outbox + [row], ConfirmedResponse(id, p, reference, booking), now);
  }

  lemma HeldBookingSize(t: Tables, b: Id)
    requires Inventory(t.seats, t.bookings) && b in t.bookings
    ensures WellFormed(t.bookings[b])
  {
  }

  lemma ChargedRefundsKeepsInv(t: Tables, id: Id, p: Payment, reference: string, actor: Actor, now: Instant)
    requires Inv(t) && CopyOf(t, id, p) && HasStatus(t, id, PROCESSING)
    requires !Confirmable(t, p.bookingId, Owner(p.accountId), now)
    ensures Charged(t, id, p, reference, actor, now).result.Ok?
    ensures Inv(Charged(t, id, p, reference, actor, now).db)
  {
    hide Inventory, Money, Events, Keys, OpenKeysOf, CompleteKeys;
    KeyIsOpen(t, id);
    PaymentRows(t.bookings, t.payments);
    NoPaidEventWhileProcessing(t, id);
    var q := Transition(t.payments[id], REFUND_PENDING, now, Some(reference), None);
    assert PaymentOk(t.bookings, t.payments[id]);
    SilentSettleKeepsMoney(t.bookings, t.payments, id, q);
    SilentSettleKeepsEvents(t.bookings, t.payments, t.outbox, id, q);
    SettleKeepsKeys(t, id, q, t.outbox, NotPayable(REFUNDED_MESSAGE), now);
  }

  lemma ChargedKeepsInv(t: Tables, id: Id, p: Payment, reference: string, actor: Actor, now: Instant)
    requires Inv(t) && CopyOf(t, id, p)
    ensures Inv(Charged(t, id, p, reference, actor, now).db)
    ensures Charged(t, id, p, reference, actor, now).result.Ok? <==> HasStatus(t, id, PROCESSING)
  {
    hide Inv;
    if HasStatus(t, id, PROCESSING) {
      if Confirmable(t, p.bookingId, Owner(p.accountId), now) {
        ChargedConfirmsKeepsInv(t, id, p, reference, actor, now);
      } else {
        ChargedRefundsKeepsInv(t, id, p, reference, actor, now);
      }
    }
  }

  lemma DeclinedKeepsInv(t: Tables, id: Id, reason: string, actor: Actor, now: Instant)
    requires Inv(t)
    ensures Inv(Declined(t, id, reason, actor, now).db)
    ensures Declined(t, id, reason, actor, now).result.Ok? <==> HasStatus(t, id, PROCESSING)
  {
    hide Inventory, Money, Events, Keys, OpenKeysOf, CompleteKeys;
    if HasStatus(t, id, PROCESSING) {
      KeyIsOpen(t, id);
      PaymentRows(t.bookings, t.payments);
      NoPaidEventWhileProcessing(t, id);
      var q := Transition(t.payments[id], FAILED, now, None, Some(reason));
      assert PaymentOk(t.bookings, t.payments[id]);
      SilentSettleKeepsMoney(t.bookings, t.payments, id, q);
      SilentSettleKeepsEvents(t.bookings, t.payments, t.outbox, id, q);
      SettleKeepsKeys(t, id, q, t.outbox, DeclinedResponse(reason), now);
    }
  }

  // ---- Phase 1 ----

  /** The read is of the booking as it was at some moment: its status and its passengers' seats may have changed since. */
  predicate EarlierRead(t: Tables, read: Option<Booking>, bookingId: Id) {
    read.Some? ==>
      && bookingId in t.bookings
      && Total(read.value) == Total(t.bookings[bookingId])
      && read.value == t.bookings[bookingId].(status := read.value.status, passengers := read.value.passengers)
  }

  lemma AnsweredKeyKeepsKeys(t: Tables, k: KeyId, row: KeyRow)
    requires Keys(t.payments, t.keys, t.outbox) && k !in t.keys
    requires row.status.COMPLETED? && row.response.Some? && row.completedAt.Some? && row.paymentId.None?
    ensures Keys(t.payments, t.keys[k := row], t.outbox)
  {
    var keys' := t.keys[k := row];
    forall p | p in t.payments && t.payments[p].status.PROCESSING? ensures exists l :: StartedBy(keys', p, l) {
      var l :| StartedBy(t.keys, p, l);
      assert StartedBy(keys', p, l);
    }
  }

  lemma StartKeepsKeys(t: Tables, k: KeyId, row: KeyRow, id: Id, p: Payment)
    requires Keys(t.payments, t.keys, t.outbox) && k !in t.keys && id !in t.payments
    requires p.status.PROCESSING?
    requires row.status.IN_PROGRESS? && row.response.None? && row.completedAt.None? && row.paymentId == Some(id)
    ensures Keys(t.payments[id := p], t.keys[k := row], t.outbox)
  {
    var payments', keys' := t.payments[id := p], t.keys[k := row];
    forall l | l in keys' ensures KeyOk(payments', t.outbox, keys'[l]) {
      if l != k { assert KeyOk(t.payments, t.outbox, t.keys[l]); }
    }
    forall l, m | l in keys' && m in keys' && l != m
      ensures keys'[l].paymentId.None? || keys'[l].paymentId != keys'[m].paymentId
    {
      if l in t.keys { assert KeyOk(t.payments, t.outbox, t.keys[l]); }
      if m in t.keys { assert KeyOk(t.payments, t.outbox, t.keys[m]); }
    }
    forall q | q in payments' && payments'[q].status.PROCESSING? ensures exists l :: StartedBy(keys', q, l) {
      if q == id {
        assert StartedBy(keys', id, k);
      } else {
        var l :| StartedBy(t.keys, q, l);
        assert StartedBy(keys', q, l);
      }
    }
  }

  lemma StartKeepsMoney(bookings: map<Id, Booking>, payments: map<Id, Payment>, id: Id, p: Payment)
    requires Money(bookings, payments) && id !in payments
    requires PaymentOk(bookings, p) && p.status.PROCESSING?
    requires forall q | q in payments :: !(payments[q].status.PROCESSING? && payments[q].bookingId == p.bookingId)
    ensures Money(bookings, payments[id := p])
  {
    var payments' := payments[id := p];
    forall q, r | q in payments' && r in payments' && q != r ensures Compatible(payments'[q], payments'[r]) {
      if q != id && r != id { assert Compatible(payments[q], payments[r]); }
    }
    forall b | b in bookings && bookings[b].status.CONFIRMED? ensures exists q :: PaidBy(payments', b, q) {
      var q :| PaidBy(payments, b, q);
      assert PaidBy(payments', b, q);
    }
  }

  lemma StartKeepsEvents(bookings: map<Id, Booking>, payments: map<Id, Payment>, outbox: seq<OutboxRow>, id: Id, p: Payment)
    requires Events(bookings, payments, outbox) && id !in payments && p.status.PROCESSING?
    ensures Events(bookings, payments[id := p], outbox)
  {
    var payments' := payments[id := p];
    forall q: Id ensures PaymentEvents(payments', outbox, q) {
      assert PaymentEvents(payments, outbox, q);
    }
    forall i | 0 <= i < |outbox| ensures EventOk(payments', outbox[i].event) {
      SettledRowKeepsEvent(payments, id, p, outbox[i].event);
    }
  }

  lemma StartKeepsInv(t: Tables, read: Option<Booking>, r: PayRequest, now: Instant, reconcileAfterMs: int)
    requires Inv(t) && EarlierRead(t, read, r.bookingId)
    ensures Inv(StartPayment(t, read, r, now, reconcileAfterMs).db)
  {
    hide Inventory, Money, Events, Keys, Total, CanStartPayment, HoldIsValid;
    var o := StartPayment(t, read, r, now, reconcileAfterMs);
    var k := KeyId(r.actor, r.key);
    if o.result.Ok? && o.result.value.Started? {
      var p := o.result.value.payment;
      StartKeepsKeys(t, k, o.db.keys[k], r.paymentId, p);
      StartKeepsMoney(t.bookings, t.payments, r.paymentId, p);
      StartKeepsEvents(t.bookings, t.payments, t.outbox, r.paymentId, p);
    } else if o.db != t {
      AnsweredKeyKeepsKeys(t, k, o.db.keys[k]);
    }
  }

  // ---- Key cleanup ----

  lemma DeleteKeepsInv(t: Tables, picked: set<KeyId>)
    requires Inv(t)
    requires forall k | k in picked :: k in t.keys && t.keys[k].status.COMPLETED?
    ensures Inv(DeleteKeys(t, picked))
  {
    hide Inventory, Money, Events;
    var t' := DeleteKeys(t, picked);
    forall p | p in t.payments && t.payments[p].status.PROCESSING? ensures exists k :: StartedBy(t'.keys, p, k) {
      var k :| StartedBy(t.keys, p, k);
      assert KeyOk(t.payments, t.outbox, t.keys[k]);
      assert StartedBy(t'.keys, p, k);
    }
  }
}

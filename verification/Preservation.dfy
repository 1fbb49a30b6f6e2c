/** Every transaction keeps the invariant, whatever its clock reads. */
module Preservation {
  import opened Basics
  import opened Counting
  import opened Schema
  import opened Lifecycle
  import opened Transactions
  import opened Invariants

  // ---- Expiry and cancel release seats ----

  /** Ending a live booking and releasing its seats keeps the inventory. */
  lemma EndKeepsInventory(seats: map<SeatKey, Seat>, bookings: map<Id, Booking>, b: Id, status: BookingStatus)
    requires Inventory(seats, bookings) && b in bookings && !IsLive(status)
    ensures Inventory(Release(seats, SeatsOf(seats, {b})), WithStatus(bookings, b, status))
  {
    var bookings' := WithStatus(bookings, b, status);
    var seats' := Release(seats, SeatsOf(seats, {b}));
    assert BookingKeys(bookings'[b]) == BookingKeys(bookings[b]);
    forall k | k in seats' ensures SeatOk(bookings', k, seats'[k]) {
      assert SeatOk(bookings, k, seats[k]);
    }
    forall c | c in bookings' ensures WellFormed(bookings'[c]) {
      assert WellFormed(bookings[c]);
      assert Total(bookings'[c]) == Total(bookings[c]);
    }
    forall c | c in bookings' && IsLive(bookings'[c].status) ensures OwnsItsSeats(seats', c, bookings'[c]) {
      assert c != b && OwnsItsSeats(seats, c, bookings[c]);
    }
  }

  // ---- Frames ----

  /** Appending anything but a confirmation leaves the keys' agreement alone. */
  lemma KeysFrame(payments: map<Id, Payment>, keys: map<KeyId, KeyRow>, outbox: seq<OutboxRow>, row: OutboxRow)
    requires Keys(payments, keys, outbox) && !row.event.BookingConfirmed?
    ensures Keys(payments, keys, outbox + [row])
  {
  }

  /** Bookings may end unpaid or appear HELD without touching a payment. */
  lemma MoneyFrame(bookings: map<Id, Booking>, bookings': map<Id, Booking>, payments: map<Id, Payment>)
    requires Money(bookings, payments)
    requires forall b | b in bookings ::
      b in bookings' && Total(bookings'[b]) == Total(bookings[b])
      && (bookings'[b].status.CONFIRMED? <==> bookings[b].status.CONFIRMED?)
    requires forall b | b in bookings' && b !in bookings :: !bookings'[b].status.CONFIRMED?
    ensures Money(bookings', payments)
  {
  }

  /** A live booking ends and says so once. */
  lemma EndEventKept(
    bookings: map<Id, Booking>, payments: map<Id, Payment>, outbox: seq<OutboxRow>, b: Id,
    status: BookingStatus, row: OutboxRow)
    requires Events(bookings, payments, outbox)
    requires b in bookings && EventOk(payments, row.event)
    requires (status.EXPIRED? && row.event.BookingExpired? && bookings[b].status.HELD?)
          || (status.CANCELLED? && row.event.BookingCancelled? && IsLive(bookings[b].status))
    requires row.event.bookingId == b
    ensures Events(WithStatus(bookings, b, status), payments, outbox + [row])
  {
    CountAppend(outbox, row);
    forall c: Id ensures BookingEvents(WithStatus(bookings, b, status), outbox + [row], c) {
      assert BookingEvents(bookings, outbox, c);
    }
    forall p: Id ensures PaymentEvents(payments, outbox + [row], p) {
      assert PaymentEvents(payments, outbox, p);
    }
  }

  /** How a payment row may move without its key or its booking's confirmation noticing. */
  predicate Evolves(p: Payment, q: Payment) {
    && q.bookingId == p.bookingId && q.amount == p.amount
    && (q.status.PROCESSING? <==> p.status.PROCESSING?)
    && (q.status.FAILED? <==> p.status.FAILED?)
    && (q.status.SUCCEEDED? ==> p.status.SUCCEEDED?)
    && (q.token.Some? <==> q.status.PROCESSING?)
    && (q.nextAttemptAt.Some? <==> NeedsReconciling(q.status))
    && (q.providerReference.Some? <==> p.providerReference.Some?)
    && (q.failureReason == p.failureReason || q.failureReason.Some?)
  }

  ghost predicate AllEvolve(payments: map<Id, Payment>, payments': map<Id, Payment>) {
    payments'.Keys == payments.Keys && forall p | p in payments :: Evolves(payments[p], payments'[p])
  }

  lemma EvolvingKeepsEvents(
    bookings: map<Id, Booking>, payments: map<Id, Payment>, payments': map<Id, Payment>, outbox: seq<OutboxRow>)
    requires Events(bookings, payments, outbox) && AllEvolve(payments, payments')
    ensures Events(bookings, payments', outbox)
  {
    forall p: Id ensures PaymentEvents(payments', outbox, p) {
      assert PaymentEvents(payments, outbox, p);
      if p in payments { assert Evolves(payments[p], payments'[p]); }
    }
    forall i | 0 <= i < |outbox| ensures EventOk(payments', outbox[i].event) {
      EvolvingKeepsEvent(payments, payments', outbox[i].event);
    }
  }

  lemma EvolvingKeepsEvent(payments: map<Id, Payment>, payments': map<Id, Payment>, e: Event)
    requires EventOk(payments, e) && AllEvolve(payments, payments')
    ensures EventOk(payments', e)
  {
  }

  lemma EvolvingKeepsKeys(
    payments: map<Id, Payment>, payments': map<Id, Payment>, keys: map<KeyId, KeyRow>, outbox: seq<OutboxRow>)
    requires Keys(payments, keys, outbox) && AllEvolve(payments, payments')
    ensures Keys(payments', keys, outbox)
  {
  }

  /** Rows stay well formed; only SUCCEEDED payments of unconfirmed bookings would be wrong. */
  lemma EvolvingKeepsMoney(bookings: map<Id, Booking>, payments: map<Id, Payment>, payments': map<Id, Payment>)
    requires Money(bookings, payments) && AllEvolve(payments, payments')
    requires forall p | p in payments && payments[p].status.SUCCEEDED? :: payments'[p].status.SUCCEEDED?
    ensures Money(bookings, payments')
  {
    forall p | p in payments' ensures PaymentOk(bookings, payments'[p]) {
      assert PaymentOk(bookings, payments[p]) && Evolves(payments[p], payments'[p]);
    }
    forall p, q | p in payments' && q in payments' && p != q ensures Compatible(payments'[p], payments'[q]) {
      assert Compatible(payments[p], payments[q]) && Evolves(payments[p], payments'[p]) && Evolves(payments[q], payments'[q]);
    }
    forall b | b in bookings && bookings[b].status.CONFIRMED? ensures exists p :: PaidBy(payments', b, p) {
      var p :| PaidBy(payments, b, p);
      assert Evolves(payments[p], payments'[p]) && PaidBy(payments', b, p);
    }
  }

  lemma PaymentRows(bookings: map<Id, Booking>, payments: map<Id, Payment>)
    requires Money(bookings, payments)
    ensures forall p | p in payments :: PaymentOk(bookings, payments[p])
  {
  }

  /** Reconciliation's own transactions: claim, reschedule, record a refund. */
  lemma ReconcilingKeepsInv(t: Tables, payments': map<Id, Payment>, audit': seq<AuditEntry>)
    requires Inv(t) && AllEvolve(t.payments, payments')
    requires forall p | p in t.payments && t.payments[p].status.SUCCEEDED? :: payments'[p].status.SUCCEEDED?
    ensures Inv(t.(payments := payments', audit := audit'))
  {
    hide Inventory, Money, Events, Keys;
    EvolvingKeepsEvents(t.bookings, t.payments, payments', t.outbox);
    EvolvingKeepsKeys(t.payments, payments', t.keys, t.outbox);
    EvolvingKeepsMoney(t.bookings, t.payments, payments');
  }

  lemma ClaimKeepsInv(t: Tables, now: Instant, leaseMs: int, limit: nat, locked: set<Id>)
    requires Inv(t)
    ensures Inv(ClaimDue(t, now, leaseMs, limit, locked))
  {
    hide Inventory, Money, Events, Keys, ClaimedIds;
    PaymentRows(t.bookings, t.payments);
    var t' := ClaimDue(t, now, leaseMs, limit, locked);
    var ids := ClaimedIds(t, now, limit, locked);
    ClaimedAreDue(t, now, limit, locked);
    forall p | p in t.payments ensures Evolves(t.payments[p], t'.payments[p]) {
      assert PaymentOk(t.bookings, t.payments[p]);
    }
    ReconcilingKeepsInv(t, t'.payments, t.audit);
  }

  lemma ClaimedAreDue(t: Tables, now: Instant, limit: nat, locked: set<Id>)
    ensures forall p | p in ClaimedIds(t, now, limit, locked) ::
      && p in t.payments && p !in locked && NeedsReconciling(t.payments[p].status)
      && t.payments[p].nextAttemptAt.Some? && t.payments[p].nextAttemptAt.value <= now
  {
    var due := SortedDue(DuePayments(t, now, locked));
    assert forall i | 0 <= i < |due| :: due[i] in DuePayments(t, now, locked);
  }

  lemma RescheduleKeepsInv(t: Tables, id: Id, status: PaymentStatus, at: Instant)
    requires Inv(t) && NeedsReconciling(status)
    ensures Inv(Reschedule(t, id, status, at).db)
  {
    hide Inventory, Money, Events, Keys;
    PaymentRows(t.bookings, t.payments);
    var t' := Reschedule(t, id, status, at).db;
    forall p | p in t.payments ensures Evolves(t.payments[p], t'.payments[p]) {
      assert PaymentOk(t.bookings, t.payments[p]);
    }
    ReconcilingKeepsInv(t, t'.payments, t.audit);
  }

  lemma RecordRefundKeepsInv(t: Tables, id: Id, failure: Option<string>, now: Instant)
    requires Inv(t)
    ensures Inv(RecordRefund(t, id, failure, now).db)
  {
    hide Inventory, Money, Events, Keys;
    PaymentRows(t.bookings, t.payments);
    var t' := RecordRefund(t, id, failure, now).db;
    forall p | p in t.payments ensures Evolves(t.payments[p], t'.payments[p]) {
      assert PaymentOk(t.bookings, t.payments[p]);
    }
    ReconcilingKeepsInv(t, t'.payments, t'.audit);
  }

  // ---- Expiry ----

  lemma ExpireOneKeepsInv(t: Tables, b: Id, now: Instant)
    requires Inv(t) && b in t.bookings && t.bookings[b].status.HELD?
    ensures Inv(ExpireOne(t, b, now))
    ensures forall c | c in t.bookings && c != b :: ExpireOne(t, b, now).bookings[c] == t.bookings[c]
  {
    hide Inventory, Money, Events, Keys, SeatCodes, SeatsOf, Release;
    var t' := ExpireOne(t, b, now);
    var row := OutboxRow(BookingExpired(b, SeatCodes(t.seats, b)), now);
    EndKeepsInventory(t.seats, t.bookings, b, BookingStatus.EXPIRED);
    EndReport(t, b);
    EndEventKept(t.bookings, t.payments, t.outbox, b, BookingStatus.EXPIRED, row);
    KeysFrame(t.payments, t.keys, t.outbox, row);
    MoneyFrame(t.bookings, t'.bookings, t.payments);
  }

  lemma {:induction false} ExpireAllKeepsInv(t: Tables, ids: seq<Id>, now: Instant)
    requires Inv(t) && Distinct(ids)
    requires forall i | 0 <= i < |ids| :: ids[i] in t.bookings && t.bookings[ids[i]].status.HELD?
    ensures Inv(ExpireAll(t, ids, now))
    ensures forall b | b in t.bookings && b !in ids :: ExpireAll(t, ids, now).bookings[b] == t.bookings[b]
    decreases |ids|
  {
    hide Inv, ExpireOne;
    if ids != [] {
      var last := |ids| - 1;
      var rest := ids[..last];
      ExpireAllKeepsInv(t, rest, now);
      assert ids[last] !in rest;
      ExpireOneKeepsInv(ExpireAll(t, rest, now), ids[last], now);
      assert ids == rest + [ids[last]];
    }
  }

  lemma ExpireBatchKeepsInv(t: Tables, now: Instant, limit: nat, locked: set<Id>)
    requires Inv(t)
    ensures Inv(ExpireBatch(t, now, limit, locked))
  {
    hide Inv;
    DueHoldsExist(t, now, limit, locked);
    ExpireAllKeepsInv(t, ExpiredIds(t, now, limit, locked), now);
  }
}

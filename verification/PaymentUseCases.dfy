/**
 * settle-payment.ts and pay-for-booking.ts, phase 1: successive writes in
 * one transaction. Phase 3 confirms the booking before it knows whether the
 * payment is still its to settle; the rollback is what makes that safe.
 */
module PaymentUseCases {
  import opened Basics
  import opened Schema
  import opened Lifecycle
  import opened Transactions
  import opened BookingDb
  import opened BookingRepository
  import opened PaymentRepository

  // ---- Phase 3 ----

  method SettleCharged(db: Database, id: Id, payment: Payment, reference: string, actor: Actor, now: Instant)
    returns (r: Result<StoredResponse>)
    modifies db
    ensures Outcome(db.Contents(), r) == Charged(old(db.Contents()), id, payment, reference, actor, now)
  {
    var start := db.Contents();
    var confirmation := ConfirmHold(db, payment.bookingId, Owner(payment.accountId), now);
    if confirmation.None? {
      r := RefundCharge(db, id, payment, reference, actor, now);
    } else {
      r := ConfirmCharge(db, id, payment, confirmation.value, reference, actor, now);
    }
    if r.Err? {
      db.Rollback(start);
    }
  }

  method RefundCharge(db: Database, id: Id, payment: Payment, reference: string, actor: Actor, now: Instant)
    returns (r: Result<StoredResponse>)
    modifies db
    ensures
      var t := old(db.Contents());
      var response := NotPayable(REFUNDED_MESSAGE);
      if !HasStatus(t, id, PROCESSING) then r == Err("payment is not PROCESSING")
      else if |OpenKeysOf(t, id)| != 1 then r == Err("key is not in progress")
      else
        && r == Ok(response)
        && db.Contents() == t.(
             payments := t.payments[id := Transition(t.payments[id], REFUND_PENDING, now, Some(reference), None)],
             keys := CompleteKeys(t.keys, OpenKeysOf(t, id), response, now),
             audit := t.audit + [AuditEntry(PAYMENT_REFUND_PENDING, actor, id, now)])
  {
    hide CompleteKeys;
    var moved := MoveTo(db, id, PROCESSING, REFUND_PENDING, now, Some(reference), None);
    if moved.Err? {
      return Err(moved.message);
    }
    db.Record(PAYMENT_REFUND_PENDING, actor, id, now);
    var response := NotPayable(REFUNDED_MESSAGE);
    var answered := CompleteForPayment(db, id, response, now);
    return if answered.Ok? then Ok(response) else Err(answered.message);
  }

  /** The booking is confirmed already; what comes after may still throw. */
  method ConfirmCharge(
    db: Database, id: Id, payment: Payment, confirmed: Booking, reference: string, actor: Actor, now: Instant)
    returns (r: Result<StoredResponse>)
    modifies db
    ensures
      var t := old(db.Contents());
      var response := ConfirmedResponse(id, payment, reference, confirmed);
      if !HasStatus(t, id, PROCESSING) then r == Err("payment is not PROCESSING")
      else if PaidAlready(t, id) then r == Err("UQ_payments_booking_succeeded")
      else if |OpenKeysOf(t, id)| != 1 then r == Err("key is not in progress")
      else
        && r == Ok(response)
        && db.Contents() == t.(
             payments := t.payments[id := Transition(t.payments[id], SUCCEEDED, now, Some(reference), None)],
             keys := CompleteKeys(t.keys, OpenKeysOf(t, id), response, now),
             audit := t.audit + [AuditEntry(BOOKING_CONFIRMED(id, payment.amount), actor, payment.bookingId, now)],
             outbox := t.outbox + [OutboxRow(
               BookingConfirmed(payment.bookingId, confirmed.passengers, Total(confirmed), id, payment.amount), now)])
  {
    hide CompleteKeys, PaidAlready;
    var moved := MoveTo(db, id, PROCESSING, SUCCEEDED, now, Some(reference), None);
    if moved.Err? {
      return Err(moved.message);
    }
    db.Record(BOOKING_CONFIRMED(id, payment.amount), actor, payment.bookingId, now);
    db.Enqueue(
      BookingConfirmed(payment.bookingId, confirmed.passengers, Total(confirmed), id, payment.amount), now);
    var response := ConfirmedResponse(id, payment, reference, confirmed);
    var answered := CompleteForPayment(db, id, response, now);
    return if answered.Ok? then Ok(response) else Err(answered.message);
  }

  method SettleDeclined(db: Database, id: Id, reason: string, actor: Actor, now: Instant)
    returns (r: Result<StoredResponse>)
    modifies db
    ensures Outcome(db.Contents(), r) == Declined(old(db.Contents()), id, reason, actor, now)
  {
    hide CompleteKeys;
    var start := db.Contents();
    var moved := MoveTo(db, id, PROCESSING, FAILED, now, None, Some(reason));
    if moved.Err? {
      return Err(moved.message);
    }
    db.Record(PAYMENT_FAILED(reason), actor, id, now);
    var response := DeclinedResponse(reason);
    var answered := CompleteForPayment(db, id, response, now);
    if answered.Err? {
      db.Rollback(start);
      return Err(answered.message);
    }
    return Ok(response);
  }

  // ---- Phase 1 ----

  /** Claiming and then releasing a fresh key leaves no trace. */
  lemma ClaimThenRelease(keys: map<KeyId, KeyRow>, k: KeyId, row: KeyRow)
    requires k !in keys
    ensures keys[k := row] - {k} == keys
  {
  }

  /** What a key that is already there answers. */
  function Replayed(claim: ClaimResult, fingerprint: string): PayOutcome
    requires !claim.Claimed?
  {
    if claim.fingerprint != fingerprint then KeyReused
    else if claim.AlreadyCompleted? then Answered(claim.response, true)
    else KeyInProgress
  }

  /**
   * `read` is what the unlocked read of the booking returned, `sights` what
   * the claim's attempts find. A claim that never finds anything throws.
   */
  method StartPaymentInTransaction(
    db: Database, read: Option<Booking>, r: PayRequest, now: Instant, reconcileAfterMs: int, sights: seq<Sight>)
    returns (o: Result<PayOutcome>)
    requires SightsFit(db.keys, KeyId(r.actor, r.key), sights)
    modifies db
    ensures Finding(sights).None? ==> o == Err("key could not be claimed") && db.Contents() == old(db.Contents())
    ensures Finding(sights).Some? ==> o == StartPayment(old(db.Contents()), read, r, now, reconcileAfterMs).result
    ensures Finding(sights).Some? && o.Ok? ==>
      db.Contents() == StartPayment(old(db.Contents()), read, r, now, reconcileAfterMs).db
  {
    hide Total, CanStartPayment, HoldIsValid, Finding, PaymentRunning;
    ghost var t := db.Contents();
    var k := KeyId(r.actor, r.key);
    var claim := ClaimKey(db, k, r.fingerprint, now, sights);
    if claim.Err? {
      return Err(claim.message);
    }
    if !claim.value.Claimed? {
      return Ok(Replayed(claim.value, r.fingerprint));
    }
    ClaimThenRelease(t.keys, k, FreshKey(r, now));
    assert t == db.Contents().(keys := db.keys - {k});
    o := DecideOnClaimedKey(db, k, read, r, now, reconcileAfterMs);
  }

  /** With the key claimed: answer at once, or start; `StartPayment` tells it from the tables without the claim. */
  method DecideOnClaimedKey(
    db: Database, k: KeyId, read: Option<Booking>, r: PayRequest, now: Instant, reconcileAfterMs: int)
    returns (o: Result<PayOutcome>)
    requires k == KeyId(r.actor, r.key) && k in db.keys && db.keys[k] == FreshKey(r, now)
    modifies db
    ensures
      var base := old(db.Contents()).(keys := old(db.keys) - {k});
      var whole := StartPayment(base, read, r, now, reconcileAfterMs);
      o == whole.result && (o.Ok? ==> db.Contents() == whole.db)
  {
    hide Total, CanStartPayment, HoldIsValid, PaymentRunning;
    ghost var base := db.Contents().(keys := db.keys - {k});
    SameRunning(db.Contents(), base, r.bookingId);
    if read.None? {
      o := AnswerNow(db, k, NotFoundResponse(), now);
      return;
    }
    var booking := read.value;
    if !CanStartPayment(booking, now) {
      var message := if HoldIsValid(booking, now) then UNDER_MARGIN_MESSAGE else NOT_HELD_MESSAGE;
      o := AnswerNow(db, k, NotPayable(message), now);
      return;
    }
    o := StartOnClaimedKey(db, k, booking, r, now, reconcileAfterMs);
  }

  lemma SameRunning(t: Tables, t2: Tables, bookingId: Id)
    requires t2.payments == t.payments
    ensures PaymentRunning(t2, bookingId) == PaymentRunning(t, bookingId)
  {
  }

  method AnswerNow(db: Database, k: KeyId, response: StoredResponse, now: Instant) returns (o: Result<PayOutcome>)
    requires k in db.keys && db.keys[k].status.IN_PROGRESS?
    modifies db`keys
    ensures o == Ok(Answered(response, false))
    ensures db.keys == old(db.keys)[k := Completed(old(db.keys)[k], response, now)]
  {
    var done := Complete(db, k, response, now);
    return Ok(Answered(response, false));
  }

  method StartOnClaimedKey(
    db: Database, k: KeyId, booking: Booking, r: PayRequest, now: Instant, reconcileAfterMs: int)
    returns (o: Result<PayOutcome>)
    requires k in db.keys && db.keys[k] == FreshKey(r, now)
    modifies db`keys, db`payments
    ensures
      var t := old(db.Contents());
      var payment := NewPayment(r, Total(booking), now, reconcileAfterMs);
      var freed := t.(keys := t.keys - {k});
      if r.amount != Total(booking) then o == Ok(AmountMismatch(Total(booking))) && db.Contents() == freed
      else if PaymentRunning(t, r.bookingId) then o == Ok(PaymentInProgress) && db.Contents() == freed
      else if r.paymentId in t.payments || r.bookingId !in t.bookings || r.amount == 0 then
        o == Err("payments constraint")
      else
        && o == Ok(Started(payment))
        && db.Contents() == t.(
             payments := t.payments[r.paymentId := payment],
             keys := t.keys[k := FreshKey(r, now).(paymentId := Some(r.paymentId))])
  {
    hide PaymentRunning;
    if r.amount != Total(booking) {
      ReleaseKey(db, k);
      return Ok(AmountMismatch(Total(booking)));
    }
    var payment := NewPayment(r, Total(booking), now, reconcileAfterMs);
    var started := PaymentRepository.Start(db, r.paymentId, payment);
    if started.Err? {
      return Err(started.message);
    }
    if started.value.AlreadyRunning? {
      ReleaseKey(db, k);
      return Ok(PaymentInProgress);
    }
    var attached := AttachPayment(db, k, r.paymentId);
    return Ok(Started(payment));
  }

  method Start(
    db: Database, read: Option<Booking>, r: PayRequest, now: Instant, reconcileAfterMs: int, sights: seq<Sight>)
    returns (o: Result<PayOutcome>)
    requires SightsFit(db.keys, KeyId(r.actor, r.key), sights)
    modifies db
    ensures
      if Finding(sights).None? then o == Err("key could not be claimed") && db.Contents() == old(db.Contents())
      else Outcome(db.Contents(), o) == StartPayment(old(db.Contents()), read, r, now, reconcileAfterMs)
  {
    hide StartPayment, Finding;
    var start := db.Contents();
    o := StartPaymentInTransaction(db, read, r, now, reconcileAfterMs, sights);
    if o.Err? {
      if Finding(sights).Some? {
        StartErrWritesNothing(start, read, r, now, reconcileAfterMs);
      }
      db.Rollback(start);
    }
  }

  lemma StartErrWritesNothing(t: Tables, read: Option<Booking>, r: PayRequest, now: Instant, reconcileAfterMs: int)
    requires StartPayment(t, read, r, now, reconcileAfterMs).result.Err?
    ensures StartPayment(t, read, r, now, reconcileAfterMs).db == t
  {
  }

  // ---- A recorded refund (reconcile-payments.ts) ----

  method RecordRefundOutcome(db: Database, id: Id, failure: Option<string>, now: Instant) returns (r: Result<()>)
    modifies db
    ensures Outcome(db.Contents(), r) == RecordRefund(old(db.Contents()), id, failure, now)
  {
    if failure.None? {
      r := MoveTo(db, id, REFUND_PENDING, REFUNDED, now, None, None);
    } else {
      r := MoveTo(db, id, REFUND_PENDING, REFUND_FAILED, now, None, failure);
    }
    if r.Ok? {
      db.Record(
        if failure.None? then PAYMENT_REFUNDED else PAYMENT_REFUND_FAILED(failure.value), ReconciliationJob, id, now);
    }
  }
}

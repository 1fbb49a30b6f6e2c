/** What a paying request is answered, by the key it brings and by what its own phase 3 committed. */
module PayAnswers {
  import opened Basics
  import opened Schema
  import opened Lifecycle
  import opened Transactions
  import opened Invariants
  import opened PaymentSteps
  import opened Runs
  import opened Histories

  function KeyFor(r: PayRequest): KeyId { KeyId(r.actor, r.key) }

  // ---- A key that is taken ----

  /**
   * A taken key answers for the request it was first used with and no other:
   * another fingerprint is refused whatever became of the key; the same one
   * gets the stored response, or is told to wait. Nothing is written.
   */
  lemma TakenKeyAnswersIff(t: Tables, read: Option<Booking>, r: PayRequest, now: Instant, after: int)
    requires Inv(t) && KeyFor(r) in t.keys
    ensures
      var o, row := StartPayment(t, read, r, now, after), t.keys[KeyFor(r)];
      && o.db == t
      && (o.result == Ok(KeyReused) <==> row.fingerprint != r.fingerprint)
      && (row.fingerprint == r.fingerprint && row.status.COMPLETED? <==> o.result.Ok? && o.result.value.Answered?)
      && (row.fingerprint == r.fingerprint && row.status.COMPLETED? ==>
            row.response.Some? && o.result == Ok(Answered(row.response.value, true)))
      && (o.result == Ok(KeyInProgress) <==> row.fingerprint == r.fingerprint && row.status.IN_PROGRESS?)
  {
    hide Inventory, Money, Events, Total, CanStartPayment, HoldIsValid, PaymentRunning;
    assert KeyOk(t.payments, t.outbox, t.keys[KeyFor(r)]);
  }

  /** Once an answer is stored, every later use of the key gets it or is refused, for as long as the key is kept. */
  lemma StoredAnswerIsReplayed(
    t: Tables, xs: seq<Txn>, k: KeyId, read: Option<Booking>, r: PayRequest, now: Instant, after: int)
    requires Inv(t) && Legal(t, xs) && k in t.keys && t.keys[k].status.COMPLETED?
    requires (forall i | 0 <= i < |xs| :: k !in Deleted(xs[i])) && k == KeyFor(r)
    ensures t.keys[k].response.Some?
    ensures
      var o := StartPayment(Run(t, xs), read, r, now, after);
      && o.db == Run(t, xs)
      && o.result == if r.fingerprint == t.keys[k].fingerprint then Ok(Answered(t.keys[k].response.value, true))
                     else Ok(KeyReused)
  {
    hide Inv, Run, Legal, StartPayment, Deleted;
    TakenKeyAnswersIff(t, read, r.(fingerprint := t.keys[k].fingerprint), now, after);
    RunKeepsInv(t, xs);
    KeysOnlyAdvanceOverRuns(t, xs, k);
    TakenKeyAnswersIff(Run(t, xs), read, r, now, after);
  }

  // ---- A new key ----

  predicate HeldStill(b: Booking, now: Instant) {
    b.status.HELD? && b.holdExpiresAt.Some? && b.holdExpiresAt.value > now
  }

  /** The booking as it was read can be paid: held for more than another minute. */
  predicate Payable(b: Booking, now: Instant) { HeldStill(b, now + 60000) }

  predicate BeingPaid(t: Tables, b: Id) {
    exists q | q in t.payments :: t.payments[q].bookingId == b && t.payments[q].status.PROCESSING?
  }

  function Refused404(): StoredResponse {
    StoredResponse(404, ErrorBody("BOOKING_NOT_FOUND", "Booking was not found"))
  }

  function RefusedNotHeld(): StoredResponse {
    StoredResponse(409, ErrorBody("BOOKING_NOT_PAYABLE", "Booking is not held or its hold has expired"))
  }

  function RefusedUnderMargin(): StoredResponse {
    StoredResponse(409, ErrorBody(
      "BOOKING_NOT_PAYABLE", "Booking hold expires in 60 seconds or less; it can no longer be paid"))
  }

  function NotYetAnswered(r: PayRequest, now: Instant, paymentId: Option<Id>): KeyRow {
    KeyRow(r.fingerprint, IN_PROGRESS, None, paymentId, now, None)
  }

  function AnsweredKey(r: PayRequest, response: StoredResponse, now: Instant): KeyRow {
    KeyRow(r.fingerprint, COMPLETED, Some(response), None, now, Some(now))
  }

  /** Where the request ends at once with a final answer: it is stored with the key, and nothing else is written. */
  lemma RefusalsIff(t: Tables, read: Option<Booking>, r: PayRequest, now: Instant, after: int)
    requires KeyFor(r) !in t.keys
    ensures
      var o := StartPayment(t, read, r, now, after);
      && (o.result == Ok(Answered(Refused404(), false)) <==> read.None?)
      && (o.result == Ok(Answered(RefusedNotHeld(), false)) <==> read.Some? && !HeldStill(read.value, now))
      && (o.result == Ok(Answered(RefusedUnderMargin(), false)) <==>
            read.Some? && HeldStill(read.value, now) && !Payable(read.value, now))
      && (o.result.Ok? && o.result.value.Answered? ==>
            o.db == t.(keys := t.keys[KeyFor(r) := AnsweredKey(r, o.result.value.response, now)]))
      && (o.result.Ok? && o.result.value.Answered? <==> read.None? || !Payable(read.value, now))
  {
    hide Total, PaymentRunning;
  }

  /**
   * Where it does not: a wrong amount is answered with the booking's total, a
   * booking already being paid is refused, and both leave every table as it
   * was, the key free again. Otherwise one PROCESSING payment of exactly the
   * booking's total starts, by the caller, for the gateway token it brought.
   */
  lemma StartsIff(t: Tables, read: Option<Booking>, r: PayRequest, now: Instant, after: int)
    requires Inv(t) && EarlierRead(t, read, r.bookingId) && KeyFor(r) !in t.keys
    requires read.Some? && Payable(read.value, now)
    ensures
      var o, total := StartPayment(t, read, r, now, after), Total(t.bookings[r.bookingId]);
      && (o.result == Ok(AmountMismatch(total)) <==> r.amount != total)
      && (o.result == Ok(PaymentInProgress) <==> r.amount == total && BeingPaid(t, r.bookingId))
      && (o.result.Ok? && !o.result.value.Started? ==> o.db == t)
      && (o.result.Ok? && o.result.value.Started? <==>
            r.amount == total && !BeingPaid(t, r.bookingId) && r.paymentId !in t.payments)
      && (o.result.Ok? && o.result.value.Started? ==>
            var p := Payment(r.bookingId, r.actor, total, PROCESSING, None, None, Some(r.token), 0, Some(now + after), now, now);
            && o.result.value.payment == p
            && o.db == t.(payments := t.payments[r.paymentId := p],
                          keys := t.keys[KeyFor(r) := NotYetAnswered(r, now, Some(r.paymentId))]))
  {
    hide Inventory, Money, Events, Keys, References, Total, BeingPaid, PaymentRunning;
    RunningIsBeingPaid(t, r.bookingId);
    BookingCostsSomething(t, r.bookingId);
  }

  lemma RunningIsBeingPaid(t: Tables, b: Id)
    ensures PaymentRunning(t, b) <==> BeingPaid(t, b)
  {
  }

  lemma BookingCostsSomething(t: Tables, b: Id)
    requires Inv(t) && b in t.bookings
    ensures 1 <= Total(t.bookings[b])
  {
    hide Money, Events, Keys, References, SeatOk, OwnsItsSeats, SumPrices;
    var booking := t.bookings[b];
    assert WellFormed(booking);
    LastPriceCounts(booking.passengers);
  }

  lemma LastPriceCounts(ps: seq<Passenger>)
    requires ps != []
    ensures SumPrices(ps) >= ps[|ps| - 1].price
  {
  }

  // ---- Phase 3's own answer ----

  /** The hold can be confirmed for the payer: its own, HELD, before its deadline. */
  predicate PayersHold(t: Tables, b: Id, payer: Id, now: Instant) {
    b in t.bookings && t.bookings[b].owner == payer && HeldStill(t.bookings[b], now)
  }

  /** The payment as a response shows it, read off its row. */
  function ShownRow(id: Id, p: Payment): PaymentView {
    PaymentView(id, p.bookingId, p.status, p.amount, p.providerReference, p.createdAt)
  }

  /**
   * A recorded charge is answered from the rows it commits: 201 with the
   * confirmed booking and the succeeded payment exactly as stored when the
   * payer's hold was still valid, otherwise 409 with the payment stored as
   * REFUND_PENDING; either with the provider's reference.
   */
  lemma ChargeIsAnsweredFromItsRows(t: Tables, id: Id, p: Payment, reference: string, actor: Actor, now: Instant)
    requires Inv(t) && CopyOf(t, id, p) && HasStatus(t, id, PROCESSING)
    ensures
      var o := Charged(t, id, p, reference, actor, now);
      && o.result.Ok? && id in o.db.payments && o.db.payments[id].providerReference == Some(reference)
      && (o.result.value.status == 201 <==> PayersHold(t, t.payments[id].bookingId, t.payments[id].accountId, now))
      && (o.result.value.status == 201 ==>
            && p.bookingId in o.db.bookings && o.db.bookings[p.bookingId].status.CONFIRMED?
            && o.db.payments[id].status.SUCCEEDED?
            && o.result.value.body
               == Confirmation(ShownRow(id, o.db.payments[id]), p.bookingId, o.db.bookings[p.bookingId]))
      && (o.result.value.status != 201 ==>
            && o.db.payments[id].status.REFUND_PENDING?
            && o.result.value
               == StoredResponse(409, ErrorBody("BOOKING_NOT_PAYABLE",
                    "Booking was cancelled or expired while the payment was processed; the payment is being refunded")))
  {
    hide Inv, Book, SeatsOf, CompleteKeys, OpenKeysOf, Total, PaidAlready;
    ChargedKeepsInv(t, id, p, reference, actor, now);
  }

  /** A decline is answered 402 with the reason the row keeps. */
  lemma DeclineIsAnsweredFromItsRow(t: Tables, id: Id, reason: string, actor: Actor, now: Instant)
    requires Inv(t) && HasStatus(t, id, PROCESSING)
    ensures
      var o := Declined(t, id, reason, actor, now);
      && o.result.Ok? && id in o.db.payments && o.db.payments[id].status.FAILED?
      && o.db.payments[id].failureReason == Some(reason)
      && o.result.value
         == StoredResponse(402, ErrorBody("PAYMENT_DECLINED", "Payment was declined: " + o.db.payments[id].failureReason.value))
  {
    hide Inv, CompleteKeys, OpenKeysOf;
    DeclinedKeepsInv(t, id, reason, actor, now);
  }

  // ---- From the first request to every repeat ----

  lemma StartedKey(t: Tables, read: Option<Booking>, r: PayRequest, now: Instant, after: int)
    requires StartPayment(t, read, r, now, after).result.Ok? && StartPayment(t, read, r, now, after).result.value.Started?
    ensures
      var db := StartPayment(t, read, r, now, after).db;
      && KeyFor(r) in db.keys && db.keys[KeyFor(r)].fingerprint == r.fingerprint
      && db.keys[KeyFor(r)].paymentId == Some(r.paymentId)
  {
    hide Total, CanStartPayment, HoldIsValid, PaymentRunning;
  }

  /** Phase 3 stores its answer with the payment's own key. */
  lemma SettledKey(t: Tables, id: Id, how: Settlement, k: KeyId)
    requires Inv(t) && Honest(t, id, how) && HasStatus(t, id, PROCESSING)
    requires k in t.keys && t.keys[k].paymentId == Some(id)
    ensures
      var o := Settle(t, id, how);
      && o.result.Ok? && k in o.db.keys && o.db.keys[k].status.COMPLETED?
      && o.db.keys[k].response == Some(o.result.value) && o.db.keys[k].fingerprint == t.keys[k].fingerprint
  {
    hide Inv, Confirmable, Book, SeatsOf, Total, PaidAlready, ConfirmedResponse, NotPayable;
    SettleEndsProcessing(t, id, how);
    OnlyKeyIsOpen(t, id, k);
  }

  lemma OnlyKeyIsOpen(t: Tables, id: Id, k: KeyId)
    requires Inv(t) && HasStatus(t, id, PROCESSING) && k in t.keys && t.keys[k].paymentId == Some(id)
    ensures OpenKeysOf(t, id) == {k}
  {
    hide Inventory, Money, Events, OpenKeysOf;
    KeyIsOpen(t, id);
  }

  /**
   * One key, one answer: a request starts its payment, anything at all
   * happens, phase 3 is recorded by whoever gets there, anything at all
   * happens again. As long as the key is kept, the same request is then
   * answered with exactly what phase 3 returned, and a request with another
   * fingerprint is refused.
   */
  lemma RepeatGetsPhase3sAnswer(
    t: Tables, read: Option<Booking>, r: PayRequest, now: Instant, after: int, between: seq<Txn>, how: Settlement,
    later: seq<Txn>, read2: Option<Booking>, again: PayRequest, now2: Instant, after2: int)
    requires Inv(t) && EarlierRead(t, read, r.bookingId)
    requires StartPayment(t, read, r, now, after).result.Ok? && StartPayment(t, read, r, now, after).result.value.Started?
    requires Legal(StartPayment(t, read, r, now, after).db, between)
    requires
      var before := Run(StartPayment(t, read, r, now, after).db, between);
      && HasStatus(before, r.paymentId, PROCESSING) && Honest(before, r.paymentId, how)
      && Legal(Settle(before, r.paymentId, how).db, later)
    requires forall i | 0 <= i < |between| :: KeyFor(r) !in Deleted(between[i])
    requires forall i | 0 <= i < |later| :: KeyFor(r) !in Deleted(later[i])
    requires KeyFor(again) == KeyFor(r)
    ensures
      var settled := Settle(Run(StartPayment(t, read, r, now, after).db, between), r.paymentId, how);
      var o := StartPayment(Run(settled.db, later), read2, again, now2, after2);
      && settled.result.Ok? && o.db == Run(settled.db, later)
      && o.result == if again.fingerprint == r.fingerprint then Ok(Answered(settled.result.value, true)) else Ok(KeyReused)
  {
    hide Inv, Run, Legal, StartPayment, Deleted, Settle, Honest, EarlierRead;
    var started := StartPayment(t, read, r, now, after).db;
    var before := Run(started, between);
    StartKeepsInv(t, read, r, now, after);
    StartedKey(t, read, r, now, after);
    RunKeepsInv(started, between);
    KeysOnlyAdvanceOverRuns(started, between, KeyFor(r));
    SettledKey(before, r.paymentId, how, KeyFor(r));
    SettleEndsProcessing(before, r.paymentId, how);
    StoredAnswerIsReplayed(Settle(before, r.paymentId, how).db, later, KeyFor(r), read2, again, now2, after2);
  }
}

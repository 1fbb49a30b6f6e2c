/**
 * next_attempt_at as age gate, lease and backoff: the protocol with a clock,
 * and whoever is working on a payment right now. Holders that die keep their
 * window; they just never finish.
 */
module Leases {
  import opened Basics
  import opened Schema
  import opened Transactions
  import opened Invariants
  import opened Preservation
  import opened PaymentSteps
  import opened Runs
  import opened Histories
  import opened MoneySafety

  // ---- The startup check (config.ts) ----

  const PAYMENT_SETTLE_BUDGET_MS := 5000

  datatype Timing = Timing(timeoutMs: int, marginMs: int)

  function CheckPaymentTimings(c: Timing): Result<()> {
    if c.marginMs < PAYMENT_SETTLE_BUDGET_MS then Err("margin below the settle budget")
    else if c.timeoutMs + c.marginMs >= PAYMENT_START_MARGIN_MS then Err("timeout and margin reach the start margin")
    else Ok(())
  }

  /** reconcileAfterMs, and the job's lease. */
  function LeaseMs(c: Timing): int { c.timeoutMs + c.marginMs }

  /** What the protocol needs of its timings; the last millisecond is refused though it would do. */
  predicate TimingsWork(c: Timing) { 5000 <= c.marginMs && c.timeoutMs + c.marginMs <= 60000 }

  lemma CheckedTimingsWork(c: Timing)
    ensures CheckPaymentTimings(c).Ok? <==> TimingsWork(c) && c.timeoutMs + c.marginMs != 60000
  {
  }

  // ---- The timed protocol ----

  /**
   * Someone between writing next_attempt_at at `since` and recording an
   * answer: the paying request or the job; `status` is what it took on.
   */
  datatype Holder = Holder(paymentId: Id, since: Instant, status: PaymentStatus, job: bool, serial: nat)

  datatype Timed = Timed(clock: Instant, db: Tables, holders: set<Holder>, serial: nat)

  /** What every holder promises: to be finished before the timeout and the settle budget have passed. */
  predicate Live(c: Timing, s: Timed, h: Holder) {
    h in s.holders && s.clock < h.since + c.timeoutMs + PAYMENT_SETTLE_BUDGET_MS
  }

  datatype Ending =
    | EndCharged(copy: Payment, reference: string, actor: Actor)
    | EndDeclined(reason: string, actor: Actor)
    | EndRetry(delayMs: nat)
    | EndRefund(failure: Option<string>)

  datatype Step =
    | Tick(ms: nat)
    | Begin(read: Option<Booking>, pay: PayRequest)
    | ClaimDueNow(limit: nat, locked: set<Id>)
    | Finish(holder: Holder, how: Ending)
    | Elsewhere(txn: Txn)

  predicate MayEnd(s: Timed, h: Holder, how: Ending) {
    match how
    case EndCharged(copy, _, _) => h.status.PROCESSING? && CopyOf(s.db, h.paymentId, copy)
    case EndDeclined(_, _) => h.status.PROCESSING?
    case EndRetry(_) => h.job
    case EndRefund(_) => h.status.REFUND_PENDING?
  }

  predicate CanStep(c: Timing, s: Timed, x: Step) {
    match x
    case Tick(_) => true
    case Begin(read, r) => EarlierRead(s.db, read, r.bookingId)
    case ClaimDueNow(_, _) => true
    case Finish(h, how) =>
      Live(c, s, h) && MayEnd(s, h, how)
    case Elsewhere(txn) => Plain(txn) && Enabled(s.db, txn)
  }

  function Finished(s: Timed, h: Holder, how: Ending): Outcome<()> {
    match how
    case EndCharged(copy, reference, actor) =>
      var o := Charged(s.db, h.paymentId, copy, reference, actor, s.clock);
      Outcome(o.db, if o.result.Ok? then Ok(()) else Err(o.result.message))
    case EndDeclined(reason, actor) =>
      var o := Declined(s.db, h.paymentId, reason, actor, s.clock);
      Outcome(o.db, if o.result.Ok? then Ok(()) else Err(o.result.message))
    case EndRetry(delayMs) => Reschedule(s.db, h.paymentId, h.status, s.clock + delayMs)
    case EndRefund(failure) => RecordRefund(s.db, h.paymentId, failure, s.clock)
  }

  function NewHolders(s: Timed, ids: seq<Id>): set<Holder> {
    set p | p in ids && p in s.db.payments :: Holder(p, s.clock, s.db.payments[p].status, true, s.serial)
  }

  function StepOn(c: Timing, s: Timed, x: Step): Timed {
    match x
    case Tick(ms) => s.(clock := s.clock + ms)
    case Begin(read, r) =>
      var o := StartPayment(s.db, read, r, s.clock, LeaseMs(c));
      if o.result.Ok? && o.result.value.Started? then
        Timed(s.clock, o.db, s.holders + {Holder(r.paymentId, s.clock, PROCESSING, false, s.serial)}, s.serial + 1)
      else s.(db := o.db)
    case ClaimDueNow(limit, locked) =>
      Timed(s.clock, ClaimDue(s.db, s.clock, LeaseMs(c), limit, locked),
            s.holders + NewHolders(s, ClaimedIds(s.db, s.clock, limit, locked)), s.serial + 1)
    case Finish(h, how) => s.(db := Finished(s, h, how).db, holders := s.holders - {h})
    case Elsewhere(txn) => s.(db := Apply(s.db, txn))
  }

  // ---- Exclusion ----

  /** A live holder's payment is as it took it on, and not due before the holder's window is over. */
  predicate UnderLease(c: Timing, payments: map<Id, Payment>, h: Holder) {
    && h.paymentId in payments
    && payments[h.paymentId].status == h.status && NeedsReconciling(h.status)
    && payments[h.paymentId].nextAttemptAt.Some?
    && payments[h.paymentId].nextAttemptAt.value >= h.since + LeaseMs(c)
    && (h.job ==> payments[h.paymentId].attempts >= 1)
  }

  ghost predicate LeasesHold(c: Timing, s: Timed) {
    && (forall h | h in s.holders :: h.serial < s.serial && NeedsReconciling(h.status))
    && (forall h | Live(c, s, h) :: UnderLease(c, s.db.payments, h))
    && (forall h, k | Live(c, s, h) && Live(c, s, k) && h.paymentId == k.paymentId :: h == k)
  }

  lemma TickKeepsLeases(c: Timing, s: Timed, ms: nat)
    requires LeasesHold(c, s)
    ensures LeasesHold(c, StepOn(c, s, Tick(ms)))
  {
    var s' := StepOn(c, s, Tick(ms));
    forall h | Live(c, s', h) ensures Live(c, s, h) {
    }
  }

  /** The age gate: what is due has no live holder. */
  lemma DueHasNoHolder(c: Timing, s: Timed, h: Holder, limit: nat, locked: set<Id>)
    requires TimingsWork(c) && LeasesHold(c, s) && Live(c, s, h)
    ensures h.paymentId !in ClaimedIds(s.db, s.clock, limit, locked)
  {
    assert UnderLease(c, s.db.payments, h);
    ClaimedAreDue(s.db, s.clock, limit, locked);
  }

  lemma ClaimKeepsLeases(c: Timing, s: Timed, limit: nat, locked: set<Id>)
    requires TimingsWork(c) && LeasesHold(c, s)
    ensures LeasesHold(c, StepOn(c, s, ClaimDueNow(limit, locked)))
  {
    hide ClaimedIds;
    var s' := StepOn(c, s, ClaimDueNow(limit, locked));
    var ids := ClaimedIds(s.db, s.clock, limit, locked);
    ClaimedAreDue(s.db, s.clock, limit, locked);
    forall h | Live(c, s', h)
      ensures UnderLease(c, s'.db.payments, h)
      ensures h in s.holders <==> h.paymentId !in ids
    {
      if h in s.holders {
        assert Live(c, s, h) && UnderLease(c, s.db.payments, h);
        DueHasNoHolder(c, s, h, limit, locked);
      }
    }
  }

  lemma BeginKeepsLeases(c: Timing, s: Timed, read: Option<Booking>, r: PayRequest)
    requires LeasesHold(c, s)
    ensures LeasesHold(c, StepOn(c, s, Begin(read, r)))
  {
    hide StartPayment;
    var o := StartPayment(s.db, read, r, s.clock, LeaseMs(c));
    var s' := StepOn(c, s, Begin(read, r));
    StartAddsOnePayment(s.db, read, r, s.clock, LeaseMs(c));
    StartedRow(s.db, read, r, s.clock, LeaseMs(c));
    forall h | Live(c, s', h)
      ensures UnderLease(c, s'.db.payments, h)
      ensures h in s.holders ==> h.paymentId in s.db.payments
    {
      if h in s.holders { assert Live(c, s, h) && UnderLease(c, s.db.payments, h); }
    }
  }

  lemma StartedRow(t: Tables, read: Option<Booking>, r: PayRequest, now: Instant, after: int)
    ensures
      var o := StartPayment(t, read, r, now, after);
      o.result.Ok? && o.result.value.Started? ==>
        o.result.value.payment.nextAttemptAt == Some(now + after) && o.result.value.payment.bookingId == r.bookingId
        && o.result.value.payment.attempts == 0
  {
  }

  /** Recording an answer touches the holder's own payment, nobody else's. */
  lemma EndingTouchesOwnRow(s: Timed, h: Holder, how: Ending)
    ensures forall p | p in s.db.payments && p != h.paymentId ::
      p in Finished(s, h, how).db.payments && Finished(s, h, how).db.payments[p] == s.db.payments[p]
  {
    hide Charged, Declined;
    match how
    case EndCharged(copy, reference, actor) => ChargedMovesOneRow(s.db, h.paymentId, copy, reference, actor, s.clock);
    case EndDeclined(reason, actor) => DeclinedTouchesOneRow(s.db, h.paymentId, reason, actor, s.clock);
    case _ =>
  }

  lemma DeclinedTouchesOneRow(t: Tables, id: Id, reason: string, actor: Actor, now: Instant)
    ensures forall p | p in t.payments && p != id ::
      p in Declined(t, id, reason, actor, now).db.payments
      && Declined(t, id, reason, actor, now).db.payments[p] == t.payments[p]
  {
  }

  lemma FinishKeepsLeases(c: Timing, s: Timed, h: Holder, how: Ending)
    requires LeasesHold(c, s) && Live(c, s, h)
    ensures LeasesHold(c, StepOn(c, s, Finish(h, how)))
  {
    hide Finished;
    var s' := StepOn(c, s, Finish(h, how));
    EndingTouchesOwnRow(s, h, how);
    forall k | Live(c, s', k) ensures UnderLease(c, s'.db.payments, k) {
      assert Live(c, s, k) && k != h && UnderLease(c, s.db.payments, k);
    }
  }

  /** Other transactions move SUCCEEDED payments only, and those have no holder. */
  lemma ElsewhereTouchesPaidOnly(t: Tables, x: Txn)
    requires Plain(x)
    ensures forall p | p in t.payments ::
      p in Apply(t, x).payments && (Apply(t, x).payments[p] == t.payments[p] || t.payments[p].status.SUCCEEDED?)
  {
    hide CreateBooking, Cancel, ChangeSeat, ExpireBatch;
    match x
    case DoCreate(r, now) => CreateLeavesPayments(t, r, now);
    case DoCancel(id, scope, actor, now) => CancelTouchesPaidOnly(t, id, scope, actor, now);
    case DoChangeSeat(id, position, target, scope, actor, now) =>
      ChangeSeatLeavesPayments(t, id, position, target, scope, actor, now);
    case DoExpire(now, limit, locked) => ExpiryLeavesPayments(t, now, limit, locked);
    case _ =>
  }

  lemma CancelTouchesPaidOnly(t: Tables, id: Id, scope: Scope, actor: Id, now: Instant)
    ensures
      var payments := Cancel(t, id, scope, actor, now).db.payments;
      forall p | p in t.payments ::
        p in payments && (payments[p] == t.payments[p] || t.payments[p].status.SUCCEEDED?)
  {
  }

  lemma ElsewhereKeepsLeases(c: Timing, s: Timed, x: Txn)
    requires LeasesHold(c, s) && Plain(x)
    ensures LeasesHold(c, StepOn(c, s, Elsewhere(x)))
  {
    hide Apply;
    var s' := StepOn(c, s, Elsewhere(x));
    ElsewhereTouchesPaidOnly(s.db, x);
    forall h | Live(c, s', h) ensures UnderLease(c, s'.db.payments, h) {
      assert Live(c, s, h) && UnderLease(c, s.db.payments, h);
    }
  }

  lemma StepKeepsLeases(c: Timing, s: Timed, x: Step)
    requires TimingsWork(c) && LeasesHold(c, s) && CanStep(c, s, x)
    ensures LeasesHold(c, StepOn(c, s, x))
  {
    hide LeasesHold, StepOn;
    match x
    case Tick(ms) => TickKeepsLeases(c, s, ms);
    case Begin(read, r) => BeginKeepsLeases(c, s, read, r);
    case ClaimDueNow(limit, locked) => ClaimKeepsLeases(c, s, limit, locked);
    case Finish(h, how) => FinishKeepsLeases(c, s, h, how);
    case Elsewhere(txn) => ElsewhereKeepsLeases(c, s, txn);
  }

  // ---- Due before the hold ends ----

  /** A payment nobody has claimed yet becomes due strictly before its booking's hold expires. */
  ghost predicate DueInTime(t: Tables) {
    forall p | p in t.payments && t.payments[p].status.PROCESSING? && t.payments[p].attempts == 0 ::
      && t.payments[p].bookingId in t.bookings
      && t.bookings[t.payments[p].bookingId].holdExpiresAt.Some?
      && t.payments[p].nextAttemptAt.Some?
      && t.payments[p].nextAttemptAt.value < t.bookings[t.payments[p].bookingId].holdExpiresAt.value
  }

  lemma StartIsDueInTime(c: Timing, t: Tables, read: Option<Booking>, r: PayRequest, now: Instant)
    requires TimingsWork(c) && DueInTime(t) && EarlierRead(t, read, r.bookingId)
    ensures DueInTime(StartPayment(t, read, r, now, LeaseMs(c)).db)
  {
    hide StartPayment;
    StartAddsOnePayment(t, read, r, now, LeaseMs(c));
    StartedRow(t, read, r, now, LeaseMs(c));
    StartLeavesBookings(t, read, r, now, LeaseMs(c));
    StartedMeans(t, read, r, now, LeaseMs(c));
  }

  lemma StartedMeans(t: Tables, read: Option<Booking>, r: PayRequest, now: Instant, after: int)
    ensures
      var o := StartPayment(t, read, r, now, after);
      o.result.Ok? && o.result.value.Started? ==> read.Some? && CanStartPayment(read.value, now)
  {
  }

  /** Rows that stay PROCESSING and unclaimed keep their due time, and bookings keep their holds. */
  lemma DueInTimeFrame(t: Tables, t': Tables)
    requires DueInTime(t) && BookingsAdvance(t.bookings, t'.bookings)
    requires forall p | p in t'.payments && t'.payments[p].status.PROCESSING? && t'.payments[p].attempts == 0 ::
      p in t.payments && t'.payments[p] == t.payments[p]
    ensures DueInTime(t')
  {
  }

  function TxnOf(s: Timed, h: Holder, how: Ending): Txn {
    match how
    case EndCharged(copy, reference, actor) => DoCharged(h.paymentId, copy, reference, actor, s.clock)
    case EndDeclined(reason, actor) => DoDeclined(h.paymentId, reason, actor, s.clock)
    case EndRetry(delayMs) => DoReschedule(h.paymentId, h.status, s.clock + delayMs)
    case EndRefund(failure) => DoRecordRefund(h.paymentId, failure, s.clock)
  }

  lemma EndedIsApplied(s: Timed, h: Holder, how: Ending)
    ensures Finished(s, h, how).db == Apply(s.db, TxnOf(s, h, how))
  {
    hide Charged, Declined, Reschedule, RecordRefund;
  }

  /** The holder's own row, once recorded, is no unclaimed PROCESSING payment. */
  lemma EndedRow(c: Timing, s: Timed, h: Holder, how: Ending)
    requires UnderLease(c, s.db.payments, h) && MayEnd(s, h, how)
    ensures
      var payments := Finished(s, h, how).db.payments;
      && payments.Keys == s.db.payments.Keys
      && (payments[h.paymentId] == s.db.payments[h.paymentId]
          || !payments[h.paymentId].status.PROCESSING? || payments[h.paymentId].attempts >= 1)
  {
    hide Confirmable, Book, SeatsOf, CompleteKeys, OpenKeysOf, Total, PaidAlready, ConfirmedResponse, NotPayable;
  }

  lemma FinishKeepsDueInTime(c: Timing, s: Timed, h: Holder, how: Ending)
    requires DueInTime(s.db) && UnderLease(c, s.db.payments, h) && MayEnd(s, h, how)
    ensures DueInTime(Finished(s, h, how).db)
  {
    hide Finished, DueInTime, Apply, BookingsAdvance;
    EndingTouchesOwnRow(s, h, how);
    EndedRow(c, s, h, how);
    EndedIsApplied(s, h, how);
    BookingsOnlyAdvance(s.db, TxnOf(s, h, how));
    DueInTimeFrame(s.db, Finished(s, h, how).db);
  }

  lemma ElsewhereKeepsDueInTime(t: Tables, x: Txn)
    requires DueInTime(t) && Plain(x)
    ensures DueInTime(Apply(t, x))
  {
    hide Apply, DueInTime, BookingsAdvance;
    ElsewhereTouchesPaidOnly(t, x);
    ElsewhereAddsNoPayment(t, x);
    BookingsOnlyAdvance(t, x);
    PlainStatus(t, x);
    DueInTimeFrame(t, Apply(t, x));
  }

  lemma ElsewhereAddsNoPayment(t: Tables, x: Txn)
    requires Plain(x)
    ensures Apply(t, x).payments.Keys == t.payments.Keys
  {
    hide Apply;
    PlainIsQuiet(t, x);
  }

  /** A payment that was SUCCEEDED is not PROCESSING afterwards. */
  lemma PlainStatus(t: Tables, x: Txn)
    ensures forall p | p in t.payments && t.payments[p].status.SUCCEEDED? ::
      p in Apply(t, x).payments && !Apply(t, x).payments[p].status.PROCESSING?
  {
    hide Apply;
    PaymentsOnlyAdvance(t, x);
  }

  lemma ClaimKeepsDueInTime(t: Tables, now: Instant, leaseMs: int, limit: nat, locked: set<Id>)
    requires DueInTime(t)
    ensures DueInTime(ClaimDue(t, now, leaseMs, limit, locked))
  {
  }

  // ---- Every run ----

  ghost predicate TimedOk(c: Timing, s: Timed) {
    Inv(s.db) && LeasesHold(c, s) && DueInTime(s.db)
  }

  lemma StepKeepsInv(c: Timing, s: Timed, x: Step)
    requires Inv(s.db) && LeasesHold(c, s) && CanStep(c, s, x)
    ensures Inv(StepOn(c, s, x).db)
  {
    hide Inv, StartPayment, ClaimDue, Apply, Finished, EarlierRead, Enabled, CopyOf;
    match x
    case Tick(_) =>
    case Begin(read, r) => StartKeepsInv(s.db, read, r, s.clock, LeaseMs(c));
    case ClaimDueNow(limit, locked) => ClaimKeepsInv(s.db, s.clock, LeaseMs(c), limit, locked);
    case Finish(h, how) => EndedKeepsInv(c, s, h, how);
    case Elsewhere(txn) => ApplyKeepsInv(s.db, txn);
  }

  lemma EndedKeepsInv(c: Timing, s: Timed, h: Holder, how: Ending)
    requires Inv(s.db) && MayEnd(s, h, how) && NeedsReconciling(h.status)
    ensures Inv(Finished(s, h, how).db)
  {
    hide Inv, Charged, Declined, Reschedule, RecordRefund, CopyOf;
    match how
    case EndCharged(copy, reference, actor) => ChargedKeepsInv(s.db, h.paymentId, copy, reference, actor, s.clock);
    case EndDeclined(reason, actor) => DeclinedKeepsInv(s.db, h.paymentId, reason, actor, s.clock);
    case EndRetry(delayMs) => RescheduleKeepsInv(s.db, h.paymentId, h.status, s.clock + delayMs);
    case EndRefund(failure) => RecordRefundKeepsInv(s.db, h.paymentId, failure, s.clock);
  }

  lemma StepKeepsDueInTime(c: Timing, s: Timed, x: Step)
    requires TimingsWork(c) && LeasesHold(c, s) && DueInTime(s.db) && CanStep(c, s, x)
    ensures DueInTime(StepOn(c, s, x).db)
  {
    hide DueInTime, StartPayment, ClaimDue, Apply, Finished, EarlierRead, Enabled, CopyOf;
    match x
    case Tick(_) =>
    case Begin(read, r) => StartIsDueInTime(c, s.db, read, r, s.clock);
    case ClaimDueNow(limit, locked) => ClaimKeepsDueInTime(s.db, s.clock, LeaseMs(c), limit, locked);
    case Finish(h, how) => FinishKeepsDueInTime(c, s, h, how);
    case Elsewhere(txn) => ElsewhereKeepsDueInTime(s.db, txn);
  }

  predicate TimedLegal(c: Timing, s: Timed, steps: seq<Step>)
    decreases |steps|
  {
    steps == [] || (CanStep(c, s, steps[0]) && TimedLegal(c, StepOn(c, s, steps[0]), steps[1..]))
  }

  function TimedRun(c: Timing, s: Timed, steps: seq<Step>): Timed
    decreases |steps|
  {
    if steps == [] then s else TimedRun(c, StepOn(c, s, steps[0]), steps[1..])
  }

  lemma {:induction false} TimedRunIsOk(c: Timing, s: Timed, steps: seq<Step>)
    requires TimingsWork(c) && TimedOk(c, s) && TimedLegal(c, s, steps)
    ensures TimedOk(c, TimedRun(c, s, steps))
    decreases |steps|
  {
    hide Inv, LeasesHold, DueInTime, CanStep, StepOn;
    if steps != [] {
      StepKeepsInv(c, s, steps[0]);
      StepKeepsLeases(c, s, steps[0]);
      StepKeepsDueInTime(c, s, steps[0]);
      TimedRunIsOk(c, StepOn(c, s, steps[0]), steps[1..]);
    }
  }

  lemma OpeningIsOk(c: Timing, clock: Instant)
    ensures TimedOk(c, Timed(clock, EMPTY, {}, 0))
  {
  }

  /**
   * With timings that work, in every reachable state: no payment
   * has two live holders, request or job, and every payment still waiting for
   * its first claim becomes due strictly before its hold expires.
   */
  lemma OneLiveHolder(c: Timing, clock: Instant, steps: seq<Step>)
    requires TimingsWork(c) && TimedLegal(c, Timed(clock, EMPTY, {}, 0), steps)
    ensures
      var s := TimedRun(c, Timed(clock, EMPTY, {}, 0), steps);
      && (forall h, k | Live(c, s, h) && Live(c, s, k) && h.paymentId == k.paymentId :: h == k)
      && DueInTime(s.db)
  {
    hide Inv, DueInTime, CanStep, StepOn, TimedRun, TimedLegal;
    OpeningIsOk(c, clock);
    TimedRunIsOk(c, Timed(clock, EMPTY, {}, 0), steps);
  }

  /** A live holder never loses the race to settle: its charge or decline always commits. */
  lemma LiveHolderNeverLoses(c: Timing, s: Timed, h: Holder, how: Ending)
    requires TimedOk(c, s) && Live(c, s, h) && MayEnd(s, h, how)
    ensures Finished(s, h, how).result.Ok?
  {
    hide Inv, CopyOf, Charged, Declined;
    assert UnderLease(c, s.db.payments, h);
    match how
    case EndCharged(copy, reference, actor) => ChargedKeepsInv(s.db, h.paymentId, copy, reference, actor, s.clock);
    case EndDeclined(reason, actor) => DeclinedKeepsInv(s.db, h.paymentId, reason, actor, s.clock);
    case _ =>
  }
}

/** What the jobs pick and what they leave: sweeps, claims, retries and recorded refunds, row by row. */
module JobAnswers {
  import opened Basics
  import opened Counting
  import opened Retries
  import opened Schema
  import opened Transactions
  import opened Invariants
  import opened ExpiryJob
  import opened EndEvents
  import opened CancelAnswers
  import opened PaymentRepository
  import opened MoneySafety

  /** (time, id) pairs in the order both jobs work in. */
  predicate Earlier(at: Instant, id: Id, at2: Instant, id2: Id) { at < at2 || (at == at2 && id < id2) }

  // ---- The sweep ----

  /** A hold at or past its deadline, whose row nobody has locked. */
  predicate Lapsed(t: Tables, b: Id, now: Instant, locked: set<Id>) {
    && b in t.bookings && b !in locked && t.bookings[b].status.HELD?
    && t.bookings[b].holdExpiresAt.Some? && t.bookings[b].holdExpiresAt.value <= now
  }

  function DeadlineOf(t: Tables, b: Id): Instant {
    if b in t.bookings && t.bookings[b].holdExpiresAt.Some? then t.bookings[b].holdExpiresAt.value else 0
  }

  /** The first lapsed holds by (deadline, id): as many as the limit allows, or all there are. */
  ghost predicate FirstLapsed(t: Tables, ids: seq<Id>, now: Instant, limit: nat, locked: set<Id>) {
    && |ids| <= limit && Distinct(ids)
    && (forall b | b in ids :: Lapsed(t, b, now, locked))
    && (forall i, j | 0 <= i < j < |ids| :: Earlier(DeadlineOf(t, ids[i]), ids[i], DeadlineOf(t, ids[j]), ids[j]))
    && (forall b: Id | Lapsed(t, b, now, locked) && b !in ids ::
          |ids| == limit && forall i | 0 <= i < |ids| :: Earlier(DeadlineOf(t, ids[i]), ids[i], DeadlineOf(t, b), b))
  }

  lemma LapsedIsDue(t: Tables, b: Id, now: Instant, locked: set<Id>)
    ensures Lapsed(t, b, now, locked) <==> MayBeSwept(t, b, now, locked)
    ensures HoldDueAt(t, b) == (DeadlineOf(t, b), b)
  {
  }

  lemma FirstDueIsFirstLapsed(t: Tables, now: Instant, limit: nat, locked: set<Id>)
    ensures FirstLapsed(t, ExpiredIds(t, now, limit, locked), now, limit, locked)
  {
    hide ExpiredIds, Lapsed, MayBeSwept, DeadlineOf, HoldDueAt, DueHolds;
    var ids := ExpiredIds(t, now, limit, locked);
    ExpiredIdsAreFirst(t, now, limit, locked);
    DueHoldsExist(t, now, limit, locked);
    forall b: Id ensures Lapsed(t, b, now, locked) <==> MayBeSwept(t, b, now, locked)
      ensures HoldDueAt(t, b) == (DeadlineOf(t, b), b)
    {
      LapsedIsDue(t, b, now, locked);
    }
    forall b: Id | Lapsed(t, b, now, locked) && b !in ids ensures |ids| == limit {
      if |ids| < limit { AllDueArePicked(t, b, now, limit, locked); }
    }
  }

  lemma AllDueArePicked(t: Tables, b: Id, now: Instant, limit: nat, locked: set<Id>)
    requires MayBeSwept(t, b, now, locked) && |ExpiredIds(t, now, limit, locked)| < limit
    ensures b in ExpiredIds(t, now, limit, locked)
  {
    var due := SortedDue(DueHolds(t, now, locked));
    assert HoldDueAt(t, b) in DueHolds(t, now, locked);
    var i :| 0 <= i < |due| && due[i] == HoldDueAt(t, b);
    assert ExpiredIds(t, now, limit, locked)[i] == b;
  }

  /** The seat belongs to a passenger of one of the bookings. */
  predicate IsSeatOfOneOf(bookings: map<Id, Booking>, ids: seq<Id>, k: SeatKey) {
    exists i | 0 <= i < |ids| :: ids[i] in bookings && IsSeatOf(bookings[ids[i]], k)
  }

  lemma SeatsOfAllAre(t: Tables, ids: seq<Id>, k: SeatKey)
    requires Inv(t) && forall i | 0 <= i < |ids| :: ids[i] in t.bookings && t.bookings[ids[i]].status.HELD?
    ensures k in SeatsOf(t.seats, Elems(ids)) <==> IsSeatOfOneOf(t.bookings, ids, k)
  {
    hide Inv, IsSeatOf;
    forall i | 0 <= i < |ids| ensures k in SeatsOf(t.seats, {ids[i]}) <==> IsSeatOf(t.bookings[ids[i]], k) {
      SeatsOfAreItsPassengers(t, ids[i], k);
    }
    if k in SeatsOf(t.seats, Elems(ids)) {
      var i :| 0 <= i < |ids| && ids[i] == t.seats[k].bookingId.value;
      assert k in SeatsOf(t.seats, {ids[i]});
    }
    if IsSeatOfOneOf(t.bookings, ids, k) {
      var i :| 0 <= i < |ids| && IsSeatOf(t.bookings[ids[i]], k);
      assert k in SeatsOf(t.seats, {ids[i]});
    }
  }

  /**
   * A sweep ends the first lapsed holds by deadline and id, as many as the
   * limit allows: they become EXPIRED, exactly their passengers' seats become
   * free, and each is told once, in that order, in the audit log and in the
   * outbox with its seats; nothing else changes.
   */
  lemma SweepLeaves(t: Tables, now: Instant, limit: nat, locked: set<Id>)
    requires Inv(t)
    ensures
      var db := ExpireBatch(t, now, limit, locked);
      exists ids: seq<Id> ::
        && FirstLapsed(t, ids, now, limit, locked)
        && (forall i | 0 <= i < |ids| :: ids[i] in t.bookings)
        && db.bookings.Keys == t.bookings.Keys
        && (forall b | b in t.bookings ::
              db.bookings[b] == if b in ids then t.bookings[b].(status := BookingStatus.EXPIRED) else t.bookings[b])
        && db.seats.Keys == t.seats.Keys
        && (forall k | k in t.seats :: db.seats[k]
              == if IsSeatOfOneOf(t.bookings, ids, k) then Seat(t.seats[k].fareClass, AVAILABLE, None) else t.seats[k])
        && Told(t, db, ids, now)
        && db.payments == t.payments && db.keys == t.keys && db.flights == t.flights && db.fares == t.fares
  {
    hide Inv, ExpiredIds, ExpireAll, FirstLapsed, IsSeatOfOneOf, SeatsOf, Reported, AuditsOf, EventsOf, Told;
    var ids, db := ExpiredIds(t, now, limit, locked), ExpireBatch(t, now, limit, locked);
    FirstDueIsFirstLapsed(t, now, limit, locked);
    DueHoldsExist(t, now, limit, locked);
    BulkIsOneByOne(t, ids, now);
    forall k | k in t.seats ensures k in SeatsOf(t.seats, Elems(ids)) <==> IsSeatOfOneOf(t.bookings, ids, k) {
      SeatsOfAllAre(t, ids, k);
    }
    SweepTells(t, now, limit, locked);
  }

  /** The `i`-th new audit entry and event are the end of hold `b`, with its seats by row and letter. */
  ghost predicate ToldOne(t: Tables, db: Tables, i: nat, b: Id, now: Instant) {
    && b in t.bookings && |t.audit| + i < |db.audit| && |t.outbox| + i < |db.outbox|
    && exists seats ::
         && InSeatOrder(seats) && NamesItsSeats(seats, t.bookings[b])
         && db.audit[|t.audit| + i] == AuditEntry(BOOKING_EXPIRED(seats), HoldExpiryJob, b, now)
         && db.outbox[|t.outbox| + i] == OutboxRow(BookingExpired(b, seats), now)
  }

  /** One audit entry and one event for each ended hold, in order, and nothing before them changed. */
  ghost predicate Told(t: Tables, db: Tables, ids: seq<Id>, now: Instant) {
    && |db.audit| == |t.audit| + |ids| && db.audit[..|t.audit|] == t.audit
    && |db.outbox| == |t.outbox| + |ids| && db.outbox[..|t.outbox|] == t.outbox
    && forall i | 0 <= i < |ids| :: ToldOne(t, db, i, ids[i], now)
  }

  lemma HoldIsTold(t: Tables, db: Tables, ids: seq<Id>, i: nat, now: Instant)
    requires Inv(t) && i < |ids| && ids[i] in t.bookings && t.bookings[ids[i]].status.HELD?
    requires db.audit == t.audit + AuditsOf(Reported(t.seats, ids), now)
    requires db.outbox == t.outbox + EventsOf(Reported(t.seats, ids), now)
    ensures ToldOne(t, db, i, ids[i], now)
  {
    hide Inv, SeatCodes, InSeatOrder, NamesItsSeats, AuditsOf, EventsOf, Reported;
    CodesInOrder(t, ids[i]);
    var told := Reported(t.seats, ids);
    assert db.audit[|t.audit| + i] == AuditsOf(told, now)[i] == AuditOf(told[i], now);
    assert db.outbox[|t.outbox| + i] == EventsOf(told, now)[i] == EventOf(told[i], now);
  }

  lemma SweepTells(t: Tables, now: Instant, limit: nat, locked: set<Id>)
    requires Inv(t)
    ensures Told(t, ExpireBatch(t, now, limit, locked), ExpiredIds(t, now, limit, locked), now)
  {
    hide Inv, ExpiredIds, ExpireAll, SeatsOf, Release, AllExpired, ToldOne, AuditsOf, EventsOf, Reported;
    var ids := ExpiredIds(t, now, limit, locked);
    DueHoldsExist(t, now, limit, locked);
    BulkIsOneByOne(t, ids, now);
    var db := ExpireBatch(t, now, limit, locked);
    forall i | 0 <= i < |ids| ensures ToldOne(t, db, i, ids[i], now) {
      HoldIsTold(t, db, ids, i, now);
    }
  }

  // ---- The claim ----

  /** A payment waiting for its charge or its refund whose time has come, and whose row nobody has locked. */
  predicate Waiting(t: Tables, p: Id, now: Instant, locked: set<Id>) {
    && p in t.payments && p !in locked
    && (t.payments[p].status.PROCESSING? || t.payments[p].status.REFUND_PENDING?)
    && t.payments[p].nextAttemptAt.Some? && t.payments[p].nextAttemptAt.value <= now
  }

  function TimeOf(t: Tables, p: Id): Instant {
    if p in t.payments && t.payments[p].nextAttemptAt.Some? then t.payments[p].nextAttemptAt.value else 0
  }

  /** The first waiting payments by (time, id): as many as the limit allows, or all there are. */
  ghost predicate FirstWaiting(t: Tables, picked: set<Id>, now: Instant, limit: nat, locked: set<Id>) {
    && |picked| <= limit && (forall p | p in picked :: Waiting(t, p, now, locked))
    && (forall q: Id | Waiting(t, q, now, locked) && q !in picked ::
          |picked| == limit && forall p | p in picked :: Earlier(TimeOf(t, p), p, TimeOf(t, q), q))
  }

  lemma WaitingIsDue(t: Tables, p: Id, now: Instant, locked: set<Id>)
    ensures Waiting(t, p, now, locked) <==> MayBeClaimed(t, p, now, locked)
    ensures ClaimAt(t, p) == (TimeOf(t, p), p)
  {
  }

  lemma AllWaitingArePicked(t: Tables, p: Id, now: Instant, limit: nat, locked: set<Id>)
    requires MayBeClaimed(t, p, now, locked) && |ClaimedIds(t, now, limit, locked)| < limit
    ensures p in ClaimedIds(t, now, limit, locked)
  {
    var due := SortedDue(DuePayments(t, now, locked));
    assert ClaimAt(t, p) in DuePayments(t, now, locked);
    var i :| 0 <= i < |due| && due[i] == ClaimAt(t, p);
    assert ClaimedIds(t, now, limit, locked)[i] == p;
  }

  lemma ClaimedOnce(t: Tables, now: Instant, limit: nat, locked: set<Id>)
    ensures Distinct(ClaimedIds(t, now, limit, locked))
    ensures |Elems(ClaimedIds(t, now, limit, locked))| == |ClaimedIds(t, now, limit, locked)|
  {
    var due := SortedDue(DuePayments(t, now, locked));
    assert forall i | 0 <= i < |due| :: due[i] in DuePayments(t, now, locked);
    forall i, j | 0 <= i < j < |due| ensures due[i].1 != due[j].1 {
      assert DueLess(due[i], due[j]);
    }
    DistinctIffFull(ClaimedIds(t, now, limit, locked));
  }

  /**
   * A claim takes the first waiting payments by time and id, as many as the
   * limit allows: each is leased for `leaseMs` and counts one more attempt,
   * and nothing else changes.
   */
  lemma ClaimLeaves(t: Tables, now: Instant, leaseMs: int, limit: nat, locked: set<Id>)
    ensures
      var picked, db := Elems(ClaimedIds(t, now, limit, locked)), ClaimDue(t, now, leaseMs, limit, locked);
      && FirstWaiting(t, picked, now, limit, locked)
      && db == t.(payments := db.payments) && db.payments.Keys == t.payments.Keys
      && (forall p | p in t.payments :: db.payments[p]
            == if p in picked then
                 t.payments[p].(nextAttemptAt := Some(now + leaseMs), attempts := t.payments[p].attempts + 1)
               else t.payments[p])
  {
    hide ClaimedIds, Waiting, MayBeClaimed, TimeOf, ClaimAt, DuePayments;
    var ids := ClaimedIds(t, now, limit, locked);
    ClaimedAreFirst(t, now, limit, locked);
    ClaimedOnce(t, now, limit, locked);
    forall p: Id ensures Waiting(t, p, now, locked) <==> MayBeClaimed(t, p, now, locked)
      ensures ClaimAt(t, p) == (TimeOf(t, p), p)
    {
      WaitingIsDue(t, p, now, locked);
    }
    forall q: Id | Waiting(t, q, now, locked) && q !in ids ensures |ids| == limit {
      if |ids| < limit { AllWaitingArePicked(t, q, now, limit, locked); }
    }
  }

  // ---- What an answer does to the row ----

  /** How long after its attempt's clock a refund is tried again. */
  function RefundPauseMs(attempt: nat): int {
    if attempt <= 1 then 60000 else if attempt == 2 then 120000 else if attempt == 3 then 240000 else 480000
  }

  /** An unknown charge is put off and stays PROCESSING: 1, 2, 4, 8 and then always 10 minutes. */
  lemma ChargeRetryLeaves(t: Tables, task: Task, now: Instant)
    requires 1 <= task.payment.attempts
    ensures
      var o, id, n := ChargeRetried(t, task, now), task.id, task.payment.attempts;
      if !HasStatus(t, id, PROCESSING) then o.result.Err? && o.db == t
      else
        && o.result.Ok?
        && o.db == t.(payments := t.payments[id :=
             t.payments[id].(nextAttemptAt := Some(now + if n <= 4 then RefundPauseMs(n) else 600000))])
  {
    FirstDelays();
    if task.payment.attempts > 4 { PowersGrow(4, task.payment.attempts - 1); }
  }

  /**
   * A recorded refund answer: money back ends the payment REFUNDED; a final
   * refusal, or anything else at the fifth attempt, ends it REFUND_FAILED for
   * the reason answered, "timeout" when nothing was; any other answer puts it
   * off by its attempt's pause. A payment no longer REFUND_PENDING throws.
   */
  lemma RefundAnswerLeaves(t: Tables, task: Task, answer: RefundAnswer, now: Instant)
    requires 1 <= task.payment.attempts
    ensures
      var o, id := RefundSettled(t, task, answer, now), task.id;
      if !HasStatus(t, id, REFUND_PENDING) then o.result.Err? && o.db == t
      else
        var p, reason := t.payments[id], if answer.Failed? then answer.reason else "timeout";
        var over := p.(updatedAt := now, token := None, nextAttemptAt := None, attempts := 0);
        && o.result.Ok?
        && o.db ==
             if answer.Refunded? then
               t.(payments := t.payments[id := over.(status := REFUNDED)],
                  audit := t.audit + [AuditEntry(PAYMENT_REFUNDED, ReconciliationJob, id, now)])
             else if task.payment.attempts >= 5 || (answer.Failed? && !answer.retryable) then
               t.(payments := t.payments[id := over.(status := REFUND_FAILED, failureReason := Some(reason))],
                  audit := t.audit + [AuditEntry(PAYMENT_REFUND_FAILED(reason), ReconciliationJob, id, now)])
             else
               t.(payments := t.payments[id :=
                    p.(nextAttemptAt := Some(now + RefundPauseMs(task.payment.attempts)))])
  {
    hide RetryDelayMs;
    FirstDelays();
  }
}

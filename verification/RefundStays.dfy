/**
 * A payment's stay in REFUND_PENDING, read off any run of the protocol: how
 * often it can be tried again, how long that takes, and how it must end.
 */
module RefundStays {
  import opened Basics
  import opened Counting
  import opened Retries
  import opened Schema
  import opened Transactions
  import opened Invariants
  import opened Runs
  import opened Histories
  import opened MoneySafety
  import opened Theorems

  // ---- A stay on its own ----

  /**
   * How often the payment was claimed, which attempts are still out, which
   * were answered with a retry and how long those retries wait together.
   * Holders may be late, overlap or never answer.
   */
  datatype Stay = Stay(attempts: nat, out: set<Attempt>, retried: set<Attempt>, waitedMs: int, ended: Option<RefundVerdict>)

  datatype StayStep = ClaimAgain | Answered(attempt: Attempt, answer: RefundAnswer)

  predicate Arrived(y: Stay) { y == Stay(0, {}, {}, 0, None) }

  predicate StayCan(y: Stay, x: StayStep) {
    y.ended.None? && (x.Answered? ==> x.attempt in y.out)
  }

  function StayNext(y: Stay, x: StayStep): Stay {
    match x
    case ClaimAgain => y.(attempts := y.attempts + 1, out := y.out + {y.attempts + 1})
    case Answered(attempt, answer) =>
      var verdict := Judge(attempt, answer);
      if verdict.TryAgain? then
        y.(out := y.out - {attempt}, retried := y.retried + {attempt}, waitedMs := y.waitedMs + verdict.delayMs)
      else y.(out := y.out - {attempt}, ended := Some(verdict))
  }

  predicate StayLegal(y: Stay, xs: seq<StayStep>)
    decreases |xs|
  {
    xs == [] || (StayCan(y, xs[0]) && StayLegal(StayNext(y, xs[0]), xs[1..]))
  }

  function StayRun(y: Stay, xs: seq<StayStep>): Stay
    decreases |xs|
  {
    if xs == [] then y else StayRun(StayNext(y, xs[0]), xs[1..])
  }

  lemma {:induction false} StaysChain(y: Stay, xs: seq<StayStep>, ys: seq<StayStep>)
    requires StayLegal(y, xs) && StayLegal(StayRun(y, xs), ys)
    ensures StayLegal(y, xs + ys) && StayRun(y, xs + ys) == StayRun(StayRun(y, xs), ys)
    decreases |xs|
  {
    if xs == [] {
      assert xs + ys == ys;
    } else {
      StaysChain(StayNext(y, xs[0]), xs[1..], ys);
      assert (xs + ys)[1..] == xs[1..] + ys;
    }
  }

  function DelayIf(retried: set<Attempt>, attempt: Attempt): int {
    if attempt in retried then RetryDelayMs(attempt) else 0
  }

  /** Each attempt is out once, and only attempts 1 to 4 are ever retried. */
  ghost predicate StayOk(y: Stay) {
    && (forall a | a in y.out :: a <= y.attempts && a !in y.retried)
    && (forall a | a in y.retried :: a < MAX_REFUND_ATTEMPTS && a <= y.attempts)
    && y.waitedMs == DelayIf(y.retried, 1) + DelayIf(y.retried, 2) + DelayIf(y.retried, 3) + DelayIf(y.retried, 4)
    && (y.ended.Some? ==> !y.ended.value.TryAgain?)
  }

  lemma ArrivedIsOk(y: Stay)
    requires Arrived(y)
    ensures StayOk(y)
  {
  }

  lemma StayNextIsOk(y: Stay, x: StayStep)
    requires StayOk(y) && StayCan(y, x)
    ensures StayOk(StayNext(y, x))
  {
  }

  lemma StayIsBounded(y: Stay)
    requires StayOk(y)
    ensures |y.retried| <= 4
    ensures 0 <= y.waitedMs <= 15 * MINUTE_MS
  {
    hide PowerOfTwo, RetryDelayMs;
    FirstDelays();
    var four: set<Attempt> := {1, 2, 3, 4};
    SubsetSizes(y.retried, four);
  }

  // ---- The stay in a run of the protocol ----

  /** What an action means to payment `p`'s stay: only a claim and a recorded answer do. */
  function StayStepsOf(s: System, a: Action, p: Id): seq<StayStep> {
    if !HasStatus(s.db, p, REFUND_PENDING) then []
    else if a.Claim? && p in ClaimedIds(s.db, a.now, a.limit, a.locked) then [ClaimAgain]
    else if a.SettleRefund? && a.task.id == p && 1 <= a.task.payment.attempts then
      [StayStep.Answered(a.task.payment.attempts, a.answer)]
    else []
  }

  function StayOf(s: System, run: seq<Action>, p: Id): seq<StayStep>
    decreases |run|
  {
    if run == [] then [] else StayStepsOf(s, run[0], p) + StayOf(Next(s, run[0]), run[1..], p)
  }

  function Callers(s: System, p: Id): set<Task> { set task | task in s.refunding && task.id == p }

  /** The attempts out are those of the calls being made, one call each. */
  ghost predicate CallsAreOut(s: System, p: Id, y: Stay) {
    && (forall task | task in Callers(s, p) :: 1 <= task.payment.attempts && task.payment.attempts in y.out)
    && (forall a, b | a in Callers(s, p) && b in Callers(s, p) && a.payment.attempts == b.payment.attempts :: a == b)
  }

  /** The stay says what the row and the job's calls say. */
  ghost predicate Follows(s: System, p: Id, y: Stay) {
    if p !in s.db.payments || !InRefund(s.db.payments[p].status) then Arrived(y) && Callers(s, p) == {}
    else
      && StayOk(y)
      && (s.db.payments[p].status.REFUND_PENDING? ==>
            y.ended.None? && y.attempts == s.db.payments[p].attempts && CallsAreOut(s, p, y))
      && (s.db.payments[p].status.REFUNDED? ==> y.ended == Some(Done))
      && (s.db.payments[p].status.REFUND_FAILED? ==> y.ended.Some? && y.ended.value.GiveUp?)
  }

  // ---- What a transaction does to one row ----

  /**
   * A row arrives in REFUND_PENDING with no attempt counted and due at once;
   * there only a claim counts one more and leases it, and only a recorded
   * refund ends the stay.
   */
  predicate RowKeepsCount(p: Payment, q: Payment, x: Txn) {
    && (q.status.REFUND_PENDING? ==>
          if p.status.REFUND_PENDING? then
            q.attempts == p.attempts
            || (x.DoClaim? && q.attempts == p.attempts + 1 && q.nextAttemptAt == Some(x.now + x.leaseMs))
          else (x.DoCharged? || x.DoCancel?) && q.attempts == 0 && q.nextAttemptAt == Some(x.now))
    && (p.status.REFUND_PENDING? && !q.status.REFUND_PENDING? ==> x.DoRecordRefund?)
  }

  lemma StayFollowsTheRow(t: Tables, x: Txn, id: Id)
    requires id in t.payments
    ensures id in Apply(t, x).payments && RowKeepsCount(t.payments[id], Apply(t, x).payments[id], x)
  {
    hide CreateBooking, Cancel, ChangeSeat, ExpireBatch, Charged, Declined, StartPayment, ClaimedIds;
    match x
    case DoCreate(r, now) => CreateLeavesPayments(t, r, now);
    case DoCancel(b, scope, actor, now) => CancelledRow(t, b, scope, actor, now, id);
    case DoChangeSeat(b, position, target, scope, actor, now) =>
      ChangeSeatLeavesPayments(t, b, position, target, scope, actor, now);
    case DoExpire(now, limit, locked) => ExpiryLeavesPayments(t, now, limit, locked);
    case DoCharged(p, copy, reference, actor, now) => ChargedRow(t, p, copy, reference, actor, now, id);
    case DoDeclined(p, reason, actor, now) => DeclinedRow(t, p, reason, actor, now, id);
    case DoStart(read, r, now, after) => StartAddsOnePayment(t, read, r, now, after);
    case _ =>
  }

  lemma CancelledRow(t: Tables, b: Id, scope: Scope, actor: Id, now: Instant, id: Id)
    requires id in t.payments
    ensures id in Cancel(t, b, scope, actor, now).db.payments
    ensures RowKeepsCount(t.payments[id], Cancel(t, b, scope, actor, now).db.payments[id], DoCancel(b, scope, actor, now))
  {
    hide SeatCodes, RefundOf, CancelAudit, Release, Cancellable;
  }

  lemma ChargedRow(t: Tables, p: Id, copy: Payment, reference: string, actor: Actor, now: Instant, id: Id)
    requires id in t.payments
    ensures id in Charged(t, p, copy, reference, actor, now).db.payments
    ensures RowKeepsCount(t.payments[id], Charged(t, p, copy, reference, actor, now).db.payments[id],
                      DoCharged(p, copy, reference, actor, now))
  {
    hide Confirmable, Book, SeatsOf, CompleteKeys, OpenKeysOf, Total, PaidAlready, ConfirmedResponse, NotPayable;
  }

  lemma DeclinedRow(t: Tables, p: Id, reason: string, actor: Actor, now: Instant, id: Id)
    requires id in t.payments
    ensures id in Declined(t, p, reason, actor, now).db.payments
    ensures RowKeepsCount(t.payments[id], Declined(t, p, reason, actor, now).db.payments[id], DoDeclined(p, reason, actor, now))
  {
    hide CompleteKeys, OpenKeysOf;
  }

  /** A payment appears PROCESSING. */
  lemma NewRowsProcess(t: Tables, x: Txn, id: Id)
    requires id !in t.payments && id in Apply(t, x).payments
    ensures Apply(t, x).payments[id].status.PROCESSING?
  {
    hide CreateBooking, Cancel, ChangeSeat, ExpireBatch, Charged, Declined, StartPayment, ClaimedIds;
    match x
    case DoCreate(r, now) => CreateLeavesPayments(t, r, now);
    case DoCancel(b, scope, actor, now) => CancelAddsNoPayment(t, b, scope, actor, now);
    case DoChangeSeat(b, position, target, scope, actor, now) =>
      ChangeSeatLeavesPayments(t, b, position, target, scope, actor, now);
    case DoExpire(now, limit, locked) => ExpiryLeavesPayments(t, now, limit, locked);
    case DoCharged(p, copy, reference, actor, now) => ChargedMovesOneRow(t, p, copy, reference, actor, now);
    case DoDeclined(p, reason, actor, now) => DeclinedAddsNoPayment(t, p, reason, actor, now);
    case DoStart(read, r, now, after) => StartAddsOnePayment(t, read, r, now, after);
    case _ =>
  }

  lemma CancelAddsNoPayment(t: Tables, b: Id, scope: Scope, actor: Id, now: Instant)
    ensures Cancel(t, b, scope, actor, now).db.payments.Keys == t.payments.Keys
  {
    hide SeatCodes, RefundOf, CancelAudit, Release, Cancellable;
  }

  lemma DeclinedAddsNoPayment(t: Tables, p: Id, reason: string, actor: Actor, now: Instant)
    ensures Declined(t, p, reason, actor, now).db.payments.Keys == t.payments.Keys
  {
    hide CompleteKeys, OpenKeysOf;
  }

  // ---- Every step of the protocol is a step of the stay ----

  /** Where payment `p` was and where a transaction that is no claim and no recorded refund leaves it. */
  ghost predicate RowMayMove(t: Tables, t': Tables, p: Id) {
    if p !in t.payments then p in t'.payments ==> t'.payments[p].status.PROCESSING?
    else
      && p in t'.payments && PaymentMay(t.payments[p].status, t'.payments[p].status)
      && (t.payments[p].status.REFUND_PENDING? ==>
            t'.payments[p].status.REFUND_PENDING? && t'.payments[p].attempts == t.payments[p].attempts)
      && (!t.payments[p].status.REFUND_PENDING? && t'.payments[p].status.REFUND_PENDING? ==> t'.payments[p].attempts == 0)
  }

  lemma OtherTxnsMoveOnce(t: Tables, x: Txn, p: Id)
    requires !x.DoClaim? && !x.DoRecordRefund?
    ensures RowMayMove(t, Apply(t, x), p)
  {
    hide Apply;
    if p in t.payments {
      StayFollowsTheRow(t, x, p);
      PaymentsOnlyAdvance(t, x);
    } else if p in Apply(t, x).payments {
      NewRowsProcess(t, x, p);
    }
  }

  lemma SameCallersAreOut(s: System, s': System, p: Id, y: Stay)
    requires CallsAreOut(s, p, y) && Callers(s', p) == Callers(s, p)
    ensures CallsAreOut(s', p, y)
  {
    hide Callers;
  }

  lemma NobodyCalls(s: System, p: Id, y: Stay)
    requires Callers(s, p) == {}
    ensures CallsAreOut(s, p, y)
  {
    hide Callers;
  }

  lemma MovedRowFollows(s: System, s': System, p: Id, y: Stay)
    requires Follows(s, p, y) && RowMayMove(s.db, s'.db, p) && Callers(s', p) == Callers(s, p)
    ensures Follows(s', p, y)
  {
    hide Callers, CallsAreOut, StayOk;
    if p in s.db.payments && InRefund(s.db.payments[p].status) {
      if CallsAreOut(s, p, y) { SameCallersAreOut(s, s', p, y); }
    } else {
      ArrivedIsOk(y);
      NobodyCalls(s', p, y);
    }
  }

  lemma OtherActionsFollow(s: System, a: Action, p: Id, y: Stay)
    requires Can(s, a) && Follows(s, p, y) && !a.Claim? && !a.SettleRefund?
    ensures Follows(Next(s, a), p, y) && StayStepsOf(s, a, p) == []
  {
    hide Follows, Apply, RowMayMove;
    NextCommits(s, a);
    OtherCallersStay(s, a, p);
    if CommitOf(a).Some? {
      OtherTxnsMoveOnce(s.db, CommitOf(a).value, p);
    } else {
      StillRowMoves(s.db, p);
    }
    MovedRowFollows(s, Next(s, a), p, y);
  }

  lemma StillRowMoves(t: Tables, p: Id)
    ensures RowMayMove(t, t, p)
  {
  }

  lemma OtherCallersStay(s: System, a: Action, p: Id)
    requires Can(s, a) && !a.Claim? && !a.SettleRefund?
    ensures Callers(Next(s, a), p) == Callers(s, p)
    ensures CommitOf(a).Some? ==> !CommitOf(a).value.DoClaim? && !CommitOf(a).value.DoRecordRefund?
  {
    hide Apply, Enabled, StartPayment, Charged, Declined, ChargeRetried, Charge, GiveBack, RefundMay;
  }

  /** A claim of a pending refund sends out exactly one more call, with the next attempt. */
  lemma ClaimAddsOneCaller(s: System, now: Instant, leaseMs: int, limit: nat, locked: set<Id>, p: Id)
    ensures
      var s' := Next(s, Claim(now, leaseMs, limit, locked));
      if p in ClaimedIds(s.db, now, limit, locked) && HasStatus(s.db, p, REFUND_PENDING) then
        && HasStatus(s'.db, p, REFUND_PENDING)
        && s'.db.payments[p].attempts == s.db.payments[p].attempts + 1
        && Callers(s', p) == Callers(s, p) + {Task(p, s'.db.payments[p])}
      else
        && Callers(s', p) == Callers(s, p)
        && s'.db.payments.Keys == s.db.payments.Keys
        && (p in s.db.payments ==> s'.db.payments[p].status == s.db.payments[p].status)
        && (HasStatus(s.db, p, REFUND_PENDING) ==> s'.db.payments[p] == s.db.payments[p])
  {
    hide ClaimedIds;
  }

  lemma ClaimFollows(s: System, a: Action, p: Id, y: Stay)
    requires Follows(s, p, y) && a.Claim?
    ensures StayLegal(y, StayStepsOf(s, a, p)) && Follows(Next(s, a), p, StayRun(y, StayStepsOf(s, a, p)))
  {
    hide ClaimedIds, Callers, Next;
    ClaimAddsOneCaller(s, a.now, a.leaseMs, a.limit, a.locked, p);
    if p in ClaimedIds(s.db, a.now, a.limit, a.locked) && HasStatus(s.db, p, REFUND_PENDING) {
      SingleStep(y, ClaimAgain);
      StayNextIsOk(y, ClaimAgain);
    }
  }

  lemma SingleStep(y: Stay, x: StayStep)
    requires StayCan(y, x)
    ensures StayLegal(y, [x]) && StayRun(y, [x]) == StayNext(y, x)
  {
    assert StayLegal(StayNext(y, x), [x][1..]);
  }

  lemma SettleNext(s: System, task: Task, answer: RefundAnswer, now: Instant)
    requires 1 <= task.payment.attempts
    ensures
      Next(s, SettleRefund(task, answer, now))
      == s.(db := RefundSettled(s.db, task, answer, now).db, refunding := s.refunding - {task})
  {
    hide RefundSettled;
  }

  /** The row after a recorded answer, as the judgement says. */
  lemma SettledRow(s: System, task: Task, answer: RefundAnswer, now: Instant, p: Id)
    requires 1 <= task.payment.attempts
    ensures
      var s' := Next(s, SettleRefund(task, answer, now));
      var verdict := Judge(task.payment.attempts, answer);
      && s'.db.payments.Keys == s.db.payments.Keys
      && Callers(s', p) == Callers(s, p) - {task}
      && (p in s.db.payments ==>
            if p != task.id || !HasStatus(s.db, p, REFUND_PENDING) then s'.db.payments[p] == s.db.payments[p]
            else
              && (verdict.Done? ==> s'.db.payments[p].status.REFUNDED?)
              && (verdict.GiveUp? ==> s'.db.payments[p].status.REFUND_FAILED?)
              && (verdict.TryAgain? ==>
                    s'.db.payments[p] == s.db.payments[p].(nextAttemptAt := Some(now + verdict.delayMs))))
  {
    hide Next, RetryDelayMs;
    SettleNext(s, task, answer, now);
  }

  lemma SettleFollows(s: System, a: Action, p: Id, y: Stay)
    requires Can(s, a) && Follows(s, p, y) && a.SettleRefund? && 1 <= a.task.payment.attempts
    ensures StayLegal(y, StayStepsOf(s, a, p)) && Follows(Next(s, a), p, StayRun(y, StayStepsOf(s, a, p)))
  {
    hide Next, RetryDelayMs;
    SettledRow(s, a.task, a.answer, a.now, p);
    if a.task.id == p && HasStatus(s.db, p, REFUND_PENDING) {
      var x := StayStep.Answered(a.task.payment.attempts, a.answer);
      assert a.task in Callers(s, p);
      SingleStep(y, x);
      StayNextIsOk(y, x);
      AnsweredLeaves(s, a, p, y);
    }
  }

  lemma AnsweredLeaves(s: System, a: Action, p: Id, y: Stay)
    requires a.SettleRefund? && a.task in Callers(s, p) && CallsAreOut(s, p, y) && 1 <= a.task.payment.attempts
    requires Callers(Next(s, a), p) == Callers(s, p) - {a.task}
    ensures CallsAreOut(Next(s, a), p, y.(out := y.out - {a.task.payment.attempts}))
  {
    hide Next;
  }

  lemma NextFollows(s: System, a: Action, p: Id, y: Stay)
    requires Safe(s) && Can(s, a) && Follows(s, p, y)
    ensures StayLegal(y, StayStepsOf(s, a, p)) && Follows(Next(s, a), p, StayRun(y, StayStepsOf(s, a, p)))
  {
    hide Follows, Next, StayStepsOf, Inv, Ledger, RefundCopy, Copies;
    if a.Claim? {
      ClaimFollows(s, a, p, y);
    } else if a.SettleRefund? {
      SettleFollows(s, a, p, y);
    } else {
      OtherActionsFollow(s, a, p, y);
    }
  }

  lemma {:induction false} RunFollows(s: System, run: seq<Action>, p: Id, y: Stay)
    requires Safe(s) && LegalRun(s, run) && Follows(s, p, y)
    ensures StayLegal(y, StayOf(s, run, p)) && Follows(RunAll(s, run), p, StayRun(y, StayOf(s, run, p)))
    decreases |run|
  {
    hide Safe, Follows, Can, Next, StayStepsOf;
    if run != [] {
      var xs := StayStepsOf(s, run[0], p);
      NextFollows(s, run[0], p, y);
      NextKeepsSafe(s, run[0]);
      RunFollows(Next(s, run[0]), run[1..], p, StayRun(y, xs));
      StaysChain(y, xs, StayOf(Next(s, run[0]), run[1..], p));
    }
  }

  lemma StartFollows(p: Id, y: Stay)
    requires Arrived(y)
    ensures Safe(START) && Follows(START, p, y)
  {
    EmptyInv();
  }

  /**
   * Over every run of the protocol a payment's claims and recorded answers
   * are one legal stay, and the row's status says how that stay stands.
   */
  lemma RunsProjectToStays(run: seq<Action>, p: Id, y: Stay)
    requires LegalRun(START, run) && Arrived(y)
    ensures StayLegal(y, StayOf(START, run, p))
    ensures
      var t, end := RunAll(START, run).db, StayRun(y, StayOf(START, run, p));
      && (HasStatus(t, p, REFUND_PENDING) ==> end.ended.None? && end.attempts == t.payments[p].attempts)
      && (HasStatus(t, p, REFUNDED) ==> end.ended == Some(Done))
      && (HasStatus(t, p, REFUND_FAILED) ==> end.ended.Some? && end.ended.value.GiveUp?)
  {
    hide RunAll, LegalRun, Safe, StayLegal, StayRun, StayOf, StayOk, CallsAreOut, Callers;
    StartFollows(p, y);
    RunFollows(START, run, p, y);
  }

  // ---- How long, and how it ends ----

  /** What a recorded retry of `p` writes: how long after its clock the row is due again. */
  function DelaysOf(s: System, a: Action, p: Id): seq<int> {
    if a.SettleRefund? && a.task.id == p && HasStatus(s.db, p, REFUND_PENDING)
       && HasStatus(Next(s, a).db, p, REFUND_PENDING) && Next(s, a).db.payments[p].nextAttemptAt.Some?
    then [Next(s, a).db.payments[p].nextAttemptAt.value - a.now]
    else []
  }

  function RetryDelays(s: System, run: seq<Action>, p: Id): seq<int>
    decreases |run|
  {
    if run == [] then [] else DelaysOf(s, run[0], p) + RetryDelays(Next(s, run[0]), run[1..], p)
  }

  function Sum(xs: seq<int>): int { if xs == [] then 0 else xs[0] + Sum(xs[1..]) }

  lemma {:induction false} SumOfBoth(xs: seq<int>, ys: seq<int>)
    ensures Sum(xs + ys) == Sum(xs) + Sum(ys)
  {
    if xs == [] {
      assert xs + ys == ys;
    } else {
      SumOfBoth(xs[1..], ys);
      assert (xs + ys)[1..] == xs[1..] + ys;
    }
  }

  /** `delays` are the retries between two points of a stay. */
  ghost predicate Between(y: Stay, delays: seq<int>, end: Stay) {
    |end.retried| == |y.retried| + |delays| && end.waitedMs == y.waitedMs + Sum(delays)
  }

  lemma AnswerCountsOnce(y: Stay, attempt: Attempt, answer: RefundAnswer)
    requires StayOk(y) && StayCan(y, StayStep.Answered(attempt, answer))
    ensures
      var verdict := Judge(attempt, answer);
      Between(y, if verdict.TryAgain? then [verdict.delayMs] else [], StayNext(y, StayStep.Answered(attempt, answer)))
  {
    hide RetryDelayMs;
    assert Sum([RetryDelayMs(attempt)]) == RetryDelayMs(attempt);
  }

  lemma NextCountsRetries(s: System, a: Action, p: Id, y: Stay)
    requires Safe(s) && Can(s, a) && Follows(s, p, y)
    ensures Between(y, DelaysOf(s, a, p), StayRun(y, StayStepsOf(s, a, p)))
  {
    hide Inv, Ledger, RefundCopy, Copies, Next, Judge, ClaimedIds, StayOk;
    if a.SettleRefund? && a.task.id == p && HasStatus(s.db, p, REFUND_PENDING) {
      SettledRow(s, a.task, a.answer, a.now, p);
      assert a.task in Callers(s, p);
      SingleStep(y, StayStep.Answered(a.task.payment.attempts, a.answer));
      AnswerCountsOnce(y, a.task.payment.attempts, a.answer);
    } else if StayStepsOf(s, a, p) != [] {
      SingleStep(y, ClaimAgain);
    }
  }

  lemma {:induction false} RunCountsRetries(s: System, run: seq<Action>, p: Id, y: Stay)
    requires Safe(s) && LegalRun(s, run) && Follows(s, p, y)
    ensures Between(y, RetryDelays(s, run, p), StayRun(y, StayOf(s, run, p)))
    decreases |run|
  {
    hide Safe, Follows, Can, Next, StayStepsOf, DelaysOf;
    if run != [] {
      var s1 := Next(s, run[0]);
      var xs := StayStepsOf(s, run[0], p);
      NextFollows(s, run[0], p, y);
      NextKeepsSafe(s, run[0]);
      NextCountsRetries(s, run[0], p, y);
      RunFollows(s1, run[1..], p, StayRun(y, xs));
      RunCountsRetries(s1, run[1..], p, StayRun(y, xs));
      StaysChain(y, xs, StayOf(s1, run[1..], p));
      SumOfBoth(DelaysOf(s, run[0], p), RetryDelays(s1, run[1..], p));
    }
  }

  lemma FollowedIsOk(s: System, p: Id, y: Stay)
    requires Follows(s, p, y)
    ensures StayOk(y)
  {
    if Arrived(y) { ArrivedIsOk(y); }
  }

  /**
   * In every run of requests, jobs, lost and late answers: a payment's refund
   * is put off at most four times, and by at most 15 minutes together.
   */
  lemma RefundRetriesAreBounded(run: seq<Action>, p: Id)
    requires LegalRun(START, run)
    ensures |RetryDelays(START, run, p)| <= 4
    ensures 0 <= Sum(RetryDelays(START, run, p)) <= 15 * MINUTE_MS
  {
    hide RunAll, LegalRun, Safe, StayLegal, StayRun, StayOf, StayOk, Follows, RetryDelays, Sum;
    var y := Stay(0, {}, {}, 0, None);
    StartFollows(p, y);
    RunFollows(START, run, p, y);
    RunCountsRetries(START, run, p, y);
    FollowedIsOk(RunAll(START, run), p, StayRun(y, StayOf(START, run, p)));
    StayIsBounded(StayRun(y, StayOf(START, run, p)));
  }

  lemma {:induction false} OverPaymentsStay(s: System, later: seq<Action>, p: Id)
    requires HasStatus(s.db, p, REFUNDED) || HasStatus(s.db, p, REFUND_FAILED)
    ensures p in s.db.payments && HasStatus(RunAll(s, later).db, p, s.db.payments[p].status)
    decreases |later|
  {
    hide Next, Apply, CommitOf;
    if later != [] {
      NextCommits(s, later[0]);
      if CommitOf(later[0]).Some? {
        PaymentsOnlyAdvance(s.db, CommitOf(later[0]).value);
      }
      OverPaymentsStay(Next(s, later[0]), later[1..], p);
    }
  }

  predicate EndsUnrefunded(attempt: nat, answer: RefundAnswer) {
    attempt >= MAX_REFUND_ATTEMPTS || (answer.Failed? && !answer.retryable)
  }

  /**
   * A refund that is not retried is over, whatever anybody does later:
   * REFUNDED when the money went back, REFUND_FAILED when the answer was
   * final or anything else was answered to attempt five or later.
   */
  lemma FifthAnswerIsLast(s: System, task: Task, answer: RefundAnswer, now: Instant, later: seq<Action>)
    requires 1 <= task.payment.attempts && HasStatus(s.db, task.id, REFUND_PENDING)
    ensures
      var t := RunAll(Next(s, SettleRefund(task, answer, now)), later).db;
      && (answer.Refunded? ==> HasStatus(t, task.id, REFUNDED))
      && (!answer.Refunded? && EndsUnrefunded(task.payment.attempts, answer) ==> HasStatus(t, task.id, REFUND_FAILED))
  {
    hide Next, RunAll, RetryDelayMs;
    var s1 := Next(s, SettleRefund(task, answer, now));
    SettledRow(s, task, answer, now, task.id);
    if HasStatus(s1.db, task.id, REFUNDED) || HasStatus(s1.db, task.id, REFUND_FAILED) {
      OverPaymentsStay(s1, later, task.id);
    }
  }

  /** Any other answer puts it off by exactly the delay of its attempt. */
  lemma RetryWaitsItsDelay(s: System, task: Task, answer: RefundAnswer, now: Instant)
    requires 1 <= task.payment.attempts < MAX_REFUND_ATTEMPTS && HasStatus(s.db, task.id, REFUND_PENDING)
    requires answer.Unknown? || (answer.Failed? && answer.retryable)
    ensures
      var t := Next(s, SettleRefund(task, answer, now)).db;
      HasStatus(t, task.id, REFUND_PENDING)
      && t.payments[task.id].nextAttemptAt == Some(now + RetryDelayMs(task.payment.attempts))
  {
    hide Next, RetryDelayMs;
    SettledRow(s, task, answer, now, task.id);
  }
}

/** reconcile-payments.ts: the job that finishes what requests could not. */
module Reconciliation {
  import opened Basics
  import opened Counting
  import opened Retries
  import opened Ordering
  import opened Schema
  import opened Transactions
  import opened Invariants
  import opened Preservation
  import opened PaymentSteps
  import opened Histories
  import opened MoneySafety
  import opened Theorems
  import opened BookingDb
  import opened PaymentRepository
  import opened PaymentUseCases
  import opened Gateway
  import opened PaymentDrivers

  // ---- One claimed payment ----

  datatype Reconciled = SETTLED | REFUND_DONE | REFUND_GIVEN_UP | RETRY_LATER | FAILED_RUN

  /** What the gateway said, if the call was made: a row without token or reference throws first. */
  datatype Reply =
    | ChargeReply(charge: Option<ChargeAnswer>)
    | RefundReply(refund: RefundAnswer)
    | NotAsked

  /** A claimed payment on its way: its call not answered yet, answered but not recorded, or finished. */
  datatype Progress = Asking | Heard(reply: Reply) | Over(reply: Reply, outcome: Reconciled)

  /** What recording a reply commits, and what the job counts it as; a throw commits nothing. */
  function Recorded(t: Tables, task: Task, reply: Reply, now: Instant): (Tables, Reconciled)
    requires 1 <= task.payment.attempts
  {
    match reply
    case NotAsked => (t, FAILED_RUN)
    case ChargeReply(None) =>
      var o := ChargeRetried(t, task, now);
      (o.db, if o.result.Ok? then RETRY_LATER else FAILED_RUN)
    case ChargeReply(Some(Succeeded(reference))) =>
      var o := Charged(t, task.id, task.payment, reference, ReconciliationJob, now);
      (o.db, if o.result.Ok? then SETTLED else FAILED_RUN)
    case ChargeReply(Some(Denied(reason))) =>
      var o := Declined(t, task.id, reason, ReconciliationJob, now);
      (o.db, if o.result.Ok? then SETTLED else FAILED_RUN)
    case RefundReply(answer) =>
      var o := RefundSettled(t, task, answer, now);
      (o.db, if o.result.Err? then FAILED_RUN
             else match Judge(task.payment.attempts, answer)
               case Done => REFUND_DONE
               case GiveUp(_) => REFUND_GIVEN_UP
               case TryAgain(_) => RETRY_LATER)
  }

  /** The count tells what became of the payment, and of nobody else's. */
  ghost predicate CountTells(t: Tables, t': Tables, task: Task, reply: Reply, outcome: Reconciled, now: Instant) {
    && (outcome == FAILED_RUN ==> t' == t)
    && (outcome == SETTLED ==> task.id in t'.payments && !t'.payments[task.id].status.PROCESSING?)
    && (outcome == REFUND_DONE ==> HasStatus(t', task.id, REFUNDED) && reply == RefundReply(Refunded))
    && (outcome == REFUND_GIVEN_UP ==> HasStatus(t', task.id, REFUND_FAILED))
    && (outcome == RETRY_LATER ==>
          && task.id in t.payments && NeedsReconciling(t.payments[task.id].status)
          && var due := t.payments[task.id := t.payments[task.id].(nextAttemptAt := Some(now + DelayOf(task, reply)))];
             t' == t.(payments := due))
    && (forall p | p in t.payments && p != task.id :: p in t'.payments && t'.payments[p] == t.payments[p])
  }

  function DelayOf(task: Task, reply: Reply): int {
    if task.payment.attempts == 0 then 0
    else if reply.RefundReply? then RetryDelayMs(task.payment.attempts)
    else ChargeRetryDelayMs(task.payment.attempts)
  }

  /** Phase 3 moves its own row out of PROCESSING, or nothing. */
  lemma SettleMovesOneRow(t: Tables, id: Id, how: Settlement)
    ensures
      var o := Settle(t, id, how);
      && (if o.result.Err? then o.db == t else id in o.db.payments && !o.db.payments[id].status.PROCESSING?)
      && forall p | p in t.payments && p != id :: p in o.db.payments && o.db.payments[p] == t.payments[p]
  {
    hide Confirmable, Book, SeatsOf, CompleteKeys, OpenKeysOf, Total, PaidAlready, ConfirmedResponse, NotPayable;
  }

  lemma ChargeCountTells(t: Tables, task: Task, reply: Reply, now: Instant)
    requires 1 <= task.payment.attempts && reply.ChargeReply?
    ensures
      var r := Recorded(t, task, reply, now);
      CountTells(t, r.0, task, reply, r.1, now)
  {
    hide Charged, Declined, RetryDelayMs;
    if reply.charge.Some? {
      SettleMovesOneRow(t, task.id, SettlementOf(task, reply.charge.value, ReconciliationJob, now));
    }
  }

  lemma RefundCountTells(t: Tables, task: Task, answer: RefundAnswer, now: Instant)
    requires 1 <= task.payment.attempts
    ensures
      var r := Recorded(t, task, RefundReply(answer), now);
      && CountTells(t, r.0, task, RefundReply(answer), r.1, now)
      && (r.1 == RETRY_LATER ==> task.payment.attempts < MAX_REFUND_ATTEMPTS)
  {
    hide Charged, Declined, ChargeRetried, RetryDelayMs, ChargeRetryDelayMs;
  }

  /** Whatever is recorded, the count tells; a refund is put off only before the fifth attempt. */
  lemma RecordedTells(t: Tables, task: Task, reply: Reply, now: Instant)
    requires 1 <= task.payment.attempts
    ensures
      var r := Recorded(t, task, reply, now);
      && CountTells(t, r.0, task, reply, r.1, now)
      && (reply.RefundReply? && r.1 == RETRY_LATER ==> task.payment.attempts < MAX_REFUND_ATTEMPTS)
      && (reply.ChargeReply? && r.1 == RETRY_LATER ==> reply.charge.None?)
  {
    hide Charged, Declined, ChargeRetried, RefundSettled, CountTells, Judge;
    match reply
    case ChargeReply(_) => ChargeCountTells(t, task, reply, now);
    case RefundReply(answer) => RefundCountTells(t, task, answer, now);
    case NotAsked => NothingTells(t, task, now);
  }

  lemma NothingTells(t: Tables, task: Task, now: Instant)
    ensures CountTells(t, t, task, NotAsked, FAILED_RUN, now)
  {
  }

  /** The call a reply came from is still on the protocol's books. */
  ghost predicate Stands(s: System, task: Task, reply: Reply) {
    match reply
    case NotAsked => true
    case ChargeReply(answer) => task in s.charging && (answer.Some? ==> (task.id, answer.value) in s.answers)
    case RefundReply(answer) => task in s.refunding && (task, answer) in s.refundAnswers
  }

  ghost predicate InHand(s: System, task: Task) {
    && 1 <= task.payment.attempts
    && if task.payment.status.PROCESSING? then task in s.charging else task in s.refunding
  }

  method RefundAtGateway(
    gateway: SimulatedGateway, task: Task, cutOff: bool, ghost s: System, ghost run: seq<Action>, ghost s1: System)
    returns (answer: RefundAnswer, ghost run': seq<Action>, ghost s2: System)
    requires Leads(s, run, s1) && s1.provider == gateway.Books()
    requires task in s1.refunding && task.payment.providerReference.Some?
    modifies gateway
    ensures Leads(s, run', s2) && s2.provider == gateway.Books() && ClaimsNoMore(run, run')
    ensures s2 == s1.(provider := s2.provider, refundAnswers := s1.refundAnswers + {(task, answer)})
    ensures answer.Unknown? <==> cutOff
    ensures gateway.Books() ==
      if answer.Refunded? then GiveBack(old(gateway.Books()), task.id, task.payment.amount) else old(gateway.Books())
  {
    hide LegalRun, RunAll, Leads;
    answer := gateway.RefundOnce(task.id, task.payment.providerReference.value, task.payment.amount, cutOff);
    ghost var a := Action.CallRefund(task, answer, answer.Refunded?);
    LeadsOn(s, run, s1, a);
    run', s2 := run + [a], Next(s1, a);
  }

  /** The call, with no transaction open: the tables stay as they are. */
  method Ask(
    gateway: SimulatedGateway, task: Task, cutOff: bool, ghost s: System, ghost run: seq<Action>, ghost s1: System)
    returns (reply: Reply, ghost run': seq<Action>, ghost s2: System)
    requires Leads(s, run, s1) && s1.provider == gateway.Books() && InHand(s1, task)
    modifies gateway
    ensures Leads(s, run', s2) && s2.provider == gateway.Books() && Stands(s2, task, reply) && ClaimsNoMore(run, run')
    ensures s2 == s1.(provider := s2.provider, answers := s2.answers, refundAnswers := s2.refundAnswers)
    ensures s1.answers <= s2.answers && s1.refundAnswers <= s2.refundAnswers
    ensures reply.NotAsked? <==>
      if task.payment.status.PROCESSING? then task.payment.token.None? else task.payment.providerReference.None?
    ensures reply.ChargeReply? ==> task.payment.status.PROCESSING? && (reply.charge.Some? ==>
      task.id in gateway.charges && gateway.charges[task.id] == reply.charge.value)
    ensures reply.RefundReply? ==> !task.payment.status.PROCESSING? && (reply.refund.Unknown? <==> cutOff)
    ensures reply.ChargeReply? && task.payment.token.Some? ==>
      gateway.Books() == if old(gateway.Reaches(task.id, task.payment.token.value, cutOff))
        then Charge(old(gateway.Books()), task.id, task.payment.amount, Decision(task.id, task.payment.token.value))
        else old(gateway.Books())
    ensures reply.RefundReply? ==>
      gateway.Books() == if reply.refund.Refunded? then GiveBack(old(gateway.Books()), task.id, task.payment.amount)
                         else old(gateway.Books())
  {
    hide LegalRun, RunAll, Leads;
    reply, run', s2 := NotAsked, run, s1;
    if task.payment.status.PROCESSING? {
      if task.payment.token.Some? {
        var answer;
        answer, run', s2 := ChargeAtGateway(gateway, task, task.payment.token.value, cutOff, s, run, s1);
        reply := ChargeReply(answer);
      }
    } else if task.payment.providerReference.Some? {
      var answer;
      answer, run', s2 := RefundAtGateway(gateway, task, cutOff, s, run, s1);
      reply := RefundReply(answer);
    }
  }

  /** The protocol step that records a reply. */
  ghost function RecordingOf(task: Task, reply: Reply, now: Instant): Action
    requires !reply.NotAsked?
  {
    match reply
    case ChargeReply(None) => RetryCharge(task, now)
    case ChargeReply(Some(Succeeded(reference))) => SettleCharged(task, reference, ReconciliationJob, now)
    case ChargeReply(Some(Denied(reason))) => SettleDeclined(task, reason, ReconciliationJob, now)
    case RefundReply(answer) => SettleRefund(task, answer, now)
  }

  lemma RecordingIsAStep(s: System, task: Task, reply: Reply, now: Instant)
    requires Stands(s, task, reply) && !reply.NotAsked? && 1 <= task.payment.attempts
    ensures Can(s, RecordingOf(task, reply, now))
    ensures
      Next(s, RecordingOf(task, reply, now))
        == s.(db := Recorded(s.db, task, reply, now).0,
              refunding := if reply.RefundReply? then s.refunding - {task} else s.refunding)
  {
    hide Charged, Declined, ChargeRetried, RefundSettled, Judge;
  }

  method RecordCharge(db: Database, task: Task, answer: Option<ChargeAnswer>, now: Instant) returns (outcome: Reconciled)
    requires 1 <= task.payment.attempts
    modifies db
    ensures (db.Contents(), outcome) == Recorded(old(db.Contents()), task, ChargeReply(answer), now)
  {
    hide Charged, Declined, Reschedule, ChargeRetryDelayMs;
    match answer {
      case None =>
        var retried := RescheduleTo(db, task.id, PROCESSING, now + ChargeRetryDelayMs(task.payment.attempts));
        outcome := if retried.Ok? then RETRY_LATER else FAILED_RUN;
      case Some(Succeeded(reference)) =>
        var settled := PaymentUseCases.SettleCharged(db, task.id, task.payment, reference, ReconciliationJob, now);
        outcome := if settled.Ok? then SETTLED else FAILED_RUN;
      case Some(Denied(reason)) =>
        var settled := PaymentUseCases.SettleDeclined(db, task.id, reason, ReconciliationJob, now);
        outcome := if settled.Ok? then SETTLED else FAILED_RUN;
    }
  }

  method RecordRefundAnswer(db: Database, task: Task, answer: RefundAnswer, now: Instant) returns (outcome: Reconciled)
    requires 1 <= task.payment.attempts
    modifies db
    ensures (db.Contents(), outcome) == Recorded(old(db.Contents()), task, RefundReply(answer), now)
  {
    hide RecordRefund, Reschedule, RetryDelayMs;
    var verdict := Judge(task.payment.attempts, answer);
    if verdict.TryAgain? {
      var retried := RescheduleTo(db, task.id, REFUND_PENDING, now + verdict.delayMs);
      return if retried.Ok? then RETRY_LATER else FAILED_RUN;
    }
    var failure := if verdict.Done? then None else Some(verdict.reason);
    var recorded := RecordRefundOutcome(db, task.id, failure, now);
    return if recorded.Err? then FAILED_RUN else if verdict.Done? then REFUND_DONE else REFUND_GIVEN_UP;
  }

  /** The answer, in its own short transaction. */
  method Record(
    db: Database, task: Task, reply: Reply, now: Instant, ghost s: System, ghost run: seq<Action>, ghost s1: System)
    returns (outcome: Reconciled, ghost run': seq<Action>, ghost s2: System)
    requires Leads(s, run, s1) && s1.db == db.Contents() && Stands(s1, task, reply) && 1 <= task.payment.attempts
    modifies db
    ensures (db.Contents(), outcome) == Recorded(old(db.Contents()), task, reply, now)
    ensures Leads(s, run', s2) && ClaimsNoMore(run, run')
    ensures s2 == s1.(
      db := db.Contents(), refunding := if reply.RefundReply? then s1.refunding - {task} else s1.refunding)
  {
    hide LegalRun, RunAll, Leads, Charged, Declined, ChargeRetried, RefundSettled, Judge, Next, Can;
    if reply.NotAsked? {
      return FAILED_RUN, run, s1;
    }
    ghost var a := RecordingOf(task, reply, now);
    RecordingIsAStep(s1, task, reply, now);
    if reply.ChargeReply? {
      outcome := RecordCharge(db, task, reply.charge, now);
    } else {
      outcome := RecordRefundAnswer(db, task, reply.refund, now);
    }
    LeadsOn(s, run, s1, a);
    run', s2 := run + [a], Next(s1, a);
  }

  // ---- What an answer comes to ----

  /** The row is as its claim left it: in its status, with the token or the charge to ask about. */
  predicate RowWaits(t: Tables, task: Task) {
    && HasStatus(t, task.id, task.payment.status) && CopyOf(t, task.id, task.payment)
    && if task.payment.status.PROCESSING? then task.payment.token.Some?
       else task.payment.status.REFUND_PENDING? && task.payment.providerReference.Some?
  }

  /** How a payment that still waits is counted: any charge answer settles it, and no answer is never final before the fifth refund. */
  function OutcomeOf(task: Task, reply: Reply): Reconciled {
    match reply
    case NotAsked => FAILED_RUN
    case ChargeReply(answer) => if answer.Some? then SETTLED else RETRY_LATER
    case RefundReply(answer) =>
      if answer.Refunded? then REFUND_DONE
      else if task.payment.attempts >= 5 || (answer.Failed? && !answer.retryable) then REFUND_GIVEN_UP
      else RETRY_LATER
  }

  /** A reply of the kind the claimed status asks for. */
  predicate Fits(task: Task, reply: Reply) {
    !reply.NotAsked? && (reply.ChargeReply? <==> task.payment.status.PROCESSING?)
  }

  /** A payment that still waits never fails: its answer is recorded, in the job's name, for what it is. */
  lemma WaitingIsRecorded(t: Tables, task: Task, reply: Reply, now: Instant)
    requires Inv(t) && RowWaits(t, task) && Fits(task, reply) && 1 <= task.payment.attempts
    ensures
      var r := Recorded(t, task, reply, now);
      && r.1 == OutcomeOf(task, reply)
      && r.0 == match reply
                case NotAsked => t
                case ChargeReply(None) => ChargeRetried(t, task, now).db
                case ChargeReply(Some(Succeeded(reference))) =>
                  Charged(t, task.id, task.payment, reference, ReconciliationJob, now).db
                case ChargeReply(Some(Denied(reason))) =>
                  Declined(t, task.id, reason, ReconciliationJob, now).db
                case RefundReply(answer) => RefundSettled(t, task, answer, now).db
  {
    hide Inv, Charged, Declined, RetryDelayMs, ChargeRetryDelayMs;
    if reply.ChargeReply? {
      if reply.charge.Some? {
        SettleEndsProcessing(t, task.id, SettlementOf(task, reply.charge.value, ReconciliationJob, now));
      }
    }
  }

  /** Recording one payment leaves every other one waiting. */
  lemma OthersStillWait(t: Tables, task: Task, reply: Reply, now: Instant, other: Task)
    requires RowWaits(t, other) && other.id != task.id && 1 <= task.payment.attempts
    ensures RowWaits(Recorded(t, task, reply, now).0, other)
  {
    hide Recorded, RetryDelayMs;
    RecordedTells(t, task, reply, now);
  }

  // ---- A batch ----

  datatype Tally = Tally(settled: nat, refunded: nat, refundFailed: nat, retryLater: nat, failed: nat)

  function Counted(tally: Tally, outcome: Reconciled): Tally {
    match outcome
    case SETTLED => tally.(settled := tally.settled + 1)
    case REFUND_DONE => tally.(refunded := tally.refunded + 1)
    case REFUND_GIVEN_UP => tally.(refundFailed := tally.refundFailed + 1)
    case RETRY_LATER => tally.(retryLater := tally.retryLater + 1)
    case FAILED_RUN => tally.(failed := tally.failed + 1)
  }

  function Everything(tally: Tally): nat {
    tally.settled + tally.refunded + tally.refundFailed + tally.retryLater + tally.failed
  }

  /** What the claim hands out: each payment once, as the claim left it, in the hands of the matching kind of call. */
  ghost predicate AllInHand(s: System, tasks: seq<Task>) {
    && (forall i, j | 0 <= i < j < |tasks| :: tasks[i].id != tasks[j].id)
    && (forall i | 0 <= i < |tasks| :: InHand(s, tasks[i]))
  }

  method ClaimBatch(
    db: Database, leaseMs: int, limit: nat, locked: set<Id>, now: Instant, ghost s: System, ghost run: seq<Action>,
    ghost s1: System)
    returns (tasks: seq<Task>, ghost run': seq<Action>, ghost s2: System)
    requires Leads(s, run, s1) && s1.db == db.Contents()
    modifies db
    ensures Leads(s, run', s2) && s2.db == db.Contents() && s2.provider == s1.provider
    ensures run' == run + [Claim(now, leaseMs, limit, locked)]
    ensures AllInHand(s2, tasks)
    ensures |tasks| == Min(|DuePayments(old(db.Contents()), now, locked)|, limit)
    ensures forall p :: p in ClaimedIds(old(db.Contents()), now, limit, locked) <==>
      exists i :: 0 <= i < |tasks| && tasks[i].id == p
    ensures forall i | 0 <= i < |tasks| ::
      tasks[i].id in db.payments && tasks[i].payment == db.payments[tasks[i].id]
    ensures Safe(s) ==> forall i | 0 <= i < |tasks| :: RowWaits(db.Contents(), tasks[i])
  {
    hide LegalRun, RunAll, Leads, DuePayments, ClaimedIds, Safe, RowWaits;
    ghost var t := db.Contents();
    ghost var a := Claim(now, leaseMs, limit, locked);
    var ids := ClaimDuePayments(db, now, leaseMs, limit, locked);
    ClaimedCount(t, now, limit, locked, ids);
    ClaimedAreDue(t, now, limit, locked);
    tasks := seq(|ids|, i requires 0 <= i < |ids| && ids[i] in db.payments reads db => Task(ids[i], db.payments[ids[i]]));
    LeadsOn(s, run, s1, a);
    run', s2 := run + [a], Next(s1, a);
    ClaimedInHand(s1, now, leaseMs, limit, locked, ids, tasks);
    TasksAreIds(ids, tasks);
    if Safe(s) {
      LeadsKeepsSafe(s, run', s2);
      AllClaimedWait(s2, tasks);
    }
  }

  lemma TasksAreIds(ids: seq<Id>, tasks: seq<Task>)
    requires |tasks| == |ids| && forall i | 0 <= i < |ids| :: tasks[i].id == ids[i]
    ensures forall p :: p in ids <==> exists i :: 0 <= i < |tasks| && tasks[i].id == p
  {
    forall p | p in ids ensures exists i :: 0 <= i < |tasks| && tasks[i].id == p {
      var i :| 0 <= i < |ids| && ids[i] == p;
      assert tasks[i].id == p;
    }
  }

  lemma AllClaimedWait(s: System, tasks: seq<Task>)
    requires Safe(s) && AllInHand(s, tasks)
    requires forall i | 0 <= i < |tasks| ::
      tasks[i].id in s.db.payments && tasks[i].payment == s.db.payments[tasks[i].id]
    ensures forall i | 0 <= i < |tasks| :: RowWaits(s.db, tasks[i])
  {
    hide Safe, RowWaits, InHand;
    forall i | 0 <= i < |tasks| ensures RowWaits(s.db, tasks[i]) {
      ClaimedWaits(s, tasks[i]);
    }
  }

  /** A claimed payment has what its call needs: its token, or the reference of its charge. */
  lemma ClaimedWaits(s: System, task: Task)
    requires Safe(s) && InHand(s, task) && task.id in s.db.payments && task.payment == s.db.payments[task.id]
    ensures RowWaits(s.db, task)
  {
    hide Inventory, Events, Keys, References, Ledger;
    assert PaymentOk(s.db.bookings, s.db.payments[task.id]);
  }

  lemma ClaimedCount(t: Tables, now: Instant, limit: nat, locked: set<Id>, ids: seq<Id>)
    requires Increasing(ids, IdLess) && forall p :: p in ids <==> p in ClaimedIds(t, now, limit, locked)
    ensures |ids| == |ClaimedIds(t, now, limit, locked)| == Min(|DuePayments(t, now, locked)|, limit)
  {
    var due := SortedDue(DuePayments(t, now, locked));
    var claimed := ClaimedIds(t, now, limit, locked);
    forall i, j | 0 <= i < j < |due| ensures due[i].1 != due[j].1 {
      assert due[i] in DuePayments(t, now, locked) && due[j] in DuePayments(t, now, locked) && DueLess(due[i], due[j]);
    }
    forall i, j | 0 <= i < j < |ids| ensures ids[i] != ids[j] {
      assert IdLess(ids[i], ids[j]);
    }
    assert Distinct(claimed);
    DistinctIffFull(ids);
    DistinctIffFull(claimed);
    assert Elems(ids) == Elems(claimed);
  }

  lemma ClaimedInHand(s: System, now: Instant, leaseMs: int, limit: nat, locked: set<Id>, ids: seq<Id>, tasks: seq<Task>)
    requires forall p :: p in ids <==> p in ClaimedIds(s.db, now, limit, locked)
    requires |tasks| == |ids| && Increasing(ids, IdLess)
    requires forall i | 0 <= i < |ids| ::
      && ids[i] in s.db.payments
      && tasks[i] == Task(ids[i], ClaimDue(s.db, now, leaseMs, limit, locked).payments[ids[i]])
    ensures AllInHand(Next(s, Claim(now, leaseMs, limit, locked)), tasks)
  {
    ClaimedAreDue(s.db, now, limit, locked);
    var db := ClaimDue(s.db, now, leaseMs, limit, locked);
    var claimed := ClaimedIds(s.db, now, limit, locked);
    forall i | 0 <= i < |tasks|
      ensures 1 <= tasks[i].payment.attempts
      ensures tasks[i] in ClaimedTasks(s.db, db, claimed, tasks[i].payment.status)
      ensures tasks[i].payment.status.PROCESSING? || tasks[i].payment.status.REFUND_PENDING?
    {
      assert ids[i] in claimed;
    }
  }

  /** Every payment that is not finished is where its call left it. */
  ghost predicate Underway(s: System, tasks: seq<Task>, progress: seq<Progress>) {
    && |progress| == |tasks|
    && (forall i | 0 <= i < |tasks| && !progress[i].Over? :: InHand(s, tasks[i]))
    && (forall i | 0 <= i < |tasks| && progress[i].Heard? :: Stands(s, tasks[i], progress[i].reply))
  }

  function StepsOf(p: Progress): nat { match p case Asking => 2 case Heard(_) => 1 case Over(_, _) => 0 }

  /** How many calls and recordings are left. */
  function StepsLeft(progress: seq<Progress>): nat {
    if progress == [] then 0
    else StepsOf(progress[0]) + StepsLeft(progress[1..])
  }

  lemma {:induction false} OneStepLess(progress: seq<Progress>, i: nat, p: Progress)
    requires i < |progress|
    ensures StepsLeft(progress[i := p]) == StepsLeft(progress) - StepsOf(progress[i]) + StepsOf(p)
  {
    if i == 0 {
      assert progress[i := p][1..] == progress[1..];
    } else {
      OneStepLess(progress[1..], i - 1, p);
      assert progress[i := p][1..] == progress[1..][i - 1 := p];
    }
  }

  lemma {:induction false} NoneLeft(progress: seq<Progress>)
    requires StepsLeft(progress) == 0
    ensures forall i | 0 <= i < |progress| :: progress[i].Over?
  {
    if progress != [] { NoneLeft(progress[1..]); }
  }

  lemma {:induction false} SomeLeft(progress: seq<Progress>)
    requires StepsLeft(progress) != 0
    ensures exists i :: 0 <= i < |progress| && !progress[i].Over?
  {
    if !progress[0].Over? {
    } else {
      SomeLeft(progress[1..]);
      var i :| 0 <= i < |progress[1..]| && !progress[1..][i].Over?;
      assert !progress[i + 1].Over?;
    }
  }

  /** Where a finished payment stands, whatever the rest of its batch does. */
  predicate Stood(t: Tables, task: Task, outcome: Reconciled) {
    && (outcome == SETTLED ==> task.id in t.payments && !t.payments[task.id].status.PROCESSING?)
    && (outcome == REFUND_DONE ==> HasStatus(t, task.id, REFUNDED))
    && (outcome == REFUND_GIVEN_UP ==> HasStatus(t, task.id, REFUND_FAILED))
    && (outcome == RETRY_LATER ==> task.id in t.payments && NeedsReconciling(t.payments[task.id].status))
  }

  lemma RecordedStands(t: Tables, tasks: seq<Task>, i: nat, reply: Reply, now: Instant)
    requires i < |tasks| && 1 <= tasks[i].payment.attempts
    requires forall j, k | 0 <= j < k < |tasks| :: tasks[j].id != tasks[k].id
    ensures
      var r := Recorded(t, tasks[i], reply, now);
      && Stood(r.0, tasks[i], r.1)
      && forall j, outcome | 0 <= j < |tasks| && j != i && Stood(t, tasks[j], outcome) :: Stood(r.0, tasks[j], outcome)
  {
    hide Recorded, RetryDelayMs;
    RecordedTells(t, tasks[i], reply, now);
  }

  lemma OneGoesOn(
    s: System, s': System, tasks: seq<Task>, progress: seq<Progress>, i: nat, reply: Reply, outcome: Reconciled)
    requires Underway(s, tasks, progress) && i < |tasks|
    requires forall j, k | 0 <= j < k < |tasks| :: tasks[j].id != tasks[k].id
    requires s'.charging == s.charging && s'.answers == s.answers && s'.refundAnswers == s.refundAnswers
    requires s'.refunding == s.refunding || s'.refunding == s.refunding - {tasks[i]}
    ensures Underway(s', tasks, progress[i := Over(reply, outcome)])
  {
    forall j | 0 <= j < |tasks| && j != i ensures tasks[j] != tasks[i] {
    }
  }

  lemma OneIsHeard(s: System, s': System, tasks: seq<Task>, progress: seq<Progress>, i: nat, reply: Reply)
    requires Underway(s, tasks, progress) && i < |tasks| && !progress[i].Over? && Stands(s', tasks[i], reply)
    requires s'.charging == s.charging && s'.refunding == s.refunding
    requires s.answers <= s'.answers && s.refundAnswers <= s'.refundAnswers
    ensures Underway(s', tasks, progress[i := Heard(reply)])
  {
  }

  /** The gateway did answer so, or did not answer. */
  ghost predicate Answered(s: System, task: Task, reply: Reply) {
    match reply
    case NotAsked => true
    case ChargeReply(answer) => answer.Some? ==> (task.id, answer.value) in s.answers
    case RefundReply(answer) => (task, answer) in s.refundAnswers
  }

  /** While nobody else acts: what is not recorded still waits, and what is was counted for the answer it got. */
  ghost predicate OnTrack(s: System, tasks: seq<Task>, progress: seq<Progress>) {
    && |progress| == |tasks|
    && (forall i | 0 <= i < |tasks| && !progress[i].Over? :: RowWaits(s.db, tasks[i]))
    && (forall i | 0 <= i < |tasks| && progress[i].Heard? :: Fits(tasks[i], progress[i].reply))
    && (forall i | 0 <= i < |tasks| && progress[i].Over? ::
          progress[i].outcome == OutcomeOf(tasks[i], progress[i].reply) && Fits(tasks[i], progress[i].reply))
  }

  /** What was answered to those that are finished. */
  ghost predicate AllAnswered(s: System, tasks: seq<Task>, progress: seq<Progress>) {
    |progress| == |tasks|
    && forall i | 0 <= i < |tasks| && progress[i].Over? :: Answered(s, tasks[i], progress[i].reply)
  }

  lemma AskedIsOnTrack(s: System, s': System, tasks: seq<Task>, progress: seq<Progress>, i: nat, reply: Reply)
    requires i < |tasks| && OnTrack(s, tasks, progress) && s'.db == s.db && !progress[i].Over?
    requires Fits(tasks[i], reply)
    ensures OnTrack(s', tasks, progress[i := Heard(reply)])
  {
    hide RowWaits, Fits, OutcomeOf;
  }

  lemma RecordedIsOnTrack(s: System, s': System, tasks: seq<Task>, progress: seq<Progress>, i: nat, now: Instant)
    requires i < |tasks| && OnTrack(s, tasks, progress) && progress[i].Heard? && 1 <= tasks[i].payment.attempts
    requires Inv(s.db) && forall j, k | 0 <= j < k < |tasks| :: tasks[j].id != tasks[k].id
    requires s'.db == Recorded(s.db, tasks[i], progress[i].reply, now).0
    ensures OnTrack(s', tasks,
      progress[i := Over(progress[i].reply, Recorded(s.db, tasks[i], progress[i].reply, now).1)])
  {
    hide Inv, RowWaits, Fits, OutcomeOf, Recorded;
    WaitingIsRecorded(s.db, tasks[i], progress[i].reply, now);
    forall j | 0 <= j < |tasks| && j != i && !progress[j].Over? ensures RowWaits(s'.db, tasks[j]) {
      assert tasks[j].id != tasks[i].id;
      OthersStillWait(s.db, tasks[i], progress[i].reply, now, tasks[j]);
    }
  }

  lemma AnsweredStays(s: System, s': System, tasks: seq<Task>, progress: seq<Progress>, i: nat, p: Progress)
    requires i < |tasks| && AllAnswered(s, tasks, progress)
    requires s.answers <= s'.answers && s.refundAnswers <= s'.refundAnswers
    requires p.Over? ==> Answered(s', tasks[i], p.reply)
    ensures AllAnswered(s', tasks, progress[i := p])
  {
  }

  /**
   * One batch, all payments at once: calls and recordings come in any order,
   * each payment's recording after its own call. One that throws is counted
   * and the others go on; `replies` is what the gateway answered. From a safe
   * state, with rows as their claim left them, none throws: every payment is
   * asked about, and counted for exactly what was answered.
   */
  method ReconcileAll(
    db: Database, gateway: SimulatedGateway, tasks: seq<Task>, ghost s: System, ghost run: seq<Action>, ghost s1: System)
    returns (outcomes: seq<Reconciled>, ghost replies: seq<Reply>, ghost run': seq<Action>, ghost s2: System)
    requires Leads(s, run, s1) && Shows(s1, db, gateway) && AllInHand(s1, tasks)
    modifies db, gateway
    ensures Leads(s, run', s2) && Shows(s2, db, gateway) && ClaimsNoMore(run, run')
    ensures |outcomes| == |tasks| && forall i | 0 <= i < |tasks| :: Stood(db.Contents(), tasks[i], outcomes[i])
    ensures |replies| == |tasks| && forall i | 0 <= i < |tasks| :: Answered(s2, tasks[i], replies[i])
    ensures Safe(s) && (forall i | 0 <= i < |tasks| :: RowWaits(old(db.Contents()), tasks[i])) ==>
      forall i | 0 <= i < |tasks| :: Fits(tasks[i], replies[i]) && outcomes[i] == OutcomeOf(tasks[i], replies[i])
  {
    hide LegalRun, RunAll, Leads, Recorded, Stood, Stands, InHand, Answered, Safe, RowWaits, Fits, OutcomeOf;
    run', s2 := run, s1;
    var progress := seq(|tasks|, i requires 0 <= i < |tasks| => Asking);
    ghost var calm := Safe(s) && forall i | 0 <= i < |tasks| :: RowWaits(db.Contents(), tasks[i]);
    while StepsLeft(progress) != 0
      invariant Leads(s, run', s2) && Shows(s2, db, gateway) && Underway(s2, tasks, progress) && ClaimsNoMore(run, run')
      invariant AllAnswered(s2, tasks, progress) && (calm ==> OnTrack(s2, tasks, progress))
      invariant forall i | 0 <= i < |tasks| && progress[i].Over? :: Stood(db.Contents(), tasks[i], progress[i].outcome)
      decreases StepsLeft(progress)
    {
      SomeLeft(progress);
      var i :| 0 <= i < |progress| && !progress[i].Over?;
      ghost var before := run';
      progress, run', s2 := GoOn(db, gateway, tasks, progress, i, s, run', s2);
      ClaimsNoMoreChain(run, before, run');
    }
    NoneLeft(progress);
    outcomes := seq(|tasks|, i requires 0 <= i < |tasks| && i < |progress| && progress[i].Over? => progress[i].outcome);
    replies := seq(|tasks|, i requires 0 <= i < |tasks| && i < |progress| && progress[i].Over? => progress[i].reply);
  }

  /** One payment of the batch takes its next step. */
  method GoOn(
    db: Database, gateway: SimulatedGateway, tasks: seq<Task>, progress: seq<Progress>, i: nat,
    ghost s: System, ghost run: seq<Action>, ghost s1: System)
    returns (progress': seq<Progress>, ghost run': seq<Action>, ghost s2: System)
    requires Leads(s, run, s1) && Shows(s1, db, gateway) && Underway(s1, tasks, progress) && AllAnswered(s1, tasks, progress)
    requires forall j, k | 0 <= j < k < |tasks| :: tasks[j].id != tasks[k].id
    requires forall j | 0 <= j < |tasks| && progress[j].Over? :: Stood(db.Contents(), tasks[j], progress[j].outcome)
    requires i < |tasks| && !progress[i].Over?
    modifies db, gateway
    ensures Leads(s, run', s2) && Shows(s2, db, gateway) && Underway(s2, tasks, progress') && AllAnswered(s2, tasks, progress')
    ensures ClaimsNoMore(run, run')
    ensures Safe(s) && OnTrack(s1, tasks, progress) ==> OnTrack(s2, tasks, progress')
    ensures forall j | 0 <= j < |tasks| && progress'[j].Over? :: Stood(db.Contents(), tasks[j], progress'[j].outcome)
    ensures StepsLeft(progress') < StepsLeft(progress)
  {
    hide LegalRun, RunAll, Leads, Recorded, Stood, Stands, StepsLeft, Answered, Safe, RowWaits, Fits, OutcomeOf;
    ghost var t := db.Contents();
    if progress[i].Asking? {
      var cutOff: bool := *;
      var reply;
      reply, run', s2 := Ask(gateway, tasks[i], cutOff, s, run, s1);
      OneIsHeard(s1, s2, tasks, progress, i, reply);
      progress' := progress[i := Heard(reply)];
      if OnTrack(s1, tasks, progress) {
        AskedFits(s1, tasks[i], reply);
        AskedIsOnTrack(s1, s2, tasks, progress, i, reply);
      }
    } else {
      var now: Instant := *;
      var reply := progress[i].reply;
      var outcome;
      outcome, run', s2 := Record(db, tasks[i], reply, now, s, run, s1);
      RecordedStands(t, tasks, i, reply, now);
      OneGoesOn(s1, s2, tasks, progress, i, reply, outcome);
      progress' := progress[i := Over(reply, outcome)];
      StandsIsAnswered(s1, s2, tasks[i], reply);
      if Safe(s) && OnTrack(s1, tasks, progress) {
        LeadsKeepsSafe(s, run, s1);
        SafeIsInv(s1);
        RecordedIsOnTrack(s1, s2, tasks, progress, i, now);
      }
    }
    AnsweredStays(s1, s2, tasks, progress, i, progress'[i]);
    OneStepLess(progress, i, progress'[i]);
  }

  lemma SafeIsInv(s: System)
    requires Safe(s)
    ensures Inv(s.db)
  {
  }

  lemma AskedFits(s: System, task: Task, reply: Reply)
    requires RowWaits(s.db, task)
    requires reply.NotAsked? <==>
      if task.payment.status.PROCESSING? then task.payment.token.None? else task.payment.providerReference.None?
    requires reply.ChargeReply? ==> task.payment.status.PROCESSING?
    requires reply.RefundReply? ==> !task.payment.status.PROCESSING?
    ensures Fits(task, reply)
  {
  }

  lemma StandsIsAnswered(s: System, s': System, task: Task, reply: Reply)
    requires Stands(s, task, reply) && s'.answers == s.answers && s'.refundAnswers == s.refundAnswers
    ensures Answered(s', task, reply)
  {
  }

  /** How often each outcome came up. */
  function TallyOf(outcomes: seq<Reconciled>): Tally {
    var all := multiset(outcomes);
    Tally(all[SETTLED], all[REFUND_DONE], all[REFUND_GIVEN_UP], all[RETRY_LATER], all[FAILED_RUN])
  }

  lemma TallyAppend(outcomes: seq<Reconciled>, outcome: Reconciled)
    ensures TallyOf(outcomes + [outcome]) == Counted(TallyOf(outcomes), outcome)
  {
  }

  lemma {:induction false} TallyCountsAll(outcomes: seq<Reconciled>)
    ensures Everything(TallyOf(outcomes)) == |outcomes|
    decreases |outcomes|
  {
    if outcomes != [] {
      var last := |outcomes| - 1;
      TallyCountsAll(outcomes[..last]);
      TallyAppend(outcomes[..last], outcomes[last]);
      assert outcomes == outcomes[..last] + [outcomes[last]];
    }
  }

  /** Every outcome is counted once, as what it is. */
  method CountAll(ghost before: seq<Reconciled>, start: Tally, outcomes: seq<Reconciled>) returns (tally: Tally)
    requires start == TallyOf(before)
    ensures tally == TallyOf(before + outcomes)
  {
    hide TallyOf, Counted;
    tally := start;
    assert before + outcomes[..0] == before;
    for i := 0 to |outcomes|
      invariant tally == TallyOf(before + outcomes[..i])
    {
      TallyAppend(before + outcomes[..i], outcomes[i]);
      assert before + outcomes[..i + 1] == before + outcomes[..i] + [outcomes[i]];
      tally := Counted(tally, outcomes[i]);
    }
    assert outcomes[..|outcomes|] == outcomes;
  }

  /** How many payments the claim at place `i` of the run took: all that were due then, up to its limit. */
  ghost function TookAt(s: System, run: seq<Action>, i: nat): int
    requires i < |run| && run[i].Claim?
  {
    Min(|DuePayments(RunAll(s, run[..i]).db, run[i].now, run[i].locked)|, run[i].limit)
  }

  /** `claims` are the places of all claims of the run, in order, each with this lease and limit. */
  ghost predicate ClaimsAt(run: seq<Action>, claims: seq<nat>, leaseMs: int, limit: nat) {
    && (forall j, k | 0 <= j < k < |claims| :: claims[j] < claims[k])
    && (forall j | 0 <= j < |claims| ::
          claims[j] < |run| && run[claims[j]].Claim? && run[claims[j]].leaseMs == leaseMs && run[claims[j]].limit == limit)
    && (forall i | 0 <= i < |run| && run[i].Claim? :: i in claims)
  }

  /** The first `n` of the claims took a whole batch each. */
  ghost predicate FullUpTo(s: System, run: seq<Action>, claims: seq<nat>, n: nat, batchSize: nat) {
    && n <= |claims| && (forall j | 0 <= j < |claims| :: claims[j] < |run| && run[claims[j]].Claim?)
    && forall j | 0 <= j < n :: TookAt(s, run, claims[j]) == batchSize
  }

  lemma OneMoreClaim(
    s: System, run: seq<Action>, run': seq<Action>, claims: seq<nat>, leaseMs: int, limit: nat, s1: System, c: Action)
    requires ClaimsAt(run, claims, leaseMs, limit) && FullUpTo(s, run, claims, |claims|, limit) && Leads(s, run, s1)
    requires c.Claim? && c.leaseMs == leaseMs && c.limit == limit && ClaimsNoMore(run + [c], run')
    ensures ClaimsAt(run', claims + [|run|], leaseMs, limit)
    ensures FullUpTo(s, run', claims + [|run|], |claims|, limit)
    ensures |run| < |run'| && run'[|run|] == c
         && TookAt(s, run', |run|) == Min(|DuePayments(s1.db, c.now, c.locked)|, limit)
  {
    hide RunAll, LegalRun;
    assert run'[..|run|] == run && run'[|run|] == c;
    forall i | 0 <= i < |run| ensures run'[i] == run[i] && run'[..i] == run[..i] {
    }
  }

  /**
   * One run of the job: whatever the clock and the network do, it is a run of
   * the protocol in which every batch claims what is due, up to its size, and
   * every claimed payment has one outcome and is counted as that. All batches
   * but the last are full; it ends early exactly when the last one is not;
   * and from a safe state with nobody else acting none fails.
   */
  method ReconcilePayments(
    db: Database, gateway: SimulatedGateway, leaseMs: int, batchSize: nat, maxBatches: nat, ghost s: System)
    returns (tally: Tally, batches: nat, exhausted: bool, ghost all: seq<Reconciled>, ghost claims: seq<nat>,
             ghost run: seq<Action>, ghost s': System)
    requires Shows(s, db, gateway) && 1 <= batchSize
    modifies db, gateway
    ensures Leads(s, run, s') && Shows(s', db, gateway)
    ensures tally == TallyOf(all) && Everything(tally) == |all|
    ensures batches == |claims| <= maxBatches && ClaimsAt(run, claims, leaseMs, batchSize)
    ensures exhausted ==>
      batches == maxBatches && FullUpTo(s, run, claims, batches, batchSize) && |all| == batchSize * batches
    ensures !exhausted ==>
      && claims != [] && FullUpTo(s, run, claims, batches - 1, batchSize)
      && TookAt(s, run, claims[batches - 1]) < batchSize
      && |all| == batchSize * (batches - 1) + TookAt(s, run, claims[batches - 1])
    ensures Safe(s) ==> FAILED_RUN !in all
  {
    hide LegalRun, RunAll, Leads, TallyOf, Safe, OutcomeOf, Fits, RowWaits, Answered, Stood, ClaimsAt, FullUpTo,
         DuePayments;
    tally, batches, all, claims, run, s' := Tally(0, 0, 0, 0, 0), 0, [], [], [], s;
    NoTally();
    LeadsNowhere(s);
    NoClaims(s, leaseMs, batchSize);
    while batches < maxBatches
      invariant batches == |claims| <= maxBatches && |all| == batchSize * batches && tally == TallyOf(all)
      invariant Leads(s, run, s') && Shows(s', db, gateway) && (Safe(s) ==> FAILED_RUN !in all)
      invariant ClaimsAt(run, claims, leaseMs, batchSize) && FullUpTo(s, run, claims, batches, batchSize)
    {
      var now: Instant, locked: set<Id> := *, *;
      ghost var before, s1 := run, s';
      var tasks;
      tasks, run, s' := ClaimBatch(db, leaseMs, batchSize, locked, now, s, run, s');
      var outcomes;
      ghost var replies;
      outcomes, replies, run, s' := ReconcileAll(db, gateway, tasks, s, run, s');
      if Safe(s) { NoneFailed(tasks, replies, outcomes); }
      OneMoreClaim(s, before, run, claims, leaseMs, batchSize, s1, Claim(now, leaseMs, batchSize, locked));
      tally := CountAll(all, tally, outcomes);
      all, batches, claims := all + outcomes, batches + 1, claims + [|before|];
      assert batchSize * batches == batchSize * (batches - 1) + batchSize;
      TallyCountsAll(all);
      if |tasks| < batchSize {
        return tally, batches, false, all, claims, run, s';
      }
      LastIsFull(s, run, claims, batchSize);
    }
    TallyCountsAll(all);
    return tally, batches, true, all, claims, run, s';
  }

  lemma NoClaims(s: System, leaseMs: int, limit: nat)
    ensures ClaimsAt([], [], leaseMs, limit) && FullUpTo(s, [], [], 0, limit)
  {
  }

  lemma LastIsFull(s: System, run: seq<Action>, claims: seq<nat>, batchSize: nat)
    requires claims != [] && FullUpTo(s, run, claims, |claims| - 1, batchSize)
    requires TookAt(s, run, claims[|claims| - 1]) == batchSize
    ensures FullUpTo(s, run, claims, |claims|, batchSize)
  {
    hide RunAll, TookAt;
  }

  lemma NoTally()
    ensures TallyOf([]) == Tally(0, 0, 0, 0, 0)
  {
  }

  lemma NoneFailed(tasks: seq<Task>, replies: seq<Reply>, outcomes: seq<Reconciled>)
    requires |replies| == |tasks| == |outcomes|
    requires forall i | 0 <= i < |tasks| :: Fits(tasks[i], replies[i]) && outcomes[i] == OutcomeOf(tasks[i], replies[i])
    ensures FAILED_RUN !in outcomes
  {
  }
}

/**
 * The whole protocol: requests, jobs and the provider, interleaved at will.
 * The provider keeps its own ledger; its answers may be lost, arrive late or
 * be used twice. Clocks are whatever each step reads.
 */
module MoneySafety {
  import opened Basics
  import opened Retries
  import opened Schema
  import opened Lifecycle
  import opened Transactions
  import opened Invariants
  import opened Preservation
  import opened PaymentSteps
  import opened Runs
  import opened Histories

  // ---- The provider (payment-gateway.ts): one result per payment id ----

  datatype ChargeAnswer = Succeeded(reference: string) | Denied(reason: string)

  datatype Entry = TookMoney(paymentId: Id, amount: nat) | GaveBack(paymentId: Id, amount: nat)

  datatype Provider = Provider(results: map<Id, ChargeAnswer>, refunded: set<Id>, ledger: multiset<Entry>)

  /** The first call decides; every later one answers the same and takes nothing. */
  function Charge(v: Provider, id: Id, amount: nat, decision: ChargeAnswer): Provider {
    if id in v.results then v
    else v.(results := v.results[id := decision],
            ledger := if decision.Succeeded? then v.ledger + multiset{TookMoney(id, amount)} else v.ledger)
  }

  predicate KnownCharge(v: Provider, id: Id, reference: string) {
    id in v.results && v.results[id] == Succeeded(reference)
  }

  /** A refund that goes through gives the money back once. */
  function GiveBack(v: Provider, id: Id, amount: nat): Provider {
    if id in v.refunded then v
    else v.(refunded := v.refunded + {id}, ledger := v.ledger + multiset{GaveBack(id, amount)})
  }

  // ---- The system ----

  /** A gateway call someone is making: the payment as it was when started or claimed. */
  datatype Task = Task(id: Id, payment: Payment)

  datatype System = System(
    db: Tables,
    provider: Provider,
    charging: set<Task>,
    answers: set<(Id, ChargeAnswer)>,
    refunding: set<Task>,
    refundAnswers: set<(Task, RefundAnswer)>)

  datatype Action =
    | Commit(txn: Txn)
    | Pay(read: Option<Booking>, pay: PayRequest, now: Instant, reconcileAfterMs: int)
    | Claim(now: Instant, leaseMs: int, limit: nat, locked: set<Id>)
    | CallCharge(task: Task, decision: ChargeAnswer, answered: bool)
    | SettleCharged(task: Task, reference: string, actor: Actor, now: Instant)
    | SettleDeclined(task: Task, reason: string, actor: Actor, now: Instant)
    | RetryCharge(task: Task, now: Instant)
    | CallRefund(task: Task, answer: RefundAnswer, applied: bool)
    | SettleRefund(task: Task, answer: RefundAnswer, now: Instant)

  /** The transactions that involve no gateway answer. */
  predicate Plain(x: Txn) {
    x.DoCreate? || x.DoCancel? || x.DoChangeSeat? || x.DoExpire? || x.DoCleanup?
    || x.DoAddFlight? || x.DoSetFlight? || x.DoSetFare?
  }

  predicate Can(s: System, a: Action) {
    match a
    case Commit(x) => Plain(x) && Enabled(s.db, x)
    case Pay(read, r, _, _) => EarlierRead(s.db, read, r.bookingId)
    case Claim(_, _, _, _) => true
    case CallCharge(task, _, _) => task in s.charging
    case SettleCharged(task, reference, _, _) => task in s.charging && (task.id, Succeeded(reference)) in s.answers
    case SettleDeclined(task, reason, _, _) => task in s.charging && (task.id, Denied(reason)) in s.answers
    case RetryCharge(task, _) => task in s.charging && 1 <= task.payment.attempts
    case CallRefund(task, answer, applied) => task in s.refunding && RefundMay(s.provider, task, answer, applied)
    case SettleRefund(task, answer, _) => task in s.refunding && (task, answer) in s.refundAnswers
  }

  /** `applied`: the money went back. Only a known charge's can, only then is it "refunded"; no answer may mean either. */
  predicate RefundMay(v: Provider, task: Task, answer: RefundAnswer, applied: bool) {
    && (applied ==>
          task.payment.providerReference.Some? && KnownCharge(v, task.id, task.payment.providerReference.value))
    && (answer.Refunded? ==> applied)
    && (answer.Failed? ==> !applied)
  }

  function ClaimedTasks(t: Tables, t': Tables, ids: seq<Id>, status: PaymentStatus): set<Task> {
    set p | p in ids && p in t.payments && p in t'.payments && t.payments[p].status == status :: Task(p, t'.payments[p])
  }

  /** An unknown charge is never FAILED: it is tried later. The claim has counted the attempt. */
  function ChargeRetried(t: Tables, task: Task, now: Instant): Outcome<()>
    requires 1 <= task.payment.attempts
  {
    Reschedule(t, task.id, PROCESSING, now + ChargeRetryDelayMs(task.payment.attempts))
  }

  /** What is recorded about a refund's answer: what `Judge` says of the attempt that asked. */
  function RefundSettled(t: Tables, task: Task, answer: RefundAnswer, now: Instant): Outcome<()>
    requires 1 <= task.payment.attempts
  {
    match Judge(task.payment.attempts, answer)
    case Done => RecordRefund(t, task.id, None, now)
    case GiveUp(reason) => RecordRefund(t, task.id, Some(reason), now)
    case TryAgain(delayMs) => Reschedule(t, task.id, REFUND_PENDING, now + delayMs)
  }

  function Next(s: System, a: Action): System {
    match a
    case Commit(x) => s.(db := Apply(s.db, x))
    case Pay(read, r, now, after) =>
      var o := StartPayment(s.db, read, r, now, after);
      s.(db := o.db,
         charging := s.charging
           + if o.result.Ok? && o.result.value.Started? then {Task(r.paymentId, o.result.value.payment)} else {})
    case Claim(now, lease, limit, locked) =>
      var db, ids := ClaimDue(s.db, now, lease, limit, locked), ClaimedIds(s.db, now, limit, locked);
      s.(db := db,
         charging := s.charging + ClaimedTasks(s.db, db, ids, PROCESSING),
         refunding := s.refunding + ClaimedTasks(s.db, db, ids, REFUND_PENDING))
    case CallCharge(task, decision, answered) =>
      var v := Charge(s.provider, task.id, task.payment.amount, decision);
      s.(provider := v, answers := s.answers + if answered then {(task.id, v.results[task.id])} else {})
    case SettleCharged(task, reference, actor, now) =>
      s.(db := Charged(s.db, task.id, task.payment, reference, actor, now).db)
    case SettleDeclined(task, reason, actor, now) => s.(db := Declined(s.db, task.id, reason, actor, now).db)
    case RetryCharge(task, now) =>
      if task.payment.attempts == 0 then s else s.(db := ChargeRetried(s.db, task, now).db)
    case CallRefund(task, answer, applied) =>
      s.(provider := if applied then GiveBack(s.provider, task.id, task.payment.amount) else s.provider,
         refundAnswers := s.refundAnswers + {(task, answer)})
    case SettleRefund(task, answer, now) =>
      if task.payment.attempts == 0 then s
      else s.(db := RefundSettled(s.db, task, answer, now).db, refunding := s.refunding - {task})
  }

  // ---- What the ledger promises ----

  predicate InRefund(status: PaymentStatus) {
    status.REFUND_PENDING? || status.REFUNDED? || status.REFUND_FAILED?
  }

  predicate Took(v: Provider, id: Id) { id in v.results && v.results[id].Succeeded? }

  /** One payment against the provider's own books. */
  ghost predicate PaymentLedger(v: Provider, id: Id, p: Payment) {
    && (forall a: nat :: v.ledger[TookMoney(id, a)] == (if Took(v, id) && a == p.amount then 1 else 0))
    && (forall a: nat :: v.ledger[GaveBack(id, a)] == (if id in v.refunded && a == p.amount then 1 else 0))
    && (p.status.FAILED? ==> id in v.results && v.results[id].Denied?)
    && (WasCharged(p.status) ==> p.providerReference.Some? && KnownCharge(v, id, p.providerReference.value))
    && (id in v.refunded ==> InRefund(p.status))
    && (p.status.REFUNDED? ==> id in v.refunded)
  }

  ghost predicate Ledger(payments: map<Id, Payment>, v: Provider) {
    && (forall p | p in payments :: PaymentLedger(v, p, payments[p]))
    && v.results.Keys <= payments.Keys && v.refunded <= payments.Keys
    && (forall e | e in v.ledger :: e.paymentId in payments)
  }

  predicate Copies(payments: map<Id, Payment>, task: Task) {
    && task.id in payments
    && payments[task.id].bookingId == task.payment.bookingId
    && payments[task.id].accountId == task.payment.accountId
    && payments[task.id].amount == task.payment.amount
    && payments[task.id].createdAt == task.payment.createdAt
  }

  predicate RefundCopy(payments: map<Id, Payment>, task: Task) {
    && Copies(payments, task)
    && InRefund(payments[task.id].status)
    && task.payment.status.REFUND_PENDING?
    && payments[task.id].providerReference == task.payment.providerReference
  }

  ghost predicate Tasks(s: System) {
    && (forall task | task in s.charging :: Copies(s.db.payments, task) && task.payment.status.PROCESSING?)
    && (forall task | task in s.refunding :: RefundCopy(s.db.payments, task) && 1 <= task.payment.attempts)
    && (forall a | a in s.answers :: a.0 in s.provider.results && s.provider.results[a.0] == a.1)
    && (forall a | a in s.refundAnswers && a.1.Refunded? :: a.0.id in s.provider.refunded)
  }

  ghost predicate Safe(s: System) {
    Inv(s.db) && Ledger(s.db.payments, s.provider) && Tasks(s)
  }

  // ---- Steps that settle nothing ----

  /** Statuses may move only where the provider's books do not care. */
  predicate Quiet(p: Payment, q: Payment) {
    && q.bookingId == p.bookingId && q.accountId == p.accountId && q.amount == p.amount && q.createdAt == p.createdAt
    && q.providerReference == p.providerReference
    && (q.status.FAILED? <==> p.status.FAILED?)
    && (WasCharged(q.status) <==> WasCharged(p.status))
    && (InRefund(p.status) ==> InRefund(q.status))
    && (q.status.REFUNDED? ==> p.status.REFUNDED?)
  }

  ghost predicate AllQuiet(payments: map<Id, Payment>, payments': map<Id, Payment>) {
    payments'.Keys == payments.Keys && forall p | p in payments :: Quiet(payments[p], payments'[p])
  }

  lemma QuietKeepsLedger(payments: map<Id, Payment>, payments': map<Id, Payment>, v: Provider)
    requires Ledger(payments, v) && AllQuiet(payments, payments')
    ensures Ledger(payments', v)
  {
    forall p | p in payments' ensures PaymentLedger(v, p, payments'[p]) {
      assert PaymentLedger(v, p, payments[p]) && Quiet(payments[p], payments'[p]);
    }
  }

  lemma QuietKeepsTasks(s: System, db': Tables)
    requires Tasks(s) && AllQuiet(s.db.payments, db'.payments)
    ensures Tasks(s.(db := db'))
  {
  }

  lemma CancelIsQuiet(t: Tables, id: Id, scope: Scope, actor: Id, now: Instant)
    ensures AllQuiet(t.payments, Cancel(t, id, scope, actor, now).db.payments)
  {
    hide SeatCodes, RefundOf, CancelAudit, ClassifyNotCancelled, Release, Cancellable;
  }

  lemma PlainIsQuiet(t: Tables, x: Txn)
    requires Plain(x)
    ensures AllQuiet(t.payments, Apply(t, x).payments)
  {
    hide CreateBooking, Cancel, ChangeSeat, ExpireBatch;
    match x
    case DoCreate(r, now) => CreateLeavesPayments(t, r, now);
    case DoCancel(id, scope, actor, now) => CancelIsQuiet(t, id, scope, actor, now);
    case DoChangeSeat(id, position, target, scope, actor, now) =>
      ChangeSeatLeavesPayments(t, id, position, target, scope, actor, now);
    case DoExpire(now, limit, locked) => ExpiryLeavesPayments(t, now, limit, locked);
    case _ =>
  }

  lemma CommitKeepsSafe(s: System, x: Txn)
    requires Safe(s) && Plain(x) && Enabled(s.db, x)
    ensures Safe(s.(db := Apply(s.db, x)))
  {
    hide Inv, Ledger, Tasks, Apply, Enabled, Plain;
    ApplyKeepsInv(s.db, x);
    PlainIsQuiet(s.db, x);
    QuietKeepsLedger(s.db.payments, Apply(s.db, x).payments, s.provider);
    QuietKeepsTasks(s, Apply(s.db, x));
  }

  lemma RetryKeepsSafe(s: System, task: Task, now: Instant)
    requires Safe(s) && 1 <= task.payment.attempts
    ensures Safe(Next(s, RetryCharge(task, now)))
  {
    hide Inv, Ledger, Tasks, ChargeRetryDelayMs;
    var db' := ChargeRetried(s.db, task, now).db;
    RescheduleKeepsInv(s.db, task.id, PROCESSING, now + ChargeRetryDelayMs(task.payment.attempts));
    QuietKeepsLedger(s.db.payments, db'.payments, s.provider);
    QuietKeepsTasks(s, db');
  }

  lemma ClaimKeepsSafe(s: System, now: Instant, leaseMs: int, limit: nat, locked: set<Id>)
    requires Safe(s)
    ensures Safe(Next(s, Claim(now, leaseMs, limit, locked)))
  {
    hide Inv, Ledger, ClaimedIds;
    var db' := ClaimDue(s.db, now, leaseMs, limit, locked);
    ClaimKeepsInv(s.db, now, leaseMs, limit, locked);
    QuietKeepsLedger(s.db.payments, db'.payments, s.provider);
    QuietKeepsTasks(s, db');
  }

  // ---- Phase 1 ----

  lemma NewPaymentLedger(payments: map<Id, Payment>, v: Provider, id: Id, p: Payment)
    requires Ledger(payments, v) && id !in payments && p.status.PROCESSING?
    ensures Ledger(payments[id := p], v)
  {
  }

  lemma NewTaskKeepsTasks(s: System, db': Tables, id: Id, p: Payment)
    requires Tasks(s) && id !in s.db.payments && p.status.PROCESSING?
    requires db'.payments == s.db.payments[id := p]
    ensures Tasks(s.(db := db', charging := s.charging + {Task(id, p)}))
  {
  }

  lemma PayKeepsSafe(s: System, read: Option<Booking>, r: PayRequest, now: Instant, after: int)
    requires Safe(s) && EarlierRead(s.db, read, r.bookingId)
    ensures Safe(Next(s, Pay(read, r, now, after)))
  {
    hide Inv, Ledger, Tasks, StartPayment, EarlierRead;
    var o := StartPayment(s.db, read, r, now, after);
    StartKeepsInv(s.db, read, r, now, after);
    StartAddsOnePayment(s.db, read, r, now, after);
    if o.result.Ok? && o.result.value.Started? {
      NewPaymentLedger(s.db.payments, s.provider, r.paymentId, o.result.value.payment);
      NewTaskKeepsTasks(s, o.db, r.paymentId, o.result.value.payment);
    } else {
      SamePaymentsKeepTasks(s, o.db);
    }
  }

  lemma SamePaymentsKeepTasks(s: System, db': Tables)
    requires Tasks(s) && db'.payments == s.db.payments
    ensures Tasks(s.(db := db', charging := s.charging + {}))
  {
  }

  // ---- Gateway calls ----

  lemma ChargeKeepsLedger(payments: map<Id, Payment>, v: Provider, id: Id, decision: ChargeAnswer)
    requires Ledger(payments, v) && id in payments
    ensures Ledger(payments, Charge(v, id, payments[id].amount, decision))
  {
    var v' := Charge(v, id, payments[id].amount, decision);
    forall p | p in payments ensures PaymentLedger(v', p, payments[p]) {
      assert PaymentLedger(v, p, payments[p]);
    }
  }

  lemma CallChargeKeepsSafe(s: System, task: Task, decision: ChargeAnswer, answered: bool)
    requires Safe(s) && task in s.charging
    ensures Safe(Next(s, CallCharge(task, decision, answered)))
  {
    hide Inv, Ledger;
    ChargeKeepsLedger(s.db.payments, s.provider, task.id, decision);
  }

  lemma GiveBackKeepsLedger(payments: map<Id, Payment>, v: Provider, id: Id)
    requires Ledger(payments, v) && id in payments && InRefund(payments[id].status)
    ensures Ledger(payments, GiveBack(v, id, payments[id].amount))
  {
    var v' := GiveBack(v, id, payments[id].amount);
    forall p | p in payments ensures PaymentLedger(v', p, payments[p]) {
      assert PaymentLedger(v, p, payments[p]);
    }
  }

  lemma CallRefundKeepsSafe(s: System, task: Task, answer: RefundAnswer, applied: bool)
    requires Safe(s) && Can(s, CallRefund(task, answer, applied))
    ensures Safe(Next(s, CallRefund(task, answer, applied)))
  {
    hide Inv, Ledger;
    assert RefundCopy(s.db.payments, task);
    GiveBackKeepsLedger(s.db.payments, s.provider, task.id);
  }

  // ---- Phase 3 and the recorded refund ----

  /** A settled row whose books are right keeps every book right. */
  lemma SettleKeepsLedger(payments: map<Id, Payment>, v: Provider, id: Id, q: Payment)
    requires Ledger(payments, v) && id in payments && PaymentLedger(v, id, q)
    ensures Ledger(payments[id := q], v)
  {
  }

  lemma SettleKeepsTasks(s: System, db': Tables, id: Id)
    requires Tasks(s) && HasStatus(s.db, id, PROCESSING) && id in db'.payments
    requires db'.payments == s.db.payments[id := db'.payments[id]]
    requires db'.payments[id].bookingId == s.db.payments[id].bookingId
    requires db'.payments[id].accountId == s.db.payments[id].accountId
    requires db'.payments[id].createdAt == s.db.payments[id].createdAt
    requires db'.payments[id].amount == s.db.payments[id].amount
    ensures Tasks(s.(db := db'))
  {
  }

  /** A recorded charge moves one row: SUCCEEDED or REFUND_PENDING, with the provider's reference. */
  lemma ChargedMovesOneRow(t: Tables, id: Id, p: Payment, reference: string, actor: Actor, now: Instant)
    ensures
      var t' := Charged(t, id, p, reference, actor, now).db;
      t' != t ==>
        && HasStatus(t, id, PROCESSING) && id in t'.payments
        && t'.payments == t.payments[id := t'.payments[id]]
        && t'.payments[id] == t.payments[id].(
             status := t'.payments[id].status, updatedAt := now, providerReference := Some(reference), token := None,
             nextAttemptAt := t'.payments[id].nextAttemptAt, attempts := 0)
        && (t'.payments[id].status.SUCCEEDED? || t'.payments[id].status.REFUND_PENDING?)
  {
  }

  lemma ChargedKeepsSafe(s: System, task: Task, reference: string, actor: Actor, now: Instant)
    requires Safe(s) && Can(s, SettleCharged(task, reference, actor, now))
    ensures Safe(Next(s, SettleCharged(task, reference, actor, now)))
  {
    hide Inv, Ledger, Charged;
    var db' := Charged(s.db, task.id, task.payment, reference, actor, now).db;
    ChargedKeepsInv(s.db, task.id, task.payment, reference, actor, now);
    ChargedMovesOneRow(s.db, task.id, task.payment, reference, actor, now);
    if db' != s.db {
      LedgerRow(s.db.payments, s.provider, task.id);
      SettleKeepsLedger(s.db.payments, s.provider, task.id, db'.payments[task.id]);
      SettleKeepsTasks(s, db', task.id);
    }
  }

  lemma LedgerRow(payments: map<Id, Payment>, v: Provider, id: Id)
    requires Ledger(payments, v) && id in payments
    ensures PaymentLedger(v, id, payments[id])
  {
  }

  lemma DeclinedKeepsSafe(s: System, task: Task, reason: string, actor: Actor, now: Instant)
    requires Safe(s) && Can(s, SettleDeclined(task, reason, actor, now))
    ensures Safe(Next(s, SettleDeclined(task, reason, actor, now)))
  {
    hide Inv, Ledger, CompleteKeys, OpenKeysOf;
    var db' := Declined(s.db, task.id, reason, actor, now).db;
    DeclinedKeepsInv(s.db, task.id, reason, actor, now);
    if HasStatus(s.db, task.id, PROCESSING) {
      LedgerRow(s.db.payments, s.provider, task.id);
      SettleKeepsLedger(s.db.payments, s.provider, task.id, db'.payments[task.id]);
      SettleKeepsTasks(s, db', task.id);
    }
  }

  /** Anything but "refunded" moves the row where the books do not care. */
  lemma UnrefundedIsQuiet(s: System, task: Task, answer: RefundAnswer, now: Instant)
    requires Safe(s) && task in s.refunding && 1 <= task.payment.attempts && !answer.Refunded?
    ensures
      var db' := RefundSettled(s.db, task, answer, now).db;
      Inv(db') && AllQuiet(s.db.payments, db'.payments)
  {
    hide Inv, Ledger, Tasks, RetryDelayMs;
    var verdict := Judge(task.payment.attempts, answer);
    if verdict.GiveUp? {
      RecordRefundKeepsInv(s.db, task.id, Some(verdict.reason), now);
    } else {
      RescheduleKeepsInv(s.db, task.id, REFUND_PENDING, now + verdict.delayMs);
    }
  }

  /** REFUNDED is recorded of payments the provider gave back only. */
  lemma RefundedKeepsSafe(s: System, task: Task, now: Instant)
    requires Safe(s) && task in s.refunding && task.id in s.provider.refunded
    ensures Safe(s.(db := RecordRefund(s.db, task.id, None, now).db))
  {
    hide Inv, Ledger;
    var db' := RecordRefund(s.db, task.id, None, now).db;
    RecordRefundKeepsInv(s.db, task.id, None, now);
    if HasStatus(s.db, task.id, REFUND_PENDING) {
      LedgerRow(s.db.payments, s.provider, task.id);
      SettleKeepsLedger(s.db.payments, s.provider, task.id, db'.payments[task.id]);
      forall other | other in s.charging ensures Copies(db'.payments, other) && other.payment.status.PROCESSING? {
        assert Copies(s.db.payments, other);
      }
      forall other | other in s.refunding ensures RefundCopy(db'.payments, other) {
        assert RefundCopy(s.db.payments, other);
      }
    }
  }

  lemma FewerTasksAreSafe(s: System, task: Task)
    requires Safe(s)
    ensures Safe(s.(refunding := s.refunding - {task}))
  {
    hide Inv, Ledger, RefundCopy;
  }

  lemma RefundTask(s: System, task: Task, answer: RefundAnswer)
    requires Tasks(s) && task in s.refunding && (task, answer) in s.refundAnswers
    ensures 1 <= task.payment.attempts && (answer.Refunded? ==> task.id in s.provider.refunded)
  {
  }

  lemma SettleRefundKeepsSafe(s: System, task: Task, answer: RefundAnswer, now: Instant)
    requires Safe(s) && Can(s, SettleRefund(task, answer, now))
    ensures Safe(Next(s, SettleRefund(task, answer, now)))
  {
    hide Inv, Ledger, Tasks, RecordRefund, Reschedule;
    RefundTask(s, task, answer);
    var s1 := s.(db := RefundSettled(s.db, task, answer, now).db);
    if answer.Refunded? {
      RefundedKeepsSafe(s, task, now);
    } else {
      UnrefundedIsQuiet(s, task, answer, now);
      QuietKeepsLedger(s.db.payments, s1.db.payments, s.provider);
      QuietKeepsTasks(s, s1.db);
    }
    FewerTasksAreSafe(s1, task);
  }

  lemma NextKeepsSafe(s: System, a: Action)
    requires Safe(s) && Can(s, a)
    ensures Safe(Next(s, a))
  {
    hide Inv, Ledger, Tasks, Safe, EarlierRead, Enabled, Plain, Apply, StartPayment, ClaimDue, Charged, Declined,
         ChargeRetried, RefundSettled, RefundMay;
    match a
    case Commit(x) => CommitKeepsSafe(s, x);
    case Pay(read, r, now, after) => PayKeepsSafe(s, read, r, now, after);
    case Claim(now, lease, limit, locked) => ClaimKeepsSafe(s, now, lease, limit, locked);
    case CallCharge(task, decision, answered) => CallChargeKeepsSafe(s, task, decision, answered);
    case SettleCharged(task, reference, actor, now) => ChargedKeepsSafe(s, task, reference, actor, now);
    case SettleDeclined(task, reason, actor, now) => DeclinedKeepsSafe(s, task, reason, actor, now);
    case RetryCharge(task, now) => RetryKeepsSafe(s, task, now);
    case CallRefund(task, answer, applied) => CallRefundKeepsSafe(s, task, answer, applied);
    case SettleRefund(task, answer, now) => SettleRefundKeepsSafe(s, task, answer, now);
  }
}

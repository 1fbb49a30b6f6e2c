/**
 * pay-for-booking.ts and reconcile-payments.ts, outside transactions: the
 * request's three phases and the job's claim, call, record. Every run of
 * either is a run of the protocol, so every safety theorem covers it.
 */
module PaymentDrivers {
  import opened Basics
  import opened Schema
  import opened Transactions
  import opened Histories
  import opened MoneySafety
  import opened Theorems
  import opened BookingDb
  import opened PaymentRepository
  import opened PaymentUseCases
  import opened Gateway

  /** The protocol state `s` is what the database and the gateway hold. */
  ghost predicate Shows(s: System, db: Database, gateway: SimulatedGateway)
    reads db, gateway
  {
    s.db == db.Contents() && s.provider == gateway.Books()
  }

  /** `run` leads from `s` to `s'` by protocol steps. */
  ghost predicate Leads(s: System, run: seq<Action>, s': System) {
    LegalRun(s, run) && RunAll(s, run) == s'
  }

  lemma {:induction false} LeadsOn(s: System, run: seq<Action>, s1: System, a: Action)
    requires Leads(s, run, s1) && Can(s1, a)
    ensures Leads(s, run + [a], Next(s1, a))
    decreases |run|
  {
    hide Can, Next;
    if run == [] {
      var one := run + [a];
      assert one[0] == a && one[1..] == [];
      assert LegalRun(Next(s, a), one[1..]) && RunAll(Next(s, a), one[1..]) == Next(s, a);
    } else {
      LeadsOn(Next(s, run[0]), run[1..], s1, a);
      assert (run + [a])[1..] == run[1..] + [a];
    }
  }

  /** What was done since claims nothing more. */
  ghost predicate ClaimsNoMore(run: seq<Action>, run': seq<Action>) {
    run <= run' && forall i | |run| <= i < |run'| :: !run'[i].Claim?
  }

  lemma ClaimsNoMoreChain(a: seq<Action>, b: seq<Action>, c: seq<Action>)
    requires ClaimsNoMore(a, b) && ClaimsNoMore(b, c)
    ensures ClaimsNoMore(a, c)
  {
  }

  /** Drivers that only take protocol steps keep the system safe. */
  lemma LeadsKeepsSafe(s: System, run: seq<Action>, s': System)
    requires Leads(s, run, s') && Safe(s)
    ensures Safe(s')
  {
    hide Safe, LegalRun, RunAll;
    SafetyPersists(s, run);
  }

  // ---- One gateway call ----

  /** A call that reaches the provider is one protocol step; one that does not is none. */
  method ChargeAtGateway(
    gateway: SimulatedGateway, task: Task, token: string, cutOff: bool, ghost s: System, ghost run: seq<Action>,
    ghost s1: System)
    returns (answer: Option<ChargeAnswer>, ghost run': seq<Action>, ghost s2: System)
    requires Leads(s, run, s1) && s1.provider == gateway.Books() && task in s1.charging
    modifies gateway
    ensures Leads(s, run', s2) && s2.provider == gateway.Books() && ClaimsNoMore(run, run')
    ensures s2 == s1.(provider := s2.provider, answers := s2.answers)
    ensures s1.answers <= s2.answers && (answer.Some? ==> (task.id, answer.value) in s2.answers)
    ensures answer.Some? ==> task.id in gateway.charges && gateway.charges[task.id] == answer.value
    ensures !cutOff && token !in {"tok_timeout_before_charge", "tok_lost_response"} ==> answer.Some?
    ensures gateway.Books() == if old(gateway.Reaches(task.id, token, cutOff))
      then Charge(old(gateway.Books()), task.id, task.payment.amount, Decision(task.id, token)) else old(gateway.Books())
  {
    hide LegalRun, RunAll, Leads;
    ghost var reached := gateway.Reaches(task.id, token, cutOff);
    answer := gateway.ChargeOnce(task.id, task.payment.amount, token, cutOff);
    if reached {
      ghost var a := Action.CallCharge(task, Decision(task.id, token), answer.Some?);
      LeadsOn(s, run, s1, a);
      run', s2 := run + [a], Next(s1, a);
    } else {
      run', s2 := run, s1;
    }
  }

  // ---- The paying request ----

  datatype PayResult =
    | Response(outcome: PayOutcome)
    | Processing(payment: Payment)
    | Settled(response: StoredResponse)
    | Threw(message: string)

  /** What phase 3 records of an answer, on the caller's own copy of the payment. */
  function SettlementOf(task: Task, answer: ChargeAnswer, actor: Actor, now: Instant): Settlement {
    match answer
    case Succeeded(reference) => ByCharge(task.payment, reference, actor, now)
    case Denied(reason) => ByDecline(reason, actor, now)
  }

  /** Phase 3 after a definite answer. */
  method RecordAnswer(
    db: Database, task: Task, answer: ChargeAnswer, actor: Actor, now: Instant, ghost s: System,
    ghost run: seq<Action>, ghost s1: System)
    returns (r: Result<StoredResponse>, ghost run': seq<Action>, ghost s2: System)
    requires Leads(s, run, s1) && s1.db == db.Contents()
    requires task in s1.charging && (task.id, answer) in s1.answers
    modifies db
    ensures Leads(s, run', s2) && s2 == s1.(db := db.Contents())
    ensures Outcome(db.Contents(), r) == Settle(old(db.Contents()), task.id, SettlementOf(task, answer, actor, now))
    ensures r.Ok? ==> !HasStatus(db.Contents(), task.id, PROCESSING)
    ensures r.Err? ==> db.Contents() == old(db.Contents())
  {
    hide LegalRun, RunAll, Leads, Charged, Declined;
    ghost var a;
    if answer.Succeeded? {
      SettledOrUntouched(db.Contents(), task.id, ByCharge(task.payment, answer.reference, actor, now));
      a := Action.SettleCharged(task, answer.reference, actor, now);
      r := PaymentUseCases.SettleCharged(db, task.id, task.payment, answer.reference, actor, now);
    } else {
      SettledOrUntouched(db.Contents(), task.id, ByDecline(answer.reason, actor, now));
      a := Action.SettleDeclined(task, answer.reason, actor, now);
      r := PaymentUseCases.SettleDeclined(db, task.id, answer.reason, actor, now);
    }
    LeadsOn(s, run, s1, a);
    run', s2 := run + [a], Next(s1, a);
  }

  lemma SettledOrUntouched(t: Tables, id: Id, how: Settlement)
    ensures Settle(t, id, how).result.Ok? ==> !HasStatus(Settle(t, id, how).db, id, PROCESSING)
    ensures Settle(t, id, how).result.Err? ==> Settle(t, id, how).db == t
  {
    hide Confirmable, Book, SeatsOf, CompleteKeys, OpenKeysOf, Total, PaidAlready, ConfirmedResponse, NotPayable;
  }

  /**
   * Three phases around the gateway. `startedAt` and `settledAt` are the
   * clock readings of phases 1 and 3, `cutOff` whether the call timed out on
   * the way, `answer` what came back from the gateway. Whatever happens is a
   * run of the protocol. A phase-1 answer is handed on and never reaches the
   * gateway; a started payment is charged once, for its own amount and token;
   * a definite answer is recorded at once and phase 3's response returned, and
   * no answer leaves the payment as phase 1 started it.
   */
  method PayForBooking(
    db: Database, gateway: SimulatedGateway, scope: Scope, r: PayRequest, startedAt: Instant, settledAt: Instant,
    cutOff: bool, reconcileAfterMs: int, ghost s: System)
    returns (result: PayResult, ghost answer: Option<ChargeAnswer>, ghost run: seq<Action>, ghost s': System)
    requires Shows(s, db, gateway)
    modifies db, gateway
    ensures Leads(s, run, s') && Shows(s', db, gateway)
    ensures
      var t := old(db.Contents());
      var o := StartPayment(t, Find(t, r.bookingId, scope), r, startedAt, reconcileAfterMs);
      if o.result.Err? then result == Threw(o.result.message) && db.Contents() == t && gateway.Books() == old(gateway.Books())
      else if !o.result.value.Started? then
        result == Response(o.result.value) && db.Contents() == o.db && gateway.Books() == old(gateway.Books())
      else
        var task := Task(r.paymentId, o.result.value.payment);
        && gateway.Books() == (if old(gateway.Reaches(r.paymentId, r.token, cutOff))
             then Charge(old(gateway.Books()), task.id, task.payment.amount, Decision(task.id, r.token))
             else old(gateway.Books()))
        && (!cutOff && r.token !in {"tok_timeout_before_charge", "tok_lost_response"} ==> answer.Some?)
        && (answer.None? ==> result == Processing(task.payment) && db.Contents() == o.db)
        && (answer.Some? ==>
              && task.id in gateway.charges && gateway.charges[task.id] == answer.value
              && var settled := Settle(o.db, task.id, SettlementOf(task, answer.value, Account(r.actor), settledAt));
                 && db.Contents() == settled.db
                 && result == if settled.result.Ok? then Settled(settled.result.value) else Threw(settled.result.message))
    ensures result.Processing? ==> HasStatus(db.Contents(), r.paymentId, PROCESSING)
    ensures result.Settled? ==> !HasStatus(db.Contents(), r.paymentId, PROCESSING)
  {
    hide LegalRun, RunAll, Leads, StartPayment, Undisturbed, Finding, Charged, Declined, Decision;
    answer := None;
    var read := Find(db.Contents(), r.bookingId, scope);
    var sights := Undisturbed(db.keys, KeyId(r.actor, r.key));
    var phase1 := PaymentUseCases.Start(db, read, r, startedAt, reconcileAfterMs, sights);
    ghost var a := Pay(read, r, startedAt, reconcileAfterMs);
    StartAddsOnePayment(s.db, read, r, startedAt, reconcileAfterMs);
    LeadsNowhere(s);
    LeadsOn(s, [], s, a);
    run, s' := [a], Next(s, a);
    assert [] + [a] == [a];
    if phase1.Err? {
      StartErrWritesNothing(s.db, read, r, startedAt, reconcileAfterMs);
      return Threw(phase1.message), answer, run, s';
    }
    if !phase1.value.Started? {
      return Response(phase1.value), answer, run, s';
    }
    var task := Task(r.paymentId, phase1.value.payment);
    var reply;
    reply, run, s' := ChargeAtGateway(gateway, task, r.token, cutOff, s, run, s');
    answer := reply;
    if reply.None? {
      return Processing(task.payment), answer, run, s';
    }
    var settled;
    settled, run, s' := RecordAnswer(db, task, reply.value, Account(r.actor), settledAt, s, run, s');
    return if settled.Ok? then Settled(settled.value) else Threw(settled.message), answer, run, s';
  }

  lemma LeadsNowhere(s: System)
    ensures Leads(s, [], s)
  {
  }
}

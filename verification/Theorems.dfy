/** The promises, spelled out for every reachable state. */
module Theorems {
  import opened Basics
  import opened Retries
  import opened Schema
  import opened Lifecycle
  import opened Transactions
  import opened Invariants
  import opened PaymentSteps
  import opened Runs
  import opened MoneySafety

  const START := System(EMPTY, Provider(map[], {}, multiset{}), {}, {}, {}, {})

  predicate LegalRun(s: System, run: seq<Action>)
    decreases |run|
  {
    run == [] || (Can(s, run[0]) && LegalRun(Next(s, run[0]), run[1..]))
  }

  function RunAll(s: System, run: seq<Action>): System
    decreases |run|
  {
    if run == [] then s else RunAll(Next(s, run[0]), run[1..])
  }

  lemma {:induction false} SafetyPersists(s: System, run: seq<Action>)
    requires Safe(s) && LegalRun(s, run)
    ensures Safe(RunAll(s, run))
    decreases |run|
  {
    hide Safe, Can, Next;
    if run != [] {
      NextKeepsSafe(s, run[0]);
      SafetyPersists(Next(s, run[0]), run[1..]);
    }
  }

  lemma EveryRunIsSafe(run: seq<Action>)
    requires LegalRun(START, run)
    ensures Safe(RunAll(START, run))
  {
    hide RunAll, LegalRun;
    EmptyInv();
    SafetyPersists(START, run);
  }

  // ---- Every run of the protocol is a run of transactions ----

  /** What is committed when a refund's answer is recorded. */
  function RefundTxn(task: Task, answer: RefundAnswer, now: Instant): Txn
    requires 1 <= task.payment.attempts
  {
    match Judge(task.payment.attempts, answer)
    case Done => DoRecordRefund(task.id, None, now)
    case GiveUp(reason) => DoRecordRefund(task.id, Some(reason), now)
    case TryAgain(delayMs) => DoReschedule(task.id, REFUND_PENDING, now + delayMs)
  }

  /** The transaction an action commits, if it commits one. */
  function CommitOf(a: Action): Option<Txn> {
    match a
    case Commit(x) => Some(x)
    case Pay(read, r, now, after) => Some(DoStart(read, r, now, after))
    case Claim(now, lease, limit, locked) => Some(DoClaim(now, lease, limit, locked))
    case SettleCharged(task, reference, actor, now) => Some(DoCharged(task.id, task.payment, reference, actor, now))
    case SettleDeclined(task, reason, actor, now) => Some(DoDeclined(task.id, reason, actor, now))
    case RetryCharge(task, now) =>
      if task.payment.attempts == 0 then None
      else Some(DoReschedule(task.id, PROCESSING, now + ChargeRetryDelayMs(task.payment.attempts)))
    case SettleRefund(task, answer, now) =>
      if task.payment.attempts == 0 then None else Some(RefundTxn(task, answer, now))
    case CallCharge(_, _, _) => None
    case CallRefund(_, _, _) => None
  }

  lemma NextCommits(s: System, a: Action)
    ensures Next(s, a).db == if CommitOf(a).None? then s.db else Apply(s.db, CommitOf(a).value)
  {
    hide CreateBooking, Cancel, ChangeSeat, ExpireBatch, Charged, Declined, StartPayment, ClaimDue, DeleteKeys,
         Reschedule, RecordRefund, AddFlight, Charge, GiveBack, ClaimedTasks, RetryDelayMs;
  }

  lemma CommitsAreEnabled(s: System, a: Action)
    requires Safe(s) && Can(s, a) && CommitOf(a).Some?
    ensures Enabled(s.db, CommitOf(a).value)
  {
    hide Inv, Ledger, RetryDelayMs, EarlierRead;
  }

  function CommitsOf(run: seq<Action>): seq<Txn> {
    if run == [] then []
    else (if CommitOf(run[0]).Some? then [CommitOf(run[0]).value] else []) + CommitsOf(run[1..])
  }

  lemma {:induction false} RunsCommit(s: System, run: seq<Action>)
    requires Safe(s) && LegalRun(s, run)
    ensures Legal(s.db, CommitsOf(run)) && Run(s.db, CommitsOf(run)) == RunAll(s, run).db
    decreases |run|
  {
    hide Safe, Can, Next, Enabled, Apply, CommitOf;
    if run != [] {
      NextCommits(s, run[0]);
      NextKeepsSafe(s, run[0]);
      RunsCommit(Next(s, run[0]), run[1..]);
      if CommitOf(run[0]).Some? {
        CommitsAreEnabled(s, run[0]);
        assert CommitsOf(run)[1..] == CommitsOf(run[1..]);
      } else {
        assert CommitsOf(run) == CommitsOf(run[1..]);
      }
    }
  }

  /** The tables a run of the protocol leaves are those of a legal run of its transactions, one after the other. */
  lemma ProtocolRunsAreTxnRuns(run: seq<Action>)
    requires LegalRun(START, run)
    ensures Legal(EMPTY, CommitsOf(run)) && Run(EMPTY, CommitsOf(run)) == RunAll(START, run).db
  {
    hide RunAll, LegalRun;
    EmptyInv();
    RunsCommit(START, run);
  }

  /** CONFIRMED iff exactly one payment SUCCEEDED, and that one paid exactly the total. */
  lemma ConfirmedIffPaid(t: Tables, b: Id)
    requires Money(t.bookings, t.payments) && b in t.bookings
    ensures t.bookings[b].status.CONFIRMED? <==> |SucceededOf(t, b)| == 1
    ensures |SucceededOf(t, b)| <= 1
    ensures forall p | p in SucceededOf(t, b) :: t.payments[p].amount == Total(t.bookings[b])
  {
    var paid := SucceededOf(t, b);
    forall p | p in paid ensures t.payments[p].amount == Total(t.bookings[b]) && t.bookings[b].status.CONFIRMED? {
      assert PaymentOk(t.bookings, t.payments[p]);
    }
    if t.bookings[b].status.CONFIRMED? {
      var p: Id :| PaidBy(t.payments, b, p);
      assert forall q | q in t.payments && q != p :: Compatible(t.payments[p], t.payments[q]);
      assert paid == {p};
    } else {
      assert paid == {};
    }
  }

  /** Money taken and given back, per payment status, as the provider's books show it. */
  ghost predicate BooksBalance(v: Provider, id: Id, p: Payment) {
    && (p.status.FAILED? ==> forall a: nat :: v.ledger[TookMoney(id, a)] == 0)
    && (WasCharged(p.status) ==> v.ledger[TookMoney(id, p.amount)] == 1)
    && (forall a: nat | a != p.amount :: v.ledger[TookMoney(id, a)] == 0 && v.ledger[GaveBack(id, a)] == 0)
    && v.ledger[TookMoney(id, p.amount)] <= 1
    && v.ledger[GaveBack(id, p.amount)] <= v.ledger[TookMoney(id, p.amount)]
    && (p.status.REFUNDED? ==> v.ledger[GaveBack(id, p.amount)] == 1)
    && (p.status.PROCESSING? || p.status.FAILED? || p.status.SUCCEEDED? ==> v.ledger[GaveBack(id, p.amount)] == 0)
  }

  /**
   * Money safety, for every run of requests, jobs, lost answers and clocks:
   * a booking is CONFIRMED iff it is paid, once and in full, and no money is
   * taken or given back that the payment rows do not account for.
   */
  lemma MoneyIsSafe(run: seq<Action>)
    requires LegalRun(START, run)
    ensures
      var s := RunAll(START, run);
      && (forall b | b in s.db.bookings ::
            (s.db.bookings[b].status.CONFIRMED? <==> |SucceededOf(s.db, b)| == 1)
            && forall p | p in SucceededOf(s.db, b) :: s.db.payments[p].amount == Total(s.db.bookings[b]))
      && (forall p | p in s.db.payments :: BooksBalance(s.provider, p, s.db.payments[p]))
      && (forall e | e in s.provider.ledger :: e.paymentId in s.db.payments)
  {
    hide RunAll, LegalRun, Inv, Tasks, Ledger, SucceededOf, BooksBalance;
    EveryRunIsSafe(run);
    var s := RunAll(START, run);
    MoneyOf(s.db);
    forall b | b in s.db.bookings
      ensures (s.db.bookings[b].status.CONFIRMED? <==> |SucceededOf(s.db, b)| == 1)
              && forall p | p in SucceededOf(s.db, b) :: s.db.payments[p].amount == Total(s.db.bookings[b])
    {
      ConfirmedIffPaid(s.db, b);
    }
    LedgerBalances(s.db.payments, s.provider);
  }

  lemma MoneyOf(t: Tables)
    requires Inv(t)
    ensures Money(t.bookings, t.payments)
  {
  }

  lemma LedgerBalances(payments: map<Id, Payment>, v: Provider)
    requires Ledger(payments, v)
    ensures forall p | p in payments :: BooksBalance(v, p, payments[p])
    ensures forall e | e in v.ledger :: e.paymentId in payments
  {
  }

  // ---- Seat conservation ----

  function FlightSeats(seats: map<SeatKey, Seat>, f: Id): set<SeatKey> {
    set k | k in seats && k.flightId == f
  }

  function FreeOn(seats: map<SeatKey, Seat>, f: Id): set<SeatKey> {
    set k | k in FlightSeats(seats, f) && seats[k].status.AVAILABLE?
  }

  function LiveOn(bookings: map<Id, Booking>, f: Id): set<Id> {
    set b | b in bookings && bookings[b].flightId == f && IsLive(bookings[b].status)
  }

  ghost function PassengersOf(bookings: map<Id, Booking>, ids: set<Id>): nat
    requires forall b | b in ids :: b in bookings
  {
    if ids == {} then 0
    else var b :| b in ids; |bookings[b].passengers| + PassengersOf(bookings, ids - {b})
  }

  lemma OwnersSplit(seats: map<SeatKey, Seat>, ids: set<Id>, b: Id)
    requires b in ids
    ensures SeatsOf(seats, ids) == SeatsOf(seats, {b}) + SeatsOf(seats, ids - {b})
    ensures SeatsOf(seats, {b}) !! SeatsOf(seats, ids - {b})
  {
  }

  lemma {:induction false} LiveBookingsOwn(t: Tables, ids: set<Id>)
    requires Inventory(t.seats, t.bookings)
    requires forall b | b in ids :: b in t.bookings && IsLive(t.bookings[b].status)
    ensures |SeatsOf(t.seats, ids)| == PassengersOf(t.bookings, ids)
    decreases |ids|
  {
    if ids == {} {
      assert SeatsOf(t.seats, ids) == {};
    } else {
      hide Inventory, SeatsOf;
      var b :| b in ids && PassengersOf(t.bookings, ids) == |t.bookings[b].passengers| + PassengersOf(t.bookings, ids - {b});
      LiveBookingsOwn(t, ids - {b});
      OwnedSeats(t, b);
      OwnersSplit(t.seats, ids, b);
    }
  }

  /** Every seat of a flight is free or owned by one of its live bookings. */
  lemma SeatsAreFreeOrOwned(t: Tables, f: Id)
    requires Inventory(t.seats, t.bookings)
    ensures FlightSeats(t.seats, f) == FreeOn(t.seats, f) + SeatsOf(t.seats, LiveOn(t.bookings, f))
    ensures FreeOn(t.seats, f) !! SeatsOf(t.seats, LiveOn(t.bookings, f))
  {
  }

  /** Free seats plus the passengers of live bookings is always the flight's seat count. */
  lemma SeatsAreConserved(t: Tables, f: Id)
    requires Inventory(t.seats, t.bookings)
    ensures |FreeOn(t.seats, f)| + PassengersOf(t.bookings, LiveOn(t.bookings, f)) == |FlightSeats(t.seats, f)|
  {
    hide Inventory, SeatsOf;
    LiveBookingsOwn(t, LiveOn(t.bookings, f));
    SeatsAreFreeOrOwned(t, f);
  }

  /** In every reachable state, for every flight: the seats add up and no seat has two owners. */
  lemma InventoryAlwaysHolds(run: seq<Action>, f: Id)
    requires LegalRun(START, run)
    ensures
      var t := RunAll(START, run).db;
      && Inventory(t.seats, t.bookings)
      && |FreeOn(t.seats, f)| + PassengersOf(t.bookings, LiveOn(t.bookings, f)) == |FlightSeats(t.seats, f)|
  {
    hide RunAll, LegalRun, Inventory, Money, Events, Keys, Ledger, Tasks;
    EveryRunIsSafe(run);
    SeatsAreConserved(RunAll(START, run).db, f);
  }

  // ---- Keys and payments ----

  function OpenKeys(t: Tables): set<KeyId> { set k | k in t.keys && t.keys[k].status.IN_PROGRESS? }

  function Running(t: Tables): set<Id> { set p | p in t.payments && t.payments[p].status.PROCESSING? }

  /** IN_PROGRESS keys and PROCESSING payments correspond one to one, in every reachable state. */
  lemma KeysMatchPayments(run: seq<Action>)
    requires LegalRun(START, run)
    ensures
      var t := RunAll(START, run).db;
      && (forall k | k in OpenKeys(t) :: t.keys[k].paymentId.Some? && t.keys[k].paymentId.value in Running(t))
      && (forall k, l | k in OpenKeys(t) && l in OpenKeys(t) && t.keys[k].paymentId == t.keys[l].paymentId :: k == l)
      && (forall p | p in Running(t) :: exists k :: k in OpenKeys(t) && t.keys[k].paymentId == Some(p))
  {
    hide RunAll, LegalRun, Inventory, Money, Events, Keys, Ledger, Tasks, References;
    EveryRunIsSafe(run);
    KeysCorrespond(RunAll(START, run).db);
  }

  lemma KeysCorrespond(t: Tables)
    requires Keys(t.payments, t.keys, t.outbox)
    ensures forall k | k in OpenKeys(t) :: t.keys[k].paymentId.Some? && t.keys[k].paymentId.value in Running(t)
    ensures forall k, l | k in OpenKeys(t) && l in OpenKeys(t) && t.keys[k].paymentId == t.keys[l].paymentId :: k == l
    ensures forall p | p in Running(t) :: exists k :: k in OpenKeys(t) && t.keys[k].paymentId == Some(p)
  {
  }

  /** A stored answer goes with what its payment's own phase 3 announced: 201 iff it confirmed the booking, 402 iff declined. */
  lemma AnswersAgreeWithEvents(run: seq<Action>, k: KeyId)
    requires LegalRun(START, run) && k in RunAll(START, run).db.keys
    ensures
      var t := RunAll(START, run).db;
      var row := t.keys[k];
      && (row.status.COMPLETED? <==> row.response.Some?)
      && (row.status.COMPLETED? && row.paymentId.Some? ==>
            && row.paymentId.value in t.payments
            && !t.payments[row.paymentId.value].status.PROCESSING?
            && ResponseAgrees(t.payments, t.outbox, row.response.value, row.paymentId.value))
  {
    hide RunAll, LegalRun, Inventory, Money, Events, Ledger, Tasks, References, ResponseAgrees;
    EveryRunIsSafe(run);
    var t := RunAll(START, run).db;
    assert KeyOk(t.payments, t.outbox, t.keys[k]);
  }
}

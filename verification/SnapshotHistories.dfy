/**
 * Any number of concurrent transactions, each statement by statement with
 * snapshots of its own: in the order of their commits they are one legal run
 * of atomic steps.
 */
module SnapshotHistories {
  import opened Basics
  import opened Counting
  import opened Schema
  import opened Transactions
  import opened Invariants
  import opened PaymentSteps
  import opened Runs
  import opened Snapshots
  import opened SnapshotCancel
  import opened SnapshotTransactions
  import SnapshotHold
  import SnapshotSweep

  /**
   * A transaction as it ran. Those of several statements carry when each row
   * was found and locked; the others are one statement on the rows they lock,
   * or write nothing.
   */
  datatype Work =
    | AtOnce(txn: Txn)
    | Creates(r: CreateRequest, now: Instant, hold: SnapshotHold.HoldTimes)
    | Settles(id: Id, p: Payment, reference: string, actor: Actor, now: Instant, m: Moments3)
    | Declines(id: Id, reason: string, actor: Actor, now: Instant, paid: nat, key: nat)
    | Cancels(id: Id, scope: Scope, account: Id, now: Instant, g: nat, s: nat, paid: nat, at: map<SeatKey, nat>)
    | ChangesSeat(
        id: Id, position: nat, target: SeatPosition, scope: Scope, account: Id, now: Instant, g: nat, at: map<SeatKey, nat>)
    | Sweeps(sweep: SnapshotSweep.Sweep, g: nat, at: map<SeatKey, nat>)
    | WritesNothing

  /** What Postgres guarantees of it: its times lie in its timeline, and what it locked did not change until its commit. */
  ghost predicate MayCommit(line: seq<Tables>, w: Work)
    requires line != []
  {
    match w
    case AtOnce(x) => Enabled(AtCommit(line), x)
    case Creates(r, now, h) => SnapshotHold.HoldInTime(line, h) && SnapshotHold.Locked(line, r, now, h)
    case Settles(id, p, reference, actor, now, m) => MaySettle(line, id, p, now, m)
    case Declines(id, reason, actor, now, paid, key) => MayDecline(line, id, paid, key)
    case Cancels(id, scope, account, now, g, s, paid, at) =>
      && g <= s <= paid < |line| && LockStatementMatched(line, id, scope, now, g)
      && Granted(SeatsOf(line[s].seats, {id}), at, s, |line| - 1)
      && (forall q | q in SucceededOf(line[paid], id) :: PaymentLocked(line, q, paid))
    case ChangesSeat(id, position, target, scope, account, now, g, at) =>
      g < |line| && (InReach(line[g], id, scope) ==> ChangeLocked(line, id, position, target, g, at))
    case Sweeps(sweep, g, at) =>
      && g < |line| && SnapshotSweep.Scanned(line, sweep, g)
      && Granted(SeatsOf(line[0].seats, Elems(SnapshotSweep.Picks(line, sweep))), at, g, |line| - 1)
    case WritesNothing => true
  }

  ghost predicate MaySettle(line: seq<Tables>, id: Id, p: Payment, now: Instant, m: Moments3) {
    && InTime(line, m) && id in line[0].payments && CopyOf(line[0], id, p)
    && (Confirms(line, p.bookingId, Owner(p.accountId), now, m) ==>
          && RowLocked(line, p.bookingId, m.booking)
          && Granted(SeatsOf(line[0].seats, {p.bookingId}), m.seats, m.booking, |line| - 1))
    && (HasStatus(line[m.payment], id, PROCESSING) ==> PaymentLocked(line, id, m.payment))
    && (forall k | k in OpenKeysOf(line[m.key], id) :: KeyLocked(line, k, m.key))
  }

  ghost predicate MayDecline(line: seq<Tables>, id: Id, paid: nat, key: nat) {
    && paid <= key < |line| && id in line[0].payments
    && (HasStatus(line[paid], id, PROCESSING) ==> PaymentLocked(line, id, paid))
    && (forall k | k in OpenKeysOf(line[key], id) :: KeyLocked(line, k, key))
  }

  /** The tables its statements commit. */
  ghost function Commits(line: seq<Tables>, w: Work): Tables
    requires line != [] && MayCommit(line, w)
  {
    match w
    case AtOnce(x) => Apply(AtCommit(line), x)
    case Creates(r, now, h) => SnapshotHold.CreateStatements(line, r, now, h).db
    case Settles(id, p, reference, actor, now, m) => SettleStatements(line, id, p, reference, actor, now, m).db
    case Declines(id, reason, actor, now, paid, key) => DeclineStatements(line, id, reason, actor, now, paid, key).db
    case Cancels(id, scope, account, now, g, s, paid, at) =>
      if id in AtCommit(line).bookings then CancelTransaction(line, id, scope, account, now, s, paid, at)
      else AtCommit(line)
    case ChangesSeat(id, position, target, scope, account, now, g, at) =>
      ChangeFrom(line, id, position, target, scope, account, now, g, at).db
    case Sweeps(sweep, g, at) => SnapshotSweep.SweepTransaction(line, sweep, at)
    case WritesNothing => AtCommit(line)
  }

  /** The atomic step it amounts to at its commit; none when it wrote nothing. */
  ghost function StepOf(line: seq<Tables>, w: Work): Option<Txn>
    requires line != [] && MayCommit(line, w)
  {
    match w
    case AtOnce(x) => Some(x)
    case Creates(r, now, h) =>
      var done := SnapshotHold.CreateStatements(line, r, now, h);
      if done.result.Ok? && done.result.value.Created? then
        Some(DoCreate(r.(locked := SnapshotHold.PassedSeats(line, r, h)), now))
      else None
    case Settles(id, p, reference, actor, now, m) => Some(DoCharged(id, p, reference, actor, now))
    case Declines(id, reason, actor, now, paid, key) => Some(DoDeclined(id, reason, actor, now))
    case Cancels(id, scope, account, now, g, s, paid, at) => Some(DoCancel(id, scope, account, now))
    case ChangesSeat(id, position, target, scope, account, now, g, at) =>
      if InReach(line[g], id, scope) then Some(DoChangeSeat(id, position, target, scope, account, now)) else None
    case Sweeps(sweep, g, at) =>
      Some(DoExpire(sweep.now, sweep.limit, SnapshotSweep.PassedOver(line[0], AtCommit(line), sweep)))
    case WritesNothing => None
  }

  ghost predicate IsStep(t: Tables, x: Option<Txn>, t': Tables) {
    if x.None? then t' == t else Enabled(t, x.value) && t' == Apply(t, x.value)
  }

  lemma SettlesOneStep(
    line: seq<Tables>, id: Id, p: Payment, reference: string, actor: Actor, now: Instant, m: Moments3)
    requires line != [] && Timeline(line) && MaySettle(line, id, p, now, m)
    ensures Enabled(AtCommit(line), DoCharged(id, p, reference, actor, now))
    ensures SettleStatements(line, id, p, reference, actor, now, m).db
         == Apply(AtCommit(line), DoCharged(id, p, reference, actor, now))
  {
    hide Inv, Timeline, SettleStatements, Charged, Confirms, Granted, RowLocked, PaymentLocked, KeyLocked, HasStatus;
    SettlementIsAtomic(line, id, p, reference, actor, now, m);
    PaymentStays(line, id, 0, |line| - 1);
  }

  lemma DeclinesOneStep(line: seq<Tables>, id: Id, reason: string, actor: Actor, now: Instant, paid: nat, key: nat)
    requires line != [] && Timeline(line) && MayDecline(line, id, paid, key)
    ensures DeclineStatements(line, id, reason, actor, now, paid, key).db
         == Apply(AtCommit(line), DoDeclined(id, reason, actor, now))
  {
    hide Inv, Timeline, DeclineStatements, Declined, PaymentLocked, KeyLocked, HasStatus, OpenKeysOf;
    DeclineIsAtomic(line, id, reason, actor, now, paid, key);
  }

  lemma CreatesOneStep(line: seq<Tables>, r: CreateRequest, now: Instant, h: SnapshotHold.HoldTimes)
    requires line != [] && Timeline(line) && SnapshotHold.HoldInTime(line, h) && SnapshotHold.Locked(line, r, now, h)
    ensures
      var done := SnapshotHold.CreateStatements(line, r, now, h);
      done.db
      == if done.result.Ok? && done.result.value.Created? then
           Apply(AtCommit(line), DoCreate(r.(locked := SnapshotHold.PassedSeats(line, r, h)), now))
         else AtCommit(line)
  {
    hide Inv, Timeline, SnapshotHold.HoldInTime, SnapshotHold.Locked, SnapshotHold.CreateStatements, CreateBooking,
         SnapshotHold.PassedSeats;
    SnapshotHold.CreationIsAtomic(line, r, now, h);
  }

  lemma CancelsOneStep(
    line: seq<Tables>, id: Id, scope: Scope, account: Id, now: Instant, g: nat, s: nat, paid: nat, at: map<SeatKey, nat>)
    requires line != [] && Timeline(line) && MayCommit(line, Cancels(id, scope, account, now, g, s, paid, at))
    ensures id in AtCommit(line).bookings
    ensures CancelTransaction(line, id, scope, account, now, s, paid, at)
         == Apply(AtCommit(line), DoCancel(id, scope, account, now))
  {
    hide Inv, Timeline, CancelTransaction, Cancel, LockStatementMatched, Granted, SeatsOf, SucceededOf, PaymentLocked;
    CancellationIsAtomic(line, id, scope, account, now, g, s, paid, at);
  }

  lemma ChangesOneStep(
    line: seq<Tables>, id: Id, position: nat, target: SeatPosition, scope: Scope, account: Id, now: Instant, g: nat,
    at: map<SeatKey, nat>)
    requires line != [] && Timeline(line) && g < |line|
    requires InReach(line[g], id, scope) ==> ChangeLocked(line, id, position, target, g, at)
    ensures ChangeFrom(line, id, position, target, scope, account, now, g, at).db
         == if InReach(line[g], id, scope) then Apply(AtCommit(line), DoChangeSeat(id, position, target, scope, account, now))
            else AtCommit(line)
  {
    hide Inv, Timeline, ChangeFrom, ChangeSeat, InReach, ChangeLocked;
    ChangeIsAtomic(line, id, position, target, scope, account, now, g, at);
  }

  lemma SweepsOneStep(line: seq<Tables>, w: SnapshotSweep.Sweep, g: nat, at: map<SeatKey, nat>)
    requires line != [] && Timeline(line) && MayCommit(line, Sweeps(w, g, at))
    ensures SnapshotSweep.SweepTransaction(line, w, at)
         == Apply(AtCommit(line), DoExpire(w.now, w.limit, SnapshotSweep.PassedOver(line[0], AtCommit(line), w)))
  {
    hide Inv, Timeline, SnapshotSweep.SweepTransaction, SnapshotSweep.Scanned, SnapshotSweep.Picks, SeatsOf, Granted,
         ExpireBatch, SnapshotSweep.PassedOver;
    SnapshotSweep.SweepIsAtomic(line, w, g, at);
  }

  /** Each transaction, whatever it waited for, is its atomic step on the tables it commits to. */
  lemma CommitsOneStep(line: seq<Tables>, w: Work)
    requires line != [] && Timeline(line) && MayCommit(line, w)
    ensures IsStep(AtCommit(line), StepOf(line, w), Commits(line, w))
  {
    hide Inv, Timeline, Apply, MaySettle, MayDecline, DeclineStatements, LockStatementMatched, Granted, SeatsOf,
         SucceededOf, PaymentLocked, InReach,
         ChangeLocked, ChangeFrom, CancelTransaction, SettleStatements, SnapshotHold.HoldInTime, SnapshotHold.Locked,
         SnapshotHold.CreateStatements, SnapshotHold.PassedSeats, SnapshotSweep.SweepTransaction, SnapshotSweep.Scanned,
         SnapshotSweep.Picks, SnapshotSweep.PassedOver, AtCommit;
    match w
    case AtOnce(x) =>
    case Creates(r, now, h) => CreatesOneStep(line, r, now, h);
    case Settles(id, p, reference, actor, now, m) => SettlesOneStep(line, id, p, reference, actor, now, m);
    case Declines(id, reason, actor, now, paid, key) => DeclinesOneStep(line, id, reason, actor, now, paid, key);
    case Cancels(id, scope, account, now, g, s, paid, at) => CancelsOneStep(line, id, scope, account, now, g, s, paid, at);
    case ChangesSeat(id, position, target, scope, account, now, g, at) =>
      ChangesOneStep(line, id, position, target, scope, account, now, g, at);
    case Sweeps(sweep, g, at) => SweepsOneStep(line, sweep, g, at);
    case WritesNothing =>
  }

  // ---- Histories ----

  /** A transaction and the commit its first statement's snapshot came after. */
  datatype Committed = Committed(since: nat, work: Work)

  /** What the n-th transaction went through: from its snapshot to its own commit. */
  function LineOf(states: seq<Tables>, commits: seq<Committed>, n: nat): seq<Tables>
    requires n < |commits| && |states| > n && commits[n].since <= n
  {
    states[commits[n].since..n + 1]
  }

  /** `states[n]` are the committed tables after the first `n` commits, each statement by statement. */
  ghost predicate Happened(states: seq<Tables>, commits: seq<Committed>) {
    && |states| == |commits| + 1
    && forall n | 0 <= n < |commits| ::
         && commits[n].since <= n
         && MayCommit(LineOf(states, commits, n), commits[n].work)
         && states[n + 1] == Commits(LineOf(states, commits, n), commits[n].work)
  }

  lemma LineIsATimeline(states: seq<Tables>, commits: seq<Committed>, n: nat)
    requires n < |commits| && n < |states| && commits[n].since <= n && Timeline(states[..n + 1])
    ensures LineOf(states, commits, n) != [] && Timeline(LineOf(states, commits, n))
    ensures AtCommit(LineOf(states, commits, n)) == states[n]
  {
    hide Inv, OneStep;
    var line, since := LineOf(states, commits, n), commits[n].since;
    EveryMoment(states[..n + 1], since);
    forall j | 0 < j < |line| ensures OneStep(line[j - 1], line[j]) {
      assert line[j - 1] == states[..n + 1][since + j - 1] && line[j] == states[..n + 1][since + j];
    }
  }

  /** The atomic steps of the first `n` commits, in commit order. */
  ghost function SerialOf(states: seq<Tables>, commits: seq<Committed>, n: nat): seq<Txn>
    requires Happened(states, commits) && n <= |commits|
  {
    if n == 0 then []
    else
      var step := StepOf(LineOf(states, commits, n - 1), commits[n - 1].work);
      SerialOf(states, commits, n - 1) + (if step.Some? then [step.value] else [])
  }

  lemma TimelineGrows(states: seq<Tables>, n: nat, x: Option<Txn>)
    requires n + 1 < |states| && Timeline(states[..n + 1]) && IsStep(states[n], x, states[n + 1])
    ensures Timeline(states[..n + 2])
  {
    hide Inv, Apply, Enabled;
    var line := states[..n + 2];
    assert line[..n + 1] == states[..n + 1];
    forall j | 0 < j < |line| ensures OneStep(line[j - 1], line[j]) {
      if j <= n { assert OneStep(states[..n + 1][j - 1], states[..n + 1][j]); }
    }
  }

  /**
   * However many transactions overlap, each with its own snapshots and locks:
   * the tables after every commit are those of one legal run of the atomic
   * steps, one for each commit that wrote, in the order of the commits.
   */
  lemma {:induction false} HistoriesAreSerial(states: seq<Tables>, commits: seq<Committed>, n: nat)
    requires Happened(states, commits) && Inv(states[0]) && n <= |commits|
    ensures Timeline(states[..n + 1])
    ensures Legal(states[0], SerialOf(states, commits, n)) && Run(states[0], SerialOf(states, commits, n)) == states[n]
    decreases n
  {
    hide Inv, Timeline, MayCommit, Commits, StepOf, Apply, Enabled, AtCommit;
    if n == 0 {
      Alone(states[0]);
      assert states[..1] == [states[0]];
      RunNowhere(states[0]);
    } else {
      HistoriesAreSerial(states, commits, n - 1);
      var line, w := LineOf(states, commits, n - 1), commits[n - 1].work;
      LineIsATimeline(states, commits, n - 1);
      CommitsOneStep(line, w);
      TimelineGrows(states, n - 1, StepOf(line, w));
      if StepOf(line, w).Some? {
        RunThen(states[0], SerialOf(states, commits, n - 1), StepOf(line, w).value);
      } else {
        assert SerialOf(states, commits, n) == SerialOf(states, commits, n - 1);
      }
    }
  }

  lemma Alone(t: Tables)
    requires Inv(t)
    ensures Timeline([t])
  {
    hide Inv;
  }

  /** So every promise about runs of atomic steps holds at every commit of every such history. */
  lemma EveryCommitIsReachable(states: seq<Tables>, commits: seq<Committed>, n: nat)
    requires Happened(states, commits) && states[0] == EMPTY && n <= |commits|
    ensures Inv(states[n])
    ensures exists xs :: Legal(EMPTY, xs) && Run(EMPTY, xs) == states[n]
  {
    hide Inv, Run, Legal, SerialOf, Happened;
    EmptyInv();
    HistoriesAreSerial(states, commits, n);
    RunKeepsInv(EMPTY, SerialOf(states, commits, n));
  }
}

/**
 * READ COMMITTED, statement by statement. A statement finds its rows in the
 * snapshot it started from, waits for their locks while other transactions
 * commit, and checks its condition again on the row it finally locked. Each
 * function here is one statement over such a timeline; each theorem says that
 * what it does is one atomic step on the tables it commits to.
 */
module Snapshots {
  import opened Basics
  import opened Schema
  import opened Lifecycle
  import opened Transactions
  import opened Invariants
  import opened Runs
  import opened Histories
  import opened BookingRepository

  // ---- Timelines ----

  /** From one commit to the next: some atomic transaction, or one that wrote nothing. */
  ghost predicate OneStep(t: Tables, t': Tables) {
    t' == t || exists x: Txn :: Enabled(t, x) && t' == Apply(t, x)
  }

  /** The committed tables, commit after commit: index 0 is the snapshot, the last one what our own commit adds to. */
  ghost predicate Timeline(line: seq<Tables>) {
    line != [] && Inv(line[0]) && forall j | 0 < j < |line| :: OneStep(line[j - 1], line[j])
  }

  /** The tables at our own commit. */
  function AtCommit(line: seq<Tables>): Tables
    requires line != []
  {
    line[|line| - 1]
  }

  lemma StepAdvances(t: Tables, t': Tables)
    requires Inv(t) && OneStep(t, t')
    ensures Inv(t') && BookingsAdvance(t.bookings, t'.bookings)
  {
    hide Inv, Apply, Enabled, BookingsAdvance;
    if t' == t {
      BookingsStay(t.bookings);
    } else {
      var x: Txn :| Enabled(t, x) && t' == Apply(t, x);
      ApplyKeepsInv(t, x);
      BookingsOnlyAdvance(t, x);
    }
  }

  lemma {:induction false} EveryMoment(line: seq<Tables>, j: nat)
    requires Timeline(line) && j < |line|
    ensures Inv(line[j])
  {
    hide Inv, OneStep;
    if j != 0 {
      EveryMoment(line, j - 1);
      assert OneStep(line[j - 1], line[j]);
      StepAdvances(line[j - 1], line[j]);
    }
  }

  /** Every moment keeps the invariant, and rows only advance from one moment to a later one. */
  lemma {:induction false} Moments(line: seq<Tables>, i: nat, j: nat)
    requires Timeline(line) && i <= j < |line|
    ensures Inv(line[i]) && Inv(line[j])
    ensures BookingsAdvance(line[i].bookings, line[j].bookings)
    decreases j
  {
    hide Inv, OneStep, BookingsAdvance;
    EveryMoment(line, i);
    EveryMoment(line, j);
    if i == j {
      BookingsStay(line[i].bookings);
    } else {
      Moments(line, i, j - 1);
      assert OneStep(line[j - 1], line[j]);
      StepAdvances(line[j - 1], line[j]);
      BookingsAdvanceTransitively(line[i].bookings, line[j - 1].bookings, line[j].bookings);
    }
  }

  /** From time `g` on nobody else changes the booking: its row is locked. */
  ghost predicate RowLocked(line: seq<Tables>, id: Id, g: nat)
    requires g < |line|
  {
    id in line[g].bookings
    && forall j | g <= j < |line| :: id in line[j].bookings && line[j].bookings[id] == line[g].bookings[id]
  }

  /** When each seat's lock is granted: after the booking's, before the commit. */
  ghost predicate Granted(keys: set<SeatKey>, at: map<SeatKey, nat>, g: nat, end: nat) {
    forall k | k in keys :: k in at && g <= at[k] <= end
  }

  /** The seats found in the snapshot that still belong to the booking when their lock is granted. */
  ghost function LockedSeats(line: seq<Tables>, found: set<SeatKey>, ids: set<Id>, at: map<SeatKey, nat>): set<SeatKey> {
    set k | k in found && k in at && at[k] < |line| && k in line[at[k]].seats && OwnedBy(line[at[k]].seats[k], ids)
  }

  /** A live booking whose row is the same at two moments owns the same seats at both. */
  lemma SameRowSameSeats(t: Tables, t': Tables, id: Id)
    requires Inv(t) && Inv(t') && id in t.bookings && id in t'.bookings
    requires t'.bookings[id] == t.bookings[id] && IsLive(t.bookings[id].status)
    ensures SeatsOf(t'.seats, {id}) == SeatsOf(t.seats, {id})
  {
    hide Inventory, Money, Events, Keys, SeatsOf;
    OwnedSeats(t, id);
    OwnedSeats(t', id);
  }

  // ---- Confirming a hold ----

  /** The WHERE held in the snapshot and again on the row locked at time `g`. */
  ghost predicate ConfirmMatched(line: seq<Tables>, id: Id, scope: Scope, now: Instant, g: nat)
    requires g < |line|
  {
    Confirmable(line[0], id, scope, now) && Confirmable(line[g], id, scope, now)
  }

  /** confirmHold: no lock statement of its own; the seats come from the statement's old snapshot. */
  ghost function ConfirmStatement(
    line: seq<Tables>, id: Id, scope: Scope, now: Instant, g: nat, at: map<SeatKey, nat>): Tables
    requires g < |line| && (ConfirmMatched(line, id, scope, now, g) ==> RowLocked(line, id, g))
  {
    var end := AtCommit(line);
    if ConfirmMatched(line, id, scope, now, g) then
      var seats := LockedSeats(line, SeatsOf(line[0].seats, {id}), {id}, at);
      end.(bookings := WithStatus(end.bookings, id, CONFIRMED), seats := Book(end.seats, seats))
    else end
  }

  /** A hold still HELD at time `g` has the row it had in the snapshot. */
  lemma HeldRowStays(line: seq<Tables>, id: Id, g: nat)
    requires Timeline(line) && g < |line| && id in line[0].bookings
    requires id in line[g].bookings && line[g].bookings[id].status.HELD?
    ensures line[g].bookings[id] == line[0].bookings[id]
  {
    hide Inv, Timeline;
    Moments(line, 0, g);
    assert BookingAdvances(line[0].bookings[id], line[g].bookings[id]);
  }

  lemma SameSeatsWhileLocked(line: seq<Tables>, id: Id, i: nat, j: nat)
    requires Timeline(line) && i <= j < |line|
    requires id in line[i].bookings && id in line[j].bookings
    requires line[j].bookings[id] == line[i].bookings[id] && IsLive(line[i].bookings[id].status)
    ensures SeatsOf(line[j].seats, {id}) == SeatsOf(line[i].seats, {id})
  {
    hide Inv, Timeline, SeatsOf, BookingsAdvance;
    Moments(line, i, j);
    SameRowSameSeats(line[i], line[j], id);
  }

  /** While the row is locked every seat found at time `i` is still the booking's when its own lock comes. */
  lemma FoundSeatsAreKept(line: seq<Tables>, id: Id, i: nat, g: nat, at: map<SeatKey, nat>)
    requires Timeline(line) && i <= g < |line| && RowLocked(line, id, g)
    requires id in line[i].bookings && line[i].bookings[id] == line[g].bookings[id]
    requires IsLive(line[i].bookings[id].status)
    requires Granted(SeatsOf(line[i].seats, {id}), at, g, |line| - 1)
    ensures LockedSeats(line, SeatsOf(line[i].seats, {id}), {id}, at) == SeatsOf(AtCommit(line).seats, {id})
  {
    hide Inv, Timeline;
    var found := SeatsOf(line[i].seats, {id});
    SameSeatsWhileLocked(line, id, i, |line| - 1);
    forall k | k in found ensures k in LockedSeats(line, found, {id}, at) {
      SameSeatsWhileLocked(line, id, i, at[k]);
    }
  }

  /** A hold that could be confirmed at the end could have been at every moment since the snapshot. */
  lemma ConfirmableBefore(line: seq<Tables>, b: Id, scope: Scope, now: Instant, j: nat)
    requires Timeline(line) && j < |line| && b in line[0].bookings && Confirmable(AtCommit(line), b, scope, now)
    ensures Confirmable(line[j], b, scope, now)
  {
    hide Inv, Timeline;
    Moments(line, 0, j);
    Moments(line, j, |line| - 1);
    assert b in line[j].bookings;
    assert BookingAdvances(line[j].bookings[b], AtCommit(line).bookings[b]);
  }

  /**
   * confirmHold refines one atomic confirmation of the tables it commits to,
   * or writes nothing where that would have been refused. It rests on a HELD
   * booking's seats never changing: the snapshot's seats are still its seats,
   * however long the statement waited.
   */
  lemma ConfirmIsAtomic(line: seq<Tables>, id: Id, scope: Scope, now: Instant, g: nat, at: map<SeatKey, nat>)
    requires Timeline(line) && g < |line|
    requires ConfirmMatched(line, id, scope, now, g) ==>
      RowLocked(line, id, g) && Granted(SeatsOf(line[0].seats, {id}), at, g, |line| - 1)
    ensures
      var end := AtCommit(line);
      var done := ConfirmStatement(line, id, scope, now, g, at);
      if ConfirmMatched(line, id, scope, now, g) then Confirmable(end, id, scope, now) && done == Confirmed(end, id)
      else done == end && (id in line[0].bookings ==> !Confirmable(end, id, scope, now))
  {
    hide Inv, Timeline, LockedSeats, SeatsOf, Granted, Book, Confirmable;
    if ConfirmMatched(line, id, scope, now, g) {
      ConfirmedRow(line, id, scope, now, g);
      FoundSeatsAreKept(line, id, 0, g, at);
    } else if id in line[0].bookings && Confirmable(AtCommit(line), id, scope, now) {
      ConfirmableBefore(line, id, scope, now, 0);
      ConfirmableBefore(line, id, scope, now, g);
    }
  }

  lemma ConfirmedRow(line: seq<Tables>, id: Id, scope: Scope, now: Instant, g: nat)
    requires Timeline(line) && g < |line| && ConfirmMatched(line, id, scope, now, g) && RowLocked(line, id, g)
    ensures id in line[0].bookings && line[g].bookings[id] == line[0].bookings[id] && IsLive(line[0].bookings[id].status)
    ensures id in AtCommit(line).bookings && Confirmable(AtCommit(line), id, scope, now)
  {
    hide Inv, Timeline;
    HeldRowStays(line, id, g);
  }
}

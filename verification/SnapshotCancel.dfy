/**
 * Cancel and seat change under READ COMMITTED. Cancel takes the booking's
 * lock in a statement of its own, so the statement that finds the seats
 * starts after any seat change has committed. Where that statement matched
 * nothing the cancel is wrong exactly when a seat change slipped in.
 */
module SnapshotCancel {
  import opened Basics
  import opened Counting
  import opened Schema
  import opened Lifecycle
  import opened Transactions
  import opened Invariants
  import opened Runs
  import opened Histories
  import opened BookingRepository
  import opened Snapshots

  /** The first statement found the booking, in scope, with its flight. */
  predicate InReach(t: Tables, id: Id, scope: Scope) {
    id in t.bookings && InScope(t.bookings[id], scope) && t.bookings[id].flightId in t.flights
  }

  /** FOR SHARE OF flight: nobody changes the flight from time `g` on. */
  ghost predicate FlightLocked(line: seq<Tables>, f: Id, g: nat)
    requires g < |line|
  {
    f in line[g].flights
    && forall j | g <= j < |line| :: f in line[j].flights && line[j].flights[f] == line[g].flights[f]
  }

  /** The first statement locked the booking and its flight at time `g`. */
  ghost predicate LockStatementMatched(line: seq<Tables>, id: Id, scope: Scope, now: Instant, g: nat)
    requires g < |line|
  {
    && Cancellable(line[0], id, scope, now) && Cancellable(line[g], id, scope, now)
    && RowLocked(line, id, g) && FlightLocked(line, line[g].bookings[id].flightId, g)
  }

  /** A cancel statement whose snapshot is the tables at time `m`. */
  ghost function CancelFrom(
    line: seq<Tables>, id: Id, scope: Scope, now: Instant, m: nat, at: map<SeatKey, nat>): Tables
    requires m < |line| && id in AtCommit(line).bookings
  {
    var end := AtCommit(line);
    if Cancellable(line[m], id, scope, now) then
      var seats := LockedSeats(line, SeatsOf(line[m].seats, {id}), {id}, at);
      end.(bookings := WithStatus(end.bookings, id, BookingStatus.CANCELLED), seats := Release(end.seats, seats))
    else end
  }

  lemma LockedStaysCancellable(line: seq<Tables>, id: Id, scope: Scope, now: Instant, g: nat, j: nat)
    requires g <= j < |line| && LockStatementMatched(line, id, scope, now, g)
    ensures Cancellable(line[j], id, scope, now)
    ensures id in line[j].bookings && line[j].bookings[id] == line[g].bookings[id]
    ensures IsLive(line[g].bookings[id].status)
  {
  }

  /** Once its lock statement has matched, the cancel statement, started at any later time, is one atomic cancel. */
  lemma CancelIsAtomic(
    line: seq<Tables>, id: Id, scope: Scope, now: Instant, g: nat, m: nat, at: map<SeatKey, nat>)
    requires Timeline(line) && g <= m < |line| && LockStatementMatched(line, id, scope, now, g)
    requires Granted(SeatsOf(line[m].seats, {id}), at, m, |line| - 1)
    ensures id in AtCommit(line).bookings && Cancellable(AtCommit(line), id, scope, now)
    ensures CancelFrom(line, id, scope, now, m, at) == Ended(AtCommit(line), id)
    ensures SeatCodes(line[m].seats, id) == SeatCodes(AtCommit(line).seats, id)
  {
    hide Inv, Timeline, LockedSeats, SeatsOf, Granted, Release, Cancellable;
    LockedStaysCancellable(line, id, scope, now, g, m);
    LockedStaysCancellable(line, id, scope, now, g, |line| - 1);
    LockedLater(line, id, g, m);
    FoundSeatsAreKept(line, id, m, m, at);
    SameSeatsWhileLocked(line, id, m, |line| - 1);
  }

  lemma LockedLater(line: seq<Tables>, id: Id, g: nat, m: nat)
    requires g <= m < |line| && RowLocked(line, id, g)
    ensures RowLocked(line, id, m)
  {
  }

  // ---- Without the lock ----

  /** A cancel statement on its own: seats from its snapshot at `m`, condition checked again on the row it locks. */
  ghost function UnlockedCancel(line: seq<Tables>, id: Id, m: nat, at: map<SeatKey, nat>): Tables
    requires m < |line| && id in AtCommit(line).bookings
  {
    var end := AtCommit(line);
    var seats := LockedSeats(line, SeatsOf(line[m].seats, {id}), {id}, at);
    end.(bookings := WithStatus(end.bookings, id, BookingStatus.CANCELLED), seats := Release(end.seats, seats))
  }

  lemma LockedFromSnapshot(line: seq<Tables>, id: Id, m: nat, g: nat, at: map<SeatKey, nat>)
    requires Timeline(line) && m <= g < |line| && id in line[m].bookings
    requires RowLocked(line, id, g) && IsLive(line[g].bookings[id].status)
    requires Granted(SeatsOf(line[m].seats, {id}), at, g, |line| - 1)
    ensures LockedSeats(line, SeatsOf(line[m].seats, {id}), {id}, at)
         == SeatsOf(line[m].seats, {id}) * SeatsOf(AtCommit(line).seats, {id})
  {
    hide Inv, Timeline;
    var found := SeatsOf(line[m].seats, {id});
    forall k | k in found
      ensures k in LockedSeats(line, found, {id}, at) <==> k in SeatsOf(AtCommit(line).seats, {id})
    {
      SameSeatsWhileLocked(line, id, g, at[k]);
      SameSeatsWhileLocked(line, id, g, |line| - 1);
      assert k in SeatsOf(line[at[k]].seats, {id}) <==> k in SeatsOf(AtCommit(line).seats, {id});
    }
  }

  lemma ReleaseIsExact(seats: map<SeatKey, Seat>, ids: set<Id>, keys: set<SeatKey>)
    requires keys <= SeatsOf(seats, ids)
    ensures Release(seats, keys) == Release(seats, SeatsOf(seats, ids)) <==> keys == SeatsOf(seats, ids)
  {
  }

  /**
   * A cancel statement that finds the booking unlocked is right if and only
   * if the booking has, when its lock is granted, the set of seats it had in
   * the statement's snapshot: no seat change committed in between, or later
   * ones undid it.
   */
  lemma UnlockedCancelIsRightIff(line: seq<Tables>, id: Id, m: nat, g: nat, at: map<SeatKey, nat>)
    requires Timeline(line) && m <= g < |line| && id in line[m].bookings && IsLive(line[m].bookings[id].status)
    requires RowLocked(line, id, g) && IsLive(line[g].bookings[id].status)
    requires Granted(SeatsOf(line[m].seats, {id}), at, g, |line| - 1)
    ensures UnlockedCancel(line, id, m, at) == Ended(AtCommit(line), id)
      <==> Elems(BookingKeys(line[m].bookings[id])) == Elems(BookingKeys(line[g].bookings[id]))
  {
    hide Inv, Timeline, LockedSeats, SeatsOf, Granted, Release;
    var end := AtCommit(line);
    LockedFromSnapshot(line, id, m, g, at);
    Moments(line, m, |line| - 1);
    OwnedOf(line[m], id);
    OwnedOf(end, id);
    var mine, theirs := SeatsOf(line[m].seats, {id}), SeatsOf(end.seats, {id});
    ReleaseIsExact(end.seats, {id}, mine * theirs);
    Moments(line, m, g);
    assert BookingAdvances(line[m].bookings[id], line[g].bookings[id]);
    assert |mine| == |theirs|;
    if mine * theirs == theirs {
      assert theirs <= mine;
      SubsetSizes(theirs, mine);
    }
  }

  /**
   * How a cancel gets there: its lock statement matched nothing and its
   * cancel statement, later, does. With the flight unchanged that is a hold
   * already lapsed by the cancel's clock, and confirmed in between by an
   * earlier one.
   */
  lemma LockStatementMissed(line: seq<Tables>, id: Id, scope: Scope, now: Instant, m: nat)
    requires Timeline(line) && m < |line| && id in line[0].bookings
    requires var f := line[0].bookings[id].flightId;
      f in line[0].flights && f in line[m].flights && line[m].flights[f] == line[0].flights[f]
    requires !Cancellable(line[0], id, scope, now) && Cancellable(line[m], id, scope, now)
    ensures HoldIsDue(line[0].bookings[id], now) && line[m].bookings[id].status.CONFIRMED?
  {
    hide Inv, Timeline;
    Moments(line, 0, m);
    assert BookingAdvances(line[0].bookings[id], line[m].bookings[id]);
    HasDeadline(line[0], id);
  }

  lemma HasDeadline(t: Tables, id: Id)
    requires Inv(t) && id in t.bookings
    ensures t.bookings[id].holdExpiresAt.Some?
  {
    hide Money, Events, Keys, SeatOk, OwnsItsSeats;
    assert WellFormed(t.bookings[id]);
  }

  /** What a cancel that matched nothing answers, from a later read of the booking. */
  function UnmatchedAnswer(t: Tables, id: Id, scope: Scope, now: Instant): Result<CancelOutcome> {
    if !InReach(t, id, scope) then Ok(NotFound)
    else
      var b := t.bookings[id];
      ClassifyNotCancelled(b.status, b.holdExpiresAt, t.flights[b.flightId].departureAt, now)
  }

  /** It throws if and only if the booking can be cancelled by then; otherwise it answers as an atomic cancel there would. */
  lemma UnmatchedThrowsIff(t: Tables, id: Id, scope: Scope, actor: Id, now: Instant)
    requires Inv(t)
    ensures UnmatchedAnswer(t, id, scope, now).Err? <==> Cancellable(t, id, scope, now)
    ensures !Cancellable(t, id, scope, now) ==>
      Cancel(t, id, scope, actor, now) == Outcome(t, UnmatchedAnswer(t, id, scope, now))
  {
    hide Inv;
    if id in t.bookings { HasDeadline(t, id); }
  }

  lemma OwnedOf(t: Tables, id: Id)
    requires Inv(t) && id in t.bookings && IsLive(t.bookings[id].status)
    ensures SeatsOf(t.seats, {id}) == Elems(BookingKeys(t.bookings[id]))
    ensures |SeatsOf(t.seats, {id})| == |t.bookings[id].passengers|
  {
    hide Inventory, Money, Events, Keys;
    OwnedSeats(t, id);
  }

  /** Any seat change that commits first is enough: the new seat stays BOOKED for a cancelled booking. */
  lemma SeatChangeBreaksIt(
    t: Tables, id: Id, position: nat, target: SeatPosition, scope: Scope, actor: Id, now: Instant, at: map<SeatKey, nat>)
    requires Inv(t) && id in t.bookings
    requires ChangeSeatVerdict(t, id, position, target, scope, now).Ok?
    requires ChangeSeatVerdict(t, id, position, target, scope, now).value.Changed?
    ensures
      var line := [t, ChangeSeat(t, id, position, target, scope, actor, now).db];
      && id in AtCommit(line).bookings
      && var done := UnlockedCancel(line, id, 0, at);
         !Inventory(done.seats, done.bookings)
  {
    hide Inv, CancelMatches;
    var line := [t, ChangeSeat(t, id, position, target, scope, actor, now).db];
    var taken := SeatKey(t.bookings[id].flightId, target);
    TargetIsFree(t, taken);
    var done := UnlockedCancel(line, id, 0, at);
    assert !SeatOk(done.bookings, taken, done.seats[taken]);
  }

  lemma TargetIsFree(t: Tables, k: SeatKey)
    requires Inv(t) && k in t.seats && t.seats[k].status.AVAILABLE?
    ensures t.seats[k].bookingId.None?
  {
  }

  // ---- Changing a seat ----

  ghost predicate SeatLocked(line: seq<Tables>, k: SeatKey, g: nat)
    requires g < |line|
  {
    k in line[g].seats
    && forall j | g <= j < |line| :: k in line[j].seats && line[j].seats[k] == line[g].seats[k]
  }

  /** What the seat change sees: the booking and flight locked at `g`, each of the two seats as locked at its own time. */
  ghost function LockedView(line: seq<Tables>, g: nat, at: map<SeatKey, nat>): Tables
    requires g < |line|
  {
    var base := line[g];
    base.(seats := map k | k in base.seats ::
      if k in at && at[k] < |line| && k in line[at[k]].seats then line[at[k]].seats[k] else base.seats[k])
  }

  /** Its three writes, on the tables it commits to. */
  ghost function ChangeFrom(
    line: seq<Tables>, id: Id, position: nat, target: SeatPosition, scope: Scope, actor: Id, now: Instant,
    g: nat, at: map<SeatKey, nat>): Outcome<ChangeSeatOutcome>
    requires g < |line|
  {
    var end := AtCommit(line);
    var verdict := ChangeSeatVerdict(LockedView(line, g, at), id, position, target, scope, now);
    if verdict.Ok? && verdict.value.Changed? && id in end.bookings && 1 <= position <= |end.bookings[id].passengers|
       && SeatKey(end.bookings[id].flightId, verdict.value.from) in end.seats
       && SeatKey(end.bookings[id].flightId, target) in end.seats then
      var f := end.bookings[id].flightId;
      var own, wanted := SeatKey(f, verdict.value.from), SeatKey(f, target);
      var freed := end.seats[own := Released(end.seats[own])];
      Outcome(
        end.(seats := freed[wanted := end.seats[wanted].(status := SeatStatus.BOOKED, bookingId := Some(id))],
             bookings := end.bookings[id := Reseated(end.bookings[id], position, target)],
             audit := end.audit
               + [AuditEntry(BOOKING_SEAT_CHANGED(position, verdict.value.from, target), Account(actor), id, now)]),
        verdict)
    else Outcome(end, verdict)
  }

  /** The two seats the change is about. */
  function PairOf(booking: Booking, position: nat, target: SeatPosition): set<SeatKey> {
    if 1 <= position <= |booking.passengers| then
      {SeatKey(booking.flightId, booking.passengers[position - 1].seat), SeatKey(booking.flightId, target)}
    else {}
  }

  /** The verdict reads the booking, its flight and the two seats, nothing else. */
  lemma VerdictFrame(t: Tables, t': Tables, id: Id, position: nat, target: SeatPosition, scope: Scope, now: Instant)
    requires id in t.bookings && id in t'.bookings && t'.bookings[id] == t.bookings[id]
    requires var f := t.bookings[id].flightId; f in t.flights && f in t'.flights && t'.flights[f] == t.flights[f]
    requires forall k | k in PairOf(t.bookings[id], position, target) ::
      (k in t.seats <==> k in t'.seats) && (k in t.seats ==> t'.seats[k] == t.seats[k])
    ensures ChangeSeatVerdict(t', id, position, target, scope, now) == ChangeSeatVerdict(t, id, position, target, scope, now)
  {
  }

  lemma ChangedMeans(t: Tables, id: Id, position: nat, target: SeatPosition, scope: Scope, now: Instant)
    requires ChangeSeatVerdict(t, id, position, target, scope, now).Ok?
    requires ChangeSeatVerdict(t, id, position, target, scope, now).value.Changed?
    ensures id in t.bookings && 1 <= position <= |t.bookings[id].passengers|
    ensures
      var from := ChangeSeatVerdict(t, id, position, target, scope, now).value.from;
      SeatKey(t.bookings[id].flightId, from) in t.seats && SeatKey(t.bookings[id].flightId, target) in t.seats
      && from != target
  {
  }

  /** The locks a seat change holds: booking and flight from `g`, each of the two seats from its own time. */
  ghost predicate ChangeLocked(
    line: seq<Tables>, id: Id, position: nat, target: SeatPosition, g: nat, at: map<SeatKey, nat>)
    requires g < |line|
  {
    && RowLocked(line, id, g) && FlightLocked(line, line[g].bookings[id].flightId, g)
    && forall k | k in PairOf(line[g].bookings[id], position, target) && k in line[g].seats ::
         k in at && g <= at[k] < |line| && SeatLocked(line, k, at[k])
  }

  /**
   * Locking booking, flight and both seats in turn makes the change one
   * atomic step, whatever the locks waited for; a booking out of reach is
   * answered not-found and nothing is written.
   */
  lemma ChangeIsAtomic(
    line: seq<Tables>, id: Id, position: nat, target: SeatPosition, scope: Scope, actor: Id, now: Instant,
    g: nat, at: map<SeatKey, nat>)
    requires Timeline(line) && g < |line|
    requires InReach(line[g], id, scope) ==> ChangeLocked(line, id, position, target, g, at)
    ensures ChangeFrom(line, id, position, target, scope, actor, now, g, at)
         == if InReach(line[g], id, scope) then ChangeSeat(AtCommit(line), id, position, target, scope, actor, now)
            else Outcome(AtCommit(line), Ok(BookingNotFound))
  {
    hide Inv, Timeline, ChangeSeatVerdict, Released, Reseated;
    var base, end, view := line[g], AtCommit(line), LockedView(line, g, at);
    if InReach(base, id, scope) {
      ReachedPair(line, id, position, target, scope, g, at);
      VerdictFrame(view, end, id, position, target, scope, now);
      var verdict := ChangeSeatVerdict(end, id, position, target, scope, now);
      if verdict.Ok? && verdict.value.Changed? {
        ChangedMeans(end, id, position, target, scope, now);
      }
    } else {
      NotFoundInView(view, id, position, target, scope, now);
    }
  }

  lemma NotFoundInView(t: Tables, id: Id, position: nat, target: SeatPosition, scope: Scope, now: Instant)
    requires !InReach(t, id, scope)
    ensures ChangeSeatVerdict(t, id, position, target, scope, now) == Ok(BookingNotFound)
  {
  }

  /** The rows the verdict reads are, as locked, the rows of the commit. */
  lemma ReachedPair(
    line: seq<Tables>, id: Id, position: nat, target: SeatPosition, scope: Scope, g: nat, at: map<SeatKey, nat>)
    requires Timeline(line) && g < |line| && InReach(line[g], id, scope)
    requires ChangeLocked(line, id, position, target, g, at)
    ensures
      var base, end, view := line[g], AtCommit(line), LockedView(line, g, at);
      var f := base.bookings[id].flightId;
      && id in end.bookings && end.bookings[id] == base.bookings[id]
      && f in end.flights && end.flights[f] == base.flights[f]
      && forall k | k in PairOf(base.bookings[id], position, target) ::
           (k in view.seats <==> k in end.seats) && (k in view.seats ==> end.seats[k] == view.seats[k])
  {
    hide Inv, Timeline;
    var base, end, view := line[g], AtCommit(line), LockedView(line, g, at);
    forall k | k in PairOf(base.bookings[id], position, target)
      ensures k in view.seats <==> k in end.seats
      ensures k in view.seats ==> end.seats[k] == view.seats[k]
    {
      SeatKeysSame(line, g, |line| - 1, k);
      if k in base.seats { assert SeatLocked(line, k, at[k]); }
    }
  }

  /** Between two moments a flight's seats are the same, each in its class. */
  lemma {:induction false} SeatKeysSame(line: seq<Tables>, i: nat, j: nat, k: SeatKey)
    requires Timeline(line) && i <= j < |line| && k.flightId in line[i].flights
    ensures k.flightId in line[j].flights
    ensures k in line[i].seats <==> k in line[j].seats
    ensures k in line[i].seats ==> line[j].seats[k].fareClass == line[i].seats[k].fareClass
    decreases j
  {
    hide Inv, OneStep;
    if i < j {
      SeatKeysSame(line, i, j - 1, k);
      assert OneStep(line[j - 1], line[j]);
      StepKeepsSeats(line[j - 1], line[j], k);
    }
  }

  lemma StepKeepsSeats(t: Tables, t': Tables, k: SeatKey)
    requires OneStep(t, t') && k.flightId in t.flights
    ensures k.flightId in t'.flights
    ensures k in t.seats <==> k in t'.seats
    ensures k in t.seats ==> t'.seats[k].fareClass == t.seats[k].fareClass
  {
    hide Apply, Enabled;
    if t' != t {
      var x: Txn :| Enabled(t, x) && t' == Apply(t, x);
      SeatKeyStays(t, x, k);
    }
  }
}

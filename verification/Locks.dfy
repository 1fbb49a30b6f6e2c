/**
 * Row locks and the wait-for graph, for any number of concurrent
 * transactions. Every waiting acquisition goes up one global order, so no
 * cycle of waiters can form and some transaction can always go on.
 */
module Locks {
  import opened Basics
  import opened Schema

  /** Postgres's row lock modes and their conflict table. */
  datatype Mode = KEY_SHARE | SHARE | NO_KEY_UPDATE | UPDATE

  predicate Conflict(a: Mode, b: Mode) {
    || a.UPDATE? || b.UPDATE?
    || (a.NO_KEY_UPDATE? && !b.KEY_SHARE?)
    || (b.NO_KEY_UPDATE? && !a.KEY_SHARE?)
  }

  /** What a transaction may wait for: a row, or another's uncommitted entry of a unique index. */
  datatype Resource =
    | FlightRow(flightId: Id)
    | FareRow(flightId: Id, fareClass: FareClass)
    | NewKey(key: KeyId)
    | ProcessingSlot(bookingId: Id)
    | BookingRow(bookingId: Id)
    | SeatRow(seat: SeatKey)
    | ReferenceEntry(reference: nat)
    | PaymentRow(paymentId: Id)
    | SucceededSlot(bookingId: Id)
    | KeyRowOf(key: KeyId)

  /** Rows that only ever take share locks here: an operator's change waits for them, they never wait for each other. */
  predicate SharedOnly(r: Resource) { r.FlightRow? || r.FareRow? }

  function Class(r: Resource): nat {
    match r
    case FlightRow(_) => 0
    case FareRow(_, _) => 0
    case NewKey(_) => 1
    case ProcessingSlot(_) => 2
    case BookingRow(_) => 3
    case SeatRow(_) => 4
    case ReferenceEntry(_) => 5
    case PaymentRow(_) => 6
    case SucceededSlot(_) => 7
    case KeyRowOf(_) => 8
  }

  /** The global order: by class, and seats by (flight, row, letter). */
  predicate Below(a: Resource, b: Resource) {
    Class(a) < Class(b) || (a.SeatRow? && b.SeatRow? && SeatLess(a.seat, b.seat))
  }

  /** `waits` is false for SKIP LOCKED and for locks nobody else can hold against us. */
  datatype Request = Request(resource: Resource, mode: Mode, waits: bool)

  /** Everything it waits for lies above everything it already has. */
  ghost predicate Ordered(program: seq<Request>) {
    && (forall i | 0 <= i < |program| && SharedOnly(program[i].resource) ::
          program[i].mode.SHARE? || program[i].mode.KEY_SHARE?)
    && (forall i, j | 0 <= i < j < |program| ::
          program[j].waits && !SharedOnly(program[i].resource) && !SharedOnly(program[j].resource) ==>
            Below(program[i].resource, program[j].resource))
  }

  // ---- The wait-for graph ----

  /** A transaction under way: it has been through the first `done` requests; `ticket` is its place in the queues. */
  datatype Session = Session(program: seq<Request>, done: nat, ticket: nat)

  predicate Waiting(s: Session) { s.done < |s.program| && s.program[s.done].waits }

  function Wanted(s: Session): Request
    requires Waiting(s)
  {
    s.program[s.done]
  }

  /** It may hold this lock; a skipped or released one only makes the graph larger. */
  predicate MayHold(s: Session, r: Resource, mode: Mode) {
    exists i | 0 <= i < s.done && i < |s.program| :: s.program[i].resource == r && s.program[i].mode == mode
  }

  /** `a` waits for `b`: for a lock it holds, or behind it in the same queue. */
  ghost predicate WaitsFor(sessions: map<nat, Session>, a: nat, b: nat) {
    && a in sessions && b in sessions && a != b && Waiting(sessions[a])
    && var want := Wanted(sessions[a]);
       || (exists mode: Mode :: Conflict(want.mode, mode) && MayHold(sessions[b], want.resource, mode))
       || (Waiting(sessions[b]) && Wanted(sessions[b]).resource == want.resource
           && Conflict(want.mode, Wanted(sessions[b]).mode) && sessions[b].ticket < sessions[a].ticket)
  }

  ghost predicate AllOrdered(sessions: map<nat, Session>) {
    forall s | s in sessions :: Ordered(sessions[s].program)
  }

  /** The measure every edge climbs: what is wanted, then the queue from the back to the front. */
  predicate Climbs(a: Session, b: Session) {
    && Waiting(a) && Waiting(b)
    && (Below(Wanted(a).resource, Wanted(b).resource)
        || (Wanted(a).resource == Wanted(b).resource && b.ticket < a.ticket))
  }

  lemma ClimbsTransitively(a: Session, b: Session, c: Session)
    requires Climbs(a, b) && Climbs(b, c)
    ensures Climbs(a, c)
  {
  }

  lemma EdgesClimb(sessions: map<nat, Session>, a: nat, b: nat, c: nat)
    requires AllOrdered(sessions) && WaitsFor(sessions, a, b) && WaitsFor(sessions, b, c)
    ensures a in sessions && b in sessions && Climbs(sessions[a], sessions[b])
  {
  }

  ghost predicate WaitPath(sessions: map<nat, Session>, path: seq<nat>) {
    |path| >= 2 && forall i | 0 <= i < |path| - 1 :: WaitsFor(sessions, path[i], path[i + 1])
  }

  lemma {:induction false} PathsClimb(sessions: map<nat, Session>, path: seq<nat>, after: nat)
    requires AllOrdered(sessions) && WaitPath(sessions, path) && WaitsFor(sessions, path[|path| - 1], after)
    ensures path[0] in sessions && path[|path| - 1] in sessions
    ensures Climbs(sessions[path[0]], sessions[path[|path| - 1]])
    decreases |path|
  {
    hide Ordered, AllOrdered, WaitsFor, Climbs;
    var last := |path| - 1;
    assert WaitsFor(sessions, path[last - 1], path[last]);
    WaitersExist(sessions, path[last - 1], path[last]);
    EdgesClimb(sessions, path[last - 1], path[last], after);
    if last > 1 {
      PathsClimb(sessions, path[..last], path[last]);
      ClimbsTransitively(sessions[path[0]], sessions[path[last - 1]], sessions[path[last]]);
    }
  }

  /** Deadlock freedom: however many transactions run, no one waits for itself around a cycle. */
  lemma NoDeadlock(sessions: map<nat, Session>, path: seq<nat>)
    requires AllOrdered(sessions) && WaitPath(sessions, path)
    ensures path[0] != path[|path| - 1]
  {
    hide Ordered, AllOrdered, WaitsFor, Below;
    if path[0] == path[|path| - 1] {
      assert WaitsFor(sessions, path[0], path[1]);
      PathsClimb(sessions, path, path[1]);
      NeverClimbsItself(sessions[path[0]]);
    }
  }

  lemma NeverClimbsItself(s: Session)
    ensures !Climbs(s, s)
  {
  }

  predicate IsTop(sessions: map<nat, Session>, ids: set<nat>, top: nat) {
    top in ids && top in sessions && forall b | b in ids && b in sessions :: !Climbs(sessions[top], sessions[b])
  }

  ghost predicate Blocked(sessions: map<nat, Session>, a: nat) { exists b :: WaitsFor(sessions, a, b) }

  /** A finite set with a transitive, irreflexive relation has an element nothing climbs from. */
  lemma {:induction false} TopExists(sessions: map<nat, Session>, ids: set<nat>)
    requires ids != {} && ids <= sessions.Keys
    ensures exists top :: IsTop(sessions, ids, top)
    decreases |ids|
  {
    hide Climbs;
    var a :| a in ids;
    var rest := ids - {a};
    assert ids == rest + {a};
    NeverClimbsItself(sessions[a]);
    if rest == {} {
      assert IsTop(sessions, ids, a);
    } else {
      TopExists(sessions, rest);
      var top :| IsTop(sessions, rest, top);
      if Climbs(sessions[top], sessions[a]) {
        forall b | b in ids ensures !Climbs(sessions[a], sessions[b]) {
          if Climbs(sessions[a], sessions[b]) {
            ClimbsTransitively(sessions[top], sessions[a], sessions[b]);
          }
        }
        assert IsTop(sessions, ids, a);
      } else {
        assert IsTop(sessions, ids, top);
      }
    }
  }

  /** As long as there is a transaction, one of them waits for nobody. */
  lemma SomeoneGoesOn(sessions: map<nat, Session>)
    requires AllOrdered(sessions) && sessions.Keys != {}
    ensures exists a :: a in sessions && !Blocked(sessions, a)
  {
    hide Ordered, AllOrdered, WaitsFor, Climbs;
    if forall a | a in sessions :: Blocked(sessions, a) {
      TopExists(sessions, sessions.Keys);
      var top :| IsTop(sessions, sessions.Keys, top);
      var b :| WaitsFor(sessions, top, b);
      WaitersExist(sessions, top, b);
      var c :| WaitsFor(sessions, b, c);
      EdgesClimb(sessions, top, b, c);
    }
  }

  lemma WaitersExist(sessions: map<nat, Session>, a: nat, b: nat)
    requires WaitsFor(sessions, a, b)
    ensures a in sessions && b in sessions
  {
  }
}

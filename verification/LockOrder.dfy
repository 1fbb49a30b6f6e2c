/** What each transaction locks, statement by statement, and why that order is safe. */
module LockOrder {
  import opened Basics
  import opened Schema
  import opened Locks

  /**
   * A transaction and the rows its statements came upon, in whatever tables
   * they saw: `found` rows are locked in seat order, `picked` rows with SKIP
   * LOCKED, `reference` is the draw under way (a taken one leaves no entry).
   */
  datatype Activity =
    | HoldsChosen(flightId: Id, found: set<SeatKey>, reference: nat)
    | HoldsAuto(flightId: Id, seats: seq<SeatKey>, reference: nat)
    | Cancels(id: Id, flightId: Id, found: set<SeatKey>, paid: Option<Id>)
    | ChangesSeat(id: Id, flightId: Id, found: set<SeatKey>)
    | Sweeps(holds: seq<Id>, found: set<SeatKey>)
    | SettlesCharged(paymentId: Id, bookingId: Id, found: set<SeatKey>, key: KeyId)
    | SettlesDeclined(paymentId: Id, bookingId: Id, key: KeyId)
    | StartsPayment(key: KeyId, bookingId: Id)
    | FindsKeyTaken(key: KeyId)
    | FindsKeyBeingDeleted(key: KeyId)
    | ClaimsPayments(payments: seq<Id>)
    | Reschedules(paymentId: Id)
    | RecordsRefund(paymentId: Id)
    | CleansKeys(keys: seq<KeyId>)

  function Waits(r: Resource, mode: Mode): Request { Request(r, mode, true) }

  function Takes(r: Resource, mode: Mode): Request { Request(r, mode, false) }

  function SeatsInOrder(found: set<SeatKey>): (r: seq<Request>)
    ensures |r| == |found|
    ensures forall i | 0 <= i < |r| :: r[i] == Waits(SeatRow(SortedSeats(found)[i]), UPDATE)
  {
    var keys := SortedSeats(found);
    seq(|keys|, i requires 0 <= i < |keys| => Waits(SeatRow(keys[i]), UPDATE))
  }

  function Fares(f: Id): seq<Request> { [Waits(FareRow(f, ECONOMY), SHARE), Waits(FareRow(f, BUSINESS), SHARE)] }

  /** The lock sequence of each transaction: first acquisitions only. */
  function Program(a: Activity): seq<Request> {
    match a
    case HoldsChosen(f, found, reference) =>
      [Waits(FlightRow(f), SHARE)] + SeatsInOrder(found) + Fares(f) + [Waits(ReferenceEntry(reference), UPDATE)]
    case HoldsAuto(f, seats, reference) =>
      [Waits(FlightRow(f), SHARE)] + seq(|seats|, i requires 0 <= i < |seats| => Takes(SeatRow(seats[i]), UPDATE))
      + Fares(f) + [Waits(ReferenceEntry(reference), UPDATE)]
    case Cancels(b, f, found, paid) =>
      [Waits(BookingRow(b), UPDATE), Waits(FlightRow(f), SHARE)] + SeatsInOrder(found)
      + (if paid.Some? then [Waits(PaymentRow(paid.value), NO_KEY_UPDATE), Takes(SucceededSlot(b), UPDATE)] else [])
    case ChangesSeat(b, f, found) =>
      [Waits(BookingRow(b), UPDATE), Waits(FlightRow(f), SHARE)] + SeatsInOrder(found)
    case Sweeps(holds, found) =>
      seq(|holds|, i requires 0 <= i < |holds| => Takes(BookingRow(holds[i]), UPDATE)) + SeatsInOrder(found)
    case SettlesCharged(p, b, found, k) =>
      [Waits(BookingRow(b), NO_KEY_UPDATE)] + SeatsInOrder(found)
      + [Waits(PaymentRow(p), NO_KEY_UPDATE), Takes(ProcessingSlot(b), UPDATE), Waits(SucceededSlot(b), UPDATE),
         Waits(KeyRowOf(k), NO_KEY_UPDATE)]
    case SettlesDeclined(p, b, k) =>
      [Waits(PaymentRow(p), NO_KEY_UPDATE), Takes(ProcessingSlot(b), UPDATE), Waits(KeyRowOf(k), NO_KEY_UPDATE)]
    case StartsPayment(k, b) =>
      [Waits(NewKey(k), UPDATE), Waits(ProcessingSlot(b), UPDATE), Waits(BookingRow(b), KEY_SHARE)]
    // Waits for another request's insert, then only reads the row.
    case FindsKeyTaken(k) => [Waits(NewKey(k), UPDATE)]
    // Waits for the cleanup holding nothing, and then starts over as one of the two above.
    case FindsKeyBeingDeleted(k) => [Waits(KeyRowOf(k), UPDATE)]
    case ClaimsPayments(payments) =>
      seq(|payments|, i requires 0 <= i < |payments| => Takes(PaymentRow(payments[i]), UPDATE))
    case Reschedules(p) => [Waits(PaymentRow(p), NO_KEY_UPDATE)]
    case RecordsRefund(p) => [Waits(PaymentRow(p), NO_KEY_UPDATE)]
    case CleansKeys(keys) => seq(|keys|, i requires 0 <= i < |keys| => Takes(KeyRowOf(keys[i]), UPDATE))
  }

  /** Every request of `second` lies above every request of `first`, or is shared. */
  ghost predicate AllBelow(first: seq<Request>, second: seq<Request>) {
    forall i, j | 0 <= i < |first| && 0 <= j < |second| ::
      !second[j].waits || SharedOnly(first[i].resource) || SharedOnly(second[j].resource)
      || Below(first[i].resource, second[j].resource)
  }

  lemma OrderedParts(first: seq<Request>, second: seq<Request>)
    requires Ordered(first) && Ordered(second) && AllBelow(first, second)
    ensures Ordered(first + second)
  {
  }

  lemma SeatsAreOrdered(found: set<SeatKey>)
    ensures Ordered(SeatsInOrder(found))
  {
  }

  /** Booking first, then its seats, then whatever comes after seats. */
  lemma BookingSeatsRest(head: seq<Request>, found: set<SeatKey>, rest: seq<Request>)
    requires Ordered(head) && Ordered(rest)
    requires forall i | 0 <= i < |head| :: SharedOnly(head[i].resource) || head[i].resource.BookingRow?
    requires forall i | 0 <= i < |rest| :: !rest[i].waits || SharedOnly(rest[i].resource) || Class(rest[i].resource) > 4
    ensures Ordered(head + SeatsInOrder(found) + rest)
  {
    SeatsAreOrdered(found);
    OrderedParts(head, SeatsInOrder(found));
    OrderedParts(head + SeatsInOrder(found), rest);
  }

  lemma AutoHoldIsOrdered(f: Id, seats: seq<SeatKey>, reference: nat)
    ensures Ordered(Program(HoldsAuto(f, seats, reference)))
  {
    var skipping := [Waits(FlightRow(f), SHARE)]
      + seq(|seats|, i requires 0 <= i < |seats| => Takes(SeatRow(seats[i]), UPDATE));
    OrderedParts(skipping, Fares(f));
    OrderedParts(skipping + Fares(f), [Waits(ReferenceEntry(reference), UPDATE)]);
  }

  lemma ShortProgramsAreOrdered(a: Activity)
    requires !a.HoldsChosen? && !a.HoldsAuto? && !a.Cancels? && !a.ChangesSeat? && !a.Sweeps? && !a.SettlesCharged?
    ensures Ordered(Program(a))
  {
  }

  lemma ChosenHoldIsOrdered(f: Id, found: set<SeatKey>, reference: nat)
    ensures Ordered(Program(HoldsChosen(f, found, reference)))
  {
    var head, rest := [Waits(FlightRow(f), SHARE)], Fares(f) + [Waits(ReferenceEntry(reference), UPDATE)];
    BookingSeatsRest(head, found, rest);
    assert Program(HoldsChosen(f, found, reference)) == head + SeatsInOrder(found) + rest;
  }

  lemma SweepIsOrdered(holds: seq<Id>, found: set<SeatKey>)
    ensures Ordered(Program(Sweeps(holds, found)))
  {
    var head := seq(|holds|, i requires 0 <= i < |holds| => Takes(BookingRow(holds[i]), UPDATE));
    BookingSeatsRest(head, found, []);
    assert Program(Sweeps(holds, found)) == head + SeatsInOrder(found) + [];
  }

  lemma BookingProgramsAreOrdered(a: Activity)
    requires a.Cancels? || a.ChangesSeat? || a.SettlesCharged?
    ensures Ordered(Program(a))
  {
    hide SeatsInOrder;
    match a
    case Cancels(b, f, found, paid) =>
      BookingSeatsRest([Waits(BookingRow(b), UPDATE), Waits(FlightRow(f), SHARE)], found,
        if paid.Some? then [Waits(PaymentRow(paid.value), NO_KEY_UPDATE), Takes(SucceededSlot(b), UPDATE)] else []);
    case ChangesSeat(b, f, found) =>
      BookingSeatsRest([Waits(BookingRow(b), UPDATE), Waits(FlightRow(f), SHARE)], found, []);
      assert Program(a) == Program(a) + [];
    case SettlesCharged(p, b, found, k) =>
      BookingSeatsRest([Waits(BookingRow(b), NO_KEY_UPDATE)], found,
        [Waits(PaymentRow(p), NO_KEY_UPDATE), Takes(ProcessingSlot(b), UPDATE), Waits(SucceededSlot(b), UPDATE),
         Waits(KeyRowOf(k), NO_KEY_UPDATE)]);
    case _ =>
  }

  /** Every transaction of the system follows the global order. */
  lemma ProgramsAreOrdered(a: Activity)
    ensures Ordered(Program(a))
  {
    hide Ordered, Program;
    match a
    case HoldsChosen(f, found, reference) => ChosenHoldIsOrdered(f, found, reference);
    case HoldsAuto(f, seats, reference) => AutoHoldIsOrdered(f, seats, reference);
    case Sweeps(holds, found) => SweepIsOrdered(holds, found);
    case Cancels(_, _, _, _) => BookingProgramsAreOrdered(a);
    case ChangesSeat(_, _, _) => BookingProgramsAreOrdered(a);
    case SettlesCharged(_, _, _, _) => BookingProgramsAreOrdered(a);
    case _ => ShortProgramsAreOrdered(a);
  }

  /** Any number of these transactions at any points of their work, queued in any order. */
  ghost predicate UnderWay(sessions: map<nat, Session>, doing: map<nat, Activity>) {
    forall s | s in sessions :: s in doing && sessions[s].program == Program(doing[s])
  }

  /** The system never deadlocks: no cycle of waiters, and as long as anyone works someone can go on. */
  lemma SystemNeverDeadlocks(sessions: map<nat, Session>, doing: map<nat, Activity>)
    requires UnderWay(sessions, doing)
    ensures forall path: seq<nat> | WaitPath(sessions, path) :: path[0] != path[|path| - 1]
    ensures sessions.Keys != {} ==> exists a :: a in sessions && !Blocked(sessions, a)
  {
    hide Ordered, Program, WaitPath, Blocked, WaitsFor;
    forall s | s in sessions ensures Ordered(sessions[s].program) {
      ProgramsAreOrdered(doing[s]);
    }
    forall path: seq<nat> | WaitPath(sessions, path) ensures |path| >= 2 && path[0] != path[|path| - 1] {
      PathIsLong(sessions, path);
      NoDeadlock(sessions, path);
    }
    if sessions.Keys != {} { SomeoneGoesOn(sessions); }
  }

  lemma PathIsLong(sessions: map<nat, Session>, path: seq<nat>)
    requires WaitPath(sessions, path)
    ensures |path| >= 2
  {
  }

  /** Why seats are sorted: two requests that lock the same two seats as they list them can wait for each other. */
  lemma RequestOrderDeadlocks(k: SeatKey, l: SeatKey)
    requires k != l
    ensures
      var ab := Session([Waits(SeatRow(k), UPDATE), Waits(SeatRow(l), UPDATE)], 1, 0);
      var ba := Session([Waits(SeatRow(l), UPDATE), Waits(SeatRow(k), UPDATE)], 1, 1);
      WaitPath(map[0 := ab, 1 := ba], [0, 1, 0])
  {
    var ab := Session([Waits(SeatRow(k), UPDATE), Waits(SeatRow(l), UPDATE)], 1, 0);
    var ba := Session([Waits(SeatRow(l), UPDATE), Waits(SeatRow(k), UPDATE)], 1, 1);
    var both := map[0 := ab, 1 := ba];
    assert ab.program[0] == Waits(SeatRow(k), UPDATE) && ba.program[0] == Waits(SeatRow(l), UPDATE);
    assert MayHold(ab, SeatRow(k), UPDATE) && MayHold(ba, SeatRow(l), UPDATE);
    assert WaitsFor(both, 0, 1) && WaitsFor(both, 1, 0);
  }
}

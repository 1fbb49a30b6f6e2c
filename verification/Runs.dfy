/** Every transaction as one step of the database, and every run of such steps. */
module Runs {
  import opened Basics
  import opened Schema
  import opened Transactions
  import opened Invariants
  import opened Preservation
  import opened BookingSteps
  import opened PaymentSteps

  /** One committed transaction. The last three are the operator's: a new flight, its status or time, a fare. */
  datatype Txn =
    | DoCreate(create: CreateRequest, now: Instant)
    | DoStart(read: Option<Booking>, pay: PayRequest, now: Instant, reconcileAfterMs: int)
    | DoCharged(id: Id, copy: Payment, reference: string, actor: Actor, now: Instant)
    | DoDeclined(id: Id, reason: string, actor: Actor, now: Instant)
    | DoClaim(now: Instant, leaseMs: int, limit: nat, locked: set<Id>)
    | DoReschedule(id: Id, status: PaymentStatus, at: Instant)
    | DoRecordRefund(id: Id, failure: Option<string>, now: Instant)
    | DoCancel(id: Id, scope: Scope, account: Id, now: Instant)
    | DoChangeSeat(id: Id, position: nat, target: SeatPosition, scope: Scope, account: Id, now: Instant)
    | DoExpire(now: Instant, limit: nat, locked: set<Id>)
    | DoCleanup(picked: set<KeyId>)
    | DoAddFlight(id: Id, flight: Flight, layout: map<SeatKey, FareClass>)
    | DoSetFlight(id: Id, flight: Flight)
    | DoSetFare(id: Id, fareClass: FareClass, amount: nat)

  function FreshSeats(layout: map<SeatKey, FareClass>): map<SeatKey, Seat> {
    map k | k in layout :: Seat(layout[k], AVAILABLE, None)
  }

  function AddFlight(t: Tables, id: Id, flight: Flight, layout: map<SeatKey, FareClass>): Tables {
    t.(flights := t.flights[id := flight], seats := t.seats + FreshSeats(layout))
  }

  function Apply(t: Tables, x: Txn): Tables {
    match x
    case DoCreate(r, now) => CreateBooking(t, r, now).db
    case DoStart(read, r, now, after) => StartPayment(t, read, r, now, after).db
    case DoCharged(id, p, reference, actor, now) => Charged(t, id, p, reference, actor, now).db
    case DoDeclined(id, reason, actor, now) => Declined(t, id, reason, actor, now).db
    case DoClaim(now, lease, limit, locked) => ClaimDue(t, now, lease, limit, locked)
    case DoReschedule(id, status, at) => Reschedule(t, id, status, at).db
    case DoRecordRefund(id, failure, now) => RecordRefund(t, id, failure, now).db
    case DoCancel(id, scope, actor, now) => Cancel(t, id, scope, actor, now).db
    case DoChangeSeat(id, position, target, scope, actor, now) =>
      ChangeSeat(t, id, position, target, scope, actor, now).db
    case DoExpire(now, limit, locked) => ExpireBatch(t, now, limit, locked)
    case DoCleanup(picked) => DeleteKeys(t, picked)
    case DoAddFlight(id, flight, layout) => AddFlight(t, id, flight, layout)
    case DoSetFlight(id, flight) => t.(flights := t.flights[id := flight])
    case DoSetFare(id, fareClass, amount) => t.(fares := t.fares[(id, fareClass) := amount])
  }

  /** What the callers guarantee: honest reads and copies, cleanup of COMPLETED keys only, CHECKed fares. */
  predicate Enabled(t: Tables, x: Txn) {
    match x
    case DoStart(read, r, _, _) => EarlierRead(t, read, r.bookingId)
    case DoCharged(id, p, _, _, _) => CopyOf(t, id, p)
    case DoReschedule(_, status, _) => NeedsReconciling(status)
    case DoCleanup(picked) => forall k | k in picked :: k in t.keys && t.keys[k].status.COMPLETED?
    case DoAddFlight(id, _, layout) => id !in t.flights && forall k | k in layout :: k.flightId == id
    case DoSetFlight(id, _) => id in t.flights
    case DoSetFare(_, _, amount) => 1 <= amount <= MAX_SAFE_INTEGER
    case _ => true
  }

  lemma FreshSeatsKeepInventory(seats: map<SeatKey, Seat>, bookings: map<Id, Booking>, added: map<SeatKey, Seat>)
    requires Inventory(seats, bookings) && added.Keys !! seats.Keys
    requires forall k | k in added :: added[k].status.AVAILABLE? && added[k].bookingId.None?
    ensures Inventory(seats + added, bookings)
  {
  }

  lemma AddFlightKeepsInv(t: Tables, id: Id, flight: Flight, layout: map<SeatKey, FareClass>)
    requires Inv(t) && id !in t.flights && forall k | k in layout :: k.flightId == id
    ensures Inv(AddFlight(t, id, flight, layout))
  {
    hide Inventory, Money, Events, Keys;
    FreshSeatsKeepInventory(t.seats, t.bookings, FreshSeats(layout));
  }

  lemma ApplyKeepsInv(t: Tables, x: Txn)
    requires Inv(t) && Enabled(t, x)
    ensures Inv(Apply(t, x))
  {
    hide Inventory, Money, Events, Keys, CreateBooking, StartPayment, Charged, Declined, ClaimDue, Reschedule,
         RecordRefund, Cancel, ChangeSeat, ExpireBatch, DeleteKeys, AddFlight, EarlierRead, CopyOf;
    match x
    case DoCreate(r, now) => CreateKeepsInv(t, r, now);
    case DoStart(read, r, now, after) => StartKeepsInv(t, read, r, now, after);
    case DoCharged(id, p, reference, actor, now) => ChargedKeepsInv(t, id, p, reference, actor, now);
    case DoDeclined(id, reason, actor, now) => DeclinedKeepsInv(t, id, reason, actor, now);
    case DoClaim(now, lease, limit, locked) => ClaimKeepsInv(t, now, lease, limit, locked);
    case DoReschedule(id, status, at) => RescheduleKeepsInv(t, id, status, at);
    case DoRecordRefund(id, failure, now) => RecordRefundKeepsInv(t, id, failure, now);
    case DoCancel(id, scope, actor, now) => CancelKeepsInv(t, id, scope, actor, now);
    case DoChangeSeat(id, position, target, scope, actor, now) =>
      ChangeSeatKeepsInv(t, id, position, target, scope, actor, now);
    case DoExpire(now, limit, locked) => ExpireBatchKeepsInv(t, now, limit, locked);
    case DoCleanup(picked) => DeleteKeepsInv(t, picked);
    case DoAddFlight(id, flight, layout) => AddFlightKeepsInv(t, id, flight, layout);
    case DoSetFlight(id, flight) =>
    case DoSetFare(id, fareClass, amount) =>
  }

  const EMPTY := Tables(map[], map[], map[], map[], map[], map[], [], [])

  lemma EmptyInv()
    ensures Inv(EMPTY)
  {
  }

  /** Every step of the run is enabled where it happens. */
  predicate Legal(t: Tables, xs: seq<Txn>)
    decreases |xs|
  {
    xs == [] || (Enabled(t, xs[0]) && Legal(Apply(t, xs[0]), xs[1..]))
  }

  function Run(t: Tables, xs: seq<Txn>): Tables
    decreases |xs|
  {
    if xs == [] then t else Run(Apply(t, xs[0]), xs[1..])
  }

  lemma RunNowhere(t: Tables)
    ensures Legal(t, []) && Run(t, []) == t
  {
  }

  /** A run, one step at a time. */
  lemma RunOnward(t: Tables, x: Txn, xs: seq<Txn>)
    requires Enabled(t, x) && Legal(Apply(t, x), xs)
    ensures Legal(t, [x] + xs) && Run(t, [x] + xs) == Run(Apply(t, x), xs)
  {
    hide Enabled, Apply;
    assert ([x] + xs)[1..] == xs;
  }

  /** A run and one step more. */
  lemma {:induction false} RunThen(t: Tables, xs: seq<Txn>, x: Txn)
    requires Legal(t, xs) && Enabled(Run(t, xs), x)
    ensures Legal(t, xs + [x]) && Run(t, xs + [x]) == Apply(Run(t, xs), x)
    decreases |xs|
  {
    hide Enabled, Apply;
    if xs == [] {
      RunNowhere(Apply(t, x));
      RunOnward(t, x, []);
      assert [] + [x] == [x] + [];
    } else {
      RunThen(Apply(t, xs[0]), xs[1..], x);
      assert (xs + [x])[1..] == xs[1..] + [x];
    }
  }

  lemma {:induction false} RunKeepsInv(t: Tables, xs: seq<Txn>)
    requires Inv(t) && Legal(t, xs)
    ensures Inv(Run(t, xs))
    decreases |xs|
  {
    hide Inv, Enabled, Apply;
    if xs != [] {
      ApplyKeepsInv(t, xs[0]);
      RunKeepsInv(Apply(t, xs[0]), xs[1..]);
    }
  }
}

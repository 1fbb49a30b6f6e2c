/** BackfillFlightSeats: every flight gets its aircraft's seats, every active booking the next free one. */
module Backfill {
  import opened Basics
  import opened Counting
  import opened Schema

  /** A booking from before seats: on a flight, active or not. */
  datatype OldBooking = OldBooking(flightId: Id, active: bool, createdAt: Instant)

  /** What the migration reads beside the seats: each flight's aircraft and each aircraft's layout. */
  datatype Fleet = Fleet(flights: map<Id, Id>, layouts: map<Id, map<SeatPosition, FareClass>>)

  // ---- 1. INSERT ... SELECT ... ON CONFLICT DO NOTHING ----

  predicate HasSeat(fleet: Fleet, k: SeatKey) {
    && k.flightId in fleet.flights && fleet.flights[k.flightId] in fleet.layouts
    && k.position in fleet.layouts[fleet.flights[k.flightId]]
  }

  function AllSeats(fleet: Fleet): (r: set<SeatKey>)
    ensures forall k :: k in r <==> HasSeat(fleet, k)
  {
    set f, p | f in fleet.flights && fleet.flights[f] in fleet.layouts && p in fleet.layouts[fleet.flights[f]] :: SeatKey(f, p)
  }

  function Seeded(fleet: Fleet, seats: map<SeatKey, Seat>): (r: map<SeatKey, Seat>)
    ensures r.Keys == seats.Keys + AllSeats(fleet)
    ensures forall k | k in seats :: r[k] == seats[k]
    ensures forall k | k in r && k !in seats ::
      HasSeat(fleet, k) && r[k] == Seat(fleet.layouts[fleet.flights[k.flightId]][k.position], AVAILABLE, None)
  {
    map k | k in seats.Keys + AllSeats(fleet) ::
      if k in seats then seats[k] else Seat(fleet.layouts[fleet.flights[k.flightId]][k.position], AVAILABLE, None)
  }

  // ---- 2. The pairing ----

  predicate Seated(seats: map<SeatKey, Seat>, b: Id) { exists k | k in seats :: seats[k].bookingId == Some(b) }

  function Unseated(bookings: map<Id, OldBooking>, seats: map<SeatKey, Seat>, f: Id): set<(Instant, Id)> {
    set b | b in bookings && bookings[b].active && bookings[b].flightId == f && !Seated(seats, b)
         :: (bookings[b].createdAt, b)
  }

  /** row_number() over (created_at, id): the booking's place in its flight's queue. */
  function Queue(bookings: map<Id, OldBooking>, seats: map<SeatKey, Seat>, f: Id): seq<(Instant, Id)> {
    SortedDue(Unseated(bookings, seats, f))
  }

  function FreeSeatsOn(seats: map<SeatKey, Seat>, f: Id): set<SeatKey> {
    set k | k in seats && k.flightId == f && seats[k].status.AVAILABLE?
  }

  /** row_number() over (row, letter): the flight's free seats from the front. */
  function FreeInOrder(seats: map<SeatKey, Seat>, f: Id): seq<SeatKey> { SortedSeats(FreeSeatsOn(seats, f)) }

  function IndexOf<T(==)>(xs: seq<T>, x: T): (i: nat)
    requires x in xs
    ensures i < |xs| && xs[i] == x
  {
    if xs[0] == x then 0 else 1 + IndexOf(xs[1..], x)
  }

  /** The booking a free seat is joined to: the one with the same number. */
  function Partner(bookings: map<Id, OldBooking>, seats: map<SeatKey, Seat>, k: SeatKey): Option<Id> {
    if k !in FreeSeatsOn(seats, k.flightId) then None
    else
      var n := IndexOf(FreeInOrder(seats, k.flightId), k);
      var queue := Queue(bookings, seats, k.flightId);
      if n < |queue| then Some(queue[n].1) else None
  }

  function Paired(bookings: map<Id, OldBooking>, seats: map<SeatKey, Seat>): (r: map<SeatKey, Seat>)
    ensures r.Keys == seats.Keys
  {
    map k | k in seats ::
      var b := Partner(bookings, seats, k);
      if b.Some? then seats[k].(status := SeatStatus.BOOKED, bookingId := b) else seats[k]
  }

  // ---- What the pairing is ----

  lemma IndexUnique<T>(xs: seq<T>, i: nat)
    requires Distinct(xs) && i < |xs|
    ensures IndexOf(xs, xs[i]) == i
  {
  }

  lemma SeatsDistinct(seats: map<SeatKey, Seat>, f: Id)
    ensures Distinct(FreeInOrder(seats, f))
  {
  }

  lemma QueueIds(bookings: map<Id, OldBooking>, seats: map<SeatKey, Seat>, f: Id)
    ensures
      var queue := Queue(bookings, seats, f);
      && (forall i | 0 <= i < |queue| ::
            && queue[i].1 in bookings && bookings[queue[i].1].active && bookings[queue[i].1].flightId == f
            && queue[i].0 == bookings[queue[i].1].createdAt && !Seated(seats, queue[i].1))
      && (forall i, j | 0 <= i < j < |queue| :: queue[i].1 != queue[j].1 && DueLess(queue[i], queue[j]))
      && (forall b | b in bookings && bookings[b].active && bookings[b].flightId == f && !Seated(seats, b) ::
            (bookings[b].createdAt, b) in queue)
  {
    hide Seated;
    var queue := Queue(bookings, seats, f);
    forall i | 0 <= i < |queue| ensures queue[i] in Unseated(bookings, seats, f) {
      assert queue[i] in queue;
    }
    forall i, j | 0 <= i < j < |queue| ensures queue[i].1 != queue[j].1 && DueLess(queue[i], queue[j]) {
      assert DueLess(queue[i], queue[j]);
    }
  }

  /** The n-th free seat goes to the n-th booking of the flight's queue, as long as both last. */
  lemma NthToNth(bookings: map<Id, OldBooking>, seats: map<SeatKey, Seat>, f: Id, n: nat)
    requires n < |FreeInOrder(seats, f)|
    ensures
      var k := FreeInOrder(seats, f)[n];
      var queue := Queue(bookings, seats, f);
      && k in seats && k.flightId == f && seats[k].status.AVAILABLE?
      && Partner(bookings, seats, k) == if n < |queue| then Some(queue[n].1) else None
  {
    hide Queue;
    var free := FreeInOrder(seats, f);
    SeatsDistinct(seats, f);
    IndexUnique(free, n);
    assert free[n] in FreeSeatsOn(seats, f);
  }

  /** A partner is an active, unseated booking of the seat's own flight. */
  lemma PartnerIsUnseated(bookings: map<Id, OldBooking>, seats: map<SeatKey, Seat>, k: SeatKey)
    requires Partner(bookings, seats, k).Some?
    ensures
      var b := Partner(bookings, seats, k).value;
      && b in bookings && bookings[b].active && bookings[b].flightId == k.flightId && !Seated(seats, b)
      && (bookings[b].createdAt, b) == Queue(bookings, seats, k.flightId)[IndexOf(FreeInOrder(seats, k.flightId), k)]
  {
    hide Queue, Seated;
    QueueIds(bookings, seats, k.flightId);
  }

  /** Injective: no booking gets two seats. */
  lemma PairingIsInjective(bookings: map<Id, OldBooking>, seats: map<SeatKey, Seat>, k: SeatKey, l: SeatKey)
    requires Partner(bookings, seats, k).Some? && Partner(bookings, seats, k) == Partner(bookings, seats, l)
    ensures k == l
  {
    hide Queue, FreeInOrder, Seated;
    PartnerIsUnseated(bookings, seats, k);
    PartnerIsUnseated(bookings, seats, l);
    QueueIds(bookings, seats, k.flightId);
    var free := FreeInOrder(seats, k.flightId);
    InFree(seats, k);
    InFree(seats, l);
    assert IndexOf(free, k) == IndexOf(free, l);
  }

  lemma InFree(seats: map<SeatKey, Seat>, k: SeatKey)
    ensures k in FreeSeatsOn(seats, k.flightId) <==> k in FreeInOrder(seats, k.flightId)
  {
  }

  /** Oldest booking, front-most seat: lower seats go to older bookings, and nobody older than a seated booking is left out. */
  lemma OldestGetsTheFront(bookings: map<Id, OldBooking>, seats: map<SeatKey, Seat>, k: SeatKey, l: SeatKey)
    requires Partner(bookings, seats, l).Some? && k in FreeSeatsOn(seats, l.flightId) && SeatLess(k, l)
    ensures Partner(bookings, seats, k).Some?
    ensures
      var older, younger := Partner(bookings, seats, k).value, Partner(bookings, seats, l).value;
      && older in bookings && younger in bookings
      && DueLess((bookings[older].createdAt, older), (bookings[younger].createdAt, younger))
  {
    hide Queue, Seated;
    var f := l.flightId;
    var free := FreeInOrder(seats, f);
    PartnerIsUnseated(bookings, seats, l);
    QueueIds(bookings, seats, f);
    var i, j := IndexOf(free, k), IndexOf(free, l);
    assert j < i ==> SeatLess(free[j], free[i]);
    PartnerIsUnseated(bookings, seats, k);
  }

  function PairedOn(bookings: map<Id, OldBooking>, seats: map<SeatKey, Seat>, f: Id): set<SeatKey> {
    set k | k in seats && k.flightId == f && Partner(bookings, seats, k).Some?
  }

  /** Each flight seats as many bookings as it can: the smaller of its queue and its free seats. */
  lemma PairsTheMost(bookings: map<Id, OldBooking>, seats: map<SeatKey, Seat>, f: Id)
    ensures |PairedOn(bookings, seats, f)| == Min(|Queue(bookings, seats, f)|, |FreeSeatsOn(seats, f)|)
    ensures PairedOn(bookings, seats, f)
         == Elems(FreeInOrder(seats, f)[..Min(|Queue(bookings, seats, f)|, |FreeSeatsOn(seats, f)|)])
  {
    hide Queue, FreeSeatsOn, FreeInOrder, Partner;
    var free, queue := FreeInOrder(seats, f), Queue(bookings, seats, f);
    FreeSize(seats, f);
    var n := Min(|queue|, |free|);
    SeatsDistinct(seats, f);
    PrefixDistinct(free, n);
    DistinctIffFull(free[..n]);
    forall k ensures k in PairedOn(bookings, seats, f) <==> k in free[..n] {
      if k in free[..n] {
        var i :| 0 <= i < n && free[..n][i] == k;
        NthToNth(bookings, seats, f, i);
      }
      if k in PairedOn(bookings, seats, f) {
        PartnerIsFree(bookings, seats, k);
        var i :| 0 <= i < |free| && free[i] == k;
        NthToNth(bookings, seats, f, i);
        assert free[..n][i] == k;
      }
    }
    assert PairedOn(bookings, seats, f) == Elems(free[..n]);
  }

  lemma FreeSize(seats: map<SeatKey, Seat>, f: Id)
    ensures |FreeInOrder(seats, f)| == |FreeSeatsOn(seats, f)|
  {
  }

  lemma PartnerIsFree(bookings: map<Id, OldBooking>, seats: map<SeatKey, Seat>, k: SeatKey)
    requires Partner(bookings, seats, k).Some?
    ensures k in FreeInOrder(seats, k.flightId)
  {
  }

  // ---- A second run ----

  /** CHK_flight_seats_booking: a free seat has no booking. */
  predicate SeatsOk(seats: map<SeatKey, Seat>) {
    forall k | k in seats :: seats[k].status.AVAILABLE? ==> seats[k].bookingId.None?
  }

  /** Seated bookings stay seated, and the queue's first ones now are. */
  lemma SeatedAfter(bookings: map<Id, OldBooking>, seats: map<SeatKey, Seat>, f: Id, i: nat)
    requires SeatsOk(seats) && i < |Queue(bookings, seats, f)|
    ensures Seated(Paired(bookings, seats), Queue(bookings, seats, f)[i].1) <==> i < |FreeInOrder(seats, f)|
  {
    hide Queue, FreeInOrder, FreeSeatsOn;
    var queue, free := Queue(bookings, seats, f), FreeInOrder(seats, f);
    var b := queue[i].1;
    var seats' := Paired(bookings, seats);
    QueueIds(bookings, seats, f);
    if i < |free| {
      NthToNth(bookings, seats, f, i);
      assert seats'[free[i]].bookingId == Some(b);
    }
    if Seated(seats', b) {
      var k :| k in seats' && seats'[k].bookingId == Some(b);
      assert seats[k].bookingId != Some(b);
      PartnerAtIndex(bookings, seats, k, i);
    }
  }

  lemma PartnerAtIndex(bookings: map<Id, OldBooking>, seats: map<SeatKey, Seat>, k: SeatKey, i: nat)
    requires Partner(bookings, seats, k).Some?
    requires Partner(bookings, seats, k).value in bookings
    requires var f := bookings[Partner(bookings, seats, k).value].flightId;
      i < |Queue(bookings, seats, f)| && Queue(bookings, seats, f)[i].1 == Partner(bookings, seats, k).value
    ensures i < |FreeInOrder(seats, bookings[Partner(bookings, seats, k).value].flightId)|
  {
    hide Queue, Seated;
    PartnerIsUnseated(bookings, seats, k);
    QueueIds(bookings, seats, k.flightId);
    assert IndexOf(FreeInOrder(seats, k.flightId), k) == i;
  }

  /** After the pairing no flight has both a booking waiting and a seat free. */
  lemma NothingLeftToPair(bookings: map<Id, OldBooking>, seats: map<SeatKey, Seat>, k: SeatKey)
    requires SeatsOk(seats)
    ensures Partner(bookings, Paired(bookings, seats), k) == None
  {
    hide Queue, FreeInOrder, Seated, Paired;
    var seats' := Paired(bookings, seats);
    var f := k.flightId;
    if Partner(bookings, seats', k).Some? {
      PartnerIsUnseated(bookings, seats', k);
      var b := Partner(bookings, seats', k).value;
      SeatedStaysSeated(bookings, seats, b);
      var queue := Queue(bookings, seats, f);
      QueueIds(bookings, seats, f);
      var i :| 0 <= i < |queue| && queue[i] == (bookings[b].createdAt, b);
      SeatedAfter(bookings, seats, f, i);
      StillFree(bookings, seats, k);
      InFree(seats, k);
      var n :| 0 <= n < |FreeInOrder(seats, f)| && FreeInOrder(seats, f)[n] == k;
      NthToNth(bookings, seats, f, n);
      PairedSeatIsBooked(bookings, seats, k);
    }
  }

  lemma SeatedStaysSeated(bookings: map<Id, OldBooking>, seats: map<SeatKey, Seat>, b: Id)
    requires SeatsOk(seats)
    ensures Seated(seats, b) ==> Seated(Paired(bookings, seats), b)
  {
  }

  lemma StillFree(bookings: map<Id, OldBooking>, seats: map<SeatKey, Seat>, k: SeatKey)
    requires Partner(bookings, Paired(bookings, seats), k).Some?
    ensures k in FreeSeatsOn(seats, k.flightId)
  {
    hide Queue, Seated, IndexOf;
  }

  lemma PairedSeatIsBooked(bookings: map<Id, OldBooking>, seats: map<SeatKey, Seat>, k: SeatKey)
    requires Partner(bookings, Paired(bookings, seats), k).Some? && k in seats
    ensures Partner(bookings, seats, k) == None
  {
    hide Queue, Seated, IndexOf;
  }

  // ---- What the migration leaves ----

  /** The free seats of a flight that were filled. */
  function Filled(before: map<SeatKey, Seat>, seats: map<SeatKey, Seat>, f: Id): set<SeatKey> {
    set k | k in seats && k.flightId == f && seats[k].status.BOOKED? && (k in before ==> before[k].status.AVAILABLE?)
  }

  lemma FilledIsPaired(fleet: Fleet, bookings: map<Id, OldBooking>, seats: map<SeatKey, Seat>, f: Id)
    ensures Filled(seats, Paired(bookings, Seeded(fleet, seats)), f) == PairedOn(bookings, Seeded(fleet, seats), f)
  {
    hide Queue, IndexOf, FreeInOrder;
  }

  /** No flight keeps both a free seat and an active booking without one. */
  lemma NobodyWaitsForAFreeSeat(bookings: map<Id, OldBooking>, seats: map<SeatKey, Seat>, k: SeatKey, b: Id)
    requires SeatsOk(seats) && k in FreeSeatsOn(Paired(bookings, seats), k.flightId)
    requires b in bookings && bookings[b].active && bookings[b].flightId == k.flightId
    ensures Seated(Paired(bookings, seats), b)
  {
    hide FreeSeatsOn, FreeInOrder, Queue, Partner, Paired, Seated;
    var seats', f := Paired(bookings, seats), k.flightId;
    if !Seated(seats', b) {
      InFree(seats', k);
      QueueIds(bookings, seats', f);
      NthToNth(bookings, seats', f, 0);
      NothingLeftToPair(bookings, seats, FreeInOrder(seats', f)[0]);
    }
  }

  /** An active booking of the seat's flight that had no seat. */
  predicate WaitedFor(bookings: map<Id, OldBooking>, seats: map<SeatKey, Seat>, k: SeatKey, b: Id) {
    b in bookings && bookings[b].active && bookings[b].flightId == k.flightId && !Seated(seats, b)
  }

  predicate NewlyBooked(before: map<SeatKey, Seat>, seats: map<SeatKey, Seat>, k: SeatKey) {
    k in seats && seats[k].status.BOOKED? && (k in before ==> before[k].status.AVAILABLE?)
  }

  /**
   * A new seat is one of the aircraft's, in its class; a present one keeps its
   * class; it is free without a booking, or as it was, or BOOKED for a booking
   * that waited for one.
   */
  predicate Becomes(
    fleet: Fleet, bookings: map<Id, OldBooking>, before: map<SeatKey, Seat>, seats: map<SeatKey, Seat>, k: SeatKey)
    requires k in seats
  {
    && (if k in before then seats[k].fareClass == before[k].fareClass
        else HasSeat(fleet, k) && seats[k].fareClass == fleet.layouts[fleet.flights[k.flightId]][k.position])
    && (seats[k].status.AVAILABLE? ==> seats[k].bookingId.None?)
    && (seats[k].status.AVAILABLE? || (k in before && seats[k] == before[k])
        || (seats[k].status.BOOKED? && seats[k].bookingId.Some? && WaitedFor(bookings, before, k, seats[k].bookingId.value)))
  }

  lemma SeededSeats(fleet: Fleet, seats: map<SeatKey, Seat>, b: Id)
    ensures Seated(Seeded(fleet, seats), b) <==> Seated(seats, b)
  {
    hide HasSeat;
    if Seated(seats, b) {
      var k :| k in seats && seats[k].bookingId == Some(b);
      assert Seeded(fleet, seats)[k].bookingId == Some(b);
    }
  }

  /** Seat by seat, and no booking twice. */
  lemma EachSeatIs(fleet: Fleet, bookings: map<Id, OldBooking>, seats: map<SeatKey, Seat>)
    requires SeatsOk(seats)
    ensures
      var done := Paired(bookings, Seeded(fleet, seats));
      && (forall k | k in done :: Becomes(fleet, bookings, seats, done, k))
      && (forall k, l | k in done && l in done && k != l && NewlyBooked(seats, done, k) && NewlyBooked(seats, done, l) ::
            done[k].bookingId != done[l].bookingId)
  {
    hide Partner, Seated, AllSeats, HasSeat;
    var seeded := Seeded(fleet, seats);
    var done := Paired(bookings, seeded);
    forall k | k in seeded && Partner(bookings, seeded, k).Some?
      ensures WaitedFor(bookings, seats, k, Partner(bookings, seeded, k).value)
    {
      PartnerIsUnseated(bookings, seeded, k);
      SeededSeats(fleet, seats, Partner(bookings, seeded, k).value);
    }
    forall k, l | NewlyBooked(seats, done, k) && NewlyBooked(seats, done, l) && done[k].bookingId == done[l].bookingId
      ensures k == l
    {
      PairingIsInjective(bookings, seeded, k, l);
    }
  }

  /** The migration: seats first, then the pairing. */
  class Migration {
    const fleet: Fleet
    const bookings: map<Id, OldBooking>
    var seats: map<SeatKey, Seat>

    constructor (fleet: Fleet, bookings: map<Id, OldBooking>, seats: map<SeatKey, Seat>)
      ensures this.fleet == fleet && this.bookings == bookings && this.seats == seats
    {
      this.fleet, this.bookings, this.seats := fleet, bookings, seats;
    }

    /**
     * Every aircraft seat exists, no seat that was not free changed, each
     * flight filled as many seats as it had waiting bookings or free seats,
     * and nobody waits where a seat is left.
     */
    method Up()
      requires SeatsOk(seats)
      modifies this
      ensures seats == Paired(bookings, Seeded(fleet, old(seats)))
      ensures seats.Keys == old(seats).Keys + AllSeats(fleet)
      ensures forall k | k in seats :: Becomes(fleet, bookings, old(seats), seats, k)
      ensures forall k, l | k in seats && l in seats && k != l && NewlyBooked(old(seats), seats, k)
                            && NewlyBooked(old(seats), seats, l) :: seats[k].bookingId != seats[l].bookingId
      ensures forall k | k in old(seats) && !old(seats)[k].status.AVAILABLE? :: seats[k] == old(seats)[k]
      ensures
        var seeded := Seeded(fleet, old(seats));
        forall f :: |Filled(old(seats), seats, f)| == Min(|Queue(bookings, seeded, f)|, |FreeSeatsOn(seeded, f)|)
      ensures forall k: SeatKey, b: Id | k in FreeSeatsOn(seats, k.flightId) && b in bookings && bookings[b].active
                            && bookings[b].flightId == k.flightId :: Seated(seats, b)
    {
      hide Queue, Seated, IndexOf, FreeInOrder, Filled, FreeSeatsOn;
      seats := Seeded(fleet, seats);
      ghost var seeded := seats;
      seats := Paired(bookings, seats);
      forall f ensures |Filled(old(seats), seats, f)| == Min(|Queue(bookings, seeded, f)|, |FreeSeatsOn(seeded, f)|) {
        FilledIsPaired(fleet, bookings, old(seats), f);
        PairsTheMost(bookings, seeded, f);
      }
      forall k: SeatKey, b: Id | k in FreeSeatsOn(seats, k.flightId) && b in bookings && bookings[b].active
                    && bookings[b].flightId == k.flightId ensures Seated(seats, b)
      {
        NobodyWaitsForAFreeSeat(bookings, seeded, k, b);
      }
      PresentSeatsStay(fleet, bookings, old(seats));
      EachSeatIs(fleet, bookings, old(seats));
    }
  }

  lemma PresentSeatsStay(fleet: Fleet, bookings: map<Id, OldBooking>, seats: map<SeatKey, Seat>)
    ensures forall k | k in seats && !seats[k].status.AVAILABLE? ::
      Paired(bookings, Seeded(fleet, seats))[k] == seats[k]
  {
    hide Queue, IndexOf, FreeInOrder;
  }

  /** Running it again changes nothing. */
  lemma SecondRunChangesNothing(fleet: Fleet, bookings: map<Id, OldBooking>, seats: map<SeatKey, Seat>)
    requires SeatsOk(seats)
    ensures
      var once := Paired(bookings, Seeded(fleet, seats));
      Paired(bookings, Seeded(fleet, once)) == once
  {
    hide Partner;
    var seeded := Seeded(fleet, seats);
    var once := Paired(bookings, seeded);
    assert SeatsOk(seeded);
    assert Seeded(fleet, once) == once;
    forall k | k in once ensures Paired(bookings, once)[k] == once[k] {
      NothingLeftToPair(bookings, seeded, k);
    }
  }
}

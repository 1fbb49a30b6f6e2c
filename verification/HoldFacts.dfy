/** A hold is all or nothing, takes exactly the right seats, and fixes the price for good. */
module HoldFacts {
  import opened Basics
  import opened Counting
  import opened Ordering
  import opened Schema
  import opened Transactions
  import opened Runs
  import opened Histories

  /** Whatever a create answers other than created, it wrote nothing. */
  lemma OnlyCreatedWrites(t: Tables, r: CreateRequest, now: Instant)
    ensures
      var o := CreateBooking(t, r, now);
      o.db != t ==> o.result.Ok? && o.result.value.Created?
    ensures CreateBooking(t, r, now).result.Ok? && CreateBooking(t, r, now).result.value.Created? ==>
      r.id !in t.bookings && TakenSeats(t, r.flightId, ToHoldRequest(r.input), r.locked, now) != []
  {
    hide TakenSeats, Refusal, FreeReference, Hold, Passengers, Total, AllPriced, ValidInput;
  }

  /** An auto hold is granted exactly when enough seats of the class are free and unlocked on an open sale. */
  lemma AutoHoldIff(t: Tables, flightId: Id, count: nat, fareClass: FareClass, locked: set<SeatKey>, now: Instant)
    requires 1 <= count
    ensures TakenSeats(t, flightId, Auto(count, fareClass), locked, now) != []
      <==> FlightOnSale(t, flightId, now) && |FreeSeats(t, flightId, fareClass) - locked| >= count
  {
  }

  /** It takes `count` seats, all free ones of the class, and none of the passed-over ones comes before them. */
  lemma AutoHoldTakesTheLowest(
    t: Tables, flightId: Id, count: nat, fareClass: FareClass, locked: set<SeatKey>, now: Instant)
    requires TakenSeats(t, flightId, Auto(count, fareClass), locked, now) != []
    ensures
      var keys := TakenSeats(t, flightId, Auto(count, fareClass), locked, now);
      && |keys| == count && Increasing(keys, SeatLess)
      && (forall k | k in keys ::
            k in t.seats && k.flightId == flightId && t.seats[k].status.AVAILABLE? && t.seats[k].fareClass == fareClass
            && k !in locked)
      && (forall k, l | k in keys && l in FreeSeats(t, flightId, fareClass) && l !in locked && l !in keys :: SeatLess(k, l))
  {
    hide FlightOnSale;
    var free := FreeSeats(t, flightId, fareClass) - locked;
    var sorted := SortedSeats(free);
    SeatOrder();
    Cut(sorted, count, SeatLess);
    forall k | k in sorted[..count] ensures k in free {
    }
  }

  /**
   * A chosen hold is granted exactly when the seats are distinct, all there
   * and all free on an open sale; then it takes just those, in request order.
   */
  lemma ChosenHoldIff(t: Tables, flightId: Id, positions: seq<SeatPosition>, locked: set<SeatKey>, now: Instant)
    requires positions != []
    ensures
      var keys := TakenSeats(t, flightId, Chosen(positions), locked, now);
      && (keys != [] <==>
            FlightOnSale(t, flightId, now) && Distinct(positions)
            && forall p | p in positions :: SeatKey(flightId, p) in t.seats && t.seats[SeatKey(flightId, p)].status.AVAILABLE?)
      && (keys != [] ==> |keys| == |positions| && forall i | 0 <= i < |keys| :: keys[i] == SeatKey(flightId, positions[i]))
  {
  }

  /** Passenger n sits where they asked, in the seat's class, at that class's fare. */
  lemma CreatedPassengers(t: Tables, r: CreateRequest, now: Instant)
    requires CreateBooking(t, r, now).result.Ok? && CreateBooking(t, r, now).result.value.Created?
    ensures
      var booking := CreateBooking(t, r, now).result.value.booking;
      && |booking.passengers| == |r.input.names|
      && (forall i | 0 <= i < |booking.passengers| ::
            var p := booking.passengers[i];
            var k := SeatKey(r.flightId, p.seat);
            && p.name == r.input.names[i]
            && (r.input.ChosenSeats? && i < |r.input.positions| ==> p.seat == r.input.positions[i])
            && k in t.seats && p.fareClass == t.seats[k].fareClass
            && (r.flightId, p.fareClass) in t.fares && p.price == t.fares[(r.flightId, p.fareClass)])
  {
    hide Refusal, FreeReference, Hold, Total;
    var keys := TakenSeats(t, r.flightId, ToHoldRequest(r.input), r.locked, now);
    TakenOnFlight(t, r.flightId, ToHoldRequest(r.input), r.locked, now);
    assert AllPriced(t, keys);
    assert forall i | 0 <= i < |keys| :: keys[i] == SeatKey(r.flightId, keys[i].position);
  }

  lemma TakenOnFlight(t: Tables, flightId: Id, request: HoldRequest, locked: set<SeatKey>, now: Instant)
    ensures forall i | 0 <= i < |TakenSeats(t, flightId, request, locked, now)| ::
      TakenSeats(t, flightId, request, locked, now)[i].flightId == flightId
  {
    hide FlightOnSale;
    if request.Auto? {
      var sorted := SortedSeats(FreeSeats(t, flightId, request.fareClass) - locked);
      forall i | 0 <= i < |sorted| ensures sorted[i].flightId == flightId {
        assert sorted[i] in sorted;
      }
    }
  }

  /** The total is the sum of the fares the hold read, and no later transaction changes it. */
  lemma TotalIsFixed(t: Tables, r: CreateRequest, now: Instant, xs: seq<Txn>)
    requires CreateBooking(t, r, now).result.Ok? && CreateBooking(t, r, now).result.value.Created?
    ensures
      var o := CreateBooking(t, r, now);
      var later := Run(o.db, xs);
      && r.id in later.bookings
      && Total(later.bookings[r.id]) == SumPrices(o.result.value.booking.passengers) <= MAX_SAFE_INTEGER
  {
    hide TakenSeats, Refusal, FreeReference, Hold, AllPriced, ValidInput, Run, Passengers;
    BookingsOnlyAdvanceOverRuns(CreateBooking(t, r, now).db, xs);
  }

  /** A total is the sum of its passengers' prices, however they are grouped. */
  lemma {:induction false} TotalIsTheSum(a: seq<Passenger>, b: seq<Passenger>, p: Passenger)
    ensures SumPrices([]) == 0 && SumPrices([p]) == p.price
    ensures SumPrices(a + b) == SumPrices(a) + SumPrices(b)
    decreases |b|
  {
    assert [p][..0] == [];
    if b == [] {
      assert a + b == a;
    } else {
      var last := |b| - 1;
      TotalIsTheSum(a, b[..last], p);
      assert (a + b)[..|a + b| - 1] == a + b[..last];
    }
  }
}

/** A history in which a seat change sees the sweep: one flight, a paid booking, and a neighbour who never pays. */
module SweptNeighbour {
  import opened Basics
  import opened Counting
  import opened Schema
  import opened Lifecycle
  import opened Transactions
  import opened Invariants
  import opened Runs
  import opened ExpiryView

  const SEAT_A := SeatPosition(12, 'A')
  const SEAT_B := SeatPosition(12, 'B')
  const KEY_A := SeatKey(1, SEAT_A)
  const KEY_B := SeatKey(1, SEAT_B)
  const FLIGHT := Flight(StoredFlightStatus.OPEN, 100 * HOUR_MS)

  function HeldBy(id: Id, owner: Id, name: string, seat: SeatPosition): Booking {
    Booking(id, 1, owner, BookingStatus.HELD, 0, Some(HOLD_DURATION_MS), [Passenger(name, seat, ECONOMY, 100)])
  }

  function AnsHold(): Booking { HeldBy(1, 7, "An", SEAT_A) }
  function BinhsHold(): Booking { HeldBy(2, 8, "Binh", SEAT_B) }

  function AsksFor(id: Id, owner: Id, name: string, seat: SeatPosition): CreateRequest {
    CreateRequest(1, id, ChosenSeats([name], [seat]), owner, [id], {})
  }

  function PayAns(): PayRequest { PayRequest(1, 7, 1, "fingerprint", "token", 100, 1) }

  function AnsPayment(): Payment { NewPayment(PayAns(), 100, 0, 20 * SECOND_MS) }

  // ---- The history, step by step ----

  function FlightIsAdded(): Txn { DoAddFlight(1, FLIGHT, map[KEY_A := ECONOMY, KEY_B := ECONOMY]) }
  function FareIsSet(): Txn { DoSetFare(1, ECONOMY, 100) }
  function AnHolds(): Txn { DoCreate(AsksFor(1, 7, "An", SEAT_A), 0) }
  function AnPays(): Txn { DoStart(Some(AnsHold()), PayAns(), 0, 20 * SECOND_MS) }
  function AnIsCharged(): Txn { DoCharged(1, AnsPayment(), "charge", Account(7), 0) }
  function BinhHolds(): Txn { DoCreate(AsksFor(2, 8, "Binh", SEAT_B), 0) }

  function History(): seq<Txn> { [FlightIsAdded(), FareIsSet(), AnHolds(), AnPays(), AnIsCharged(), BinhHolds()] }

  function Free(): Seat { Seat(ECONOMY, AVAILABLE, None) }
  function Owned(status: SeatStatus, id: Id): Seat { Seat(ECONOMY, status, Some(id)) }

  /** What matters of a state: the two seats, the bookings, the payments and how many keys are open. */
  ghost predicate Shape(t: Tables, a: Seat, b: Seat, bookings: map<Id, Booking>, payments: map<Id, Payment>) {
    && t.flights == map[1 := FLIGHT] && t.fares == map[(1, ECONOMY) := 100]
    && t.seats == map[KEY_A := a, KEY_B := b]
    && t.bookings == bookings && t.payments == payments
  }

  lemma OpensAndPrices(t: Tables)
    ensures Enabled(EMPTY, FlightIsAdded()) && Enabled(t, FareIsSet())
  {
  }

  lemma OnSaleAtZero()
    ensures Shape(Apply(Apply(EMPTY, FlightIsAdded()), FareIsSet()), Free(), Free(), map[], map[])
    ensures Apply(Apply(EMPTY, FlightIsAdded()), FareIsSet()).keys == map[]
  {
  }

  /** Asking for one free seat by name on this flight holds it. */
  lemma OneSeatIsHeld(t: Tables, id: Id, owner: Id, name: string, seat: SeatPosition)
    requires t.flights == map[1 := FLIGHT] && t.fares == map[(1, ECONOMY) := 100]
    requires SeatKey(1, seat) in t.seats && t.seats[SeatKey(1, seat)] == Free()
    requires id !in t.bookings && !ReferenceTaken(t, id)
    ensures
      var t' := CreateBooking(t, AsksFor(id, owner, name, seat), 0).db;
      && t'.flights == t.flights && t'.fares == t.fares && t'.payments == t.payments && t'.keys == t.keys
      && t'.seats == t.seats[SeatKey(1, seat) := Owned(SeatStatus.HELD, id)]
      && t'.bookings == t.bookings[id := HeldBy(id, owner, name, seat)]
  {
    hide ReferenceTaken, SumPrices;
    var r := AsksFor(id, owner, name, seat);
    var k := SeatKey(1, seat);
    OneSeatIsTaken(t, seat);
    assert AllPriced(t, [k]);
    var passengers := Passengers(t, [name], [k]);
    assert passengers == [Passenger(name, seat, ECONOMY, 100)];
    OnePrice(passengers[0]);
    assert FirstDraws([id]) == [id] && FreeReference(t, [id]) == Some(id);
    assert Hold(t.seats, Elems([k]), id) == t.seats[k := Owned(SeatStatus.HELD, id)];
  }

  lemma OneSeatIsTaken(t: Tables, seat: SeatPosition)
    requires t.flights == map[1 := FLIGHT] && SeatKey(1, seat) in t.seats && t.seats[SeatKey(1, seat)] == Free()
    ensures TakenSeats(t, 1, Chosen([seat]), {}, 0) == [SeatKey(1, seat)]
  {
    assert KeysAt(1, [seat]) == [SeatKey(1, seat)];
  }

  lemma OnePrice(p: Passenger)
    ensures SumPrices([p]) == p.price
  {
    assert [p][..0] == [];
  }

  lemma AnHoldsA(t: Tables)
    requires Shape(t, Free(), Free(), map[], map[]) && t.keys == map[]
    ensures Shape(Apply(t, AnHolds()), Owned(SeatStatus.HELD, 1), Free(), map[1 := AnsHold()], map[])
    ensures Apply(t, AnHolds()).keys == map[]
  {
    hide CreateBooking;
    OneSeatIsHeld(t, 1, 7, "An", SEAT_A);
  }

  const PAYING := KeyId(7, 1)

  lemma AnPaysForA(t: Tables)
    requires Shape(t, Owned(SeatStatus.HELD, 1), Free(), map[1 := AnsHold()], map[]) && t.keys == map[]
    ensures Enabled(t, AnPays())
    ensures Shape(Apply(t, AnPays()), Owned(SeatStatus.HELD, 1), Free(), map[1 := AnsHold()], map[1 := AnsPayment()])
    ensures Apply(t, AnPays()).keys == map[PAYING := FreshKey(PayAns(), 0).(paymentId := Some(1))]
  {
    hide SumPrices;
    OnePrice(AnsHold().passengers[0]);
  }

  /** A charge of a payable hold with one open key confirms it and books its seats. */
  lemma ChargeConfirms(t: Tables, id: Id, p: Payment, reference: string, actor: Actor, now: Instant)
    requires HasStatus(t, id, PROCESSING) && Confirmable(t, p.bookingId, Owner(p.accountId), now)
    requires !PaidAlready(t, id) && |OpenKeysOf(t, id)| == 1
    ensures
      var t' := Charged(t, id, p, reference, actor, now).db;
      && t'.flights == t.flights && t'.fares == t.fares
      && t'.seats == Book(t.seats, SeatsOf(t.seats, {p.bookingId}))
      && t'.bookings == t.bookings[p.bookingId := t.bookings[p.bookingId].(status := CONFIRMED)]
  {
    hide Book, SeatsOf, CompleteKeys, OpenKeysOf, Total, PaidAlready, ConfirmedResponse;
  }

  lemma AnIsConfirmed(t: Tables)
    requires Shape(t, Owned(SeatStatus.HELD, 1), Free(), map[1 := AnsHold()], map[1 := AnsPayment()])
    requires t.keys == map[PAYING := FreshKey(PayAns(), 0).(paymentId := Some(1))]
    ensures Enabled(t, AnIsCharged())
    ensures
      Shape(Apply(t, AnIsCharged()), Owned(SeatStatus.BOOKED, 1), Free(), map[1 := AnsHold().(status := CONFIRMED)],
            Apply(t, AnIsCharged()).payments)
  {
    hide Charged;
    assert OpenKeysOf(t, 1) == {PAYING};
    assert SeatsOf(t.seats, {1}) == {KEY_A};
    ChargeConfirms(t, 1, AnsPayment(), "charge", Account(7), 0);
  }

  lemma BinhHoldsB(t: Tables)
    requires Shape(t, Owned(SeatStatus.BOOKED, 1), Free(), map[1 := AnsHold().(status := CONFIRMED)], t.payments)
    ensures
      Shape(Apply(t, BinhHolds()), Owned(SeatStatus.BOOKED, 1), Owned(SeatStatus.HELD, 2),
            map[1 := AnsHold().(status := CONFIRMED), 2 := BinhsHold()], Apply(t, BinhHolds()).payments)
  {
    hide CreateBooking;
    assert !ReferenceTaken(t, 2) by {
      assert t.bookings.Keys == {1} && t.bookings[1].reference == 1;
    }
    OneSeatIsHeld(t, 2, 8, "Binh", SEAT_B);
  }

  /** The history can happen, and leaves 12A sold to booking 1 and 12B held by booking 2. */
  lemma HistoryHappens()
    ensures Legal(EMPTY, History())
    ensures
      var t := Run(EMPTY, History());
      Shape(t, Owned(SeatStatus.BOOKED, 1), Owned(SeatStatus.HELD, 2),
            map[1 := AnsHold().(status := CONFIRMED), 2 := BinhsHold()], t.payments)
  {
    hide Apply, Shape, Run, Legal;
    var t1 := Apply(EMPTY, FlightIsAdded());
    var t2 := Apply(t1, FareIsSet());
    var t3 := Apply(t2, AnHolds());
    var t4 := Apply(t3, AnPays());
    var t5 := Apply(t4, AnIsCharged());
    var t6 := Apply(t5, BinhHolds());
    OpensAndPrices(t1);
    OnSaleAtZero();
    AnHoldsA(t2);
    AnPaysForA(t3);
    AnIsConfirmed(t4);
    BinhHoldsB(t5);
    RunNowhere(t6);
    RunOnward(t5, BinhHolds(), []);
    assert [BinhHolds()] + [] == [BinhHolds()];
    RunOnward(t4, AnIsCharged(), [BinhHolds()]);
    RunOnward(t3, AnPays(), [AnIsCharged()] + [BinhHolds()]);
    RunOnward(t2, AnHolds(), [AnPays()] + ([AnIsCharged()] + [BinhHolds()]));
    var rest := [AnHolds()] + ([AnPays()] + ([AnIsCharged()] + [BinhHolds()]));
    RunOnward(t1, FareIsSet(), rest);
    RunOnward(EMPTY, FlightIsAdded(), [FareIsSet()] + rest);
    assert History() == [FlightIsAdded()] + ([FareIsSet()] + rest);
  }

  // ---- The observation ----

  lemma NeighbourIsDue(t: Tables, now: Instant)
    requires t.bookings == map[1 := AnsHold().(status := CONFIRMED), 2 := BinhsHold()] && now >= HOLD_DURATION_MS
    ensures ExpiredIds(t, now, 1, {}) == [2]
  {
    hide ExpiredIds;
    assert HoldIsDue(t.bookings[2], now) && !HoldIsDue(t.bookings[1], now);
    forall d ensures d in DueHolds(t, now, {}) <==> d == (HOLD_DURATION_MS, 2) {
      assert 2 in t.bookings && t.bookings[2].holdExpiresAt.value == HOLD_DURATION_MS;
    }
    OneDueHold(t, now, (HOLD_DURATION_MS, 2));
  }

  lemma OneDueHold(t: Tables, now: Instant, d: (Instant, Id))
    requires DueHolds(t, now, {}) == {d}
    ensures ExpiredIds(t, now, 1, {}) == [d.1]
  {
  }

  /**
   * After that history, once Binh's hold has lapsed: An's change from 12A to
   * 12B is refused before the sweep and goes through after it, at the same
   * instant.
   */
  lemma SeatChangeSeesTheSweep()
    ensures Legal(EMPTY, History())
    ensures
      var t, now := Run(EMPTY, History()), HOLD_DURATION_MS;
      && Inv(t)
      && ChangeSeatVerdict(t, 1, 1, SEAT_B, Owner(7), now) == Ok(SeatUnavailable)
      && ChangeSeatVerdict(ExpireBatch(t, now, 1, {}), 1, 1, SEAT_B, Owner(7), now) == Ok(Changed(SEAT_A, SEAT_B))
  {
    hide Run, Legal, Inv, ExpireBatch, ExpiredIds, Swept;
    var t, now := Run(EMPTY, History()), HOLD_DURATION_MS;
    HistoryHappens();
    EmptyInv();
    RunKeepsInv(EMPTY, History());
    NeighbourIsDue(t, now);
    SweepSweeps(t, now, 1, {}, now);
    SweptSeats(t, ExpireBatch(t, now, 1, {}), now);
  }

  lemma SweptSeats(t: Tables, t2: Tables, now: Instant)
    requires Swept(t, t2, [2], now) && now == HOLD_DURATION_MS
    requires Shape(t, Owned(SeatStatus.BOOKED, 1), Owned(SeatStatus.HELD, 2),
                   map[1 := AnsHold().(status := CONFIRMED), 2 := BinhsHold()], t.payments)
    ensures ChangeSeatVerdict(t, 1, 1, SEAT_B, Owner(7), now) == Ok(SeatUnavailable)
    ensures ChangeSeatVerdict(t2, 1, 1, SEAT_B, Owner(7), now) == Ok(Changed(SEAT_A, SEAT_B))
  {
    assert t2.bookings[1] == t.bookings[1];
    assert KEY_B in SeatsOf(t.seats, Elems([2])) && KEY_A !in SeatsOf(t.seats, Elems([2]));
  }
}

/**
 * What a create request is answered, stated in what the caller could look up
 * before, and what the hold it makes can do until when.
 */
module CreateAnswers {
  import opened Basics
  import opened Ordering
  import opened Schema
  import opened Lifecycle
  import opened Transactions
  import opened Invariants
  import opened HoldFacts
  import opened ExpiryJob

  predicate IsCreated(o: Outcome<CreateResult>) { o.result.Ok? && o.result.value.Created? }

  // ---- The booking it makes ----

  /** `reference` is the first of at most five draws that no booking has. */
  predicate FirstFreeDraw(t: Tables, draws: seq<nat>, reference: nat) {
    exists i | 0 <= i < 5 && i < |draws| ::
      draws[i] == reference && !ReferenceTaken(t, reference)
      && forall j | 0 <= j < i :: ReferenceTaken(t, draws[j])
  }

  lemma {:induction false} FreeReferenceIsFirst(t: Tables, draws: seq<nat>, n: nat)
    requires |draws| <= n
    ensures FreeReference(t, draws).Some? ==>
      exists i | 0 <= i < n && i < |draws| ::
        draws[i] == FreeReference(t, draws).value && !ReferenceTaken(t, draws[i])
        && forall j | 0 <= j < i :: ReferenceTaken(t, draws[j])
    ensures FreeReference(t, draws).None? ==> forall i | 0 <= i < |draws| :: ReferenceTaken(t, draws[i])
  {
    hide ReferenceTaken;
    if draws != [] {
      if ReferenceTaken(t, draws[0]) {
        FreeReferenceIsFirst(t, draws[1..], n - 1);
        assert forall i | 0 <= i < |draws[1..]| :: draws[1..][i] == draws[i + 1];
        if FreeReference(t, draws).Some? {
          var i :| 0 <= i < n - 1 && i < |draws[1..]|
            && draws[1..][i] == FreeReference(t, draws[1..]).value && !ReferenceTaken(t, draws[1..][i])
            && forall j | 0 <= j < i :: ReferenceTaken(t, draws[1..][j]);
          forall j | 0 <= j < i + 1 ensures ReferenceTaken(t, draws[j]) {
            if j != 0 { assert draws[j] == draws[1..][j - 1]; }
          }
          assert draws[i + 1] == FreeReference(t, draws).value;
        }
      } else {
        assert draws[0] == FreeReference(t, draws).value;
      }
    }
  }

  lemma DrawIsFirstFree(t: Tables, draws: seq<nat>)
    ensures FreeReference(t, FirstDraws(draws)).Some? ==>
      FirstFreeDraw(t, draws, FreeReference(t, FirstDraws(draws)).value)
    ensures FreeReference(t, FirstDraws(draws)).None? <==>
      forall i | 0 <= i < 5 && i < |draws| :: ReferenceTaken(t, draws[i])
  {
    hide ReferenceTaken, FreeReference;
    var first := FirstDraws(draws);
    FreeReferenceIsFirst(t, first, 5);
    assert forall i | 0 <= i < |first| :: first[i] == draws[i];
    if FreeReference(t, first).Some? {
      var i :| 0 <= i < 5 && i < |first| && first[i] == FreeReference(t, first).value && !ReferenceTaken(t, first[i])
        && forall j | 0 <= j < i :: ReferenceTaken(t, first[j]);
      assert draws[i] == FreeReference(t, first).value;
    }
  }

  /**
   * A created booking is the caller's, on the flight asked for, HELD since
   * `now` for fifteen minutes under the first free reference, and told once
   * in the audit log and once in the outbox; no other booking, no payment and
   * no key is touched.
   */
  lemma CreatedBookingIs(t: Tables, r: CreateRequest, now: Instant)
    requires IsCreated(CreateBooking(t, r, now))
    ensures
      var o := CreateBooking(t, r, now);
      var b := o.result.value.booking;
      && o.result.value.id == r.id && r.id !in t.bookings && o.db.bookings == t.bookings[r.id := b]
      && b.status.HELD? && b.owner == r.owner && b.flightId == r.flightId
      && b.createdAt == now && b.holdExpiresAt == Some(now + 900000)
      && FirstFreeDraw(t, r.draws, b.reference)
      && o.db.audit == t.audit + [AuditEntry(BOOKING_CREATED(Total(b)), Account(r.owner), r.id, now)]
      && o.db.outbox == t.outbox + [OutboxRow(BookingHeld(r.id, b.passengers, Total(b)), now)]
      && o.db.payments == t.payments && o.db.keys == t.keys && o.db.flights == t.flights && o.db.fares == t.fares
  {
    hide TakenSeats, Refusal, FreeReference, FirstDraws, Hold, Passengers, Total, AllPriced, ValidInput, FirstFreeDraw;
    DrawIsFirstFree(t, r.draws);
  }

  /** Exactly the passengers' seats, all free before, become HELD for the booking; a seat keeps its class. */
  predicate HeldOnly(seats: map<SeatKey, Seat>, seats': map<SeatKey, Seat>, id: Id, b: Booking) {
    && seats'.Keys == seats.Keys
    && (forall i | 0 <= i < |b.passengers| ::
          var k := SeatKey(b.flightId, b.passengers[i].seat);
          k in seats && seats[k].status.AVAILABLE? && seats'[k] == Seat(b.passengers[i].fareClass, SeatStatus.HELD, Some(id)))
    && (forall k | k in seats :: seats'[k] == seats[k]
          || exists i | 0 <= i < |b.passengers| :: k == SeatKey(b.flightId, b.passengers[i].seat))
  }

  lemma CreatedSeats(t: Tables, r: CreateRequest, now: Instant)
    requires IsCreated(CreateBooking(t, r, now))
    ensures HeldOnly(t.seats, CreateBooking(t, r, now).db.seats, r.id, CreateBooking(t, r, now).result.value.booking)
  {
    hide Refusal, FreeReference, FirstDraws, Total, ValidInput, TakenSeats, SumPrices;
    var keys := TakenSeats(t, r.flightId, ToHoldRequest(r.input), r.locked, now);
    var passengers := CreateBooking(t, r, now).result.value.booking.passengers;
    TakenAreFree(t, r.flightId, ToHoldRequest(r.input), r.locked, now);
    assert forall i | 0 <= i < |keys| :: keys[i] in keys && SeatKey(r.flightId, passengers[i].seat) == keys[i];
  }

  lemma TakenAreFree(t: Tables, f: Id, request: HoldRequest, locked: set<SeatKey>, now: Instant)
    ensures forall i | 0 <= i < |TakenSeats(t, f, request, locked, now)| ::
      var k := TakenSeats(t, f, request, locked, now)[i];
      k.flightId == f && k in t.seats && t.seats[k].status.AVAILABLE?
  {
    hide FlightOnSale;
    TakenOnFlight(t, f, request, locked, now);
    if request.Auto? {
      var sorted := SortedSeats(FreeSeats(t, f, request.fareClass) - locked);
      forall i | 0 <= i < |sorted| ensures sorted[i] in t.seats && t.seats[sorted[i]].status.AVAILABLE? {
        assert sorted[i] in sorted;
      }
    }
  }

  predicate RowThenLetter(p: SeatPosition, q: SeatPosition) { p.row < q.row || (p.row == q.row && p.letter < q.letter) }

  /** Passenger by passenger, in these seats and their classes. */
  predicate SitIn(t: Tables, f: Id, keys: seq<SeatKey>, ps: seq<Passenger>) {
    && |keys| == |ps|
    && forall i | 0 <= i < |ps| ::
         keys[i] == SeatKey(f, ps[i].seat) && keys[i] in t.seats && ps[i].fareClass == t.seats[keys[i]].fareClass
  }

  /** Its passengers sit in the seats the hold took, in order. */
  lemma SeatedInTurn(t: Tables, r: CreateRequest, now: Instant)
    requires IsCreated(CreateBooking(t, r, now))
    ensures
      var keys := TakenSeats(t, r.flightId, ToHoldRequest(r.input), r.locked, now);
      var ps := CreateBooking(t, r, now).result.value.booking.passengers;
      SitIn(t, r.flightId, keys, ps)
  {
    hide Refusal, FreeReference, FirstDraws, Hold, Total, ValidInput, TakenSeats, SumPrices, FlightOnSale;
    TakenOnFlight(t, r.flightId, ToHoldRequest(r.input), r.locked, now);
  }

  /** An automatic hold seats the party in the first free unlocked seats of the class, in order of row and letter. */
  lemma AutoSeatsAreTheFirst(t: Tables, r: CreateRequest, now: Instant)
    requires IsCreated(CreateBooking(t, r, now)) && r.input.AutoSeats?
    ensures
      var ps, pick := CreateBooking(t, r, now).result.value.booking.passengers,
                      SeatsToPick(t, r.flightId, r.input.fareClass, r.locked);
      && (forall i | 0 <= i < |ps| :: ps[i].fareClass == r.input.fareClass && SeatKey(r.flightId, ps[i].seat) in pick)
      && (forall i, j | 0 <= i < j < |ps| :: RowThenLetter(ps[i].seat, ps[j].seat))
      && (forall k | k in pick && (forall i | 0 <= i < |ps| :: ps[i].seat != k.position) ::
            forall i | 0 <= i < |ps| :: RowThenLetter(ps[i].seat, k.position))
  {
    hide CreateBooking, TakenSeats;
    OnlyCreatedWrites(t, r, now);
    SeatedInTurn(t, r, now);
    AutoHoldTakesTheLowest(t, r.flightId, |r.input.names|, r.input.fareClass, r.locked, now);
    FirstOfThePick(t, r.flightId, r.input.fareClass, r.locked,
      TakenSeats(t, r.flightId, ToHoldRequest(r.input), r.locked, now),
      CreateBooking(t, r, now).result.value.booking.passengers);
  }

  lemma FirstOfThePick(
    t: Tables, f: Id, c: FareClass, locked: set<SeatKey>, keys: seq<SeatKey>, ps: seq<Passenger>)
    requires SitIn(t, f, keys, ps) && Increasing(keys, SeatLess)
    requires forall k | k in keys :: k in SeatsToPick(t, f, c, locked)
    requires forall k, l | k in keys && l in FreeSeats(t, f, c) && l !in locked && l !in keys :: SeatLess(k, l)
    ensures
      var pick := SeatsToPick(t, f, c, locked);
      && (forall i | 0 <= i < |ps| :: ps[i].fareClass == c && SeatKey(f, ps[i].seat) in pick)
      && (forall i, j | 0 <= i < j < |ps| :: RowThenLetter(ps[i].seat, ps[j].seat))
      && (forall k | k in pick && (forall i | 0 <= i < |ps| :: ps[i].seat != k.position) ::
            forall i | 0 <= i < |ps| :: RowThenLetter(ps[i].seat, k.position))
  {
    assert forall i | 0 <= i < |keys| :: keys[i] in keys;
    forall i, j | 0 <= i < j < |keys| ensures SeatLess(keys[i], keys[j]) {
    }
    forall k, i | k in SeatsToPick(t, f, c, locked) && k !in keys && 0 <= i < |keys| ensures SeatLess(keys[i], k) {
    }
  }

  // ---- How long it can be paid, confirmed and cancelled, and from when it can be swept ----

  /** The owner's first attempt to pay the booking's total with a new key. */
  predicate PaysNow(t: Tables, b: Id, booking: Booking, pay: PayRequest) {
    && pay.bookingId == b && pay.actor == booking.owner && pay.amount == Total(booking)
    && KeyId(pay.actor, pay.key) !in t.keys && pay.paymentId !in t.payments
  }

  lemma NewBookingIsUnpaid(t: Tables, b: Id)
    requires Inv(t) && b !in t.bookings
    ensures !PaymentRunning(t, b)
  {
    hide Inventory, Events, Keys, References;
    forall q | q in t.payments ensures t.payments[q].bookingId != b {
      assert PaymentOk(t.bookings, t.payments[q]);
    }
  }

  lemma {:induction false} PricesAddUp(ps: seq<Passenger>)
    requires ps != [] && forall p | p in ps :: 1 <= p.price
    ensures 1 <= SumPrices(ps)
  {
    assert ps[|ps| - 1] in ps;
  }

  lemma CreatedCostsSomething(t: Tables, r: CreateRequest, now: Instant)
    requires References(t) && IsCreated(CreateBooking(t, r, now))
    ensures 1 <= Total(CreateBooking(t, r, now).result.value.booking)
  {
    hide CreateBooking, SumPrices;
    CreatedPassengers(t, r, now);
    CreatedSeatsSomebody(t, r, now);
    PricesAddUp(CreateBooking(t, r, now).result.value.booking.passengers);
  }

  lemma CreatedSeatsSomebody(t: Tables, r: CreateRequest, now: Instant)
    requires IsCreated(CreateBooking(t, r, now))
    ensures 1 <= |r.input.names| <= 9
  {
    hide TakenSeats, Refusal, FreeReference, FirstDraws, Hold, Passengers, Total, AllPriced;
  }

  /** The hold can be paid until one minute before it has lasted fifteen, counted from its creation. */
  lemma HoldIsPayableIff(t: Tables, r: CreateRequest, now: Instant, u: Instant, pay: PayRequest, after: int)
    requires Inv(t) && IsCreated(CreateBooking(t, r, now))
    requires PaysNow(t, r.id, CreateBooking(t, r, now).result.value.booking, pay)
    ensures
      var db := CreateBooking(t, r, now).db;
      var answer := StartPayment(db, Find(db, r.id, Owner(r.owner)), pay, u, after).result;
      answer.Ok? && (answer.value.Started? <==> u + 60000 < now + 900000)
  {
    hide Inventory, Money, Events, Keys, CreateBooking, FirstFreeDraw, Total, PaymentRunning;
    var db := CreateBooking(t, r, now).db;
    CreatedBookingIs(t, r, now);
    CreatedCostsSomething(t, r, now);
    NewBookingIsUnpaid(t, r.id);
    SamePaymentsRunning(t, db, r.id);
  }

  lemma SamePaymentsRunning(t: Tables, t2: Tables, b: Id)
    requires t2.payments == t.payments
    ensures PaymentRunning(t2, b) <==> PaymentRunning(t, b)
  {
  }

  /** A charge by its owner still confirms it until the fifteen minutes are over. */
  lemma HoldIsConfirmableIff(t: Tables, r: CreateRequest, now: Instant, u: Instant)
    requires IsCreated(CreateBooking(t, r, now))
    ensures Confirmable(CreateBooking(t, r, now).db, r.id, Owner(r.owner), u) <==> u < now + 900000
  {
    hide CreateBooking, FirstFreeDraw;
    CreatedBookingIs(t, r, now);
  }

  /** Some sweep at `u` can end the hold exactly from fifteen minutes after its creation on. */
  lemma HoldExpiresIff(t: Tables, r: CreateRequest, now: Instant, u: Instant)
    requires IsCreated(CreateBooking(t, r, now))
    ensures
      var db := CreateBooking(t, r, now).db;
      && (forall limit :: r.id in ExpireBatch(db, u, limit, {}).bookings)
      && ((exists limit :: ExpireBatch(db, u, limit, {}).bookings[r.id].status.EXPIRED?) <==> now + 900000 <= u)
  {
    hide CreateBooking, FirstFreeDraw, ExpireBatch;
    var db := CreateBooking(t, r, now).db;
    CreatedBookingIs(t, r, now);
    var all := |DueHolds(db, u, {})|;
    forall limit: nat
      ensures r.id in ExpireBatch(db, u, limit, {}).bookings
      ensures ExpireBatch(db, u, limit, {}).bookings[r.id].status.EXPIRED? ==> now + 900000 <= u
    {
      SweptIff(db, r.id, u, limit);
    }
    SweptIff(db, r.id, u, all);
  }

  lemma SweptIff(t: Tables, b: Id, u: Instant, limit: nat)
    requires b in t.bookings && t.bookings[b].status.HELD? && t.bookings[b].holdExpiresAt.Some?
    ensures b in ExpireBatch(t, u, limit, {}).bookings
    ensures ExpireBatch(t, u, limit, {}).bookings[b].status.EXPIRED? ==> t.bookings[b].holdExpiresAt.value <= u
    ensures t.bookings[b].holdExpiresAt.value <= u && limit >= |DueHolds(t, u, {})| ==>
      ExpireBatch(t, u, limit, {}).bookings[b].status.EXPIRED?
  {
    hide ExpireAll, FirstIds, SortedDue, SeatsOf, Release, Reported, AuditsOf, EventsOf;
    var ids := ExpiredIds(t, u, limit, {});
    DueHoldsExist(t, u, limit, {});
    BulkIsOneByOne(t, ids, u);
    if t.bookings[b].holdExpiresAt.value <= u && limit >= |DueHolds(t, u, {})| {
      AllDueAreFirst(t, b, u, limit);
    }
  }

  lemma AllDueAreFirst(t: Tables, b: Id, u: Instant, limit: nat)
    requires b in t.bookings && HoldIsDue(t.bookings[b], u) && limit >= |DueHolds(t, u, {})|
    ensures b in ExpiredIds(t, u, limit, {})
  {
    var due := SortedDue(DueHolds(t, u, {}));
    assert (t.bookings[b].holdExpiresAt.value, b) in DueHolds(t, u, {});
    var i :| 0 <= i < |due| && due[i] == (t.bookings[b].holdExpiresAt.value, b);
    assert ExpiredIds(t, u, limit, {})[i] == b;
  }

  // ---- Every other answer ----

  /** The flight can be booked: on sale, and departing more than an hour from now. */
  predicate OpenForSale(t: Tables, f: Id, now: Instant) {
    f in t.flights && t.flights[f].status.OPEN? && t.flights[f].departureAt - 3600000 > now
  }

  function SeatsToPick(t: Tables, f: Id, fareClass: FareClass, locked: set<SeatKey>): set<SeatKey> {
    set k | k in t.seats && k.flightId == f && t.seats[k].fareClass == fareClass && t.seats[k].status.AVAILABLE?
            && k !in locked
  }

  predicate FlightHasClass(t: Tables, f: Id, fareClass: FareClass) {
    exists k | k in t.seats :: k.flightId == f && t.seats[k].fareClass == fareClass
  }

  predicate Known(t: Tables, f: Id, p: SeatPosition) { SeatKey(f, p) in t.seats }

  predicate Free(t: Tables, f: Id, p: SeatPosition) {
    SeatKey(f, p) in t.seats && t.seats[SeatKey(f, p)].status.AVAILABLE?
  }

  /** One to nine passengers; seats, when they are named, one for each and no two the same. */
  predicate AskedProperly(input: CreateInput) {
    && 1 <= |input.names| <= 9
    && (input.ChosenSeats? ==>
          && |input.positions| == |input.names|
          && forall i, j | 0 <= i < j < |input.positions| :: input.positions[i] != input.positions[j])
  }

  /** The answers about the flight itself, whichever way seats are asked for. */
  lemma FlightAnswersIff(t: Tables, r: CreateRequest, now: Instant)
    ensures
      var answer := CreateBooking(t, r, now).result;
      && (answer == Ok(ValidationFailed) <==> !AskedProperly(r.input))
      && (answer == Ok(Refused(FlightNotFound)) <==> AskedProperly(r.input) && r.flightId !in t.flights)
      && (answer == Ok(Refused(SalesClosed)) <==>
            AskedProperly(r.input) && r.flightId in t.flights && !OpenForSale(t, r.flightId, now))
  {
    hide FreeReference, Hold, Passengers, Total, AllPriced, UnknownOf, TakenOf, HasClass, SeatsOf, FreeSeats;
    SaleIff(t, r, now);
  }

  lemma SaleIff(t: Tables, r: CreateRequest, now: Instant)
    ensures FlightOnSale(t, r.flightId, now) <==> OpenForSale(t, r.flightId, now)
    ensures r.flightId in t.flights ==> (IsBookable(t.flights[r.flightId], now) <==> OpenForSale(t, r.flightId, now))
  {
  }

  /** Automatic seats are refused for want of the class, or of enough seats in it, and for nothing else. */
  lemma AutoAnswersIff(t: Tables, r: CreateRequest, now: Instant)
    requires r.input.AutoSeats? && ValidInput(r.input) && OpenForSale(t, r.flightId, now)
    ensures
      var answer := CreateBooking(t, r, now).result;
      var enough := |SeatsToPick(t, r.flightId, r.input.fareClass, r.locked)| >= |r.input.names|;
      && (answer == Ok(Refused(FareClassNotOnFlight)) <==> !FlightHasClass(t, r.flightId, r.input.fareClass))
      && (answer == Ok(Refused(NotEnoughSeats)) <==>
            FlightHasClass(t, r.flightId, r.input.fareClass) && !enough)
      && (enough <==> answer.Err? || answer.value.Created?)
  {
    hide FreeReference, Hold, Passengers, Total, AllPriced, HasClass, FreeSeats, FlightHasClass, SeatsToPick, FlightOnSale,
         IsBookable;
    SaleIff(t, r, now);
    AutoHoldIff(t, r.flightId, |r.input.names|, r.input.fareClass, r.locked, now);
    PickIsFree(t, r.flightId, r.input.fareClass, r.locked);
    ClassIsThere(t, r.flightId, r.input.fareClass, r.locked);
  }

  lemma PickIsFree(t: Tables, f: Id, fareClass: FareClass, locked: set<SeatKey>)
    ensures SeatsToPick(t, f, fareClass, locked) == FreeSeats(t, f, fareClass) - locked
    ensures FlightHasClass(t, f, fareClass) <==> HasClass(t, f, fareClass)
  {
  }

  lemma ClassIsThere(t: Tables, f: Id, fareClass: FareClass, locked: set<SeatKey>)
    ensures SeatsToPick(t, f, fareClass, locked) != {} ==> FlightHasClass(t, f, fareClass)
  {
    if SeatsToPick(t, f, fareClass, locked) != {} {
      var k :| k in SeatsToPick(t, f, fareClass, locked);
      assert k in t.seats && k.flightId == f && t.seats[k].fareClass == fareClass;
    }
  }

  /** `xs` are the positions that satisfy it, in the order of the request. */
  ghost predicate Filtered(xs: seq<SeatPosition>, positions: seq<SeatPosition>, keep: set<SeatPosition>) {
    && (forall p :: p in xs <==> p in positions && p in keep)
    && forall i, j | 0 <= i < j < |xs| :: ComesBefore(xs[i], xs[j], positions)
  }

  predicate ComesBefore(p: SeatPosition, q: SeatPosition, positions: seq<SeatPosition>) {
    exists a, b | 0 <= a < b < |positions| :: positions[a] == p && positions[b] == q
  }

  function UnknownAmong(t: Tables, f: Id, positions: seq<SeatPosition>): set<SeatPosition> {
    set p | p in positions && !Known(t, f, p)
  }

  function TakenAmong(t: Tables, f: Id, positions: seq<SeatPosition>): set<SeatPosition> {
    set p | p in positions && Known(t, f, p) && !Free(t, f, p)
  }

  /** Keeping the order when one more position goes in front. */
  lemma FilteredCons(
    xs: seq<SeatPosition>, positions: seq<SeatPosition>, keep: set<SeatPosition>, tailKeep: set<SeatPosition>)
    requires positions != [] && Filtered(xs, positions[1..], tailKeep)
    requires forall p | p in positions[1..] :: p in keep <==> p in tailKeep
    ensures Filtered((if positions[0] in keep then [positions[0]] else []) + xs, positions, keep)
  {
    var rest := positions[1..];
    var ys := (if positions[0] in keep then [positions[0]] else []) + xs;
    var d := |ys| - |xs|;
    forall i, j | 0 <= i < j < |ys|
      ensures ComesBefore(ys[i], ys[j], positions)
    {
      if i < d {
        assert ys[j] == xs[j - d] && xs[j - d] in rest;
        var b :| 0 <= b < |rest| && rest[b] == ys[j];
        assert positions[0] == ys[i] && positions[b + 1] == ys[j];
      } else {
        assert ComesBefore(xs[i - d], xs[j - d], rest);
        var a, b :| 0 <= a < b < |rest| && rest[a] == xs[i - d] && rest[b] == xs[j - d];
        assert positions[a + 1] == ys[i] && positions[b + 1] == ys[j];
      }
    }
    assert positions == [positions[0]] + rest;
    forall p ensures p in ys <==> p in positions && p in keep {
      assert p in positions <==> p == positions[0] || p in rest;
      assert p in ys <==> (d == 1 && p == positions[0]) || p in xs;
    }
  }

  lemma {:induction false} UnknownAreFiltered(t: Tables, f: Id, positions: seq<SeatPosition>)
    ensures Filtered(UnknownOf(t, f, positions), positions, UnknownAmong(t, f, positions))
  {
    if positions != [] {
      UnknownAreFiltered(t, f, positions[1..]);
      FilteredCons(UnknownOf(t, f, positions[1..]), positions, UnknownAmong(t, f, positions),
                   UnknownAmong(t, f, positions[1..]));
    }
  }

  lemma {:induction false} TakenAreFiltered(t: Tables, f: Id, positions: seq<SeatPosition>)
    ensures Filtered(TakenOf(t, f, positions), positions, TakenAmong(t, f, positions))
  {
    if positions != [] {
      TakenAreFiltered(t, f, positions[1..]);
      FilteredCons(TakenOf(t, f, positions[1..]), positions, TakenAmong(t, f, positions),
                   TakenAmong(t, f, positions[1..]));
    }
  }

  /**
   * Chosen seats are refused as unknown when one is not on the flight, as
   * unavailable when all are and one is not free, and each refusal names
   * exactly the seats in the way, in the order of the request.
   */
  lemma ChosenAnswersIff(t: Tables, r: CreateRequest, now: Instant)
    requires r.input.ChosenSeats? && ValidInput(r.input) && OpenForSale(t, r.flightId, now)
    ensures
      var answer, f, positions := CreateBooking(t, r, now).result, r.flightId, r.input.positions;
      var refused := answer.Ok? && answer.value.Refused?;
      && (refused && answer.value.refusal.UnknownSeats? <==> exists p | p in positions :: !Known(t, f, p))
      && (refused && answer.value.refusal.UnknownSeats? ==>
            Filtered(answer.value.refusal.seats, positions, UnknownAmong(t, f, positions)))
      && (refused && answer.value.refusal.SeatsUnavailable? <==>
            (forall p | p in positions :: Known(t, f, p)) && exists p | p in positions :: !Free(t, f, p))
      && (refused && answer.value.refusal.SeatsUnavailable? ==>
            Filtered(answer.value.refusal.seats, positions, TakenAmong(t, f, positions)))
      && ((forall p | p in positions :: Free(t, f, p)) <==> answer.Err? || answer.value.Created?)
  {
    hide FreeReference, Hold, Passengers, Total, AllPriced, UnknownOf, TakenOf, FlightOnSale, IsBookable, TakenSeats,
         Filtered;
    var f, positions := r.flightId, r.input.positions;
    SaleIff(t, r, now);
    ChosenHoldIff(t, f, positions, r.locked, now);
    UnknownAreFiltered(t, f, positions);
    TakenAreFiltered(t, f, positions);
    FilteredIsEmpty(UnknownOf(t, f, positions), positions, UnknownAmong(t, f, positions));
  }

  lemma FilteredIsEmpty(xs: seq<SeatPosition>, positions: seq<SeatPosition>, keep: set<SeatPosition>)
    requires Filtered(xs, positions, keep)
    ensures xs == [] <==> forall p | p in positions :: p !in keep
  {
    if xs != [] { assert xs[0] in xs; }
  }

  /** With its seats free: it throws on a missing fare, an unsafe total, no free reference or a used id, else it is created. */
  lemma CreatedIff(t: Tables, r: CreateRequest, now: Instant)
    requires ValidInput(r.input) && TakenSeats(t, r.flightId, ToHoldRequest(r.input), r.locked, now) != []
    ensures
      var keys := TakenSeats(t, r.flightId, ToHoldRequest(r.input), r.locked, now);
      IsCreated(CreateBooking(t, r, now)) <==>
        && AllPriced(t, keys) && |keys| == |r.input.names|
        && SumPrices(Passengers(t, r.input.names, keys)) <= 9007199254740991
        && (exists i | 0 <= i < 5 && i < |r.draws| :: !ReferenceTaken(t, r.draws[i]))
        && r.id !in t.bookings
  {
    hide TakenSeats, Refusal, FreeReference, FirstDraws, Hold, Total, AllPriced, SumPrices, ReferenceTaken;
    DrawIsFirstFree(t, r.draws);
  }
}

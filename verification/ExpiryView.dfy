/**
 * A lapsed hold is over whether or not the sweep has come by: reading,
 * cancelling, starting a payment and confirming answer the same before and
 * after. Changing a seat does not when the wanted seat is the swept hold's.
 */
module ExpiryView {
  import opened Basics
  import opened Counting
  import opened Schema
  import opened Lifecycle
  import opened Transactions
  import opened Invariants
  import opened ExpiryJob

  /** `t2` is `t` after a sweep that ended exactly `ids`, all lapsed at `now`. */
  ghost predicate Swept(t: Tables, t2: Tables, ids: seq<Id>, now: Instant) {
    && (forall b | b in ids :: b in t.bookings && HoldIsDue(t.bookings[b], now))
    && t2.bookings == AllExpired(t.bookings, ids)
    && t2.seats == Release(t.seats, SeatsOf(t.seats, Elems(ids)))
    && t2.flights == t.flights && t2.payments == t.payments && t2.keys == t.keys
  }

  lemma SweepSweeps(t: Tables, sweptAt: Instant, limit: nat, locked: set<Id>, now: Instant)
    requires sweptAt <= now
    ensures Swept(t, ExpireBatch(t, sweptAt, limit, locked), ExpiredIds(t, sweptAt, limit, locked), now)
  {
    hide ExpireAll, ExpiredIds, AllExpired, SeatsOf, Release;
    DueHoldsExist(t, sweptAt, limit, locked);
    BulkIsOneByOne(t, ExpiredIds(t, sweptAt, limit, locked), sweptAt);
  }

  /** withEffectiveStatus over a scoped read. */
  function Shown(t: Tables, id: Id, scope: Scope, now: Instant): Option<Booking> {
    var found := Find(t, id, scope);
    if found.None? then None
    else
      var b := found.value;
      Some(b.(status := EffectiveBookingStatus(b.status, b.holdExpiresAt, now)))
  }

  lemma ReadsTheSame(t: Tables, t2: Tables, ids: seq<Id>, id: Id, scope: Scope, now: Instant)
    requires Swept(t, t2, ids, now)
    ensures Shown(t2, id, scope, now) == Shown(t, id, scope, now)
  {
  }

  lemma CancelsTheSame(t: Tables, t2: Tables, ids: seq<Id>, id: Id, scope: Scope, actor: Id, now: Instant)
    requires Swept(t, t2, ids, now)
    ensures Cancel(t2, id, scope, actor, now).result == Cancel(t, id, scope, actor, now).result
    ensures id in t.bookings && Cancellable(t, id, scope, now) ==>
      Cancel(t2, id, scope, actor, now).db.bookings[id] == Cancel(t, id, scope, actor, now).db.bookings[id]
  {
    hide SeatCodes, SeatsOf, Release, RefundOf, RefundsDue, CancelAudit;
    if id !in ids { ReleaseTwice(t.seats, Elems(ids), id); }
  }

  lemma ConfirmsTheSame(t: Tables, t2: Tables, ids: seq<Id>, id: Id, scope: Scope, now: Instant)
    requires Swept(t, t2, ids, now)
    ensures Confirmable(t2, id, scope, now) <==> Confirmable(t, id, scope, now)
    ensures Confirmable(t, id, scope, now) ==> id !in ids && t2.bookings[id] == t.bookings[id]
  {
  }

  lemma SettlesTheSame(
    t: Tables, t2: Tables, ids: seq<Id>, id: Id, p: Payment, reference: string, actor: Actor, now: Instant)
    requires Swept(t, t2, ids, now)
    ensures Charged(t2, id, p, reference, actor, now).result == Charged(t, id, p, reference, actor, now).result
  {
    hide Confirmable, SeatsOf, Release, Book, CompleteKeys, ConfirmedResponse, NotPayable, Total;
    ConfirmsTheSame(t, t2, ids, p.bookingId, Owner(p.accountId), now);
    assert OpenKeysOf(t2, id) == OpenKeysOf(t, id);
  }

  lemma StartsTheSame(
    t: Tables, t2: Tables, ids: seq<Id>, scope: Scope, r: PayRequest, now: Instant, reconcileAfterMs: int)
    requires Swept(t, t2, ids, now)
    ensures StartPayment(t2, Find(t2, r.bookingId, scope), r, now, reconcileAfterMs).result
         == StartPayment(t, Find(t, r.bookingId, scope), r, now, reconcileAfterMs).result
  {
    hide SeatsOf, Release;
    assert PaymentRunning(t2, r.bookingId) == PaymentRunning(t, r.bookingId);
    if r.bookingId in ids {
      assert !HoldIsValid(t.bookings[r.bookingId], now);
    }
  }

  /** The wanted seat of a seat change, when the booking is in reach. */
  predicate WantsSweptSeat(t: Tables, ids: seq<Id>, id: Id, target: SeatPosition) {
    id in t.bookings && SeatKey(t.bookings[id].flightId, target) in SeatsOf(t.seats, Elems(ids))
  }

  /**
   * Everything a caller could look up: a CONFIRMED booking in reach, another
   * seat of the passenger's own class on a flight still on sale, and that
   * seat belongs to a hold the sweep ends.
   */
  predicate OnlyTheSweptHoldIsInTheWay(
    t: Tables, ids: seq<Id>, id: Id, position: nat, target: SeatPosition, scope: Scope, now: Instant)
  {
    && id in t.bookings && InScope(t.bookings[id], scope) && t.bookings[id].status.CONFIRMED?
    && t.bookings[id].flightId in t.flights && IsBookable(t.flights[t.bookings[id].flightId], now)
    && 1 <= position <= |t.bookings[id].passengers|
    && var passenger, wanted := t.bookings[id].passengers[position - 1], SeatKey(t.bookings[id].flightId, target);
       && passenger.seat != target
       && wanted in t.seats && t.seats[wanted].fareClass == passenger.fareClass
       && WantsSweptSeat(t, ids, id, target)
  }

  lemma SeatChangeBeforeAndAfter(
    t: Tables, t2: Tables, ids: seq<Id>, id: Id, position: nat, target: SeatPosition, scope: Scope, now: Instant)
    requires Inventory(t.seats, t.bookings) && Swept(t, t2, ids, now)
    ensures
      var before := ChangeSeatVerdict(t, id, position, target, scope, now);
      var after := ChangeSeatVerdict(t2, id, position, target, scope, now);
      && (after == before <==> !(before == Ok(SeatUnavailable) && WantsSweptSeat(t, ids, id, target)))
      && (after != before ==> after.Ok? && after.value.Changed?)
  {
    hide IsBookable, WellFormed, OwnsItsSeats;
    if id in t.bookings && t.bookings[id].status.CONFIRMED? && 1 <= position <= |t.bookings[id].passengers| {
      assert id !in ids;
      var own := SeatKey(t.bookings[id].flightId, t.bookings[id].passengers[position - 1].seat);
      var wanted := SeatKey(t.bookings[id].flightId, target);
      if wanted in t.seats { assert SeatOk(t.bookings, wanted, t.seats[wanted]); }
      if own in t.seats { assert SeatOk(t.bookings, own, t.seats[own]); }
    }
  }

  /** A passenger of a live booking sits in a seat of its class, BOOKED when the booking is CONFIRMED. */
  lemma OwnSeat(t: Tables, id: Id, i: nat)
    requires Inventory(t.seats, t.bookings) && id in t.bookings && t.bookings[id].status.CONFIRMED?
    requires i < |t.bookings[id].passengers|
    ensures
      var passenger := t.bookings[id].passengers[i];
      var own := SeatKey(t.bookings[id].flightId, passenger.seat);
      own in t.seats && t.seats[own].bookingId == Some(id) && t.seats[own].status.BOOKED?
      && t.seats[own].fareClass == passenger.fareClass
  {
    hide WellFormed;
    assert OwnsItsSeats(t.seats, id, t.bookings[id]);
    var own := BookingKeys(t.bookings[id])[i];
    assert SeatOk(t.bookings, own, t.seats[own]);
  }

  lemma UnavailableIff(
    t: Tables, ids: seq<Id>, id: Id, position: nat, target: SeatPosition, scope: Scope, now: Instant)
    requires Inventory(t.seats, t.bookings)
    ensures
      ChangeSeatVerdict(t, id, position, target, scope, now) == Ok(SeatUnavailable) && WantsSweptSeat(t, ids, id, target)
      <==> OnlyTheSweptHoldIsInTheWay(t, ids, id, position, target, scope, now)
  {
    hide IsBookable, Inventory;
    if id in t.bookings && t.bookings[id].status.CONFIRMED? && 1 <= position <= |t.bookings[id].passengers| {
      OwnSeat(t, id, position - 1);
      OwnedIsTaken(t, ids, SeatKey(t.bookings[id].flightId, target));
    }
  }

  lemma OwnedIsTaken(t: Tables, ids: seq<Id>, k: SeatKey)
    requires Inventory(t.seats, t.bookings)
    ensures k in SeatsOf(t.seats, Elems(ids)) ==> k in t.seats && !t.seats[k].status.AVAILABLE?
  {
    if k in t.seats { assert SeatOk(t.bookings, k, t.seats[k]); }
  }

  /**
   * A seat change answers the same before and after a sweep exactly unless
   * the wanted seat belonged to a swept hold and nothing else was in the way:
   * before the sweep that seat is unavailable, after it the change goes through.
   */
  lemma SeatChangeIsTheSameIff(
    t: Tables, t2: Tables, ids: seq<Id>, id: Id, position: nat, target: SeatPosition, scope: Scope, now: Instant)
    requires Inventory(t.seats, t.bookings) && Swept(t, t2, ids, now)
    ensures
      var before := ChangeSeatVerdict(t, id, position, target, scope, now);
      var after := ChangeSeatVerdict(t2, id, position, target, scope, now);
      && (after == before <==> !OnlyTheSweptHoldIsInTheWay(t, ids, id, position, target, scope, now))
      && (after != before ==> before == Ok(SeatUnavailable) && after.Ok? && after.value.Changed?)
  {
    hide Inventory, ChangeSeatVerdict, Swept, OnlyTheSweptHoldIsInTheWay;
    SeatChangeBeforeAndAfter(t, t2, ids, id, position, target, scope, now);
    UnavailableIff(t, ids, id, position, target, scope, now);
  }

  /** The answers about a booking do not depend on when the sweep ran, seat changes aside. */
  lemma ExpiryIsUnobservable(
    t: Tables, sweptAt: Instant, limit: nat, locked: set<Id>, id: Id, scope: Scope, actor: Id, now: Instant)
    requires sweptAt <= now
    ensures
      var t2 := ExpireBatch(t, sweptAt, limit, locked);
      && Shown(t2, id, scope, now) == Shown(t, id, scope, now)
      && Cancel(t2, id, scope, actor, now).result == Cancel(t, id, scope, actor, now).result
      && (forall r: PayRequest, after: int | r.bookingId == id ::
            StartPayment(t2, Find(t2, id, scope), r, now, after).result
            == StartPayment(t, Find(t, id, scope), r, now, after).result)
      && (forall p: Payment, pid: Id, reference: string, who: Actor | p.bookingId == id ::
            Charged(t2, pid, p, reference, who, now).result == Charged(t, pid, p, reference, who, now).result)
  {
    hide *;
    var t2, ids := ExpireBatch(t, sweptAt, limit, locked), ExpiredIds(t, sweptAt, limit, locked);
    SweepSweeps(t, sweptAt, limit, locked, now);
    ReadsTheSame(t, t2, ids, id, scope, now);
    CancelsTheSame(t, t2, ids, id, scope, actor, now);
    forall r: PayRequest, after: int | r.bookingId == id
      ensures StartPayment(t2, Find(t2, id, scope), r, now, after).result
           == StartPayment(t, Find(t, id, scope), r, now, after).result
    {
      StartsTheSame(t, t2, ids, scope, r, now, after);
    }
    forall p: Payment, pid: Id, reference: string, who: Actor | p.bookingId == id
      ensures Charged(t2, pid, p, reference, who, now).result == Charged(t, pid, p, reference, who, now).result
    {
      SettlesTheSame(t, t2, ids, pid, p, reference, who, now);
    }
  }

  /** A cancel that matched nothing always knows why: classifyNotCancelled never throws on stored bookings. */
  lemma CancelNeverThrows(t: Tables, id: Id, scope: Scope, actor: Id, now: Instant)
    requires Inv(t)
    ensures Cancel(t, id, scope, actor, now).result.Ok?
  {
    hide Money, Events, Keys, SeatCodes, SeatsOf, Release, RefundOf, RefundsDue, CancelAudit, SeatOk, OwnsItsSeats;
    if id in t.bookings { assert WellFormed(t.bookings[id]); }
  }
}

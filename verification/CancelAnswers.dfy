/**
 * What a cancel is answered, stated in what the caller could look up before,
 * what it leaves, and what every later cancel of the same booking gets.
 */
module CancelAnswers {
  import opened Basics
  import opened Ordering
  import opened Schema
  import opened Lifecycle
  import opened Transactions
  import opened Invariants
  import opened PayAnswers
  import opened Runs
  import opened Histories
  import opened EndEvents
  import opened ExpiryView

  predicate MaySee(t: Tables, id: Id, scope: Scope) {
    id in t.bookings && (scope.All? || t.bookings[id].owner == scope.accountId)
  }

  /** The hold ended, or its deadline has come. */
  predicate HoldIsOver(b: Booking, now: Instant) {
    b.status.EXPIRED? || (b.status.HELD? && b.holdExpiresAt.Some? && b.holdExpiresAt.value <= now)
  }

  /** A read shows a hold past its deadline as EXPIRED, swept or not, and every other booking as it is stored. */
  lemma ReadShows(t: Tables, id: Id, scope: Scope, now: Instant)
    requires Inv(t)
    ensures
      var shown := Shown(t, id, scope, now);
      && (shown.None? <==> !MaySee(t, id, scope))
      && (shown.Some? ==>
            var b := t.bookings[id];
            && shown.value == b.(status := shown.value.status)
            && (HoldIsOver(b, now) ==> shown.value.status.EXPIRED?)
            && (!HoldIsOver(b, now) ==> shown.value == b))
  {
    hide Inv;
  }

  /**
   * One cancel, five answers: not found iff out of reach, already cancelled
   * iff cancelled, expired iff the hold ended or its deadline has come, window
   * closed iff confirmed and a day or less from departure, and cancelled
   * otherwise. It never throws, and nothing but a cancellation writes.
   */
  lemma CancelAnswersIff(t: Tables, id: Id, scope: Scope, actor: Id, now: Instant)
    requires Inv(t)
    ensures
      var o := Cancel(t, id, scope, actor, now);
      && o.result.Ok? && (o.result.value.NotFound? <==> !MaySee(t, id, scope))
      && (!o.result.value.Cancelled? ==> o.db == t)
      && (MaySee(t, id, scope) ==>
            && t.bookings[id].flightId in t.flights
            && var b, opens := t.bookings[id], t.flights[t.bookings[id].flightId].departureAt - 86400000;
               && (o.result.value.AlreadyCancelled? <==> b.status.CANCELLED?)
               && (o.result.value.Expired? <==> HoldIsOver(b, now))
               && (o.result.value.WindowClosed? <==> b.status.CONFIRMED? && opens <= now)
               && (o.result.value.WindowClosed? ==> o.result.value == WindowClosed(opens))
               && (o.result.value.Cancelled? <==> HeldStill(b, now) || (b.status.CONFIRMED? && opens > now)))
  {
    hide Inventory, Money, Events, Keys, SeatCodes, SeatsOf, Release, RefundOf, RefundsDue, CancelAudit;
    CancelNeverThrows(t, id, scope, actor, now);
    if id in t.bookings { DeadlineIsStored(t, id); }
  }

  lemma DeadlineIsStored(t: Tables, id: Id)
    requires Inv(t) && id in t.bookings
    ensures t.bookings[id].holdExpiresAt.Some?
  {
    hide Money, Events, Keys, References, SeatOk, OwnsItsSeats;
    assert WellFormed(t.bookings[id]);
  }

  // ---- What a cancellation leaves ----

  /** The seat one of the passengers sits in. */
  predicate IsSeatOf(b: Booking, k: SeatKey) {
    k.flightId == b.flightId && exists i | 0 <= i < |b.passengers| :: b.passengers[i].seat == k.position
  }

  /** Exactly the passengers' seats become free; a seat keeps its class. */
  predicate FreedOnly(seats: map<SeatKey, Seat>, seats': map<SeatKey, Seat>, b: Booking) {
    && seats'.Keys == seats.Keys
    && forall k | k in seats ::
         seats'[k] == if IsSeatOf(b, k) then Seat(seats[k].fareClass, AVAILABLE, None) else seats[k]
  }

  /** Exactly payment `p` has to be given back from now on. */
  predicate RefundsOnly(payments: map<Id, Payment>, payments': map<Id, Payment>, p: Id, now: Instant) {
    && p in payments && payments[p].status.SUCCEEDED?
    && payments' == payments[p := payments[p].(
         status := REFUND_PENDING, updatedAt := now, nextAttemptAt := Some(now), attempts := 0)]
  }

  predicate InSeatOrder(seats: seq<SeatPosition>) {
    forall i, j | 0 <= i < j < |seats| ::
      seats[i].row < seats[j].row || (seats[i].row == seats[j].row && seats[i].letter < seats[j].letter)
  }

  lemma SeatsOfAreItsPassengers(t: Tables, id: Id, k: SeatKey)
    requires Inv(t) && id in t.bookings && IsLive(t.bookings[id].status)
    ensures k in SeatsOf(t.seats, {id}) <==> IsSeatOf(t.bookings[id], k)
  {
    hide Inventory, Money, Events, Keys, References, SeatsOf;
    OwnedSeats(t, id);
    var keys := BookingKeys(t.bookings[id]);
    if k in keys {
      var i :| 0 <= i < |keys| && keys[i] == k;
      assert t.bookings[id].passengers[i].seat == k.position;
    }
    if IsSeatOf(t.bookings[id], k) {
      var i :| 0 <= i < |keys| && t.bookings[id].passengers[i].seat == k.position;
      assert keys[i] == k;
    }
  }

  lemma ReleaseFrees(t: Tables, id: Id)
    requires Inv(t) && id in t.bookings && IsLive(t.bookings[id].status)
    ensures FreedOnly(t.seats, Release(t.seats, SeatsOf(t.seats, {id})), t.bookings[id])
  {
    hide Inv, SeatsOf, IsSeatOf;
    forall k | k in t.seats ensures k in SeatsOf(t.seats, {id}) <==> IsSeatOf(t.bookings[id], k) {
      SeatsOfAreItsPassengers(t, id, k);
    }
  }

  lemma CodesInOrder(t: Tables, id: Id)
    requires Inv(t) && id in t.bookings && IsLive(t.bookings[id].status)
    ensures InSeatOrder(SeatCodes(t.seats, id)) && NamesItsSeats(SeatCodes(t.seats, id), t.bookings[id])
  {
    hide Inv, SeatsOf, NamesItsSeats;
    CodesNameItsSeats(t, id);
    var sorted := SortedSeats(SeatsOf(t.seats, {id}));
    forall i | 0 <= i < |sorted| ensures sorted[i].flightId == t.bookings[id].flightId {
      assert sorted[i] in sorted;
      SeatsOfAreItsPassengers(t, id, sorted[i]);
    }
    forall i, j | 0 <= i < j < |sorted| ensures SeatLess(sorted[i], sorted[j]) {
    }
  }

  /** With a payment to give back, it is the one that paid. */
  lemma RefundIsThePaid(t: Tables, id: Id, now: Instant)
    requires Inv(t) && id in t.bookings && IsLive(t.bookings[id].status)
    ensures t.bookings[id].status.HELD? ==> RefundOf(t, id).None? && RefundsDue(t, id, now) == t.payments
    ensures t.bookings[id].status.CONFIRMED? ==>
      && RefundOf(t, id).Some? && RefundOf(t, id).value.paymentId in t.payments
      && t.payments[RefundOf(t, id).value.paymentId].bookingId == id
      && RefundOf(t, id).value.amount == Total(t.bookings[id])
      && RefundsOnly(t.payments, RefundsDue(t, id, now), RefundOf(t, id).value.paymentId, now)
  {
    hide Inv, Total;
    PaidIffConfirmed(t, id);
    if t.bookings[id].status.CONFIRMED? {
      var p :| p in SucceededOf(t, id);
      SucceededIs(t, id, p);
      PaidItsTotal(t, p);
      IdOrder();
      assert Sorted(SucceededOf(t, id), IdLess)[0] in SucceededOf(t, id);
    }
  }

  lemma PaidItsTotal(t: Tables, p: Id)
    requires Inv(t) && p in t.payments
    ensures t.payments[p].bookingId in t.bookings && t.payments[p].amount == Total(t.bookings[t.payments[p].bookingId])
  {
    hide Inventory, Events, Keys, References, Total;
    assert PaymentOk(t.bookings, t.payments[p]);
  }

  /**
   * A cancellation ends the booking, frees exactly its passengers' seats and
   * names them in order; a confirmed booking's paid payment, and no other,
   * becomes due for its refund at once, and the audit log and the outbox say so.
   */
  lemma CancellationLeaves(t: Tables, id: Id, scope: Scope, actor: Id, now: Instant)
    requires Inv(t) && Cancel(t, id, scope, actor, now).result.Ok?
    requires Cancel(t, id, scope, actor, now).result.value.Cancelled?
    ensures
      var o := Cancel(t, id, scope, actor, now);
      && id in t.bookings
      && var b, db, seats := t.bookings[id], o.db, o.result.value.seats;
         && o.result == Ok(Cancelled(b.flightId, b.reference, seats)) && InSeatOrder(seats) && NamesItsSeats(seats, b)
         && db.bookings == t.bookings[id := b.(status := BookingStatus.CANCELLED)] && FreedOnly(t.seats, db.seats, b)
         && (b.status.HELD? ==>
               && db.payments == t.payments
               && db.audit == t.audit + [AuditEntry(BOOKING_CANCELLED(None), Account(actor), id, now)]
               && db.outbox == t.outbox + [OutboxRow(BookingCancelled(id, seats, None), now)])
         && (!b.status.HELD? ==> exists p ::
               && RefundsOnly(t.payments, db.payments, p, now) && t.payments[p].bookingId == id
               && db.audit == t.audit + [AuditEntry(BOOKING_CANCELLED(Some(p)), Account(actor), id, now),
                                         AuditEntry(PAYMENT_REFUND_PENDING, Account(actor), p, now)]
               && db.outbox == t.outbox + [OutboxRow(BookingCancelled(id, seats, Some(Refund(p, Total(b)))), now)])
         && db.keys == t.keys && db.flights == t.flights && db.fares == t.fares
  {
    hide Inv, SeatCodes, RefundOf, RefundsDue, SeatsOf, Release, FreedOnly, RefundsOnly, InSeatOrder,
         NamesItsSeats, Total;
    CancelledWasLive(t, id, scope, actor, now);
    CodesInOrder(t, id);
    ReleaseFrees(t, id);
    RefundIsThePaid(t, id, now);
    var db := Cancel(t, id, scope, actor, now).db;
    if !t.bookings[id].status.HELD? {
      var p := RefundOf(t, id).value.paymentId;
      assert RefundsOnly(t.payments, db.payments, p, now);
      assert db.audit == t.audit + [AuditEntry(BOOKING_CANCELLED(Some(p)), Account(actor), id, now),
                                    AuditEntry(PAYMENT_REFUND_PENDING, Account(actor), p, now)];
    }
  }

  lemma CancelledWasLive(t: Tables, id: Id, scope: Scope, actor: Id, now: Instant)
    requires Cancel(t, id, scope, actor, now).result.Ok? && Cancel(t, id, scope, actor, now).result.value.Cancelled?
    ensures Cancellable(t, id, scope, now) && (t.bookings[id].status.HELD? || t.bookings[id].status.CONFIRMED?)
  {
    hide SeatCodes, SeatsOf, Release, RefundOf, RefundsDue, CancelAudit;
  }

  // ---- Every later cancel ----

  lemma EndStaysOverRuns(t: Tables, xs: seq<Txn>, id: Id)
    requires Inv(t) && Legal(t, xs) && id in t.bookings
    requires t.bookings[id].status.CANCELLED? || t.bookings[id].status.EXPIRED?
    ensures Inv(Run(t, xs)) && id in Run(t, xs).bookings
    ensures Run(t, xs).bookings[id].status == t.bookings[id].status
  {
    hide Inv, Run, Legal, PaidForTheSame;
    RunKeepsInv(t, xs);
    BookingsOnlyAdvanceOverRuns(t, xs);
    assert BookingAdvances(t.bookings[id], Run(t, xs).bookings[id]);
  }

  /** Once cancelled, whatever happens and whenever it is asked, every further cancel in reach is told so. */
  lemma CancelledStaysCancelled(
    t: Tables, id: Id, scope: Scope, actor: Id, now: Instant, xs: seq<Txn>, again: Scope, who: Id, at: Instant)
    requires Inv(t) && Cancel(t, id, scope, actor, now).result.Ok?
    requires Cancel(t, id, scope, actor, now).result.value.Cancelled?
    requires Legal(Cancel(t, id, scope, actor, now).db, xs)
    ensures
      var later := Run(Cancel(t, id, scope, actor, now).db, xs);
      MaySee(later, id, again) ==> Cancel(later, id, again, who, at) == Outcome(later, Ok(AlreadyCancelled))
  {
    hide Inv, Run, Legal, Cancel, FreedOnly, RefundsOnly, InSeatOrder, NamesItsSeats, Total;
    var db := Cancel(t, id, scope, actor, now).db;
    CancellationLeaves(t, id, scope, actor, now);
    ApplyKeepsInv(t, DoCancel(id, scope, actor, now));
    EndStaysOverRuns(db, xs, id);
    CancelAnswersIff(Run(db, xs), id, again, who, at);
  }

  /** Once a hold has ended in a sweep, every later cancel in reach is told that it expired. */
  lemma SweptStaysExpired(
    t: Tables, id: Id, now: Instant, limit: nat, locked: set<Id>, xs: seq<Txn>, scope: Scope, actor: Id, at: Instant)
    requires Inv(t) && Legal(ExpireBatch(t, now, limit, locked), xs) && id in ExpireBatch(t, now, limit, locked).bookings
    requires ExpireBatch(t, now, limit, locked).bookings[id].status.EXPIRED?
    ensures
      var later := Run(ExpireBatch(t, now, limit, locked), xs);
      MaySee(later, id, scope) ==> Cancel(later, id, scope, actor, at) == Outcome(later, Ok(Expired))
  {
    hide Inv, Run, Legal, Cancel, ExpireBatch, ExpiredIds, Shown;
    var db := ExpireBatch(t, now, limit, locked);
    ApplyKeepsInv(t, DoExpire(now, limit, locked));
    EndStaysOverRuns(db, xs, id);
    CancelAnswersIff(Run(db, xs), id, scope, actor, at);
  }
}

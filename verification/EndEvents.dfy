/** A booking ends at most once, and the event that says so names exactly the seats it gave back. */
module EndEvents {
  import opened Basics
  import opened Counting
  import opened Schema
  import opened Lifecycle
  import opened Transactions
  import opened Invariants
  import opened Runs
  import opened Histories
  import opened MoneySafety
  import opened Theorems
  import opened ExpiryJob

  /** The seats named are exactly the passengers' seats, each once, and there are 1 to 9 of them. */
  ghost predicate NamesItsSeats(seats: seq<SeatPosition>, booking: Booking) {
    && 1 <= |seats| <= 9 && Distinct(seats) && |seats| == |booking.passengers|
    && forall i | 0 <= i < |booking.passengers| :: booking.passengers[i].seat in seats
  }

  lemma CodesNameItsSeats(t: Tables, b: Id)
    requires Inv(t) && b in t.bookings && IsLive(t.bookings[b].status)
    ensures NamesItsSeats(SeatCodes(t.seats, b), t.bookings[b])
  {
    hide Money, Events, Keys, Inventory, SeatCodes;
    EndReport(t, b);
    CodesSize(t, b);
    var booking := t.bookings[b];
    forall i | 0 <= i < |booking.passengers| ensures booking.passengers[i].seat in SeatCodes(t.seats, b) {
      assert BookingKeys(booking)[i] == SeatKey(booking.flightId, booking.passengers[i].seat);
    }
  }

  lemma CodesSize(t: Tables, b: Id)
    requires Inventory(t.seats, t.bookings) && b in t.bookings && IsLive(t.bookings[b].status)
    ensures |SeatCodes(t.seats, b)| == |t.bookings[b].passengers|
  {
    OwnedSeats(t, b);
  }

  /** A cancel's event names the seats the booking owned just before, and they are free just after. */
  lemma CancelEventIsExact(t: Tables, id: Id, scope: Scope, actor: Id, now: Instant)
    requires Inv(t) && Cancellable(t, id, scope, now)
    ensures
      var o := Cancel(t, id, scope, actor, now);
      && |o.db.outbox| == |t.outbox| + 1
      && var e := o.db.outbox[|t.outbox|].event;
         e.BookingCancelled? && e.bookingId == id && NamesItsSeats(e.seats, t.bookings[id])
         && SeatsOf(o.db.seats, {id}) == {}
  {
    hide Inv, SeatCodes, RefundOf, RefundsDue, CancelAudit, ClassifyNotCancelled, NamesItsSeats;
    CodesNameItsSeats(t, id);
    ReleasedOwnsNothing(t.seats, id);
  }

  lemma ReleasedOwnsNothing(seats: map<SeatKey, Seat>, id: Id)
    ensures SeatsOf(Release(seats, SeatsOf(seats, {id})), {id}) == {}
  {
  }

  /** A batch's events, one per expired hold in order, each naming the seats the hold owned just before. */
  lemma ExpiryEventsAreExact(t: Tables, now: Instant, limit: nat, locked: set<Id>)
    requires Inv(t)
    ensures
      var ids := ExpiredIds(t, now, limit, locked);
      var db := ExpireBatch(t, now, limit, locked);
      && |db.outbox| == |t.outbox| + |ids|
      && forall i | 0 <= i < |ids| ::
           && ids[i] in t.bookings
           && var e := db.outbox[|t.outbox| + i].event;
              e.BookingExpired? && e.bookingId == ids[i] && NamesItsSeats(e.seats, t.bookings[ids[i]])
  {
    hide Inv, SeatCodes, ExpireAll, ExpiredIds, NamesItsSeats, SeatsOf, Release, AllExpired;
    var ids := ExpiredIds(t, now, limit, locked);
    DueHoldsExist(t, now, limit, locked);
    BulkIsOneByOne(t, ids, now);
    var events := EventsOf(Reported(t.seats, ids), now);
    var db := ExpireBatch(t, now, limit, locked);
    assert db.outbox == t.outbox + events;
    forall i | 0 <= i < |ids|
      ensures ids[i] in t.bookings
      ensures
        var e := db.outbox[|t.outbox| + i].event;
        e.BookingExpired? && e.bookingId == ids[i] && NamesItsSeats(e.seats, t.bookings[ids[i]])
    {
      CodesNameItsSeats(t, ids[i]);
      assert db.outbox[|t.outbox| + i] == events[i] == EventOf(Reported(t.seats, ids)[i], now);
    }
  }

  // ---- Over every run of the protocol ----

  lemma NextAdvances(s: System, a: Action)
    ensures BookingsAdvance(s.db.bookings, Next(s, a).db.bookings)
  {
    hide BookingsAdvance, Apply, Next, CommitOf;
    NextCommits(s, a);
    BookingsStay(s.db.bookings);
    if CommitOf(a).Some? {
      BookingsOnlyAdvance(s.db, CommitOf(a).value);
    }
  }

  lemma {:induction false} RunsAdvance(s: System, run: seq<Action>)
    ensures BookingsAdvance(s.db.bookings, RunAll(s, run).db.bookings)
    decreases |run|
  {
    hide BookingsAdvance, Next;
    if run == [] {
      BookingsStay(s.db.bookings);
    } else {
      NextAdvances(s, run[0]);
      RunsAdvance(Next(s, run[0]), run[1..]);
      BookingsAdvanceTransitively(s.db.bookings, Next(s, run[0]).db.bookings, RunAll(s, run).db.bookings);
    }
  }

  /** CANCELLED and EXPIRED are absorbing: nothing that ever happens changes such a booking again. */
  lemma EndsAreFinal(s: System, run: seq<Action>, b: Id)
    requires b in s.db.bookings && !IsLive(s.db.bookings[b].status)
    ensures b in RunAll(s, run).db.bookings
    ensures RunAll(s, run).db.bookings[b].status == s.db.bookings[b].status
  {
    hide RunAll;
    RunsAdvance(s, run);
    assert BookingAdvances(s.db.bookings[b], RunAll(s, run).db.bookings[b]);
  }

  /**
   * In every reachable state a booking has been confirmed at most once, has
   * one end event exactly when it has ended, and every end event names 1 to 9
   * distinct seats.
   */
  lemma OneEndEvent(run: seq<Action>, b: Id)
    requires LegalRun(START, run)
    ensures
      var t := RunAll(START, run).db;
      && Count(t.outbox, CONFIRMED_EVENT, b) <= 1
      && Count(t.outbox, CANCELLED_EVENT, b) + Count(t.outbox, EXPIRED_EVENT, b)
           == (if b in t.bookings && !IsLive(t.bookings[b].status) then 1 else 0)
      && (forall i | 0 <= i < |t.outbox| && t.outbox[i].event.BookingCancelled? ::
            1 <= |t.outbox[i].event.seats| <= 9 && Distinct(t.outbox[i].event.seats))
      && (forall i | 0 <= i < |t.outbox| && t.outbox[i].event.BookingExpired? ::
            1 <= |t.outbox[i].event.seats| <= 9 && Distinct(t.outbox[i].event.seats))
  {
    hide RunAll, LegalRun, Ledger, Tasks;
    EveryRunIsSafe(run);
    EventsSay(RunAll(START, run).db, b);
  }

  lemma EventsSay(t: Tables, b: Id)
    requires Inv(t)
    ensures Count(t.outbox, CONFIRMED_EVENT, b) <= 1
    ensures Count(t.outbox, CANCELLED_EVENT, b) + Count(t.outbox, EXPIRED_EVENT, b)
         == (if b in t.bookings && !IsLive(t.bookings[b].status) then 1 else 0)
    ensures forall i | 0 <= i < |t.outbox| && t.outbox[i].event.BookingCancelled? ::
      1 <= |t.outbox[i].event.seats| <= 9 && Distinct(t.outbox[i].event.seats)
    ensures forall i | 0 <= i < |t.outbox| && t.outbox[i].event.BookingExpired? ::
      1 <= |t.outbox[i].event.seats| <= 9 && Distinct(t.outbox[i].event.seats)
  {
    hide Inventory, Money, Keys, Count, References;
    assert BookingEvents(t.bookings, t.outbox, b);
    forall i | 0 <= i < |t.outbox| ensures EventOk(t.payments, t.outbox[i].event) {
    }
  }
}

/** expire-holds.ts: one run of the hold expiry job, batch by batch at one instant. */
module ExpiryJob {
  import opened Basics
  import opened Counting
  import opened Ordering
  import opened Schema
  import opened Lifecycle
  import opened Transactions
  import opened BookingDb

  function AllExpired(bookings: map<Id, Booking>, ids: seq<Id>): (r: map<Id, Booking>)
    ensures r.Keys == bookings.Keys
  {
    map b | b in bookings :: if b in ids then bookings[b].(status := BookingStatus.EXPIRED) else bookings[b]
  }

  /** One expired hold as the statement reports it: its seats from the statement's snapshot. */
  datatype ExpiredHold = ExpiredHold(id: Id, seats: seq<SeatPosition>)

  function Reported(seats: map<SeatKey, Seat>, ids: seq<Id>): (r: seq<ExpiredHold>)
    ensures |r| == |ids|
    ensures forall i | 0 <= i < |r| :: r[i] == ExpiredHold(ids[i], SeatCodes(seats, ids[i]))
  {
    seq(|ids|, i requires 0 <= i < |ids| => ExpiredHold(ids[i], SeatCodes(seats, ids[i])))
  }

  function AuditOf(hold: ExpiredHold, now: Instant): AuditEntry {
    AuditEntry(BOOKING_EXPIRED(hold.seats), HoldExpiryJob, hold.id, now)
  }

  function EventOf(hold: ExpiredHold, now: Instant): OutboxRow {
    OutboxRow(BookingExpired(hold.id, hold.seats), now)
  }

  function AuditsOf(holds: seq<ExpiredHold>, now: Instant): (r: seq<AuditEntry>)
    ensures |r| == |holds| && forall i | 0 <= i < |r| :: r[i] == AuditOf(holds[i], now)
  {
    seq(|holds|, i requires 0 <= i < |holds| => AuditOf(holds[i], now))
  }

  function EventsOf(holds: seq<ExpiredHold>, now: Instant): (r: seq<OutboxRow>)
    ensures |r| == |holds| && forall i | 0 <= i < |r| :: r[i] == EventOf(holds[i], now)
  {
    seq(|holds|, i requires 0 <= i < |holds| => EventOf(holds[i], now))
  }

  // ---- The bulk statement does what ending the holds one by one does ----

  lemma ReleaseTwice(seats: map<SeatKey, Seat>, ids: set<Id>, b: Id)
    requires b !in ids
    ensures SeatsOf(Release(seats, SeatsOf(seats, ids)), {b}) == SeatsOf(seats, {b})
    ensures SeatCodes(Release(seats, SeatsOf(seats, ids)), b) == SeatCodes(seats, b)
    ensures Release(Release(seats, SeatsOf(seats, ids)), SeatsOf(seats, {b})) == Release(seats, SeatsOf(seats, ids + {b}))
  {
  }

  lemma {:induction false} BulkIsOneByOne(t: Tables, ids: seq<Id>, now: Instant)
    requires Distinct(ids) && forall i | 0 <= i < |ids| :: ids[i] in t.bookings
    ensures ExpireAll(t, ids, now) == t.(
      bookings := AllExpired(t.bookings, ids),
      seats := Release(t.seats, SeatsOf(t.seats, Elems(ids))),
      audit := t.audit + AuditsOf(Reported(t.seats, ids), now),
      outbox := t.outbox + EventsOf(Reported(t.seats, ids), now))
    decreases |ids|, 1
  {
    if ids == [] {
      assert SeatsOf(t.seats, Elems(ids)) == {};
      assert Release(t.seats, {}) == t.seats;
    } else {
      BulkStep(t, ids, now);
    }
  }

  lemma {:induction false} BulkStep(t: Tables, ids: seq<Id>, now: Instant)
    requires ids != [] && Distinct(ids) && forall i | 0 <= i < |ids| :: ids[i] in t.bookings
    ensures ExpireAll(t, ids, now) == t.(
      bookings := AllExpired(t.bookings, ids),
      seats := Release(t.seats, SeatsOf(t.seats, Elems(ids))),
      audit := t.audit + AuditsOf(Reported(t.seats, ids), now),
      outbox := t.outbox + EventsOf(Reported(t.seats, ids), now))
    decreases |ids|, 0
  {
    hide SeatsOf, Release, SeatCodes, AllExpired;
    var last := |ids| - 1;
    var front := ids[..last];
    BulkIsOneByOne(t, front, now);
    var hold := ExpiredHold(ids[last], SeatCodes(t.seats, ids[last]));
    assert ids[last] !in front;
    assert Elems(ids) == Elems(front) + {ids[last]};
    ReleaseTwice(t.seats, Elems(front), ids[last]);
    ExpiredLast(t.bookings, ids);
    assert Reported(t.seats, ids) == Reported(t.seats, front) + [hold];
    assert t.audit + AuditsOf(Reported(t.seats, ids), now)
        == (t.audit + AuditsOf(Reported(t.seats, front), now)) + [AuditOf(hold, now)];
    assert t.outbox + EventsOf(Reported(t.seats, ids), now)
        == (t.outbox + EventsOf(Reported(t.seats, front), now)) + [EventOf(hold, now)];
  }

  lemma ExpiredLast(bookings: map<Id, Booking>, ids: seq<Id>)
    requires ids != [] && Distinct(ids) && forall i | 0 <= i < |ids| :: ids[i] in bookings
    ensures WithStatus(AllExpired(bookings, ids[..|ids| - 1]), ids[|ids| - 1], BookingStatus.EXPIRED)
         == AllExpired(bookings, ids)
  {
  }

  lemma ExpireAllLast(t: Tables, front: seq<Id>, last: Id, now: Instant)
    requires (forall i | 0 <= i < |front| :: front[i] in t.bookings) && last in t.bookings
    ensures forall i | 0 <= i < |front + [last]| :: (front + [last])[i] in t.bookings
    ensures ExpireAll(t, front + [last], now) == ExpireOne(ExpireAll(t, front, now), last, now)
  {
  }

  lemma {:induction false} ExpireAllAppend(t: Tables, first: seq<Id>, second: seq<Id>, now: Instant)
    requires forall i | 0 <= i < |first| :: first[i] in t.bookings
    requires forall i | 0 <= i < |second| :: second[i] in t.bookings
    ensures forall i | 0 <= i < |first + second| :: (first + second)[i] in t.bookings
    ensures ExpireAll(t, first + second, now) == ExpireAll(ExpireAll(t, first, now), second, now)
    decreases |second|
  {
    hide ExpireOne, ExpireAll;
    if second == [] {
      assert first + second == first;
      ExpireNone(ExpireAll(t, first, now), now);
    } else {
      var last := |second| - 1;
      var front := second[..last];
      ExpireAllAppend(t, first, front, now);
      ExpireAllLast(t, first + front, second[last], now);
      ExpireAllLast(ExpireAll(t, first, now), front, second[last], now);
      assert first + second == first + front + [second[last]] && second == front + [second[last]];
    }
  }

  // ---- The statement and the batch ----

  /** When and in which order a hold is due. */
  function HoldDueAt(t: Tables, id: Id): (Instant, Id) {
    (if id in t.bookings && t.bookings[id].holdExpiresAt.Some? then t.bookings[id].holdExpiresAt.value else 0, id)
  }

  predicate MayBeSwept(t: Tables, id: Id, now: Instant, locked: set<Id>) {
    id in t.bookings && HoldIsDue(t.bookings[id], now) && id !in locked
  }

  /** `ids` are due and unlocked, in order, as many as the limit allows, and every other such hold is due later. */
  ghost predicate FirstDue(t: Tables, ids: seq<Id>, now: Instant, limit: nat, locked: set<Id>) {
    && |ids| == Min(|DueHolds(t, now, locked)|, limit)
    && (forall i | 0 <= i < |ids| :: MayBeSwept(t, ids[i], now, locked))
    && (forall i, j | 0 <= i < j < |ids| :: DueLess(HoldDueAt(t, ids[i]), HoldDueAt(t, ids[j])))
    && (forall i, b | 0 <= i < |ids| && MayBeSwept(t, b, now, locked) && b !in ids ::
          DueLess(HoldDueAt(t, ids[i]), HoldDueAt(t, b)))
  }

  lemma ExpiredIdsAreFirst(t: Tables, now: Instant, limit: nat, locked: set<Id>)
    ensures FirstDue(t, ExpiredIds(t, now, limit, locked), now, limit, locked)
  {
    hide FirstIds, SortedDue;
    var due, ids := SortedDue(DueHolds(t, now, locked)), ExpiredIds(t, now, limit, locked);
    FirstIdsAreFirst(DueHolds(t, now, locked), limit);
    forall i | 0 <= i < |ids| ensures MayBeSwept(t, ids[i], now, locked) && due[i] == HoldDueAt(t, ids[i]) {
      assert due[i] in DueHolds(t, now, locked);
    }
    forall i, j | 0 <= i < j < |ids| ensures DueLess(HoldDueAt(t, ids[i]), HoldDueAt(t, ids[j])) {
      InDueOrder(DueHolds(t, now, locked), i, j);
    }
    forall i, b | 0 <= i < |ids| && MayBeSwept(t, b, now, locked) && b !in ids
      ensures DueLess(HoldDueAt(t, ids[i]), HoldDueAt(t, b))
    {
      assert HoldDueAt(t, b) in DueHolds(t, now, locked);
    }
  }

  lemma InDueOrder(due: set<(Instant, Id)>, i: nat, j: nat)
    requires i < j < |SortedDue(due)|
    ensures DueLess(SortedDue(due)[i], SortedDue(due)[j])
  {
  }

  /**
   * The first due holds end, and nothing else does: exactly their seats
   * become AVAILABLE, and they are reported as they were before.
   */
  method ExpireDueHolds(db: Database, now: Instant, limit: nat, locked: set<Id>)
    returns (holds: seq<ExpiredHold>, ghost ids: seq<Id>)
    modifies db`bookings, db`seats
    ensures ids == ExpiredIds(old(db.Contents()), now, limit, locked)
    ensures FirstDue(old(db.Contents()), ids, now, limit, locked) && holds == Reported(old(db.seats), ids)
    ensures db.seats.Keys == old(db.seats).Keys && db.bookings.Keys == old(db.bookings).Keys
    ensures forall k | k in db.seats ::
      db.seats[k] == if OwnedBy(old(db.seats)[k], Elems(ids)) then Released(old(db.seats)[k]) else old(db.seats)[k]
    ensures forall b | b in db.bookings ::
      db.bookings[b] == if b in ids then old(db.bookings)[b].(status := BookingStatus.EXPIRED) else old(db.bookings)[b]
  {
    ExpiredIdsAreFirst(db.Contents(), now, limit, locked);
    var picked := ExpiredIds(db.Contents(), now, limit, locked);
    holds, ids := Reported(db.seats, picked), picked;
    db.bookings := AllExpired(db.bookings, picked);
    db.seats := Release(db.seats, SeatsOf(db.seats, Elems(picked)));
  }

  method RecordExpired(db: Database, holds: seq<ExpiredHold>, now: Instant)
    modifies db`audit, db`outbox
    ensures db.audit == old(db.audit) + AuditsOf(holds, now)
    ensures db.outbox == old(db.outbox) + EventsOf(holds, now)
  {
    var i := 0;
    while i < |holds|
      invariant 0 <= i <= |holds|
      invariant db.audit == old(db.audit) + AuditsOf(holds, now)[..i]
      invariant db.outbox == old(db.outbox) + EventsOf(holds, now)[..i]
    {
      db.Record(BOOKING_EXPIRED(holds[i].seats), HoldExpiryJob, holds[i].id, now);
      db.Enqueue(BookingExpired(holds[i].id, holds[i].seats), now);
      assert AuditsOf(holds, now)[..i + 1] == AuditsOf(holds, now)[..i] + [AuditOf(holds[i], now)];
      assert EventsOf(holds, now)[..i + 1] == EventsOf(holds, now)[..i] + [EventOf(holds[i], now)];
      i := i + 1;
    }
    assert AuditsOf(holds, now)[..i] == AuditsOf(holds, now);
    assert EventsOf(holds, now)[..i] == EventsOf(holds, now);
  }

  method ExpireOneBatch(db: Database, now: Instant, limit: nat, locked: set<Id>) returns (count: nat)
    modifies db
    ensures db.Contents() == ExpireBatch(old(db.Contents()), now, limit, locked)
    ensures count == |ExpiredIds(old(db.Contents()), now, limit, locked)|
  {
    hide ExpiredIds, Reported, AuditsOf, EventsOf, ExpireAll, FirstDue, OwnedBy;
    ghost var t := db.Contents();
    DueHoldsExist(t, now, limit, locked);
    BulkIsOneByOne(t, ExpiredIds(t, now, limit, locked), now);
    var holds, ids := ExpireDueHolds(db, now, limit, locked);
    assert db.bookings == AllExpired(t.bookings, ids);
    assert db.seats == Release(t.seats, SeatsOf(t.seats, Elems(ids)));
    RecordExpired(db, holds, now);
    return |holds|;
  }

  // ---- The run ----

  /** Every hold due at `now`, in (deadline, id) order. */
  function DueInOrder(t: Tables, now: Instant): seq<Id> {
    ExpiredIds(t, now, |DueHolds(t, now, {})|, {})
  }

  lemma DueAfter(t: Tables, now: Instant, n: nat, d: (Instant, Id))
    requires n <= |DueInOrder(t, now)| && Distinct(DueInOrder(t, now))
    ensures
      var ids := DueInOrder(t, now)[..n];
      d in DueHolds(t.(bookings := AllExpired(t.bookings, ids)), now, {})
      <==> d in DueHolds(t, now, {}) && d !in SortedDue(DueHolds(t, now, {}))[..n]
  {
  }

  lemma RestInOrder(all: set<(Instant, Id)>, rest: set<(Instant, Id)>, n: nat)
    requires n <= |all| && forall d :: d in rest <==> d in all && d !in SortedDue(all)[..n]
    ensures FirstIds(SortedDue(rest), |rest|) == FirstIds(SortedDue(all), |all|)[n..]
  {
    DueOrder();
    SortedDrop(all, n, DueLess);
    assert rest == all - set d | d in SortedDue(all)[..n];
    FirstIdsDrop(SortedDue(all), n);
  }

  lemma FirstIdsDrop(due: seq<(Instant, Id)>, n: nat)
    requires n <= |due|
    ensures FirstIds(due[n..], |due| - n) == FirstIds(due, |due|)[n..]
  {
  }

  /** Expiring the first holds leaves exactly the others due, in the same order. */
  lemma RestStaysDue(t: Tables, now: Instant, n: nat)
    requires n <= |DueInOrder(t, now)|
    ensures Distinct(DueInOrder(t, now)) && forall i | 0 <= i < |DueInOrder(t, now)| :: DueInOrder(t, now)[i] in t.bookings
    ensures DueInOrder(ExpireAll(t, DueInOrder(t, now)[..n], now), now) == DueInOrder(t, now)[n..]
  {
    hide ExpireAll, DueHolds, Distinct, AllExpired;
    var all := DueHolds(t, now, {});
    var ids := DueInOrder(t, now);
    DueHoldsExist(t, now, |all|, {});
    PrefixDistinct(ids, n);
    BulkIsOneByOne(t, ids[..n], now);
    var t' := ExpireAll(t, ids[..n], now);
    forall d ensures d in DueHolds(t', now, {}) <==> d in all && d !in SortedDue(all)[..n] {
      DueAfter(t, now, n, d);
      DueFrame(t', t.(bookings := AllExpired(t.bookings, ids[..n])), now);
    }
    RestInOrder(all, DueHolds(t', now, {}), n);
  }

  lemma DueFrame(t: Tables, t': Tables, now: Instant)
    requires t'.bookings == t.bookings
    ensures DueHolds(t, now, {}) == DueHolds(t', now, {})
  {
  }

  lemma BatchIsPrefix(t: Tables, now: Instant, limit: nat)
    ensures ExpiredIds(t, now, limit, {}) == DueInOrder(t, now)[..Min(|DueInOrder(t, now)|, limit)]
  {
  }

  /** After the first `n`, one more batch expires the next ones in order. */
  lemma NextBatch(t: Tables, now: Instant, n: nat, limit: nat)
    requires n <= |DueInOrder(t, now)|
    ensures forall i | 0 <= i < |DueInOrder(t, now)| :: DueInOrder(t, now)[i] in t.bookings
    ensures
      var due := DueInOrder(t, now);
      var count := Min(|due| - n, limit);
      var before := ExpireAll(t, due[..n], now);
      && |ExpiredIds(before, now, limit, {})| == count
      && ExpireBatch(before, now, limit, {}) == ExpireAll(t, due[..n + count], now)
  {
    hide ExpireAll, ExpiredIds;
    RestStaysDue(t, now, n);
    var due := DueInOrder(t, now);
    var before := ExpireAll(t, due[..n], now);
    BatchIsPrefix(before, now, limit);
    var next := ExpiredIds(before, now, limit, {});
    ExpireAllAppend(t, due[..n], next, now);
    assert due[..n] + next == due[..n + |next|];
  }

  /**
   * One run: with no other writer it expires exactly the first
   * batchSize * maxBatches due holds, in (deadline, id) order, each with one
   * audit entry and one event; not exhausted means none is left due.
   */
  method ExpireHolds(db: Database, now: Instant, batchSize: nat, maxBatches: nat)
    returns (expired: nat, batches: nat, exhausted: bool)
    requires 1 <= batchSize
    modifies db
    ensures expired == Min(|DueInOrder(old(db.Contents()), now)|, batchSize * maxBatches)
    ensures
      var t := old(db.Contents());
      var ids := DueInOrder(t, now)[..expired];
      db.Contents() == t.(
        bookings := AllExpired(t.bookings, ids),
        seats := Release(t.seats, SeatsOf(t.seats, Elems(ids))),
        audit := t.audit + AuditsOf(Reported(t.seats, ids), now),
        outbox := t.outbox + EventsOf(Reported(t.seats, ids), now))
    ensures exhausted <==> expired == batchSize * maxBatches
    ensures !exhausted ==> DueHolds(db.Contents(), now, {}) == {}
    ensures batches <= maxBatches && expired <= batchSize * batches
  {
    hide ExpireAll, ExpireBatch, DueInOrder, ExpiredIds, AllExpired, Reported, AuditsOf, EventsOf, SeatsOf, Release;
    ghost var t := db.Contents();
    ghost var due := DueInOrder(t, now);
    expired, batches := 0, 0;
    RestStaysDue(t, now, 0);
    ExpireNone(t, now);
    assert due[..0] == [];
    while batches < maxBatches
      invariant batches <= maxBatches && expired == batchSize * batches <= |due|
      invariant forall i | 0 <= i < |due| :: due[i] in t.bookings
      invariant db.Contents() == ExpireAll(t, due[..expired], now)
    {
      NextBatch(t, now, expired, batchSize);
      var count := ExpireOneBatch(db, now, batchSize, {});
      expired, batches := expired + count, batches + 1;
      assert batchSize * batches == batchSize * (batches - 1) + batchSize;
      if count < batchSize {
        RunIsBulk(t, now, expired);
        RestStaysDue(t, now, expired);
        NoneDue(db.Contents(), now);
        ProductGrows(batchSize, batches, maxBatches);
        return expired, batches, false;
      }
    }
    RunIsBulk(t, now, expired);
    return expired, batches, true;
  }

  lemma ExpireNone(t: Tables, now: Instant)
    ensures ExpireAll(t, [], now) == t
  {
  }

  lemma NoneDue(t: Tables, now: Instant)
    requires DueInOrder(t, now) == []
    ensures DueHolds(t, now, {}) == {}
  {
  }

  lemma RunIsBulk(t: Tables, now: Instant, n: nat)
    requires n <= |DueInOrder(t, now)|
    ensures
      var ids := DueInOrder(t, now)[..n];
      && (forall i | 0 <= i < |ids| :: ids[i] in t.bookings)
      && ExpireAll(t, ids, now) == t.(
           bookings := AllExpired(t.bookings, ids),
           seats := Release(t.seats, SeatsOf(t.seats, Elems(ids))),
           audit := t.audit + AuditsOf(Reported(t.seats, ids), now),
           outbox := t.outbox + EventsOf(Reported(t.seats, ids), now))
  {
    hide ExpireAll;
    RestStaysDue(t, now, n);
    PrefixDistinct(DueInOrder(t, now), n);
    BulkIsOneByOne(t, DueInOrder(t, now)[..n], now);
  }
}

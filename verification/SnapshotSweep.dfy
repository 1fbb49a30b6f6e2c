/**
 * The expiry sweep under READ COMMITTED: SKIP LOCKED passes rows others hold,
 * a row changed since the snapshot is checked again before it is locked, and
 * the seats come from the statement's old snapshot.
 */
module SnapshotSweep {
  import opened Basics
  import opened Counting
  import opened Ordering
  import opened Schema
  import opened Lifecycle
  import opened Transactions
  import opened Invariants
  import opened Histories
  import opened ExpiryJob
  import opened Snapshots

  /** The sweep's encounters: rows it skipped as locked, and when it locked each row it came to. */
  datatype Sweep = Sweep(now: Instant, limit: nat, skipped: set<Id>, grant: map<Id, nat>)

  /** The snapshot's due holds, in (deadline, id) order. */
  function DueCandidates(t: Tables, now: Instant): seq<(Instant, Id)> { SortedDue(DueHolds(t, now, {})) }

  predicate DueAt(t: Tables, id: Id, now: Instant) { id in t.bookings && HoldIsDue(t.bookings[id], now) }

  /** Rows not skipped and still due when the sweep comes to lock them. */
  ghost function Lockable(line: seq<Tables>, w: Sweep): set<Id>
    requires line != []
  {
    set d | d in DueHolds(line[0], w.now, {}) && d.1 !in w.skipped && d.1 in w.grant && w.grant[d.1] < |line|
            && DueAt(line[w.grant[d.1]], d.1, w.now) :: d.1
  }

  function Keep(ds: seq<(Instant, Id)>, ids: set<Id>): seq<(Instant, Id)> {
    if ds == [] then [] else (if ds[0].1 in ids then [ds[0]] else []) + Keep(ds[1..], ids)
  }

  /** LIMIT counts the rows it locked, so the sweep walks on past what it skips or drops. */
  ghost function Picks(line: seq<Tables>, w: Sweep): seq<Id>
    requires line != []
  {
    FirstIds(Keep(DueCandidates(line[0], w.now), Lockable(line, w)), w.limit)
  }

  /** What one atomic sweep of the final tables would have to pass over to pick the same rows. */
  function PassedOver(t: Tables, end: Tables, w: Sweep): set<Id> {
    w.skipped + (set b | b in end.bookings && !DueAt(t, b, w.now))
  }

  lemma {:induction false} KeepIsIncreasing(ds: seq<(Instant, Id)>, ids: set<Id>)
    requires StrictTotalOrder(DueLess) && Increasing(ds, DueLess)
    ensures Increasing(Keep(ds, ids), DueLess)
    ensures forall d :: d in Keep(ds, ids) <==> d in ds && d.1 in ids
  {
    if ds != [] {
      HeadIsLeast(ds, DueLess);
      KeepIsIncreasing(ds[1..], ids);
    }
  }

  /** Dropping more rows from the list changes none of the first `n` when none of those is dropped. */
  lemma {:induction false} KeepFirst(ds: seq<(Instant, Id)>, more: set<Id>, fewer: set<Id>, n: nat)
    requires fewer <= more
    requires forall i | 0 <= i < |Keep(ds, more)| && i < n :: Keep(ds, more)[i].1 in fewer
    ensures FirstIds(Keep(ds, more), n) == FirstIds(Keep(ds, fewer), n)
    decreases |ds|
  {
    if ds != [] && n != 0 {
      var rest := ds[1..];
      if ds[0].1 in more {
        assert Keep(ds, more)[0] == ds[0];
        forall i | 0 <= i < |Keep(rest, more)| && i < n - 1 ensures Keep(rest, more)[i].1 in fewer {
          assert Keep(ds, more)[i + 1] == Keep(rest, more)[i];
        }
        KeepFirst(rest, more, fewer, n - 1);
        FirstIdsCons(ds[0], Keep(rest, more), n);
        FirstIdsCons(ds[0], Keep(rest, fewer), n);
      } else {
        assert Keep(ds, more) == Keep(rest, more);
        KeepFirst(rest, more, fewer, n);
      }
    }
  }

  lemma FirstIdsCons(d: (Instant, Id), ds: seq<(Instant, Id)>, n: nat)
    requires n != 0
    ensures FirstIds([d] + ds, n) == [d.1] + FirstIds(ds, n - 1)
  {
  }

  // ---- The rows it picks ----

  /** Every candidate has a moment; each picked row is locked from its moment on. */
  ghost predicate Scanned(line: seq<Tables>, w: Sweep, g: nat)
    requires g < |line|
  {
    && (forall d | d in DueHolds(line[0], w.now, {}) && d.1 !in w.skipped :: d.1 in w.grant && w.grant[d.1] < |line|)
    && (forall b | b in Picks(line, w) :: b in w.grant && w.grant[b] <= g && RowLocked(line, b, w.grant[b]))
  }

  /** Still due at the end: unchanged since the snapshot, so due at every moment between. */
  lemma DueAtEndDueBefore(line: seq<Tables>, b: Id, now: Instant, j: nat)
    requires Timeline(line) && j < |line| && b in line[0].bookings && DueAt(AtCommit(line), b, now)
    ensures DueAt(line[j], b, now) && AtCommit(line).bookings[b] == line[0].bookings[b]
  {
    hide Inv, Timeline;
    Moments(line, 0, j);
    Moments(line, j, |line| - 1);
    HeldRowStays(line, b, |line| - 1);
    assert b in line[j].bookings;
    assert BookingAdvances(line[j].bookings[b], AtCommit(line).bookings[b]);
  }

  ghost function DueAtEnd(line: seq<Tables>, w: Sweep): set<Id>
    requires line != []
  {
    set d | d in DueHolds(line[0], w.now, {}) && d.1 !in w.skipped && DueAt(AtCommit(line), d.1, w.now) :: d.1
  }

  lemma EndDueIsKept(line: seq<Tables>, w: Sweep)
    requires line != [] && Timeline(line)
    ensures Keep(DueCandidates(line[0], w.now), DueAtEnd(line, w))
         == SortedDue(DueHolds(AtCommit(line), w.now, PassedOver(line[0], AtCommit(line), w)))
  {
    hide Inv, Timeline, BookingsAdvance;
    var end := AtCommit(line);
    var kept := Keep(DueCandidates(line[0], w.now), DueAtEnd(line, w));
    var due := DueHolds(end, w.now, PassedOver(line[0], end, w));
    DueOrder();
    KeepIsIncreasing(DueCandidates(line[0], w.now), DueAtEnd(line, w));
    Moments(line, 0, |line| - 1);
    forall d ensures d in kept <==> d in due {
      if d.1 in line[0].bookings && DueAt(end, d.1, w.now) {
        DueAtEndDueBefore(line, d.1, w.now, |line| - 1);
      }
      if d in kept {
        assert d in DueHolds(line[0], w.now, {});
      }
      if d in due {
        assert d in DueHolds(line[0], w.now, {});
        assert d.1 in DueAtEnd(line, w);
      }
    }
    IncreasingUnique(kept, SortedDue(due), DueLess);
  }

  /** The rows the sweep picks are the first due rows of the final tables, past what it skipped. */
  lemma PicksAreFirst(line: seq<Tables>, w: Sweep, g: nat)
    requires Timeline(line) && g < |line| && Scanned(line, w, g)
    ensures Picks(line, w) == ExpiredIds(AtCommit(line), w.now, w.limit, PassedOver(line[0], AtCommit(line), w))
  {
    hide Inv, Timeline, SortedDue, FirstIds;
    var more, fewer := Lockable(line, w), DueAtEnd(line, w);
    forall b | b in fewer ensures b in more {
      var d :| d in DueHolds(line[0], w.now, {}) && d.1 == b && d.1 !in w.skipped && DueAt(AtCommit(line), b, w.now);
      DueAtEndDueBefore(line, b, w.now, w.grant[b]);
    }
    forall i | 0 <= i < |Keep(DueCandidates(line[0], w.now), more)| && i < w.limit
      ensures Keep(DueCandidates(line[0], w.now), more)[i].1 in fewer
    {
      PickIsDueAtEnd(line, w, g, i);
    }
    KeepFirst(DueCandidates(line[0], w.now), more, fewer, w.limit);
    EndDueIsKept(line, w);
  }

  lemma PickIsDueAtEnd(line: seq<Tables>, w: Sweep, g: nat, i: nat)
    requires Timeline(line) && g < |line| && Scanned(line, w, g)
    requires i < |Keep(DueCandidates(line[0], w.now), Lockable(line, w))| && i < w.limit
    ensures Keep(DueCandidates(line[0], w.now), Lockable(line, w))[i].1 in DueAtEnd(line, w)
  {
    hide Inv, Timeline;
    DueOrder();
    var kept := Keep(DueCandidates(line[0], w.now), Lockable(line, w));
    KeepIsIncreasing(DueCandidates(line[0], w.now), Lockable(line, w));
    var b := kept[i].1;
    assert kept[i] in kept;
    assert Picks(line, w)[i] == b;
    assert RowLocked(line, b, w.grant[b]);
  }

  // ---- The seats it releases ----

  lemma PickStays(line: seq<Tables>, w: Sweep, g: nat, b: Id, j: nat)
    requires Timeline(line) && g < |line| && Scanned(line, w, g) && b in Picks(line, w)
    requires g <= j < |line|
    ensures b in line[0].bookings && b in line[j].bookings && line[j].bookings[b] == line[0].bookings[b]
    ensures line[0].bookings[b].status.HELD?
    ensures SeatsOf(line[j].seats, {b}) == SeatsOf(line[0].seats, {b})
  {
    hide Inv, Timeline, SeatsOf;
    var i :| 0 <= i < |Picks(line, w)| && Picks(line, w)[i] == b;
    PickIsDueAtEnd(line, w, g, i);
    DueAtEndDueBefore(line, b, w.now, j);
    assert RowLocked(line, b, w.grant[b]);
    SameSeatsWhileLocked(line, b, 0, j);
  }

  /** The snapshot's seats of the picked holds are all still theirs when locked, and they are all their seats at the end. */
  lemma SweepSeats(line: seq<Tables>, w: Sweep, g: nat, at: map<SeatKey, nat>)
    requires Timeline(line) && g < |line| && Scanned(line, w, g)
    requires Granted(SeatsOf(line[0].seats, Elems(Picks(line, w))), at, g, |line| - 1)
    ensures
      var picks := Elems(Picks(line, w));
      && SeatsOf(AtCommit(line).seats, picks) == SeatsOf(line[0].seats, picks)
      && LockedSeats(line, SeatsOf(line[0].seats, picks), picks, at) == SeatsOf(line[0].seats, picks)
  {
    hide Inv, Timeline, Picks, Scanned;
    var picks := Elems(Picks(line, w));
    var end := AtCommit(line);
    forall k ensures k in SeatsOf(end.seats, picks) <==> k in SeatsOf(line[0].seats, picks) {
      if k in SeatsOf(end.seats, picks) {
        PickStays(line, w, g, end.seats[k].bookingId.value, |line| - 1);
        assert k in SeatsOf(end.seats, {end.seats[k].bookingId.value});
      }
      if k in SeatsOf(line[0].seats, picks) {
        PickStays(line, w, g, line[0].seats[k].bookingId.value, |line| - 1);
        assert k in SeatsOf(line[0].seats, {line[0].seats[k].bookingId.value});
      }
    }
    forall k | k in SeatsOf(line[0].seats, picks) ensures k in LockedSeats(line, SeatsOf(line[0].seats, picks), picks, at) {
      PickStays(line, w, g, line[0].seats[k].bookingId.value, at[k]);
      assert k in SeatsOf(line[0].seats, {line[0].seats[k].bookingId.value});
    }
  }

  /** expireDueHolds over a timeline: what it picked, and the seats its snapshot found. */
  ghost function SweepStatement(line: seq<Tables>, w: Sweep, at: map<SeatKey, nat>): Tables
    requires line != []
  {
    var end := AtCommit(line);
    var picks := Picks(line, w);
    var seats := LockedSeats(line, SeatsOf(line[0].seats, Elems(picks)), Elems(picks), at);
    end.(bookings := AllExpired(end.bookings, picks), seats := Release(end.seats, seats))
  }

  /** The transaction around it: one audit entry and one event per hold, naming the seats the snapshot showed. */
  ghost function SweepTransaction(line: seq<Tables>, w: Sweep, at: map<SeatKey, nat>): Tables
    requires line != []
  {
    var swept := SweepStatement(line, w, at);
    var holds := Reported(line[0].seats, Picks(line, w));
    swept.(audit := swept.audit + AuditsOf(holds, w.now), outbox := swept.outbox + EventsOf(holds, w.now))
  }

  lemma SameReports(line: seq<Tables>, w: Sweep, g: nat)
    requires Timeline(line) && g < |line| && Scanned(line, w, g)
    ensures Reported(line[0].seats, Picks(line, w)) == Reported(AtCommit(line).seats, Picks(line, w))
  {
    hide Inv, Timeline, Picks, Scanned, SeatsOf;
    var picks := Picks(line, w);
    forall i | 0 <= i < |picks| ensures SeatCodes(line[0].seats, picks[i]) == SeatCodes(AtCommit(line).seats, picks[i]) {
      PickStays(line, w, g, picks[i], |line| - 1);
    }
  }

  /**
   * The sweep refines one atomic batch of the tables it commits to, passing
   * over exactly what it skipped as locked or could not see in its snapshot.
   */
  lemma SweepIsAtomic(line: seq<Tables>, w: Sweep, g: nat, at: map<SeatKey, nat>)
    requires Timeline(line) && g < |line| && Scanned(line, w, g)
    requires Granted(SeatsOf(line[0].seats, Elems(Picks(line, w))), at, g, |line| - 1)
    ensures
      var end := AtCommit(line);
      SweepTransaction(line, w, at) == ExpireBatch(end, w.now, w.limit, PassedOver(line[0], end, w))
  {
    hide Inv, Timeline, Picks, Scanned, SeatsOf, LockedSeats, Granted, ExpireAll, ExpiredIds, AllExpired, Release,
         Reported, AuditsOf, EventsOf, PassedOver;
    var end := AtCommit(line);
    PicksAreFirst(line, w, g);
    SweepSeats(line, w, g, at);
    SameReports(line, w, g);
    DueHoldsExist(end, w.now, w.limit, PassedOver(line[0], end, w));
    BulkIsOneByOne(end, Picks(line, w), w.now);
  }
}

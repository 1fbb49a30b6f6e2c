/**
 * outbox-relay-job.ts: publish, mark, stop at the first failure. A publish
 * may be delivered and still throw, a mark may be stored and still throw, and
 * rows are added at any moment.
 */
module OutboxRelay {
  import opened Basics
  import opened Ordering
  import opened Schema
  import opened Transactions

  /** One outbox row; its id is its place in creation order. */
  datatype Entry = Entry(createdAt: Instant, published: bool)

  datatype PublishOutcome = PUBLISHED | NOT_DELIVERED | DELIVERED_BUT_THREW

  datatype MarkOutcome = MARKED | NOT_MARKED | MARKED_BUT_THREW

  /** The table, everything the broker got, and what the tick under way still has to publish. */
  datatype Relay = Relay(entries: seq<Entry>, delivered: seq<Id>, pending: seq<Id>)

  datatype RelayStep = Add(createdAt: Instant) | StartTick(batchSize: nat) | Attempt(publish: PublishOutcome, mark: MarkOutcome)

  // ---- findUnpublished, markPublished ----

  function Unpublished(entries: seq<Entry>): set<(Instant, Id)> {
    set i | 0 <= i < |entries| && !entries[i].published :: (entries[i].createdAt, i)
  }

  /** ORDER BY created_at LIMIT batchSize. */
  function FindUnpublished(entries: seq<Entry>, limit: nat): (r: seq<Id>)
    ensures |r| <= limit
  {
    FirstIds(SortedDue(Unpublished(entries)), limit)
  }

  function Marked(entries: seq<Entry>, id: Id): seq<Entry> {
    if id < |entries| then entries[id := entries[id].(published := true)] else entries
  }

  function Attempted(r: Relay, publish: PublishOutcome, mark: MarkOutcome): Relay
    requires r.pending != []
  {
    var id := r.pending[0];
    match publish
    case NOT_DELIVERED => r.(pending := [])
    case DELIVERED_BUT_THREW => r.(delivered := r.delivered + [id], pending := [])
    case PUBLISHED =>
      Relay(if mark.NOT_MARKED? then r.entries else Marked(r.entries, id),
            r.delivered + [id],
            if mark.MARKED? then r.pending[1..] else [])
  }

  predicate RelayCan(r: Relay, x: RelayStep) {
    match x
    case Add(at) => r.entries != [] ==> r.entries[|r.entries| - 1].createdAt < at
    case StartTick(_) => r.pending == []
    case Attempt(_, _) => r.pending != []
  }

  function RelayNext(r: Relay, x: RelayStep): Relay
    requires RelayCan(r, x)
  {
    match x
    case Add(at) => r.(entries := r.entries + [Entry(at, false)])
    case StartTick(batchSize) => r.(pending := FindUnpublished(r.entries, batchSize))
    case Attempt(publish, mark) => Attempted(r, publish, mark)
  }

  predicate RelayLegal(r: Relay, steps: seq<RelayStep>)
    decreases |steps|
  {
    steps == [] || (RelayCan(r, steps[0]) && RelayLegal(RelayNext(r, steps[0]), steps[1..]))
  }

  function RelayRun(r: Relay, steps: seq<RelayStep>): Relay
    requires RelayLegal(r, steps)
    decreases |steps|
  {
    if steps == [] then r else RelayRun(RelayNext(r, steps[0]), steps[1..])
  }

  // ---- The invariant ----

  function Range(from: nat, to: nat): (r: seq<Id>)
    requires from <= to
    ensures |r| == to - from && forall i | 0 <= i < |r| :: r[i] == from + i
  {
    seq(to - from, i requires 0 <= i < to - from => from + i)
  }

  /** Consecutive repeats removed. */
  function Dedup(ids: seq<Id>): seq<Id> {
    if |ids| <= 1 then ids
    else if ids[|ids| - 1] == ids[|ids| - 2] then Dedup(ids[..|ids| - 1])
    else Dedup(ids[..|ids| - 1]) + [ids[|ids| - 1]]
  }

  lemma DedupAppend(ids: seq<Id>, id: Id)
    ensures Dedup(ids + [id]) == if ids != [] && ids[|ids| - 1] == id then Dedup(ids) else Dedup(ids) + [id]
  {
  }

  lemma {:induction false} DedupEnds(ids: seq<Id>)
    ensures ids == [] <==> Dedup(ids) == []
    ensures ids != [] ==> Dedup(ids)[|Dedup(ids)| - 1] == ids[|ids| - 1]
    ensures forall id :: id in Dedup(ids) <==> id in ids
    decreases |ids|
  {
    if |ids| > 1 {
      DedupEnds(ids[..|ids| - 1]);
      assert ids == ids[..|ids| - 1] + [ids[|ids| - 1]];
    }
  }

  /** `m` rows are marked, the oldest ones; the broker has seen them in order, and perhaps the next one too. */
  ghost predicate UpTo(r: Relay, m: nat, seen: nat) {
    && m <= seen <= m + 1 && seen <= |r.entries|
    && (forall i | 0 <= i < |r.entries| :: r.entries[i].published <==> i < m)
    && (forall i, j | 0 <= i < j < |r.entries| :: r.entries[i].createdAt < r.entries[j].createdAt)
    && Dedup(r.delivered) == Range(0, seen)
    && m + |r.pending| <= |r.entries| && r.pending == Range(m, m + |r.pending|)
  }

  ghost predicate RelayOk(r: Relay) { exists m, seen :: UpTo(r, m, seen) }

  /** The unpublished rows by creation time are the rows from the first unmarked one on. */
  lemma UnpublishedInOrder(r: Relay, m: nat, seen: nat, limit: nat)
    requires UpTo(r, m, seen)
    ensures FindUnpublished(r.entries, limit) == Range(m, m + Min(|r.entries| - m, limit))
  {
    var n := |r.entries| - m;
    var dated := seq(n, i requires 0 <= i < n => (r.entries[m + i].createdAt, m + i));
    DueOrder();
    forall d ensures d in dated <==> d in Unpublished(r.entries) {
      if d in Unpublished(r.entries) {
        assert dated[d.1 - m] == d;
      }
    }
    assert Increasing(dated, DueLess);
    IncreasingUnique(dated, SortedDue(Unpublished(r.entries)), DueLess);
  }

  lemma AddKeeps(r: Relay, m: nat, seen: nat, at: Instant)
    requires UpTo(r, m, seen) && RelayCan(r, Add(at))
    ensures UpTo(RelayNext(r, Add(at)), m, seen)
  {
  }

  lemma StartKeeps(r: Relay, m: nat, seen: nat, batchSize: nat)
    requires UpTo(r, m, seen) && RelayCan(r, StartTick(batchSize))
    ensures UpTo(RelayNext(r, StartTick(batchSize)), m, seen)
  {
    UnpublishedInOrder(r, m, seen, batchSize);
  }

  /** Delivering the next row again or for the first time: the broker has now seen it. */
  lemma DeliveredNext(r: Relay, m: nat, seen: nat)
    requires UpTo(r, m, seen) && r.pending != []
    ensures r.pending[0] == m && m < |r.entries|
    ensures Dedup(r.delivered + [m]) == Range(0, m + 1)
  {
    assert r.pending[0] == Range(m, m + |r.pending|)[0];
    DedupAppend(r.delivered, m);
    DedupEnds(r.delivered);
    if seen == m {
      assert Range(0, m) + [m] == Range(0, m + 1);
      if r.delivered != [] { assert Dedup(r.delivered)[|Dedup(r.delivered)| - 1] == m - 1; }
    } else {
      assert Dedup(r.delivered)[|Dedup(r.delivered)| - 1] == m;
    }
  }

  lemma AttemptKeeps(r: Relay, m: nat, seen: nat, publish: PublishOutcome, mark: MarkOutcome)
    requires UpTo(r, m, seen) && RelayCan(r, Attempt(publish, mark))
    ensures RelayOk(RelayNext(r, Attempt(publish, mark)))
  {
    hide Dedup;
    var r' := RelayNext(r, Attempt(publish, mark));
    DeliveredNext(r, m, seen);
    if publish.NOT_DELIVERED? {
      assert UpTo(r', m, seen);
    } else if publish.PUBLISHED? && !mark.NOT_MARKED? {
      assert r.pending[1..] == Range(m + 1, m + |r.pending|);
      assert UpTo(r', m + 1, m + 1);
    } else {
      assert UpTo(r', m, m + 1);
    }
  }

  lemma NextKeeps(r: Relay, x: RelayStep)
    requires RelayOk(r) && RelayCan(r, x)
    ensures RelayOk(RelayNext(r, x))
  {
    hide UpTo, RelayNext, RelayCan;
    var m: nat, seen: nat :| UpTo(r, m, seen);
    match x
    case Add(at) => AddKeeps(r, m, seen, at);
    case StartTick(batchSize) => StartKeeps(r, m, seen, batchSize);
    case Attempt(publish, mark) => AttemptKeeps(r, m, seen, publish, mark);
  }

  lemma {:induction false} RunKeeps(r: Relay, steps: seq<RelayStep>)
    requires RelayOk(r) && RelayLegal(r, steps)
    ensures RelayOk(RelayRun(r, steps))
    decreases |steps|
  {
    hide RelayOk, RelayCan, RelayNext;
    if steps != [] {
      NextKeeps(r, steps[0]);
      RunKeeps(RelayNext(r, steps[0]), steps[1..]);
    }
  }

  predicate IsEmpty(r: Relay) { r == Relay([], [], []) }

  /**
   * Over any ticks, additions and failures: what the broker got, repeats
   * removed, is a prefix of creation order, and every row marked published
   * was published.
   */
  lemma DeliveredInOrder(r: Relay, steps: seq<RelayStep>)
    requires IsEmpty(r) && RelayLegal(r, steps)
    ensures
      var end := RelayRun(r, steps);
      && Dedup(end.delivered) <= Range(0, |end.entries|)
      && forall i | 0 <= i < |end.entries| && end.entries[i].published :: i in end.delivered
  {
    hide RelayRun, RelayLegal;
    assert UpTo(r, 0, 0);
    RunKeeps(r, steps);
    var end := RelayRun(r, steps);
    var m: nat, seen: nat :| UpTo(end, m, seen);
    assert Range(0, seen) == Range(0, |end.entries|)[..seen];
    DedupEnds(end.delivered);
    forall i | 0 <= i < |end.entries| && end.entries[i].published ensures i in end.delivered {
      assert Range(0, seen)[i] == i;
    }
  }

  // ---- The job ----

  /** The publish-then-mark loop of one tick, as its attempts. */
  function Ticked(r: Relay, outcomes: seq<(PublishOutcome, MarkOutcome)>): Relay
    decreases |outcomes|
  {
    if r.pending == [] || outcomes == [] then r
    else Ticked(Attempted(r, outcomes[0].0, outcomes[0].1), outcomes[1..])
  }

  lemma {:induction false} TickedKeeps(r: Relay, outcomes: seq<(PublishOutcome, MarkOutcome)>)
    requires RelayOk(r)
    ensures RelayOk(Ticked(r, outcomes))
    decreases |outcomes|
  {
    hide RelayOk, Attempted;
    if r.pending != [] && outcomes != [] {
      NextKeeps(r, Attempt(outcomes[0].0, outcomes[0].1));
      TickedKeeps(Attempted(r, outcomes[0].0, outcomes[0].1), outcomes[1..]);
    }
  }

  /** The first `j` go through, publish and mark alike. */
  predicate CleanUpTo(outcomes: seq<(PublishOutcome, MarkOutcome)>, j: nat) {
    j <= |outcomes| && forall i | 0 <= i < j :: outcomes[i] == (PUBLISHED, MARKED)
  }

  /** The row of id `i` is published from now on iff it was, or is among the marked. */
  predicate MarkedExactly(before: seq<Entry>, entries: seq<Entry>, marked: seq<Id>) {
    && |entries| == |before|
    && forall i | 0 <= i < |before| :: entries[i] == Entry(before[i].createdAt, before[i].published || i in marked)
  }

  /** `end` is `r` after delivering `delivered` and marking `marked`, with nothing left to do. */
  predicate EndsWith(r: Relay, end: Relay, delivered: seq<Id>, marked: seq<Id>) {
    end.pending == [] && end.delivered == r.delivered + delivered && MarkedExactly(r.entries, end.entries, marked)
  }

  /** What a tick that first fails at its `j`-th row delivers: everything before, and that row unless it never arrived. */
  function DeliveredBy(pending: seq<Id>, outcomes: seq<(PublishOutcome, MarkOutcome)>, j: nat): seq<Id>
    requires j <= |pending| <= |outcomes|
  {
    if j < |pending| && !outcomes[j].0.NOT_DELIVERED? then pending[..j + 1] else pending[..j]
  }

  /** What it marks: everything before, and that row only if its publish went through and the mark was stored. */
  function MarkedBy(pending: seq<Id>, outcomes: seq<(PublishOutcome, MarkOutcome)>, j: nat): seq<Id>
    requires j <= |pending| <= |outcomes|
  {
    if j < |pending| && outcomes[j].0.PUBLISHED? && outcomes[j].1.MARKED_BUT_THREW? then pending[..j + 1]
    else pending[..j]
  }

  lemma StopsAtOnce(r: Relay, outcomes: seq<(PublishOutcome, MarkOutcome)>)
    requires 0 < |r.pending| <= |outcomes| && outcomes[0] != (PUBLISHED, MARKED)
    ensures EndsWith(r, Ticked(r, outcomes), DeliveredBy(r.pending, outcomes, 0), MarkedBy(r.pending, outcomes, 0))
  {
    assert r.pending[..1] == [r.pending[0]];
  }

  lemma NothingToDo(r: Relay, outcomes: seq<(PublishOutcome, MarkOutcome)>)
    requires r.pending == []
    ensures EndsWith(r, Ticked(r, outcomes), [], [])
  {
  }

  lemma GoesOn(r: Relay, end: Relay, delivered: seq<Id>, marked: seq<Id>)
    requires r.pending != [] && EndsWith(Attempted(r, PUBLISHED, MARKED), end, delivered, marked)
    ensures EndsWith(r, end, [r.pending[0]] + delivered, [r.pending[0]] + marked)
  {
  }

  /** Past a first row that went through, the same tick of the rest. */
  lemma OneFurther(pending: seq<Id>, outcomes: seq<(PublishOutcome, MarkOutcome)>, j: nat)
    requires 0 < j <= |pending| <= |outcomes| && CleanUpTo(outcomes, j)
    ensures outcomes[0] == (PUBLISHED, MARKED) && CleanUpTo(outcomes[1..], j - 1)
    ensures j < |pending| ==> outcomes[1..][j - 1] == outcomes[j]
    ensures DeliveredBy(pending, outcomes, j) == [pending[0]] + DeliveredBy(pending[1..], outcomes[1..], j - 1)
    ensures MarkedBy(pending, outcomes, j) == [pending[0]] + MarkedBy(pending[1..], outcomes[1..], j - 1)
  {
  }

  /** With nothing to do, or a failure at once. */
  lemma TickEndsHere(r: Relay, outcomes: seq<(PublishOutcome, MarkOutcome)>)
    requires |r.pending| <= |outcomes| && (r.pending != [] ==> outcomes[0] != (PUBLISHED, MARKED))
    ensures EndsWith(r, Ticked(r, outcomes), DeliveredBy(r.pending, outcomes, 0), MarkedBy(r.pending, outcomes, 0))
  {
    hide EndsWith;
    if r.pending == [] {
      NothingToDo(r, outcomes);
    } else {
      StopsAtOnce(r, outcomes);
    }
  }

  /**
   * A tick is exact: the rows before the first failure are delivered once
   * each, in order, and marked; the failing row is delivered unless its
   * publish never arrived, and marked only if its publish went through and
   * the mark was stored; nothing after it is touched.
   */
  lemma {:induction false} TickStopsAtTheFirstFailure(
    r: Relay, outcomes: seq<(PublishOutcome, MarkOutcome)>, j: nat)
    requires CleanUpTo(outcomes, j) && j <= |r.pending| <= |outcomes|
    requires j < |r.pending| ==> outcomes[j] != (PUBLISHED, MARKED)
    ensures EndsWith(r, Ticked(r, outcomes), DeliveredBy(r.pending, outcomes, j), MarkedBy(r.pending, outcomes, j))
    decreases j
  {
    hide EndsWith, MarkedExactly, DeliveredBy, MarkedBy;
    if j > 0 {
      var rest, later := r.pending[1..], outcomes[1..];
      OneFurther(r.pending, outcomes, j);
      assert Ticked(r, outcomes) == Ticked(Attempted(r, PUBLISHED, MARKED), later);
      TickStopsAtTheFirstFailure(Attempted(r, PUBLISHED, MARKED), later, j - 1);
      GoesOn(r, Ticked(r, outcomes), DeliveredBy(rest, later, j - 1), MarkedBy(rest, later, j - 1));
    } else {
      TickEndsHere(r, outcomes);
    }
  }

  class Job {
    var entries: seq<Entry>
    var delivered: seq<Id>

    function State(pending: seq<Id>): Relay
      reads this
    {
      Relay(entries, delivered, pending)
    }

    constructor ()
      ensures IsEmpty(State([]))
    {
      entries, delivered := [], [];
    }

    method Enqueue(createdAt: Instant)
      requires RelayOk(State([])) && RelayCan(State([]), Add(createdAt))
      modifies this
      ensures State([]) == RelayNext(old(State([])), Add(createdAt)) && RelayOk(State([]))
    {
      NextKeeps(State([]), Add(createdAt));
      entries := entries + [Entry(createdAt, false)];
    }

    /** One tick; `outcomes` says how each publish and each mark turns out. */
    method Tick(batchSize: nat, outcomes: seq<(PublishOutcome, MarkOutcome)>)
      requires batchSize <= |outcomes| && RelayOk(State([]))
      modifies this
      ensures State([]) == Ticked(old(State([])).(pending := FindUnpublished(old(entries), batchSize)), outcomes)
      ensures RelayOk(State([]))
    {
      hide RelayOk, FindUnpublished, Marked;
      NextKeeps(State([]), StartTick(batchSize));
      TickedKeeps(State([]).(pending := FindUnpublished(entries, batchSize)), outcomes);
      var pending := FindUnpublished(entries, batchSize);
      ghost var start := State(pending);
      var i := 0;
      while i < |pending|
        invariant 0 <= i <= |pending|
        invariant Ticked(State(pending[i..]), outcomes[i..]) == Ticked(start, outcomes)
      {
        var publish, mark := outcomes[i].0, outcomes[i].1;
        ghost var before := State(pending[i..]);
        assert outcomes[i..][1..] == outcomes[i + 1..] && pending[i..][1..] == pending[i + 1..];
        if !publish.NOT_DELIVERED? {
          delivered := delivered + [pending[i]];
        }
        if !publish.PUBLISHED? {
          assert State([]) == Attempted(before, publish, mark);
          return;
        }
        if !mark.NOT_MARKED? {
          entries := Marked(entries, pending[i]);
        }
        if !mark.MARKED? {
          assert State([]) == Attempted(before, publish, mark);
          return;
        }
        assert State(pending[i + 1..]) == Attempted(before, publish, mark);
        i := i + 1;
      }
    }
  }
}

/** cleanup-idempotency-keys.ts: completed keys go after a day, oldest first, batch by batch. */
module CleanupJob {
  import opened Basics
  import opened Counting
  import opened Ordering
  import opened Schema
  import opened Transactions
  import opened BookingDb

  /** `count` of the oldest completed keys. */
  ghost predicate Oldest(t: Tables, cutoff: Instant, locked: set<KeyId>, count: nat, picked: set<KeyId>) {
    && picked <= OldKeys(t, cutoff, locked) && |picked| == count
    && forall k, l | k in picked && l in OldKeys(t, cutoff, locked) && l !in picked ::
         t.keys[k].createdAt <= t.keys[l].createdAt
  }

  predicate AgeLess(a: (Instant, KeyId), b: (Instant, KeyId)) {
    || a.0 < b.0
    || (a.0 == b.0
        && (a.1.accountId < b.1.accountId || (a.1.accountId == b.1.accountId && a.1.key < b.1.key)))
  }

  lemma AgeOrder()
    ensures StrictTotalOrder(AgeLess)
  {
  }

  function ByAge(t: Tables, cutoff: Instant, locked: set<KeyId>): (r: set<(Instant, KeyId)>)
    ensures forall a :: a in r <==> a.1 in OldKeys(t, cutoff, locked) && a.0 == t.keys[a.1].createdAt
  {
    set k | k in OldKeys(t, cutoff, locked) :: (t.keys[k].createdAt, k)
  }

  function KeyList(aged: seq<(Instant, KeyId)>): (r: seq<KeyId>)
    ensures |r| == |aged| && forall i | 0 <= i < |r| :: r[i] == aged[i].1
  {
    seq(|aged|, i requires 0 <= i < |aged| => aged[i].1)
  }

  function KeysOf(aged: seq<(Instant, KeyId)>): set<KeyId> { Elems(KeyList(aged)) }

  /** Each key is aged once, so the sorted list names every old key exactly once. */
  lemma AgedOnce(t: Tables, cutoff: Instant, locked: set<KeyId>)
    requires StrictTotalOrder(AgeLess)
    ensures Distinct(KeyList(Sorted(ByAge(t, cutoff, locked), AgeLess)))
    ensures forall k :: k in KeyList(Sorted(ByAge(t, cutoff, locked), AgeLess)) <==> k in OldKeys(t, cutoff, locked)
    ensures |ByAge(t, cutoff, locked)| == |OldKeys(t, cutoff, locked)|
  {
    hide OldKeys;
    var all := ByAge(t, cutoff, locked);
    var aged := Sorted(all, AgeLess);
    var list := KeyList(aged);
    ListedOnce(all, aged, list);
    forall k ensures k in list <==> k in OldKeys(t, cutoff, locked) {
      if k in OldKeys(t, cutoff, locked) {
        OldKeysExist(t, cutoff, locked, k);
        assert (t.keys[k].createdAt, k) in all;
      }
    }
    DistinctIffFull(list);
    assert Elems(list) == OldKeys(t, cutoff, locked);
  }

  lemma ListedOnce(all: set<(Instant, KeyId)>, aged: seq<(Instant, KeyId)>, list: seq<KeyId>)
    requires forall a, b | a in all && b in all && a.1 == b.1 :: a == b
    requires StrictTotalOrder(AgeLess) && Increasing(aged, AgeLess) && forall a :: a in aged <==> a in all
    requires list == KeyList(aged)
    ensures Distinct(list)
    ensures forall k :: k in list <==> exists a :: a in all && a.1 == k
  {
  }

  function PickOldest(t: Tables, cutoff: Instant, locked: set<KeyId>, limit: nat): (picked: set<KeyId>)
    ensures Oldest(t, cutoff, locked, Min(|OldKeys(t, cutoff, locked)|, limit), picked)
  {
    AgeOrder();
    var aged := Sorted(ByAge(t, cutoff, locked), AgeLess);
    AgedOnce(t, cutoff, locked);
    PrefixIsOldest(t, cutoff, locked, Min(|aged|, limit));
    KeysOf(aged[..Min(|aged|, limit)])
  }

  lemma PrefixIsOldest(t: Tables, cutoff: Instant, locked: set<KeyId>, n: nat)
    requires StrictTotalOrder(AgeLess) && n <= |ByAge(t, cutoff, locked)|
    ensures Oldest(t, cutoff, locked, n, KeysOf(Sorted(ByAge(t, cutoff, locked), AgeLess)[..n]))
  {
    hide OldKeys, ByAge, Sorted, AgeLess;
    PrefixHasSize(t, cutoff, locked, n);
    var first := KeyList(Sorted(ByAge(t, cutoff, locked), AgeLess)[..n]);
    forall k, l | k in first && l in OldKeys(t, cutoff, locked) && l !in first
      ensures k in t.keys && l in t.keys && t.keys[k].createdAt <= t.keys[l].createdAt
    {
      OlderFirst(t, cutoff, locked, n, k, l);
    }
  }

  lemma PrefixHasSize(t: Tables, cutoff: Instant, locked: set<KeyId>, n: nat)
    requires StrictTotalOrder(AgeLess) && n <= |ByAge(t, cutoff, locked)|
    ensures
      var first := KeysOf(Sorted(ByAge(t, cutoff, locked), AgeLess)[..n]);
      |first| == n && first <= OldKeys(t, cutoff, locked)
  {
    hide OldKeys, ByAge, AgeLess, Distinct;
    var aged := Sorted(ByAge(t, cutoff, locked), AgeLess);
    var list, first := KeyList(aged), KeyList(aged[..n]);
    AgedOnce(t, cutoff, locked);
    assert first == list[..n];
    PrefixDistinct(list, n);
    DistinctIffFull(first);
    assert forall k | k in first :: k in list;
  }

  lemma OlderFirst(t: Tables, cutoff: Instant, locked: set<KeyId>, n: nat, k: KeyId, l: KeyId)
    requires StrictTotalOrder(AgeLess) && n <= |ByAge(t, cutoff, locked)|
    requires k in KeyList(Sorted(ByAge(t, cutoff, locked), AgeLess)[..n])
    requires l in OldKeys(t, cutoff, locked) && l !in KeyList(Sorted(ByAge(t, cutoff, locked), AgeLess)[..n])
    ensures k in t.keys && l in t.keys && t.keys[k].createdAt <= t.keys[l].createdAt
  {
    var all := ByAge(t, cutoff, locked);
    var aged := Sorted(all, AgeLess);
    Cut(aged, n, AgeLess);
    var i :| 0 <= i < n && KeyList(aged[..n])[i] == k;
    assert aged[i] in all && aged[i] in aged[..n];
    var young := (t.keys[l].createdAt, l);
    Listed(aged[..n], young);
    assert young in all && young in aged[n..];
  }

  lemma Listed(aged: seq<(Instant, KeyId)>, a: (Instant, KeyId))
    ensures a in aged ==> a.1 in KeyList(aged)
  {
  }

  lemma OldKeysExist(t: Tables, cutoff: Instant, locked: set<KeyId>, k: KeyId)
    requires k in OldKeys(t, cutoff, locked)
    ensures k in t.keys
  {
  }

  /** `locked`: the keys another transaction has locked; SKIP LOCKED passes over them. */
  method DeleteCompletedBefore(db: Database, cutoff: Instant, limit: nat, locked: set<KeyId>)
    returns (deleted: nat, ghost picked: set<KeyId>)
    modifies db`keys
    ensures deleted == Min(|OldKeys(old(db.Contents()), cutoff, locked)|, limit)
    ensures Oldest(old(db.Contents()), cutoff, locked, deleted, picked)
    ensures db.Contents() == DeleteKeys(old(db.Contents()), picked)
  {
    var gone := PickOldest(db.Contents(), cutoff, locked, limit);
    db.keys := DeleteKeys(db.Contents(), gone).keys;
    return |gone|, gone;
  }

  /** The oldest of what the oldest left behind, together with them, are the oldest. */
  lemma OldestThenOldest(
    t: Tables, cutoff: Instant, locked: set<KeyId>, n: nat, gone: set<KeyId>, count: nat, picked: set<KeyId>)
    requires Oldest(t, cutoff, locked, n, gone) && Oldest(DeleteKeys(t, gone), cutoff, locked, count, picked)
    ensures OldKeys(DeleteKeys(t, gone), cutoff, locked) == OldKeys(t, cutoff, locked) - gone
    ensures Oldest(t, cutoff, locked, n + count, gone + picked)
  {
    var rest := DeleteKeys(t, gone);
    assert OldKeys(rest, cutoff, locked) == OldKeys(t, cutoff, locked) - gone;
    assert gone !! picked;
  }

  lemma DeleteThenDelete(t: Tables, cutoff: Instant, locked: set<KeyId>, gone: set<KeyId>, count: nat, picked: set<KeyId>)
    requires gone <= OldKeys(t, cutoff, {}) && Oldest(DeleteKeys(t, gone), cutoff, locked, count, picked)
    ensures DeleteKeys(DeleteKeys(t, gone), picked) == DeleteKeys(t, gone + picked)
    ensures gone + picked <= OldKeys(t, cutoff, {}) && |gone + picked| == |gone| + count
  {
    assert gone !! picked;
    assert DeleteKeys(DeleteKeys(t, gone), picked).keys == DeleteKeys(t, gone + picked).keys;
  }

  /** A batch that came back short took every old key it was not made to skip. */
  lemma ShortBatchTookAll(t: Tables, cutoff: Instant, locked: set<KeyId>, count: nat, picked: set<KeyId>)
    requires Oldest(t, cutoff, locked, count, picked) && count == |OldKeys(t, cutoff, locked)|
    ensures OldKeys(DeleteKeys(t, picked), cutoff, {}) <= locked
  {
    SubsetSizes(picked, OldKeys(t, cutoff, locked));
    assert forall k | k in OldKeys(DeleteKeys(t, picked), cutoff, {}) && k !in locked :: k in OldKeys(t, cutoff, locked);
  }

  /** A key may go once it is completed and more than a day old. */
  lemma OldIff(t: Tables, now: Instant)
    ensures forall k :: k in OldKeys(t, now - IDEMPOTENCY_KEY_RETENTION_MS, {}) <==>
      k in t.keys && t.keys[k].status.COMPLETED? && t.keys[k].createdAt + 86400000 < now
  {
  }

  predicate AllAre(locks: seq<set<KeyId>>, locked: set<KeyId>) { forall i | 0 <= i < |locks| :: locks[i] == locked }

  /**
   * One run, `locks[i]` being the keys its i-th batch has to skip: only
   * completed keys created before the cutoff go, each batch the oldest it
   * may; a run that ends early leaves only keys its last batch had to skip;
   * and when every batch skips the same keys, exactly the oldest of the
   * others go.
   */
  method Cleanup(
    db: Database, now: Instant, batchSize: nat, maxBatches: nat, locks: seq<set<KeyId>>, ghost locked: set<KeyId>)
    returns (deleted: nat, batches: nat, exhausted: bool, ghost gone: set<KeyId>)
    requires 1 <= batchSize && |locks| == maxBatches
    modifies db`keys
    ensures
      var t, cutoff := old(db.Contents()), now - IDEMPOTENCY_KEY_RETENTION_MS;
      && db.Contents() == DeleteKeys(t, gone)
      && gone <= OldKeys(t, cutoff, {}) && |gone| == deleted
      && (forall k | k in gone :: k in t.keys && t.keys[k].status.COMPLETED? && t.keys[k].createdAt + 86400000 < now)
      && (exhausted <==> deleted == batchSize * maxBatches)
      && (!exhausted ==> 1 <= batches <= maxBatches && OldKeys(db.Contents(), cutoff, {}) <= locks[batches - 1])
      && (!exhausted ==> forall k | k in db.keys && k !in locks[batches - 1] ::
            db.keys[k].status.IN_PROGRESS? || db.keys[k].createdAt + 86400000 >= now)
      && (AllAre(locks, locked) ==>
            Oldest(t, cutoff, locked, deleted, gone) && deleted == Min(|OldKeys(t, cutoff, locked)|, batchSize * maxBatches))
    ensures batches <= maxBatches && deleted <= batchSize * batches
  {
    hide OldKeys, DeleteKeys;
    var cutoff := now - IDEMPOTENCY_KEY_RETENTION_MS;
    ghost var t := db.Contents();
    deleted, batches, gone := 0, 0, {};
    DeleteNone(t);
    OldIff(t, now);
    while batches < maxBatches
      invariant batches <= maxBatches && deleted == batchSize * batches
      invariant gone <= OldKeys(t, cutoff, {}) && |gone| == deleted && db.Contents() == DeleteKeys(t, gone)
      invariant AllAre(locks, locked) ==> Oldest(t, cutoff, locked, deleted, gone)
    {
      var count;
      ghost var picked;
      ghost var before := db.Contents();
      count, picked := DeleteCompletedBefore(db, cutoff, batchSize, locks[batches]);
      DeleteThenDelete(t, cutoff, locks[batches], gone, count, picked);
      if AllAre(locks, locked) {
        OldestThenOldest(t, cutoff, locked, deleted, gone, count, picked);
        SizesAfter(t, cutoff, locked, gone, before);
      }
      deleted, batches, gone := deleted + count, batches + 1, gone + picked;
      assert batchSize * batches == batchSize * (batches - 1) + batchSize;
      if count < batchSize {
        ProductGrows(batchSize, batches, maxBatches);
        ShortBatchTookAll(before, cutoff, locks[batches - 1], count, picked);
        OldIff(db.Contents(), now);
        return deleted, batches, false, gone;
      }
    }
    if AllAre(locks, locked) {
      SubsetSizes(gone, OldKeys(t, cutoff, locked));
    }
    return deleted, batches, true, gone;
  }

  lemma SizesAfter(t: Tables, cutoff: Instant, locked: set<KeyId>, gone: set<KeyId>, before: Tables)
    requires before == DeleteKeys(t, gone) && gone <= OldKeys(t, cutoff, locked)
    ensures |OldKeys(before, cutoff, locked)| == |OldKeys(t, cutoff, locked)| - |gone|
  {
    assert OldKeys(before, cutoff, locked) == OldKeys(t, cutoff, locked) - gone;
  }

  lemma DeleteNone(t: Tables)
    ensures DeleteKeys(t, {}) == t
  {
  }
}

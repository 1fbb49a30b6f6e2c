/** postgres-payment-repository.ts and postgres-idempotency-repository.ts: conditional updates of one row. */
module PaymentRepository {
  import opened Basics
  import opened Ordering
  import opened Schema
  import opened Transactions
  import opened BookingDb

  function NotIn(from: PaymentStatus): string {
    if from.PROCESSING? then "payment is not PROCESSING" else "payment is not REFUND_PENDING"
  }

  /** The conditional update; a row that is not `from` throws. */
  method MoveTo(
    db: Database, id: Id, from: PaymentStatus, to: PaymentStatus, now: Instant,
    reference: Option<string>, reason: Option<string>)
    returns (r: Result<()>)
    modifies db`payments
    ensures
      var t := old(db.Contents());
      r == (if !HasStatus(t, id, from) then Err(NotIn(from))
            else if to.SUCCEEDED? && PaidAlready(t, id) then Err("UQ_payments_booking_succeeded")
            else Ok(()))
    ensures db.payments ==
      if r.Ok? then old(db.payments)[id := Transition(old(db.payments)[id], to, now, reference, reason)]
      else old(db.payments)
  {
    if !HasStatus(db.Contents(), id, from) {
      return Err(NotIn(from));
    }
    if to.SUCCEEDED? && PaidAlready(db.Contents(), id) {
      return Err("UQ_payments_booking_succeeded");
    }
    db.payments := db.payments[id := Transition(db.payments[id], to, now, reference, reason)];
    return Ok(());
  }

  datatype StartResult = PaymentStarted | AlreadyRunning

  /** ON CONFLICT names the PROCESSING index only; any other conflict raises. */
  method Start(db: Database, id: Id, payment: Payment) returns (r: Result<StartResult>)
    requires payment.status.PROCESSING?
    modifies db`payments
    ensures
      var t := old(db.Contents());
      r == (if PaymentRunning(t, payment.bookingId) then Ok(AlreadyRunning)
            else if id in t.payments || payment.bookingId !in t.bookings || payment.amount == 0 then
              Err("payments constraint")
            else Ok(PaymentStarted))
    ensures db.payments ==
      if r == Ok(PaymentStarted) then old(db.payments)[id := payment] else old(db.payments)
  {
    if PaymentRunning(db.Contents(), payment.bookingId) {
      return Ok(AlreadyRunning);
    }
    if id in db.payments || payment.bookingId !in db.bookings || payment.amount == 0 {
      return Err("payments constraint");
    }
    db.payments := db.payments[id := payment];
    return Ok(PaymentStarted);
  }

  predicate MayBeClaimed(t: Tables, id: Id, now: Instant, locked: set<Id>) {
    && id in t.payments && id !in locked && NeedsReconciling(t.payments[id].status)
    && t.payments[id].nextAttemptAt.Some? && t.payments[id].nextAttemptAt.value <= now
  }

  function ClaimAt(t: Tables, id: Id): (Instant, Id) {
    (if id in t.payments && t.payments[id].nextAttemptAt.Some? then t.payments[id].nextAttemptAt.value else 0, id)
  }

  /** As many due payments as the limit allows, and every other one is due later. */
  lemma ClaimedAreFirst(t: Tables, now: Instant, limit: nat, locked: set<Id>)
    ensures |ClaimedIds(t, now, limit, locked)| == Min(|DuePayments(t, now, locked)|, limit)
    ensures forall p | p in ClaimedIds(t, now, limit, locked) :: MayBeClaimed(t, p, now, locked)
    ensures forall p, q | p in ClaimedIds(t, now, limit, locked) && MayBeClaimed(t, q, now, locked)
                          && q !in ClaimedIds(t, now, limit, locked) :: DueLess(ClaimAt(t, p), ClaimAt(t, q))
  {
    hide FirstIds, SortedDue;
    var due, ids := SortedDue(DuePayments(t, now, locked)), ClaimedIds(t, now, limit, locked);
    FirstIdsAreFirst(DuePayments(t, now, locked), limit);
    forall p | p in ids ensures MayBeClaimed(t, p, now, locked) {
      var i :| 0 <= i < |ids| && ids[i] == p;
      assert due[i] in DuePayments(t, now, locked);
    }
    forall p, q | p in ids && MayBeClaimed(t, q, now, locked) && q !in ids
      ensures DueLess(ClaimAt(t, p), ClaimAt(t, q))
    {
      var i :| 0 <= i < |ids| && ids[i] == p;
      assert due[i] in DuePayments(t, now, locked) && due[i] == ClaimAt(t, p);
      assert ClaimAt(t, q) in DuePayments(t, now, locked);
    }
  }

  /** The lease: the first due rows, and no other, move to `now + leaseMs` with one more attempt; they come back in id order. */
  method ClaimDuePayments(db: Database, now: Instant, leaseMs: int, limit: nat, locked: set<Id>)
    returns (claimed: seq<Id>)
    modifies db`payments
    ensures db.Contents() == ClaimDue(old(db.Contents()), now, leaseMs, limit, locked)
    ensures Increasing(claimed, IdLess)
    ensures forall p :: p in claimed <==> p in ClaimedIds(old(db.Contents()), now, limit, locked)
    ensures
      var t := old(db.Contents());
      && (forall p | p in claimed :: MayBeClaimed(t, p, now, locked) && db.payments[p] == Leased(t.payments[p], now + leaseMs))
      && (forall p | p in t.payments && p !in claimed :: db.payments[p] == t.payments[p])
      && (forall p, q | p in claimed && MayBeClaimed(t, q, now, locked) && q !in claimed ::
            DueLess(ClaimAt(t, p), ClaimAt(t, q)))
  {
    hide ClaimedIds;
    ClaimedAreFirst(db.Contents(), now, limit, locked);
    var ids := ClaimedIds(db.Contents(), now, limit, locked);
    db.payments := ClaimDue(db.Contents(), now, leaseMs, limit, locked).payments;
    IdOrder();
    return Sorted((set p | p in ids), IdLess);
  }

  method RescheduleTo(db: Database, id: Id, status: PaymentStatus, at: Instant) returns (r: Result<()>)
    modifies db`payments
    ensures Outcome(db.Contents(), r) == Reschedule(old(db.Contents()), id, status, at)
  {
    if !HasStatus(db.Contents(), id, status) {
      return Err("payment cannot be rescheduled");
    }
    db.payments := db.payments[id := db.payments[id].(nextAttemptAt := Some(at))];
    return Ok(());
  }

  // ---- Idempotency keys ----

  datatype ClaimResult =
    | Claimed
    | InProgress(fingerprint: string)
    | AlreadyCompleted(fingerprint: string, response: StoredResponse)

  const MAX_CLAIM_ATTEMPTS := 3

  function RowAt(keys: map<KeyId, KeyRow>, k: KeyId): Option<KeyRow> { if k in keys then Some(keys[k]) else None }

  /** What one attempt's two statements find under the key while other requests claim, complete and release it. */
  datatype Sight = Sight(atInsert: Option<KeyRow>, atSelect: Option<KeyRow>)

  /** The first definite finding: free for the insert, or a row for the select; None when there is none. */
  function Finding(sights: seq<Sight>): Option<Option<KeyRow>> {
    if sights == [] then None
    else if sights[0].atInsert.None? then Some(None)
    else if sights[0].atSelect.Some? then Some(sights[0].atSelect)
    else Finding(sights[1..])
  }

  /** A claim gives up exactly when the key was taken at every insert and gone again at every select. */
  lemma {:induction false} NoFindingIff(sights: seq<Sight>)
    ensures Finding(sights).None?
      <==> forall i | 0 <= i < |sights| :: sights[i].atInsert.Some? && sights[i].atSelect.None?
  {
    if sights != [] {
      NoFindingIff(sights[1..]);
      assert forall i | 1 <= i < |sights| :: sights[i] == sights[1..][i - 1];
      assert forall i | 0 <= i < |sights[1..]| :: sights[1..][i] == sights[i + 1];
    }
  }

  /** When nobody else touches the key, the first attempt decides. */
  function Undisturbed(keys: map<KeyId, KeyRow>, k: KeyId): (sights: seq<Sight>)
    ensures |sights| == MAX_CLAIM_ATTEMPTS && Finding(sights) == Some(RowAt(keys, k))
  {
    var sight := Sight(RowAt(keys, k), RowAt(keys, k));
    [sight, sight, sight]
  }

  /** What the claim finds is what the table holds when it finds it. */
  predicate SightsFit(keys: map<KeyId, KeyRow>, k: KeyId, sights: seq<Sight>) {
    |sights| == 3 && (Finding(sights).Some? ==> Finding(sights).value == RowAt(keys, k))
  }

  /** INSERT ... ON CONFLICT DO NOTHING, then SELECT; released in between, it starts over, three times at most. */
  method ClaimKey(db: Database, k: KeyId, fingerprint: string, now: Instant, sights: seq<Sight>)
    returns (r: Result<ClaimResult>)
    requires SightsFit(db.keys, k, sights)
    modifies db`keys
    ensures
      var keys := old(db.keys);
      if Finding(sights).None? then r == Err("key could not be claimed") && db.keys == keys
      else if k !in keys then
        r == Ok(Claimed) && db.keys == keys[k := KeyRow(fingerprint, IN_PROGRESS, None, None, now, None)]
      else
        && db.keys == keys
        && r == (if keys[k].status.IN_PROGRESS? then Ok(InProgress(keys[k].fingerprint))
                 else if keys[k].response.None? then Err("completed key has no response")
                 else Ok(AlreadyCompleted(keys[k].fingerprint, keys[k].response.value)))
  {
    var attempt := 0;
    while attempt < MAX_CLAIM_ATTEMPTS
      invariant 0 <= attempt <= MAX_CLAIM_ATTEMPTS
      invariant Finding(sights) == Finding(sights[attempt..])
      invariant db.keys == old(db.keys)
    {
      var sight := sights[attempt];
      if sight.atInsert.None? {
        db.keys := db.keys[k := KeyRow(fingerprint, IN_PROGRESS, None, None, now, None)];
        return Ok(Claimed);
      }
      if sight.atSelect.Some? {
        var row := sight.atSelect.value;
        if row.status.IN_PROGRESS? {
          return Ok(InProgress(row.fingerprint));
        }
        if row.response.None? {
          return Err("completed key has no response");
        }
        return Ok(AlreadyCompleted(row.fingerprint, row.response.value));
      }
      assert sights[attempt..][1..] == sights[attempt + 1..];
      attempt := attempt + 1;
    }
    return Err("key could not be claimed");
  }

  method AttachPayment(db: Database, k: KeyId, paymentId: Id) returns (r: Result<()>)
    modifies db`keys
    ensures r.Ok? <==> k in old(db.keys) && old(db.keys)[k].status.IN_PROGRESS?
    ensures db.keys ==
      if r.Ok? then old(db.keys)[k := old(db.keys)[k].(paymentId := Some(paymentId))] else old(db.keys)
  {
    if k !in db.keys || !db.keys[k].status.IN_PROGRESS? {
      return Err("key is not in progress");
    }
    db.keys := db.keys[k := db.keys[k].(paymentId := Some(paymentId))];
    return Ok(());
  }

  method Complete(db: Database, k: KeyId, response: StoredResponse, now: Instant) returns (r: Result<()>)
    modifies db`keys
    ensures r.Ok? <==> k in old(db.keys) && old(db.keys)[k].status.IN_PROGRESS?
    ensures db.keys ==
      if r.Ok? then old(db.keys)[k := Completed(old(db.keys)[k], response, now)] else old(db.keys)
  {
    if k !in db.keys || !db.keys[k].status.IN_PROGRESS? {
      return Err("key is not in progress");
    }
    db.keys := db.keys[k := Completed(db.keys[k], response, now)];
    return Ok(());
  }

  /** The job knows only the payment: exactly one open key must name it. */
  method CompleteForPayment(db: Database, paymentId: Id, response: StoredResponse, now: Instant)
    returns (r: Result<()>)
    modifies db`keys
    ensures r == if |OpenKeysOf(old(db.Contents()), paymentId)| == 1 then Ok(()) else Err("key is not in progress")
    ensures db.keys == CompleteKeys(old(db.keys), OpenKeysOf(old(db.Contents()), paymentId), response, now)
  {
    var open := OpenKeysOf(db.Contents(), paymentId);
    db.keys := CompleteKeys(db.keys, open, response, now);
    if |open| != 1 {
      return Err("key is not in progress");
    }
    return Ok(());
  }

  /** Only an IN_PROGRESS key is released. */
  method ReleaseKey(db: Database, k: KeyId)
    modifies db`keys
    ensures db.keys ==
      if k in old(db.keys) && old(db.keys)[k].status.IN_PROGRESS? then old(db.keys) - {k} else old(db.keys)
  {
    if k in db.keys && db.keys[k].status.IN_PROGRESS? {
      db.keys := db.keys - {k};
    }
  }
}

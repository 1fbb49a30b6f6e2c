/** The audit log tells what the events tell, and every payment's whole story. */
module AuditTrail {
  import opened Basics
  import opened Ordering
  import opened Schema
  import opened Lifecycle
  import opened Transactions
  import opened Invariants
  import opened Runs
  import opened Histories
  import opened MoneySafety
  import opened Theorems

  // ---- Bookings: one audit entry and one event each ----

  /** One turn in a booking's life, as audit and event both tell it. */
  datatype Turn =
    | CreatedTurn(bookingId: Id, total: nat, at: Instant)
    | ConfirmedTurn(bookingId: Id, paymentId: Id, amount: nat, at: Instant)
    | CancelledTurn(bookingId: Id, refunded: Option<Id>, at: Instant)
    | ExpiredTurn(bookingId: Id, seats: seq<SeatPosition>, at: Instant)

  function TurnOfEntry(e: AuditEntry): seq<Turn> {
    match e.action
    case BOOKING_CREATED(total) => [CreatedTurn(e.target, total, e.occurredAt)]
    case BOOKING_CONFIRMED(p, amount) => [ConfirmedTurn(e.target, p, amount, e.occurredAt)]
    case BOOKING_CANCELLED(refunded) => [CancelledTurn(e.target, refunded, e.occurredAt)]
    case BOOKING_EXPIRED(seats) => [ExpiredTurn(e.target, seats, e.occurredAt)]
    case _ => []
  }

  function TurnOfEvent(r: OutboxRow): Turn {
    match r.event
    case BookingHeld(b, _, total) => CreatedTurn(b, total, r.createdAt)
    case BookingConfirmed(b, _, _, p, amount) => ConfirmedTurn(b, p, amount, r.createdAt)
    case BookingCancelled(b, _, refund) =>
      CancelledTurn(b, if refund.Some? then Some(refund.value.paymentId) else None, r.createdAt)
    case BookingExpired(b, seats) => ExpiredTurn(b, seats, r.createdAt)
  }

  function Audited(audit: seq<AuditEntry>): seq<Turn> {
    if audit == [] then [] else Audited(audit[..|audit| - 1]) + TurnOfEntry(audit[|audit| - 1])
  }

  function Announced(outbox: seq<OutboxRow>): seq<Turn> {
    if outbox == [] then [] else Announced(outbox[..|outbox| - 1]) + [TurnOfEvent(outbox[|outbox| - 1])]
  }

  lemma AuditedAppend(audit: seq<AuditEntry>, e: AuditEntry)
    ensures Audited(audit + [e]) == Audited(audit) + TurnOfEntry(e)
  {
    assert (audit + [e])[..|audit|] == audit;
  }

  lemma AnnouncedAppend(outbox: seq<OutboxRow>, r: OutboxRow)
    ensures Announced(outbox + [r]) == Announced(outbox) + [TurnOfEvent(r)]
  {
    assert (outbox + [r])[..|outbox|] == outbox;
  }

  /** The log and the outbox tell the same turns, in the same order, at the same times. */
  ghost predicate ToldAlike(t: Tables) { Audited(t.audit) == Announced(t.outbox) }

  lemma OneTurn(t: Tables, t': Tables, e: AuditEntry, r: OutboxRow)
    requires ToldAlike(t) && t'.audit == t.audit + [e] && t'.outbox == t.outbox + [r]
    requires TurnOfEntry(e) == [TurnOfEvent(r)]
    ensures ToldAlike(t')
  {
    AuditedAppend(t.audit, e);
    AnnouncedAppend(t.outbox, r);
  }

  lemma NoTurn(t: Tables, t': Tables, e: AuditEntry)
    requires ToldAlike(t) && t'.audit == t.audit + [e] && t'.outbox == t.outbox && TurnOfEntry(e) == []
    ensures ToldAlike(t')
  {
    AuditedAppend(t.audit, e);
  }

  lemma CreateTells(t: Tables, r: CreateRequest, now: Instant)
    requires ToldAlike(t)
    ensures ToldAlike(CreateBooking(t, r, now).db)
  {
    hide ToldAlike, TakenSeats, Refusal, FreeReference, Hold, Passengers, Total, AllPriced, ValidInput;
    var o := CreateBooking(t, r, now);
    if o.db != t {
      OneTurn(t, o.db, o.db.audit[|t.audit|], o.db.outbox[|t.outbox|]);
    }
  }

  lemma CancelTells(t: Tables, id: Id, scope: Scope, actor: Id, now: Instant)
    requires ToldAlike(t)
    ensures ToldAlike(Cancel(t, id, scope, actor, now).db)
  {
    hide ToldAlike, SeatCodes, RefundOf, RefundsDue, ClassifyNotCancelled, Release, Cancellable;
    var db := Cancel(t, id, scope, actor, now).db;
    if Cancellable(t, id, scope, now) {
      var refund := RefundOf(t, id);
      var entries := CancelAudit(id, refund, actor, now);
      var between := db.(audit := t.audit + [entries[0]]);
      OneTurn(t, between, entries[0], db.outbox[|t.outbox|]);
      if refund.Some? {
        assert db.audit == between.audit + [entries[1]];
        NoTurn(between, db, entries[1]);
      } else {
        assert db.audit == between.audit;
        SameLogs(between, db);
      }
    }
  }

  lemma SameLogs(t: Tables, t': Tables)
    requires ToldAlike(t) && t'.audit == t.audit && t'.outbox == t.outbox
    ensures ToldAlike(t')
  {
  }

  lemma ChangeSeatTells(t: Tables, id: Id, position: nat, target: SeatPosition, scope: Scope, actor: Id, now: Instant)
    requires ToldAlike(t)
    ensures ToldAlike(ChangeSeat(t, id, position, target, scope, actor, now).db)
  {
    hide ToldAlike, ChangeSeatVerdict;
    var db := ChangeSeat(t, id, position, target, scope, actor, now).db;
    if db != t && ChangeSeatVerdict(t, id, position, target, scope, now).Ok? {
      ChangeSeatWrites(t, id, position, target, scope, actor, now);
      NoTurn(t, db, db.audit[|t.audit|]);
    }
  }

  lemma ChangeSeatWrites(t: Tables, id: Id, position: nat, target: SeatPosition, scope: Scope, actor: Id, now: Instant)
    ensures
      var db := ChangeSeat(t, id, position, target, scope, actor, now).db;
      && db.outbox == t.outbox
      && (db != t ==>
            |db.audit| == |t.audit| + 1 && db.audit[..|t.audit|] == t.audit
            && db.audit[|t.audit|].action.BOOKING_SEAT_CHANGED? && db.audit == t.audit + [db.audit[|t.audit|]])
  {
    hide IsBookable, Released, Reseated;
  }

  lemma {:induction false} ExpireAllTells(t: Tables, ids: seq<Id>, now: Instant)
    requires ToldAlike(t) && forall i | 0 <= i < |ids| :: ids[i] in t.bookings
    ensures ToldAlike(ExpireAll(t, ids, now))
    decreases |ids|
  {
    hide ToldAlike, SeatCodes, Release, SeatsOf;
    if ids != [] {
      var last := |ids| - 1;
      var before := ExpireAll(t, ids[..last], now);
      ExpireAllTells(t, ids[..last], now);
      var db := ExpireOne(before, ids[last], now);
      OneTurn(before, db, db.audit[|before.audit|], db.outbox[|before.outbox|]);
    }
  }

  lemma ExpiryTells(t: Tables, now: Instant, limit: nat, locked: set<Id>)
    requires ToldAlike(t)
    ensures ToldAlike(ExpireBatch(t, now, limit, locked))
  {
    hide ToldAlike, ExpiredIds, ExpireAll;
    DueHoldsExist(t, now, limit, locked);
    ExpireAllTells(t, ExpiredIds(t, now, limit, locked), now);
  }

  lemma ChargedTells(t: Tables, id: Id, p: Payment, reference: string, actor: Actor, now: Instant)
    requires ToldAlike(t)
    ensures ToldAlike(Charged(t, id, p, reference, actor, now).db)
  {
    hide ToldAlike, Confirmable, Book, SeatsOf, CompleteKeys, OpenKeysOf, Total, PaidAlready, ConfirmedResponse,
         NotPayable;
    var o := Charged(t, id, p, reference, actor, now);
    if o.result.Ok? {
      if Confirmable(t, p.bookingId, Owner(p.accountId), now) {
        OneTurn(t, o.db, o.db.audit[|t.audit|], o.db.outbox[|t.outbox|]);
      } else {
        NoTurn(t, o.db, o.db.audit[|t.audit|]);
      }
    }
  }

  lemma DeclinedTells(t: Tables, id: Id, reason: string, actor: Actor, now: Instant)
    requires ToldAlike(t)
    ensures ToldAlike(Declined(t, id, reason, actor, now).db)
  {
    hide ToldAlike, CompleteKeys, OpenKeysOf;
    var o := Declined(t, id, reason, actor, now);
    if o.result.Ok? { NoTurn(t, o.db, o.db.audit[|t.audit|]); }
  }

  lemma RefundTells(t: Tables, id: Id, failure: Option<string>, now: Instant)
    requires ToldAlike(t)
    ensures ToldAlike(RecordRefund(t, id, failure, now).db)
  {
    hide ToldAlike;
    var o := RecordRefund(t, id, failure, now);
    if o.result.Ok? { NoTurn(t, o.db, o.db.audit[|t.audit|]); }
  }

  lemma StartTellsNothing(t: Tables, read: Option<Booking>, r: PayRequest, now: Instant, after: int)
    ensures StartPayment(t, read, r, now, after).db.audit == t.audit
    ensures StartPayment(t, read, r, now, after).db.outbox == t.outbox
  {
    hide Total, CanStartPayment, HoldIsValid;
  }

  lemma EveryStepTells(t: Tables, x: Txn)
    requires ToldAlike(t)
    ensures ToldAlike(Apply(t, x))
  {
    hide ToldAlike, CreateBooking, Cancel, ChangeSeat, ExpireBatch, Charged, Declined, StartPayment, ClaimedIds,
         RecordRefund;
    match x
    case DoCreate(r, now) => CreateTells(t, r, now);
    case DoCancel(id, scope, actor, now) => CancelTells(t, id, scope, actor, now);
    case DoChangeSeat(id, position, target, scope, actor, now) =>
      ChangeSeatTells(t, id, position, target, scope, actor, now);
    case DoExpire(now, limit, locked) => ExpiryTells(t, now, limit, locked);
    case DoCharged(id, p, reference, actor, now) => ChargedTells(t, id, p, reference, actor, now);
    case DoDeclined(id, reason, actor, now) => DeclinedTells(t, id, reason, actor, now);
    case DoRecordRefund(id, failure, now) => RefundTells(t, id, failure, now);
    case DoStart(read, r, now, after) =>
      StartTellsNothing(t, read, r, now, after);
      SameLogs(t, Apply(t, x));
    case _ => SameLogs(t, Apply(t, x));
  }

  lemma {:induction false} RunTellsAlike(t: Tables, xs: seq<Txn>)
    requires ToldAlike(t)
    ensures ToldAlike(Run(t, xs))
    decreases |xs|
  {
    hide ToldAlike, Apply;
    if xs != [] {
      EveryStepTells(t, xs[0]);
      RunTellsAlike(Apply(t, xs[0]), xs[1..]);
    }
  }

  /**
   * In every reachable state the audit log and the outbox tell the same
   * creations, confirmations and ends in the same order, with the same
   * totals and payments and, for an expiry, the same seats: one entry and one
   * event each, committed together or not at all.
   */
  lemma AuditMirrorsEvents(run: seq<Action>)
    requires LegalRun(START, run)
    ensures Audited(RunAll(START, run).db.audit) == Announced(RunAll(START, run).db.outbox)
  {
    hide RunAll, LegalRun, Run, Legal;
    ProtocolRunsAreTxnRuns(run);
    RunTellsAlike(EMPTY, CommitsOf(run));
  }

  // ---- Payments: the whole story ----

  datatype PaymentTurn = DECLINED_TURN | PENDING_TURN | REFUNDED_TURN | GIVEN_UP_TURN

  function PaymentTurnOf(e: AuditEntry, p: Id): seq<PaymentTurn> {
    if e.target != p then []
    else match e.action
      case PAYMENT_FAILED(_) => [DECLINED_TURN]
      case PAYMENT_REFUND_PENDING => [PENDING_TURN]
      case PAYMENT_REFUNDED => [REFUNDED_TURN]
      case PAYMENT_REFUND_FAILED(_) => [GIVEN_UP_TURN]
      case _ => []
  }

  function Story(audit: seq<AuditEntry>, p: Id): seq<PaymentTurn> {
    if audit == [] then [] else Story(audit[..|audit| - 1], p) + PaymentTurnOf(audit[|audit| - 1], p)
  }

  /** What a payment in this status has been through. */
  function StoryOf(status: PaymentStatus): seq<PaymentTurn> {
    match status
    case PROCESSING => []
    case SUCCEEDED => []
    case FAILED => [DECLINED_TURN]
    case REFUND_PENDING => [PENDING_TURN]
    case REFUNDED => [PENDING_TURN, REFUNDED_TURN]
    case REFUND_FAILED => [PENDING_TURN, GIVEN_UP_TURN]
  }

  function Expected(payments: map<Id, Payment>, p: Id): seq<PaymentTurn> {
    if p in payments then StoryOf(payments[p].status) else []
  }

  ghost predicate StoriesTold(t: Tables) { forall p: Id :: Story(t.audit, p) == Expected(t.payments, p) }

  lemma StoryAppend(audit: seq<AuditEntry>, e: AuditEntry, p: Id)
    ensures Story(audit + [e], p) == Story(audit, p) + PaymentTurnOf(e, p)
  {
    assert (audit + [e])[..|audit|] == audit;
  }

  /** One more entry that says exactly what changed. */
  lemma StoryGoesOn(t: Tables, t': Tables, e: AuditEntry)
    requires StoriesTold(t) && t'.audit == t.audit + [e]
    requires forall p: Id :: Expected(t'.payments, p) == Expected(t.payments, p) + PaymentTurnOf(e, p)
    ensures StoriesTold(t')
  {
    forall p: Id ensures Story(t'.audit, p) == Expected(t'.payments, p) {
      StoryAppend(t.audit, e, p);
    }
  }

  /** An entry about a booking, and payments that stay in their status. */
  lemma StoryStays(t: Tables, t': Tables)
    requires StoriesTold(t)
    requires t'.audit == t.audit
          || (|t'.audit| == |t.audit| + 1 && t'.audit == t.audit + [t'.audit[|t.audit|]]
              && forall p: Id :: PaymentTurnOf(t'.audit[|t.audit|], p) == [])
    requires forall p: Id :: Expected(t'.payments, p) == Expected(t.payments, p)
    ensures StoriesTold(t')
  {
    hide PaymentTurnOf, StoryOf;
    forall p: Id ensures Story(t'.audit, p) == Expected(t'.payments, p) {
      if t'.audit != t.audit { StoryAppend(t.audit, t'.audit[|t.audit|], p); }
    }
  }

  lemma {:induction false} ExpireAllStories(t: Tables, ids: seq<Id>, now: Instant)
    requires StoriesTold(t) && forall i | 0 <= i < |ids| :: ids[i] in t.bookings
    ensures StoriesTold(ExpireAll(t, ids, now))
    decreases |ids|
  {
    hide StoriesTold, SeatCodes, Release, SeatsOf, StoryOf;
    if ids != [] {
      var before := ExpireAll(t, ids[..|ids| - 1], now);
      ExpireAllStories(t, ids[..|ids| - 1], now);
      StoryStays(before, ExpireOne(before, ids[|ids| - 1], now));
    }
  }

  lemma BookingStories(t: Tables, x: Txn)
    requires StoriesTold(t) && (x.DoCreate? || x.DoChangeSeat? || x.DoExpire?)
    ensures StoriesTold(Apply(t, x))
  {
    hide StoriesTold, CreateBooking, ChangeSeat, ExpiredIds, ExpireAll, StoryOf;
    match x
    case DoCreate(r, now) =>
      CreateWrites(t, r, now);
      StoryStays(t, CreateBooking(t, r, now).db);
    case DoChangeSeat(id, position, target, scope, actor, now) =>
      ChangeSeatWrites(t, id, position, target, scope, actor, now);
      ChangeSeatLeavesPayments(t, id, position, target, scope, actor, now);
      StoryStays(t, ChangeSeat(t, id, position, target, scope, actor, now).db);
    case DoExpire(now, limit, locked) =>
      DueHoldsExist(t, now, limit, locked);
      ExpireAllStories(t, ExpiredIds(t, now, limit, locked), now);
  }

  lemma CreateWrites(t: Tables, r: CreateRequest, now: Instant)
    ensures
      var db := CreateBooking(t, r, now).db;
      && db.payments == t.payments
      && (db.audit != t.audit ==>
            |db.audit| == |t.audit| + 1 && db.audit == t.audit + [db.audit[|t.audit|]]
            && db.audit[|t.audit|].action.BOOKING_CREATED?)
  {
    hide TakenSeats, Refusal, FreeReference, Hold, Passengers, Total, AllPriced, ValidInput;
  }

  lemma CancelStory(t: Tables, id: Id, scope: Scope, actor: Id, now: Instant)
    requires Inv(t) && StoriesTold(t)
    ensures StoriesTold(Cancel(t, id, scope, actor, now).db)
  {
    hide Inv, StoriesTold, SeatCodes, SeatsOf, ClassifyNotCancelled, Release, Cancellable;
    var db := Cancel(t, id, scope, actor, now).db;
    if Cancellable(t, id, scope, now) {
      var refund := RefundOf(t, id);
      var entries := CancelAudit(id, refund, actor, now);
      var between := t.(audit := t.audit + [entries[0]]);
      StoryStays(t, between);
      if refund.Some? {
        var paid := refund.value.paymentId;
        RefundIsTheOne(t, id);
        assert db.audit == between.audit + [entries[1]];
        StoryGoesOn(between, db, entries[1]);
      } else {
        NothingToRefund(t, id);
        assert db.audit == between.audit;
        StoryStays(between, db);
      }
    }
  }

  lemma RefundIsTheOne(t: Tables, id: Id)
    requires Inv(t) && RefundOf(t, id).Some?
    ensures SucceededOf(t, id) == {RefundOf(t, id).value.paymentId}
  {
    hide Inv, SucceededOf;
    IdOrder();
    var paid := Sorted(SucceededOf(t, id), IdLess);
    assert paid[0] in paid;
    SucceededIs(t, id, paid[0]);
  }

  lemma NothingToRefund(t: Tables, id: Id)
    requires RefundOf(t, id).None?
    ensures SucceededOf(t, id) == {}
  {
  }

  lemma SettleStory(t: Tables, x: Txn)
    requires StoriesTold(t) && (x.DoCharged? || x.DoDeclined? || x.DoRecordRefund?)
    ensures StoriesTold(Apply(t, x))
  {
    hide StoriesTold, Charged, Declined, RecordRefund;
    match x
    case DoCharged(id, p, reference, actor, now) => ChargedStory(t, id, p, reference, actor, now);
    case DoDeclined(id, reason, actor, now) => DeclinedStory(t, id, reason, actor, now);
    case DoRecordRefund(id, failure, now) => RefundStory(t, id, failure, now);
  }

  /** A recorded charge is audited on the payment exactly when it leaves it REFUND_PENDING. */
  lemma ChargedWrites(t: Tables, id: Id, p: Payment, reference: string, actor: Actor, now: Instant)
    ensures
      var o := Charged(t, id, p, reference, actor, now);
      if o.result.Err? then o.db == t
      else
        && HasStatus(t, id, PROCESSING)
        && |o.db.audit| == |t.audit| + 1 && o.db.audit == t.audit + [o.db.audit[|t.audit|]]
        && (HasStatus(o.db, id, SUCCEEDED) ==> o.db.audit[|t.audit|].action.BOOKING_CONFIRMED?)
        && (HasStatus(o.db, id, REFUND_PENDING) ==>
              o.db.audit[|t.audit|].action.PAYMENT_REFUND_PENDING? && o.db.audit[|t.audit|].target == id)
  {
    hide Confirmable, Book, SeatsOf, CompleteKeys, OpenKeysOf, Total, PaidAlready, ConfirmedResponse, NotPayable;
  }

  lemma ChargedStory(t: Tables, id: Id, p: Payment, reference: string, actor: Actor, now: Instant)
    requires StoriesTold(t)
    ensures StoriesTold(Charged(t, id, p, reference, actor, now).db)
  {
    hide StoriesTold, Charged;
    var o := Charged(t, id, p, reference, actor, now);
    ChargedWrites(t, id, p, reference, actor, now);
    ChargedMovesOneRow(t, id, p, reference, actor, now);
    if o.result.Ok? {
      StoryGoesOn(t, o.db, o.db.audit[|t.audit|]);
    }
  }

  lemma DeclinedStory(t: Tables, id: Id, reason: string, actor: Actor, now: Instant)
    requires StoriesTold(t)
    ensures StoriesTold(Declined(t, id, reason, actor, now).db)
  {
    hide StoriesTold, CompleteKeys, OpenKeysOf;
    var o := Declined(t, id, reason, actor, now);
    if o.result.Ok? { StoryGoesOn(t, o.db, o.db.audit[|t.audit|]); }
  }

  lemma RefundStory(t: Tables, id: Id, failure: Option<string>, now: Instant)
    requires StoriesTold(t)
    ensures StoriesTold(RecordRefund(t, id, failure, now).db)
  {
    hide StoriesTold;
    var o := RecordRefund(t, id, failure, now);
    if o.result.Ok? { StoryGoesOn(t, o.db, o.db.audit[|t.audit|]); }
  }

  lemma QuietStory(t: Tables, x: Txn)
    requires StoriesTold(t) && (x.DoStart? || x.DoClaim? || x.DoReschedule? || x.DoCleanup? || x.DoAddFlight?
                                || x.DoSetFlight? || x.DoSetFare?)
    ensures StoriesTold(Apply(t, x))
  {
    hide StoriesTold, StartPayment, ClaimedIds;
    if x.DoStart? {
      StartTellsNothing(t, x.read, x.pay, x.now, x.reconcileAfterMs);
      StartAddsOnePayment(t, x.read, x.pay, x.now, x.reconcileAfterMs);
    }
    StoryStays(t, Apply(t, x));
  }

  lemma {:induction false} RunTellsStories(t: Tables, xs: seq<Txn>)
    requires Inv(t) && StoriesTold(t) && Legal(t, xs)
    ensures StoriesTold(Run(t, xs))
    decreases |xs|
  {
    hide Inv, StoriesTold, Apply, Enabled;
    if xs != [] {
      StepStory(t, xs[0]);
      ApplyKeepsInv(t, xs[0]);
      RunTellsStories(Apply(t, xs[0]), xs[1..]);
    }
  }

  /**
   * In every reachable state the audit log tells each payment's story and no
   * other: declined once, or pending once and then refunded or given up once,
   * or nothing at all, exactly as its status says.
   */
  lemma AuditTellsPayments(run: seq<Action>, p: Id)
    requires LegalRun(START, run)
    ensures Story(RunAll(START, run).db.audit, p) == Expected(RunAll(START, run).db.payments, p)
  {
    hide RunAll, LegalRun, Run, Legal, Inv;
    ProtocolRunsAreTxnRuns(run);
    EmptyInv();
    RunTellsStories(EMPTY, CommitsOf(run));
  }

  lemma StepStory(t: Tables, x: Txn)
    requires Inv(t) && StoriesTold(t)
    ensures StoriesTold(Apply(t, x))
  {
    hide Inv, StoriesTold, Cancel;
    match x
    case DoCreate(_, _) => BookingStories(t, x);
    case DoChangeSeat(_, _, _, _, _, _) => BookingStories(t, x);
    case DoExpire(_, _, _) => BookingStories(t, x);
    case DoCancel(id, scope, actor, now) => CancelStory(t, id, scope, actor, now);
    case DoCharged(_, _, _, _, _) => SettleStory(t, x);
    case DoDeclined(_, _, _, _) => SettleStory(t, x);
    case DoRecordRefund(_, _, _) => SettleStory(t, x);
    case _ => QuietStory(t, x);
  }
}

/** How rows may change over any run: lifecycles only move forward. */
module Histories {
  import opened Basics
  import opened Counting
  import opened Schema
  import opened Lifecycle
  import opened Transactions
  import opened Invariants
  import opened PaymentSteps
  import opened Runs

  // ---- Bookings ----

  predicate StatusMay(from: BookingStatus, to: BookingStatus) {
    to == from || from.HELD? || (from.CONFIRMED? && to.CANCELLED?)
  }

  /** A row keeps its identity and what each passenger pays; its status moves forward; a row still HELD has not changed at all. */
  predicate BookingAdvances(b: Booking, c: Booking) {
    && c == b.(status := c.status, passengers := c.passengers)
    && PaidForTheSame(b, c)
    && StatusMay(b.status, c.status)
    && (c.status.HELD? ==> c == b)
  }

  ghost predicate BookingsAdvance(bookings: map<Id, Booking>, bookings': map<Id, Booking>) {
    forall b | b in bookings :: b in bookings' && BookingAdvances(bookings[b], bookings'[b])
  }

  lemma BookingsAdvanceTransitively(x: map<Id, Booking>, y: map<Id, Booking>, z: map<Id, Booking>)
    requires BookingsAdvance(x, y) && BookingsAdvance(y, z)
    ensures BookingsAdvance(x, z)
  {
  }

  lemma StatusChangeAdvances(bookings: map<Id, Booking>, b: Id, status: BookingStatus)
    requires b in bookings && StatusMay(bookings[b].status, status) && !status.HELD?
    ensures BookingsAdvance(bookings, WithStatus(bookings, b, status))
  {
  }

  lemma {:induction false} ExpireAllAdvances(t: Tables, ids: seq<Id>, now: Instant)
    requires Distinct(ids)
    requires forall i | 0 <= i < |ids| :: ids[i] in t.bookings && t.bookings[ids[i]].status.HELD?
    ensures BookingsAdvance(t.bookings, ExpireAll(t, ids, now).bookings)
    ensures forall b | b in t.bookings && b !in ids :: ExpireAll(t, ids, now).bookings[b] == t.bookings[b]
    ensures ExpireAll(t, ids, now).payments == t.payments
    decreases |ids|
  {
    hide BookingAdvances, SeatCodes, Release, SeatsOf;
    if ids == [] {
      BookingsStay(t.bookings);
    } else {
      var last := |ids| - 1;
      var before := ExpireAll(t, ids[..last], now);
      ExpireAllAdvances(t, ids[..last], now);
      assert ids[last] !in ids[..last];
      StatusChangeAdvances(before.bookings, ids[last], BookingStatus.EXPIRED);
      BookingsAdvanceTransitively(t.bookings, before.bookings, ExpireAll(t, ids, now).bookings);
      assert ids == ids[..last] + [ids[last]];
    }
  }

  lemma BookingsStay(bookings: map<Id, Booking>)
    ensures BookingsAdvance(bookings, bookings)
  {
  }

  lemma ExpiryAdvances(t: Tables, now: Instant, limit: nat, locked: set<Id>)
    ensures BookingsAdvance(t.bookings, ExpireBatch(t, now, limit, locked).bookings)
  {
    hide ExpiredIds, BookingAdvances;
    DueHoldsExist(t, now, limit, locked);
    ExpireAllAdvances(t, ExpiredIds(t, now, limit, locked), now);
  }

  lemma CreateAdvances(t: Tables, r: CreateRequest, now: Instant)
    ensures BookingsAdvance(t.bookings, CreateBooking(t, r, now).db.bookings)
  {
    hide TakenSeats, Refusal, FreeReference, Hold, Passengers, Total, AllPriced, ValidInput;
  }

  lemma CancelAdvances(t: Tables, id: Id, scope: Scope, actor: Id, now: Instant)
    ensures BookingsAdvance(t.bookings, Cancel(t, id, scope, actor, now).db.bookings)
  {
  }

  lemma ChangeSeatAdvances(t: Tables, id: Id, position: nat, target: SeatPosition, scope: Scope, actor: Id, now: Instant)
    ensures BookingsAdvance(t.bookings, ChangeSeat(t, id, position, target, scope, actor, now).db.bookings)
  {
    var o := ChangeSeat(t, id, position, target, scope, actor, now);
    if o.result.Ok? && o.result.value.Changed? {
      ReseatKeepsSum(t.bookings[id].passengers, position - 1, target);
    }
  }

  lemma ChargedAdvances(t: Tables, id: Id, p: Payment, reference: string, actor: Actor, now: Instant)
    ensures BookingsAdvance(t.bookings, Charged(t, id, p, reference, actor, now).db.bookings)
  {
    hide BookingAdvances, Book, SeatsOf, CompleteKeys, OpenKeysOf, Total, PaidAlready, ConfirmedResponse, NotPayable;
    BookingsStay(t.bookings);
    if Confirmable(t, p.bookingId, Owner(p.accountId), now) {
      StatusChangeAdvances(t.bookings, p.bookingId, CONFIRMED);
    }
  }

  lemma PaymentTxnsKeepBookings(t: Tables, x: Txn)
    requires x.DoStart? || x.DoDeclined? || x.DoClaim? || x.DoReschedule? || x.DoRecordRefund? || x.DoCleanup?
          || x.DoAddFlight? || x.DoSetFlight? || x.DoSetFare?
    ensures Apply(t, x).bookings == t.bookings
  {
    hide StartPayment, Declined, ClaimDue;
    match x
    case DoStart(read, r, now, after) => StartLeavesBookings(t, read, r, now, after);
    case DoDeclined(id, reason, actor, now) => DeclinedLeavesBookings(t, id, reason, actor, now);
    case DoClaim(now, lease, limit, locked) => ClaimLeavesBookings(t, now, lease, limit, locked);
    case _ =>
  }

  lemma StartLeavesBookings(t: Tables, read: Option<Booking>, r: PayRequest, now: Instant, after: int)
    ensures StartPayment(t, read, r, now, after).db.bookings == t.bookings
  {
    hide Total, CanStartPayment, HoldIsValid;
  }

  lemma DeclinedLeavesBookings(t: Tables, id: Id, reason: string, actor: Actor, now: Instant)
    ensures Declined(t, id, reason, actor, now).db.bookings == t.bookings
  {
  }

  lemma ClaimLeavesBookings(t: Tables, now: Instant, lease: int, limit: nat, locked: set<Id>)
    ensures ClaimDue(t, now, lease, limit, locked).bookings == t.bookings
  {
  }

  lemma BookingsOnlyAdvance(t: Tables, x: Txn)
    ensures BookingsAdvance(t.bookings, Apply(t, x).bookings)
  {
    hide BookingAdvances, CreateBooking, Cancel, ChangeSeat, ExpireBatch, Charged;
    match x
    case DoCreate(r, now) => CreateAdvances(t, r, now);
    case DoCancel(id, scope, actor, now) => CancelAdvances(t, id, scope, actor, now);
    case DoChangeSeat(id, position, target, scope, actor, now) =>
      ChangeSeatAdvances(t, id, position, target, scope, actor, now);
    case DoExpire(now, limit, locked) => ExpiryAdvances(t, now, limit, locked);
    case DoCharged(id, p, reference, actor, now) => ChargedAdvances(t, id, p, reference, actor, now);
    case _ =>
      PaymentTxnsKeepBookings(t, x);
      BookingsStay(t.bookings);
  }

  /**
   * Over any run a booking keeps its total, ends at most once, and while it
   * is still HELD nothing about it — its seats least of all — has changed.
   */
  lemma {:induction false} BookingsOnlyAdvanceOverRuns(t: Tables, xs: seq<Txn>)
    ensures BookingsAdvance(t.bookings, Run(t, xs).bookings)
    decreases |xs|
  {
    hide Apply, BookingAdvances;
    if xs == [] {
      BookingsStay(t.bookings);
    } else {
      var t1 := Apply(t, xs[0]);
      BookingsOnlyAdvance(t, xs[0]);
      BookingsOnlyAdvanceOverRuns(t1, xs[1..]);
      BookingsAdvanceTransitively(t.bookings, t1.bookings, Run(t, xs).bookings);
    }
  }

  // ---- Seats ----

  /** The same seats, each in its class; only who has them may differ. */
  ghost predicate SameSeats(seats: map<SeatKey, Seat>, seats': map<SeatKey, Seat>) {
    seats'.Keys == seats.Keys && forall k | k in seats :: seats'[k].fareClass == seats[k].fareClass
  }

  lemma {:induction false} ExpireAllSeatKeys(t: Tables, ids: seq<Id>, now: Instant)
    requires forall i | 0 <= i < |ids| :: ids[i] in t.bookings
    ensures SameSeats(t.seats, ExpireAll(t, ids, now).seats) && ExpireAll(t, ids, now).flights == t.flights
    decreases |ids|
  {
    if ids != [] { ExpireAllSeatKeys(t, ids[..|ids| - 1], now); }
  }

  /** Seats of a flight that is already there neither appear nor disappear, and stay in their class. */
  lemma SeatKeyStays(t: Tables, x: Txn, k: SeatKey)
    requires Enabled(t, x) && k.flightId in t.flights
    ensures k in t.seats <==> k in Apply(t, x).seats
    ensures k in t.seats ==> Apply(t, x).seats[k].fareClass == t.seats[k].fareClass
    ensures k.flightId in Apply(t, x).flights
  {
    hide TakenSeats, Refusal, FreeReference, Passengers, Total, AllPriced, ValidInput, ClassifyNotCancelled, RefundOf,
         SeatCodes, CompleteKeys, OpenKeysOf, PaidAlready, ClaimedIds, ExpiredIds, ExpireAll, StartPayment, Declined, Charged;
    match x
    case DoExpire(now, limit, locked) =>
      DueHoldsExist(t, now, limit, locked);
      ExpireAllSeatKeys(t, ExpiredIds(t, now, limit, locked), now);
    case DoStart(read, r, now, after) => StartLeavesSeats(t, read, r, now, after);
    case DoDeclined(id, reason, actor, now) => DeclinedLeavesSeats(t, id, reason, actor, now);
    case DoCharged(id, p, reference, actor, now) => ChargedKeepsSeatKeys(t, id, p, reference, actor, now);
    case _ =>
  }

  lemma StartLeavesSeats(t: Tables, read: Option<Booking>, r: PayRequest, now: Instant, after: int)
    ensures StartPayment(t, read, r, now, after).db.seats == t.seats
    ensures StartPayment(t, read, r, now, after).db.flights == t.flights
  {
    hide Total, CanStartPayment, HoldIsValid;
  }

  lemma DeclinedLeavesSeats(t: Tables, id: Id, reason: string, actor: Actor, now: Instant)
    ensures Declined(t, id, reason, actor, now).db.seats == t.seats
    ensures Declined(t, id, reason, actor, now).db.flights == t.flights
  {
  }

  lemma ChargedKeepsSeatKeys(t: Tables, id: Id, p: Payment, reference: string, actor: Actor, now: Instant)
    ensures SameSeats(t.seats, Charged(t, id, p, reference, actor, now).db.seats)
    ensures Charged(t, id, p, reference, actor, now).db.flights == t.flights
  {
    hide Confirmable, SeatsOf, CompleteKeys, OpenKeysOf, Total, PaidAlready, ConfirmedResponse, NotPayable;
  }

  // ---- Payments ----

  predicate PaymentMay(from: PaymentStatus, to: PaymentStatus) {
    || to == from
    || (from.PROCESSING? && (to.SUCCEEDED? || to.FAILED? || to.REFUND_PENDING?))
    || (from.SUCCEEDED? && to.REFUND_PENDING?)
    || (from.REFUND_PENDING? && (to.REFUNDED? || to.REFUND_FAILED?))
  }

  predicate PaymentAdvances(p: Payment, q: Payment) {
    && q.bookingId == p.bookingId && q.accountId == p.accountId && q.amount == p.amount && q.createdAt == p.createdAt
    && PaymentMay(p.status, q.status)
  }

  ghost predicate PaymentsAdvance(payments: map<Id, Payment>, payments': map<Id, Payment>) {
    forall p | p in payments :: p in payments' && PaymentAdvances(payments[p], payments'[p])
  }

  lemma PaymentsOnlyAdvance(t: Tables, x: Txn)
    ensures PaymentsAdvance(t.payments, Apply(t, x).payments)
  {
    hide CreateBooking, ChangeSeat, ExpireBatch, Cancel, Charged, StartPayment, Declined, ClaimedIds;
    match x
    case DoCreate(r, now) => CreateLeavesPayments(t, r, now);
    case DoCancel(id, scope, actor, now) => CancelPaymentsAdvance(t, id, scope, actor, now);
    case DoChangeSeat(id, position, target, scope, actor, now) =>
      ChangeSeatLeavesPayments(t, id, position, target, scope, actor, now);
    case DoExpire(now, limit, locked) => ExpiryLeavesPayments(t, now, limit, locked);
    case DoCharged(id, p, reference, actor, now) => ChargedPaymentsAdvance(t, id, p, reference, actor, now);
    case DoDeclined(id, reason, actor, now) => DeclinedPaymentsAdvance(t, id, reason, actor, now);
    case DoStart(read, r, now, after) => StartPaymentsAdvance(t, read, r, now, after);
    case _ =>
  }

  lemma CreateLeavesPayments(t: Tables, r: CreateRequest, now: Instant)
    ensures CreateBooking(t, r, now).db.payments == t.payments
    ensures CreateBooking(t, r, now).db.keys == t.keys
  {
    hide TakenSeats, Refusal, FreeReference, Hold, Passengers, Total, AllPriced, ValidInput;
  }

  lemma ChangeSeatLeavesPayments(t: Tables, id: Id, position: nat, target: SeatPosition, scope: Scope, actor: Id, now: Instant)
    ensures ChangeSeat(t, id, position, target, scope, actor, now).db.payments == t.payments
    ensures ChangeSeat(t, id, position, target, scope, actor, now).db.keys == t.keys
  {
  }

  lemma {:induction false} ExpireAllLeavesPayments(t: Tables, ids: seq<Id>, now: Instant)
    requires forall i | 0 <= i < |ids| :: ids[i] in t.bookings
    ensures ExpireAll(t, ids, now).payments == t.payments
    ensures ExpireAll(t, ids, now).keys == t.keys
    decreases |ids|
  {
    if ids != [] { ExpireAllLeavesPayments(t, ids[..|ids| - 1], now); }
  }

  lemma ExpiryLeavesPayments(t: Tables, now: Instant, limit: nat, locked: set<Id>)
    ensures ExpireBatch(t, now, limit, locked).payments == t.payments
    ensures ExpireBatch(t, now, limit, locked).keys == t.keys
  {
    hide ExpiredIds, ExpireAll;
    DueHoldsExist(t, now, limit, locked);
    ExpireAllLeavesPayments(t, ExpiredIds(t, now, limit, locked), now);
  }

  lemma CancelPaymentsAdvance(t: Tables, id: Id, scope: Scope, actor: Id, now: Instant)
    ensures PaymentsAdvance(t.payments, Cancel(t, id, scope, actor, now).db.payments)
    ensures Cancel(t, id, scope, actor, now).db.keys == t.keys
  {
  }

  lemma ChargedPaymentsAdvance(t: Tables, id: Id, p: Payment, reference: string, actor: Actor, now: Instant)
    ensures PaymentsAdvance(t.payments, Charged(t, id, p, reference, actor, now).db.payments)
  {
    hide Confirmable, Book, SeatsOf, CompleteKeys, OpenKeysOf, Total, PaidAlready, ConfirmedResponse, NotPayable;
  }

  lemma DeclinedPaymentsAdvance(t: Tables, id: Id, reason: string, actor: Actor, now: Instant)
    ensures PaymentsAdvance(t.payments, Declined(t, id, reason, actor, now).db.payments)
  {
  }

  /** Phase 1 adds at most one row, the payment it answers with. */
  lemma StartAddsOnePayment(t: Tables, read: Option<Booking>, r: PayRequest, now: Instant, after: int)
    ensures
      var o := StartPayment(t, read, r, now, after);
      if o.result.Ok? && o.result.value.Started? then
        && r.paymentId !in t.payments
        && o.db.payments == t.payments[r.paymentId := o.result.value.payment]
        && o.result.value.payment.status.PROCESSING?
      else o.db.payments == t.payments
  {
    hide Total, CanStartPayment, HoldIsValid;
  }

  lemma StartPaymentsAdvance(t: Tables, read: Option<Booking>, r: PayRequest, now: Instant, after: int)
    ensures PaymentsAdvance(t.payments, StartPayment(t, read, r, now, after).db.payments)
  {
    hide StartPayment;
    StartAddsOnePayment(t, read, r, now, after);
  }

  lemma {:induction false} PaymentsOnlyAdvanceOverRuns(t: Tables, xs: seq<Txn>, id: Id)
    requires id in t.payments
    ensures id in Run(t, xs).payments
    ensures !t.payments[id].status.PROCESSING? ==> !Run(t, xs).payments[id].status.PROCESSING?
    ensures Run(t, xs).payments[id].amount == t.payments[id].amount
    decreases |xs|
  {
    hide Apply;
    if xs != [] {
      PaymentsOnlyAdvance(t, xs[0]);
      PaymentsOnlyAdvanceOverRuns(Apply(t, xs[0]), xs[1..], id);
    }
  }

  // ---- Idempotency keys ----

  /** A row that is still there keeps its request and its payment; a stored answer never changes. */
  predicate KeyAdvances(k: KeyRow, l: KeyRow) {
    && l.fingerprint == k.fingerprint && l.createdAt == k.createdAt
    && (k.paymentId.Some? ==> l.paymentId == k.paymentId)
    && (k.status.COMPLETED? ==> l == k)
  }

  ghost predicate KeysAdvance(keys: map<KeyId, KeyRow>, keys': map<KeyId, KeyRow>) {
    forall k | k in keys && k in keys' :: KeyAdvances(keys[k], keys'[k])
  }

  /** The keys a transaction deletes: only the cleanup's. */
  function Deleted(x: Txn): set<KeyId> { if x.DoCleanup? then x.picked else {} }

  lemma KeysOnlyAdvance(t: Tables, x: Txn)
    ensures KeysAdvance(t.keys, Apply(t, x).keys)
    ensures t.keys.Keys - Deleted(x) <= Apply(t, x).keys.Keys
  {
    hide CreateBooking, ChangeSeat, ExpireBatch, Cancel, Charged, StartPayment, Declined, ClaimDue;
    match x
    case DoCreate(r, now) => CreateLeavesPayments(t, r, now);
    case DoCancel(id, scope, actor, now) => CancelPaymentsAdvance(t, id, scope, actor, now);
    case DoChangeSeat(id, position, target, scope, actor, now) =>
      ChangeSeatLeavesPayments(t, id, position, target, scope, actor, now);
    case DoExpire(now, limit, locked) => ExpiryLeavesPayments(t, now, limit, locked);
    case DoCharged(id, p, reference, actor, now) => ChargedKeysAdvance(t, id, p, reference, actor, now);
    case DoDeclined(id, reason, actor, now) => DeclinedKeysAdvance(t, id, reason, actor, now);
    case DoStart(read, r, now, after) => StartKeysAdvance(t, read, r, now, after);
    case DoClaim(now, lease, limit, locked) => ClaimLeavesKeys(t, now, lease, limit, locked);
    case _ =>
  }

  lemma ClaimLeavesKeys(t: Tables, now: Instant, lease: int, limit: nat, locked: set<Id>)
    ensures ClaimDue(t, now, lease, limit, locked).keys == t.keys
  {
  }

  /** Completing open keys keeps every row, and the completed ones as they are. */
  lemma CompletingAdvances(t: Tables, id: Id, response: StoredResponse, now: Instant)
    ensures KeysAdvance(t.keys, CompleteKeys(t.keys, OpenKeysOf(t, id), response, now))
    ensures CompleteKeys(t.keys, OpenKeysOf(t, id), response, now).Keys == t.keys.Keys
  {
  }

  lemma ChargedCompletesKeys(t: Tables, id: Id, p: Payment, reference: string, actor: Actor, now: Instant)
    ensures
      var o := Charged(t, id, p, reference, actor, now);
      o.db.keys == if o.result.Ok? then CompleteKeys(t.keys, OpenKeysOf(t, id), o.result.value, now) else t.keys
  {
    hide Confirmable, Book, SeatsOf, CompleteKeys, OpenKeysOf, Total, PaidAlready, ConfirmedResponse, NotPayable;
  }

  lemma ChargedKeysAdvance(t: Tables, id: Id, p: Payment, reference: string, actor: Actor, now: Instant)
    ensures KeysAdvance(t.keys, Charged(t, id, p, reference, actor, now).db.keys)
    ensures Charged(t, id, p, reference, actor, now).db.keys.Keys == t.keys.Keys
  {
    hide Charged, CompleteKeys, OpenKeysOf;
    var o := Charged(t, id, p, reference, actor, now);
    ChargedCompletesKeys(t, id, p, reference, actor, now);
    if o.result.Ok? { CompletingAdvances(t, id, o.result.value, now); }
  }

  lemma DeclinedKeysAdvance(t: Tables, id: Id, reason: string, actor: Actor, now: Instant)
    ensures KeysAdvance(t.keys, Declined(t, id, reason, actor, now).db.keys)
    ensures Declined(t, id, reason, actor, now).db.keys.Keys == t.keys.Keys
  {
    hide CompleteKeys, OpenKeysOf;
    CompletingAdvances(t, id, DeclinedResponse(reason), now);
  }

  /** Phase 1 touches at most its own key, and only when it is new. */
  lemma StartAddsOneKey(t: Tables, read: Option<Booking>, r: PayRequest, now: Instant, after: int)
    ensures
      var k, keys' := KeyId(r.actor, r.key), StartPayment(t, read, r, now, after).db.keys;
      if k in t.keys then keys' == t.keys
      else keys' == t.keys || (k in keys' && keys' == t.keys[k := keys'[k]])
  {
    hide Total, CanStartPayment, HoldIsValid, PaymentRunning;
  }

  lemma StartKeysAdvance(t: Tables, read: Option<Booking>, r: PayRequest, now: Instant, after: int)
    ensures KeysAdvance(t.keys, StartPayment(t, read, r, now, after).db.keys)
    ensures t.keys.Keys <= StartPayment(t, read, r, now, after).db.keys.Keys
  {
    hide StartPayment;
    StartAddsOneKey(t, read, r, now, after);
  }

  /**
   * Over any run that does not clean the key up, its row keeps its request
   * and payment, and an answer once stored is what every replay gets.
   */
  lemma {:induction false} KeysOnlyAdvanceOverRuns(t: Tables, xs: seq<Txn>, k: KeyId)
    requires k in t.keys && forall i | 0 <= i < |xs| :: k !in Deleted(xs[i])
    ensures k in Run(t, xs).keys && KeyAdvances(t.keys[k], Run(t, xs).keys[k])
    decreases |xs|
  {
    hide Apply, Deleted;
    if xs != [] {
      KeysOnlyAdvance(t, xs[0]);
      assert k !in Deleted(xs[0]);
      forall i | 0 <= i < |xs[1..]| ensures k !in Deleted(xs[1..][i]) {
        assert xs[1..][i] == xs[i + 1];
      }
      KeysOnlyAdvanceOverRuns(Apply(t, xs[0]), xs[1..], k);
    }
  }

  // ---- Single settlement ----

  datatype Settlement =
    | ByCharge(copy: Payment, reference: string, actor: Actor, now: Instant)
    | ByDecline(reason: string, actor: Actor, now: Instant)

  function Settle(t: Tables, id: Id, s: Settlement): Outcome<StoredResponse> {
    match s
    case ByCharge(copy, reference, actor, now) => Charged(t, id, copy, reference, actor, now)
    case ByDecline(reason, actor, now) => Declined(t, id, reason, actor, now)
  }

  predicate Honest(t: Tables, id: Id, s: Settlement) { s.ByCharge? ==> CopyOf(t, id, s.copy) }

  lemma SettleEndsProcessing(t: Tables, id: Id, s: Settlement)
    requires Inv(t) && Honest(t, id, s) && HasStatus(t, id, PROCESSING)
    ensures Settle(t, id, s).result.Ok?
    ensures id in Settle(t, id, s).db.payments && !HasStatus(Settle(t, id, s).db, id, PROCESSING)
    ensures Inv(Settle(t, id, s).db)
  {
    hide Inv, Confirmable, Book, SeatsOf, CompleteKeys, OpenKeysOf, Total, PaidAlready, ConfirmedResponse, NotPayable;
    match s
    case ByCharge(copy, reference, actor, now) => ChargedKeepsInv(t, id, copy, reference, actor, now);
    case ByDecline(reason, actor, now) => DeclinedKeepsInv(t, id, reason, actor, now);
  }

  lemma SettleOfSettled(t: Tables, id: Id, s: Settlement)
    requires !HasStatus(t, id, PROCESSING)
    ensures Settle(t, id, s).result.Err? && Settle(t, id, s).db == t
  {
  }

  /**
   * The request and the job may both reach phase 3, at any two times and with
   * anything committed in between: the first commits, the second throws and
   * its rollback leaves every table as it was.
   */
  lemma SingleSettlement(t: Tables, id: Id, first: Settlement, between: seq<Txn>, second: Settlement)
    requires Inv(t) && Honest(t, id, first) && HasStatus(t, id, PROCESSING)
    ensures Settle(t, id, first).result.Ok?
    ensures
      var after := Run(Settle(t, id, first).db, between);
      Settle(after, id, second).result.Err? && Settle(after, id, second).db == after
  {
    hide Inv, Settle, Honest;
    SettleEndsProcessing(t, id, first);
    PaymentsOnlyAdvanceOverRuns(Settle(t, id, first).db, between, id);
    SettleOfSettled(Run(Settle(t, id, first).db, between), id, second);
  }
}

/**
 * Whole transactions under READ COMMITTED: phase 3 and cancel are several
 * statements, each with its own snapshot, with other commits in between. The
 * rows they lock make the whole of each one atomic step at its commit.
 */
module SnapshotTransactions {
  import opened Basics
  import opened Counting
  import opened Schema
  import opened Transactions
  import opened Invariants
  import opened PaymentSteps
  import opened Runs
  import opened Histories
  import opened Snapshots
  import opened SnapshotCancel

  ghost predicate PaymentLocked(line: seq<Tables>, id: Id, p: nat)
    requires p < |line|
  {
    id in line[p].payments
    && forall j | p <= j < |line| :: id in line[j].payments && line[j].payments[id] == line[p].payments[id]
  }

  ghost predicate KeyLocked(line: seq<Tables>, k: KeyId, q: nat)
    requires q < |line|
  {
    k in line[q].keys
    && forall j | q <= j < |line| :: k in line[j].keys && line[j].keys[k] == line[q].keys[k]
  }

  // ---- Phase 3 ----

  /** When each statement got its row: booking at `booking`, payment at `payment`, key at `key`. */
  datatype Moments3 = Moments3(booking: nat, payment: nat, key: nat, seats: map<SeatKey, nat>)

  predicate InTime(line: seq<Tables>, m: Moments3) { m.booking <= m.payment <= m.key < |line| }

  ghost predicate Confirms(line: seq<Tables>, b: Id, scope: Scope, now: Instant, m: Moments3)
    requires InTime(line, m)
  {
    ConfirmMatched(line, b, scope, now, m.booking)
  }

  /** What phase 3 commits, statement by statement. */
  ghost function SettleStatements(
    line: seq<Tables>, id: Id, p: Payment, reference: string, actor: Actor, now: Instant, m: Moments3)
    : Outcome<StoredResponse>
    requires InTime(line, m)
    requires Confirms(line, p.bookingId, Owner(p.accountId), now, m) ==> RowLocked(line, p.bookingId, m.booking)
    requires HasStatus(line[m.payment], id, PROCESSING) ==> PaymentLocked(line, id, m.payment)
  {
    var end := AtCommit(line);
    var confirms := Confirms(line, p.bookingId, Owner(p.accountId), now, m);
    var open := OpenKeysOf(line[m.key], id);
    if !HasStatus(line[m.payment], id, PROCESSING) then Outcome(end, Err("payment is not PROCESSING"))
    else if confirms && PaidAlready(line[m.payment], id) then Outcome(end, Err("UQ_payments_booking_succeeded"))
    else if |open| != 1 then Outcome(end, Err("key is not in progress"))
    else if confirms then
      var booking := line[m.booking].bookings[p.bookingId].(status := CONFIRMED);
      var seats := LockedSeats(line, SeatsOf(line[0].seats, {p.bookingId}), {p.bookingId}, m.seats);
      var response := ConfirmedResponse(id, p, reference, booking);
      Outcome(
        end.(bookings := end.bookings[p.bookingId := booking],
             seats := Book(end.seats, seats),
             payments := end.payments[id := Transition(end.payments[id], SUCCEEDED, now, Some(reference), None)],
             keys := CompleteKeys(end.keys, open, response, now),
             audit := end.audit + [AuditEntry(BOOKING_CONFIRMED(id, p.amount), actor, p.bookingId, now)],
             outbox := end.outbox
               + [OutboxRow(BookingConfirmed(p.bookingId, booking.passengers, Total(booking), id, p.amount), now)]),
        Ok(response))
    else
      var response := NotPayable(REFUNDED_MESSAGE);
      Outcome(
        end.(payments := end.payments[id := Transition(end.payments[id], REFUND_PENDING, now, Some(reference), None)],
             keys := CompleteKeys(end.keys, open, response, now),
             audit := end.audit + [AuditEntry(PAYMENT_REFUND_PENDING, actor, id, now)]),
        Ok(response))
  }

  lemma StepKeepsPayment(t: Tables, t': Tables, id: Id)
    requires OneStep(t, t') && id in t.payments
    ensures id in t'.payments && CopyOf(t', id, t.payments[id])
    ensures !t.payments[id].status.PROCESSING? ==> !t'.payments[id].status.PROCESSING?
  {
    hide Apply, Enabled;
    if t' != t {
      var x: Txn :| Enabled(t, x) && t' == Apply(t, x);
      PaymentsOnlyAdvance(t, x);
    }
  }

  /** A payment stays, with its booking, account and amount, and once settled it is settled at every later moment. */
  lemma {:induction false} PaymentStays(line: seq<Tables>, id: Id, i: nat, j: nat)
    requires Timeline(line) && i <= j < |line| && id in line[i].payments
    ensures id in line[j].payments && CopyOf(line[j], id, line[i].payments[id])
    ensures !line[i].payments[id].status.PROCESSING? ==> !line[j].payments[id].status.PROCESSING?
    decreases j
  {
    hide Inv, OneStep;
    if i < j {
      PaymentStays(line, id, i, j - 1);
      assert OneStep(line[j - 1], line[j]);
      StepKeepsPayment(line[j - 1], line[j], id);
    }
  }

  lemma OneOpenKey(t: Tables, id: Id)
    requires Inv(t) && HasStatus(t, id, PROCESSING)
    ensures |OpenKeysOf(t, id)| == 1
  {
    hide Inventory, Money, Events, OpenKeysOf;
    KeyIsOpen(t, id);
  }

  /** The open key found when its statement ran is the one open at the commit. */
  lemma SameOpenKey(line: seq<Tables>, id: Id, q: nat)
    requires Timeline(line) && q < |line|
    requires HasStatus(line[q], id, PROCESSING) && HasStatus(AtCommit(line), id, PROCESSING)
    requires forall k | k in OpenKeysOf(line[q], id) :: KeyLocked(line, k, q)
    ensures OpenKeysOf(AtCommit(line), id) == OpenKeysOf(line[q], id)
    ensures |OpenKeysOf(line[q], id)| == 1
  {
    hide Inv, Timeline;
    Moments(line, q, |line| - 1);
    OneOpenKey(line[q], id);
    OneOpenKey(AtCommit(line), id);
    var open, later := OpenKeysOf(line[q], id), OpenKeysOf(AtCommit(line), id);
    forall k | k in open ensures k in later {
      assert KeyLocked(line, k, q);
    }
    SubsetSizes(open, later);
  }

  lemma HeldHasNoPaid(t: Tables, id: Id, b: Id)
    requires Inv(t) && id in t.payments && t.payments[id].bookingId == b && b in t.bookings && t.bookings[b].status.HELD?
    ensures !PaidAlready(t, id)
  {
  }

  /** When the hold is confirmed: the confirmed row, its seats and the unpaid check are those of the commit. */
  lemma ConfirmedPart(
    line: seq<Tables>, id: Id, p: Payment, now: Instant, m: Moments3)
    requires Timeline(line) && InTime(line, m) && id in line[0].payments && CopyOf(line[0], id, p)
    requires p.bookingId in line[0].bookings
    requires Confirms(line, p.bookingId, Owner(p.accountId), now, m) && RowLocked(line, p.bookingId, m.booking)
    requires Granted(SeatsOf(line[0].seats, {p.bookingId}), m.seats, m.booking, |line| - 1)
    ensures
      var end := AtCommit(line);
      && Confirmable(end, p.bookingId, Owner(p.accountId), now)
      && line[m.booking].bookings[p.bookingId] == end.bookings[p.bookingId]
      && LockedSeats(line, SeatsOf(line[0].seats, {p.bookingId}), {p.bookingId}, m.seats) == SeatsOf(end.seats, {p.bookingId})
      && id in line[m.payment].payments && !PaidAlready(line[m.payment], id)
      && id in end.payments && !PaidAlready(end, id)
  {
    hide Inv, Timeline, LockedSeats, SeatsOf, Granted, PaidAlready;
    var b := p.bookingId;
    HeldRowStays(line, b, m.booking);
    Moments(line, m.payment, |line| - 1);
    FoundSeatsAreKept(line, b, 0, m.booking, m.seats);
    PaymentStays(line, id, 0, m.payment);
    PaymentStays(line, id, 0, |line| - 1);
    HeldHasNoPaid(line[m.payment], id, b);
    HeldHasNoPaid(AtCommit(line), id, b);
  }

  lemma PaidBookingExists(t: Tables, id: Id, p: Payment)
    requires Inv(t) && id in t.payments && CopyOf(t, id, p)
    ensures p.bookingId in t.bookings
  {
    hide Inventory, Events, Keys;
    assert PaymentOk(t.bookings, t.payments[id]);
  }

  /**
   * Phase 3 as a whole is one atomic step of the tables it commits to: the
   * confirmation found in an old snapshot, the payment and the key found in
   * later ones, with anything committed in between.
   */
  lemma SettlementIsAtomic(
    line: seq<Tables>, id: Id, p: Payment, reference: string, actor: Actor, now: Instant, m: Moments3)
    requires Timeline(line) && InTime(line, m) && id in line[0].payments && CopyOf(line[0], id, p)
    requires Confirms(line, p.bookingId, Owner(p.accountId), now, m) ==>
      RowLocked(line, p.bookingId, m.booking) && Granted(SeatsOf(line[0].seats, {p.bookingId}), m.seats, m.booking, |line| - 1)
    requires HasStatus(line[m.payment], id, PROCESSING) ==> PaymentLocked(line, id, m.payment)
    requires forall k | k in OpenKeysOf(line[m.key], id) :: KeyLocked(line, k, m.key)
    ensures SettleStatements(line, id, p, reference, actor, now, m)
         == Charged(AtCommit(line), id, p, reference, actor, now)
  {
    hide Inv, Timeline, LockedSeats, SeatsOf, Granted, PaidAlready, OpenKeysOf, CompleteKeys, Book, Confirmable,
         ConfirmedResponse, NotPayable, Total, CopyOf, KeyLocked;
    var end := AtCommit(line);
    EveryMoment(line, 0);
    PaidBookingExists(line[0], id, p);
    PaymentStays(line, id, 0, m.payment);
    if !HasStatus(line[m.payment], id, PROCESSING) {
      PaymentStays(line, id, m.payment, |line| - 1);
    } else {
      assert PaymentLocked(line, id, m.payment);
      SameOpenKey(line, id, m.key);
      if Confirms(line, p.bookingId, Owner(p.accountId), now, m) {
        ConfirmedPart(line, id, p, now, m);
      } else if Confirmable(end, p.bookingId, Owner(p.accountId), now) {
        ConfirmableBefore(line, p.bookingId, Owner(p.accountId), now, 0);
        ConfirmableBefore(line, p.bookingId, Owner(p.accountId), now, m.booking);
      }
    }
  }

  /** A recorded decline: the payment row at `p`, its key at `q`. */
  ghost function DeclineStatements(
    line: seq<Tables>, id: Id, reason: string, actor: Actor, now: Instant, p: nat, q: nat): Outcome<StoredResponse>
    requires p <= q < |line| && (HasStatus(line[p], id, PROCESSING) ==> PaymentLocked(line, id, p))
  {
    var end, open := AtCommit(line), OpenKeysOf(line[q], id);
    if !HasStatus(line[p], id, PROCESSING) then Outcome(end, Err("payment is not PROCESSING"))
    else if |open| != 1 then Outcome(end, Err("key is not in progress"))
    else
      Outcome(
        end.(payments := end.payments[id := Transition(end.payments[id], FAILED, now, None, Some(reason))],
             keys := CompleteKeys(end.keys, open, DeclinedResponse(reason), now),
             audit := end.audit + [AuditEntry(PAYMENT_FAILED(reason), actor, id, now)]),
        Ok(DeclinedResponse(reason)))
  }

  /** A decline recorded in two statements is one atomic step of the tables it commits to. */
  lemma DeclineIsAtomic(line: seq<Tables>, id: Id, reason: string, actor: Actor, now: Instant, p: nat, q: nat)
    requires Timeline(line) && p <= q < |line| && id in line[0].payments
    requires HasStatus(line[p], id, PROCESSING) ==> PaymentLocked(line, id, p)
    requires forall k | k in OpenKeysOf(line[q], id) :: KeyLocked(line, k, q)
    ensures DeclineStatements(line, id, reason, actor, now, p, q) == Declined(AtCommit(line), id, reason, actor, now)
  {
    hide Inv, Timeline, OpenKeysOf, CompleteKeys, CopyOf, KeyLocked;
    PaymentStays(line, id, 0, p);
    if !HasStatus(line[p], id, PROCESSING) {
      PaymentStays(line, id, p, |line| - 1);
    } else {
      assert PaymentLocked(line, id, p);
      SameOpenKey(line, id, q);
    }
  }

  // ---- Cancel ----

  /** The payment a cancel refunds is still the booking's one paid payment at the commit. */
  lemma SameRefund(line: seq<Tables>, b: Id, p: nat, now: Instant)
    requires Timeline(line) && p < |line|
    requires b in line[p].bookings && b in AtCommit(line).bookings
    requires AtCommit(line).bookings[b] == line[p].bookings[b]
    requires forall q | q in SucceededOf(line[p], b) :: PaymentLocked(line, q, p)
    ensures SucceededOf(AtCommit(line), b) == SucceededOf(line[p], b)
    ensures RefundOf(AtCommit(line), b) == RefundOf(line[p], b)
  {
    hide Inv, Timeline;
    var before, end := line[p], AtCommit(line);
    Moments(line, p, |line| - 1);
    PaidIffConfirmed(before, b);
    PaidIffConfirmed(end, b);
    if SucceededOf(before, b) != {} {
      var q :| q in SucceededOf(before, b);
      assert PaymentLocked(line, q, p);
      SucceededIs(before, b, q);
      SucceededIs(end, b, q);
    }
  }

  /**
   * What cancel commits: the booking and seats of its cancel statement, whose
   * snapshot is at `s`, and the refund its payment statement found at `p`.
   */
  ghost function CancelTransaction(
    line: seq<Tables>, id: Id, scope: Scope, actor: Id, now: Instant, s: nat, p: nat, at: map<SeatKey, nat>): Tables
    requires s < |line| && p < |line| && id in AtCommit(line).bookings
  {
    var end := AtCommit(line);
    var done := CancelFrom(line, id, scope, now, s, at);
    var refund := RefundOf(line[p], id);
    var paid := SucceededOf(line[p], id);
    done.(
      payments := map q | q in end.payments :: if q in paid then RefundDue(end.payments[q], now) else end.payments[q],
      audit := end.audit + CancelAudit(id, refund, actor, now),
      outbox := end.outbox + [OutboxRow(BookingCancelled(id, SeatCodes(line[s].seats, id), refund), now)])
  }

  /** Cancel as a whole, once its lock statement has matched, is one atomic cancel of the tables it commits to. */
  lemma CancellationIsAtomic(
    line: seq<Tables>, id: Id, scope: Scope, actor: Id, now: Instant, g: nat, s: nat, p: nat, at: map<SeatKey, nat>)
    requires Timeline(line) && g <= s <= p < |line| && LockStatementMatched(line, id, scope, now, g)
    requires Granted(SeatsOf(line[s].seats, {id}), at, s, |line| - 1)
    requires forall q | q in SucceededOf(line[p], id) :: PaymentLocked(line, q, p)
    ensures id in AtCommit(line).bookings
    ensures CancelTransaction(line, id, scope, actor, now, s, p, at)
         == Cancel(AtCommit(line), id, scope, actor, now).db
  {
    hide Inv, Timeline, Granted, SeatsOf, SeatCodes, Release, Cancellable, CancelFrom, RefundOf, CancelAudit, SucceededOf;
    CancelIsAtomic(line, id, scope, now, g, s, at);
    LockedStaysCancellable(line, id, scope, now, g, p);
    LockedStaysCancellable(line, id, scope, now, g, |line| - 1);
    SameRefund(line, id, p, now);
  }
}

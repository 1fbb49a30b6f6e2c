/** Every row, unique entry or new key a transaction writes is one its program locked against all other writers. */
module LockCoverage {
  import opened Basics
  import opened Counting
  import opened Schema
  import opened Transactions
  import opened Invariants
  import opened PaymentSteps
  import opened Runs
  import opened MoneySafety
  import opened PayAnswers
  import opened CreateAnswers
  import opened CancelAnswers
  import opened SeatChangeAnswers
  import opened SettlementAnswers
  import opened Histories
  import opened ExpiryJob
  import opened HoldFacts
  import opened EndEvents
  import opened Locks
  import opened LockOrder

  predicate Excludes(mode: Mode) { mode.UPDATE? || mode.NO_KEY_UPDATE? }

  predicate LocksForWriting(a: Activity, r: Resource) {
    exists i | 0 <= i < |Program(a)| :: Program(a)[i].resource == r && Excludes(Program(a)[i].mode)
  }

  predicate HasPayment(payments: map<Id, Payment>, p: Id, b: Id, status: PaymentStatus) {
    p in payments && payments[p].bookingId == b && payments[p].status == status
  }

  predicate EntryMoved(payments: map<Id, Payment>, payments': map<Id, Payment>, b: Id, status: PaymentStatus) {
    exists p :: p in payments.Keys + payments'.Keys
      && (HasPayment(payments, p, b, status) != HasPayment(payments', p, b, status))
  }

  /** A row changed or went, a unique entry came or went, a key is new. */
  predicate Wrote(t: Tables, t': Tables, r: Resource) {
    match r
    case FlightRow(f) => f in t.flights && (f !in t'.flights || t'.flights[f] != t.flights[f])
    case FareRow(f, c) => (f, c) in t.fares && ((f, c) !in t'.fares || t'.fares[(f, c)] != t.fares[(f, c)])
    case NewKey(k) => k !in t.keys && k in t'.keys
    case ProcessingSlot(b) => EntryMoved(t.payments, t'.payments, b, PROCESSING)
    case BookingRow(b) => b in t.bookings && (b !in t'.bookings || t'.bookings[b] != t.bookings[b])
    case SeatRow(k) => k in t.seats && (k !in t'.seats || t'.seats[k] != t.seats[k])
    case ReferenceEntry(n) => !ReferenceTaken(t, n) && ReferenceTaken(t', n)
    case PaymentRow(p) => p in t.payments && (p !in t'.payments || t'.payments[p] != t.payments[p])
    case SucceededSlot(b) => EntryMoved(t.payments, t'.payments, b, SUCCEEDED)
    case KeyRowOf(k) => k in t.keys && (k !in t'.keys || t'.keys[k] != t.keys[k])
  }

  /** The rows `x` comes upon when its statements read `t`: what its locking queries select. */
  ghost predicate Does(a: Activity, t: Tables, x: Txn) {
    match x
    case DoCreate(r, now) =>
      && (if r.input.ChosenSeats? then
            && a.HoldsChosen? && a.flightId == r.flightId
            && a.found == set k | k in t.seats && k.flightId == r.flightId && k.position in r.input.positions
          else
            && a.HoldsAuto? && a.flightId == r.flightId
            && a.seats == TakenSeats(t, r.flightId, ToHoldRequest(r.input), r.locked, now))
      && (IsCreated(CreateBooking(t, r, now)) ==>
            a.reference == CreateBooking(t, r, now).result.value.booking.reference)
    case DoStart(_, r, _, _) =>
      if KeyFor(r) in t.keys then a == FindsKeyTaken(KeyFor(r)) else a == StartsPayment(KeyFor(r), r.bookingId)
    case DoCharged(id, p, _, _, _) =>
      && a.SettlesCharged? && a.paymentId == id && a.bookingId == p.bookingId
      && a.found == SeatsOf(t.seats, {p.bookingId}) && a.key in t.keys && t.keys[a.key].paymentId == Some(id)
    case DoDeclined(id, _, _, _) =>
      && a.SettlesDeclined? && a.paymentId == id && id in t.payments && a.bookingId == t.payments[id].bookingId
      && a.key in t.keys && t.keys[a.key].paymentId == Some(id)
    case DoClaim(now, _, limit, locked) => a == ClaimsPayments(ClaimedIds(t, now, limit, locked))
    case DoReschedule(id, _, _) => a == Reschedules(id)
    case DoRecordRefund(id, _, _) => a == RecordsRefund(id)
    case DoCancel(id, _, _, _) =>
      && a.Cancels? && a.id == id && a.found == SeatsOf(t.seats, {id})
      && (id in t.bookings ==> a.flightId == t.bookings[id].flightId)
      && a.paid == if RefundOf(t, id).Some? then Some(RefundOf(t, id).value.paymentId) else None
    case DoChangeSeat(id, position, target, _, _, _) =>
      && a.ChangesSeat? && a.id == id && (id in t.bookings ==> a.flightId == t.bookings[id].flightId)
      && (id in t.bookings && 1 <= position <= |t.bookings[id].passengers| ==>
            a.found == {SeatKey(t.bookings[id].flightId, t.bookings[id].passengers[position - 1].seat),
                        SeatKey(t.bookings[id].flightId, target)} * t.seats.Keys)
    case DoExpire(now, limit, locked) =>
      a == Sweeps(ExpiredIds(t, now, limit, locked), SeatsOf(t.seats, Elems(ExpiredIds(t, now, limit, locked))))
    case DoCleanup(picked) => a.CleansKeys? && picked <= Elems(a.keys)
    case DoAddFlight(_, _, _) => false
    case DoSetFlight(_, _) => false
    case DoSetFare(_, _, _) => false
  }

  lemma LockAt(a: Activity, i: nat)
    requires i < |Program(a)| && Excludes(Program(a)[i].mode)
    ensures LocksForWriting(a, Program(a)[i].resource)
  {
  }

  /** A seat among those found is locked, wherever the seats stand in the program. */
  lemma SeatsAreLocked(a: Activity, head: seq<Request>, found: set<SeatKey>, rest: seq<Request>, k: SeatKey)
    requires Program(a) == head + SeatsInOrder(found) + rest && k in found
    ensures LocksForWriting(a, SeatRow(k))
  {
    hide Program, LocksForWriting;
    var keys := SortedSeats(found);
    var i :| 0 <= i < |keys| && keys[i] == k;
    assert Program(a)[|head| + i] == SeatsInOrder(found)[i];
    LockAt(a, |head| + i);
  }

  // ---- Creating ----

  lemma CreateWritesItsLocks(t: Tables, x: Txn, a: Activity, res: Resource)
    requires x.DoCreate? && Does(a, t, x) && Wrote(t, Apply(t, x), res)
    ensures LocksForWriting(a, res)
  {
    hide CreateBooking, Program, LocksForWriting, FirstFreeDraw, TakenSeats;
    var r, now := x.create, x.now;
    OnlyCreatedWrites(t, r, now);
    CreatedBookingIs(t, r, now);
    CreatedSeats(t, r, now);
    CreatedPassengers(t, r, now);
    var b := CreateBooking(t, r, now).result.value.booking;
    if res.SeatRow? {
      HeldSeatIsFound(t, r, a, now, res.seat);
      HoldLocks(a, res.seat);
    } else {
      NewReference(t, Apply(t, x), r.id, b, res);
      HoldLocksReference(a);
    }
  }

  lemma NewReference(t: Tables, t': Tables, id: Id, b: Booking, res: Resource)
    requires id !in t.bookings && t'.bookings == t.bookings[id := b] && t'.payments == t.payments && t'.keys == t.keys
    requires t'.flights == t.flights && t'.fares == t.fares && Wrote(t, t', res) && !res.SeatRow?
    ensures res == ReferenceEntry(b.reference)
  {
  }

  lemma HeldSeatIsFound(t: Tables, r: CreateRequest, a: Activity, now: Instant, k: SeatKey)
    requires IsCreated(CreateBooking(t, r, now)) && Does(a, t, DoCreate(r, now))
    requires k in t.seats && CreateBooking(t, r, now).db.seats[k] != t.seats[k]
    ensures a.HoldsChosen? ==> k in a.found
    ensures a.HoldsAuto? ==> k in a.seats
  {
    hide Refusal, FreeReference, FirstDraws, Total, TakenSeats, SumPrices;
    var keys := TakenSeats(t, r.flightId, ToHoldRequest(r.input), r.locked, now);
    assert k in keys;
    if r.input.ChosenSeats? {
      ChosenHoldIff(t, r.flightId, r.input.positions, r.locked, now);
    }
  }

  lemma HoldLocks(a: Activity, k: SeatKey)
    requires (a.HoldsChosen? && k in a.found) || (a.HoldsAuto? && k in a.seats)
    ensures LocksForWriting(a, SeatRow(k))
  {
    if a.HoldsChosen? {
      var rest := Fares(a.flightId) + [Waits(ReferenceEntry(a.reference), UPDATE)];
      assert Program(a) == [Waits(FlightRow(a.flightId), SHARE)] + SeatsInOrder(a.found) + rest;
      SeatsAreLocked(a, [Waits(FlightRow(a.flightId), SHARE)], a.found, rest, k);
    } else {
      var i :| 0 <= i < |a.seats| && a.seats[i] == k;
      assert Program(a)[i + 1] == Takes(SeatRow(k), UPDATE);
    }
  }

  lemma HoldLocksReference(a: Activity)
    requires a.HoldsChosen? || a.HoldsAuto?
    ensures LocksForWriting(a, ReferenceEntry(a.reference))
  {
    var last := |Program(a)| - 1;
    assert Program(a)[last] == Waits(ReferenceEntry(a.reference), UPDATE);
  }

  // ---- Cancelling, changing a seat, sweeping ----

  lemma CancelWritesItsLocks(t: Tables, x: Txn, a: Activity, res: Resource)
    requires Inv(t) && x.DoCancel? && Does(a, t, x) && Wrote(t, Apply(t, x), res)
    ensures LocksForWriting(a, res)
  {
    hide Inv, Cancel, Program, LocksForWriting, IsSeatOf, NamesItsSeats, InSeatOrder, Total, SeatsOf, RefundOf;
    CancelAnswersIff(t, x.id, x.scope, x.account, x.now);
    CancellationLeaves(t, x.id, x.scope, x.account, x.now);
    if res.SeatRow? {
      SeatsOfAreItsPassengers(t, x.id, res.seat);
      var head := [Waits(BookingRow(a.id), UPDATE), Waits(FlightRow(a.flightId), SHARE)];
      CancelProgram(a);
      SeatsAreLocked(a, head, a.found, PaidLocks(a), res.seat);
    } else {
      CancelLocks(t, x, a, res);
    }
  }

  function PaidLocks(a: Activity): seq<Request>
    requires a.Cancels?
  {
    if a.paid.Some? then [Waits(PaymentRow(a.paid.value), NO_KEY_UPDATE), Takes(SucceededSlot(a.id), UPDATE)] else []
  }

  lemma CancelProgram(a: Activity)
    requires a.Cancels?
    ensures Program(a) ==
      [Waits(BookingRow(a.id), UPDATE), Waits(FlightRow(a.flightId), SHARE)] + SeatsInOrder(a.found) + PaidLocks(a)
  {
  }

  /** The entry at the head of a program is its first lock. */
  lemma HeadIsLocked(a: Activity, r: Request, rest: seq<Request>)
    requires Program(a) == [r] + rest && Excludes(r.mode)
    ensures LocksForWriting(a, r.resource)
  {
    hide Program;
    assert Program(a)[0] == r;
  }

  lemma CancelLocks(t: Tables, x: Txn, a: Activity, res: Resource)
    requires Inv(t) && x.DoCancel? && Does(a, t, x) && Wrote(t, Apply(t, x), res) && !res.SeatRow?
    ensures LocksForWriting(a, res)
  {
    hide Inv, Program, LocksForWriting, IsSeatOf, Total, SeatsOf, RefundOf, RefundsDue, SeatCodes, Release, CancelAudit,
         Wrote, EntryMoved, SeatsInOrder;
    var id, t' := x.id, Apply(t, x);
    CancelAnswersIff(t, id, x.scope, x.account, x.now);
    CancelProgram(a);
    if Cancellable(t, id, x.scope, x.now) {
      RefundIsThePaid(t, id, x.now);
      HeadIsLocked(a, Waits(BookingRow(id), UPDATE),
        [Waits(FlightRow(a.flightId), SHARE)] + SeatsInOrder(a.found) + PaidLocks(a));
      if t.bookings[id].status.CONFIRMED? { PaidIsLocked(a); }
      EndWritesThese(t, t', id, RefundOf(t, id), x.now, res);
    } else {
      NothingWritten(t, res);
    }
  }

  lemma PaidIsLocked(a: Activity)
    requires a.Cancels? && a.paid.Some?
    ensures LocksForWriting(a, PaymentRow(a.paid.value)) && LocksForWriting(a, SucceededSlot(a.id))
  {
    var last := |Program(a)| - 1;
    assert Program(a)[last] == Takes(SucceededSlot(a.id), UPDATE);
    assert Program(a)[last - 1] == Waits(PaymentRow(a.paid.value), NO_KEY_UPDATE);
  }

  lemma NothingWritten(t: Tables, res: Resource)
    ensures !Wrote(t, t, res)
  {
  }

  lemma EndWritesThese(t: Tables, t': Tables, id: Id, refund: Option<Refund>, now: Instant, res: Resource)
    requires id in t.bookings && t'.bookings == WithStatus(t.bookings, id, BookingStatus.CANCELLED)
    requires t'.keys == t.keys && t'.flights == t.flights && t'.fares == t.fares
    requires if refund.None? then t'.payments == t.payments
             else RefundsOnly(t.payments, t'.payments, refund.value.paymentId, now)
                  && t.payments[refund.value.paymentId].bookingId == id
    requires Wrote(t, t', res) && !res.SeatRow?
    ensures res == BookingRow(id)
         || (refund.Some? && (res == PaymentRow(refund.value.paymentId) || res == SucceededSlot(id)))
  {
    SameReferences(t, t');
  }

  lemma SameReferences(t: Tables, t': Tables)
    requires t'.bookings.Keys == t.bookings.Keys
    requires forall b | b in t.bookings :: t'.bookings[b].reference == t.bookings[b].reference
    ensures forall n :: ReferenceTaken(t', n) ==> ReferenceTaken(t, n)
  {
    forall n: nat | ReferenceTaken(t', n) ensures ReferenceTaken(t, n) {
      var b :| b in t'.bookings && t'.bookings[b].reference == n;
      assert b in t.bookings && t.bookings[b].reference == n;
    }
  }

  lemma ChangeWritesItsLocks(t: Tables, x: Txn, a: Activity, res: Resource)
    requires Inv(t) && x.DoChangeSeat? && Does(a, t, x) && Wrote(t, Apply(t, x), res)
    ensures LocksForWriting(a, res)
  {
    hide Inv, ChangeSeat, Program, LocksForWriting, SeatsInOrder, Does, Wrote;
    var t' := Apply(t, x);
    WhoseSeatIff(t, x.id, x.position, x.target, x.scope, x.account, x.now);
    if t' == t {
      NothingWritten(t, res);
    } else {
      SeatIsFoundOrBookingWritten(t, x, a, res);
      ChangeProgram(a);
      HeadIsLocked(a, Waits(BookingRow(a.id), UPDATE), [Waits(FlightRow(a.flightId), SHARE)] + SeatsInOrder(a.found));
      if res.SeatRow? {
        SeatsAreLocked(a, [Waits(BookingRow(a.id), UPDATE), Waits(FlightRow(a.flightId), SHARE)], a.found, [], res.seat);
      }
    }
  }

  /** A change writes its two seats, both found, and its booking. */
  lemma SeatIsFoundOrBookingWritten(t: Tables, x: Txn, a: Activity, res: Resource)
    requires Inv(t) && x.DoChangeSeat? && Does(a, t, x) && Wrote(t, Apply(t, x), res)
    requires ChangeSeat(t, x.id, x.position, x.target, x.scope, x.account, x.now).result.Ok?
    requires ChangeSeat(t, x.id, x.position, x.target, x.scope, x.account, x.now).result.value.Changed?
    ensures a.ChangesSeat? && if res.SeatRow? then res.seat in a.found else res == BookingRow(a.id)
  {
    hide Inv, ChangeSeat, EntryMoved;
    ChangeLeaves(t, x.id, x.position, x.target, x.scope, x.account, x.now);
    if !res.SeatRow? { ReseatingWritesThese(t, Apply(t, x), x.id, res); }
  }

  lemma ChangeProgram(a: Activity)
    requires a.ChangesSeat?
    ensures Program(a) ==
      [Waits(BookingRow(a.id), UPDATE), Waits(FlightRow(a.flightId), SHARE)] + SeatsInOrder(a.found) + []
  {
  }

  lemma ReseatingWritesThese(t: Tables, t': Tables, id: Id, res: Resource)
    requires id in t.bookings && t'.bookings.Keys == t.bookings.Keys
    requires forall c | c in t.bookings && c != id :: t'.bookings[c] == t.bookings[c]
    requires t'.bookings[id].reference == t.bookings[id].reference
    requires t'.payments == t.payments && t'.keys == t.keys && t'.flights == t.flights && t'.fares == t.fares
    requires Wrote(t, t', res) && !res.SeatRow?
    ensures res == BookingRow(id)
  {
    SameReferences(t, t');
  }

  lemma SweepWritesItsLocks(t: Tables, x: Txn, a: Activity, res: Resource)
    requires Inv(t) && x.DoExpire? && Does(a, t, x) && Wrote(t, Apply(t, x), res)
    ensures LocksForWriting(a, res)
  {
    hide Inv, ExpireAll, ExpiredIds, Program, LocksForWriting, SeatsOf, Reported, AuditsOf, EventsOf;
    var ids := ExpiredIds(t, x.now, x.limit, x.locked);
    DueHoldsExist(t, x.now, x.limit, x.locked);
    BulkIsOneByOne(t, ids, x.now);
    SweepProgram(a);
    if res.SeatRow? {
      SeatsAreLocked(a, HoldLocksOf(a.holds), a.found, [], res.seat);
    } else {
      EndingWritesThese(t, Apply(t, x), ids, res);
      HoldIsLocked(a, res.bookingId);
    }
  }

  function HoldLocksOf(holds: seq<Id>): seq<Request> {
    seq(|holds|, i requires 0 <= i < |holds| => Takes(BookingRow(holds[i]), UPDATE))
  }

  lemma SweepProgram(a: Activity)
    requires a.Sweeps?
    ensures Program(a) == HoldLocksOf(a.holds) + SeatsInOrder(a.found) + []
  {
  }

  lemma HoldIsLocked(a: Activity, b: Id)
    requires a.Sweeps? && b in a.holds
    ensures LocksForWriting(a, BookingRow(b))
  {
    hide SeatsInOrder;
    var i :| 0 <= i < |a.holds| && a.holds[i] == b;
    assert Program(a)[i] == Takes(BookingRow(b), UPDATE);
  }

  lemma EndingWritesThese(t: Tables, t': Tables, ids: seq<Id>, res: Resource)
    requires t'.bookings == AllExpired(t.bookings, ids)
    requires t'.payments == t.payments && t'.keys == t.keys && t'.flights == t.flights && t'.fares == t.fares
    requires Wrote(t, t', res) && !res.SeatRow?
    ensures res.BookingRow? && res.bookingId in ids
  {
    SameReferences(t, t');
  }

  // ---- Settling ----

  lemma SettlingWritesItsLocks(t: Tables, x: Txn, a: Activity, res: Resource)
    requires Inv(t) && Enabled(t, x) && x.DoCharged? && Does(a, t, x) && Wrote(t, Apply(t, x), res)
    ensures LocksForWriting(a, res)
  {
    hide Inv, Charged, Program, LocksForWriting, SeatsOf, Wrote, Total, IsSeatOf;
    var id, p, t' := x.id, x.copy, Apply(t, x);
    if !HasStatus(t, id, PROCESSING) {
      SettleOfSettled(t, id, ByCharge(p, x.reference, x.actor, x.now));
      NothingWritten(t, res);
    } else {
      ChargeLocks(a);
      if PayersHold(t, p.bookingId, p.accountId, x.now) {
        ConfirmationLeaves(t, id, p, x.reference, x.actor, x.now);
        if res.SeatRow? {
          BookedSeatIsFound(t, t', p.bookingId, res.seat);
          SeatsAreLocked(a, [Waits(BookingRow(a.bookingId), NO_KEY_UPDATE)], a.found, ChargeRest(a), res.seat);
        } else {
          OneKeyMoved(t, t', id, a.key, Charged(t, id, p, x.reference, x.actor, x.now).result.value, x.now);
          ConfirmWritesThese(t, t', p.bookingId, id, a.key, res);
        }
      } else {
        RefundLeaves(t, id, p, x.reference, x.actor, x.now);
        OneKeyMoved(t, t', id, a.key, Charged(t, id, p, x.reference, x.actor, x.now).result.value, x.now);
        SettleWritesThese(t, t', id, a.key, res);
      }
    }
  }

  function ChargeRest(a: Activity): seq<Request>
    requires a.SettlesCharged?
  {
    [Waits(PaymentRow(a.paymentId), NO_KEY_UPDATE), Takes(ProcessingSlot(a.bookingId), UPDATE),
     Waits(SucceededSlot(a.bookingId), UPDATE), Waits(KeyRowOf(a.key), NO_KEY_UPDATE)]
  }

  lemma ChargeLocks(a: Activity)
    requires a.SettlesCharged?
    ensures Program(a) == [Waits(BookingRow(a.bookingId), NO_KEY_UPDATE)] + SeatsInOrder(a.found) + ChargeRest(a)
    ensures LocksForWriting(a, BookingRow(a.bookingId)) && LocksForWriting(a, PaymentRow(a.paymentId))
    ensures LocksForWriting(a, ProcessingSlot(a.bookingId)) && LocksForWriting(a, SucceededSlot(a.bookingId))
    ensures LocksForWriting(a, KeyRowOf(a.key))
  {
    hide SeatsInOrder;
    var n := |Program(a)|;
    assert Program(a)[0] == Waits(BookingRow(a.bookingId), NO_KEY_UPDATE);
    assert Program(a)[n - 4] == ChargeRest(a)[0] && Program(a)[n - 3] == ChargeRest(a)[1];
    assert Program(a)[n - 2] == ChargeRest(a)[2] && Program(a)[n - 1] == ChargeRest(a)[3];
  }

  lemma BookedSeatIsFound(t: Tables, t': Tables, b: Id, k: SeatKey)
    requires Inv(t) && b in t.bookings && t.bookings[b].status.HELD? && BookedOnly(t.seats, t'.seats, b, t.bookings[b])
    requires Wrote(t, t', SeatRow(k))
    ensures k in SeatsOf(t.seats, {b})
  {
    hide Inv, SeatsOf;
    SeatsOfAreItsPassengers(t, b, k);
  }

  /** Two keys never share a payment, so the answered one is the one named. */
  lemma OneKeyMoved(t: Tables, t': Tables, id: Id, k: KeyId, response: StoredResponse, now: Instant)
    requires Inv(t) && k in t.keys && t.keys[k].paymentId == Some(id) && AnsweredOnly(t.keys, t'.keys, id, response, now)
    ensures k in t'.keys && t'.keys == t.keys[k := t'.keys[k]]
  {
    hide Inventory, Money, Events, References, KeyOk;
  }

  lemma ConfirmWritesThese(t: Tables, t': Tables, b: Id, id: Id, k: KeyId, res: Resource)
    requires b in t.bookings && t'.bookings == WithStatus(t.bookings, b, CONFIRMED)
    requires id in t.payments && id in t'.payments && t'.payments == t.payments[id := t'.payments[id]]
    requires t.payments[id].bookingId == b && t'.payments[id].bookingId == b
    requires k in t'.keys && t'.keys == t.keys[k := t'.keys[k]] && k in t.keys
    requires t'.flights == t.flights && t'.fares == t.fares && Wrote(t, t', res) && !res.SeatRow?
    ensures res in {BookingRow(b), PaymentRow(id), ProcessingSlot(b), SucceededSlot(b), KeyRowOf(k)}
  {
    SameReferences(t, t');
  }

  lemma SettleWritesThese(t: Tables, t': Tables, id: Id, k: KeyId, res: Resource)
    requires id in t.payments && id in t'.payments && t'.payments == t.payments[id := t'.payments[id]]
    requires t'.payments[id].bookingId == t.payments[id].bookingId
    requires t.payments[id].status.PROCESSING? && (t'.payments[id].status.FAILED? || t'.payments[id].status.REFUND_PENDING?)
    requires k in t'.keys && t'.keys == t.keys[k := t'.keys[k]] && k in t.keys
    requires t' == t.(payments := t'.payments, keys := t'.keys, audit := t'.audit) && Wrote(t, t', res)
    ensures res in {PaymentRow(id), ProcessingSlot(t.payments[id].bookingId), KeyRowOf(k)}
  {
  }

  lemma DecliningWritesItsLocks(t: Tables, x: Txn, a: Activity, res: Resource)
    requires Inv(t) && x.DoDeclined? && Does(a, t, x) && Wrote(t, Apply(t, x), res)
    ensures LocksForWriting(a, res)
  {
    hide Inv, Declined, LocksForWriting, Wrote;
    var id, t' := x.id, Apply(t, x);
    if !HasStatus(t, id, PROCESSING) {
      SettleOfSettled(t, id, ByDecline(x.reason, x.actor, x.now));
      NothingWritten(t, res);
    } else {
      DeclineLeaves(t, id, x.reason, x.actor, x.now);
      OneKeyMoved(t, t', id, a.key, Declined(t, id, x.reason, x.actor, x.now).result.value, x.now);
      SettleWritesThese(t, t', id, a.key, res);
      LockAt(a, 0);
      LockAt(a, 1);
      LockAt(a, 2);
    }
  }

  // ---- Starting a payment, and the jobs' single rows ----

  lemma StartingWritesItsLocks(t: Tables, x: Txn, a: Activity, res: Resource)
    requires x.DoStart? && Does(a, t, x) && Wrote(t, Apply(t, x), res)
    ensures LocksForWriting(a, res)
  {
    hide StartPayment, LocksForWriting;
    StartAddsOnePayment(t, x.read, x.pay, x.now, x.reconcileAfterMs);
    StartAddsOneKey(t, x.read, x.pay, x.now, x.reconcileAfterMs);
    StartLeavesTheRest(t, x.read, x.pay, x.now, x.reconcileAfterMs);
    LockAt(a, 0);
    if a.StartsPayment? { LockAt(a, 1); }
  }

  lemma StartLeavesTheRest(t: Tables, read: Option<Booking>, r: PayRequest, now: Instant, after: int)
    ensures
      var o := StartPayment(t, read, r, now, after);
      && o.db.seats == t.seats && o.db.flights == t.flights && o.db.fares == t.fares && o.db.bookings == t.bookings
      && (o.result.Ok? && o.result.value.Started? ==>
            o.result.value.payment.bookingId == r.bookingId && KeyFor(r) !in t.keys)
  {
    hide StartPayment;
    StartLeavesSeats(t, read, r, now, after);
    StartLeavesBookings(t, read, r, now, after);
    StartLeavesFares(t, read, r, now, after);
    StartIsOfItsBooking(t, read, r, now, after);
  }

  lemma StartLeavesFares(t: Tables, read: Option<Booking>, r: PayRequest, now: Instant, after: int)
    ensures StartPayment(t, read, r, now, after).db.fares == t.fares
  {
    hide Total, CanStartPayment, PaymentRunning, NotPayable, NotFoundResponse, Completed, FreshKey, NewPayment;
  }

  lemma StartIsOfItsBooking(t: Tables, read: Option<Booking>, r: PayRequest, now: Instant, after: int)
    ensures
      var o := StartPayment(t, read, r, now, after);
      o.result.Ok? && o.result.value.Started? ==>
        o.result.value.payment.bookingId == r.bookingId && KeyFor(r) !in t.keys
  {
    hide Total, CanStartPayment, PaymentRunning, NotPayable, NotFoundResponse, Completed, FreshKey;
  }

  lemma ClaimWritesItsLocks(t: Tables, x: Txn, a: Activity, res: Resource)
    requires x.DoClaim? && Does(a, t, x) && Wrote(t, Apply(t, x), res)
    ensures LocksForWriting(a, res)
  {
    hide LocksForWriting, ClaimedIds;
    assert res.PaymentRow? && res.paymentId in a.payments;
    var i :| 0 <= i < |a.payments| && a.payments[i] == res.paymentId;
    LockAt(a, i);
  }

  lemma CleanupWritesItsLocks(t: Tables, x: Txn, a: Activity, res: Resource)
    requires x.DoCleanup? && Does(a, t, x) && Wrote(t, Apply(t, x), res)
    ensures LocksForWriting(a, res)
  {
    hide LocksForWriting;
    assert res.KeyRowOf? && res.key in a.keys;
    var i :| 0 <= i < |a.keys| && a.keys[i] == res.key;
    LockAt(a, i);
  }

  /** A transaction that only moves a payment between statuses of no unique index writes that row alone. */
  lemma OneRowWritten(t: Tables, t': Tables, id: Id, res: Resource)
    requires id in t.payments && id in t'.payments && t'.payments == t.payments[id := t'.payments[id]]
    requires t'.payments[id].bookingId == t.payments[id].bookingId
    requires t'.payments[id].status == t.payments[id].status
          || (t.payments[id].status.REFUND_PENDING? && InRefund(t'.payments[id].status))
    requires t' == t.(payments := t'.payments, audit := t'.audit) && Wrote(t, t', res)
    ensures res == PaymentRow(id)
  {
  }

  /** A reschedule and a recorded refund write the row they are told to, and no entry of a unique index. */
  lemma OnePaymentWritesItsLock(t: Tables, x: Txn, a: Activity, res: Resource)
    requires x.DoReschedule? || x.DoRecordRefund?
    requires Does(a, t, x) && Wrote(t, Apply(t, x), res)
    ensures LocksForWriting(a, res)
  {
    hide LocksForWriting, Wrote;
    if Apply(t, x) == t {
      NothingWritten(t, res);
    } else {
      OneRowWritten(t, Apply(t, x), x.id, res);
    }
    LockAt(a, 0);
  }

  lemma JobsWriteTheirLocks(t: Tables, x: Txn, a: Activity, res: Resource)
    requires x.DoClaim? || x.DoReschedule? || x.DoRecordRefund? || x.DoCleanup?
    requires Does(a, t, x) && Wrote(t, Apply(t, x), res)
    ensures LocksForWriting(a, res)
  {
    hide LocksForWriting, Does, Wrote, Apply;
    if x.DoClaim? {
      ClaimWritesItsLocks(t, x, a, res);
    } else if x.DoCleanup? {
      CleanupWritesItsLocks(t, x, a, res);
    } else {
      OnePaymentWritesItsLock(t, x, a, res);
    }
  }

  /**
   * Nothing is written without its lock: whatever row, unique entry or key a
   * committed transaction changes, adds or removes, its program has locked
   * against every other writer. What the deadlock theorem is about is
   * therefore all there is to wait for.
   */
  lemma WritesAreLocked(t: Tables, x: Txn, a: Activity, res: Resource)
    requires Inv(t) && Enabled(t, x) && Does(a, t, x) && Wrote(t, Apply(t, x), res)
    ensures LocksForWriting(a, res)
  {
    hide Inv, Apply, Wrote, LocksForWriting, Program, EarlierRead, CopyOf;
    match x
    case DoCreate(_, _) => CreateWritesItsLocks(t, x, a, res);
    case DoStart(_, _, _, _) => StartingWritesItsLocks(t, x, a, res);
    case DoCharged(_, _, _, _, _) => SettlingWritesItsLocks(t, x, a, res);
    case DoDeclined(_, _, _, _) => DecliningWritesItsLocks(t, x, a, res);
    case DoCancel(_, _, _, _) => CancelWritesItsLocks(t, x, a, res);
    case DoChangeSeat(_, _, _, _, _, _) => ChangeWritesItsLocks(t, x, a, res);
    case DoExpire(_, _, _) => SweepWritesItsLocks(t, x, a, res);
    case DoAddFlight(_, _, _) =>
    case DoSetFlight(_, _) =>
    case DoSetFare(_, _, _) =>
    case _ => JobsWriteTheirLocks(t, x, a, res);
  }

  // ---- What a transaction decides by ----

  /** Nobody can change the row while the transaction is under way. */
  predicate Keeps(a: Activity, r: Resource) {
    exists i | 0 <= i < |Program(a)| :: Program(a)[i].resource == r && Conflict(Program(a)[i].mode, NO_KEY_UPDATE)
  }

  /**
   * What it decides by stays as it was read: a hold keeps its flight and both
   * fares, a cancel and a seat change their booking's flight.
   */
  lemma DecidesByLockedRows(t: Tables, x: Txn, a: Activity)
    requires Does(a, t, x)
    ensures x.DoCreate? ==>
      Keeps(a, FlightRow(x.create.flightId)) && forall c: FareClass :: Keeps(a, FareRow(x.create.flightId, c))
    ensures (x.DoCancel? || x.DoChangeSeat?) && x.id in t.bookings ==> Keeps(a, FlightRow(t.bookings[x.id].flightId))
  {
    hide SeatsInOrder, TakenSeats, CreateBooking;
    if x.DoCreate? {
      var f, n := x.create.flightId, |Program(a)|;
      assert Program(a)[0] == Waits(FlightRow(f), SHARE);
      assert Program(a)[n - 3] == Waits(FareRow(f, ECONOMY), SHARE);
      assert Program(a)[n - 2] == Waits(FareRow(f, BUSINESS), SHARE);
      forall c: FareClass ensures Keeps(a, FareRow(f, c)) {
        if c.ECONOMY? {} else {}
      }
    } else if (x.DoCancel? || x.DoChangeSeat?) && x.id in t.bookings {
      assert Program(a)[1] == Waits(FlightRow(t.bookings[x.id].flightId), SHARE);
    }
  }
}

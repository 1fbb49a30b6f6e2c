/** What a stored response goes on telling: of the fields that never change again, exactly what the rows say. */
module StoredAnswers {
  import opened Basics
  import opened Schema
  import opened Transactions
  import opened Invariants
  import opened PaymentSteps
  import opened Runs
  import opened Histories
  import opened MoneySafety
  import opened Theorems
  import opened PayAnswers

  /** The booking shown is the stored one as it was when confirmed; since, it may have been cancelled and its passengers reseated. */
  predicate ShowsBooking(shown: Booking, stored: Booking) {
    && shown.status.CONFIRMED?
    && shown == stored.(status := CONFIRMED, passengers := shown.passengers)
    && PaidForTheSame(stored, shown)
  }

  predicate ShowsPayment(shown: PaymentView, id: Id, p: Payment) {
    && (p.status.SUCCEEDED? || InRefund(p.status)) && p.providerReference.Some?
    && shown == PaymentView(id, p.bookingId, SUCCEEDED, p.amount, p.providerReference, p.createdAt)
  }

  predicate NamesTheReason(body: ResponseBody, p: Payment) {
    && p.status.FAILED? && p.failureReason.Some?
    && body == ErrorBody("PAYMENT_DECLINED", "Payment was declined: " + p.failureReason.value)
  }

  predicate SaysRefunding(body: ResponseBody) {
    body == ErrorBody("BOOKING_NOT_PAYABLE",
      "Booking was cancelled or expired while the payment was processed; the payment is being refunded")
  }

  /** What the response stored for payment `id` says of it and of its booking. */
  predicate Tells(t: Tables, r: StoredResponse, id: Id) {
    && id in t.payments
    && var p := t.payments[id];
       match r.status
       case 201 =>
         && p.bookingId in t.bookings && r.body.Confirmation? && r.body.bookingId == p.bookingId
         && ShowsPayment(r.body.payment, id, p) && ShowsBooking(r.body.booking, t.bookings[p.bookingId])
       case 402 => NamesTheReason(r.body, p)
       case 409 => InRefund(p.status) && SaysRefunding(r.body)
       case _ => false
  }

  /** A response stored without a payment is one of phase 1's refusals. */
  predicate TellsRow(t: Tables, row: KeyRow) {
    row.status.COMPLETED? ==>
      && row.response.Some?
      && if row.paymentId.Some? then Tells(t, row.response.value, row.paymentId.value)
         else row.response.value in {Refused404(), RefusedNotHeld(), RefusedUnderMargin()}
  }

  ghost predicate AllTell(t: Tables) { forall k | k in t.keys :: TellsRow(t, t.keys[k]) }

  // ---- Rows that stay ----

  /** What a transaction leaves of a payment that is no longer PROCESSING. */
  predicate KeepsWhatIsTold(p: Payment, q: Payment) {
    && q.bookingId == p.bookingId && q.amount == p.amount && q.createdAt == p.createdAt
    && q.providerReference == p.providerReference
    && (p.status.FAILED? ==> q.status.FAILED? && q.failureReason == p.failureReason)
    && (p.status.SUCCEEDED? ==> q.status.SUCCEEDED? || InRefund(q.status))
    && (InRefund(p.status) ==> InRefund(q.status))
  }

  ghost predicate PaymentsKeep(payments: map<Id, Payment>, payments': map<Id, Payment>) {
    forall p | p in payments && !payments[p].status.PROCESSING? ::
      p in payments' && KeepsWhatIsTold(payments[p], payments'[p])
  }

  lemma CancelKeepsPayments(t: Tables, id: Id, scope: Scope, actor: Id, now: Instant)
    ensures PaymentsKeep(t.payments, Cancel(t, id, scope, actor, now).db.payments)
  {
    hide SeatCodes, RefundOf, CancelAudit, Release, Cancellable;
  }

  lemma ChargedKeepsPayments(t: Tables, id: Id, p: Payment, reference: string, actor: Actor, now: Instant)
    ensures PaymentsKeep(t.payments, Charged(t, id, p, reference, actor, now).db.payments)
  {
    hide Charged;
    ChargedMovesOneRow(t, id, p, reference, actor, now);
  }

  lemma DeclinedKeepsPayments(t: Tables, id: Id, reason: string, actor: Actor, now: Instant)
    ensures PaymentsKeep(t.payments, Declined(t, id, reason, actor, now).db.payments)
  {
    hide CompleteKeys, OpenKeysOf;
  }

  lemma StepKeepsPayments(t: Tables, x: Txn)
    ensures PaymentsKeep(t.payments, Apply(t, x).payments)
  {
    hide CreateBooking, ChangeSeat, ExpireBatch, Cancel, Charged, StartPayment, Declined, ClaimedIds;
    match x
    case DoCreate(r, now) => CreateLeavesPayments(t, r, now);
    case DoCancel(id, scope, actor, now) => CancelKeepsPayments(t, id, scope, actor, now);
    case DoChangeSeat(id, position, target, scope, actor, now) =>
      ChangeSeatLeavesPayments(t, id, position, target, scope, actor, now);
    case DoExpire(now, limit, locked) => ExpiryLeavesPayments(t, now, limit, locked);
    case DoCharged(id, p, reference, actor, now) => ChargedKeepsPayments(t, id, p, reference, actor, now);
    case DoDeclined(id, reason, actor, now) => DeclinedKeepsPayments(t, id, reason, actor, now);
    case DoStart(read, r, now, after) => StartAddsOnePayment(t, read, r, now, after);
    case _ =>
  }

  lemma StillTells(t: Tables, t': Tables, r: StoredResponse, id: Id)
    requires Tells(t, r, id)
    requires PaymentsKeep(t.payments, t'.payments) && BookingsAdvance(t.bookings, t'.bookings)
    ensures Tells(t', r, id)
  {
    hide BookingAdvances, ShowsBooking, ShowsPayment, NamesTheReason, SaysRefunding, KeepsWhatIsTold;
    var p := t.payments[id];
    ToldIsSettled(t, r, id);
    StaysTold(r, id, p, t'.payments[id]);
    if r.status == 201 {
      assert BookingAdvances(t.bookings[p.bookingId], t'.bookings[p.bookingId]);
      StillShown(t.bookings[p.bookingId], t'.bookings[p.bookingId], r.body.booking);
    }
  }

  lemma ToldIsSettled(t: Tables, r: StoredResponse, id: Id)
    requires Tells(t, r, id)
    ensures !t.payments[id].status.PROCESSING?
  {
    hide ShowsBooking, SaysRefunding;
  }

  lemma StaysTold(r: StoredResponse, id: Id, p: Payment, q: Payment)
    requires !p.status.PROCESSING? ==> KeepsWhatIsTold(p, q)
    ensures InRefund(p.status) ==> InRefund(q.status)
    ensures !p.status.PROCESSING? ==> q.bookingId == p.bookingId
    ensures r.body.Confirmation? && ShowsPayment(r.body.payment, id, p) ==>
      ShowsPayment(r.body.payment, id, q) && q.bookingId == p.bookingId
    ensures NamesTheReason(r.body, p) ==> NamesTheReason(r.body, q)
  {
  }

  lemma StillShown(b: Booking, c: Booking, shown: Booking)
    requires BookingAdvances(b, c) && ShowsBooking(shown, b)
    ensures ShowsBooking(shown, c)
  {
    hide PaidForTheSame;
    StillPaidForTheSame(b, c, shown);
  }

  lemma StillPaidForTheSame(b: Booking, c: Booking, shown: Booking)
    requires PaidForTheSame(b, c) && PaidForTheSame(b, shown)
    ensures PaidForTheSame(c, shown)
  {
  }

  lemma SameBookingIsShown(b: Booking)
    requires b.status.CONFIRMED?
    ensures ShowsBooking(b, b)
  {
  }

  // ---- One transaction ----

  lemma OldRowTells(t: Tables, x: Txn, k: KeyId)
    requires k in t.keys && k in Apply(t, x).keys && t.keys[k].status.COMPLETED? && TellsRow(t, t.keys[k])
    ensures TellsRow(Apply(t, x), Apply(t, x).keys[k])
  {
    hide Apply, Tells, PaymentsKeep, BookingsAdvance;
    KeysOnlyAdvance(t, x);
    assert KeyAdvances(t.keys[k], Apply(t, x).keys[k]);
    if t.keys[k].paymentId.Some? {
      StepKeepsPayments(t, x);
      BookingsOnlyAdvance(t, x);
      StillTells(t, Apply(t, x), t.keys[k].response.value, t.keys[k].paymentId.value);
    }
  }

  lemma ChargedTellsRow(t: Tables, id: Id, p: Payment, reference: string, actor: Actor, now: Instant)
    requires Inv(t) && CopyOf(t, id, p) && HasStatus(t, id, PROCESSING)
    ensures
      var o := Charged(t, id, p, reference, actor, now);
      o.result.Ok? && Tells(o.db, o.result.value, id)
  {
    hide Inv, Charged, PaidForTheSame, PayersHold;
    var o := Charged(t, id, p, reference, actor, now);
    ChargeIsAnsweredFromItsRows(t, id, p, reference, actor, now);
    ChargedMovesOneRow(t, id, p, reference, actor, now);
    if o.result.value.status == 201 {
      SameBookingIsShown(o.db.bookings[p.bookingId]);
    }
  }

  lemma NewlyCompletedTells(t: Tables, x: Txn, k: KeyId)
    requires Inv(t) && Enabled(t, x) && (x.DoCharged? || x.DoDeclined?)
    requires k in t.keys && t.keys[k].status.IN_PROGRESS?
    ensures k in Apply(t, x).keys && TellsRow(Apply(t, x), Apply(t, x).keys[k])
  {
    hide Inv, Charged, Declined, Tells;
    match x
    case DoCharged(id, p, reference, actor, now) =>
      ChargedKeepsInv(t, id, p, reference, actor, now);
      ChargedCompletesKeys(t, id, p, reference, actor, now);
      if HasStatus(t, id, PROCESSING) { ChargedTellsRow(t, id, p, reference, actor, now); }
    case DoDeclined(id, reason, actor, now) =>
      DeclinedCompletesKeys(t, id, reason, actor, now);
      DeclinedKeepsInv(t, id, reason, actor, now);
      if HasStatus(t, id, PROCESSING) { DeclinedTellsRow(t, id, reason, actor, now); }
  }

  lemma DeclinedTellsRow(t: Tables, id: Id, reason: string, actor: Actor, now: Instant)
    requires Inv(t) && HasStatus(t, id, PROCESSING)
    ensures Tells(Declined(t, id, reason, actor, now).db, DeclinedResponse(reason), id)
  {
    hide Inv, Declined;
    DeclineIsAnsweredFromItsRow(t, id, reason, actor, now);
    DeclinedAnswer(t, id, reason, actor, now);
  }

  lemma DeclinedAnswer(t: Tables, id: Id, reason: string, actor: Actor, now: Instant)
    requires Declined(t, id, reason, actor, now).result.Ok?
    ensures Declined(t, id, reason, actor, now).result.value == DeclinedResponse(reason)
  {
  }

  lemma DeclinedCompletesKeys(t: Tables, id: Id, reason: string, actor: Actor, now: Instant)
    ensures
      var o := Declined(t, id, reason, actor, now);
      && (o.result.Err? ==> o.db == t)
      && (o.result.Ok? ==> o.db.keys == CompleteKeys(t.keys, OpenKeysOf(t, id), DeclinedResponse(reason), now))
  {
  }

  lemma StartedTells(t: Tables, read: Option<Booking>, r: PayRequest, now: Instant, after: int)
    requires KeyFor(r) !in t.keys && KeyFor(r) in StartPayment(t, read, r, now, after).db.keys
    ensures
      var db := StartPayment(t, read, r, now, after).db;
      TellsRow(db, db.keys[KeyFor(r)])
  {
    hide Total, PaymentRunning;
  }

  /** Every other transaction leaves the keys it leaves as they are. */
  lemma OtherKeysAreSame(t: Tables, x: Txn, k: KeyId)
    requires !x.DoCharged? && !x.DoDeclined? && k in Apply(t, x).keys
    requires x.DoStart? ==> k != KeyFor(x.pay) || k in t.keys
    ensures k in t.keys && Apply(t, x).keys[k] == t.keys[k]
  {
    hide CreateBooking, ChangeSeat, ExpireBatch, Cancel, StartPayment, ClaimDue;
    match x
    case DoCreate(r, now) => CreateLeavesPayments(t, r, now);
    case DoCancel(id, scope, actor, now) => CancelPaymentsAdvance(t, id, scope, actor, now);
    case DoChangeSeat(id, position, target, scope, actor, now) =>
      ChangeSeatLeavesPayments(t, id, position, target, scope, actor, now);
    case DoExpire(now, limit, locked) => ExpiryLeavesPayments(t, now, limit, locked);
    case DoStart(read, r, now, after) => StartAddsOneKey(t, read, r, now, after);
    case DoClaim(now, lease, limit, locked) => ClaimLeavesKeys(t, now, lease, limit, locked);
    case _ =>
  }

  lemma UnansweredTells(t: Tables, row: KeyRow)
    requires row.status.IN_PROGRESS?
    ensures TellsRow(t, row)
  {
  }

  lemma StepTells(t: Tables, x: Txn)
    requires Inv(t) && Enabled(t, x) && AllTell(t)
    ensures AllTell(Apply(t, x))
  {
    hide Inv, Enabled, Apply, TellsRow;
    var t' := Apply(t, x);
    forall k | k in t'.keys ensures TellsRow(t', t'.keys[k]) {
      if x.DoStart? && k == KeyFor(x.pay) && k !in t.keys {
        NewKeyTells(t, x, k);
      } else if x.DoCharged? || x.DoDeclined? {
        SettledKeysTell(t, x, k);
      } else {
        OtherKeysAreSame(t, x, k);
        SameRowTells(t, x, k);
      }
    }
  }

  lemma NewKeyTells(t: Tables, x: Txn, k: KeyId)
    requires x.DoStart? && k == KeyFor(x.pay) && k !in t.keys && k in Apply(t, x).keys
    ensures TellsRow(Apply(t, x), Apply(t, x).keys[k])
  {
    hide TellsRow, StartPayment;
    StartedTells(t, x.read, x.pay, x.now, x.reconcileAfterMs);
  }

  lemma SettledKeysTell(t: Tables, x: Txn, k: KeyId)
    requires Inv(t) && Enabled(t, x) && AllTell(t) && (x.DoCharged? || x.DoDeclined?) && k in Apply(t, x).keys
    ensures TellsRow(Apply(t, x), Apply(t, x).keys[k])
  {
    hide Inv, Enabled, Apply, TellsRow;
    SettlingAddsNoKey(t, x);
    assert TellsRow(t, t.keys[k]);
    if t.keys[k].status.COMPLETED? {
      OldRowTells(t, x, k);
    } else {
      NewlyCompletedTells(t, x, k);
    }
  }

  lemma SettlingAddsNoKey(t: Tables, x: Txn)
    requires x.DoCharged? || x.DoDeclined?
    ensures Apply(t, x).keys.Keys == t.keys.Keys
  {
    hide Charged, Declined;
    match x
    case DoCharged(id, p, reference, actor, now) => ChargedKeysAdvance(t, id, p, reference, actor, now);
    case DoDeclined(id, reason, actor, now) => DeclinedKeysAdvance(t, id, reason, actor, now);
  }

  lemma SameRowTells(t: Tables, x: Txn, k: KeyId)
    requires k in t.keys && k in Apply(t, x).keys && Apply(t, x).keys[k] == t.keys[k] && TellsRow(t, t.keys[k])
    ensures TellsRow(Apply(t, x), Apply(t, x).keys[k])
  {
    hide Apply, TellsRow;
    if t.keys[k].status.COMPLETED? {
      OldRowTells(t, x, k);
    } else {
      UnansweredTells(Apply(t, x), t.keys[k]);
    }
  }

  // ---- Every reachable state ----

  lemma {:induction false} RunTells(t: Tables, xs: seq<Txn>)
    requires Inv(t) && Legal(t, xs) && AllTell(t)
    ensures AllTell(Run(t, xs))
    decreases |xs|
  {
    hide Inv, AllTell, Apply, Enabled;
    if xs != [] {
      StepTells(t, xs[0]);
      ApplyKeepsInv(t, xs[0]);
      RunTells(Apply(t, xs[0]), xs[1..]);
    }
  }

  /**
   * In every reachable state: a response is stored exactly with a completed
   * key, and what it shows is still what the rows say, of everything that
   * cannot have changed since. A 201 shows the payment SUCCEEDED with its
   * amount, reference and creation, and the booking CONFIRMED with its
   * reference, flight, owner, deadline and each passenger's name, class and
   * price; a 402 names the row's reason; a 409 goes with a payment being
   * refunded; and a key without a payment holds one of phase 1's refusals.
   */
  lemma AnswersAgree(run: seq<Action>, k: KeyId)
    requires LegalRun(START, run) && k in RunAll(START, run).db.keys
    ensures
      var t := RunAll(START, run).db;
      var row := t.keys[k];
      && (row.status.COMPLETED? <==> row.response.Some?)
      && TellsRow(t, row)
      && (row.status.COMPLETED? && row.paymentId.Some? ==>
            && !t.payments[row.paymentId.value].status.PROCESSING?
            && ResponseAgrees(t.payments, t.outbox, row.response.value, row.paymentId.value))
  {
    hide RunAll, LegalRun, Run, Legal, Inv, TellsRow, ResponseAgrees;
    ProtocolRunsAreTxnRuns(run);
    EmptyInv();
    RunTells(EMPTY, CommitsOf(run));
    assert TellsRow(RunAll(START, run).db, RunAll(START, run).db.keys[k]);
    AnswersAgreeWithEvents(run, k);
  }
}

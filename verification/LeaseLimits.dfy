/** The startup check on the payment timings is about as loose as it can be: where they do not work, something breaks. */
module LeaseLimits {
  import opened Basics
  import opened Schema
  import opened Transactions
  import opened PaymentSteps
  import opened Runs
  import opened Leases
  import opened SweptNeighbour

  /** Nobody works on a payment beside somebody else, and no started payment becomes due after its hold is over. */
  ghost predicate NobodyCollides(c: Timing, s: Timed) {
    && (forall h, k | Live(c, s, h) && Live(c, s, k) && h.paymentId == k.paymentId :: h == k)
    && DueInTime(s.db)
  }

  const OPENING := Timed(0, EMPTY, {}, 0)

  lemma TimedNowhere(c: Timing, s: Timed)
    ensures TimedLegal(c, s, []) && TimedRun(c, s, []) == s
  {
  }

  lemma TimedOnward(c: Timing, s: Timed, x: Step, xs: seq<Step>)
    requires CanStep(c, s, x) && TimedLegal(c, StepOn(c, s, x), xs)
    ensures TimedLegal(c, s, [x] + xs) && TimedRun(c, s, [x] + xs) == TimedRun(c, StepOn(c, s, x), xs)
  {
    hide CanStep, StepOn;
    assert ([x] + xs)[1..] == xs;
  }

  // ---- An holds at time 0 and starts to pay at `u` ----

  function StartsAt(c: Timing, u: Instant): Payment { NewPayment(PayAns(), 100, u, LeaseMs(c)) }

  function Opens(u: nat): seq<Step> {
    [Elsewhere(FlightIsAdded()), Elsewhere(FareIsSet()), Elsewhere(AnHolds()), Tick(u), Begin(Some(AnsHold()), PayAns())]
  }

  lemma AnStarts(c: Timing, s: Timed)
    requires Shape(s.db, Owned(SeatStatus.HELD, 1), Free(), map[1 := AnsHold()], map[]) && s.db.keys == map[]
    requires 0 <= s.clock < 840000 && s.holders == {} && s.serial == 0
    ensures CanStep(c, s, Begin(Some(AnsHold()), PayAns()))
    ensures
      var s' := StepOn(c, s, Begin(Some(AnsHold()), PayAns()));
      && s'.clock == s.clock && s'.serial == 1
      && s'.holders == {Holder(1, s.clock, PROCESSING, false, 0)}
      && s'.db.payments == map[1 := StartsAt(c, s.clock)] && s'.db.bookings == map[1 := AnsHold()]
  {
    hide SumPrices;
    OnePrice(AnsHold().passengers[0]);
  }

  function ForSale(c: Timing): Timed { StepOn(c, StepOn(c, OPENING, Elsewhere(FlightIsAdded())), Elsewhere(FareIsSet())) }

  function Held(c: Timing): Timed { StepOn(c, ForSale(c), Elsewhere(AnHolds())) }

  function Paying(c: Timing, u: nat): Timed { StepOn(c, StepOn(c, Held(c), Tick(u)), Begin(Some(AnsHold()), PayAns())) }

  lemma AnHasHeld(c: Timing)
    ensures
      var s := Held(c);
      && s.clock == 0 && s.holders == {} && s.serial == 0 && s.db.keys == map[]
      && Shape(s.db, Owned(SeatStatus.HELD, 1), Free(), map[1 := AnsHold()], map[])
  {
    hide Apply, Shape;
    OnSaleAtZero();
    AnHoldsA(ForSale(c).db);
  }

  /** A second before the last minute of the hold An still can start to pay. */
  lemma AnIsPaying(c: Timing, u: nat)
    requires u < 840000
    ensures
      var s := Paying(c, u);
      && s.clock == u && s.serial == 1 && s.holders == {Holder(1, u, PROCESSING, false, 0)}
      && s.db.payments == map[1 := StartsAt(c, u)] && s.db.bookings == map[1 := AnsHold()]
  {
    hide Shape, Held;
    AnHasHeld(c);
    AnStarts(c, StepOn(c, Held(c), Tick(u)));
  }

  /** The history up to there, followed by whatever may come next. */
  lemma AnPaysAndThen(c: Timing, u: nat, more: seq<Step>)
    requires u < 840000 && TimedLegal(c, Paying(c, u), more)
    ensures TimedLegal(c, OPENING, Opens(u) + more)
    ensures TimedRun(c, OPENING, Opens(u) + more) == TimedRun(c, Paying(c, u), more)
  {
    hide Shape, Apply, TimedRun, TimedLegal, EarlierRead;
    var flight, fare, hold, wait, pay := Elsewhere(FlightIsAdded()), Elsewhere(FareIsSet()), Elsewhere(AnHolds()), Tick(u),
                                         Begin(Some(AnsHold()), PayAns());
    var s1 := StepOn(c, OPENING, flight);
    OpensAndPrices(s1.db);
    AnHasHeld(c);
    AnStarts(c, StepOn(c, Held(c), wait));
    TimedOnward(c, StepOn(c, Held(c), wait), pay, more);
    TimedOnward(c, Held(c), wait, [pay] + more);
    TimedOnward(c, ForSale(c), hold, [wait] + ([pay] + more));
    TimedOnward(c, s1, fare, [hold] + ([wait] + ([pay] + more)));
    TimedOnward(c, OPENING, flight, [fare] + ([hold] + ([wait] + ([pay] + more))));
    assert Opens(u) + more == [flight] + ([fare] + ([hold] + ([wait] + ([pay] + more))));
  }

  // ---- A margin below the settle budget: the job takes the payment while the request is still settling it ----

  function DueAt(c: Timing): nat { if LeaseMs(c) < 0 then 0 else LeaseMs(c) }

  lemma JobTakesIt(c: Timing, s: Timed)
    requires s.db.payments == map[1 := StartsAt(c, 0)] && s.clock == DueAt(c) && s.serial == 1
    requires s.holders == {Holder(1, 0, PROCESSING, false, 0)} && 0 <= c.timeoutMs && c.marginMs < 5000
    ensures
      var s' := StepOn(c, s, ClaimDueNow(1, {}));
      Live(c, s', Holder(1, 0, PROCESSING, false, 0)) && Live(c, s', Holder(1, s.clock, PROCESSING, true, 1))
  {
    assert 1 in s.db.payments && s.db.payments[1].nextAttemptAt.value == LeaseMs(c);
    forall d ensures d in DuePayments(s.db, s.clock, {}) <==> d == (LeaseMs(c), 1) {
    }
    OneDuePayment(s.db, s.clock, (LeaseMs(c), 1));
  }

  lemma OneDuePayment(t: Tables, now: Instant, d: (Instant, Id))
    requires DuePayments(t, now, {}) == {d}
    ensures ClaimedIds(t, now, 1, {}) == [d.1]
  {
  }

  lemma ShortMarginCollides(c: Timing)
    requires 0 <= c.timeoutMs && c.marginMs < 5000
    ensures
      var steps := Opens(0) + [Tick(DueAt(c)), ClaimDueNow(1, {})];
      TimedLegal(c, OPENING, steps) && !NobodyCollides(c, TimedRun(c, OPENING, steps))
  {
    hide Paying, DueInTime, Opens, Live;
    var s, wait, claim := Paying(c, 0), Tick(DueAt(c)), ClaimDueNow(1, {});
    AnIsPaying(c, 0);
    var due := StepOn(c, s, wait);
    var s' := StepOn(c, due, claim);
    JobTakesIt(c, due);
    TimedNowhere(c, s');
    TimedOnward(c, due, claim, []);
    TimedOnward(c, s, wait, [claim]);
    assert [claim] + [] == [claim] && [wait] + [claim] == [wait, claim];
    AnPaysAndThen(c, 0, [wait, claim]);
    assert Live(c, s', Holder(1, 0, PROCESSING, false, 0)) && Live(c, s', Holder(1, due.clock, PROCESSING, true, 1));
  }

  // ---- More than a minute: the payment becomes due when its hold is over ----

  lemma LongLeaseIsLate(c: Timing)
    requires c.timeoutMs + c.marginMs > 60000
    ensures TimedLegal(c, OPENING, Opens(839999)) && !NobodyCollides(c, TimedRun(c, OPENING, Opens(839999)))
  {
    hide Paying, Opens, Live;
    AnIsPaying(c, 839999);
    TimedNowhere(c, Paying(c, 839999));
    AnPaysAndThen(c, 839999, []);
    assert Opens(839999) + [] == Opens(839999);
    var t := Paying(c, 839999).db;
    assert 1 in t.payments && t.payments[1].nextAttemptAt == Some(839999 + LeaseMs(c));
    assert t.bookings[t.payments[1].bookingId].holdExpiresAt == Some(900000);
  }

  /**
   * Exactly which timings are safe: over every timed run from the empty
   * database nobody works on a payment beside a live holder and every started
   * payment is due before its hold ends, if and only if the margin covers the
   * settle budget and timeout and margin together are at most the minute a
   * payment needs to start. The startup check accepts just these, but for a
   * sum of exactly a minute.
   */
  lemma TimingsAreSafeIff(c: Timing)
    requires 0 <= c.timeoutMs
    ensures (forall clock: Instant, steps: seq<Step> | TimedLegal(c, Timed(clock, EMPTY, {}, 0), steps) ::
              NobodyCollides(c, TimedRun(c, Timed(clock, EMPTY, {}, 0), steps)))
            <==> 5000 <= c.marginMs && c.timeoutMs + c.marginMs <= 60000
    ensures CheckPaymentTimings(c).Ok? <==> 5000 <= c.marginMs && c.timeoutMs + c.marginMs < 60000
  {
    hide TimedLegal, TimedRun, DueInTime, NobodyCollides, Opens;
    if TimingsWork(c) {
      forall clock: Instant, steps: seq<Step> | TimedLegal(c, Timed(clock, EMPTY, {}, 0), steps)
        ensures NobodyCollides(c, TimedRun(c, Timed(clock, EMPTY, {}, 0), steps))
      {
        NobodyCollidesAfter(c, clock, steps);
      }
    } else if c.marginMs < 5000 {
      ShortMarginCollides(c);
      assert TimedLegal(c, OPENING, Opens(0) + [Tick(DueAt(c)), ClaimDueNow(1, {})]);
    } else {
      LongLeaseIsLate(c);
      assert TimedLegal(c, OPENING, Opens(839999));
    }
  }

  lemma NobodyCollidesAfter(c: Timing, clock: Instant, steps: seq<Step>)
    requires TimingsWork(c) && TimedLegal(c, Timed(clock, EMPTY, {}, 0), steps)
    ensures NobodyCollides(c, TimedRun(c, Timed(clock, EMPTY, {}, 0), steps))
  {
    hide TimedLegal, TimedRun, DueInTime, Live;
    OneLiveHolder(c, clock, steps);
  }
}

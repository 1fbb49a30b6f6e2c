/**
 * A cancel that reads its clock just after a hold's deadline, and a
 * confirmation of that hold that read its own just before: what the cancel's
 * unlocked statements can then do.
 */
module LateConfirmation {
  import opened Basics
  import opened Schema
  import opened Transactions
  import opened Invariants
  import opened Runs
  import opened Snapshots
  import opened SnapshotCancel
  import opened SweptNeighbour

  function Before(): seq<Txn> { [FlightIsAdded(), FareIsSet(), AnHolds(), AnPays()] }

  /** An's hold on 12A, its payment being charged; 12B is free. */
  function Held(): Tables { Run(EMPTY, Before()) }

  /** The charge is recorded by a clock before the deadline. */
  function NowConfirmed(): Tables { Apply(Held(), AnIsCharged()) }

  /** An moves to 12B. */
  function AfterTheMove(): Tables { ChangeSeat(NowConfirmed(), 1, 1, SEAT_B, Owner(7), 7, 0).db }

  lemma HeldHappens()
    ensures Legal(EMPTY, Before()) && Inv(Held())
    ensures Shape(Held(), Owned(SeatStatus.HELD, 1), Free(), map[1 := AnsHold()], map[1 := AnsPayment()])
    ensures Held().keys == map[PAYING := FreshKey(PayAns(), 0).(paymentId := Some(1))]
  {
    hide Apply, Shape, Run, Legal, Inv;
    var t1 := Apply(EMPTY, FlightIsAdded());
    var t2 := Apply(t1, FareIsSet());
    var t3 := Apply(t2, AnHolds());
    OpensAndPrices(t1);
    OnSaleAtZero();
    AnHoldsA(t2);
    AnPaysForA(t3);
    RunNowhere(Apply(t3, AnPays()));
    RunOnward(t3, AnPays(), []);
    assert [AnPays()] + [] == [AnPays()];
    RunOnward(t2, AnHolds(), [AnPays()]);
    RunOnward(t1, FareIsSet(), [AnHolds()] + [AnPays()]);
    RunOnward(EMPTY, FlightIsAdded(), [FareIsSet()] + ([AnHolds()] + [AnPays()]));
    assert Before() == [FlightIsAdded()] + ([FareIsSet()] + ([AnHolds()] + [AnPays()]));
    EmptyInv();
    RunKeepsInv(EMPTY, Before());
  }

  lemma ConfirmedHappens()
    ensures Inv(NowConfirmed()) && OneStep(Held(), NowConfirmed())
    ensures
      Shape(NowConfirmed(), Owned(SeatStatus.BOOKED, 1), Free(), map[1 := AnsHold().(status := CONFIRMED)],
            NowConfirmed().payments)
  {
    hide Apply, Shape, Held, Inv;
    HeldHappens();
    AnIsConfirmed(Held());
    ApplyKeepsInv(Held(), AnIsCharged());
  }

  lemma SeatIsFree(t: Tables)
    requires Shape(t, Owned(SeatStatus.BOOKED, 1), Free(), map[1 := AnsHold().(status := CONFIRMED)], t.payments)
    ensures ChangeSeatVerdict(t, 1, 1, SEAT_B, Owner(7), 0) == Ok(Changed(SEAT_A, SEAT_B))
    ensures Cancellable(t, 1, Owner(7), HOLD_DURATION_MS)
  {
  }

  lemma LapsedIsNotCancellable(t: Tables)
    requires t.bookings == map[1 := AnsHold()]
    ensures !Cancellable(t, 1, Owner(7), HOLD_DURATION_MS)
  {
  }

  /**
   * The cancel reads the deadline as its time. Its lock statement sees the
   * lapsed hold and locks nothing; its cancel statement sees the booking
   * CONFIRMED and waits for the seat change; then it releases 12A, and 12B
   * stays BOOKED for a cancelled booking.
   */
  lemma UnlockedCancelLeavesASeat(at: map<SeatKey, nat>)
    ensures Timeline([Held(), NowConfirmed(), AfterTheMove()])
    ensures !Cancellable(Held(), 1, Owner(7), HOLD_DURATION_MS)
    ensures Cancellable(NowConfirmed(), 1, Owner(7), HOLD_DURATION_MS)
    ensures 1 in AfterTheMove().bookings
    ensures
      var done := UnlockedCancel([NowConfirmed(), AfterTheMove()], 1, 0, at);
      !Inventory(done.seats, done.bookings)
  {
    hide Inv, Apply, Held, Inventory, UnlockedCancel, Cancellable, ChangeSeatVerdict;
    HeldHappens();
    ConfirmedHappens();
    SeatIsFree(NowConfirmed());
    LapsedIsNotCancellable(Held());
    SeatChangeBreaksIt(NowConfirmed(), 1, 1, SEAT_B, Owner(7), 7, 0, at);
    ThreeMoments(Held(), NowConfirmed(), AfterTheMove());
  }

  lemma ThreeMoments(t0: Tables, t1: Tables, t2: Tables)
    requires Inv(t0) && OneStep(t0, t1)
    requires t2 == ChangeSeat(t1, 1, 1, SEAT_B, Owner(7), 7, 0).db
    ensures Timeline([t0, t1, t2])
  {
    hide Inv, ChangeSeat;
    assert Enabled(t1, DoChangeSeat(1, 1, SEAT_B, Owner(7), 7, 0));
    assert OneStep(t1, t2);
  }
}

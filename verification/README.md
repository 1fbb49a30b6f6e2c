# Booking, payment and idempotency protocol: a verified model

This project models the booking system's `api`: customer requests, two
background jobs and an external payment provider acting at the same time on
shared tables, and proves what the code promises about them. All paths below
are relative to the repository's root.

## How it is built

| layer | modules |
|---|---|
| values and clocks | `Basics`, `Ordering`, `Counting`, `Retries`, `Schema`, `Lifecycle` |
| each transaction as one function of the committed tables | `Transactions` |
| what every committed state promises | `Invariants` |
| every transaction keeps it; every run of transactions keeps it | `Preservation`, `BookingSteps`, `PaymentSteps`, `Runs`, `Histories` |
| requests, jobs, the provider and its ledger, interleaved at will | `MoneySafety`, `Theorems`, `RefundStays`, `EndEvents`, `AuditTrail`, `HoldFacts`, `ExpiryView`, `SweptNeighbour` |
| what each request and job is answered, in what a caller could look up before, what it leaves row by row, and what every later request gets | `CreateAnswers`, `PayAnswers`, `SettlementAnswers`, `StoredAnswers`, `CancelAnswers`, `SeatChangeAnswers`, `JobAnswers`, `SearchAnswers` |
| the programs: classes updated in place, real rollback, loops | `BookingDb`, `BookingRepository`, `BookingUseCases`, `BookingValidation`, `ExpiryJob`, `PaymentRepository`, `PaymentUseCases`, `Gateway`, `PaymentDrivers`, `Reconciliation`, `CleanupJob` |
| READ COMMITTED: statement snapshots, row locks, re-checks, and histories of many such transactions | `Snapshots`, `SnapshotSweep`, `SnapshotCancel`, `SnapshotTransactions`, `SnapshotHold`, `SnapshotHistories`, `LateConfirmation` |
| row locks and the wait-for graph | `Locks`, `LockOrder`, `LockCoverage` |
| leases on a clock | `Leases`, `LeaseLimits` |
| flight search and its cursors | `FlightSearch`, `SearchCursor`, `SearchWalk`, `LateDeparture` |
| the canonical printer behind the request fingerprint | `JsonText`, `CanonicalJson` |
| outbox relay, seat layouts, seat backfill | `OutboxRelay`, `SeatLayout`, `Backfill` |

A transaction that throws commits the tables it started from, so a step is a
function from tables to tables and a result. The programs write table by table
as the code does, roll back for real, and are proved equal to those functions;
the invariants and the theorems over all runs are about the functions. What
such a function means is stated without naming it: the answer modules say, for
every input, exactly when each answer is given (deadlines, windows, limits and
messages written out) and what every table holds afterwards, and carry that
over whatever is committed later. The
provider keeps its own ledger of money taken and given back; its answers may
be lost, late or used twice, and every step reads whatever clock it likes
unless a theorem says otherwise. A refund's answer is recorded once per claim,
as the code's own judgement of that attempt. Statement by statement, with the
snapshots and locks of READ COMMITTED, concurrent transactions are proved to
be one legal run of those functions in commit order, but for one cancel that
runs unlocked (see below).

## What the code does not promise

- A seat change is not blind to the expiry sweep. When the wanted seat
  belongs to a hold that has lapsed but has not been swept, the change answers
  `seat-unavailable`, and after the sweep the same change at the same instant
  goes through. `SweptNeighbour.SeatChangeSeesTheSweep` gives a history in
  which it happens, and `ExpiryView.SeatChangeIsTheSameIff` the exact
  condition; reading, cancelling, starting a payment and confirming never
  depend on the sweep.
- A cancel that reads its clock after a hold's deadline does not lock the
  booking. If a confirmation that read an earlier clock commits before its
  cancel statement starts, and a seat change before that statement gets the
  booking's lock, the new seat stays BOOKED for a cancelled booking
  (`LateConfirmation.UnlockedCancelLeavesASeat`; exactly when, in
  `SnapshotCancel.UnlockedCancelIsRightIff`), and committing only before its
  last read it makes the cancel throw (`SnapshotCancel.UnmatchedThrowsIff`).
- The search refuses its own next-page cursor when the last departure's UTC
  year has more than four digits (a request may name 9999-12-31 where local
  time is behind UTC). `LateDeparture.LateDepartureIsRefused` gives tables and
  a query where the walk can never finish, `LateDeparture.NextCursorIsRefusedIff`
  and `SearchCursor.RoundTrip` the exact conditions.

## Model

| member | source | states |
|---|---|---|
| `Theorems.MoneyIsSafe` | api/src/payments/settle-payment.ts:80-211 | in every reachable state of every interleaving: a booking is CONFIRMED iff exactly one payment of it SUCCEEDED, for exactly its total; against the provider's ledger every FAILED payment took nothing, every charged one took its amount once, REFUNDED ones were given back once, and no PROCESSING, FAILED or SUCCEEDED payment was ever given back |
| `Theorems.ConfirmedIffPaid` | api/src/bookings/cancel-booking.ts:96-107 | CONFIRMED iff exactly one SUCCEEDED payment, of the booking's total; never two |
| `Theorems.EveryRunIsSafe` | api/src/payments/pay-for-booking.ts:227-261 | every run of requests, jobs, gateway calls and operators from the empty database keeps inventory, money, keys, events and ledger |
| `MoneySafety.NextKeepsSafe` | api/src/payments/reconcile-payments.ts:119-219 | one more step of anybody keeps them, whatever answer was lost or comes late |
| `Theorems.ProtocolRunsAreTxnRuns` | api/src/payments/reconcile-payments.ts:73-90 | the tables any run of the protocol leaves are those of one legal run of its transactions, so what is proved of transactions one after the other holds of every interleaving |
| `Runs.ApplyKeepsInv` | api/src/payments/payment-repository.ts:61-74 | each committed transaction keeps the tables' invariant |
| `Theorems.InventoryAlwaysHolds` | api/src/bookings/postgres/postgres-booking-repository.ts:260-414 | in every reachable state a seat is AVAILABLE iff it has no booking, live bookings own exactly their passengers' seats in the matching status, ended ones own none, and free seats plus live passengers equal the flight's seat count |
| `Theorems.SeatsAreConserved` | api/src/bookings/postgres/postgres-booking-repository.ts:431-449 | free seats and passengers of live bookings add up to the flight's seats |
| `Invariants.OwnedSeats` | api/src/bookings/postgres/postgres-booking-repository.ts:431-441 | the seats found by booking_id are exactly the passengers' seats while the booking is live, none afterwards |
| `BookingSteps.CreateKeepsInv` | api/src/bookings/create-booking.ts:158-244 | holding seats and storing the booking keeps the invariant |
| `BookingSteps.CancelKeepsInv` | api/src/bookings/cancel-booking.ts:96-183 | booking, seats, payment and event moved together keep the invariant |
| `BookingSteps.ChangeSeatKeepsInv` | api/src/bookings/postgres/postgres-booking-repository.ts:529-581 | swapping one passenger's seat keeps the invariant, every passenger's name, class and price, and every total |
| `Preservation.ExpireBatchKeepsInv` | api/src/bookings/postgres/postgres-booking-repository.ts:817-862 | a batch of lapsed holds ending keeps the invariant |
| `PaymentSteps.ChargedKeepsInv` | api/src/payments/settle-payment.ts:113-211 | recording a charge keeps the invariant and commits if and only if the payment is PROCESSING |
| `PaymentSteps.DeclinedKeepsInv` | api/src/payments/settle-payment.ts:81-111 | recording a decline keeps the invariant and commits if and only if the payment is PROCESSING |
| `PaymentSteps.StartKeepsInv` | api/src/payments/pay-for-booking.ts:156-225 | phase 1 keeps the invariant even when its unlocked read of the booking is stale |
| `PaymentSteps.HeldIsUnpaid` | api/src/payments/postgres/postgres-payment-repository.ts:135-149 | a HELD booking has no SUCCEEDED payment, so confirming never meets the one-SUCCEEDED-per-booking index |
| `PaymentSteps.KeyIsOpen` | api/src/idempotency/postgres/postgres-idempotency-repository.ts:120-132 | a PROCESSING payment has exactly one key, in progress: completeForPayment cannot throw after a winning transition |
| `Theorems.KeysMatchPayments` | api/src/payments/pay-for-booking.ts:163-225 | in every reachable state IN_PROGRESS keys and PROCESSING payments correspond one to one |
| `StoredAnswers.AnswersAgree` | api/src/payments/settle-payment.ts:74-78 | in every reachable state a stored response still shows what the rows say: a 201 the payment SUCCEEDED with its amount, reference and creation and the booking CONFIRMED with its reference, flight, owner, deadline and every passenger's name, class and price; a 402 the row's failure reason; a 409 goes with a payment in refund; a key without a payment holds one of the three refusals of phase 1 |
| `Theorems.AnswersAgreeWithEvents` | api/src/payments/payment-response.ts:54-73 | a stored response is a 201 iff this payment confirmed its booking and a 402 iff it was declined |
| `PayAnswers.TakenKeyAnswersIff` | api/src/payments/pay-for-booking.ts:165-173 | a taken key: refused as reused iff the request's fingerprint differs, whatever became of the key; the stored response, as a replay, iff it is the same and the key is completed; told to wait iff it is the same and in progress; nothing is written |
| `PayAnswers.RefusalsIff` | api/src/payments/pay-for-booking.ts:176-192 | a new key: 404 iff there is no such booking, 409 not-held iff it is not held any more, 409 under-margin iff its hold ends within 60 seconds; the answer is stored with the key and nothing else is written |
| `PayAnswers.StartsIff` | api/src/payments/pay-for-booking.ts:194-225 | a payable booking: amount mismatch with its total iff the amount is wrong, in progress iff it is being paid, and both leave every table as it was; otherwise one PROCESSING payment of exactly the total starts, due after the reconcile age, for the caller's token |
| `PayAnswers.RepeatGetsPhase3sAnswer` | api/src/payments/pay-for-booking.ts:227-261 | a request starts, anything happens, phase 3 is recorded by whoever gets there, anything happens again: while the key is kept the same request gets exactly what phase 3 returned, and a request with another fingerprint is refused |
| `PayAnswers.ChargeIsAnsweredFromItsRows` | api/src/payments/settle-payment.ts:139-211 | a recorded charge is a 201 iff the payer's hold is still before its deadline, and then shows the booking and the payment exactly as committed; otherwise a 409 with the payment committed REFUND_PENDING |
| `PayAnswers.DeclineIsAnsweredFromItsRow` | api/src/payments/payment-response.ts:63-68 | a decline is a 402 that names the reason the FAILED row keeps |
| `SettlementAnswers.ConfirmationLeaves` | api/src/payments/settle-payment.ts:142-210 | a confirmation, table by table: that booking CONFIRMED, exactly its passengers' seats BOOKED, that payment SUCCEEDED under the reference, its one key answered, one audit entry and one event with passengers, payment and amount, stamped with actor and clock |
| `SettlementAnswers.RefundLeaves` | api/src/payments/settle-payment.ts:124-140 | a charge that came too late: the payment due for its refund at once, its one key answered, one audit entry, and no booking, seat or event moved |
| `SettlementAnswers.DeclineLeaves` | api/src/payments/settle-payment.ts:81-111 | a decline: the payment FAILED for its reason, its one key answered, one audit entry, nothing else moved |
| `Histories.KeysOnlyAdvanceOverRuns` | api/src/idempotency/postgres/postgres-idempotency-repository.ts:87-132 | over any run that does not clean a key up, its row stays and keeps its request and first payment, and an answer once stored never changes |
| `Histories.SingleSettlement` | api/src/payments/settle-payment.ts:49-58 | of two settlements of one payment, at any two times and with anything committed in between, the first commits and the second throws and leaves every table as it was |
| `Histories.BookingsOnlyAdvanceOverRuns` | api/src/bookings/postgres/postgres-booking-repository.ts:866-874 | over any run a booking keeps its identity, deadline, total and each passenger's name, class and price, its status only moves forward, and a row still HELD has not changed at all |
| `Histories.PaymentsOnlyAdvanceOverRuns` | api/src/payments/postgres/postgres-payment-repository.ts:65-96 | a payment once out of PROCESSING never returns to it and never changes its amount |
| `HoldFacts.OnlyCreatedWrites` | api/src/bookings/booking-repository.ts:88-100 | every create outcome but `created` writes nothing |
| `HoldFacts.AutoHoldIff` | api/src/bookings/postgres/postgres-booking-repository.ts:269-290 | an auto hold is granted iff the flight is on sale and enough seats of the class are free and not locked |
| `HoldFacts.AutoHoldTakesTheLowest` | api/src/bookings/postgres/postgres-booking-repository.ts:278-281 | it takes exactly the asked number of free unlocked seats of the class, and every one it passes over lies behind them |
| `HoldFacts.ChosenHoldIff` | api/src/bookings/postgres/postgres-booking-repository.ts:361-370 | a chosen hold is granted iff the seats are distinct, exist and are free on an open sale; it takes exactly those, in request order |
| `HoldFacts.CreatedPassengers` | api/src/bookings/create-booking.ts:66-80 | passenger n gets the n-th requested seat, its class and that class's fare |
| `HoldFacts.TotalIsFixed` | api/src/bookings/booking-total.ts:12-17 | the total is the sum of the fares read by the hold, and no later transaction changes it |
| `HoldFacts.TotalIsTheSum` | api/src/bookings/booking-total.ts:12-17 | the empty total is zero, one passenger's is their price, and totals add up however passengers are grouped |
| `CreateAnswers.CreatedBookingIs` | api/src/bookings/create-booking.ts:161-244 | a created booking is the caller's, on the flight asked for, created now and held until now + 900000 ms under the first free of five drawn references, with one audit entry and one event that say so; no other booking, payment or key is touched |
| `CreateAnswers.CreatedSeats` | api/src/bookings/postgres/postgres-booking-repository.ts:282-305 | exactly the passengers' seats, all free before, become HELD for the booking |
| `CreateAnswers.AutoSeatsAreTheFirst` | api/src/bookings/postgres/postgres-booking-repository.ts:269-290 | an automatic hold seats the party, in order, in the first free unlocked seats of the class by row and letter |
| `CreateAnswers.HoldIsPayableIff` | api/src/payments/pay-for-booking.ts:93-99 | the owner's first payment of the total, at any clock u, starts iff u + 60000 < creation + 900000 |
| `CreateAnswers.HoldIsConfirmableIff` | api/src/bookings/postgres/postgres-booking-repository.ts:875-892 | phase 3 at clock u can confirm it iff u < creation + 900000 |
| `CreateAnswers.HoldExpiresIff` | api/src/bookings/create-booking.ts:168-170 | a sweep at clock u can end it iff creation + 900000 <= u |
| `CreateAnswers.FlightAnswersIff` | api/src/bookings/postgres/postgres-booking-repository.ts:304-318 | validation fails iff there are not 1 to 9 passengers or the named seats repeat; flight not found iff there is none; sales closed iff the flight is not OPEN or departs within 3600000 ms |
| `CreateAnswers.AutoAnswersIff` | api/src/bookings/postgres/postgres-booking-repository.ts:307-318 | fare class not on flight iff the flight has no seat of it, not enough seats iff it has some but too few are free and unlocked |
| `CreateAnswers.ChosenAnswersIff` | api/src/bookings/postgres/postgres-booking-repository.ts:382-413 | unknown seats iff one is not on the flight, unavailable iff all are and one is not free; each names exactly those seats in request order |
| `CreateAnswers.CreatedIff` | api/src/bookings/create-booking.ts:116-181 | with its seats free a create succeeds iff every class has a fare, the total is at most 9007199254740991, one of the first five references is free and the id is new; otherwise it throws |
| `BookingRepository.CountDecides` | api/src/bookings/postgres/postgres-booking-repository.ts:361-362 | the statement's row count and all-AVAILABLE test hold iff the requested seats are distinct, exist and are free |
| `BookingRepository.EnoughDecides` | api/src/bookings/postgres/postgres-booking-repository.ts:282-290 | the `enough` test takes all candidates or none |
| `BookingRepository.OnSaleIsBookable` | api/src/flights/postgres/on-sale-sql.ts:14-17 | the SQL sales window and isBookable agree at every instant |
| `BookingRepository.RowsTell` | api/src/bookings/postgres/postgres-booking-repository.ts:400-413 | the unknown and unavailable seats read off the statement's own rows are those of the table, in request order |
| `BookingRepository.HoldAutoSeats` | api/src/bookings/postgres/postgres-booking-repository.ts:260-318 | the auto statement and its refusals: seats written and answer given are those of the hold's specification |
| `BookingRepository.HoldChosenSeats` | api/src/bookings/postgres/postgres-booking-repository.ts:337-414 | the chosen statement and its refusals, likewise |
| `BookingRepository.InsertBooking` | api/src/bookings/postgres/postgres-booking-repository.ts:121-168 | a taken reference writes nothing and leaves the transaction usable, a duplicate id raises, otherwise the row is stored |
| `BookingRepository.ConfirmHold` | api/src/bookings/postgres/postgres-booking-repository.ts:875-903 | a valid hold in scope becomes CONFIRMED with exactly its seats BOOKED; otherwise nothing is touched |
| `BookingRepository.CancelStatements` | api/src/bookings/postgres/postgres-booking-repository.ts:599-690 | a cancellable booking ends with exactly its seats released; otherwise nothing is touched; the answer is the cancel step's, which `CancelAnswers.CancelAnswersIff` pins to status, deadline and departure |
| `BookingRepository.ChangeSeatStatements` | api/src/bookings/postgres/postgres-booking-repository.ts:470-581 | every refusal in the code's order, or the old seat freed, the new one taken and the passenger moved |
| `BookingValidation.ValidateCreateBookingInput` | api/src/bookings/booking-validation.ts:74-204 | accepted iff 1 to 9 valid passengers all name a distinct seat, or none does and a fare class is given; what comes out keeps the client's order |
| `BookingValidation.FindDuplicates` | api/src/bookings/booking-validation.ts:176-192 | exactly the later repeats of a seat are reported, each once and never a first use; nothing is reported iff the seats are distinct |
| `BookingValidation.CodeIsItsSeat` | api/src/aircraft/seat-position.ts:30-42 | a valid seat code is the one rendering of its seat, so a set of codes detects repeated seats |
| `BookingValidation.CodeIff` | api/src/aircraft/seat-position.ts:10-42 | the codes accepted are exactly a row 1 to 99 in decimal without leading zeros and a letter A to K |
| `BookingUseCases.Create` | api/src/bookings/create-booking.ts:129-246 | the whole create request with its rollback is one atomic step: hold, price, reference, audit and event together or nothing; what that step answers and stores is stated by the `CreateAnswers` rows |
| `BookingUseCases.CreateWithFreeReference` | api/src/bookings/create-booking.ts:116-127 | the first free of at most five drawn references is stored; none free throws |
| `BookingUseCases.SumIsExactOrRefused` | api/src/money/money.ts:29-48 | the checked running sum throws iff the whole sum leaves the safe integer range, otherwise it is exact |
| `BookingUseCases.CancelBooking` | api/src/bookings/cancel-booking.ts:85-186 | the whole cancel request is one atomic step: booking, seats, refund, audit entries and event; what it answers and leaves is stated by the `CancelAnswers` rows |
| `BookingUseCases.ChangePassengerSeat` | api/src/bookings/change-seat.ts:52-86 | the whole seat change is one atomic step, audited only when a seat changed |
| `ExpiryJob.BulkIsOneByOne` | api/src/bookings/expire-holds.ts:70-113 | one bulk statement with its per-hold audit and events does what ending the holds one after the other does |
| `ExpiryJob.ExpireDueHolds` | api/src/bookings/postgres/postgres-booking-repository.ts:817-862 | as many due, unlocked holds end as the limit allows and every other one is due later; exactly their seats become AVAILABLE, every other seat and booking is unchanged, and each is reported with the seats it had |
| `ExpiryJob.ExpireOneBatch` | api/src/bookings/expire-holds.ts:69-118 | a batch transaction is one atomic batch, and its count is the number of holds it ended |
| `ExpiryJob.RestStaysDue` | api/src/bookings/postgres/postgres-booking-repository.ts:824-828 | after the first n due holds have ended, exactly the others are due, in the same order |
| `ExpiryJob.ExpireHolds` | api/src/bookings/expire-holds.ts:120-134 | a run with no other writer ends exactly the first min(due, batch size x batches) holds in order at one instant, one audit entry and one event each; not exhausted means none is left due |
| `ExpiryView.ExpiryIsUnobservable` | api/src/bookings/booking-lifecycle.ts:9-87 | reading, cancelling, starting a payment and settling a charge answer the same whether or not a sweep at any earlier or equal time has run |
| `ExpiryView.SeatChangeIsTheSameIff` | api/src/bookings/postgres/postgres-booking-repository.ts:555-557 | a seat change answers the same before and after a sweep iff not: a CONFIRMED booking in reach, its flight on sale, another seat of the passenger's class wanted, and that seat a swept hold's |
| `SweptNeighbour.SeatChangeSeesTheSweep` | api/src/bookings/postgres/postgres-booking-repository.ts:529-557 | a legal history from the empty database (flight, fare, hold, payment, charge, second hold) after which a seat change is unavailable before the sweep and goes through after it, at the same instant |
| `ExpiryView.CancelNeverThrows` | api/src/bookings/booking-lifecycle.ts:76-78 | the throw in classifyNotCancelled is unreachable on stored bookings |
| `CancelAnswers.ReadShows` | api/src/bookings/booking-lifecycle.ts:82-86 | a read shows a hold at or past its deadline as EXPIRED, swept or not, and everything else as stored |
| `CancelAnswers.CancelAnswersIff` | api/src/bookings/booking-lifecycle.ts:53-79 | not found iff out of reach; already cancelled iff stored CANCELLED; expired iff stored EXPIRED or HELD with its deadline come; window closed, naming departure - 86400000, iff CONFIRMED and that instant has come; cancelled iff still held or confirmed before it; nothing else writes |
| `CancelAnswers.CancellationLeaves` | api/src/bookings/cancel-booking.ts:96-183 | a cancellation ends the booking, frees exactly its passengers' seats and names them in order; a confirmed booking's paid payment, and no other, is due for its refund at once, and audit log and outbox say so |
| `CancelAnswers.CancelledStaysCancelled` | api/src/bookings/booking-lifecycle.ts:65-67 | after a cancellation, whatever is committed since and whenever it is asked, every cancel in reach answers already-cancelled and writes nothing |
| `CancelAnswers.SweptStaysExpired` | api/src/bookings/booking-lifecycle.ts:68-70 | after a sweep that ended the hold every cancel in reach answers expired and writes nothing |
| `SeatChangeAnswers.WhoseSeatIff` | api/src/bookings/postgres/postgres-booking-repository.ts:477-520 | a seat change never throws; booking not found, passenger not found and not changeable each iff what they say; all but a change write nothing |
| `SeatChangeAnswers.WhichSeatIff` | api/src/bookings/postgres/postgres-booking-repository.ts:529-557 | for a passenger of a confirmed booking: unchanged iff the same seat; then sales closed, unknown seat, class mismatch with both classes, unavailable, each iff it is the first thing in the way; otherwise changed |
| `SeatChangeAnswers.ChangeLeaves` | api/src/bookings/postgres/postgres-booking-repository.ts:559-581 | a change frees the old seat, books the new one, moves that passenger and nobody else, and is audited once |
| `EndEvents.CancelEventIsExact` | packages/contracts/src/booking-cancelled-event.ts:86-95 | a cancel's event names exactly the 1 to 9 seats the booking owned just before, and it owns none after |
| `EndEvents.ExpiryEventsAreExact` | packages/contracts/src/booking-expired-event.ts:58-67 | a batch emits one event per ended hold, in order, naming exactly the 1 to 9 seats it owned just before |
| `EndEvents.EndsAreFinal` | api/src/bookings/cancel-booking.ts:54-62 | CANCELLED and EXPIRED are absorbing over every run of the protocol |
| `EndEvents.OneEndEvent` | api/src/bookings/expire-holds.ts:95-113 | in every reachable state a booking has at most one confirmed event and exactly one end event iff it has ended |
| `AuditTrail.AuditMirrorsEvents` | api/src/bookings/create-booking.ts:192-239 | in every reachable state the audit log and the outbox tell the same creations, confirmations, cancellations and expiries in the same order, with the same totals and payments and, for expiries, seats: one entry and one event each, or neither |
| `AuditTrail.AuditTellsPayments` | api/src/payments/reconcile-payments.ts:154-181 | in every reachable state the audit log tells each payment's story exactly as its status says: declined once, or refund pending once and then refunded or given up once, or nothing |
| `PaymentRepository.ClaimDuePayments` | api/src/payments/postgres/postgres-payment-repository.ts:161-183 | as many due, unlocked payments as the limit allows are leased with one more attempt, every other one is due later and unchanged, and they come back in id order |
| `PaymentRepository.ClaimKey` | api/src/idempotency/postgres/postgres-idempotency-repository.ts:38-85 | a free key is claimed; a taken one answers its state and changes nothing; one released between insert and select is tried again, three times at most |
| `PaymentRepository.NoFindingIff` | api/src/idempotency/postgres/postgres-idempotency-repository.ts:41-84 | a claim gives up iff the key was taken at every insert and gone again at every select |
| `PaymentUseCases.SettleCharged` | api/src/payments/settle-payment.ts:113-211 | phase 3 after a charge, booking first and payment second, with its rollback, is one atomic step; what it answers and leaves is stated by `PayAnswers.ChargeIsAnsweredFromItsRows` and the `SettlementAnswers` rows |
| `PaymentUseCases.SettleDeclined` | api/src/payments/settle-payment.ts:81-111 | phase 3 after a decline, likewise |
| `PaymentUseCases.Start` | api/src/payments/pay-for-booking.ts:156-225 | phase 1 with its claim, checks, release and rollback is one atomic step, or throws and writes nothing when the claim gave up; what the step answers is stated by `PayAnswers.TakenKeyAnswersIff`, `PayAnswers.RefusalsIff` and `PayAnswers.StartsIff` |
| `PaymentUseCases.RecordRefundOutcome` | api/src/payments/reconcile-payments.ts:154-181 | a refund's outcome and its audit entry are one atomic step |
| `Gateway.SimulatedGateway.ChargeOnce` | api/src/payments/simulated-payment-gateway.ts:85-120 | the first call that gets through decides by the token's text: the five charging tokens take the amount once, tok_decline is card_declined, any other unknown_payment_method; a decided id answers that for good and takes no more; unknown is a call cut off, the timeout token's first, which does nothing, or the lost-response token's first, which charges |
| `Gateway.SimulatedGateway.RefundOnce` | api/src/payments/simulated-payment-gateway.ts:122-139 | money goes back at most once per payment id and only for a charge made with that reference, else unknown_charge; the permanent token always answers card_account_closed, the twice-failing one provider_unavailable for its first two attempts |
| `PaymentDrivers.PayForBooking` | api/src/payments/pay-for-booking.ts:227-261 | the three phases around the gateway are a run of the protocol; a phase-1 answer is handed on and never reaches the gateway; a started payment is charged once for its own amount and token; a definite answer is recorded and phase 3's response returned, an unknown one leaves the payment as phase 1 started it |
| `PaymentDrivers.LeadsKeepsSafe` | api/src/payments/pay-for-booking.ts:108-122 | so every safety theorem covers what the drivers do |
| `Reconciliation.Record` | api/src/payments/reconcile-payments.ts:119-219 | the answer to a claimed payment, in its own transaction, commits exactly what is recorded for it and is a step of the protocol |
| `Reconciliation.RecordedTells` | api/src/payments/reconcile-payments.ts:109-219 | a counted outcome tells the row: settled left PROCESSING, refunded is REFUNDED, given up is REFUND_FAILED, retried is due again after exactly its attempt's delay with nothing else changed and, for a refund, only before the fifth attempt; failed changed nothing; no other payment moves |
| `Reconciliation.WaitingIsRecorded` | api/src/payments/reconcile-payments.ts:109-219 | a claimed payment whose row still waits never fails: a charge answer settles it in the job's name, no answer puts it off, and a refund answer ends or puts it off, each counted as what it is |
| `Reconciliation.ReconcileAll` | api/src/payments/reconcile-payments.ts:254-261 | a batch's calls and recordings in any order are a run of the protocol; from a safe state with the rows as claimed every payment is asked about, none throws, and each outcome is the one its gateway answer means and tells where the payment stands |
| `Reconciliation.ReconcilePayments` | api/src/payments/reconcile-payments.ts:236-270 | one run of the job is a run of the protocol whose every batch claims what is due up to its size; all batches but the last are full and it ends early iff the last is not; every claimed payment is counted once as what became of it, none as failed from a safe state |
| `RefundStays.RefundRetriesAreBounded` | api/src/payments/reconcile-payments.ts:18-28 | in every run of requests, jobs, lost, late and overlapping answers, a payment's refund is put off at most four times, by at most 15 minutes together |
| `RefundStays.RunsProjectToStays` | api/src/payments/reconcile-payments.ts:183-219 | over every run of the protocol a payment's claims and recorded answers form one legal stay, each attempt out once, and the row's status and attempt count say how it stands |
| `RefundStays.RetryWaitsItsDelay` | api/src/payments/reconcile-payments.ts:25-28 | an unknown or retryable answer before attempt five leaves the row REFUND_PENDING, due 1, 2, 4, 8 minutes after its attempt's clock |
| `RefundStays.StayFollowsTheRow` | api/src/payments/postgres/postgres-payment-repository.ts:57-60 | whatever transaction commits, a payment enters REFUND_PENDING with no attempt counted and due at once; while it stays only a claim counts one more and leases it, and only a recorded refund ends the stay |
| `RefundStays.FifthAnswerIsLast` | api/src/payments/reconcile-payments.ts:200-209 | money back ends REFUNDED, a final refusal or any other answer to attempt five or later ends REFUND_FAILED, and whatever anybody does later it stays so |
| `Retries.ChargeDelaysGrow` | api/src/payments/reconcile-payments.ts:148-151 | the unknown-charge delay is non-decreasing and within 1 to 10 minutes for every attempt |
| `JobAnswers.SweepLeaves` | api/src/bookings/postgres/postgres-booking-repository.ts:817-862 | a sweep ends the first lapsed, unlocked holds by deadline and id up to the limit, frees exactly their passengers' seats and tells each once, in that order, with its seats; nothing else changes |
| `JobAnswers.ClaimLeaves` | api/src/payments/postgres/postgres-payment-repository.ts:161-183 | a claim takes the first waiting, unlocked payments by time and id up to the limit: each is leased, counts one more attempt, and nothing else changes |
| `JobAnswers.ChargeRetryLeaves` | api/src/payments/reconcile-payments.ts:148-151 | an unknown charge stays PROCESSING, due again after 1, 2, 4, 8 and then always 10 minutes |
| `JobAnswers.RefundAnswerLeaves` | api/src/payments/reconcile-payments.ts:154-219 | money back ends the row REFUNDED; a final refusal, or anything else at attempt five or later, REFUND_FAILED for the answered reason or "timeout"; otherwise it is due again after its attempt's pause; audited by the job at its clock |
| `CleanupJob.Cleanup` | api/src/idempotency/cleanup-idempotency-keys.ts:40-56 | only completed keys past the day go; each batch takes the oldest it is not made to skip; a run that ends early leaves only keys its last batch had to skip; when all batches skip the same keys exactly the oldest others go, at most batch size x batches |
| `CleanupJob.DeleteCompletedBefore` | api/src/idempotency/postgres/postgres-idempotency-repository.ts:134-150 | the oldest completed, unlocked keys before the cutoff go, up to the limit; keys in progress stay |
| `Snapshots.ConfirmIsAtomic` | api/src/bookings/postgres/postgres-booking-repository.ts:864-892 | confirmHold, with the seats of its old snapshot, is one atomic confirmation of the tables it commits to, and where it matches nothing that confirmation would have been refused too |
| `SnapshotSweep.PicksAreFirst` | api/src/bookings/postgres/postgres-booking-repository.ts:804-828 | the rows the sweep locks are the first due rows of the final tables past those it skipped or could not see |
| `SnapshotSweep.SweepIsAtomic` | api/src/bookings/postgres/postgres-booking-repository.ts:804-845 | expireDueHolds with its audit and events is one atomic batch of the tables it commits to |
| `SnapshotCancel.CancelIsAtomic` | api/src/bookings/postgres/postgres-booking-repository.ts:584-659 | once the lock statement has matched, the cancel statement releases exactly the seats the booking owns at the commit |
| `SnapshotCancel.UnlockedCancelIsRightIff` | api/src/bookings/postgres/postgres-booking-repository.ts:589-597 | a cancel statement that finds the booking unlocked is right iff the booking has the same set of seats when its lock is granted as in the statement's snapshot |
| `SnapshotCancel.LockStatementMissed` | api/src/bookings/postgres/postgres-booking-repository.ts:605-622 | with the flight unchanged a cancel runs unlocked only on a hold lapsed by its own clock and confirmed in between by an earlier one |
| `SnapshotCancel.UnmatchedThrowsIff` | api/src/bookings/postgres/postgres-booking-repository.ts:667-689 | a cancel that matched nothing throws iff the booking can be cancelled when it is read again; otherwise it answers as an atomic cancel there would |
| `LateConfirmation.UnlockedCancelLeavesASeat` | api/src/bookings/postgres/postgres-booking-repository.ts:605-655 | a legal history in which such a cancel leaves a BOOKED seat of a cancelled booking |
| `SnapshotCancel.SeatChangeBreaksIt` | api/src/bookings/postgres/postgres-booking-repository.ts:592-597 | any seat change that commits between the snapshot and the lock leaves a BOOKED seat of a cancelled booking |
| `SnapshotCancel.ChangeIsAtomic` | api/src/bookings/postgres/postgres-booking-repository.ts:457-581 | locking booking, flight and both seats in turn makes the seat change one atomic step |
| `SnapshotHold.HoldIsAtomic` | api/src/bookings/postgres/postgres-booking-repository.ts:260-380 | both hold statements, with rows found in an old snapshot, skipped or locked one by one, take the seats an atomic hold of the final tables takes |
| `SnapshotHold.CreationIsAtomic` | api/src/bookings/create-booking.ts:150-244 | a booking created statement by statement, fares locked at their own times and references drawn one after the other, is the one an atomic create of the final tables makes; anything else writes nothing |
| `SnapshotHold.UndisturbedCreateIsAtomic` | api/src/bookings/postgres/postgres-booking-repository.ts:307-413 | while no operator touches the flight or its fares, refusals and throws are those of the atomic create too |
| `SnapshotTransactions.SettlementIsAtomic` | api/src/payments/settle-payment.ts:113-211 | the whole of phase 3, each statement with its own snapshot, is one atomic step at its commit |
| `SnapshotTransactions.DeclineIsAtomic` | api/src/payments/settle-payment.ts:81-111 | a recorded decline, likewise |
| `SnapshotTransactions.CancellationIsAtomic` | api/src/bookings/cancel-booking.ts:96-175 | the whole of cancel, once locked, is one atomic step at its commit |
| `SnapshotHistories.HistoriesAreSerial` | api/src/transactions/postgres-transaction-runner.ts:29-40 | any number of overlapping creates, settlements, cancels, seat changes and sweeps, each statement by statement with its own snapshots, are one legal run of atomic steps in commit order with the same tables after every commit |
| `SnapshotHistories.EveryCommitIsReachable` | api/src/transactions/postgres-transaction-runner.ts:29-40 | so every commit of such a history keeps the invariant and is a state of the atomic model |
| `Locks.NoDeadlock` | api/src/bookings/postgres/postgres-booking-repository.ts:416-430 | transactions that wait only upwards in one order, queues included, never form a cycle of waiters, however many there are |
| `Locks.SomeoneGoesOn` | api/src/bookings/postgres/postgres-booking-repository.ts:320-336 | as long as there is a transaction, one of them waits for nobody |
| `LockOrder.ProgramsAreOrdered` | api/src/bookings/postgres/postgres-booking-repository.ts:320-358 | holds, cancels, seat changes, sweeps, settlements, phase 1, replays and the jobs all acquire in one order: a new key, the processing slot, booking, seats by flight, row and letter, then reference, payment, paid slot, key row |
| `LockOrder.SystemNeverDeadlocks` | api/src/bookings/postgres/postgres-booking-repository.ts:457-468 | any number of them, at any points of their work, has no cycle of waiters and someone who can go on |
| `LockOrder.RequestOrderDeadlocks` | api/src/bookings/postgres/postgres-booking-repository.ts:324-332 | locking seats in request order does deadlock |
| `LockCoverage.WritesAreLocked` | api/src/bookings/postgres/postgres-booking-repository.ts:416-449 | every row a committed transaction changes or removes, every key it adds and every unique entry it moves is one its program locked against all other writers, so the programs leave out nothing one could wait for |
| `LockCoverage.DecidesByLockedRows` | api/src/bookings/postgres/postgres-booking-repository.ts:260-281 | a hold keeps its flight and both fares, a cancel and a seat change their flight, from being changed while they are under way |
| `Leases.OneLiveHolder` | api/src/config.ts:153-183 | with the startup inequalities no payment ever has two live holders, request or job, and every unclaimed payment becomes due strictly before its hold expires |
| `Leases.LiveHolderNeverLoses` | api/src/config.ts:153-163 | a holder within its window always gets to record its charge or decline |
| `Leases.DueHasNoHolder` | api/src/payments/postgres/postgres-payment-repository.ts:161-183 | what a claim picks has no live holder |
| `Leases.StartIsDueInTime` | api/src/payments/pay-for-booking.ts:93-99 | a payment that starts becomes due strictly before its booking's hold expires |
| `LeaseLimits.TimingsAreSafeIff` | api/src/config.ts:153-183 | over every timed run nobody collides with a live holder and every started payment is due before its hold ends, if and only if the margin is at least 5000 ms and timeout and margin together at most 60000 ms; the startup check accepts just these but for the last millisecond |
| `SearchAnswers.SearchMeetsHold` | api/src/flights/postgres/flight-search-sql.ts:57-80 | a first page that is not cut short lists exactly the flights on the route and in the interval on which an automatic hold for the whole party would be granted now, in a class with a fare, each at the least such fare; a limit of as many rows as flights never cuts it |
| `SearchAnswers.RowsAreHolds` | api/src/flights/postgres/flight-search-sql.ts:65-80 | the rows a search pages through are exactly those, one for each flight |
| `SearchAnswers.PageSays` | api/src/flights/postgres/flight-search-sql.ts:26-41 | a page is in order (fare first by price, then departure, then id), past the cursor and at most the limit; what it leaves out comes later, and there is a next page iff something is left out |
| `SearchAnswers.CursorIsForItsSearch` | api/src/flights/search-flights.ts:42-73 | a next-page cursor works for its own search, at any limit and any later reading, and then lists only what comes after that page; it is refused iff anything else about the search differs |
| `FlightSearch.PageIsExact` | api/src/flights/postgres/postgres-flight-search.ts:79-106 | a page is the first `limit` matches after the key in order, and there is a next page iff more are left |
| `SearchCursor.RoundTrip` | api/src/flights/search-cursor.ts:45-103 | a cursor reads back to the row's key exactly when the departure has a four-digit year and, by price, the fare is a safe integer |
| `LateDeparture.LateDepartureIsRefused` | api/src/flights/search-cursor.ts:86-96 | tables a legal run leaves and a query whose first page holds one flight of two and a cursor every later search refuses: the walk lists one flight and never finishes |
| `LateDeparture.NextCursorIsRefusedIff` | api/src/flights/search-flights.ts:42-73 | a page's next cursor is refused iff the page's last departure has no four-digit year |
| `SearchCursor.WrongScopeIsRefused` | api/src/flights/search-cursor.ts:31-43 | a cursor made for another search is refused |
| `SearchCursor.AcceptedMeansMade` | api/src/flights/search-cursor.ts:54-84 | whatever is accepted carries exactly the version, key and seal of the cursor this search makes for that key; anything else in its JSON is not read |
| `SearchWalk.ListedExactlyOnce` | api/src/flights/search-flights.ts:42-73 | by departure, a flight that matches whenever a page is read is listed exactly once, whatever changes around it |
| `SearchWalk.WalkGoesForward` | api/src/flights/postgres/flight-search-sql.ts:26-32 | every listed row lies after the start and matched when its page was read |
| `SearchWalk.PagesAreTheSortedMatches` | api/src/flights/postgres/flight-search-sql.ts:85-88 | on an unchanging set, for both sorts and any limit, the pages are exactly the sorted matches and the walk ends |
| `JsonText.StringReadsBack` | api/src/idempotency/request-fingerprint.ts:32-41 | a string's text reads back as the string, control characters and lone surrogates included |
| `JsonText.EscapedIsPrintable` | api/src/idempotency/request-fingerprint.ts:41-41 | the text holds no control character and no lone surrogate (section 7 of RFC 8259) |
| `CanonicalJson.ReadsBack` | api/src/idempotency/request-fingerprint.ts:27-42 | unique readability: whatever follows, the printed value reads back as its normal form and leaves the rest |
| `CanonicalJson.CanonicalIffSame` | api/src/idempotency/request-fingerprint.ts:27-42 | two JSON values print alike iff they are equal up to key order, undefined fields dropped |
| `CanonicalJson.SameFingerprintIffSameRequest` | api/src/idempotency/request-fingerprint.ts:11-25 | two requests have one fingerprint iff method, path and body are the same |
| `OutboxRelay.DeliveredInOrder` | api/src/outbox/outbox-relay-job.ts:18-34 | over any ticks, additions and failures what was published, repeats removed, is a prefix of creation order, and every row marked was published |
| `OutboxRelay.UnpublishedInOrder` | api/src/outbox/postgres/postgres-outbox-repository.ts:70-81 | the oldest unpublished rows are the rows from the first unmarked one on |
| `OutboxRelay.Job.Tick` | api/src/outbox/outbox-relay-job.ts:18-34 | the publish-then-mark loop is its sequence of attempts, stopping at the first failure |
| `OutboxRelay.TickStopsAtTheFirstFailure` | api/src/outbox/outbox-relay-job.ts:21-33 | a tick delivers and marks the rows before its first failure once each and in order; the failing row is delivered unless its publish never arrived and marked only if its mark was stored; nothing after it is touched |
| `SeatLayout.ExpandSeatLayout` | api/src/aircraft/seat-layout.ts:218-293 | expanded iff it is 1 to 10 cabins, each with a class, rows upwards in 1 to 99 and 1 to 10 different letters A to K, their rows apart and at most 900 seats in all; then pairwise distinct positions, exactly the cabins' seats and sizes; otherwise at least one problem |
| `SeatLayout.LayoutIsExact` | api/src/aircraft/seat-layout.ts:165-167 | cabins without a shared row give distinct positions and exactly their summed sizes |
| `SeatLayout.FindOverlaps` | api/src/aircraft/seat-layout.ts:174-208 | exactly one problem for each pair of cabins that share a row and for no other pair |
| `SeatLayout.ParseCabin` | api/src/aircraft/seat-layout.ts:42-104 | a cabin comes out, as sent, iff every part is valid, and then no problem was added |
| `SeatLayout.ClassesAddUp` | api/src/aircraft/seat-layout.ts:153-163 | a class counted seat by seat is the size of its cabins |
| `SeatLayout.CountSeatsByFareClass` | api/src/aircraft/seat-layout.ts:153-163 | the two counters are the seats of each class and together all seats |
| `Backfill.Migration.Up` | api/src/postgres/migrations/1790468800000-BackfillFlightSeats.ts:25-62 | every aircraft seat exists in its layout's class, no present seat that was not free changed, a filled seat is an active booking's of that flight that had none and no booking's twice, each flight filled the smaller of its waiting bookings and its free seats, and no active booking waits where a seat is left free |
| `Backfill.PairingIsInjective` | api/src/postgres/migrations/1790468800000-BackfillFlightSeats.ts:53-61 | no booking gets two seats |
| `Backfill.OldestGetsTheFront` | api/src/postgres/migrations/1790468800000-BackfillFlightSeats.ts:34-52 | a lower free seat goes to an older booking, and is never left free while a higher one is filled |
| `Backfill.PairsTheMost` | api/src/postgres/migrations/1790468800000-BackfillFlightSeats.ts:33-61 | each flight fills exactly the smaller of its waiting bookings and its free seats, from the front |
| `Backfill.SecondRunChangesNothing` | api/src/postgres/migrations/1790468800000-BackfillFlightSeats.ts:20-62 | a second run changes nothing |

## Left out

- Express routes, JWT, roles, logging, request context, health checks and the identity service: plumbing around the use cases.
- RabbitMQ and the notifier: a publish that may fail, deliver and still fail, or succeed stands for them.
- The Postgres planner, indexes and query texts: tables, statement snapshots, row locks and the named constraints are modelled.
- Uuid generation and syntax checks: an id is its place in uuid order; audit, outbox and correlation ids are not part of this model.
- Clocks and randomness: instants, drawn references, generated ids and gateway cut-offs are parameters or arbitrary values.
- Time zones: a search gets its interval as two instants.
- SHA-256 and base64url: an injective function and a bijection; a cursor's length limit is not modelled.
- Reconciliation.ReconcileAll: nobody but the job acts while it runs; everybody else's steps in between are covered by `MoneySafety.NextKeepsSafe` and `RefundStays.RefundRetriesAreBounded`.
- SnapshotHistories.HistoriesAreSerial: a cancel that writes without having matched its lock statement is not among the transactions (it may be wrong, see above); phase 1 of a payment, the claim of due payments, reschedules, recorded refunds, key cleanup and the operator's changes are one statement each here, on the rows they lock.
- SnapshotHold.CreationIsAtomic: when an operator changes the flight between the hold statement and the refusal's later read, the refusal's reason is the later read's.
- Leases.OneLiveHolder: a holder counts as live strictly before `now` + timeout + settle budget, the promise the startup check relies on; a holder that breaks it is covered by `Histories.SingleSettlement`.
- CanonicalJson.CanonicalIffSame: a number is its JSON text, one text per value; values that are not JSON (functions, undefined array elements) are outside it.
- Legacy rows: bookings CONFIRMED before payments existed and passengers without seat or price; every run starts from the empty database.
- Field messages of validation issues, environment parsing other than the payment timings, pagination of bookings, flight status transitions: one-branch claims.
- Liveness that depends on job intervals or on a provider that eventually answers.

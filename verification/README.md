# NoOverlap: a verified model

A Dafny model of the booking platform's hard parts: a reservation calendar that must not double-book, a
payment saga that crosses a database, an outbox, four queues and a payment provider, best-effort realtime
notifications, and rotating refresh tokens with a client that must never look like a thief.
`dafny verify dfyconfig.toml` checks all of it.

## What is here

**The saga** (`Saga.dfy`, `SagaInvariant.dfy`, `SagaSteps.dfy`, `SagaMoneySteps.dfy`, `SagaHandlers.dfy`,
`SagaTheorems.dfy`, `SagaRefunds.dfy`, `SagaNotices.dfy`, `SagaWitnesses.dfy`, `SagaExceptions.dfy`, `Draining.dfy`).
One state machine over reservations, outbox rows, payment rows, the provider's charge and refund ledgers, the charge,
result, refund and dead-letter queues, a clock, and every handler in flight, suspended at one of its awaits. A step is
what one handler does between two awaits, or that handler dying. Steps interleave freely, a job stays on its queue
until it is acknowledged, and several handlers may work on one job, so crashes, overlapping deliveries and redeliveries
are ordinary runs. Job-id deduplication is a choice the run makes; no proof needs it. The theorems are about every
state of every run, and from each of them everything can still finish.

**The calendar** (`Intervals.dfy`, `Nights.dfy`, `Racing.dfy`). Half-open stays, the partial exclusion
constraint, what it implies about a listing's time, the night count by the date arithmetic of section 21.4.1 of
ECMA-262, and any number of holds racing for a slot, told call by call and proved to be a run of the saga.

**The relay** (`Relay.dfy`). Several relays under `SKIP LOCKED`, each pass possibly dying, and how long a row can wait.

**The services** (`Operations.dfy`, `Answers.dfy`, `Services.dfy`). Classes that change the tables, queues and ledgers
in place: the sweeps and the relay as loops over rows, every error path included. Each method is proved equal to an
operation, and each operation is proved to be a run of the saga's steps (`Leads`), so every theorem about reachable
states holds after any sequence of service calls. `Answers.dfy` says when each operation is granted, refused or fails
and all that it writes, in terms of its request and the rows it finds.

**Realtime** (`Realtime.dfy`). Sequence numbers allocated after the commit, a channel that loses, repeats and
reorders, and the client's gap detection.

**Sessions** (`Sessions.dfy`, `SingleFlight.dfy`). Token families with replay detection, each request split at its
awaits, and one browser tab whose overlapping 401s share a single refresh, run against that same split server.

## Where the code does not do what it says

Each of these is kept as the code has it, shown by a lemma, and met with the exact condition under which the
promise holds.

- **A cancelled paid booking is not always refunded.** `docs/concepts/async-seam.md:155` promises it. `cancel` reads,
  writes without a status guard and then enqueues the refund, so a cancel that read HELD and writes after the payment
  settled, or one that dies before its enqueue, keeps the guest's money: `StaleCancelLosesTheRefund` and
  `DyingCancelLosesTheRefund`, for every booking that costs something. A lost refund is not lost for good when another
  cancel of the same booking, or a success redelivered, asks again (`SecondCancelMakesGood`). The exact condition is
  `SettlementIsComplete` with `RefundedIffAsked`: once everything has drained, a paid booking is refunded if and only if
  some step asked for it, and its guest has the stay or the money if and only if no cancel lost the refund or some step
  asked for it all the same.
- **A stay that was honoured can be refunded.** `booking.service.ts:389` takes a success that finds its row neither
  HELD nor CONFIRMED to have found it EXPIRED or CANCELLED. A row can be COMPLETED by then: the handler that confirmed
  it died before its acknowledgement, the stay was completed, and the success came again (`CompletedStayIsRefunded`).
  `StandingKeepsTheMoney` gives the condition: a standing booking is refunded only if a success was checked against it
  after its completion, and then exactly if someone lives to ask (`RefundedIffAsked`).
- **A job that runs out of retries can vanish.** `docs/concepts/async-seam.md:142-143` promises it is moved to the
  dead-letter queue. `onFailed` adds it there in a step of its own, and a worker that dies in between leaves nothing:
  `DyingWorkerLosesTheDeadLetter` shows a guest charged, without a stay, a refund or a dead letter.
  `ExhaustionIsOnRecord` gives the balance: dead letters are exactly the exhausted jobs less those whose worker died
  there, so a booking out of attempts has its dead letter if and only if it was exhausted more often than that happened.
- **Not every status change is checked against the lifecycle map.** `booking.service.ts:50-51` says so; the same
  unguarded write can cancel a row that has meanwhile expired (`CancelOfExpiredHappens`) or completed
  (`CancelOfCompletedHappens`). `StatusMovesAreLegal` shows that is the only exception.
- **A payment row can go back from REFUNDED.** The charge's update has no status guard, and two deliveries of one job
  suffice (`RecordingOverRefundHappens`). `PaymentRowMovesForward` says exactly when, and `SoloChargesMoveForward` that
  it needs two overlapping charges of one key.
- **A lineage can have two live tokens.** `auth.service.ts:162` says it cannot. The rotation does not check that its
  token is still live, so two overlapping refreshes fork the family (`OverlappingRefreshesFork`), and a logout between
  a refresh's lookup and its rotation is undone (`LogoutDuringRefreshIsUndone`). `StepKeepsExactly` shows stale
  rotations are the only cause.
- **One promise in the tab is not always one rotation at the server.** `client.ts:33` says it is. When the connection
  breaks while the server is still at work, the promise fails, the next 401 sends another refresh, and both rotate
  (`AbandonedRefreshForks`); when the answer is lost afterwards, the next refresh is taken for a replay
  (`LostAnswerTripsReplayDetection`). Short of these two, the tab never causes a stale rotation (`NeverRotatesStale`).

## Model

| member | source | states |
|---|---|---|
| SagaTheorems.NeverDoubleBooked | packages/db/prisma/migrations/20260707203153_add_reservation_exclusion_constraint/migration.sql:14-20 | in every reachable state two active reservations of a listing share no instant, stale cancels, sweeps and crashes included |
| SagaTheorems.NeverOversold | packages/db/prisma/migrations/20260707203153_add_reservation_exclusion_constraint/migration.sql:14-20 | in every reachable state the active time of a listing inside any window is at most the window's length |
| SagaTheorems.NeverRevived | apps/api/src/booking/booking.service.ts:303-307 | a reservation that has left HELD and CONFIRMED is never active again, whatever steps follow |
| SagaTheorems.HonouredHistoryDoesNotOverlap | apps/api/src/booking/reservation-completion.service.ts:51-57 | two booked stays of a listing, completed ones included, overlap by less than the later hold's delay between clock read and insert, hence not at all when that is zero |
| SagaTheorems.StatusMovesAreLegal | apps/api/src/booking/booking.service.ts:52-77 | every status change of every step is in the transition map, except a cancel's write over a row that has meanwhile expired or completed, which never is |
| SagaTheorems.MoneySafety | apps/worker/src/payment/payment.service.ts:33-128 | per key: at most one charge, at most one refund, a refund only after a charge, and the net taken is zero or exactly the price |
| SagaTheorems.PaidMeansPaid | apps/api/src/booking/booking.service.ts:181-195 | a CONFIRMED or COMPLETED reservation has exactly one successful charge, under its own id, of its whole positive price, held in full unless it was refunded, which only a COMPLETED one can have been, and only because a refund was asked for |
| SagaTheorems.DeclinedNeverConfirmed | apps/api/src/booking/booking.service.ts:399-417 | a key the provider declined never carries a standing booking, now or in any continuation |
| SagaTheorems.FreeStaysNeverConfirmed | packages/contracts/src/index.ts:41-51 | a reservation with price zero is never charged, has no payment row and never stands, because its event does not parse |
| SagaTheorems.OneOutboxRowEach | apps/api/src/booking/booking.service.ts:160-206 | reservations and outbox rows correspond one to one, each event carrying its reservation's id, key and price |
| SagaTheorems.NoIntentLost | apps/api/src/booking/booking.service.ts:160-206 | every reservation's intent to charge is unpublished, on the charge queue, out of attempts, or settled with its result published |
| SagaTheorems.NoJobInvented | apps/api/src/booking/outbox-relay.service.ts:78-84 | every charge job, queued, dead-lettered or carried by a handler at any of its awaits, is the event of a committed reservation that a relay has published |
| SagaTheorems.ExhaustedIsDeadLettered | apps/worker/src/payment/charge.processor.ts:108-125 | delivery by delivery, the jobs that used their last attempt are the dead letters, the notices in flight and the notices lost; only exhausted jobs are dead-lettered |
| SagaTheorems.PaymentRowsAgreeWithLedger | apps/worker/src/payment/payment.service.ts:34-73 | SUCCEEDED and REFUNDED rows have a successful ledger charge, FAILED rows a decline, REFUNDED rows a refund entry, and no row makes `toResult` throw |
| SagaTheorems.PaymentRowMovesForward | apps/worker/src/payment/payment.service.ts:63-71 | a step moves a payment row outside PENDING to SUCCEEDED or FAILED and SUCCEEDED to REFUNDED if and only if it records a charge over a refund |
| SagaTheorems.SoloChargesMoveForward | apps/worker/src/payment/payment.service.ts:33-76 | when charges of a key have never overlapped, its row only moves forward |
| SagaTheorems.RefundsAreForDeadBookings | apps/api/src/booking/payment-result.processor.ts:55-71 | a queued refund request means the reservation was paid for and stays inactive for good |
| SagaTheorems.LateFailureIsHarmless | apps/worker/src/payment/payment.service.ts:39-41 | a failure reported for a paid key finds it refunded and its reservation inactive, and changes nothing |
| SagaTheorems.SettlementIsIdempotent | apps/api/src/booking/booking.service.ts:367-417 | a result that has been processed changes no reservation when it is processed again at any later time |
| SagaTheorems.SettlementIsComplete | apps/api/src/booking/payment-result.processor.ts:48-71 | once everything has drained, every booking that did not run out of attempts is decided; a decline released it; a charge was refunded if and only if a refund was asked for, and its guest has the stay or the money if and only if no cancel lost its refund or a refund was asked for all the same |
| SagaRefunds.AskedBySomeone | apps/api/src/booking/payment-result.processor.ts:55-71 | a refund has been asked for if and only if a cancel's enqueue or a late success's request is among the steps of the run |
| SagaRefunds.RefundedIffAsked | apps/api/src/booking/booking.service.ts:303-320 | once everything has drained, a paid booking that did not run out of attempts is refunded if and only if some step of the run asked for it |
| SagaRefunds.StandingKeepsTheMoney | apps/api/src/booking/booking.service.ts:367-391 | the whole price of a standing booking is still held, with no refund asked for, unless a success was checked against it after its completion |
| SagaHandlers.OnlyBrings | apps/api/src/booking/payment-result.processor.ts:48-71 | a handler in flight after a step was in flight before, or is the next stage of the one the step ran |
| SagaTheorems.ExhaustionIsOnRecord | apps/worker/src/payment/charge.processor.ts:97-125 | once everything has drained the exhausted jobs are exactly the dead letters and the lost notices, and a booking has its dead letter if and only if it was exhausted more often than it lost a notice |
| SagaTheorems.CancelAsOneStepLosesNothing | apps/api/src/booking/booking.service.ts:292-320 | a cancel nothing comes between never loses a refund and requests one for a paid booking |
| SagaTheorems.CleanRunsSettleEverything | apps/api/src/booking/payment-result.processor.ts:48-71 | on runs without a refund-losing cancel step, when all has drained every charge that went through ended in a standing booking or a refund, or its job ran out of attempts; then it is dead-lettered exactly when not all its notices were lost, and always if no worker died before a dead letter |
| SagaNotices.NextBalances | apps/worker/src/payment/charge.processor.ts:108-125 | every step keeps the balance of exhausted jobs, dead letters, lost notices and notices in flight, and only a worker dying before its dead letter loses a notice |
| SagaNotices.NoNoticesLost | apps/worker/src/payment/charge.processor.ts:108-125 | on runs in which no worker dies before a dead letter no notice is lost |
| Draining.EverythingCanFinish | apps/api/src/booking/outbox-relay.service.ts:49-61 | from every reachable state some continuation drains the outbox, the charge, result and refund queues and every handler, losing no refund and no dead letter and exhausting no priced booking |
| Draining.EveryChargeCanSettle | apps/api/src/booking/payment-result.processor.ts:36-71 | from every reachable state a charged customer can still end up with the stay or the money, unless a cancel already lost the refund or the job ran out of attempts |
| SagaWitnesses.StaysExist | apps/api/src/booking/booking.service.ts:115-157 | the stays the counterexamples speak of exist at every listing, check-in and nightly price |
| SagaWitnesses.StaleCancelLosesTheRefund | apps/api/src/booking/booking.service.ts:293-320 | for every priced booking a reachable, drained state where a stale cancel kept the guest's money |
| SagaWitnesses.DyingCancelLosesTheRefund | apps/api/src/booking/booking.service.ts:303-320 | the same by a cancel that dies between its write and its enqueue |
| SagaExceptions.CancelOfExpiredHappens | apps/api/src/booking/booking.service.ts:293-307 | for every bookable stay a reachable state in which the unguarded cancel write turns an EXPIRED row CANCELLED |
| SagaExceptions.CancelOfCompletedHappens | apps/api/src/booking/booking.service.ts:293-307 | for every priced stay a reachable state in which it turns a COMPLETED row CANCELLED |
| SagaExceptions.RecordingOverRefundHappens | apps/worker/src/payment/payment.service.ts:58-71 | for every priced stay a reachable state in which an overtaken charge records SUCCEEDED over REFUNDED |
| SagaExceptions.DyingWorkerLosesTheDeadLetter | apps/worker/src/payment/charge.processor.ts:108-125 | for every priced stay a reachable, drained state with the money taken and no stay, refund or dead letter, because a worker died before its dead letter |
| SagaExceptions.SecondCancelMakesGood | apps/api/src/booking/booking.service.ts:292-320 | for every priced stay a reachable, drained state in which a dying cancel lost the refund and a second cancel got it made |
| SagaExceptions.CompletedStayIsRefunded | apps/api/src/booking/booking.service.ts:385-390 | for every priced stay a reachable, drained state in which the booking is COMPLETED and its whole price has been given back |
| SagaMoneySteps.StepKeeps | apps/api/src/booking/booking.service.ts:108-417 | every step keeps the whole invariant of tables, ledgers, messages, handlers and tokens, and facts stay facts |
| Operations.ReachableThrough | apps/api/src/booking/booking.service.ts:81-418 | whatever is reachable stays reachable through any service operation, so every theorem above holds after it |
| Operations.HoldIsARun | apps/api/src/booking/booking.service.ts:108-241 | a hold, with waits, faults and its retry, is a run of saga steps |
| Operations.HoldAnswersTruthfully | apps/api/src/booking/booking.service.ts:141-228 | a hold that may be made adds exactly the priced row and its event or nothing; it succeeds if and only if its deciding attempt ran and no HELD or CONFIRMED stay of the listing shares an instant with it, reports the slot taken if and only if one did, and passes any other fault on |
| Operations.CancelIsARun | apps/api/src/booking/booking.service.ts:292-330 | a cancel is a run of saga steps |
| Operations.CancelInOneGo | apps/api/src/booking/booking.service.ts:288-330 | an uninterrupted cancel loses no refund, requests one exactly for a paid booking, changes nothing when refused, and is idempotent |
| Operations.DueHoldsAre | apps/api/src/booking/reservation-expiry.service.ts:33-39 | the candidates are, in table order, exactly the rows that are HELD with an expiry before now |
| Operations.FinishedStaysAre | apps/api/src/booking/reservation-completion.service.ts:43-49 | the candidates are, in table order, exactly the rows that are CONFIRMED with a check-out before now |
| Operations.ExpirySweepIsExact | apps/api/src/booking/reservation-expiry.service.ts:41-47 | the update expires exactly the HELD rows whose expiry is before now, leaves the rest alone, and finds nothing when repeated |
| Operations.CompletionSweepIsExact | apps/api/src/booking/reservation-completion.service.ts:51-57 | the update completes exactly the CONFIRMED rows whose check-out is before now, leaves the rest alone, and finds nothing when repeated |
| Operations.ExpirySweepIsARun | apps/api/src/booking/reservation-expiry.service.ts:30-64 | an expiry sweep is a run of saga steps |
| Operations.CompletionSweepIsARun | apps/api/src/booking/reservation-completion.service.ts:40-74 | a completion sweep is a run of saga steps |
| Operations.PublishBatchIsARun | apps/api/src/booking/outbox-relay.service.ts:61-93 | a relay pass is a run of the saga's enqueue and mark steps |
| Operations.PassesAgree | apps/api/src/booking/outbox-relay.service.ts:61-93 | the saga's relay steps taken for a batch do to the table what the relay protocol's pass does |
| Operations.DeliverChargeIsARun | apps/worker/src/payment/charge.processor.ts:49-125 | delivering a charge job, to its end, its retry or its dead letter, is a run of saga steps |
| Operations.ChargingTwiceIsChargingOnce | apps/worker/src/payment/payment.service.ts:21-33 | charging an event again changes nothing and reports the same, whatever the provider would now say |
| Operations.ProviderRemembers | apps/worker/src/payment/mock-payment.provider.ts:80-105 | the provider replays its answer for a settled key and moves no money |
| Operations.DeliverResultIsARun | apps/api/src/booking/payment-result.processor.ts:41-85 | delivering a payment result is a run of saga steps |
| Operations.SettlingTwiceIsSettlingOnce | apps/api/src/booking/booking.service.ts:357-417 | once a result is settled no result for that booking moves it, and `applied` is reported exactly when a row moved |
| Operations.DeliverRefundIsARun | apps/worker/src/payment/refund.processor.ts:16-20 | delivering a refund request is a run of saga steps |
| Operations.RefundingTwiceIsRefundingOnce | apps/worker/src/payment/payment.service.ts:108-128 | a refund moves money exactly when there is a recorded charge not yet given back, and again moves nothing |
| Answers.HoldIsRefusedExactly | apps/api/src/booking/booking.service.ts:115-139 | VALIDATION_FAILED if and only if the dates are out of order or past, NOT_FOUND if and only if they pass and the listing is missing or inactive; a refusal changes nothing and a booking needs an active listing |
| Answers.OnlyDeadlocksAreRetried | apps/api/src/booking/booking.service.ts:208-228 | without a deadlock there is no second attempt; after one the second is the last and decides |
| Answers.FaultsAreReadFromTheirCause | apps/api/src/booking/exclusion-violation.ts:1-44 | the code kept on the cause counts before the driver's own; 23P01 is an overlap, 40P01 a deadlock |
| Answers.CancelAnswersExactly | apps/api/src/booking/booking.service.ts:279-299 | NOT_FOUND if and only if the booking is missing or somebody else's, INVALID_STATE_TRANSITION if and only if it is EXPIRED or COMPLETED, done if and only if it is HELD, CONFIRMED or CANCELLED |
| Answers.CancelWritesExactly | apps/api/src/booking/booking.service.ts:296-320 | a granted cancel writes its one row, and a refund request exactly for a CONFIRMED booking; any other cancel writes nothing |
| Answers.LifecycleIs | apps/api/src/booking/booking.service.ts:50-67 | the transition map has five moves and none out of EXPIRED, CANCELLED or COMPLETED |
| Answers.HoldsLastTheirTerm | apps/api/src/booking/reservation-expiry.service.ts:33-47 | at every point of every run after a hold, no sweep up to its insert plus the time-to-live touches the booking, any later one expires it if it is still HELD, and it is EXPIRED only once that time has passed |
| Answers.ClosedRowsAreDue | apps/api/src/booking/reservation-completion.service.ts:43-57 | in every reachable state a row is EXPIRED only after its hold ran out, a time-to-live after its insert, and COMPLETED only after its check-out |
| Answers.SweepsWriteExactly | apps/api/src/booking/reservation-expiry.service.ts:41-47 | a sweep changes the rows that are due by its own clock read, and nothing but those and the time |
| Answers.DeliveryFailsExactly | apps/worker/src/payment/charge.processor.ts:49-95 | for every verdict of the provider, a charge delivery fails if and only if its amount is not positive, its payment succeeded without a reference, or its payment is unsettled, the provider does not know the key and is unavailable |
| Answers.FailedDelivery | apps/worker/src/payment/charge.processor.ts:108-125 | a failed delivery uses one of five attempts, leaves the dead letter with the last one, and at most opens the payment row |
| Answers.CompletedDelivery | apps/worker/src/payment/payment.service.ts:33-76 | any other delivery acknowledges exactly its job and publishes what the payment row then says |
| Answers.SettledPaymentsAreReplayed | apps/worker/src/payment/payment.service.ts:38-41 | a delivery for a settled payment touches neither the row nor the provider |
| Answers.UnsettledPaymentsAreCharged | apps/worker/src/payment/payment.service.ts:43-73 | an unsettled payment takes the provider's recorded outcome, or the one given now, which is recorded and moves money exactly when accepted |
| Answers.OnlyLastFailuresAreBuried | apps/worker/src/payment/charge.processor.ts:108-125 | a failed job is dead-lettered if and only if it has made every attempt allowed, one if nothing was said |
| Answers.SettlementAnswersExactly | apps/api/src/booking/booking.service.ts:367-417 | missing, applied, already settled or refund required, each if and only if the row is missing, HELD, CONFIRMED (any other status for a decline), or EXPIRED, CANCELLED or COMPLETED |
| Answers.ResultWritesExactly | apps/api/src/booking/payment-result.processor.ts:48-71 | a delivered result settles a HELD row, asks for a refund if a success finds the row gone, and changes nothing else but its queue |
| Answers.RefundWritesExactly | apps/worker/src/payment/payment.service.ts:115-128 | a delivered refund makes a SUCCEEDED payment REFUNDED and gives back, once, what was taken; otherwise only its queue changes |
| Answers.PassWritesExactly | apps/api/src/booking/outbox-relay.service.ts:61-93 | a relay pass enqueues and publishes the rows of its batch, puts their jobs on the queue, and changes nothing else |
| Answers.EachRowIsHandedOverOnce | apps/api/src/booking/outbox-relay.service.ts:75-89 | a row of the batch puts its job on the queue once, unless the queue was given it before and drops it; a row outside puts none |
| Services.BookingService.Validate | apps/api/src/booking/booking.service.ts:115-139 | the checks in their order: VALIDATION_FAILED exactly for bad dates, NOT_FOUND exactly for good dates and a missing or inactive listing, nothing otherwise |
| Services.BookingService.ClaimSlot | apps/api/src/booking/booking.service.ts:160-206 | reservation, guest and event are inserted together, or the constraint or a fault leaves everything as it was |
| Services.BookingService.ClaimWithRetry | apps/api/src/booking/booking.service.ts:208-228 | the claim, run once more exactly after a deadlock |
| Services.BookingService.Hold | apps/api/src/booking/booking.service.ts:108-241 | the new state and answer are the hold operation's, reached by saga steps, announced only on success; refused exactly for bad dates or a listing that is missing or inactive |
| Services.BookingService.GetOwned | apps/api/src/booking/booking.service.ts:279-286 | finds a row if and only if it exists and belongs to the guest |
| Services.BookingService.Cancel | apps/api/src/booking/booking.service.ts:292-330 | the new state and answer are the cancel operation's, reached by saga steps, announced exactly when a row changed; a guest other than the booking's gets NOT_FOUND and changes nothing |
| Services.BookingService.ApplyPaymentSucceeded | apps/api/src/booking/booking.service.ts:367-391 | HELD becomes CONFIRMED and is announced; otherwise missing, already settled, or refund required |
| Services.BookingService.ApplyPaymentFailed | apps/api/src/booking/booking.service.ts:399-417 | HELD becomes CANCELLED and is announced; otherwise missing or already settled |
| Services.PaymentResultProcessor.Process | apps/api/src/booking/payment-result.processor.ts:48-71 | settles by the result's type and requests a refund exactly when one is required |
| Services.PaymentResultProcessor.Deliver | apps/api/src/booking/payment-result.processor.ts:41-85 | a delivery processed and acknowledged, reached by saga steps |
| Services.PaymentService.Charge | apps/worker/src/payment/payment.service.ts:33-76 | payment row, ledgers and result are the charge operation's, replay, unique key and transient fault included |
| Services.PaymentService.Refund | apps/worker/src/payment/payment.service.ts:115-128 | payment row and ledgers are the refund operation's |
| Services.MockPaymentProvider.Charge | apps/worker/src/payment/mock-payment.provider.ts:74-107 | a settled key is replayed, a transient fault records nothing, an answer is recorded once and money moves only on acceptance |
| Services.MockPaymentProvider.Refund | apps/worker/src/payment/mock-payment.provider.ts:114-130 | a key is given back once |
| Services.ChargeProcessor.Process | apps/worker/src/payment/charge.processor.ts:49-95 | an event that does not parse or a charge that throws fails the attempt, otherwise the result is published; it fails for exactly the reasons of `DeliveryFailsExactly` |
| Services.ChargeProcessor.OnFailed | apps/worker/src/payment/charge.processor.ts:108-125 | a job is dead-lettered exactly when it has used every attempt allowed, by default one |
| Services.ChargeProcessor.Deliver | apps/api/src/queue/queue.module.ts:32-45 | one delivery to its acknowledgement, its next attempt out of five, or its dead letter, reached by saga steps |
| Services.RefundProcessor.Deliver | apps/worker/src/payment/refund.processor.ts:16-20 | a delivery processed and acknowledged, reached by saga steps |
| Services.OutboxRelayService.PublishBatch | apps/api/src/booking/outbox-relay.service.ts:61-93 | claims, publishes and then marks the selected batch, reached by saga steps, and returns its size |
| Services.ReservationExpiryService.SweepExpiredHolds | apps/api/src/booking/reservation-expiry.service.ts:30-64 | the update's rows and count by its own clock read, the announcements by the earlier one, reached by saga steps |
| Services.ReservationCompletionService.SweepCompletedStays | apps/api/src/booking/reservation-completion.service.ts:40-74 | the update's rows and count by its own clock read, the announcements by the earlier one, reached by saga steps |
| Services.Database.UpdateIfHeld | apps/api/src/booking/booking.service.ts:370-374 | the conditional update writes, and counts, a row only while it is HELD |
| Services.Database.ExpireHolds | apps/api/src/booking/reservation-expiry.service.ts:41-47 | the set-based update as a loop: exactly the HELD rows with an expiry before now, and their count |
| Services.Database.CompleteStays | apps/api/src/booking/reservation-completion.service.ts:51-57 | the set-based update as a loop: exactly the CONFIRMED rows with a check-out before now, and their count |
| Intervals.OverlapIsSharedInstant | packages/db/prisma/migrations/20260707203153_add_reservation_exclusion_constraint/migration.sql:10-18 | half-open ranges overlap if and only if they share an instant; turnover at one instant is no overlap |
| Intervals.HoldsNeedAFreeSlot | packages/db/prisma/migrations/20260707203153_add_reservation_exclusion_constraint/migration.sql:14-20 | a hold is let through if and only if every HELD or CONFIRMED stay of its listing ends by its check-in or begins no earlier than its check-out |
| Intervals.AdmittedInsertKeepsNoOverlap | packages/db/prisma/migrations/20260707203153_add_reservation_exclusion_constraint/migration.sql:14-20 | an active insert keeps the constraint if and only if no active row of its listing overlaps it |
| Intervals.NoRevivalKeepsNoOverlap | packages/db/prisma/migrations/20260707203153_add_reservation_exclusion_constraint/migration.sql:14-20 | updates that revive no row keep the constraint |
| Intervals.CoverageIsUnion | packages/db/prisma/migrations/20260707203153_add_reservation_exclusion_constraint/migration.sql:14-20 | under the constraint the summed lengths of the active stays equal the size of the set of instants they block |
| Intervals.Capacity | packages/db/prisma/migrations/20260707203153_add_reservation_exclusion_constraint/migration.sql:14-20 | the active stays of a listing never add up to more time than a window has |
| Nights.MakeDayMeetsTheStandard | apps/api/src/booking/booking.service.ts:144-156 | the constructed day number is the first of the requested month of the requested year, as ECMA-262 demands |
| Nights.DaysAreWhole | apps/api/src/booking/booking.service.ts:144-156 | day numbers count whole days of 86 400 000 milliseconds |
| Nights.DatePartsRoundTrip | apps/api/src/booking/booking.service.ts:144-156 | rebuilding an instant's UTC date parts floors it to its day |
| Nights.NightsAreDays | apps/api/src/booking/booking.service.ts:144-156 | nights are the difference of day numbers, never negative for an ordered stay; the rounding is exact |
| Nights.NightsAddUp | apps/api/src/booking/booking.service.ts:141-157 | back-to-back stays have exactly the nights of the one long stay |
| Nights.NightsTrackElapsedTime | apps/api/src/booking/booking.service.ts:141-157 | nights differ from the elapsed time by less than a day, either way |
| Nights.FreeExactlyWithinOneDay | apps/api/src/booking/booking.service.ts:141-157 | a stay is free if and only if it lies inside one UTC day or its listing costs nothing |
| Racing.EveryRaceIsFair | apps/api/src/booking/booking.service.ts:208-228 | for any claims in any schedule with deadlocks and single retries the calendar stays disjoint, each winner has its own row and event, each row its winner, and each refusal an overlapping row |
| Racing.OneSlotOneWinner | apps/api/src/booking/booking.service.ts:98-107 | overlapping claims of a free slot have at most one winner, and one if and only if some attempt was decided by the constraint |
| Racing.EveryRaceIsARun | apps/api/src/booking/booking.service.ts:208-228 | for every schedule the saga's clock, rows, outbox and handlers are the race's: a race is a run of claim steps, each attempt stamping its own insert and expiry |
| Racing.RacesBegin | apps/api/src/booking/booking.service.ts:108-157 | any number of validated, priced calls, each reading the clock at its own time, reach the start of a race by saga steps |
| Relay.SelectIsOldest | apps/api/src/booking/outbox-relay.service.ts:64-71 | a claim takes rows nobody has published or locked, each once and oldest first, a hundred or all there are, none committed after one left out |
| Relay.BatchesAreDisjoint | apps/api/src/booking/outbox-relay.service.ts:53-54 | batches held by concurrent relays never share a row and never exceed the limit |
| Relay.EnqueueAccounting | apps/api/src/booking/outbox-relay.service.ts:75-89 | a published row was enqueued exactly once plus once per pass that died between publishing and marking it |
| Relay.PassAdvances | apps/api/src/booking/outbox-relay.service.ts:64-89 | a pass publishes a row with fewer than a batch ahead of it and moves every other one up by a whole batch |
| Relay.BoundedWait | apps/api/src/booking/outbox-relay.service.ts:64-91 | with later arrivals only, a row with k unpublished rows ahead is published within k / 100 + 1 passes |
| Relay.BacklogDrains | apps/api/src/booking/outbox-relay.service.ts:64-91 | with no arrivals each pass drains a hundred rows until none are left |
| Realtime.GapsAreReportedExactly | apps/web/src/lib/realtime/use-listing-updates.ts:69-84 | whatever arrives, accepted numbers increase, and no gap was reported if and only if they are contiguous |
| Realtime.EventsAre | packages/contracts/src/realtime.ts:49-85 | an event is of the one kind, in version 1, with one of the five statuses |
| Realtime.EventsAreHandledExactly | apps/web/src/lib/realtime/use-listing-updates.ts:69-84 | an event is handled if and only if its listing is watched and its number is new, with a gap if and only if a number was skipped; anything else changes nothing |
| Realtime.HandledMeansReRead | apps/web/src/lib/realtime/use-listing-updates.ts:76-79 | once an event has been handled, even dropped, the client has re-read at or after the commit it announced |
| Realtime.ReconnectCatchesUp | apps/web/src/lib/realtime/use-listing-updates.ts:86-97 | after a reconnect the client has read every commit of every listing it watches |
| Realtime.RealtimeGateway.PublishReservationChanged | apps/api/src/realtime/realtime.gateway.ts:111-135 | a number is used at most once, the event goes to the listing's room, failures change nothing else, emitted numbers only go up, and in the protocol the call is an allocation or an announcement given up |
| Realtime.RealtimeGateway.StillRepresents | apps/api/src/realtime/realtime.gateway.ts:111-135 | no other protocol step changes what the counters and emitted events stand for |
| Realtime.RealtimeGateway.Watch | apps/api/src/realtime/realtime.gateway.ts:76-83 | joins one listing's room and no other |
| Realtime.RealtimeGateway.Unwatch | apps/api/src/realtime/realtime.gateway.ts:85-92 | leaves one listing's room and no other |
| Realtime.ListingUpdates.OnChanged | apps/web/src/lib/realtime/use-listing-updates.ts:69-84 | the subscription moves as the client specification does |
| Realtime.ListingUpdates.OnConnect | apps/web/src/lib/realtime/use-listing-updates.ts:94-97 | rejoins every room in order, then prompts a re-read |
| Realtime.ListingUpdates.Unmount | apps/web/src/lib/realtime/use-listing-updates.ts:103-109 | leaves every room it joined |
| Sessions.ReplayEndsTheFamily | apps/api/src/identity/auth.service.ts:130-142 | presenting a revoked token is refused and revokes its whole family and nothing else |
| Sessions.TokensWorkOnce | apps/api/src/identity/auth.service.ts:116-177 | a token exchanged once and presented again ends the session it was exchanged for |
| Sessions.LoginIsExact | apps/api/src/identity/auth.service.ts:78-103 | a login is granted if and only if the account exists and the password is its own; it then adds one token, live, in a family of its own, good for the time-to-live, and otherwise changes nothing |
| Sessions.RefreshIsGrantedExactly | apps/api/src/identity/auth.service.ts:116-160 | a refresh is granted if and only if the token is known, not revoked and not expired and its user exists |
| Sessions.RefreshWritesExactly | apps/api/src/identity/auth.service.ts:162-177 | a granted refresh revokes its token and adds the successor, for the same user in the same family; a refused one changes nothing unless the token was revoked |
| Sessions.LogoutEndsTheFamily | apps/api/src/identity/auth.service.ts:183-206 | a logout with a known token leaves no token of its family live, every other row as it was, and every later refresh of the family refused; with any other token it does nothing |
| Sessions.RotateKeepsExactly | apps/api/src/identity/auth.service.ts:162-173 | a rotation keeps every lineage if and only if its token is still live |
| Sessions.StepKeepsExactly | apps/api/src/identity/auth.service.ts:116-206 | of all steps of all requests, split at their awaits, a stale rotation is the only one that breaks a lineage |
| Sessions.OneLiveTokenPerFamily | apps/api/src/identity/auth.service.ts:116-206 | without stale rotations a family has at most one live token, its newest, and none if and only if a replay or logout ended it |
| Sessions.EndedFamiliesNeverRefresh | apps/api/src/identity/auth.service.ts:183-206 | once a family has ended, every token it ever had is refused in every continuation without stale rotations |
| Sessions.AccountsStay | apps/api/src/identity/auth.service.ts:41-67 | an account keeps its role and password along every run, whoever registers its email again |
| Sessions.UninterruptedRefresh | apps/api/src/identity/auth.service.ts:116-177 | a refresh that runs on its own is never stale and does what the single request does |
| Sessions.UninterruptedLogout | apps/api/src/identity/auth.service.ts:183-206 | a logout that runs on its own does what the single request does and records the family as ended |
| Sessions.OverlappingRefreshesFork | apps/api/src/identity/auth.service.ts:162-173 | from any state, two overlapping refreshes of a usable token leave its family with two live tokens |
| Sessions.LogoutDuringRefreshIsUndone | apps/api/src/identity/auth.service.ts:144-173 | a logout that runs between a refresh's checks and its rotation leaves the ended family with a token the server accepts |
| Sessions.Database.RevokeAll | apps/api/src/identity/auth.service.ts:132-140 | revokes exactly the family's tokens that are not revoked yet |
| Sessions.TokenService.IssueRefreshToken | apps/api/src/identity/tokens.service.ts:42-55 | appends one token, in the given family or in a new one |
| Sessions.AuthService.LogIn | apps/api/src/identity/auth.service.ts:78-103 | tables and answer are the login's; granted if and only if the account exists and the password matches |
| Sessions.AuthService.RefreshSession | apps/api/src/identity/auth.service.ts:116-177 | tables and answer are the refresh's |
| Sessions.AuthService.LogOut | apps/api/src/identity/auth.service.ts:183-206 | tables are the logout's: no token of a known token's family is left live; an absent or unknown token changes nothing |
| SingleFlight.StepIsTheServers | apps/api/src/identity/auth.service.ts:116-206 | every step of the tab, the wire and everyone else is one step of the split session server, or nothing to it |
| SingleFlight.NeverTripsReplayDetection | apps/web/src/lib/api/client.ts:27-60 | with no fetch failing once its refresh has been taken up, any overlapping 401s and any interleaving at the server: at most one refresh is in flight, it presents the family's one live token, is never taken for a replay, and reaches its rotation with that token still live |
| SingleFlight.NeverRotatesStale | apps/web/src/lib/api/client.ts:27-60 | on those runs the split server never takes a stale rotation of the tab's family |
| SingleFlight.LineagesKeptExactly | apps/api/src/identity/auth.service.ts:162-173 | there every family's lineage survives a step if and only if the step is not somebody else's stale rotation |
| SingleFlight.LostAnswerTripsReplayDetection | apps/web/src/lib/api/client.ts:37-60 | when the answer to a successful refresh is lost, the cookie's token is one the server will call a replay |
| SingleFlight.AbandonedRefreshForks | apps/web/src/lib/api/client.ts:37-60 | when the connection breaks before the rotation, the tab's next refresh rotates the same token too and leaves the family with two live tokens |
| SingleFlight.AtMostOneRetry | apps/web/src/lib/api/client.ts:87-93 | every call is sent at most twice, credential calls once, and a waiting call waits for a refresh that is in flight |
| SingleFlight.RefreshIsNeededExactly | apps/web/src/lib/api/client.ts:18-25 | a call waits for a refresh if and only if it meets its first 401 outside the three credential paths |
| SingleFlight.CookiesAreSentExactly | apps/web/src/lib/api/client.ts:37-43 | a refresh carries the cookie unless there is none or it has expired |
| SingleFlight.ResponsesAreHandledExactly | apps/web/src/lib/api/client.ts:87-103 | a response ends its call or makes it wait with a refresh in flight, and moves no other call |
| SingleFlight.RefreshSettlesEveryone | apps/web/src/lib/api/client.ts:44-58 | the end of a refresh replaces the access token, by none if it failed, and exactly the waiting calls are sent once more or end with their 401 |
| SingleFlight.BurstSharesOneRefresh | apps/web/src/lib/api/client.ts:27-60 | n simultaneous 401s put one refresh on the wire with all n waiting |
| SingleFlight.BurstIsOneRotation | apps/web/src/lib/api/client.ts:37-93 | the server rotates once for the burst and every call is sent again with the same new token |
| SingleFlight.ApiClient.RefreshAccessToken | apps/web/src/lib/api/client.ts:37-60 | sends a refresh only when none is in flight |
| SingleFlight.ApiClient.OnResponse | apps/web/src/lib/api/client.ts:87-103 | a first 401 outside the credential paths waits for the shared refresh; anything else ends the call |
| SingleFlight.ApiClient.OnRefreshSettled | apps/web/src/lib/api/client.ts:44-58 | clears the shared refresh, replaces the token and resumes every waiting call |

## Left out

- Postgres internals: insert-or-reject, deadlock abort, conditional update and SKIP LOCKED are taken as atomic steps.
- Redis and BullMQ transport: queues are multisets; backoff timing, stalled-job counting and cleanup are not modelled.
- The provider's `get` and later `set` are one test-and-set per key, which is the contract the payment service relies on; two concurrent first charges split between them are outside the model.
- Faults in result and refund handlers are crashes; those queues retry nothing that throws.
- One clock for all machines; clocks that disagree are not modelled.
- The services' methods run uninterrupted; their interleaving at every await is in the saga, where handlers carry their local values.
- 32-bit columns: prices are unbounded naturals, so a price too large for its column is not rejected.
- Invalid date strings and instants before 1970 in a hold request.
- Guests and ownership in the saga; the services carry them. Roles, guards, DTO validation, controllers and HTTP.
- Failure reasons, trace context, metrics and logs: no decision depends on them.
- Announcement completeness of the sweeps: candidates are read before the update with their own clock read, so a row may change unannounced; the methods state exactly what is announced.
- Announcements that fail: the services record each announcement made, and the realtime model lets any of them be lost.
- The reservation id inside a realtime event and the `isReservationChanged` type tests on fields other than kind, version and status.
- A counter increment that times out and runs later: the protocol lets a number be allocated at any time, the gateway class counts it within the call.
- Loss of the sequence counter in Redis.
- Cascading deletes and removal of users: nothing in the repository removes one.
- Cryptography: tokens are fresh distinct identifiers, hashing is injective, passwords are compared directly.
- Several tabs sharing a cookie, and logging out or in again while a refresh is in flight.
- The cookie that logout clears is scoped to `/auth` while the refresh cookie is set on `/` (`auth.controller.ts:126` and `:146`); cookies' paths are not modelled.
- Listings management, availability blocks, reviews, the error catalog and the rest of the web client: no protocol state.

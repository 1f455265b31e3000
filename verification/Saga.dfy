/** The booking saga as a state machine: tables, provider ledgers, queues, a clock, and the handlers
    that are in flight, each suspended at one of its awaits. A step is what one handler does between
    two awaits, or a handler dying there. Steps interleave freely, and several handlers may work on
    one job at once, so overlapping and repeated delivery are ordinary runs. */
module Saga {
  import opened BookingTypes
  import opened Intervals
  import Nights

  /** Where an in-flight handler stands, with the local values it still carries. */
  datatype Handler =
    // BookingService.hold: validated and priced, about to run its claiming transaction
    | HoldClaiming(listing: Id, checkIn: Instant, checkOut: Instant, price: nat, readAt: Instant, retried: bool)
    // BookingService.cancel: after reading the row; after writing CANCELLED over a paid row
    | CancelRead(id: Id, seen: Status)
    | CancelWritten(id: Id)
    // ChargeProcessor.process and PaymentService.charge
    | ChargeTaken(job: ChargeJob)
    | ChargeClaiming(job: ChargeJob)
    | ChargeCalling(job: ChargeJob)
    | ChargeRecording(job: ChargeJob, outcome: ChargeOutcome)
    | ChargePublishing(job: ChargeJob, result: PaymentResult)
    | ChargeAcking(job: ChargeJob)
    // ChargeProcessor.onFailed, for a job that has used its last attempt
    | FailureNotice(job: ChargeJob)
    // PaymentResultProcessor.process
    | ResultTaken(result: PaymentResult)
    | ResultChecking(result: PaymentResult)
    | ResultRefunding(result: PaymentResult)
    | ResultAcking(result: PaymentResult)
    // RefundProcessor.process and PaymentService.refund
    | RefundTaken(request: RefundRequested)
    | RefundCalling(request: RefundRequested)
    | RefundRecording(request: RefundRequested)
    | RefundAcking(request: RefundRequested)

  /** `resultIds` and `refundIds` are the jobs ever added: the ids a queue may deduplicate against.
      `exhausted` are the jobs that used their last attempt, `lostNotices` those of them whose worker died
      before dead-lettering them, `lostRefunds` the bookings whose cancel dropped a refund; no step reads them. */
  datatype State = State(
    clock: Instant,
    holdTtl: nat,
    reservations: seq<Reservation>,
    outbox: seq<OutboxRow>,
    payments: map<Id, Payment>,
    charges: map<Id, LedgerEntry>,
    refunds: set<Id>,
    moves: seq<MoneyMove>,
    chargeJobs: multiset<ChargeJob>,
    results: multiset<PaymentResult>,
    refundJobs: multiset<RefundRequested>,
    deadLetters: multiset<ChargeJob>,
    resultIds: set<PaymentResult>,
    refundIds: set<RefundRequested>,
    exhausted: multiset<ChargeJob>,
    lostNotices: multiset<ChargeJob>,
    lostRefunds: set<Id>,
    handlers: multiset<Handler>)

  function Init(clock: Instant, holdTtl: nat): State {
    State(clock, holdTtl, [], [], map[], map[], {}, [],
          multiset{}, multiset{}, multiset{}, multiset{}, {}, {}, multiset{}, multiset{}, {}, multiset{})
  }

  datatype Step =
    | Tick(now: Instant)
    | HoldBegin(listing: Id, checkIn: Instant, checkOut: Instant, nightlyPriceCents: nat)
    | HoldClaim(hold: Handler, deadlock: bool)
    | CancelBegin(id: Id)
    | CancelWrite(id: Id, seen: Status)
    | CancelEnqueue(id: Id, deduplicated: bool)
    | SweepExpired(now: Instant)
    | SweepCompleted(now: Instant)
    | RelayEnqueue(row: Id, deduplicated: bool)
    | RelayMark(row: Id)
    | ChargeTake(job: ChargeJob)
    | ChargeLookup(job: ChargeJob)
    | ChargeClaim(job: ChargeJob)
    | ChargeCall(job: ChargeJob, accept: bool)
    | ChargeRecord(job: ChargeJob, outcome: ChargeOutcome)
    | ChargePublish(job: ChargeJob, result: PaymentResult, deduplicated: bool)
    | ChargeAck(job: ChargeJob)
    | ChargeThrow(handler: Handler)
    | DeadLetter(job: ChargeJob)
    | ResultTake(result: PaymentResult)
    | ResultUpdate(result: PaymentResult)
    | ResultCheck(result: PaymentResult)
    | ResultRefund(result: PaymentResult, deduplicated: bool)
    | ResultAck(result: PaymentResult)
    | RefundTake(request: RefundRequested)
    | RefundLookup(request: RefundRequested)
    | RefundCall(request: RefundRequested)
    | RefundRecord(request: RefundRequested)
    | RefundAck(request: RefundRequested)
    | Crash(handler: Handler)

  /** A step whose handler is not there, or whose guard fails, changes nothing. */
  function Apply(s: State, step: Step): State {
    match step
    case Tick(now) => AdvanceClock(s, now)
    case HoldBegin(listing, checkIn, checkOut, nightly) => BeginHold(s, listing, checkIn, checkOut, nightly)
    case HoldClaim(hold, deadlock) => ClaimSlot(s, hold, deadlock)
    case CancelBegin(id) => BeginCancel(s, id)
    case CancelWrite(id, seen) => WriteCancelled(s, id, seen)
    case CancelEnqueue(id, dedup) => EnqueueCancelRefund(s, id, dedup)
    case SweepExpired(now) => ExpireHolds(s, now)
    case SweepCompleted(now) => CompleteStays(s, now)
    case RelayEnqueue(row, dedup) => EnqueueRow(s, row, dedup)
    case RelayMark(row) => MarkRow(s, row)
    case ChargeTake(job) => TakeCharge(s, job)
    case ChargeLookup(job) => LookupPayment(s, job)
    case ChargeClaim(job) => ClaimPayment(s, job)
    case ChargeCall(job, accept) => CallProvider(s, job, accept)
    case ChargeRecord(job, outcome) => RecordOutcome(s, job, outcome)
    case ChargePublish(job, result, dedup) => PublishResult(s, job, result, dedup)
    case ChargeAck(job) => AckCharge(s, job)
    case ChargeThrow(handler) => ThrowCharge(s, handler)
    case DeadLetter(job) => DeadLetterJob(s, job)
    case ResultTake(result) => TakeResult(s, result)
    case ResultUpdate(result) => UpdateIfHeld(s, result)
    case ResultCheck(result) => CheckSettled(s, result)
    case ResultRefund(result, dedup) => RequestRefund(s, result, dedup)
    case ResultAck(result) => AckResult(s, result)
    case RefundTake(request) => TakeRefund(s, request)
    case RefundLookup(request) => LookupRefundable(s, request)
    case RefundCall(request) => CallRefund(s, request)
    case RefundRecord(request) => RecordRefund(s, request)
    case RefundAck(request) => AckRefund(s, request)
    case Crash(handler) => CrashHandler(s, handler)
  }

  function Run(s: State, steps: seq<Step>): State
    decreases |steps|
  {
    if steps == [] then s else Apply(Run(s, steps[..|steps| - 1]), steps[|steps| - 1])
  }

  function AdvanceClock(s: State, now: Instant): State {
    if s.clock <= now then s.(clock := now) else s
  }

  // ---------------------------------------------------------------------------------------------
  // Handler bookkeeping

  function Enter(s: State, h: Handler): State {
    s.(handlers := s.handlers + multiset{h})
  }

  function Leave(s: State, h: Handler): State {
    s.(handlers := s.handlers - multiset{h})
  }

  function Move(s: State, from: Handler, to: Handler): State {
    s.(handlers := s.handlers - multiset{from} + multiset{to})
  }

  // ---------------------------------------------------------------------------------------------
  // BookingService.hold

  function BeginHold(s: State, listing: Id, checkIn: Instant, checkOut: Instant, nightly: nat): State {
    if checkIn < checkOut && s.clock <= checkIn then
      Enter(s, HoldClaiming(listing, checkIn, checkOut, Nights.PriceTotal(checkIn, checkOut, nightly), s.clock, false))
    else s
  }

  function NewReservation(s: State, h: Handler): Reservation
    requires h.HoldClaiming?
  {
    Reservation(h.listing, h.checkIn, h.checkOut, HELD, h.price, s.clock + s.holdTtl, h.readAt, s.clock)
  }

  function HeldEvent(id: Id, price: nat): BookingHeld {
    BookingHeld(id, id, price)
  }

  /** One attempt at the claiming transaction. A deadlock is retried once and then reported; an overlap
      is refused by the constraint; otherwise the row and its event are committed together. */
  function ClaimSlot(s: State, h: Handler, deadlock: bool): State {
    if !h.HoldClaiming? || h !in s.handlers then s
    else if deadlock then
      if h.retried then Leave(s, h) else Move(s, h, h.(retried := true))
    else if !Admits(s.reservations, NewReservation(s, h)) then Leave(s, h)
    else
      Leave(s, h).(
        reservations := s.reservations + [NewReservation(s, h)],
        outbox := s.outbox + [OutboxRow(HeldEvent(|s.reservations|, h.price), s.clock, false, 0)])
  }

  // ---------------------------------------------------------------------------------------------
  // BookingService.cancel

  function BeginCancel(s: State, id: Id): State {
    if id < |s.reservations| && CANCELLED in AllowedTransitions(s.reservations[id].status) then
      Enter(s, CancelRead(id, s.reservations[id].status))
    else s
  }

  function SetStatus(rows: seq<Reservation>, id: Id, status: Status): seq<Reservation>
    requires id < |rows|
  {
    rows[id := rows[id].(status := status)]
  }

  /** The write carries no status guard: it lands whatever the row has become since it was read. */
  function WriteCancelled(s: State, id: Id, seen: Status): State {
    var h := CancelRead(id, seen);
    if h !in s.handlers || id >= |s.reservations| then s
    else
      var written := s.(reservations := SetStatus(s.reservations, id, CANCELLED));
      if seen == CONFIRMED then Move(written, h, CancelWritten(id))
      else if LosesRefund(s, CancelWrite(id, seen)) then Leave(written, h).(lostRefunds := s.lostRefunds + {id})
      else Leave(written, h)
  }

  function EnqueueCancelRefund(s: State, id: Id, dedup: bool): State {
    var h := CancelWritten(id);
    if h !in s.handlers then s else Leave(AddRefund(s, RefundRequested(id, id), dedup), h)
  }

  /** The two ways a cancel drops the refund it owes: its write lands on a booking that was paid since
      the cancel read it as HELD, or it dies after the write and before the enqueue. */
  predicate LosesRefund(s: State, step: Step) {
    match step
    case CancelWrite(id, seen) =>
      && CancelRead(id, seen) in s.handlers
      && id < |s.reservations|
      && seen != CONFIRMED
      && s.reservations[id].status in {CONFIRMED, COMPLETED}
    case Crash(CancelWritten(id)) => CancelWritten(id) in s.handlers
    case _ => false
  }

  // ---------------------------------------------------------------------------------------------
  // The two sweeps: one conditional update over the whole table

  predicate HoldLapsed(r: Reservation, now: Instant) {
    r.status == HELD && r.holdExpiresAt < now
  }

  predicate StayFinished(r: Reservation, now: Instant) {
    r.status == CONFIRMED && r.checkOut < now
  }

  function ExpireRow(r: Reservation, now: Instant): Reservation {
    if HoldLapsed(r, now) then r.(status := EXPIRED) else r
  }

  function Expired(rows: seq<Reservation>, now: Instant): seq<Reservation> {
    seq(|rows|, i requires 0 <= i < |rows| => ExpireRow(rows[i], now))
  }

  function CompleteRow(r: Reservation, now: Instant): Reservation {
    if StayFinished(r, now) then r.(status := COMPLETED) else r
  }

  function Completed(rows: seq<Reservation>, now: Instant): seq<Reservation> {
    seq(|rows|, i requires 0 <= i < |rows| => CompleteRow(rows[i], now))
  }

  /** A sweep compares against a clock it read before the update reached the database. */
  function ExpireHolds(s: State, now: Instant): State {
    if now <= s.clock then s.(reservations := Expired(s.reservations, now)) else s
  }

  function CompleteStays(s: State, now: Instant): State {
    if now <= s.clock then s.(reservations := Completed(s.reservations, now)) else s
  }

  // ---------------------------------------------------------------------------------------------
  // The relay, row by row. The queue may drop a job whose id it has been given before.

  function EnqueueRow(s: State, row: Id, dedup: bool): State {
    if row >= |s.outbox| || s.outbox[row].published then s
    else
      var r := s.outbox[row];
      s.(outbox := s.outbox[row := r.(enqueues := r.enqueues + 1)],
         chargeJobs := if dedup && r.enqueues > 0 then s.chargeJobs
                       else s.chargeJobs + multiset{ChargeJob(r.event, 0)})
  }

  function MarkRow(s: State, row: Id): State {
    if row < |s.outbox| && s.outbox[row].enqueues > 0 then
      s.(outbox := s.outbox[row := s.outbox[row].(published := true)])
    else s
  }

  // ---------------------------------------------------------------------------------------------
  // The charge

  /** A delivered job stays on its queue until its handler acknowledges it. */
  function TakeCharge(s: State, job: ChargeJob): State {
    if job in s.chargeJobs then Enter(s, ChargeTaken(job)) else s
  }

  /** A SUCCEEDED payment without its reference makes `toResult` throw. */
  predicate Presentable(payment: Payment) {
    payment.status == SUCCEEDED ==> payment.providerRef.Some?
  }

  /** Built from the stored payment, so a first charge and a redelivered one say the same. */
  function ToResult(event: BookingHeld, payment: Payment): PaymentResult
    requires Presentable(payment)
  {
    if payment.status == SUCCEEDED then
      PaymentSucceeded(event.reservationId, event.idempotencyKey, payment.amountCents, payment.providerRef.value)
    else PaymentFailed(event.reservationId, event.idempotencyKey)
  }

  /** The event must parse, which a non-positive amount does not; then the payment row is read. */
  function LookupPayment(s: State, job: ChargeJob): State {
    var h, key := ChargeTaken(job), job.event.idempotencyKey;
    if h !in s.handlers || job.event.amountCents <= 0 then s
    else if key !in s.payments then Move(s, h, ChargeClaiming(job))
    else if s.payments[key].status == PENDING then Move(s, h, ChargeCalling(job))
    else if !Presentable(s.payments[key]) then s
    else Move(s, h, ChargePublishing(job, ToResult(job.event, s.payments[key])))
  }

  /** The unique key turns a second insert into a collision, which is ignored. */
  function ClaimPayment(s: State, job: ChargeJob): State {
    var h, e := ChargeClaiming(job), job.event;
    if h !in s.handlers then s
    else if e.idempotencyKey in s.payments then Move(s, h, ChargeCalling(job))
    else Move(s, h, ChargeCalling(job)).(
           payments := s.payments[e.idempotencyKey := Payment(e.reservationId, PENDING, e.amountCents, None)])
  }

  /** The provider settles a key once and replays its answer ever after. `accept` is its own verdict. */
  function CallProvider(s: State, job: ChargeJob, accept: bool): State {
    var h, e := ChargeCalling(job), job.event;
    var key := e.idempotencyKey;
    if h !in s.handlers then s
    else if key in s.charges then Move(s, h, ChargeRecording(job, s.charges[key].outcome))
    else
      var outcome := if accept then Charged(key) else Declined;
      Move(s, h, ChargeRecording(job, outcome)).(
        charges := s.charges[key := LedgerEntry(outcome, e.amountCents)],
        moves := if accept then s.moves + [Take(key, e.amountCents)] else s.moves)
  }

  function Settle(p: Payment, outcome: ChargeOutcome): (settled: Payment)
    ensures Presentable(settled)
  {
    match outcome
    case Charged(ref) => p.(status := SUCCEEDED, providerRef := Some(ref))
    case Declined => p.(status := FAILED)
  }

  /** The row is updated whatever its status has become. */
  function RecordOutcome(s: State, job: ChargeJob, outcome: ChargeOutcome): State {
    var h, key := ChargeRecording(job, outcome), job.event.idempotencyKey;
    if h !in s.handlers || key !in s.payments then s
    else
      var settled := Settle(s.payments[key], outcome);
      Move(s, h, ChargePublishing(job, ToResult(job.event, settled))).(payments := s.payments[key := settled])
  }

  function PublishResult(s: State, job: ChargeJob, result: PaymentResult, dedup: bool): State {
    var h := ChargePublishing(job, result);
    if h !in s.handlers then s
    else Move(s, h, ChargeAcking(job)).(
           results := if dedup && result in s.resultIds then s.results else s.results + multiset{result},
           resultIds := s.resultIds + {result})
  }

  function AckCharge(s: State, job: ChargeJob): State {
    if ChargeAcking(job) !in s.handlers then s
    else Leave(s, ChargeAcking(job)).(chargeJobs := s.chargeJobs - multiset{job})
  }

  predicate Throws(h: Handler) {
    h.ChargeTaken? || h.ChargeClaiming? || h.ChargeCalling? || h.ChargeRecording? || h.ChargePublishing?
  }

  /** A failed attempt: the job goes back with one attempt more, or has used its last one. */
  function ThrowCharge(s: State, h: Handler): State {
    if h !in s.handlers || !Throws(h) then s
    else if h.job !in s.chargeJobs then Leave(s, h)
    else
      var failed := h.job.(attemptsMade := h.job.attemptsMade + 1);
      var rest := s.chargeJobs - multiset{h.job};
      if failed.attemptsMade < CHARGE_ATTEMPTS then
        Leave(s, h).(chargeJobs := rest + multiset{failed})
      else
        Move(s, h, FailureNotice(failed)).(
          chargeJobs := rest,
          exhausted := s.exhausted + multiset{failed})
  }

  function DeadLetterJob(s: State, job: ChargeJob): State {
    if FailureNotice(job) !in s.handlers then s
    else Leave(s, FailureNotice(job)).(deadLetters := s.deadLetters + multiset{job})
  }

  // ---------------------------------------------------------------------------------------------
  // Settlement

  function TakeResult(s: State, result: PaymentResult): State {
    if result in s.results then Enter(s, ResultTaken(result)) else s
  }

  function SettledStatus(result: PaymentResult): Status {
    if result.PaymentSucceeded? then CONFIRMED else CANCELLED
  }

  /** The conditional update: only a row that is still HELD moves. */
  function UpdateIfHeld(s: State, result: PaymentResult): State {
    var h, id := ResultTaken(result), result.reservationId;
    if h !in s.handlers then s
    else if id < |s.reservations| && s.reservations[id].status == HELD then
      Move(s, h, ResultAcking(result)).(reservations := SetStatus(s.reservations, id, SettledStatus(result)))
    else Move(s, h, ResultChecking(result))
  }

  /** A success that found no hold must be compensated unless the booking is already confirmed. */
  function CheckSettled(s: State, result: PaymentResult): State {
    var h, id := ResultChecking(result), result.reservationId;
    if h !in s.handlers then s
    else if result.PaymentSucceeded? && id < |s.reservations| && s.reservations[id].status != CONFIRMED then
      Move(s, h, ResultRefunding(result))
    else Move(s, h, ResultAcking(result))
  }

  function AddRefund(s: State, request: RefundRequested, dedup: bool): State {
    s.(refundJobs := if dedup && request in s.refundIds then s.refundJobs else s.refundJobs + multiset{request},
       refundIds := s.refundIds + {request})
  }

  function RequestRefund(s: State, result: PaymentResult, dedup: bool): State {
    var h := ResultRefunding(result);
    if h !in s.handlers then s
    else Move(AddRefund(s, RefundRequested(result.reservationId, result.idempotencyKey), dedup), h,
              ResultAcking(result))
  }

  function AckResult(s: State, result: PaymentResult): State {
    if ResultAcking(result) !in s.handlers then s
    else Leave(s, ResultAcking(result)).(results := s.results - multiset{result})
  }

  // ---------------------------------------------------------------------------------------------
  // The refund

  function TakeRefund(s: State, request: RefundRequested): State {
    if request in s.refundJobs then Enter(s, RefundTaken(request)) else s
  }

  function LookupRefundable(s: State, request: RefundRequested): State {
    var h, key := RefundTaken(request), request.idempotencyKey;
    if h !in s.handlers then s
    else if key in s.payments && s.payments[key].status == SUCCEEDED then Move(s, h, RefundCalling(request))
    else Move(s, h, RefundAcking(request))
  }

  /** The amount a charge took, which is what a refund under its key gives back. */
  function AmountTaken(charges: map<Id, LedgerEntry>, key: Id): int {
    if key in charges && charges[key].outcome.Charged? then charges[key].amountCents else 0
  }

  function CallRefund(s: State, request: RefundRequested): State {
    var h, key := RefundCalling(request), request.idempotencyKey;
    if h !in s.handlers then s
    else if key in s.refunds then Move(s, h, RefundRecording(request))
    else Move(s, h, RefundRecording(request)).(
           refunds := s.refunds + {key},
           moves := s.moves + [GiveBack(key, AmountTaken(s.charges, key))])
  }

  function RecordRefund(s: State, request: RefundRequested): State {
    var h, key := RefundRecording(request), request.idempotencyKey;
    if h !in s.handlers || key !in s.payments then s
    else Move(s, h, RefundAcking(request)).(payments := s.payments[key := s.payments[key].(status := REFUNDED)])
  }

  function AckRefund(s: State, request: RefundRequested): State {
    if RefundAcking(request) !in s.handlers then s
    else Leave(s, RefundAcking(request)).(refundJobs := s.refundJobs - multiset{request})
  }

  // ---------------------------------------------------------------------------------------------
  // A handler that dies never resumes; the job it was working on is still on its queue.

  function CrashHandler(s: State, h: Handler): State {
    if h !in s.handlers then s
    else
      Leave(s, h).(
        lostNotices := if h.FailureNotice? then s.lostNotices + multiset{h.job} else s.lostNotices,
        lostRefunds := if h.CancelWritten? then s.lostRefunds + {h.id} else s.lostRefunds)
  }
}

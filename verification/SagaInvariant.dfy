/** What every reachable state of the saga satisfies. Facts about the tables and ledgers only ever
    grow (`Evolves`), so what a queued message or a suspended handler relies on stays true however
    the others interleave; what must not get lost is tracked as a token that each step hands on. */
module SagaInvariant {
  import opened BookingTypes
  import opened Intervals
  import opened Saga

  // ---------------------------------------------------------------------------------------------
  // Facts that never become false again

  predicate Paid(s: State, k: Id) {
    k in s.charges && s.charges[k].outcome.Charged?
  }

  /** The payment row has recorded the success (and possibly the refund) of the charge. */
  predicate Recorded(s: State, k: Id) {
    k in s.payments && s.payments[k].status in {SUCCEEDED, REFUNDED}
  }

  predicate Inactive(s: State, id: Id) {
    id < |s.reservations| && !Active(s.reservations[id].status)
  }

  predicate Kept(s: State, id: Id) {
    id < |s.reservations| && s.reservations[id].status in {CONFIRMED, COMPLETED}
  }

  /** The refund of this booking is queued, done, about to be queued, or was lost by its cancel. */
  predicate Owed(s: State, k: Id) {
    || RefundRequested(k, k) in s.refundJobs
    || k in s.refunds
    || CancelWritten(k) in s.handlers
    || k in s.lostRefunds
  }

  /** A successful charge has had its effect: the booking stands, or the money is on its way back. */
  predicate Handled(s: State, k: Id) {
    Kept(s, k) || Owed(s, k)
  }

  /** A result has been acted on: the hold is decided, and a success has been handled. */
  predicate Settled(s: State, r: PaymentResult) {
    && r.reservationId < |s.reservations| && s.reservations[r.reservationId].status != HELD
    && (r.PaymentSucceeded? ==> Handled(s, r.reservationId))
  }

  /** The charge of this booking is settled in the payment row and its result has been published. */
  predicate Reported(s: State, k: Id) {
    && k < |s.reservations|
    && k in s.payments && s.payments[k].status != PENDING
    && (PaymentSucceeded(k, k, s.reservations[k].priceTotalCents, k) in s.resultIds
        || PaymentFailed(k, k) in s.resultIds)
  }

  /** Never HELD again, never active again, never booked again. */
  predicate StatusEvolves(a: Status, b: Status) {
    || a == b
    || a == HELD
    || (a == CONFIRMED && b in {CANCELLED, COMPLETED})
    || (a in {EXPIRED, COMPLETED} && b == CANCELLED)
  }

  predicate RowEvolves(a: Reservation, b: Reservation) {
    a.(status := b.status) == b && StatusEvolves(a.status, b.status)
  }

  predicate OutboxEvolves(a: OutboxRow, b: OutboxRow) {
    a.event == b.event && a.createdAt == b.createdAt && a.enqueues <= b.enqueues && (a.published ==> b.published)
  }

  /** A charge outcome once recorded is never forgotten, though REFUNDED may be overwritten. */
  predicate PaymentEvolves(a: Payment, b: Payment) {
    && a.reservationId == b.reservationId && a.amountCents == b.amountCents
    && (a.status == b.status || a.status == PENDING || {a.status, b.status} <= {SUCCEEDED, REFUNDED})
  }

  ghost predicate FactsEvolve(s: State, t: State) {
    && s.clock <= t.clock && s.holdTtl == t.holdTtl
    && |s.reservations| <= |t.reservations| && |s.outbox| <= |t.outbox|
    && (forall i :: 0 <= i < |s.reservations| ==> RowEvolves(s.reservations[i], t.reservations[i]))
    && (forall i :: 0 <= i < |s.outbox| ==> OutboxEvolves(s.outbox[i], t.outbox[i]))
    && (forall k :: k in s.payments ==> k in t.payments && PaymentEvolves(s.payments[k], t.payments[k]))
    && (forall k :: k in s.charges ==> k in t.charges && t.charges[k] == s.charges[k])
    && s.refunds <= t.refunds
    && s.moves <= t.moves
    && s.resultIds <= t.resultIds && s.refundIds <= t.refundIds
    && s.exhausted <= t.exhausted && s.lostNotices <= t.lostNotices && s.lostRefunds <= t.lostRefunds
  }

  ghost predicate Evolves(s: State, t: State) {
    FactsEvolve(s, t) && forall k: Id :: Handled(s, k) ==> Handled(t, k)
  }

  // ---------------------------------------------------------------------------------------------
  // Tables and ledgers

  ghost predicate RowOk(s: State, i: Id)
    requires i < |s.reservations| == |s.outbox|
  {
    var r, o := s.reservations[i], s.outbox[i];
    && r.checkIn < r.checkOut
    && r.readAt <= r.checkIn && r.readAt <= r.insertedAt <= s.clock
    && o.event == HeldEvent(i, r.priceTotalCents)
    && (o.published ==> o.enqueues > 0)
    && (Kept(s, i) ==> Paid(s, i) && Recorded(s, i))
    && r.holdExpiresAt == r.insertedAt + s.holdTtl
    && (r.status == EXPIRED ==> r.holdExpiresAt < s.clock)
    && (r.status == COMPLETED ==> r.checkOut < s.clock)
  }

  ghost predicate PaymentOk(s: State, k: Id)
    requires k in s.payments
  {
    var p := s.payments[k];
    && k < |s.reservations|
    && p.reservationId == k
    && p.amountCents == s.reservations[k].priceTotalCents > 0
    && (p.status in {SUCCEEDED, REFUNDED} ==> Paid(s, k))
    && (p.status == SUCCEEDED ==> p.providerRef == Some(k))
    && (p.status == FAILED ==> k in s.charges && !Paid(s, k))
    && (p.status == REFUNDED ==> k in s.refunds)
  }

  ghost predicate LedgerOk(s: State, k: Id) {
    && (k in s.charges ==>
          && k in s.payments
          && s.charges[k].amountCents == s.payments[k].amountCents
          && (s.charges[k].outcome.Charged? ==> s.charges[k].outcome.providerRef == k))
    && (k in s.refunds ==> Paid(s, k) && Recorded(s, k) && Inactive(s, k))
  }

  /** Two booked stays of one listing are disjoint, or the earlier ended before the later was inserted. */
  predicate Apart(a: Reservation, b: Reservation) {
    a.listing == b.listing && Booked(a.status) && Booked(b.status) ==> !Overlaps(a, b) || a.checkOut < b.insertedAt
  }

  ghost predicate Tables(s: State) {
    && |s.reservations| == |s.outbox|
    && NoOverlap(s.reservations)
    && (forall i, j :: 0 <= i < j < |s.reservations| ==> Apart(s.reservations[i], s.reservations[j]))
    && (forall i :: 0 <= i < |s.reservations| ==> RowOk(s, i))
    && (forall k :: k in s.payments ==> PaymentOk(s, k))
    && (forall k: Id :: LedgerOk(s, k))
    && (forall k :: k in s.lostRefunds ==> k < |s.reservations| && s.reservations[k].status == CANCELLED && Paid(s, k))
  }

  // ---------------------------------------------------------------------------------------------
  // The provider's money movements

  /** How often a key was charged and refunded, and what the customer has paid on balance. */
  datatype Tally = Tally(taken: nat, returned: nat, net: int)

  function Count(t: Tally, m: MoneyMove, k: Id): Tally {
    if m.key != k then t
    else if m.Take? then Tally(t.taken + 1, t.returned, t.net + m.amountCents)
    else Tally(t.taken, t.returned + 1, t.net - m.amountCents)
  }

  function TallyOf(moves: seq<MoneyMove>, k: Id): Tally {
    if moves == [] then Tally(0, 0, 0)
    else Count(TallyOf(moves[..|moves| - 1], k), moves[|moves| - 1], k)
  }

  lemma TallyAppend(moves: seq<MoneyMove>, m: MoneyMove, k: Id)
    ensures TallyOf(moves + [m], k) == Count(TallyOf(moves, k), m, k)
  {
    assert (moves + [m])[..|moves|] == moves;
  }

  /** What the ledgers say a key's tally must be. */
  function LedgerTally(charges: map<Id, LedgerEntry>, refunds: set<Id>, k: Id): Tally {
    var amount := AmountTaken(charges, k);
    Tally(if k in charges && charges[k].outcome.Charged? then 1 else 0,
          if k in refunds then 1 else 0,
          if k in refunds then 0 else amount)
  }

  ghost predicate MovesOk(charges: map<Id, LedgerEntry>, refunds: set<Id>, moves: seq<MoneyMove>) {
    forall k: Id :: TallyOf(moves, k) == LedgerTally(charges, refunds, k)
  }

  // ---------------------------------------------------------------------------------------------
  // Messages and handlers

  ghost predicate EventOk(s: State, e: BookingHeld) {
    && e.reservationId < |s.reservations| && e.reservationId < |s.outbox|
    && e == HeldEvent(e.reservationId, s.reservations[e.reservationId].priceTotalCents)
    && s.outbox[e.reservationId].enqueues > 0
  }

  ghost predicate JobOk(s: State, job: ChargeJob) {
    EventOk(s, job.event) && job.attemptsMade < CHARGE_ATTEMPTS
  }

  ghost predicate ResultOk(s: State, r: PaymentResult) {
    && r.reservationId == r.idempotencyKey < |s.reservations|
    && match r
       case PaymentSucceeded(id, _, amount, ref) =>
         Paid(s, id) && Recorded(s, id) && amount == s.reservations[id].priceTotalCents && ref == id
       case PaymentFailed(id, _) =>
         id in s.charges && (Paid(s, id) ==> id in s.refunds)
  }

  ghost predicate RefundOk(s: State, q: RefundRequested) {
    && q.reservationId == q.idempotencyKey
    && Inactive(s, q.reservationId) && Paid(s, q.reservationId) && Recorded(s, q.reservationId)
  }

  ghost predicate HandlerOk(s: State, h: Handler) {
    match h
    case HoldClaiming(_, checkIn, checkOut, _, readAt, _) =>
      checkIn < checkOut && readAt <= checkIn && readAt <= s.clock
    case CancelRead(id, seen) =>
      id < |s.reservations| && Active(seen) && (seen == CONFIRMED ==> Paid(s, id) && Recorded(s, id))
    case CancelWritten(id) => RefundOk(s, RefundRequested(id, id)) && s.reservations[id].status == CANCELLED
    case ChargeTaken(job) => JobOk(s, job)
    case ChargeClaiming(job) => JobOk(s, job) && job.event.amountCents > 0
    case ChargeCalling(job) => JobOk(s, job) && job.event.idempotencyKey in s.payments
    case ChargeRecording(job, outcome) =>
      JobOk(s, job) && job.event.idempotencyKey in s.charges && s.charges[job.event.idempotencyKey].outcome == outcome
    case ChargePublishing(job, result) =>
      && JobOk(s, job) && ResultOk(s, result) && result.reservationId == job.event.reservationId
      && result.reservationId in s.payments && s.payments[result.reservationId].status != PENDING
    case ChargeAcking(job) => JobOk(s, job) && Reported(s, job.event.reservationId)
    case FailureNotice(job) => EventOk(s, job.event) && job.attemptsMade == CHARGE_ATTEMPTS
    case ResultTaken(result) => ResultOk(s, result)
    case ResultChecking(result) => ResultOk(s, result) && s.reservations[result.reservationId].status != HELD
    case ResultRefunding(result) =>
      ResultOk(s, result) && RefundOk(s, RefundRequested(result.reservationId, result.idempotencyKey))
    case ResultAcking(result) => ResultOk(s, result) && Settled(s, result)
    case RefundTaken(request) => RefundOk(s, request) && request in s.refundIds
    case RefundCalling(request) => RefundOk(s, request) && request in s.refundIds
    case RefundRecording(request) =>
      RefundOk(s, request) && request in s.refundIds && request.idempotencyKey in s.refunds
    case RefundAcking(request) =>
      RefundOk(s, request) && request in s.refundIds && request.idempotencyKey in s.refunds
  }

  ghost predicate Messages(s: State) {
    && (forall job :: job in s.chargeJobs ==> JobOk(s, job))
    && (forall job :: job in s.deadLetters ==> EventOk(s, job.event) && job.attemptsMade == CHARGE_ATTEMPTS)
    && (forall r :: r in s.results ==> r in s.resultIds)
    && (forall r :: r in s.resultIds ==> ResultOk(s, r))
    && (forall q :: q in s.refundJobs ==> q in s.refundIds)
    && (forall q :: q in s.refundIds ==> RefundOk(s, q))
    && (forall h :: h in s.handlers ==> HandlerOk(s, h))
  }

  /** Everything a message or handler relies on survives any step of anyone else. */
  lemma MessagesSurvive(s: State, t: State)
    requires Evolves(s, t) && Messages(s)
    ensures forall job :: JobOk(s, job) ==> JobOk(t, job)
    ensures forall e :: EventOk(s, e) ==> EventOk(t, e)
    ensures forall r :: ResultOk(s, r) ==> ResultOk(t, r)
    ensures forall q :: RefundOk(s, q) ==> RefundOk(t, q)
  {}

  lemma HandlerSurvives(s: State, t: State, h: Handler)
    requires Evolves(s, t) && HandlerOk(s, h)
    ensures HandlerOk(t, h)
  {}

  // ---------------------------------------------------------------------------------------------
  // Tokens: what must not be lost

  ghost predicate HasJob(s: State, k: Id) {
    k < |s.outbox| && exists n: nat :: n < CHARGE_ATTEMPTS && ChargeJob(s.outbox[k].event, n) in s.chargeJobs
  }

  /** A job of this booking has used its last attempt. */
  predicate Exhausted(s: State, k: Id) {
    k < |s.outbox| && LastAttempt(s, k) in s.exhausted
  }

  /** The booking's job as it is when no attempts remain, and as it is dead-lettered. */
  function LastAttempt(s: State, k: Id): ChargeJob
    requires k < |s.outbox|
  {
    ChargeJob(s.outbox[k].event, CHARGE_ATTEMPTS)
  }

  predicate DeadLettered(s: State, k: Id) {
    k < |s.outbox| && LastAttempt(s, k) in s.deadLetters
  }

  /** The intent to charge a booking, once on the queue, stays there until it is reported or exhausted. */
  ghost predicate IntentToken(s: State, k: Id)
    requires k < |s.outbox|
  {
    s.outbox[k].enqueues > 0 ==> HasJob(s, k) || Exhausted(s, k) || Reported(s, k)
  }

  ghost predicate IntentTokens(s: State) {
    forall k :: 0 <= k < |s.outbox| ==> IntentToken(s, k)
  }

  ghost predicate ResultTokens(s: State) {
    forall r :: r in s.resultIds ==> r in s.results || Settled(s, r)
  }

  /** A refund was asked for by this booking's cancel, or by a success that came too late. */
  predicate RefundAsked(s: State, k: Id) {
    RefundRequested(k, k) in s.refundIds
  }

  /** What was asked for is queued or done, and what was done had been asked for. */
  ghost predicate RefundTokens(s: State) {
    && (forall k :: k in s.refunds ==> RefundAsked(s, k))
    && (forall q :: q in s.refundIds ==> q in s.refundJobs || q.reservationId in s.refunds)
  }

  ghost predicate Tokens(s: State) {
    IntentTokens(s) && ResultTokens(s) && RefundTokens(s)
  }

  ghost predicate Inv(s: State) {
    && Tables(s)
    && MovesOk(s.charges, s.refunds, s.moves)
    && Messages(s)
    && Tokens(s)
  }

  lemma InitInv(clock: Instant, holdTtl: nat)
    ensures Inv(Init(clock, holdTtl))
  {}
}

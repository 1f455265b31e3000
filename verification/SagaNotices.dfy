/** What became of the jobs that ran out of attempts: each is dead-lettered, about to be, or was lost by a
    worker that died first, and nothing else is ever dead-lettered. */
module SagaNotices {
  import opened BookingTypes
  import opened Saga
  import opened SagaMoneySteps

  /** The books balance, job by job and delivery by delivery. */
  ghost predicate Balanced(s: State) {
    forall job: ChargeJob :: BalancedFor(s, job)
  }

  predicate BalancedFor(s: State, job: ChargeJob) {
    s.exhausted[job] == s.deadLetters[job] + s.lostNotices[job] + s.handlers[FailureNotice(job)]
  }

  /** A worker dies between a job's last failure and its dead letter. */
  predicate LosesNotice(s: State, step: Step) {
    step.Crash? && step.handler.FailureNotice? && step.handler in s.handlers
  }

  /** The records are as they were, and so are the notices in flight. */
  ghost predicate NoticesSame(s: State, t: State) {
    && t.exhausted == s.exhausted && t.deadLetters == s.deadLetters && t.lostNotices == s.lostNotices
    && forall job: ChargeJob :: t.handlers[FailureNotice(job)] == s.handlers[FailureNotice(job)]
  }

  // ---------------------------------------------------------------------------------------------
  // The steps that leave notices alone

  lemma OthersCome(s: State, h: Handler)
    requires !h.FailureNotice?
    ensures NoticesSame(s, Enter(s, h)) && NoticesSame(s, Leave(s, h))
  {}

  lemma OthersMove(s: State, g: Handler, h: Handler)
    requires !g.FailureNotice? && !h.FailureNotice?
    ensures NoticesSame(s, Move(s, g, h))
  {}

  lemma HoldNotices(s: State, step: Step, t: State)
    requires Next(s, step, t) && (step.Tick? || step.HoldBegin? || step.HoldClaim?)
    ensures NoticesSame(s, t)
  {
    if step.HoldClaim? && step.hold.HoldClaiming? {
      OthersCome(s, step.hold);
      OthersMove(s, step.hold, step.hold.(retried := true));
    }
  }

  lemma CancelNotices(s: State, id: Id, dedup: bool)
    ensures NoticesSame(s, BeginCancel(s, id)) && NoticesSame(s, EnqueueCancelRefund(s, id, dedup))
  {
    if id < |s.reservations| {
      OthersCome(s, CancelRead(id, s.reservations[id].status));
    }
    OthersCome(s, CancelWritten(id));
  }

  lemma WriteNotices(s: State, id: Id, seen: Status)
    ensures NoticesSame(s, WriteCancelled(s, id, seen))
  {
    OthersCome(s, CancelRead(id, seen));
    OthersMove(s, CancelRead(id, seen), CancelWritten(id));
  }

  lemma BackgroundNotices(s: State, step: Step, t: State)
    requires Next(s, step, t)
    requires step.SweepExpired? || step.SweepCompleted? || step.RelayEnqueue? || step.RelayMark?
    ensures NoticesSame(s, t)
  {}

  lemma TakeNotices(s: State, job: ChargeJob, result: PaymentResult, q: RefundRequested)
    ensures NoticesSame(s, TakeCharge(s, job)) && NoticesSame(s, TakeResult(s, result))
        && NoticesSame(s, TakeRefund(s, q))
  {
    OthersCome(s, ChargeTaken(job));
    OthersCome(s, ResultTaken(result));
    OthersCome(s, RefundTaken(q));
  }

  lemma AckNotices(s: State, job: ChargeJob, result: PaymentResult, q: RefundRequested)
    ensures NoticesSame(s, AckCharge(s, job)) && NoticesSame(s, AckResult(s, result)) && NoticesSame(s, AckRefund(s, q))
  {
    OthersCome(s, ChargeAcking(job));
    OthersCome(s, ResultAcking(result));
    OthersCome(s, RefundAcking(q));
  }

  lemma LookupNotices(s: State, job: ChargeJob)
    ensures NoticesSame(s, LookupPayment(s, job))
  {
    var key := job.event.idempotencyKey;
    OthersMove(s, ChargeTaken(job), ChargeClaiming(job));
    OthersMove(s, ChargeTaken(job), ChargeCalling(job));
    if key in s.payments && Presentable(s.payments[key]) {
      OthersMove(s, ChargeTaken(job), ChargePublishing(job, ToResult(job.event, s.payments[key])));
    }
  }

  lemma ClaimNotices(s: State, job: ChargeJob)
    ensures NoticesSame(s, ClaimPayment(s, job))
  {
    OthersMove(s, ChargeClaiming(job), ChargeCalling(job));
  }

  lemma CallNotices(s: State, job: ChargeJob, accept: bool)
    ensures NoticesSame(s, CallProvider(s, job, accept))
  {
    var key := job.event.idempotencyKey;
    var outcome := if key in s.charges then s.charges[key].outcome else if accept then Charged(key) else Declined;
    OthersMove(s, ChargeCalling(job), ChargeRecording(job, outcome));
  }

  lemma RecordNotices(s: State, job: ChargeJob, outcome: ChargeOutcome)
    ensures NoticesSame(s, RecordOutcome(s, job, outcome))
  {
    var key := job.event.idempotencyKey;
    if key in s.payments {
      OthersMove(s, ChargeRecording(job, outcome),
                 ChargePublishing(job, ToResult(job.event, Settle(s.payments[key], outcome))));
    }
  }

  lemma PublishNotices(s: State, job: ChargeJob, result: PaymentResult, dedup: bool)
    ensures NoticesSame(s, PublishResult(s, job, result, dedup))
  {
    OthersMove(s, ChargePublishing(job, result), ChargeAcking(job));
  }

  lemma SettleNotices(s: State, r: PaymentResult)
    ensures NoticesSame(s, UpdateIfHeld(s, r)) && NoticesSame(s, CheckSettled(s, r))
  {
    OthersMove(s, ResultTaken(r), ResultAcking(r));
    OthersMove(s, ResultTaken(r), ResultChecking(r));
    OthersMove(s, ResultChecking(r), ResultRefunding(r));
    OthersMove(s, ResultChecking(r), ResultAcking(r));
  }

  lemma CompensateNotices(s: State, r: PaymentResult, dedup: bool)
    ensures NoticesSame(s, RequestRefund(s, r, dedup))
  {
    OthersMove(s, ResultRefunding(r), ResultAcking(r));
  }

  lemma RefundNotices(s: State, q: RefundRequested)
    ensures NoticesSame(s, LookupRefundable(s, q))
  {
    OthersMove(s, RefundTaken(q), RefundCalling(q));
    OthersMove(s, RefundTaken(q), RefundAcking(q));
  }

  lemma CallRefundNotices(s: State, q: RefundRequested)
    ensures NoticesSame(s, CallRefund(s, q))
  {
    OthersMove(s, RefundCalling(q), RefundRecording(q));
  }

  lemma RecordRefundNotices(s: State, q: RefundRequested)
    ensures NoticesSame(s, RecordRefund(s, q))
  {
    OthersMove(s, RefundRecording(q), RefundAcking(q));
  }

  /** Every step but the three that deal with exhausted jobs. */
  lemma OtherNotices(s: State, step: Step, t: State)
    requires Next(s, step, t) && !step.ChargeThrow? && !step.DeadLetter? && !step.Crash?
    ensures NoticesSame(s, t)
  {
    match step
    case Tick(_) => HoldNotices(s, step, t);
    case HoldBegin(_, _, _, _) => HoldNotices(s, step, t);
    case HoldClaim(_, _) => HoldNotices(s, step, t);
    case CancelBegin(id) => CancelNotices(s, id, false);
    case CancelWrite(id, seen) => WriteNotices(s, id, seen);
    case CancelEnqueue(id, dedup) => CancelNotices(s, id, dedup);
    case SweepExpired(_) => BackgroundNotices(s, step, t);
    case SweepCompleted(_) => BackgroundNotices(s, step, t);
    case RelayEnqueue(_, _) => BackgroundNotices(s, step, t);
    case RelayMark(_) => BackgroundNotices(s, step, t);
    case ChargeTake(job) => TakeNotices(s, job, PaymentFailed(0, 0), RefundRequested(0, 0));
    case ChargeLookup(job) => LookupNotices(s, job);
    case ChargeClaim(job) => ClaimNotices(s, job);
    case ChargeCall(job, accept) => CallNotices(s, job, accept);
    case ChargeRecord(job, outcome) => RecordNotices(s, job, outcome);
    case ChargePublish(job, result, dedup) => PublishNotices(s, job, result, dedup);
    case ChargeAck(job) => AckNotices(s, job, PaymentFailed(0, 0), RefundRequested(0, 0));
    case ResultTake(r) => TakeNotices(s, ChargeJob(HeldEvent(0, 0), 0), r, RefundRequested(0, 0));
    case ResultUpdate(r) => SettleNotices(s, r);
    case ResultCheck(r) => SettleNotices(s, r);
    case ResultRefund(r, dedup) => CompensateNotices(s, r, dedup);
    case ResultAck(r) => AckNotices(s, ChargeJob(HeldEvent(0, 0), 0), r, RefundRequested(0, 0));
    case RefundTake(q) => TakeNotices(s, ChargeJob(HeldEvent(0, 0), 0), PaymentFailed(0, 0), q);
    case RefundLookup(q) => RefundNotices(s, q);
    case RefundCall(q) => CallRefundNotices(s, q);
    case RefundRecord(q) => RecordRefundNotices(s, q);
    case RefundAck(q) => AckNotices(s, ChargeJob(HeldEvent(0, 0), 0), PaymentFailed(0, 0), q);
  }

  // ---------------------------------------------------------------------------------------------
  // The three that do not

  lemma OneMoreNotice(handlers: multiset<Handler>, h: Handler, failed: ChargeJob, job: ChargeJob)
    requires !h.FailureNotice?
    ensures (handlers - multiset{h} + multiset{FailureNotice(failed)})[FailureNotice(job)]
         == handlers[FailureNotice(job)] + (if job == failed then 1 else 0)
  {}

  lemma ThrowBalances(s: State, h: Handler, job: ChargeJob)
    requires BalancedFor(s, job)
    ensures BalancedFor(ThrowCharge(s, h), job) && ThrowCharge(s, h).lostNotices == s.lostNotices
  {
    if h in s.handlers && Throws(h) {
      OthersCome(s, h);
      OneMoreNotice(s.handlers, h, h.job.(attemptsMade := h.job.attemptsMade + 1), job);
    }
  }

  lemma DeadLetterBalances(s: State, dead: ChargeJob, job: ChargeJob)
    requires BalancedFor(s, job)
    ensures BalancedFor(DeadLetterJob(s, dead), job) && DeadLetterJob(s, dead).lostNotices == s.lostNotices
  {}

  lemma CrashBalances(s: State, h: Handler, job: ChargeJob)
    requires BalancedFor(s, job)
    ensures BalancedFor(CrashHandler(s, h), job)
    ensures CrashHandler(s, h).lostNotices
         == if LosesNotice(s, Crash(h)) then s.lostNotices + multiset{h.job} else s.lostNotices
  {}

  lemma NextBalances(s: State, step: Step, t: State, job: ChargeJob)
    requires BalancedFor(s, job) && Next(s, step, t)
    ensures BalancedFor(t, job)
    ensures t.lostNotices == if LosesNotice(s, step) then s.lostNotices + multiset{step.handler.job} else s.lostNotices
  {
    if step.ChargeThrow? {
      ThrowBalances(s, step.handler, job);
    } else if step.DeadLetter? {
      DeadLetterBalances(s, step.job, job);
    } else if step.Crash? {
      CrashBalances(s, step.handler, job);
    } else {
      OtherNotices(s, step, t);
    }
  }

  lemma {:induction false} RunBalances(clock: Instant, holdTtl: nat, steps: seq<Step>, job: ChargeJob)
    ensures BalancedFor(Run(Init(clock, holdTtl), steps), job)
    decreases |steps|
  {
    if steps != [] {
      var s, step := Run(Init(clock, holdTtl), steps[..|steps| - 1]), steps[|steps| - 1];
      RunBalances(clock, holdTtl, steps[..|steps| - 1], job);
      ApplyIsNext(s, step);
      NextBalances(s, step, Apply(s, step), job);
    }
  }

  /** No step of the run is one at which a worker dies before its dead letter. */
  ghost predicate NoNoticeLost(s: State, steps: seq<Step>) {
    forall n :: 0 <= n < |steps| ==> !LosesNotice(Run(s, steps[..n]), steps[n])
  }

  lemma NoNoticeLostSoFar(s: State, steps: seq<Step>)
    requires steps != [] && NoNoticeLost(s, steps)
    ensures var n := |steps| - 1;
      NoNoticeLost(s, steps[..n]) && !LosesNotice(Run(s, steps[..n]), steps[n])
  {
    var n := |steps| - 1;
    forall m | 0 <= m < n ensures !LosesNotice(Run(s, steps[..n][..m]), steps[..n][m]) {
      assert steps[..n][..m] == steps[..m];
    }
  }

  /** Notices are lost at those steps and at no others. */
  lemma {:induction false} NoNoticesLost(clock: Instant, holdTtl: nat, steps: seq<Step>)
    requires NoNoticeLost(Init(clock, holdTtl), steps)
    ensures Run(Init(clock, holdTtl), steps).lostNotices == multiset{}
    decreases |steps|
  {
    if steps != [] {
      var start, n := Init(clock, holdTtl), |steps| - 1;
      NoNoticeLostSoFar(start, steps);
      NoNoticesLost(clock, holdTtl, steps[..n]);
      RunBalances(clock, holdTtl, steps[..n], ChargeJob(HeldEvent(0, 0), 0));
      ApplyIsNext(Run(start, steps[..n]), steps[n]);
      NextBalances(Run(start, steps[..n]), steps[n], Run(start, steps), ChargeJob(HeldEvent(0, 0), 0));
    }
  }
}

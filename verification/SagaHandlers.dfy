/** Which handlers a step can put in flight: its own handler's next stage, and nothing else. */
module SagaHandlers {
  import opened BookingTypes
  import opened Saga
  import opened SagaMoneySteps

  predicate Brings(step: Step, h: Handler) {
    match step
    case Tick(_) => false
    case HoldBegin(_, _, _, _) => h.HoldClaiming?
    case HoldClaim(_, _) => h.HoldClaiming?
    case CancelBegin(id) => h.CancelRead? && h.id == id
    case CancelWrite(id, _) => h == CancelWritten(id)
    case CancelEnqueue(_, _) => false
    case SweepExpired(_) => false
    case SweepCompleted(_) => false
    case RelayEnqueue(_, _) => false
    case RelayMark(_) => false
    case ChargeTake(job) => h == ChargeTaken(job)
    case ChargeLookup(job) => (h.ChargeClaiming? || h.ChargeCalling? || h.ChargePublishing?) && h.job == job
    case ChargeClaim(job) => h == ChargeCalling(job)
    case ChargeCall(job, _) => h.ChargeRecording? && h.job == job
    case ChargeRecord(job, _) => h.ChargePublishing? && h.job == job
    case ChargePublish(job, _, _) => h == ChargeAcking(job)
    case ChargeAck(_) => false
    case ChargeThrow(_) => h.FailureNotice?
    case DeadLetter(_) => false
    case ResultTake(r) => h == ResultTaken(r)
    case ResultUpdate(r) => h == ResultAcking(r) || h == ResultChecking(r)
    case ResultCheck(r) => h == ResultRefunding(r) || h == ResultAcking(r)
    case ResultRefund(r, _) => h == ResultAcking(r)
    case ResultAck(_) => false
    case RefundTake(q) => h == RefundTaken(q)
    case RefundLookup(q) => h == RefundCalling(q) || h == RefundAcking(q)
    case RefundCall(q) => h == RefundRecording(q)
    case RefundRecord(q) => h == RefundAcking(q)
    case RefundAck(_) => false
    case Crash(_) => false
  }

  lemma EnterBrings(s: State, to: Handler, h: Handler)
    ensures h in Enter(s, to).handlers ==> h in s.handlers || h == to
  {}

  lemma LeaveBrings(s: State, from: Handler, h: Handler)
    ensures h in Leave(s, from).handlers ==> h in s.handlers
  {}

  lemma MoveBrings(s: State, from: Handler, to: Handler, h: Handler)
    ensures h in Move(s, from, to).handlers ==> h in s.handlers || h == to
  {}

  lemma ClaimBrings(s: State, hold: Handler, deadlock: bool, h: Handler)
    requires h in ClaimSlot(s, hold, deadlock).handlers
    ensures h in s.handlers || h.HoldClaiming?
  {
    LeaveBrings(s, hold, h);
    if hold.HoldClaiming? {
      MoveBrings(s, hold, hold.(retried := true), h);
    }
  }

  lemma WriteBrings(s: State, id: Id, seen: Status, h: Handler)
    requires h in WriteCancelled(s, id, seen).handlers
    ensures h in s.handlers || h == CancelWritten(id)
  {
    LeaveBrings(s, CancelRead(id, seen), h);
    MoveBrings(s, CancelRead(id, seen), CancelWritten(id), h);
  }

  lemma EnqueueBrings(s: State, id: Id, dedup: bool, h: Handler)
    requires h in EnqueueCancelRefund(s, id, dedup).handlers
    ensures h in s.handlers
  {
    LeaveBrings(s, CancelWritten(id), h);
  }

  lemma LookupBrings(s: State, job: ChargeJob, h: Handler)
    requires h in LookupPayment(s, job).handlers
    ensures h in s.handlers || ((h.ChargeClaiming? || h.ChargeCalling? || h.ChargePublishing?) && h.job == job)
  {
    var key, taken := job.event.idempotencyKey, ChargeTaken(job);
    MoveBrings(s, taken, ChargeClaiming(job), h);
    MoveBrings(s, taken, ChargeCalling(job), h);
    if key in s.payments && Presentable(s.payments[key]) {
      MoveBrings(s, taken, ChargePublishing(job, ToResult(job.event, s.payments[key])), h);
    }
  }

  lemma ClaimPaymentBrings(s: State, job: ChargeJob, h: Handler)
    requires h in ClaimPayment(s, job).handlers
    ensures h in s.handlers || h == ChargeCalling(job)
  {
    MoveBrings(s, ChargeClaiming(job), ChargeCalling(job), h);
  }

  lemma CallBrings(s: State, job: ChargeJob, accept: bool, h: Handler)
    requires h in CallProvider(s, job, accept).handlers
    ensures h in s.handlers || (h.ChargeRecording? && h.job == job)
  {
    var key := job.event.idempotencyKey;
    var outcome := if key in s.charges then s.charges[key].outcome else if accept then Charged(key) else Declined;
    MoveBrings(s, ChargeCalling(job), ChargeRecording(job, outcome), h);
  }

  lemma RecordBrings(s: State, job: ChargeJob, outcome: ChargeOutcome, h: Handler)
    requires h in RecordOutcome(s, job, outcome).handlers
    ensures h in s.handlers || (h.ChargePublishing? && h.job == job)
  {
    var key := job.event.idempotencyKey;
    if key in s.payments {
      var settled := Settle(s.payments[key], outcome);
      MoveBrings(s, ChargeRecording(job, outcome), ChargePublishing(job, ToResult(job.event, settled)), h);
    }
  }

  lemma PublishBrings(s: State, job: ChargeJob, result: PaymentResult, dedup: bool, h: Handler)
    requires h in PublishResult(s, job, result, dedup).handlers
    ensures h in s.handlers || h == ChargeAcking(job)
  {
    MoveBrings(s, ChargePublishing(job, result), ChargeAcking(job), h);
  }

  lemma ThrowBrings(s: State, failing: Handler, h: Handler)
    requires h in ThrowCharge(s, failing).handlers
    ensures h in s.handlers || h.FailureNotice?
  {
    LeaveBrings(s, failing, h);
    if Throws(failing) {
      MoveBrings(s, failing, FailureNotice(failing.job.(attemptsMade := failing.job.attemptsMade + 1)), h);
    }
  }

  lemma AckBrings(s: State, job: ChargeJob, h: Handler)
    requires h in AckCharge(s, job).handlers
    ensures h in s.handlers
  {
    LeaveBrings(s, ChargeAcking(job), h);
  }

  lemma BuryBrings(s: State, job: ChargeJob, h: Handler)
    requires h in DeadLetterJob(s, job).handlers
    ensures h in s.handlers
  {
    LeaveBrings(s, FailureNotice(job), h);
  }

  lemma CrashBrings(s: State, dying: Handler, h: Handler)
    requires h in CrashHandler(s, dying).handlers
    ensures h in s.handlers
  {
    LeaveBrings(s, dying, h);
  }

  lemma UpdateBrings(s: State, r: PaymentResult, h: Handler)
    requires h in UpdateIfHeld(s, r).handlers
    ensures h in s.handlers || h == ResultAcking(r) || h == ResultChecking(r)
  {
    MoveBrings(s, ResultTaken(r), ResultAcking(r), h);
    MoveBrings(s, ResultTaken(r), ResultChecking(r), h);
  }

  lemma CheckBrings(s: State, r: PaymentResult, h: Handler)
    requires h in CheckSettled(s, r).handlers
    ensures h in s.handlers || h == ResultRefunding(r) || h == ResultAcking(r)
  {
    MoveBrings(s, ResultChecking(r), ResultRefunding(r), h);
    MoveBrings(s, ResultChecking(r), ResultAcking(r), h);
  }

  lemma RequestBrings(s: State, r: PaymentResult, dedup: bool, h: Handler)
    requires h in RequestRefund(s, r, dedup).handlers
    ensures h in s.handlers || h == ResultAcking(r)
  {
    MoveBrings(s, ResultRefunding(r), ResultAcking(r), h);
  }

  lemma ResultAckBrings(s: State, r: PaymentResult, h: Handler)
    requires h in AckResult(s, r).handlers
    ensures h in s.handlers
  {
    LeaveBrings(s, ResultAcking(r), h);
  }

  lemma RefundLookupBrings(s: State, q: RefundRequested, h: Handler)
    requires h in LookupRefundable(s, q).handlers
    ensures h in s.handlers || h == RefundCalling(q) || h == RefundAcking(q)
  {
    MoveBrings(s, RefundTaken(q), RefundCalling(q), h);
    MoveBrings(s, RefundTaken(q), RefundAcking(q), h);
  }

  lemma RefundCallBrings(s: State, q: RefundRequested, h: Handler)
    requires h in CallRefund(s, q).handlers
    ensures h in s.handlers || h == RefundRecording(q)
  {
    MoveBrings(s, RefundCalling(q), RefundRecording(q), h);
  }

  lemma RefundRecordBrings(s: State, q: RefundRequested, h: Handler)
    requires h in RecordRefund(s, q).handlers
    ensures h in s.handlers || h == RefundAcking(q)
  {
    MoveBrings(s, RefundRecording(q), RefundAcking(q), h);
  }

  lemma RefundAckBrings(s: State, q: RefundRequested, h: Handler)
    requires h in AckRefund(s, q).handlers
    ensures h in s.handlers
  {
    LeaveBrings(s, RefundAcking(q), h);
  }

  lemma BookingBrings(s: State, step: Step, t: State, h: Handler)
    requires Next(s, step, t) && IsBooking(step) && h in t.handlers
    ensures h in s.handlers || Brings(step, h)
  {
    if step.HoldClaim? {
      ClaimBrings(s, step.hold, step.deadlock, h);
    } else if step.CancelWrite? {
      WriteBrings(s, step.id, step.seen, h);
    } else if step.CancelEnqueue? {
      EnqueueBrings(s, step.id, step.deduplicated, h);
    }
  }

  lemma ChargeBrings(s: State, step: Step, t: State, h: Handler)
    requires Next(s, step, t) && IsCharge(step) && h in t.handlers
    ensures h in s.handlers || Brings(step, h)
  {
    if step.ChargeTake? {
      EnterBrings(s, ChargeTaken(step.job), h);
    } else if step.ChargeLookup? {
      LookupBrings(s, step.job, h);
    } else if step.ChargeClaim? {
      ClaimPaymentBrings(s, step.job, h);
    } else if step.ChargeCall? {
      CallBrings(s, step.job, step.accept, h);
    } else {
      RecordBrings(s, step.job, step.outcome, h);
    }
  }

  lemma EndingBrings(s: State, step: Step, t: State, h: Handler)
    requires Next(s, step, t) && IsEnding(step) && h in t.handlers
    ensures h in s.handlers || Brings(step, h)
  {
    if step.ChargePublish? {
      PublishBrings(s, step.job, step.result, step.deduplicated, h);
    } else if step.ChargeAck? {
      AckBrings(s, step.job, h);
    } else if step.ChargeThrow? {
      ThrowBrings(s, step.handler, h);
    } else if step.DeadLetter? {
      BuryBrings(s, step.job, h);
    } else {
      CrashBrings(s, step.handler, h);
    }
  }

  lemma ResultBrings(s: State, step: Step, t: State, h: Handler)
    requires Next(s, step, t) && IsResult(step) && h in t.handlers
    ensures h in s.handlers || Brings(step, h)
  {
    if step.ResultTake? {
      EnterBrings(s, ResultTaken(step.result), h);
    } else if step.ResultUpdate? {
      UpdateBrings(s, step.result, h);
    } else if step.ResultCheck? {
      CheckBrings(s, step.result, h);
    } else if step.ResultRefund? {
      RequestBrings(s, step.result, step.deduplicated, h);
    } else {
      ResultAckBrings(s, step.result, h);
    }
  }

  lemma RefundBrings(s: State, step: Step, t: State, h: Handler)
    requires Next(s, step, t) && IsRefund(step) && h in t.handlers
    ensures h in s.handlers || Brings(step, h)
  {
    if step.RefundTake? {
      EnterBrings(s, RefundTaken(step.request), h);
    } else if step.RefundLookup? {
      RefundLookupBrings(s, step.request, h);
    } else if step.RefundCall? {
      RefundCallBrings(s, step.request, h);
    } else if step.RefundRecord? {
      RefundRecordBrings(s, step.request, h);
    } else {
      RefundAckBrings(s, step.request, h);
    }
  }

  /** A handler in flight after a step was in flight before it, or the step is the one that brings it. */
  lemma OnlyBrings(s: State, step: Step, t: State, h: Handler)
    requires Next(s, step, t) && h in t.handlers
    ensures h in s.handlers || Brings(step, h)
  {
    if IsBooking(step) {
      BookingBrings(s, step, t, h);
    } else if IsCharge(step) {
      ChargeBrings(s, step, t, h);
    } else if IsEnding(step) {
      EndingBrings(s, step, t, h);
    } else if IsResult(step) {
      ResultBrings(s, step, t, h);
    } else {
      RefundBrings(s, step, t, h);
    }
  }
}

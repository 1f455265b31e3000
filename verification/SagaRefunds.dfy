/** Which bookings have a refund asked for, and when one that stands is refunded all the same. */
module SagaRefunds {
  import opened BookingTypes
  import opened Saga
  import opened SagaInvariant
  import opened SagaSteps
  import opened SagaMoneySteps
  import opened SagaHandlers
  import opened SagaTheorems

  /** The refund request a step puts on its queue: a cancel's, or a late success's. */
  function Asked(s: State, step: Step): set<RefundRequested> {
    if step.CancelEnqueue? && CancelWritten(step.id) in s.handlers then {RefundRequested(step.id, step.id)}
    else if step.ResultRefund? && ResultRefunding(step.result) in s.handlers then
      {RefundRequested(step.result.reservationId, step.result.idempotencyKey)}
    else {}
  }

  lemma GuestAsks(s: State, step: Step, t: State)
    requires Next(s, step, t)
    requires step.Tick? || step.HoldBegin? || step.HoldClaim? || step.CancelBegin? || step.CancelWrite?
    ensures t.refundIds == s.refundIds
  {}

  lemma SweepAsks(s: State, step: Step, t: State)
    requires Next(s, step, t)
    requires step.SweepExpired? || step.SweepCompleted? || step.RelayEnqueue? || step.RelayMark?
    ensures t.refundIds == s.refundIds
  {}

  lemma CancelAsks(s: State, id: Id, dedup: bool)
    ensures EnqueueCancelRefund(s, id, dedup).refundIds == s.refundIds + Asked(s, CancelEnqueue(id, dedup))
  {}

  lemma LateAsks(s: State, r: PaymentResult, dedup: bool)
    ensures RequestRefund(s, r, dedup).refundIds == s.refundIds + Asked(s, ResultRefund(r, dedup))
  {}

  lemma ResultAsks(s: State, step: Step, t: State)
    requires Next(s, step, t) && IsResult(step) && !step.ResultRefund?
    ensures t.refundIds == s.refundIds
  {}

  /** No other step asks for a refund. */
  lemma Askers(s: State, step: Step, t: State)
    requires Next(s, step, t)
    ensures t.refundIds == s.refundIds + Asked(s, step)
  {
    if step.CancelEnqueue? {
      CancelAsks(s, step.id, step.deduplicated);
    } else if step.ResultRefund? {
      LateAsks(s, step.result, step.deduplicated);
    } else if step.SweepExpired? || step.SweepCompleted? || step.RelayEnqueue? || step.RelayMark? {
      SweepAsks(s, step, t);
    } else if IsBooking(step) {
      GuestAsks(s, step, t);
    } else if IsCharge(step) {
      ChargeWrites(s, step, t);
    } else if IsEnding(step) {
      JobWrites(s, step, t);
    } else if IsResult(step) {
      ResultAsks(s, step, t);
    } else {
      RefundWrites(s, step, t);
    }
  }

  /** Some step of the run put a refund request for the booking on its queue. */
  ghost predicate SomeoneAsks(s: State, steps: seq<Step>, k: Id) {
    exists n :: 0 <= n < |steps| && AsksAt(s, steps, k, n)
  }

  ghost predicate AsksAt(s: State, steps: seq<Step>, k: Id, n: nat)
    requires n < |steps|
  {
    RefundRequested(k, k) in Asked(Run(s, steps[..n]), steps[n])
  }

  lemma SomeoneAsksNow(s: State, steps: seq<Step>, k: Id)
    requires steps != []
    ensures var front := steps[..|steps| - 1];
      SomeoneAsks(s, steps, k) <==> SomeoneAsks(s, front, k) || AsksAt(s, steps, k, |steps| - 1)
  {
    var front := steps[..|steps| - 1];
    forall n | 0 <= n < |front| ensures AsksAt(s, front, k, n) == AsksAt(s, steps, k, n) {
      assert front[..n] == steps[..n];
    }
    if SomeoneAsks(s, front, k) {
      var n :| 0 <= n < |front| && AsksAt(s, front, k, n);
      assert AsksAt(s, steps, k, n);
    }
  }

  /** A refund has been asked for exactly when some step of the run asked for it. */
  lemma {:induction false} AskedBySomeone(clock: Instant, holdTtl: nat, steps: seq<Step>, k: Id)
    ensures RefundAsked(Run(Init(clock, holdTtl), steps), k) <==> SomeoneAsks(Init(clock, holdTtl), steps, k)
    decreases |steps|
  {
    if steps != [] {
      var start, front, step := Init(clock, holdTtl), steps[..|steps| - 1], steps[|steps| - 1];
      AskedBySomeone(clock, holdTtl, front, k);
      SomeoneAsksNow(start, steps, k);
      ApplyIsNext(Run(start, front), step);
      Askers(Run(start, front), step, Run(start, steps));
    }
  }

  /** Once everything has drained, a paid booking has its money back if and only if some step asked for it:
      its cancel lived to enqueue the request, another cancel did, or a late success did. */
  lemma RefundedIffAsked(clock: Instant, holdTtl: nat, steps: seq<Step>, k: Id)
    requires var s := Run(Init(clock, holdTtl), steps);
      Drained(s) && k < |s.reservations| && !Exhausted(s, k) && Paid(s, k)
    ensures var s := Run(Init(clock, holdTtl), steps);
      k in s.refunds <==> SomeoneAsks(Init(clock, holdTtl), steps, k)
  {
    AskedBySomeone(clock, holdTtl, steps, k);
    SettlementIsComplete(Run(Init(clock, holdTtl), steps), k);
  }

  // ---------------------------------------------------------------------------------------------
  // Bookings that stand

  /** A success is checked against a stay that has meanwhile been completed. */
  predicate ChecksCompleted(s: State, step: Step, i: Id) {
    && step.ResultCheck? && step.result.PaymentSucceeded? && step.result.reservationId == i
    && ResultChecking(step.result) in s.handlers
    && i < |s.reservations| && s.reservations[i].status == COMPLETED
  }

  /** Nobody has asked for this booking's refund, and no one is about to over a late success. */
  ghost predicate Unasked(s: State, i: Id) {
    && !RefundAsked(s, i)
    && forall h :: h in s.handlers && h.ResultRefunding? ==> h.result.reservationId != i
  }

  lemma ActiveIsUnasked(s: State, i: Id)
    requires Inv(s) && i < |s.reservations| && Active(s.reservations[i].status)
    ensures Unasked(s, i)
  {
    forall h | h in s.handlers && h.ResultRefunding? ensures h.result.reservationId != i {
      HandlerFact(s, h);
    }
    assert RefundAsked(s, i) ==> RefundOk(s, RefundRequested(i, i));
  }

  /** Who asks for the refund of a booking that is not cancelled was about to. */
  lemma AskedForStanding(s: State, step: Step, i: Id)
    requires Inv(s) && RefundRequested(i, i) in Asked(s, step)
    requires i < |s.reservations| && s.reservations[i].status != CANCELLED
    ensures !Unasked(s, i)
  {
    if step.CancelEnqueue? {
      HandlerFact(s, CancelWritten(i));
    } else {
      assert ResultRefunding(step.result) in s.handlers;
    }
  }

  lemma CheckRefunds(s: State, r: PaymentResult)
    requires ResultRefunding(r) in CheckSettled(s, r).handlers && ResultRefunding(r) !in s.handlers
    requires r.reservationId < |s.reservations| && s.reservations[r.reservationId].status == COMPLETED
    ensures ChecksCompleted(s, ResultCheck(r), r.reservationId)
  {
    MoveBrings(s, ResultChecking(r), ResultAcking(r), ResultRefunding(r));
  }

  /** Only such a check makes anyone ask for the refund of a booking that stands. */
  lemma StaysUnasked(s: State, step: Step, t: State, i: Id)
    requires Inv(s) && Next(s, step, t) && Kept(t, i) && i < |s.reservations| && Kept(s, i)
    requires Unasked(s, i) && !ChecksCompleted(s, step, i)
    requires i < |t.reservations| && t.reservations[i].status == COMPLETED
    ensures Unasked(t, i)
  {
    Askers(s, step, t);
    if RefundRequested(i, i) in Asked(s, step) {
      AskedForStanding(s, step, i);
    }
    forall h | h in t.handlers && h.ResultRefunding? ensures h.result.reservationId != i {
      if h !in s.handlers && h.result.reservationId == i {
        NewRefunding(s, step, t, h, i);
      }
    }
  }

  /** A handler newly about to ask for a completed booking's refund has just checked a success against it. */
  lemma NewRefunding(s: State, step: Step, t: State, h: Handler, i: Id)
    requires Next(s, step, t) && h in t.handlers && h !in s.handlers && h.ResultRefunding?
    requires h.result.reservationId == i < |s.reservations| && i < |t.reservations|
        && t.reservations[i].status == COMPLETED
    ensures ChecksCompleted(s, step, i)
  {
    OnlyBrings(s, step, t, h);
    Writers(s, step, t);
    CheckRefunds(s, h.result);
  }

  lemma StepStaysUnasked(s: State, step: Step, i: Id)
    requires Inv(s) && Kept(Apply(s, step), i) && !ChecksCompleted(s, step, i)
    requires Kept(s, i) ==> Unasked(s, i)
    ensures Unasked(Apply(s, step), i)
  {
    var t := Apply(s, step);
    StepKeeps(s, step);
    if Active(t.reservations[i].status) {
      ActiveIsUnasked(t, i);
    } else {
      ApplyIsNext(s, step);
      CompletedWasKept(s, step, t, i);
      StaysUnasked(s, step, t, i);
    }
  }

  lemma OnlyKeptRowsComplete(from: Status)
    requires COMPLETED in AllowedTransitions(from)
    ensures from == CONFIRMED
  {}

  lemma CompletedRowWasKept(s: State, step: Step, t: State, i: Id)
    requires Next(s, step, t) && i < |s.reservations| && i < |t.reservations|
    requires t.reservations[i].status == COMPLETED
    ensures s.reservations[i].status == CONFIRMED || s.reservations[i].status == COMPLETED
  {
    LegalMove(s, step, t, i);
    if s.reservations[i].status != COMPLETED {
      OnlyKeptRowsComplete(s.reservations[i].status);
    }
  }

  lemma CompletedWasKept(s: State, step: Step, t: State, i: Id)
    requires Next(s, step, t) && i < |t.reservations| && t.reservations[i].status == COMPLETED
    ensures Kept(s, i)
  {
    if i < |s.reservations| {
      CompletedRowWasKept(s, step, t, i);
    } else {
      NewRowsAreHeld(s, step, t, i);
    }
  }

  lemma ClaimsAreHeld(s: State, h: Handler, deadlock: bool, i: Id)
    requires |s.reservations| <= i < |ClaimSlot(s, h, deadlock).reservations|
    ensures ClaimSlot(s, h, deadlock).reservations[i].status == HELD
  {}

  lemma CancelsAddNoRow(s: State, id: Id, seen: Status)
    ensures |WriteCancelled(s, id, seen).reservations| == |s.reservations|
  {}

  lemma SettlementsAddNoRow(s: State, r: PaymentResult)
    ensures |UpdateIfHeld(s, r).reservations| == |s.reservations|
  {}

  lemma SweepsAddNoRow(s: State, now: Instant)
    ensures |ExpireHolds(s, now).reservations| == |CompleteStays(s, now).reservations| == |s.reservations|
  {}

  lemma UpdatesAddNoRow(s: State, step: Step, t: State)
    requires Next(s, step, t)
    requires step.CancelWrite? || step.ResultUpdate? || step.SweepExpired? || step.SweepCompleted?
    ensures |t.reservations| == |s.reservations|
  {
    if step.CancelWrite? {
      CancelsAddNoRow(s, step.id, step.seen);
    } else if step.ResultUpdate? {
      SettlementsAddNoRow(s, step.result);
    } else {
      SweepsAddNoRow(s, step.now);
    }
  }

  lemma NewRowsAreHeld(s: State, step: Step, t: State, i: Id)
    requires Next(s, step, t) && |s.reservations| <= i < |t.reservations|
    ensures t.reservations[i].status == HELD
  {
    Writers(s, step, t);
    if step.HoldClaim? {
      ClaimsAreHeld(s, step.hold, step.deadlock, i);
    } else {
      UpdatesAddNoRow(s, step, t);
      assert false;
    }
  }

  ghost predicate NeverChecked(s: State, steps: seq<Step>, i: Id) {
    forall n :: 0 <= n < |steps| ==> !ChecksCompleted(Run(s, steps[..n]), steps[n], i)
  }

  lemma NeverCheckedSoFar(s: State, steps: seq<Step>, i: Id)
    requires steps != [] && NeverChecked(s, steps, i)
    ensures var n := |steps| - 1;
      NeverChecked(s, steps[..n], i) && !ChecksCompleted(Run(s, steps[..n]), steps[n], i)
  {
    var n := |steps| - 1;
    forall m | 0 <= m < n ensures !ChecksCompleted(Run(s, steps[..n][..m]), steps[..n][m], i) {
      assert steps[..n][..m] == steps[..m];
    }
  }

  lemma {:induction false} StandingIsUnasked(clock: Instant, holdTtl: nat, steps: seq<Step>, i: Id)
    requires NeverChecked(Init(clock, holdTtl), steps, i) && Kept(Run(Init(clock, holdTtl), steps), i)
    ensures Unasked(Run(Init(clock, holdTtl), steps), i)
    decreases |steps|
  {
    if steps != [] {
      var n := |steps| - 1;
      NeverCheckedSoFar(Init(clock, holdTtl), steps, i);
      RunKeeps(clock, holdTtl, steps[..n]);
      if Kept(Run(Init(clock, holdTtl), steps[..n]), i) {
        StandingIsUnasked(clock, holdTtl, steps[..n], i);
      }
      StepStaysUnasked(Run(Init(clock, holdTtl), steps[..n]), steps[n], i);
    }
  }

  /** A booking that stands is refunded only if a success was checked against it after its completion;
      otherwise the whole price is still held. */
  lemma StandingKeepsTheMoney(clock: Instant, holdTtl: nat, steps: seq<Step>, i: Id)
    requires NeverChecked(Init(clock, holdTtl), steps, i) && Kept(Run(Init(clock, holdTtl), steps), i)
    ensures var s := Run(Init(clock, holdTtl), steps);
      && !RefundAsked(s, i) && i !in s.refunds
      && TallyOf(s.moves, i).net == s.reservations[i].priceTotalCents > 0
  {
    StandingIsUnasked(clock, holdTtl, steps, i);
    PaidMeansPaid(Run(Init(clock, holdTtl), steps), i);
  }
}

/** What the booking saga guarantees in every state of every run: any number of guests, relays, sweeps
    and workers, interleaved at every await, crashing anywhere, with every message delivered at least once. */
module SagaTheorems {
  import opened BookingTypes
  import opened Intervals
  import opened Saga
  import opened SagaInvariant
  import opened SagaSteps
  import opened SagaMoneySteps
  import opened SagaHandlers
  import opened SagaNotices

  ghost predicate Reachable(s: State) {
    exists clock, holdTtl, steps :: s == Run(Init(clock, holdTtl), steps)
  }

  lemma ReachableInv(s: State)
    requires Reachable(s)
    ensures Inv(s)
  {
    var clock, holdTtl, steps :| s == Run(Init(clock, holdTtl), steps);
    RunKeeps(clock, holdTtl, steps);
  }

  lemma ReachableNext(s: State, step: Step)
    requires Reachable(s)
    ensures Reachable(Apply(s, step))
  {
    var clock, holdTtl, steps :| s == Run(Init(clock, holdTtl), steps);
    assert (steps + [step])[..|steps|] == steps;
    assert Apply(s, step) == Run(Init(clock, holdTtl), steps + [step]);
  }

  /** Facts stay facts along the rest of any run. */
  lemma {:induction false} RunEvolves(s: State, steps: seq<Step>)
    requires Inv(s)
    ensures Keeps(s, Run(s, steps))
    decreases |steps|
  {
    if steps != [] {
      var before := steps[..|steps| - 1];
      RunEvolves(s, before);
      StepKeeps(Run(s, before), steps[|steps| - 1]);
      EvolvesTransitively(s, Run(s, before), Run(s, steps));
    }
  }

  lemma EvolvesTransitively(s: State, t: State, u: State)
    requires Evolves(s, t) && Evolves(t, u)
    ensures Evolves(s, u)
  {}

  // ---------------------------------------------------------------------------------------------
  // The calendar

  /** No two active reservations of a listing ever overlap, stale cancels and crashes included. */
  lemma NeverDoubleBooked(s: State, i: Id, j: Id)
    requires Reachable(s) && i < |s.reservations| && j < |s.reservations| && i != j
    requires s.reservations[i].listing == s.reservations[j].listing
    requires Active(s.reservations[i].status) && Active(s.reservations[j].status)
    ensures !Overlaps(s.reservations[i], s.reservations[j])
    ensures !exists t: Instant :: Occupies(s.reservations[i], t) && Occupies(s.reservations[j], t)
  {
    ReachableInv(s);
    OverlapIsSharedInstant(s.reservations[i], s.reservations[j]);
    if i < j {
      assert !Conflict(s.reservations[i], s.reservations[j]);
    } else {
      assert !Conflict(s.reservations[j], s.reservations[i]);
    }
  }

  /** Whatever window is looked at, a listing never has more booked time in it than the window holds. */
  lemma NeverOversold(s: State, listing: Id, lo: Instant, hi: Instant)
    requires Reachable(s) && lo <= hi
    ensures TimeCovered(s.reservations, listing, lo, hi) <= hi - lo
  {
    ReachableInv(s);
    Capacity(s.reservations, listing, lo, hi);
  }

  /** Once a reservation has left HELD and CONFIRMED nothing that happens later brings it back. */
  lemma NeverRevived(s: State, steps: seq<Step>, i: Id)
    requires Reachable(s) && i < |s.reservations| && !Active(s.reservations[i].status)
    ensures i < |Run(s, steps).reservations| && !Active(Run(s, steps).reservations[i].status)
  {
    ReachableInv(s);
    RunEvolves(s, steps);
    assert RowEvolves(s.reservations[i], Run(s, steps).reservations[i]);
  }

  /** An honoured stay and any other booked one never run together for as long as the later hold took
      from reading its clock to its insert; not at all when that was one instant. The constraint alone
      does not give this, because it ignores COMPLETED rows. */
  lemma HonouredHistoryDoesNotOverlap(s: State, i: Id, j: Id)
    requires Reachable(s) && i < j < |s.reservations|
    requires s.reservations[i].listing == s.reservations[j].listing
    requires Booked(s.reservations[i].status) && Booked(s.reservations[j].status)
    ensures var a, b := s.reservations[i], s.reservations[j];
      && (OverlapLength(a, b) == 0 || OverlapLength(a, b) < b.insertedAt - b.readAt)
      && (b.insertedAt == b.readAt ==> !Overlaps(a, b))
  {
    ReachableInv(s);
    assert Apart(s.reservations[i], s.reservations[j]) && RowOk(s, j);
  }

  /** The lifecycle map is the authority over every status change but one: a cancel that read an active
      row writes CANCELLED even if the row has meanwhile expired or completed. */
  lemma StatusMovesAreLegal(s: State, step: Step, i: Id)
    requires Reachable(s) && i < |s.reservations|
    requires i < |Apply(s, step).reservations|
    ensures var a, b := s.reservations[i].status, Apply(s, step).reservations[i].status;
      a == b || b in AllowedTransitions(a) || CancelsClosedRow(s, step, i)
    ensures CancelsClosedRow(s, step, i) ==>
      Apply(s, step).reservations[i].status == CANCELLED && CANCELLED !in AllowedTransitions(s.reservations[i].status)
  {
    ReachableInv(s);
    ApplyIsNext(s, step);
    LegalMove(s, step, Apply(s, step), i);
  }

  predicate CancelsClosedRow(s: State, step: Step, i: Id) {
    && step.CancelWrite? && step.id == i < |s.reservations|
    && CancelRead(i, step.seen) in s.handlers
    && s.reservations[i].status in {EXPIRED, COMPLETED}
  }

  lemma BookingWrites(s: State, step: Step, t: State)
    requires Next(s, step, t) && IsBooking(step)
    ensures t.payments == s.payments
    ensures || t.reservations == s.reservations || step.HoldClaim? || step.CancelWrite?
            || step.SweepExpired? || step.SweepCompleted?
    ensures t.lostRefunds != s.lostRefunds ==> LosesRefund(s, step)
  {}

  lemma ChargeWrites(s: State, step: Step, t: State)
    requires Next(s, step, t) && IsCharge(step)
    ensures t.reservations == s.reservations && t.lostRefunds == s.lostRefunds && t.refundIds == s.refundIds
    ensures t.payments == s.payments || step.ChargeClaim? || step.ChargeRecord?
  {}

  lemma JobWrites(s: State, step: Step, t: State)
    requires Next(s, step, t) && IsEnding(step)
    ensures t.reservations == s.reservations && t.payments == s.payments && t.refundIds == s.refundIds
    ensures t.lostRefunds != s.lostRefunds ==> LosesRefund(s, step)
  {}

  lemma ResultWrites(s: State, step: Step, t: State)
    requires Next(s, step, t) && IsResult(step)
    ensures t.reservations == s.reservations || step.ResultUpdate?
    ensures t.payments == s.payments && t.lostRefunds == s.lostRefunds
  {}

  lemma RefundWrites(s: State, step: Step, t: State)
    requires Next(s, step, t) && IsRefund(step)
    ensures t.reservations == s.reservations && t.lostRefunds == s.lostRefunds && t.refundIds == s.refundIds
    ensures t.payments == s.payments || step.RefundRecord?
  {}

  /** Who writes reservations, who writes payment rows, and who loses refunds. */
  lemma Writers(s: State, step: Step, t: State)
    requires Next(s, step, t)
    ensures || t.reservations == s.reservations || step.HoldClaim? || step.CancelWrite? || step.ResultUpdate?
            || step.SweepExpired? || step.SweepCompleted?
    ensures t.payments == s.payments || step.ChargeClaim? || step.ChargeRecord? || step.RefundRecord?
    ensures t.lostRefunds != s.lostRefunds ==> LosesRefund(s, step)
  {
    if IsBooking(step) {
      BookingWrites(s, step, t);
    } else if IsCharge(step) {
      ChargeWrites(s, step, t);
    } else if IsEnding(step) {
      JobWrites(s, step, t);
    } else if IsResult(step) {
      ResultWrites(s, step, t);
    } else {
      RefundWrites(s, step, t);
    }
  }

  lemma ClaimLeavesRows(s: State, h: Handler, deadlock: bool, i: Id)
    requires i < |s.reservations|
    ensures var t := ClaimSlot(s, h, deadlock); i < |t.reservations| && t.reservations[i] == s.reservations[i]
  {}

  lemma CancelMove(s: State, id: Id, seen: Status, i: Id)
    requires i < |s.reservations|
    ensures var t := WriteCancelled(s, id, seen);
      && i < |t.reservations|
      && (|| t.reservations[i] == s.reservations[i]
          || (t.reservations[i].status == CANCELLED && i == id && CancelRead(id, seen) in s.handlers))
      && (i == id && CancelRead(id, seen) in s.handlers ==> t.reservations[i].status == CANCELLED)
  {}

  lemma SettlementMove(s: State, r: PaymentResult, i: Id)
    requires i < |s.reservations|
    ensures var t := UpdateIfHeld(s, r);
      && i < |t.reservations|
      && (t.reservations[i] == s.reservations[i]
          || t.reservations[i].status in AllowedTransitions(s.reservations[i].status))
  {}

  lemma SweepMoves(s: State, now: Instant, i: Id)
    requires i < |s.reservations|
    ensures var t, u := ExpireHolds(s, now), CompleteStays(s, now);
      && i < |t.reservations| && i < |u.reservations|
      && (t.reservations[i] == s.reservations[i]
          || t.reservations[i].status in AllowedTransitions(s.reservations[i].status))
      && (u.reservations[i] == s.reservations[i]
          || u.reservations[i].status in AllowedTransitions(s.reservations[i].status))
  {}

  lemma LegalMove(s: State, step: Step, t: State, i: Id)
    requires i < |s.reservations| && i < |t.reservations| && Next(s, step, t)
    ensures var a, b := s.reservations[i].status, t.reservations[i].status;
      a == b || b in AllowedTransitions(a) || CancelsClosedRow(s, step, i)
    ensures CancelsClosedRow(s, step, i) ==>
      t.reservations[i].status == CANCELLED && CANCELLED !in AllowedTransitions(s.reservations[i].status)
  {
    Writers(s, step, t);
    if step.HoldClaim? {
      ClaimLeavesRows(s, step.hold, step.deadlock, i);
    } else if step.CancelWrite? {
      CancelMove(s, step.id, step.seen, i);
    } else if step.ResultUpdate? {
      SettlementMove(s, step.result, i);
    } else if step.SweepExpired? {
      SweepMoves(s, step.now, i);
    } else if step.SweepCompleted? {
      SweepMoves(s, step.now, i);
    }
  }

  // ---------------------------------------------------------------------------------------------
  // Money

  /** The price a key stands for; a key nobody holds stands for nothing. */
  function Price(s: State, k: Id): nat {
    if k < |s.reservations| then s.reservations[k].priceTotalCents else 0
  }

  /** Charged at most once, refunded at most once and only after a charge, and out of pocket by nothing
      or by exactly the price. */
  lemma MoneySafety(s: State, k: Id)
    requires Reachable(s)
    ensures var tally := TallyOf(s.moves, k);
      && tally.returned <= tally.taken <= 1
      && tally.net == (if tally.taken > tally.returned then Price(s, k) else 0)
      && (tally.taken == 1 <==> Paid(s, k))
      && (tally.returned == 1 <==> k in s.refunds)
      && (tally.taken == 1 ==> Price(s, k) > 0)
  {
    ReachableInv(s);
    assert TallyOf(s.moves, k) == LedgerTally(s.charges, s.refunds, k);
    assert LedgerOk(s, k);
    if k in s.payments {
      assert PaymentOk(s, k);
    }
  }

  /** A booking that stands was paid for: one charge, under its own id, of its whole positive price,
      whose money is still held unless the stay is over and a refund was asked for. */
  lemma PaidMeansPaid(s: State, i: Id)
    requires Reachable(s) && Kept(s, i)
    ensures TallyOf(s.moves, i).taken == 1
    ensures i in s.charges && s.charges[i] == LedgerEntry(Charged(i), s.reservations[i].priceTotalCents)
    ensures s.reservations[i].priceTotalCents > 0
    ensures s.reservations[i].status == CONFIRMED ==> TallyOf(s.moves, i).net == s.reservations[i].priceTotalCents
    ensures TallyOf(s.moves, i).net == (if i in s.refunds then 0 else s.reservations[i].priceTotalCents)
    ensures i in s.refunds ==> s.reservations[i].status == COMPLETED && RefundAsked(s, i)
  {
    ReachableInv(s);
    assert RowOk(s, i) && LedgerOk(s, i) && PaymentOk(s, i);
    MoneySafety(s, i);
  }

  /** A declined key never carries a standing booking, now or later. */
  lemma DeclinedNeverConfirmed(s: State, steps: seq<Step>, k: Id)
    requires Reachable(s) && k in s.charges && s.charges[k].outcome.Declined?
    ensures !Kept(Run(s, steps), k)
  {
    ReachableInv(s);
    RunEvolves(s, steps);
    var t := Run(s, steps);
    assert t.charges[k] == s.charges[k];
    assert k < |t.reservations| ==> RowOk(t, k);
  }

  /** Nothing is ever charged for a stay without a price, so it can only expire or be cancelled. */
  lemma FreeStaysNeverConfirmed(s: State, i: Id)
    requires Reachable(s) && i < |s.reservations| && s.reservations[i].priceTotalCents == 0
    ensures i !in s.charges && i !in s.payments && !Kept(s, i)
  {
    ReachableInv(s);
    assert RowOk(s, i) && LedgerOk(s, i);
    assert i in s.payments ==> PaymentOk(s, i);
  }

  // ---------------------------------------------------------------------------------------------
  // Intents

  /** Each committed reservation has exactly one outbox row, announcing exactly its charge. */
  lemma OneOutboxRowEach(s: State, i: Id)
    requires Reachable(s)
    ensures |s.outbox| == |s.reservations|
    ensures i < |s.reservations| ==> s.outbox[i].event == BookingHeld(i, i, s.reservations[i].priceTotalCents)
    ensures forall j :: 0 <= j < |s.outbox| ==> (s.outbox[j].event.reservationId == i <==> j == i)
  {
    ReachableInv(s);
    EventIds(s);
    assert i < |s.reservations| ==> RowOk(s, i);
  }

  /** The intent to charge is never lost: it waits in the outbox, on the queue, has used up its attempts,
      or its outcome is on record with the result published. */
  lemma NoIntentLost(s: State, i: Id)
    requires Reachable(s) && i < |s.reservations|
    ensures i < |s.outbox|
    ensures !s.outbox[i].published || HasJob(s, i) || Exhausted(s, i) || Reported(s, i)
  {
    ReachableInv(s);
    assert RowOk(s, i) && IntentToken(s, i);
  }

  /** The handlers that carry a charge job: delivered, at any of its awaits, or out of attempts. */
  predicate WorksOn(h: Handler, job: ChargeJob) {
    (Throws(h) || h.ChargeAcking? || h.FailureNotice?) && h.job == job
  }

  lemma CarriesItsEvent(s: State, h: Handler, job: ChargeJob)
    requires HandlerOk(s, h) && WorksOn(h, job)
    ensures EventOk(s, job.event) && job.attemptsMade <= CHARGE_ATTEMPTS
  {}

  /** Nor is one invented: every charge job, wherever it is, is a committed reservation's own. */
  lemma NoJobInvented(s: State, job: ChargeJob)
    requires Reachable(s)
    requires job in s.chargeJobs || job in s.deadLetters || exists h :: h in s.handlers && WorksOn(h, job)
    ensures job.event.reservationId < |s.reservations| == |s.outbox|
    ensures job.event == s.outbox[job.event.reservationId].event
    ensures s.outbox[job.event.reservationId].enqueues > 0
    ensures job.attemptsMade <= CHARGE_ATTEMPTS
  {
    ReachableInv(s);
    if h :| h in s.handlers && WorksOn(h, job) {
      HandlerFact(s, h);
      CarriesItsEvent(s, h, job);
    }
    assert EventOk(s, job.event);
    assert RowOk(s, job.event.reservationId);
  }

  lemma ReachableBalances(s: State, job: ChargeJob)
    requires Reachable(s)
    ensures BalancedFor(s, job)
  {
    var clock, holdTtl, steps :| s == Run(Init(clock, holdTtl), steps);
    RunBalances(clock, holdTtl, steps, job);
  }

  /** Delivery by delivery, a job that used its last attempt is dead-lettered, about to be, or was lost by a
      worker that died before the note; and a job is dead-lettered only for having used its last attempt. */
  lemma ExhaustedIsDeadLettered(s: State, i: Id)
    requires Reachable(s)
    ensures Balanced(s)
    ensures Exhausted(s, i) && LastAttempt(s, i) !in s.lostNotices ==>
              DeadLettered(s, i) || FailureNotice(LastAttempt(s, i)) in s.handlers
    ensures DeadLettered(s, i) ==> Exhausted(s, i)
  {
    forall job: ChargeJob ensures BalancedFor(s, job) {
      ReachableBalances(s, job);
    }
    assert i < |s.outbox| ==> BalancedFor(s, LastAttempt(s, i));
  }

  // ---------------------------------------------------------------------------------------------
  // Payment rows

  /** The payment row never claims what the provider's ledger does not back. */
  lemma PaymentRowsAgreeWithLedger(s: State, k: Id)
    requires Reachable(s) && k in s.payments
    ensures s.payments[k].reservationId == k < |s.reservations|
    ensures s.payments[k].amountCents == s.reservations[k].priceTotalCents > 0
    ensures s.payments[k].status in {SUCCEEDED, REFUNDED} ==> Paid(s, k)
    ensures s.payments[k].status == FAILED ==> k in s.charges && s.charges[k].outcome.Declined?
    ensures s.payments[k].status == REFUNDED ==> k in s.refunds
    ensures Presentable(s.payments[k])
  {
    ReachableInv(s);
    assert PaymentOk(s, k);
  }

  /** The row's lifecycle, as its status names suggest it. */
  predicate LegalPaymentMove(a: PaymentStatus, b: PaymentStatus) {
    || a == b
    || (a == PENDING && b in {SUCCEEDED, FAILED})
    || (a == SUCCEEDED && b == REFUNDED)
  }

  /** The outcome of a charge being recorded over a refund, by a handler that was overtaken. */
  predicate RecordsOverRefund(s: State, step: Step, k: Id) {
    && step.ChargeRecord? && step.job.event.idempotencyKey == k
    && ChargeRecording(step.job, step.outcome) in s.handlers
    && k in s.payments && s.payments[k].status == REFUNDED
  }

  lemma ClaimMove(s: State, job: ChargeJob, k: Id)
    requires k in s.payments
    ensures var t := ClaimPayment(s, job); k in t.payments && t.payments[k] == s.payments[k]
  {}

  lemma RecordMove(s: State, job: ChargeJob, outcome: ChargeOutcome, k: Id)
    requires Inv(s) && k in s.payments
    ensures var t := RecordOutcome(s, job, outcome);
      && k in t.payments
      && (LegalPaymentMove(s.payments[k].status, t.payments[k].status)
          <==> !RecordsOverRefund(s, ChargeRecord(job, outcome), k))
  {
    if ChargeRecording(job, outcome) in s.handlers {
      HandlerFact(s, ChargeRecording(job, outcome));
      assert PaymentOk(s, k) && LedgerOk(s, k);
    }
  }

  lemma RefundMove(s: State, q: RefundRequested, k: Id)
    requires Inv(s) && k in s.payments
    ensures var t := RecordRefund(s, q); k in t.payments && LegalPaymentMove(s.payments[k].status, t.payments[k].status)
  {
    if RefundRecording(q) in s.handlers {
      HandlerFact(s, RefundRecording(q));
    }
  }

  lemma PaymentMove(s: State, step: Step, t: State, k: Id)
    requires Inv(s) && k in s.payments && Next(s, step, t)
    ensures k in t.payments
    ensures LegalPaymentMove(s.payments[k].status, t.payments[k].status) <==> !RecordsOverRefund(s, step, k)
  {
    Writers(s, step, t);
    if step.ChargeClaim? {
      ClaimMove(s, step.job, k);
    } else if step.ChargeRecord? {
      RecordMove(s, step.job, step.outcome, k);
    } else if step.RefundRecord? {
      RefundMove(s, step.request, k);
    }
  }

  /** A payment row leaves its lifecycle exactly when an overtaken charge is recorded over a refund. */
  lemma PaymentRowMovesForward(s: State, step: Step, k: Id)
    requires Reachable(s) && k in s.payments
    ensures k in Apply(s, step).payments
    ensures LegalPaymentMove(s.payments[k].status, Apply(s, step).payments[k].status)
        <==> !RecordsOverRefund(s, step, k)
  {
    ReachableInv(s);
    ApplyIsNext(s, step);
    PaymentMove(s, step, Apply(s, step), k);
  }

  /** A charge of this key is between its lookup and its recording. */
  predicate Charging(h: Handler, k: Id) {
    IsCharging(h) && h.job.event.idempotencyKey == k
  }

  /** No two handlers are charging the same key. */
  ghost predicate Solo(s: State, k: Id) {
    forall g, h :: g in s.handlers && h in s.handlers && Charging(g, k) && Charging(h, k) ==>
      g == h && s.handlers[g] == 1
  }

  /** What a charge that runs alone still finds true of its row. */
  ghost predicate Undisturbed(s: State, k: Id) {
    forall h :: h in s.handlers && Charging(h, k) ==>
      if h.ChargeClaiming? then k !in s.payments else k in s.payments && s.payments[k].status == PENDING
  }

  predicate IsCharging(h: Handler) {
    h.ChargeClaiming? || h.ChargeCalling? || h.ChargeRecording?
  }

  /** Only the three charging steps bring a charging handler in. */
  lemma NewCharging(s: State, step: Step, t: State, h: Handler)
    requires Next(s, step, t) && h in t.handlers && h !in s.handlers && IsCharging(h)
    ensures step.ChargeLookup? || step.ChargeClaim? || step.ChargeCall?
  {
    OnlyBrings(s, step, t, h);
  }

  lemma SoloLookup(s: State, job: ChargeJob, k: Id)
    requires Undisturbed(s, k)
    ensures Undisturbed(LookupPayment(s, job), k)
  {}

  lemma SoloClaim(s: State, job: ChargeJob, k: Id)
    requires Inv(s) && Undisturbed(s, k) && Solo(s, k)
    ensures Undisturbed(ClaimPayment(s, job), k)
  {
    if ChargeClaiming(job) in s.handlers {
      HandlerFact(s, ChargeClaiming(job));
      SoloInsert(s, job, k);
    }
  }

  lemma SoloInsert(s: State, job: ChargeJob, k: Id)
    requires ChargeClaiming(job) in s.handlers && Undisturbed(s, k) && Solo(s, k)
    ensures Undisturbed(ClaimPayment(s, job), k)
  {}

  lemma SoloCall(s: State, job: ChargeJob, accept: bool, k: Id)
    requires Undisturbed(s, k)
    ensures Undisturbed(CallProvider(s, job, accept), k)
  {}

  lemma SoloRecord(s: State, job: ChargeJob, outcome: ChargeOutcome, k: Id)
    requires Undisturbed(s, k) && Solo(s, k)
    ensures Undisturbed(RecordOutcome(s, job, outcome), k)
  {}

  lemma SoloRefund(s: State, q: RefundRequested, k: Id)
    requires Inv(s) && Undisturbed(s, k)
    ensures Undisturbed(RecordRefund(s, q), k)
  {
    if RefundRecording(q) in s.handlers {
      HandlerFact(s, RefundRecording(q));
    }
  }

  lemma StaysUndisturbed(s: State, step: Step, t: State, k: Id)
    requires Inv(s) && Undisturbed(s, k) && Solo(s, k) && Next(s, step, t)
    ensures Undisturbed(t, k)
  {
    if step.ChargeLookup? {
      SoloLookup(s, step.job, k);
    } else if step.ChargeClaim? {
      SoloClaim(s, step.job, k);
    } else if step.ChargeCall? {
      SoloCall(s, step.job, step.accept, k);
    } else if step.ChargeRecord? {
      SoloRecord(s, step.job, step.outcome, k);
    } else if step.RefundRecord? {
      SoloRefund(s, step.request, k);
    } else {
      Writers(s, step, t);
      forall h | h in t.handlers && h !in s.handlers ensures !Charging(h, k) {
        if Charging(h, k) {
          NewCharging(s, step, t, h);
        }
      }
    }
  }

  /** Charges of the key never overlapped on the way here. */
  ghost predicate SoloUntil(start: State, steps: seq<Step>, k: Id) {
    forall n :: 0 <= n < |steps| ==> Solo(Run(start, steps[..n]), k)
  }

  lemma SoloPrefix(start: State, steps: seq<Step>, k: Id)
    requires steps != [] && SoloUntil(start, steps, k)
    ensures SoloUntil(start, steps[..|steps| - 1], k) && Solo(Run(start, steps[..|steps| - 1]), k)
  {
    var before := steps[..|steps| - 1];
    forall n | 0 <= n < |before| ensures Solo(Run(start, before[..n]), k) {
      assert before[..n] == steps[..n];
    }
  }

  lemma {:induction false} SoloRunUndisturbed(clock: Instant, holdTtl: nat, steps: seq<Step>, k: Id)
    requires SoloUntil(Init(clock, holdTtl), steps, k)
    ensures Undisturbed(Run(Init(clock, holdTtl), steps), k)
    decreases |steps|
  {
    if steps != [] {
      var last := |steps| - 1;
      var before, s := steps[..last], Run(Init(clock, holdTtl), steps[..last]);
      SoloPrefix(Init(clock, holdTtl), steps, k);
      SoloRunUndisturbed(clock, holdTtl, before, k);
      RunKeeps(clock, holdTtl, before);
      ApplyIsNext(s, steps[last]);
      StaysUndisturbed(s, steps[last], Run(Init(clock, holdTtl), steps), k);
    }
  }

  /** On runs whose charges of a key never overlap, its payment row only ever moves forward. */
  lemma SoloChargesMoveForward(clock: Instant, holdTtl: nat, steps: seq<Step>, step: Step, k: Id)
    requires SoloUntil(Init(clock, holdTtl), steps, k)
    requires k in Run(Init(clock, holdTtl), steps).payments
    ensures var s := Run(Init(clock, holdTtl), steps);
      && k in Apply(s, step).payments
      && LegalPaymentMove(s.payments[k].status, Apply(s, step).payments[k].status)
  {
    SoloRunUndisturbed(clock, holdTtl, steps, k);
    PaymentRowMovesForward(Run(Init(clock, holdTtl), steps), step, k);
  }

  // ---------------------------------------------------------------------------------------------
  // Settlement

  /** A queued refund means the booking is over for good, and it was really paid for. */
  lemma RefundsAreForDeadBookings(s: State, steps: seq<Step>, q: RefundRequested)
    requires Reachable(s) && q in s.refundJobs
    ensures q.idempotencyKey == q.reservationId && Paid(s, q.reservationId)
    ensures Inactive(Run(s, steps), q.reservationId)
  {
    ReachableInv(s);
    assert RefundOk(s, q);
    NeverRevived(s, steps, q.reservationId);
  }

  /** The failure that a redelivered charge reports for a refunded payment cancels nothing. */
  lemma LateFailureIsHarmless(s: State, k: Id)
    requires Reachable(s) && PaymentFailed(k, k) in s.results && Paid(s, k)
    ensures k in s.refunds && Inactive(s, k)
    ensures UpdateIfHeld(s, PaymentFailed(k, k)).reservations == s.reservations
  {
    ReachableInv(s);
    assert ResultOk(s, PaymentFailed(k, k)) && LedgerOk(s, k);
  }

  /** A result that has been processed changes no reservation when it is processed again, ever. */
  lemma SettlementIsIdempotent(s: State, steps: seq<Step>, r: PaymentResult)
    requires Reachable(s)
    requires ResultAcking(r) in s.handlers || (r in s.resultIds && r !in s.results)
    ensures UpdateIfHeld(Run(s, steps), r).reservations == Run(s, steps).reservations
  {
    ReachableInv(s);
    if ResultAcking(r) in s.handlers {
      HandlerFact(s, ResultAcking(r));
    }
    assert Settled(s, r);
    RunEvolves(s, steps);
    DecidedStaysDecided(s, Run(s, steps), r.reservationId);
    OnlyHeldRowsSettle(Run(s, steps), r);
  }

  lemma DecidedStaysDecided(s: State, t: State, i: Id)
    requires Evolves(s, t) && i < |s.reservations| && s.reservations[i].status != HELD
    ensures i < |t.reservations| && t.reservations[i].status != HELD
  {
    assert RowEvolves(s.reservations[i], t.reservations[i]);
  }

  lemma OnlyHeldRowsSettle(s: State, r: PaymentResult)
    requires r.reservationId < |s.reservations| ==> s.reservations[r.reservationId].status != HELD
    ensures UpdateIfHeld(s, r).reservations == s.reservations
  {}

  /** Nothing is waiting anywhere: outbox published, queues empty, no handler in flight. */
  predicate Drained(s: State) {
    && (forall i :: 0 <= i < |s.outbox| ==> s.outbox[i].published)
    && s.chargeJobs == multiset{} && s.results == multiset{} && s.refundJobs == multiset{}
    && s.handlers == multiset{}
  }

  /** When everything has drained, every booking whose job did not run out of attempts has its answer.
      A decline released the slot. A charge was given back if and only if a refund was ever asked for, and
      the guest is left with the stay or the money if and only if no cancel lost the refund it owed, or
      someone else asked for it. */
  lemma SettlementIsComplete(s: State, k: Id)
    requires Reachable(s) && Drained(s) && k < |s.reservations| && !Exhausted(s, k)
    ensures k in s.charges && s.reservations[k].status != HELD
    ensures !Paid(s, k) ==> Inactive(s, k)
    ensures Paid(s, k) ==> (k in s.refunds <==> RefundAsked(s, k))
    ensures Paid(s, k) ==> (Kept(s, k) || k in s.refunds <==> k !in s.lostRefunds || RefundAsked(s, k))
  {
    ReachableInv(s);
    assert RowOk(s, k) && IntentToken(s, k) && !HasJob(s, k);
    assert Reported(s, k) && PaymentOk(s, k) && LedgerOk(s, k);
    var success := PaymentSucceeded(k, k, s.reservations[k].priceTotalCents, k);
    if success in s.resultIds {
      assert Settled(s, success);
    } else {
      assert Settled(s, PaymentFailed(k, k)) && ResultOk(s, PaymentFailed(k, k));
    }
  }

  /** When everything has drained, the dead letters are exactly the jobs that ran out of attempts, less the
      ones whose worker died before the note. So a booking out of attempts has left its evidence if and only
      if some of its notices survived. */
  lemma ExhaustionIsOnRecord(s: State, k: Id)
    requires Reachable(s) && Drained(s)
    ensures s.exhausted == s.deadLetters + s.lostNotices
    ensures k < |s.outbox| ==>
              (DeadLettered(s, k) <==> s.lostNotices[LastAttempt(s, k)] < s.exhausted[LastAttempt(s, k)])
    ensures Exhausted(s, k) && LastAttempt(s, k) !in s.lostNotices ==> DeadLettered(s, k)
  {
    forall job: ChargeJob ensures s.exhausted[job] == (s.deadLetters + s.lostNotices)[job] {
      ReachableBalances(s, job);
      assert BalancedFor(s, job);
    }
  }

  /** No step of the run is one at which a cancel loses a refund. */
  ghost predicate NoRefundLost(s: State, steps: seq<Step>) {
    forall n :: 0 <= n < |steps| ==> !LosesRefund(Run(s, steps[..n]), steps[n])
  }

  lemma NoRefundLostSoFar(s: State, steps: seq<Step>)
    requires steps != [] && NoRefundLost(s, steps)
    ensures var n := |steps| - 1;
      NoRefundLost(s, steps[..n]) && !LosesRefund(Run(s, steps[..n]), steps[n])
  {
    var n := |steps| - 1;
    forall m | 0 <= m < n ensures !LosesRefund(Run(s, steps[..n][..m]), steps[..n][m]) {
      assert steps[..n][..m] == steps[..m];
    }
  }

  lemma {:induction false} NothingLost(s: State, steps: seq<Step>)
    requires NoRefundLost(s, steps)
    ensures Run(s, steps).lostRefunds == s.lostRefunds
    decreases |steps|
  {
    if steps != [] {
      var n := |steps| - 1;
      NoRefundLostSoFar(s, steps);
      NothingLost(s, steps[..n]);
      ApplyIsNext(Run(s, steps[..n]), steps[n]);
      Writers(Run(s, steps[..n]), steps[n], Run(s, steps));
    }
  }

  /** A cancel that nothing comes between, from its read to its enqueue, is never one that loses a refund. */
  lemma CancelAsOneStepLosesNothing(s: State, id: Id, dedup: bool)
    requires id < |s.reservations| && Active(s.reservations[id].status)
    ensures var seen := s.reservations[id].status;
      var begun := BeginCancel(s, id);
      var written := WriteCancelled(begun, id, seen);
      && !LosesRefund(s, CancelBegin(id))
      && !LosesRefund(begun, CancelWrite(id, seen))
      && (seen == CONFIRMED ==>
            && CancelWritten(id) in written.handlers
            && RefundRequested(id, id) in EnqueueCancelRefund(written, id, dedup).refundIds)
      && written.reservations[id].status == CANCELLED && written.lostRefunds == s.lostRefunds
  {}

  /** Settlement completeness: on runs whose cancels act on what they read, and live to enqueue the refund
      they owe, every charge that went through ends in a standing booking or a refund, or its job ran out of
      attempts. Then it is in the dead-letter queue exactly when not every one of its notices was lost, and
      always on runs in which no worker dies before a dead letter. */
  lemma CleanRunsSettleEverything(clock: Instant, holdTtl: nat, steps: seq<Step>, k: Id)
    requires NoRefundLost(Init(clock, holdTtl), steps)
    requires var s := Run(Init(clock, holdTtl), steps);
      Drained(s) && k < |s.reservations| && Paid(s, k)
    ensures var s := Run(Init(clock, holdTtl), steps);
      && k < |s.outbox|
      && (Kept(s, k) || k in s.refunds || Exhausted(s, k))
      && (LastAttempt(s, k) !in s.lostNotices ==> Kept(s, k) || k in s.refunds || DeadLettered(s, k))
      && (DeadLettered(s, k) <==> s.lostNotices[LastAttempt(s, k)] < s.exhausted[LastAttempt(s, k)])
      && (NoNoticeLost(Init(clock, holdTtl), steps) ==> Kept(s, k) || k in s.refunds || DeadLettered(s, k))
  {
    var s := Run(Init(clock, holdTtl), steps);
    NothingLost(Init(clock, holdTtl), steps);
    OneOutboxRowEach(s, k);
    ExhaustionIsOnRecord(s, k);
    if NoNoticeLost(Init(clock, holdTtl), steps) {
      NoNoticesLost(clock, holdTtl, steps);
    }
    if !Exhausted(s, k) {
      SettlementIsComplete(s, k);
    }
  }
}

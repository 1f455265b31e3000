/** What each operation answers and what it changes, said of its request and of the rows it finds: who may
    hold and who may cancel, how long a hold lasts, when a delivery fails and what it leaves when it does not. */
module Answers {
  import opened BookingTypes
  import opened Intervals
  import opened Saga
  import opened SagaInvariant
  import opened SagaTheorems
  import opened Operations
  import Relay

  // ---------------------------------------------------------------------------------------------
  // Who may hold

  /** A hold is refused for its dates exactly when they are out of order or past, and for its listing exactly
      when the dates pass and there is no active one; a refusal changes nothing. */
  lemma HoldIsRefusedExactly(s: State, listings: map<Id, Listing>, r: HoldRequest, first: Attempt, second: Attempt)
    ensures var (t, answer) := Hold(s, listings, r, first, second);
      var badDates := r.checkOut <= r.checkIn || r.checkIn < s.clock;
      var bookable := r.listing in listings && listings[r.listing].active;
      && (answer == Problem(VALIDATION_FAILED) <==> badDates)
      && (answer == Problem(NOT_FOUND) <==> !badDates && !bookable)
      && answer != Problem(INVALID_STATE_TRANSITION)
      && (badDates || !bookable ==> t == s)
      && (answer.Done? ==> !badDates && bookable)
  {
    if !(r.checkOut <= r.checkIn || r.checkIn < s.clock) && r.listing in listings && listings[r.listing].active {
      HoldAnswersTruthfully(s, listings, r, first, second);
    }
  }

  /** The original code on the cause counts before the driver's own. */
  lemma FaultsAreReadFromTheirCause(err: DbError)
    ensures var original := err.cause.Some? && err.cause.value.Some?;
      && (IsExclusionViolation(err) <==>
            if original then err.cause.value.value == "23P01" else err.code == Some("23P01"))
      && (IsDeadlock(err) <==>
            if original then err.cause.value.value == "40P01" else err.code == Some("40P01"))
      && !(IsExclusionViolation(err) && IsDeadlock(err))
  {
    assert "23P01"[0] != "40P01"[0];
  }

  /** What becomes of a hold is up to its deciding attempt. */
  lemma DeciderDecides(s: State, listings: map<Id, Listing>, r: HoldRequest, first: Attempt, second: Attempt,
                       third: Attempt, fourth: Attempt)
    requires Deciding(first, second) == Deciding(third, fourth)
    ensures Hold(s, listings, r, first, second) == Hold(s, listings, r, third, fourth)
  {
    if !Refused(s, listings, r) {
      DecidedBy(s, Pricing(s, listings, r), first, second);
      DecidedBy(s, Pricing(s, listings, r), third, fourth);
    }
  }

  /** Without a deadlock there is no second attempt; after one, the second is the last, made when its own wait
      has passed too. */
  lemma OnlyDeadlocksAreRetried(
      s: State, listings: map<Id, Listing>, r: HoldRequest, first: Attempt, second: Attempt, other: Attempt)
    ensures if first.fault.None? || !IsDeadlock(first.fault.value) then
              Hold(s, listings, r, first, second) == Hold(s, listings, r, first, other)
            else if second.fault.None? || !IsDeadlock(second.fault.value) then
              Hold(s, listings, r, first, second)
              == Hold(s, listings, r, Attempt(first.wait + second.wait, second.fault), other)
            else !Hold(s, listings, r, first, second).1.Done?
  {
    if first.fault.None? || !IsDeadlock(first.fault.value) {
      DeciderDecides(s, listings, r, first, second, first, other);
    } else if second.fault.None? || !IsDeadlock(second.fault.value) {
      DeciderDecides(s, listings, r, first, second, Attempt(first.wait + second.wait, second.fault), other);
    } else if !Refused(s, listings, r) {
      DecidedBy(s, Pricing(s, listings, r), first, second);
    }
  }

  // ---------------------------------------------------------------------------------------------
  // Who may cancel

  /** Somebody else's booking is answered like a missing one; a booking that is over is refused; the rest,
      cancelled ones included, is done. */
  lemma CancelAnswersExactly(s: State, owned: bool, id: Id, dedup: bool)
    ensures var answer := Cancel(s, owned, id, dedup).1;
      var mine := owned && id < |s.reservations|;
      && (answer == Problem(NOT_FOUND) <==> !mine)
      && (answer == Done(id) <==> mine && s.reservations[id].status in {HELD, CONFIRMED, CANCELLED})
      && (answer == Problem(INVALID_STATE_TRANSITION) <==> mine && s.reservations[id].status in {EXPIRED, COMPLETED})
  {}

  /** What it writes: the one row, and a refund request exactly for a confirmed booking. */
  lemma CancelWritesExactly(s: State, owned: bool, id: Id, dedup: bool)
    ensures var t := Cancel(s, owned, id, dedup).0;
      if owned && id < |s.reservations| && s.reservations[id].status in {HELD, CONFIRMED} then
        var cancelled := s.(reservations := s.reservations[id := s.reservations[id].(status := CANCELLED)]);
        var q := RefundRequested(id, id);
        if s.reservations[id].status == HELD then t == cancelled
        else t == cancelled.(
                    refundIds := s.refundIds + {q},
                    refundJobs := if dedup && q in s.refundIds then s.refundJobs else s.refundJobs + multiset{q})
      else t == s
  {}

  /** The lifecycle: five moves, and nothing leads out of a booking that is over. */
  lemma LifecycleIs(a: Status, b: Status)
    ensures b in AllowedTransitions(a) <==>
      (a, b) in {(HELD, CONFIRMED), (HELD, CANCELLED), (HELD, EXPIRED), (CONFIRMED, CANCELLED), (CONFIRMED, COMPLETED)}
  {}

  // ---------------------------------------------------------------------------------------------
  // How long a hold lasts

  /** A booking placed by `hold` is there until its time-to-live has passed since its insert: no sweep up to
      then touches it, at any point of any run, and any later one expires it if it is still HELD. */
  lemma HoldsLastTheirTerm(s: State, listings: map<Id, Listing>, r: HoldRequest, first: Attempt, second: Attempt,
                           steps: seq<Step>, now: Instant)
    requires Reachable(s) && Hold(s, listings, r, first, second).1.Done?
    ensures var (t, answer) := Hold(s, listings, r, first, second);
      var u, id, expiry := Run(t, steps), answer.id, t.clock + s.holdTtl;
      && id < |u.reservations| && u.reservations[id].holdExpiresAt == expiry
      && (u.reservations[id].status == EXPIRED ==> expiry < u.clock)
      && Expired(u.reservations, now)[id]
         == (if u.reservations[id].status == HELD && expiry < now then u.reservations[id].(status := EXPIRED)
             else u.reservations[id])
  {
    var (t, answer) := Hold(s, listings, r, first, second);
    HoldIsRefusedExactly(s, listings, r, first, second);
    PlacedAt(s, listings, r, first, second);
    HoldIsARun(s, listings, r, first, second);
    ReachableThrough(s, t);
    TermOfRow(t, steps, answer.id);
    ExpirySweepIsExact(Run(t, steps).reservations, now, answer.id);
  }

  lemma PlacedAt(s: State, listings: map<Id, Listing>, r: HoldRequest, first: Attempt, second: Attempt)
    requires Hold(s, listings, r, first, second).1.Done?
    ensures var (t, answer) := Hold(s, listings, r, first, second);
      && answer.id < |t.reservations| && t.holdTtl == s.holdTtl
      && t.reservations[answer.id].holdExpiresAt == t.clock + s.holdTtl
  {
    HoldIsRefusedExactly(s, listings, r, first, second);
    HoldAnswersTruthfully(s, listings, r, first, second);
    DecidedBy(s, Pricing(s, listings, r), first, second);
  }

  /** A row's expiry never moves, and it is EXPIRED only once that has passed. */
  lemma TermOfRow(t: State, steps: seq<Step>, i: Id)
    requires Reachable(t) && i < |t.reservations|
    ensures var u := Run(t, steps);
      && i < |u.reservations| && u.reservations[i].holdExpiresAt == t.reservations[i].holdExpiresAt
      && (u.reservations[i].status == EXPIRED ==> u.reservations[i].holdExpiresAt < u.clock)
  {
    ReachableInv(t);
    RunEvolves(t, steps);
    assert RowEvolves(t.reservations[i], Run(t, steps).reservations[i]) && RowOk(Run(t, steps), i);
  }

  /** Whatever the run, a reservation is EXPIRED only after its hold ran out, which is its time-to-live after
      its insert, and COMPLETED only after its check-out. */
  lemma ClosedRowsAreDue(s: State, i: Id)
    requires Reachable(s) && i < |s.reservations|
    ensures s.reservations[i].holdExpiresAt == s.reservations[i].insertedAt + s.holdTtl
    ensures s.reservations[i].status == EXPIRED ==> s.reservations[i].holdExpiresAt < s.clock
    ensures s.reservations[i].status == COMPLETED ==> s.reservations[i].checkOut < s.clock
  {
    ReachableInv(s);
    assert RowOk(s, i);
  }

  /** A sweep writes what is due by its own clock read and nothing else. */
  lemma SweepsWriteExactly(s: State, wait: nat, i: Id)
    requires i < |s.reservations|
    ensures var t, u, now, row := SweepHolds(s, wait), SweepStays(s, wait), s.clock + wait, s.reservations[i];
      && |t.reservations| == |u.reservations| == |s.reservations|
      && t == s.(clock := now, reservations := t.reservations)
      && u == s.(clock := now, reservations := u.reservations)
      && t.reservations[i] == (if row.status == HELD && row.holdExpiresAt < now then row.(status := EXPIRED) else row)
      && u.reservations[i] == (if row.status == CONFIRMED && row.checkOut < now then row.(status := COMPLETED) else row)
  {
    ExpirySweepIsExact(s.reservations, s.clock + wait, i);
    CompletionSweepIsExact(s.reservations, s.clock + wait, i);
  }

  // ---------------------------------------------------------------------------------------------
  // When a charge delivery fails

  /** Exactly for an event that does not parse, for a payment that says it succeeded and has no reference, and
      for an unsettled payment the provider does not know while it cannot answer. */
  lemma DeliveryFailsExactly(s: State, job: ChargeJob, verdict: Verdict, dedup: bool)
    ensures var key := job.event.idempotencyKey;
      !ProcessCharge(s, job, verdict, dedup).1 <==>
        || job.event.amountCents <= 0
        || (key in s.payments && s.payments[key].status == SUCCEEDED && s.payments[key].providerRef.None?)
        || ((key !in s.payments || s.payments[key].status == PENDING) && key !in s.charges && verdict == IsUnavailable)
  {}

  /** The payment rows once the event's own is there. */
  function WithRow(s: State, e: BookingHeld): map<Id, Payment> {
    if e.idempotencyKey in s.payments then s.payments
    else s.payments[e.idempotencyKey := Payment(e.reservationId, PENDING, e.amountCents, None)]
  }

  lemma FailedAttempt(s: State, job: ChargeJob, verdict: Verdict, dedup: bool)
    requires !ProcessCharge(s, job, verdict, dedup).1
    ensures ProcessCharge(s, job, verdict, dedup).0
         == s.(payments := if job.event.amountCents > 0 then WithRow(s, job.event) else s.payments)
  {}

  lemma AttemptUsedUp(s: State, job: ChargeJob)
    ensures var t, rest := FailAttempt(s, job), s.chargeJobs - multiset{job};
      var again := ChargeJob(job.event, job.attemptsMade + 1);
      if job.attemptsMade + 1 < 5 then t == s.(chargeJobs := rest + multiset{again})
      else t == s.(chargeJobs := rest, exhausted := s.exhausted + multiset{again},
                   deadLetters := s.deadLetters + multiset{again})
  {}

  /** A failed delivery uses up one of five attempts, the last of which leaves the dead letter; of the books it
      has at most opened the payment row. */
  lemma FailedDelivery(s: State, job: ChargeJob, verdict: Verdict, dedup: bool)
    requires !ProcessCharge(s, job, verdict, dedup).1
    ensures var t, rest := DeliverCharge(s, job, verdict, dedup), s.chargeJobs - multiset{job};
      var again := ChargeJob(job.event, job.attemptsMade + 1);
      && (if job.attemptsMade + 1 < 5 then
            t == s.(payments := t.payments, chargeJobs := rest + multiset{again})
          else
            t == s.(payments := t.payments, chargeJobs := rest, exhausted := s.exhausted + multiset{again},
                    deadLetters := s.deadLetters + multiset{again}))
      && t.payments == (if job.event.amountCents > 0 then WithRow(s, job.event) else s.payments)
  {
    FailedAttempt(s, job, verdict, dedup);
    AttemptUsedUp(ProcessCharge(s, job, verdict, dedup).0, job);
  }

  lemma ChargeReportsItsRow(s: State, e: BookingHeld, verdict: Verdict)
    requires ChargePayment(s, e, verdict).1.Some?
    ensures var (t, result) := ChargePayment(s, e, verdict);
      && t == s.(payments := t.payments, charges := t.charges, moves := t.moves)
      && e.idempotencyKey in t.payments
      && var p := t.payments[e.idempotencyKey];
      && p.status != PENDING
      && (p.status == SUCCEEDED ==> p.providerRef.Some?)
      && result.value == if p.status == SUCCEEDED then
           PaymentSucceeded(e.reservationId, e.idempotencyKey, p.amountCents, p.providerRef.value)
         else PaymentFailed(e.reservationId, e.idempotencyKey)
  {}

  /** Any other delivery acknowledges this job and reports what the payment row then says, whatever the
      provider would answer now. */
  lemma CompletedDelivery(s: State, job: ChargeJob, verdict: Verdict, dedup: bool)
    requires ProcessCharge(s, job, verdict, dedup).1
    ensures var t, e := DeliverCharge(s, job, verdict, dedup), job.event;
      && e.idempotencyKey in t.payments
      && var p := t.payments[e.idempotencyKey];
      && (p.status == SUCCEEDED ==> p.providerRef.Some?)
      && var report :=
           if p.status == SUCCEEDED then
             PaymentSucceeded(e.reservationId, e.idempotencyKey, p.amountCents, p.providerRef.value)
           else PaymentFailed(e.reservationId, e.idempotencyKey);
      && p.status != PENDING
      && t == s.(payments := t.payments, charges := t.charges, moves := t.moves,
                 chargeJobs := s.chargeJobs - multiset{job},
                 resultIds := s.resultIds + {report},
                 results := if dedup && report in s.resultIds then s.results else s.results + multiset{report})
  {
    ChargeReportsItsRow(s, job.event, verdict);
    var (t, result) := ChargePayment(s, job.event, verdict);
    assert DeliverCharge(s, job, verdict, dedup)
        == Published(t, result.value, dedup).(chargeJobs := s.chargeJobs - multiset{job});
  }

  /** A settled payment is replayed: neither the row nor the provider is touched. */
  lemma SettledPaymentsAreReplayed(s: State, job: ChargeJob, verdict: Verdict, dedup: bool)
    requires var key := job.event.idempotencyKey; key in s.payments && s.payments[key].status != PENDING
    ensures var t := DeliverCharge(s, job, verdict, dedup);
      t.payments == s.payments && t.charges == s.charges && t.moves == s.moves
  {
    if !ProcessCharge(s, job, verdict, dedup).1 {
      FailedDelivery(s, job, verdict, dedup);
    } else {
      ReplayedResult(s, job, verdict, dedup);
    }
  }

  lemma ReplayedResult(s: State, job: ChargeJob, verdict: Verdict, dedup: bool)
    requires var key := job.event.idempotencyKey; key in s.payments && s.payments[key].status != PENDING
    requires ProcessCharge(s, job, verdict, dedup).1
    ensures var t := DeliverCharge(s, job, verdict, dedup);
      t.payments == s.payments && t.charges == s.charges && t.moves == s.moves
  {}

  /** An unsettled one takes the provider's verdict on its key: the recorded one if there is one, else the one
      it gives now, on record and paid for at once. The row keeps what it was opened with. */
  lemma UnsettledPaymentsAreCharged(s: State, job: ChargeJob, verdict: Verdict, dedup: bool)
    requires ProcessCharge(s, job, verdict, dedup).1
    requires var key := job.event.idempotencyKey; key in s.payments ==> s.payments[key].status == PENDING
    ensures var t, key, rows := DeliverCharge(s, job, verdict, dedup), job.event.idempotencyKey, WithRow(s, job.event);
      && key in t.charges
      && (key in s.charges ==> t.charges == s.charges && t.moves == s.moves)
      && (key !in s.charges ==>
            var outcome := if verdict == Accepts then Charged(key) else Declined;
            && t.charges == s.charges[key := LedgerEntry(outcome, job.event.amountCents)]
            && t.moves == if verdict == Accepts then s.moves + [Take(key, job.event.amountCents)] else s.moves)
      && t.payments == rows[key := match t.charges[key].outcome
                                   case Charged(ref) => rows[key].(status := SUCCEEDED, providerRef := Some(ref))
                                   case Declined => rows[key].(status := FAILED)]
  {}

  /** A failed job leaves a dead letter exactly when it has made every attempt it was allowed, one if nothing
      was said. */
  lemma OnlyLastFailuresAreBuried(letters: multiset<ChargeJob>, job: ChargeJob, attempts: Option<nat>)
    ensures Buried(letters, None, attempts) == letters
    ensures Buried(letters, Some(job), attempts)
         == if job.attemptsMade < (if attempts.Some? then attempts.value else 1) then letters
            else letters + multiset{job}
  {}

  // ---------------------------------------------------------------------------------------------
  // What a result settles

  /** Missing, still HELD, already confirmed, or gone: a success needs a refund exactly in the last case, a
      decline never. */
  lemma SettlementAnswersExactly(s: State, r: PaymentResult)
    ensures var answer, id := SettleResult(s, r).1, r.reservationId;
      var there := id < |s.reservations|;
      && (answer.Missing? <==> !there)
      && (answer.Applied? <==> there && s.reservations[id].status == HELD)
      && (answer.AlreadySettled? <==>
            there && if r.PaymentSucceeded? then s.reservations[id].status == CONFIRMED
                     else s.reservations[id].status != HELD)
      && (answer.RefundRequired? <==>
            there && r.PaymentSucceeded? && s.reservations[id].status in {EXPIRED, CANCELLED, COMPLETED})
      && (answer.RefundRequired? ==> answer.status == s.reservations[id].status)
  {}

  /** A delivered result leaves its queue; a HELD row is confirmed or cancelled; a success that finds the row
      gone asks for the refund; nothing else changes. */
  lemma ResultWritesExactly(s: State, r: PaymentResult, dedup: bool)
    ensures var t, id := DeliverResult(s, r, dedup), r.reservationId;
      var done := s.(results := s.results - multiset{r});
      if id < |s.reservations| && s.reservations[id].status == HELD then
        t == done.(reservations := s.reservations[id := s.reservations[id].(
                     status := if r.PaymentSucceeded? then CONFIRMED else CANCELLED)])
      else if id < |s.reservations| && r.PaymentSucceeded? && s.reservations[id].status != CONFIRMED then
        var q := RefundRequested(id, r.idempotencyKey);
        t == done.(refundIds := s.refundIds + {q},
                   refundJobs := if dedup && q in s.refundIds then s.refundJobs else s.refundJobs + multiset{q})
      else t == done
  {}

  // ---------------------------------------------------------------------------------------------
  // What a refund gives back

  /** A delivered refund leaves its queue; a SUCCEEDED payment becomes REFUNDED and gets back, once, the amount
      the provider took under its key; nothing else changes. */
  lemma RefundWritesExactly(s: State, q: RefundRequested)
    ensures var t, key := DeliverRefund(s, q), q.idempotencyKey;
      var done := s.(refundJobs := s.refundJobs - multiset{q});
      if key in s.payments && s.payments[key].status == SUCCEEDED then
        var amount := if key in s.charges && s.charges[key].outcome.Charged? then s.charges[key].amountCents else 0;
        t == done.(payments := s.payments[key := s.payments[key].(status := REFUNDED)],
                   refunds := s.refunds + {key},
                   moves := if key in s.refunds then s.moves else s.moves + [GiveBack(key, amount)])
      else t == done
  {
    if q.idempotencyKey in s.refunds {
      assert s.refunds + {q.idempotencyKey} == s.refunds;
    }
  }

  // ---------------------------------------------------------------------------------------------
  // What a relay pass hands over

  /** The jobs a batch puts on the queue: one per row, but for rows it was given before and now drops. */
  function HandedOver(rows: seq<OutboxRow>, batch: seq<Id>, dropped: set<Id>): multiset<ChargeJob>
    requires forall k :: 0 <= k < |batch| ==> batch[k] < |rows|
    decreases |batch|
  {
    if batch == [] then multiset{}
    else
      var i := batch[|batch| - 1];
      HandedOver(rows, batch[..|batch| - 1], dropped)
      + (if i in dropped && rows[i].enqueues > 0 then multiset{} else multiset{ChargeJob(rows[i].event, 0)})
  }

  lemma EnqueueRowHandsOver(s: State, i: Id, dedup: bool)
    requires i < |s.outbox| && !s.outbox[i].published
    ensures EnqueueRow(s, i, dedup)
         == s.(outbox := s.outbox[i := s.outbox[i].(enqueues := s.outbox[i].enqueues + 1)],
               chargeJobs := s.chargeJobs + (if dedup && s.outbox[i].enqueues > 0 then multiset{}
                                             else multiset{ChargeJob(s.outbox[i].event, 0)}))
  {}

  lemma JobsAddUp(a: multiset<ChargeJob>, b: multiset<ChargeJob>, c: multiset<ChargeJob>)
    ensures a + b + c == a + (b + c)
  {}

  /** Handing over the last row of a batch after the others. */
  lemma HandsOverOneMore(s: State, t: State, batch: seq<Id>, dropped: set<Id>)
    requires Claimable(s.outbox, batch) && batch != [] && Claimable(s.outbox, batch[..|batch| - 1])
    requires t == s.(outbox := t.outbox,
                     chargeJobs := s.chargeJobs + HandedOver(s.outbox, batch[..|batch| - 1], dropped))
    requires batch[|batch| - 1] < |t.outbox| && t.outbox[batch[|batch| - 1]] == s.outbox[batch[|batch| - 1]]
    ensures var u := EnqueueRow(t, batch[|batch| - 1], batch[|batch| - 1] in dropped);
      u == s.(outbox := u.outbox, chargeJobs := s.chargeJobs + HandedOver(s.outbox, batch, dropped))
  {
    var front, i := batch[..|batch| - 1], batch[|batch| - 1];
    EnqueueRowHandsOver(t, i, i in dropped);
    JobsAddUp(s.chargeJobs, HandedOver(s.outbox, front, dropped),
              if i in dropped && s.outbox[i].enqueues > 0 then multiset{}
              else multiset{ChargeJob(s.outbox[i].event, 0)});
  }

  lemma {:induction false} EnqueueBatchHandsOver(s: State, batch: seq<Id>, dropped: set<Id>)
    requires Claimable(s.outbox, batch)
    ensures var t := EnqueueBatch(s, batch, dropped);
      t == s.(outbox := t.outbox, chargeJobs := s.chargeJobs + HandedOver(s.outbox, batch, dropped))
    decreases |batch|
  {
    if batch == [] {
      assert s.chargeJobs + multiset{} == s.chargeJobs;
    } else {
      var front := batch[..|batch| - 1];
      LastIsNew(batch);
      EnqueueBatchHandsOver(s, front, dropped);
      EnqueueBatchRows(s, front, dropped);
      OneMoreRow(s.outbox, front, batch[|batch| - 1]);
      HandsOverOneMore(s, EnqueueBatch(s, front, dropped), batch, dropped);
    }
  }

  lemma {:induction false} MarkBatchMarks(s: State, batch: seq<Id>)
    ensures MarkBatch(s, batch) == s.(outbox := MarkBatch(s, batch).outbox)
    decreases |batch|
  {
    if batch != [] {
      MarkBatchMarks(s, batch[..|batch| - 1]);
    }
  }

  /** A pass hands over the rows of its batch, marks them published, and changes nothing else. */
  lemma PassWritesExactly(s: State, locked: set<Id>, dropped: set<Id>)
    ensures var batch := Relay.Select(s.outbox, locked);
      && (forall k :: 0 <= k < |batch| ==> batch[k] < |s.outbox|)
      && var t := PublishBatch(s, locked, dropped);
      && t == s.(outbox := t.outbox, chargeJobs := s.chargeJobs + HandedOver(s.outbox, batch, dropped))
      && |t.outbox| == |s.outbox|
      && forall i :: 0 <= i < |s.outbox| ==>
           t.outbox[i] == (if i in batch then s.outbox[i].(published := true, enqueues := s.outbox[i].enqueues + 1)
                           else s.outbox[i])
  {
    var batch := Relay.Select(s.outbox, locked);
    SelectedAreClaimable(s.outbox, locked);
    EnqueueBatchHandsOver(s, batch, dropped);
    MarkBatchMarks(EnqueueBatch(s, batch, dropped), batch);
    PassesAgree(s, locked, dropped);
  }

  lemma SelectedAreClaimable(rows: seq<OutboxRow>, locked: set<Id>)
    ensures Claimable(rows, Relay.Select(rows, locked))
  {
    var batch := Relay.Select(rows, locked);
    Relay.SelectedRows(rows, locked);
    forall k | 0 <= k < |batch| ensures batch[k] < |rows| && !rows[batch[k]].published {
      assert batch[k] in batch;
    }
  }

  /** Where every row has an event of its own, a row of the batch puts its job on the queue once, and a row
      outside it not at all. */
  lemma {:induction false} EachRowIsHandedOverOnce(rows: seq<OutboxRow>, batch: seq<Id>, dropped: set<Id>, i: Id)
    requires Claimable(rows, batch) && i < |rows|
    requires forall j :: 0 <= j < |rows| && j != i ==> rows[j].event != rows[i].event
    ensures HandedOver(rows, batch, dropped)[ChargeJob(rows[i].event, 0)]
         == if i in batch && !(i in dropped && rows[i].enqueues > 0) then 1 else 0
    decreases |batch|
  {
    if batch != [] {
      var last := |batch| - 1;
      LastIsNew(batch);
      EachRowIsHandedOverOnce(rows, batch[..last], dropped, i);
      assert i in batch <==> i in batch[..last] || i == batch[last];
    }
  }
}

/** The steps of the relay, the charge, the settlement and the refund keep the invariant. */
module SagaMoneySteps {
  import opened BookingTypes
  import opened Saga
  import opened SagaInvariant
  import opened SagaSteps

  // ---------------------------------------------------------------------------------------------
  // The relay

  lemma OutboxMovesKeepTables(s: State, t: State)
    requires Tables(s) && |t.outbox| == |s.outbox| && t.clock == s.clock && t.holdTtl == s.holdTtl
    requires forall i :: 0 <= i < |s.outbox| ==> OutboxEvolves(s.outbox[i], t.outbox[i])
    requires forall i :: 0 <= i < |t.outbox| && t.outbox[i].published ==> t.outbox[i].enqueues > 0
    requires t.reservations == s.reservations && t.payments == s.payments
    requires t.charges == s.charges && t.refunds == s.refunds && t.lostRefunds == s.lostRefunds
    ensures Tables(t)
  {
    forall i | 0 <= i < |t.reservations| ensures RowOk(t, i) {
      assert RowOk(s, i);
    }
    forall k | k in t.payments ensures PaymentOk(t, k) {
      assert PaymentOk(s, k);
    }
    forall k: Id ensures LedgerOk(t, k) {
      assert LedgerOk(s, k);
    }
  }

  lemma OutboxEvolve(s: State, t: State)
    requires t == s.(outbox := t.outbox, chargeJobs := t.chargeJobs) && |t.outbox| == |s.outbox|
    requires forall i :: 0 <= i < |s.outbox| ==> OutboxEvolves(s.outbox[i], t.outbox[i])
    ensures Evolves(s, t)
  {}

  lemma PublishedFacts(s: State)
    requires Tables(s)
    ensures forall i :: 0 <= i < |s.outbox| && s.outbox[i].published ==> s.outbox[i].enqueues > 0
  {
    forall i | 0 <= i < |s.outbox| && s.outbox[i].published ensures s.outbox[i].enqueues > 0 {
      assert RowOk(s, i);
    }
  }

  lemma EnqueueRowKeeps(s: State, row: Id, dedup: bool)
    requires Inv(s)
    ensures Keeps(s, EnqueueRow(s, row, dedup))
  {
    if row < |s.outbox| && !s.outbox[row].published {
      RowEnqueued(s, EnqueueRow(s, row, dedup), row, dedup);
      OutboxMoves(s, EnqueueRow(s, row, dedup));
    } else {
      Stutters(s);
    }
  }

  lemma RowEnqueued(s: State, t: State, row: Id, dedup: bool)
    requires Tables(s) && row < |s.outbox| && !s.outbox[row].published && t == EnqueueRow(s, row, dedup)
    ensures t == s.(outbox := t.outbox, chargeJobs := t.chargeJobs) && |t.outbox| == |s.outbox|
    ensures forall i :: 0 <= i < |s.outbox| ==> OutboxEvolves(s.outbox[i], t.outbox[i])
    ensures forall i :: 0 <= i < |t.outbox| && t.outbox[i].published ==> s.outbox[i].published
    ensures forall k :: 0 <= k < |t.outbox| && t.outbox[k].enqueues > 0 ==>
              (k < |s.outbox| && s.outbox[k].enqueues > 0) || ChargeJob(t.outbox[k].event, 0) in t.chargeJobs
    ensures forall job :: job in s.chargeJobs ==> job in t.chargeJobs
    ensures forall job :: job in t.chargeJobs ==> job in s.chargeJobs || JobOk(t, job)
  {
    assert RowOk(s, row);
  }

  /** A step that only moves outbox rows forward, and may add their jobs. */
  lemma OutboxMoves(s: State, t: State)
    requires Inv(s)
    requires t == s.(outbox := t.outbox, chargeJobs := t.chargeJobs) && |t.outbox| == |s.outbox|
    requires forall i :: 0 <= i < |s.outbox| ==> OutboxEvolves(s.outbox[i], t.outbox[i])
    requires forall i :: 0 <= i < |t.outbox| && t.outbox[i].published ==>
        s.outbox[i].published || t.outbox[i].enqueues > 0
    requires forall k :: 0 <= k < |t.outbox| && t.outbox[k].enqueues > 0 ==>
               (k < |s.outbox| && s.outbox[k].enqueues > 0) || ChargeJob(t.outbox[k].event, 0) in t.chargeJobs
    requires forall job :: job in s.chargeJobs ==> job in t.chargeJobs
    requires forall job :: job in t.chargeJobs ==> job in s.chargeJobs || JobOk(t, job)
    ensures Keeps(s, t)
  {
    OutboxEvolve(s, t);
    PublishedFacts(s);
    OutboxMovesKeepTables(s, t);
    OutboxTokens(s, t);
    Reassemble(s, t);
  }

  lemma OutboxTokens(s: State, t: State)
    requires Tables(s) && Tokens(s) && Evolves(s, t)
    requires t == s.(outbox := t.outbox, chargeJobs := t.chargeJobs)
    requires forall job :: job in s.chargeJobs ==> job in t.chargeJobs
    requires forall k :: 0 <= k < |t.outbox| && t.outbox[k].enqueues > 0 ==>
               (k < |s.outbox| && s.outbox[k].enqueues > 0) || ChargeJob(t.outbox[k].event, 0) in t.chargeJobs
    ensures Tokens(t)
  {
    EventIds(s);
    IntentTokensKept(s, t);
    ResultTokensKept(s, t);
    RefundTokensKept(s, t);
  }

  lemma MarkRowKeeps(s: State, row: Id)
    requires Inv(s)
    ensures Keeps(s, MarkRow(s, row))
  {
    if row < |s.outbox| && s.outbox[row].enqueues > 0 {
      OutboxMoves(s, MarkRow(s, row));
    } else {
      Stutters(s);
    }
  }

  // ---------------------------------------------------------------------------------------------
  // The charge

  lemma TakeChargeKeeps(s: State, job: ChargeJob)
    requires Inv(s)
    ensures Keeps(s, TakeCharge(s, job))
  {
    if job in s.chargeJobs {
      HandlerEnters(s, ChargeTaken(job));
    } else {
      Stutters(s);
    }
  }

  /** A settled payment row yields a result that agrees with the ledger. */
  lemma ToResultAgrees(s: State, job: ChargeJob)
    requires Tables(s) && JobOk(s, job)
    requires job.event.idempotencyKey in s.payments && s.payments[job.event.idempotencyKey].status != PENDING
    ensures Presentable(s.payments[job.event.idempotencyKey])
    ensures ResultOk(s, ToResult(job.event, s.payments[job.event.idempotencyKey]))
  {
    var key := job.event.idempotencyKey;
    assert PaymentOk(s, key) && LedgerOk(s, key);
  }

  lemma LookupPaymentKeeps(s: State, job: ChargeJob)
    requires Inv(s)
    ensures Keeps(s, LookupPayment(s, job))
  {
    var h, key := ChargeTaken(job), job.event.idempotencyKey;
    if h !in s.handlers || job.event.amountCents <= 0 {
      Stutters(s);
    } else {
      HandlerFact(s, h);
      if key !in s.payments {
        HandlerAdvances(s, h, ChargeClaiming(job));
      } else if s.payments[key].status == PENDING {
        HandlerAdvances(s, h, ChargeCalling(job));
      } else {
        ToResultAgrees(s, job);
        HandlerAdvances(s, h, ChargePublishing(job, ToResult(job.event, s.payments[key])));
      }
    }
  }

  /** Payment rows and handlers move; everything else but the ledgers stays. */
  predicate OnlyPaymentsDiffer(s: State, t: State) {
    t == s.(payments := t.payments, handlers := t.handlers)
  }

  lemma PaymentsEvolve(s: State, t: State)
    requires OnlyPaymentsDiffer(s, t)
    requires forall k :: k in s.payments ==> k in t.payments && PaymentEvolves(s.payments[k], t.payments[k])
    requires forall h :: h in s.handlers && h.CancelWritten? ==> h in t.handlers
    ensures Evolves(s, t)
  {}

  lemma PaymentsKeepTables(s: State, t: State, key: Id)
    requires Tables(s) && OnlyPaymentsDiffer(s, t) && key in t.payments
    requires t.payments == s.payments[key := t.payments[key]]
    requires key in s.payments ==> PaymentEvolves(s.payments[key], t.payments[key])
    requires PaymentOk(t, key)
    ensures Tables(t)
  {
    forall i | 0 <= i < |t.reservations| ensures RowOk(t, i) {
      assert RowOk(s, i);
    }
    forall k | k in t.payments ensures PaymentOk(t, k) {
      if k != key {
        assert PaymentOk(s, k);
      }
    }
    forall k: Id ensures LedgerOk(t, k) {
      assert LedgerOk(s, k);
    }
  }

  lemma PaymentsMove(s: State, t: State, key: Id)
    requires Inv(s) && OnlyPaymentsDiffer(s, t) && key in t.payments
    requires t.payments == s.payments[key := t.payments[key]]
    requires key in s.payments ==> PaymentEvolves(s.payments[key], t.payments[key])
    requires PaymentOk(t, key)
    requires forall h :: h in s.handlers && h.CancelWritten? ==> h in t.handlers
    requires forall h :: h in t.handlers && h !in s.handlers ==> HandlerOk(t, h)
    ensures Keeps(s, t)
  {
    PaymentsEvolve(s, t);
    PaymentsKeepTables(s, t, key);
    TokensUntouched(s, t);
    Reassemble(s, t);
  }

  lemma ClaimPaymentKeeps(s: State, job: ChargeJob)
    requires Inv(s)
    ensures Keeps(s, ClaimPayment(s, job))
  {
    var h, key := ChargeClaiming(job), job.event.idempotencyKey;
    if h !in s.handlers {
      Stutters(s);
    } else {
      HandlerFact(s, h);
      if key in s.payments {
        HandlerAdvances(s, h, ChargeCalling(job));
      } else {
        FirstClaim(s, job);
        PaymentsMove(s, ClaimPayment(s, job), key);
      }
    }
  }

  lemma FirstClaim(s: State, job: ChargeJob)
    requires JobOk(s, job) && job.event.amountCents > 0
    requires ChargeClaiming(job) in s.handlers && job.event.idempotencyKey !in s.payments
    ensures var t := ClaimPayment(s, job);
      && PaymentOk(t, job.event.idempotencyKey)
      && OnlyPaymentsDiffer(s, t)
      && (forall h :: h in s.handlers && h.CancelWritten? ==> h in t.handlers)
      && (forall h :: h in t.handlers && h !in s.handlers ==> HandlerOk(t, h))
  {}

  lemma ChargedMovesOk(s: State, key: Id, entry: LedgerEntry, moves: seq<MoneyMove>)
    requires MovesOk(s.charges, s.refunds, s.moves) && key !in s.charges && key !in s.refunds
    requires moves == if entry.outcome.Charged? then s.moves + [Take(key, entry.amountCents)] else s.moves
    ensures MovesOk(s.charges[key := entry], s.refunds, moves)
  {
    forall k: Id ensures TallyOf(moves, k) == LedgerTally(s.charges[key := entry], s.refunds, k) {
      TallyAppend(s.moves, Take(key, entry.amountCents), k);
      assert TallyOf(s.moves, k) == LedgerTally(s.charges, s.refunds, k);
    }
  }

  lemma ChargeKeepsTables(s: State, t: State, key: Id)
    requires Tables(s) && key in s.payments && key !in s.charges && key in t.charges
    requires t == s.(charges := s.charges[key := t.charges[key]], moves := t.moves, handlers := t.handlers)
    requires t.charges[key].amountCents == s.payments[key].amountCents
    requires t.charges[key].outcome.Charged? ==> t.charges[key].outcome.providerRef == key
    ensures Tables(t)
  {
    forall i | 0 <= i < |t.reservations| ensures RowOk(t, i) {
      assert RowOk(s, i);
    }
    forall k | k in t.payments ensures PaymentOk(t, k) {
      assert PaymentOk(s, k);
    }
    forall k: Id ensures LedgerOk(t, k) {
      assert LedgerOk(s, k);
    }
  }

  lemma ChargeEvolves(s: State, t: State, key: Id)
    requires key !in s.charges && key in t.charges && s.moves <= t.moves
    requires t == s.(charges := s.charges[key := t.charges[key]], moves := t.moves, handlers := t.handlers)
    requires forall h :: h in s.handlers && h.CancelWritten? ==> h in t.handlers
    ensures Evolves(s, t)
  {}

  lemma CallProviderKeeps(s: State, job: ChargeJob, accept: bool)
    requires Inv(s)
    ensures Keeps(s, CallProvider(s, job, accept))
  {
    var h, key := ChargeCalling(job), job.event.idempotencyKey;
    if h !in s.handlers {
      Stutters(s);
    } else {
      HandlerFact(s, h);
      if key in s.charges {
        HandlerAdvances(s, h, ChargeRecording(job, s.charges[key].outcome));
      } else {
        FirstChargeTables(s, job, accept);
        FirstChargeKeeps(s, CallProvider(s, job, accept), job, accept);
      }
    }
  }

  lemma FirstChargeTables(s: State, job: ChargeJob, accept: bool)
    requires Tables(s) && MovesOk(s.charges, s.refunds, s.moves)
    requires JobOk(s, job) && job.event.idempotencyKey in s.payments
    requires ChargeCalling(job) in s.handlers && job.event.idempotencyKey !in s.charges
    ensures var t := CallProvider(s, job, accept);
      && Tables(t) && MovesOk(t.charges, t.refunds, t.moves) && Evolves(s, t)
  {
    var t, key := CallProvider(s, job, accept), job.event.idempotencyKey;
    assert LedgerOk(s, key) && PaymentOk(s, key);
    ChargeEvolves(s, t, key);
    ChargedMovesOk(s, key, t.charges[key], t.moves);
    ChargeKeepsTables(s, t, key);
  }

  lemma FirstChargeKeeps(s: State, t: State, job: ChargeJob, accept: bool)
    requires Inv(s) && JobOk(s, job) && job.event.idempotencyKey in s.payments
    requires ChargeCalling(job) in s.handlers && job.event.idempotencyKey !in s.charges
    requires t == CallProvider(s, job, accept)
    requires Evolves(s, t) && Tables(t) && MovesOk(t.charges, t.refunds, t.moves)
    ensures Keeps(s, t)
  {
    TokensUntouched(s, t);
    MessagesSurvive(s, t);
    assert HandlerOk(t, ChargeRecording(job, t.charges[job.event.idempotencyKey].outcome));
    Reassemble(s, t);
  }

  lemma RecordOutcomeKeeps(s: State, job: ChargeJob, outcome: ChargeOutcome)
    requires Inv(s)
    ensures Keeps(s, RecordOutcome(s, job, outcome))
  {
    var h, key := ChargeRecording(job, outcome), job.event.idempotencyKey;
    if h in s.handlers && key in s.payments {
      HandlerFact(s, h);
      RecordedOutcome(s, RecordOutcome(s, job, outcome), job, outcome);
      PaymentsMove(s, RecordOutcome(s, job, outcome), key);
    } else {
      Stutters(s);
    }
  }

  lemma RecordedOutcome(s: State, t: State, job: ChargeJob, outcome: ChargeOutcome)
    requires Tables(s) && HandlerOk(s, ChargeRecording(job, outcome)) && ChargeRecording(job, outcome) in s.handlers
    requires job.event.idempotencyKey in s.payments && t == RecordOutcome(s, job, outcome)
    ensures OnlyPaymentsDiffer(s, t)
    ensures forall h :: h in s.handlers && h.CancelWritten? ==> h in t.handlers
    ensures PaymentEvolves(s.payments[job.event.idempotencyKey], t.payments[job.event.idempotencyKey])
    ensures PaymentOk(t, job.event.idempotencyKey)
    ensures forall h :: h in t.handlers && h !in s.handlers ==> HandlerOk(t, h)
  {
    var key := job.event.idempotencyKey;
    assert PaymentOk(s, key) && LedgerOk(s, key);
  }

  /** A step that moves messages and handlers, and leaves tables and ledgers alone. */
  lemma QueuesMove(s: State, t: State)
    requires Inv(s) && SameBooks(s, t) && Evolves(s, t) && Tokens(t)
    requires forall job :: job in t.chargeJobs ==> job in s.chargeJobs || JobOk(t, job)
    requires forall job :: job in t.deadLetters ==>
               job in s.deadLetters || (EventOk(t, job.event) && job.attemptsMade == CHARGE_ATTEMPTS)
    requires forall r :: r in t.results ==> r in t.resultIds
    requires forall r :: r in t.resultIds ==> r in s.resultIds || ResultOk(t, r)
    requires forall q :: q in t.refundJobs ==> q in t.refundIds
    requires forall q :: q in t.refundIds ==> q in s.refundIds || RefundOk(t, q)
    requires forall h :: h in t.handlers ==> h in s.handlers || HandlerOk(t, h)
    ensures Keeps(s, t)
  {
    TablesUntouched(s, t);
    Reassemble(s, t);
  }

  lemma PublishResultKeeps(s: State, job: ChargeJob, result: PaymentResult, dedup: bool)
    requires Inv(s)
    ensures Keeps(s, PublishResult(s, job, result, dedup))
  {
    if ChargePublishing(job, result) in s.handlers {
      HandlerFact(s, ChargePublishing(job, result));
      PublishedResult(s, PublishResult(s, job, result, dedup), job, result, dedup);
      QueuesMove(s, PublishResult(s, job, result, dedup));
    } else {
      Stutters(s);
    }
  }

  lemma PublishedResult(s: State, t: State, job: ChargeJob, result: PaymentResult, dedup: bool)
    requires Tables(s) && Tokens(s) && ChargePublishing(job, result) in s.handlers
    requires HandlerOk(s, ChargePublishing(job, result))
    requires forall r :: r in s.results ==> r in s.resultIds
    requires t == PublishResult(s, job, result, dedup)
    ensures SameBooks(s, t) && Evolves(s, t) && Tokens(t)
    ensures forall r :: r in t.results ==> r in t.resultIds
    ensures forall r :: r in t.resultIds ==> r in s.resultIds || ResultOk(t, r)
    ensures forall h :: h in t.handlers ==> h in s.handlers || HandlerOk(t, h)
  {
    HandlersOwe(s, t);
    SameBooksEvolve(s, t);
    EventIds(s);
    IntentTokensKept(s, t);
    PublishedTokens(s, t, result);
    RefundTokensKept(s, t);
    PublishedMessages(s, t, job, result);
  }

  lemma PublishedTokens(s: State, t: State, result: PaymentResult)
    requires ResultTokens(s) && Evolves(s, t)
    requires t.resultIds == s.resultIds + {result}
    requires t.results == s.results + multiset{result} || (t.results == s.results && result in s.resultIds)
    ensures ResultTokens(t)
  {
    ResultTokensKept(s, t);
  }

  lemma PublishedMessages(s: State, t: State, job: ChargeJob, result: PaymentResult)
    requires HandlerOk(s, ChargePublishing(job, result)) && Evolves(s, t) && result in t.resultIds
    ensures ResultOk(t, result) && HandlerOk(t, ChargeAcking(job))
  {}

  /** Removing a job loses no intent if its own booking has been reported or exhausted. */
  lemma IntentTokensAfter(s: State, t: State, job: ChargeJob)
    requires IntentTokens(s) && Evolves(s, t) && t.outbox == s.outbox
    requires forall k :: 0 <= k < |s.outbox| ==> s.outbox[k].event.reservationId == k
    requires forall other :: other in s.chargeJobs && other != job ==> other in t.chargeJobs
    requires var id := job.event.reservationId;
      id < |s.outbox| ==> HasJob(t, id) || Exhausted(t, id) || Reported(t, id)
    ensures IntentTokens(t)
  {
    forall k | 0 <= k < |t.outbox| ensures IntentToken(t, k) {
      assert IntentToken(s, k);
      if HasJob(s, k) && k != job.event.reservationId {
        var n: nat :| n < CHARGE_ATTEMPTS && ChargeJob(s.outbox[k].event, n) in s.chargeJobs;
        assert ChargeJob(t.outbox[k].event, n) in t.chargeJobs;
      }
    }
  }

  /** A step that takes a charge job off its queue, or puts it back with one attempt more. */
  lemma JobMoves(s: State, t: State, job: ChargeJob)
    requires Inv(s)
    requires t == s.(chargeJobs := t.chargeJobs, exhausted := t.exhausted, handlers := t.handlers)
    requires s.exhausted <= t.exhausted
    requires forall h :: h in s.handlers && h.CancelWritten? ==> h in t.handlers
    requires forall other :: other in s.chargeJobs && other != job ==> other in t.chargeJobs
    requires forall other :: other in t.chargeJobs && other !in s.chargeJobs ==> JobOk(s, other)
    requires forall h :: h in t.handlers && h !in s.handlers ==> HandlerOk(t, h)
    requires var id := job.event.reservationId;
      id < |s.outbox| ==> HasJob(t, id) || Exhausted(t, id) || Reported(s, id)
    ensures Keeps(s, t)
  {
    HandlersOwe(s, t);
    SameBooksEvolve(s, t);
    MessagesSurvive(s, t);
    EventIds(s);
    IntentTokensAfter(s, t, job);
    ResultTokensKept(s, t);
    RefundTokensKept(s, t);
    QueuesMove(s, t);
  }

  lemma AckChargeKeeps(s: State, job: ChargeJob)
    requires Inv(s)
    ensures Keeps(s, AckCharge(s, job))
  {
    if ChargeAcking(job) in s.handlers {
      HandlerFact(s, ChargeAcking(job));
      JobMoves(s, AckCharge(s, job), job);
    } else {
      Stutters(s);
    }
  }

  lemma ThrowChargeKeeps(s: State, h: Handler)
    requires Inv(s)
    ensures Keeps(s, ThrowCharge(s, h))
  {
    if h !in s.handlers || !Throws(h) {
      Stutters(s);
    } else if h.job !in s.chargeJobs {
      HandlerLeaves(s, h);
    } else if h.job.attemptsMade + 1 < CHARGE_ATTEMPTS {
      RetryKeeps(s, ThrowCharge(s, h), h);
    } else {
      ExhaustKeeps(s, ThrowCharge(s, h), h);
    }
  }

  lemma RetryKeeps(s: State, t: State, h: Handler)
    requires Inv(s) && h in s.handlers && Throws(h) && h.job in s.chargeJobs
    requires h.job.attemptsMade + 1 < CHARGE_ATTEMPTS && t == ThrowCharge(s, h)
    ensures Keeps(s, t)
  {
    RetriedJob(s, t, h);
    RetryMoves(s, t, h);
  }

  lemma RetryMoves(s: State, t: State, h: Handler)
    requires Inv(s) && Throws(h) && HasJob(t, h.job.event.reservationId)
    requires JobOk(s, h.job.(attemptsMade := h.job.attemptsMade + 1))
    requires t == s.(chargeJobs := s.chargeJobs - multiset{h.job}
                                   + multiset{h.job.(attemptsMade := h.job.attemptsMade + 1)},
                     handlers := s.handlers - multiset{h})
    ensures Keeps(s, t)
  {
    RetryShape(s, t, h);
    JobMoves(s, t, h.job);
  }

  lemma RetryShape(s: State, t: State, h: Handler)
    requires Throws(h) && JobOk(s, h.job.(attemptsMade := h.job.attemptsMade + 1))
    requires t == s.(chargeJobs := s.chargeJobs - multiset{h.job}
                                   + multiset{h.job.(attemptsMade := h.job.attemptsMade + 1)},
                     handlers := s.handlers - multiset{h})
    ensures forall g :: g in s.handlers && g.CancelWritten? ==> g in t.handlers
    ensures forall g :: g in t.handlers ==> g in s.handlers
    ensures forall other :: other in s.chargeJobs && other != h.job ==> other in t.chargeJobs
    ensures forall other :: other in t.chargeJobs && other !in s.chargeJobs ==> JobOk(s, other)
  {}

  lemma RetriedJob(s: State, t: State, h: Handler)
    requires Tables(s) && h in s.handlers && Throws(h) && h.job in s.chargeJobs && JobOk(s, h.job)
    requires h.job.attemptsMade + 1 < CHARGE_ATTEMPTS && t == ThrowCharge(s, h)
    ensures HasJob(t, h.job.event.reservationId)
    ensures JobOk(s, h.job.(attemptsMade := h.job.attemptsMade + 1))
    ensures t == s.(chargeJobs := s.chargeJobs - multiset{h.job}
                                  + multiset{h.job.(attemptsMade := h.job.attemptsMade + 1)},
                    handlers := s.handlers - multiset{h})
  {
    var id, again := h.job.event.reservationId, h.job.(attemptsMade := h.job.attemptsMade + 1);
    assert RowOk(s, id);
    assert again in t.chargeJobs && again == ChargeJob(t.outbox[id].event, again.attemptsMade);
  }

  lemma ExhaustKeeps(s: State, t: State, h: Handler)
    requires Inv(s) && h in s.handlers && Throws(h) && h.job in s.chargeJobs
    requires h.job.attemptsMade + 1 >= CHARGE_ATTEMPTS && t == ThrowCharge(s, h)
    ensures Keeps(s, t)
  {
    ExhaustedJob(s, t, h);
    ExhaustMoves(s, t, h);
  }

  lemma ExhaustedJob(s: State, t: State, h: Handler)
    requires Tables(s) && h in s.handlers && Throws(h) && h.job in s.chargeJobs && JobOk(s, h.job)
    requires h.job.attemptsMade + 1 >= CHARGE_ATTEMPTS && t == ThrowCharge(s, h)
    ensures Exhausted(t, h.job.event.reservationId)
    ensures HandlerOk(t, FailureNotice(h.job.(attemptsMade := h.job.attemptsMade + 1)))
  {
    assert RowOk(s, h.job.event.reservationId);
  }

  lemma ExhaustMoves(s: State, t: State, h: Handler)
    requires Inv(s) && h in s.handlers && Throws(h) && Exhausted(t, h.job.event.reservationId)
    requires HandlerOk(t, FailureNotice(h.job.(attemptsMade := h.job.attemptsMade + 1)))
    requires t == s.(
               chargeJobs := s.chargeJobs - multiset{h.job},
               exhausted := s.exhausted + multiset{h.job.(attemptsMade := h.job.attemptsMade + 1)},
               handlers := s.handlers - multiset{h}
                           + multiset{FailureNotice(h.job.(attemptsMade := h.job.attemptsMade + 1))})
    ensures Keeps(s, t)
  {
    ExhaustShape(s, t, h);
    JobMoves(s, t, h.job);
  }

  lemma ExhaustShape(s: State, t: State, h: Handler)
    requires Throws(h)
    requires t == s.(
               chargeJobs := s.chargeJobs - multiset{h.job},
               exhausted := s.exhausted + multiset{h.job.(attemptsMade := h.job.attemptsMade + 1)},
               handlers := s.handlers - multiset{h}
                           + multiset{FailureNotice(h.job.(attemptsMade := h.job.attemptsMade + 1))})
    ensures s.exhausted <= t.exhausted
    ensures forall g :: g in s.handlers && g.CancelWritten? ==> g in t.handlers
    ensures forall g :: g in t.handlers && g !in s.handlers ==>
        g == FailureNotice(h.job.(attemptsMade := h.job.attemptsMade + 1))
    ensures forall other :: other in s.chargeJobs && other != h.job ==> other in t.chargeJobs
    ensures forall other :: other in t.chargeJobs ==> other in s.chargeJobs
  {}

  lemma DeadLetterKeeps(s: State, job: ChargeJob)
    requires Inv(s)
    ensures Keeps(s, DeadLetterJob(s, job))
  {
    if FailureNotice(job) in s.handlers {
      HandlerFact(s, FailureNotice(job));
      DeadLetterTokens(s, DeadLetterJob(s, job), job);
      QueuesMove(s, DeadLetterJob(s, job));
    } else {
      Stutters(s);
    }
  }

  lemma DeadLetterTokens(s: State, t: State, job: ChargeJob)
    requires Tables(s) && Tokens(s) && FailureNotice(job) in s.handlers && HandlerOk(s, FailureNotice(job))
    requires t == DeadLetterJob(s, job)
    ensures SameBooks(s, t) && Evolves(s, t) && Tokens(t) && EventOk(t, job.event)
  {
    HandlersOwe(s, t);
    SameBooksEvolve(s, t);
    EventIds(s);
    IntentTokensKept(s, t);
    ResultTokensKept(s, t);
    RefundTokensKept(s, t);
  }

  // ---------------------------------------------------------------------------------------------
  // Settlement

  lemma TakeResultKeeps(s: State, result: PaymentResult)
    requires Inv(s)
    ensures Keeps(s, TakeResult(s, result))
  {
    if result in s.results {
      HandlerEnters(s, ResultTaken(result));
    } else {
      Stutters(s);
    }
  }

  lemma UpdateIfHeldKeeps(s: State, result: PaymentResult)
    requires Inv(s)
    ensures Keeps(s, UpdateIfHeld(s, result))
  {
    var h, id := ResultTaken(result), result.reservationId;
    if h !in s.handlers {
      Stutters(s);
    } else {
      HandlerFact(s, h);
      if s.reservations[id].status == HELD {
        SettleHeldTables(s, UpdateIfHeld(s, result), result);
        RowsMove(s, UpdateIfHeld(s, result));
      } else {
        HandlerAdvances(s, h, ResultChecking(result));
      }
    }
  }

  lemma SettleHeldEvolves(s: State, t: State, result: PaymentResult)
    requires ResultTaken(result) in s.handlers && t == UpdateIfHeld(s, result)
    requires result.reservationId < |s.reservations| && s.reservations[result.reservationId].status == HELD
    ensures Evolves(s, t)
  {
    forall k: Id | Handled(s, k) ensures Handled(t, k) {
      assert Kept(s, k) ==> Kept(t, k);
    }
  }

  lemma SettleHeldTables(s: State, t: State, result: PaymentResult)
    requires Tables(s) && ResultTaken(result) in s.handlers && ResultOk(s, result)
    requires s.reservations[result.reservationId].status == HELD
    requires t == UpdateIfHeld(s, result)
    ensures Tables(t) && Evolves(s, t) && SameQueues(s, t)
    ensures forall h :: h in t.handlers && h !in s.handlers ==> HandlerOk(t, h)
  {
    SettleHeldEvolves(s, t, result);
    RowFacts(s);
    StatusMovesKeepTables(s, t);
    SettleHeldHandlers(s, t, result);
  }

  lemma SettleHeldHandlers(s: State, t: State, result: PaymentResult)
    requires ResultTaken(result) in s.handlers && ResultOk(s, result) && Evolves(s, t)
    requires s.reservations[result.reservationId].status == HELD
    requires t == UpdateIfHeld(s, result)
    ensures SameQueues(s, t)
    ensures forall h :: h in t.handlers && h !in s.handlers ==> HandlerOk(t, h)
  {
    MessagesSurviveOne(s, t, result);
    assert result.PaymentSucceeded? ==> Kept(t, result.reservationId);
    assert Settled(t, result);
  }

  lemma MessagesSurviveOne(s: State, t: State, r: PaymentResult)
    requires Evolves(s, t) && ResultOk(s, r)
    ensures ResultOk(t, r)
  {}

  lemma CheckSettledKeeps(s: State, result: PaymentResult)
    requires Inv(s)
    ensures Keeps(s, CheckSettled(s, result))
  {
    var h, id := ResultChecking(result), result.reservationId;
    if h !in s.handlers {
      Stutters(s);
    } else {
      HandlerFact(s, h);
      if result.PaymentSucceeded? && s.reservations[id].status != CONFIRMED {
        HandlerAdvances(s, h, ResultRefunding(result));
      } else {
        HandlerAdvances(s, h, ResultAcking(result));
      }
    }
  }

  lemma RequestRefundKeeps(s: State, result: PaymentResult, dedup: bool)
    requires Inv(s)
    ensures Keeps(s, RequestRefund(s, result, dedup))
  {
    var h, q := ResultRefunding(result), RefundRequested(result.reservationId, result.idempotencyKey);
    if h in s.handlers {
      HandlerFact(s, h);
      RequestedRefund(s, RequestRefund(s, result, dedup), result, dedup);
      AddRefundKeeps(s, RequestRefund(s, result, dedup), q, dedup);
    } else {
      Stutters(s);
    }
  }

  lemma RequestedRefund(s: State, t: State, result: PaymentResult, dedup: bool)
    requires RefundTokens(s) && ResultRefunding(result) in s.handlers && HandlerOk(s, ResultRefunding(result))
    requires t == RequestRefund(s, result, dedup)
    ensures forall h :: h in t.handlers && h !in s.handlers ==> HandlerOk(t, h)
  {
    var q := RefundRequested(result.reservationId, result.idempotencyKey);
    assert q in t.refundJobs || q.reservationId in t.refunds;
    assert Handled(t, result.reservationId);
  }

  lemma AckResultKeeps(s: State, result: PaymentResult)
    requires Inv(s)
    ensures Keeps(s, AckResult(s, result))
  {
    if ResultAcking(result) in s.handlers {
      HandlerFact(s, ResultAcking(result));
      AckedResult(s, AckResult(s, result), result);
      QueuesMove(s, AckResult(s, result));
    } else {
      Stutters(s);
    }
  }

  lemma AckedResult(s: State, t: State, result: PaymentResult)
    requires Tables(s) && Tokens(s) && ResultAcking(result) in s.handlers && HandlerOk(s, ResultAcking(result))
    requires t == AckResult(s, result)
    ensures SameBooks(s, t) && Evolves(s, t) && Tokens(t)
  {
    HandlersOwe(s, t);
    SameBooksEvolve(s, t);
    EventIds(s);
    IntentTokensKept(s, t);
    RefundTokensKept(s, t);
  }

  // ---------------------------------------------------------------------------------------------
  // The refund

  lemma TakeRefundKeeps(s: State, q: RefundRequested)
    requires Inv(s)
    ensures Keeps(s, TakeRefund(s, q))
  {
    if q in s.refundJobs {
      HandlerEnters(s, RefundTaken(q));
    } else {
      Stutters(s);
    }
  }

  /** A recorded charge is either still refundable or has been refunded. */
  lemma RefundableOrRefunded(s: State, key: Id)
    requires Tables(s) && Recorded(s, key)
    ensures s.payments[key].status == SUCCEEDED || key in s.refunds
  {
    assert PaymentOk(s, key);
  }

  lemma LookupRefundableKeeps(s: State, q: RefundRequested)
    requires Inv(s)
    ensures Keeps(s, LookupRefundable(s, q))
  {
    var h, key := RefundTaken(q), q.idempotencyKey;
    if h !in s.handlers {
      Stutters(s);
    } else {
      HandlerFact(s, h);
      if s.payments[key].status == SUCCEEDED {
        HandlerAdvances(s, h, RefundCalling(q));
      } else {
        RefundableOrRefunded(s, key);
        HandlerAdvances(s, h, RefundAcking(q));
      }
    }
  }

  lemma RefundedMovesOk(s: State, key: Id)
    requires MovesOk(s.charges, s.refunds, s.moves) && key !in s.refunds && Paid(s, key)
    ensures MovesOk(s.charges, s.refunds + {key}, s.moves + [GiveBack(key, AmountTaken(s.charges, key))])
  {
    var move := GiveBack(key, AmountTaken(s.charges, key));
    forall k: Id ensures TallyOf(s.moves + [move], k) == LedgerTally(s.charges, s.refunds + {key}, k) {
      TallyAppend(s.moves, move, k);
      assert TallyOf(s.moves, k) == LedgerTally(s.charges, s.refunds, k);
    }
  }

  lemma RefundKeepsTables(s: State, t: State, key: Id)
    requires Tables(s) && Paid(s, key) && Recorded(s, key) && Inactive(s, key)
    requires t == s.(refunds := s.refunds + {key}, moves := t.moves, handlers := t.handlers)
    ensures Tables(t)
  {
    forall i | 0 <= i < |t.reservations| ensures RowOk(t, i) {
      assert RowOk(s, i);
    }
    forall k | k in t.payments ensures PaymentOk(t, k) {
      assert PaymentOk(s, k);
    }
    forall k: Id ensures LedgerOk(t, k) {
      assert LedgerOk(s, k);
    }
  }

  lemma RefundEvolves(s: State, t: State, key: Id)
    requires s.moves <= t.moves
    requires t == s.(refunds := s.refunds + {key}, moves := t.moves, handlers := t.handlers)
    requires forall h :: h in s.handlers && h.CancelWritten? ==> h in t.handlers
    ensures Evolves(s, t)
  {}

  lemma CallRefundKeeps(s: State, q: RefundRequested)
    requires Inv(s)
    ensures Keeps(s, CallRefund(s, q))
  {
    var h, key := RefundCalling(q), q.idempotencyKey;
    if h !in s.handlers {
      Stutters(s);
    } else {
      HandlerFact(s, h);
      if key in s.refunds {
        HandlerAdvances(s, h, RefundRecording(q));
      } else {
        FirstRefund(s, CallRefund(s, q), q);
        FirstRefundKeeps(s, CallRefund(s, q), q);
      }
    }
  }

  lemma FirstRefund(s: State, t: State, q: RefundRequested)
    requires Tables(s) && MovesOk(s.charges, s.refunds, s.moves) && RefundOk(s, q)
    requires RefundCalling(q) in s.handlers && q.idempotencyKey !in s.refunds && t == CallRefund(s, q)
    ensures Evolves(s, t) && Tables(t) && MovesOk(t.charges, t.refunds, t.moves)
  {
    RefundEvolves(s, t, q.idempotencyKey);
    RefundedMovesOk(s, q.idempotencyKey);
    RefundKeepsTables(s, t, q.idempotencyKey);
  }

  lemma FirstRefundKeeps(s: State, t: State, q: RefundRequested)
    requires Inv(s) && Evolves(s, t) && Tables(t) && MovesOk(t.charges, t.refunds, t.moves)
    requires RefundOk(s, q) && q in s.refundIds
    requires t == s.(refunds := s.refunds + {q.idempotencyKey}, moves := t.moves,
                     handlers := s.handlers - multiset{RefundCalling(q)} + multiset{RefundRecording(q)})
    ensures Keeps(s, t)
  {
    TokensUntouched(s, t);
    MessagesSurvive(s, t);
    assert HandlerOk(t, RefundRecording(q));
    Reassemble(s, t);
  }

  lemma RecordRefundKeeps(s: State, q: RefundRequested)
    requires Inv(s)
    ensures Keeps(s, RecordRefund(s, q))
  {
    if RefundRecording(q) in s.handlers {
      HandlerFact(s, RefundRecording(q));
      RecordedRefund(s, RecordRefund(s, q), q);
      RecordedRefundHandlers(s, RecordRefund(s, q), q);
      PaymentsMove(s, RecordRefund(s, q), q.idempotencyKey);
    } else {
      Stutters(s);
    }
  }

  lemma RecordedRefund(s: State, t: State, q: RefundRequested)
    requires Tables(s) && RefundRecording(q) in s.handlers && HandlerOk(s, RefundRecording(q))
    requires t == RecordRefund(s, q)
    ensures OnlyPaymentsDiffer(s, t) && PaymentOk(t, q.idempotencyKey)
  {
    assert PaymentOk(s, q.idempotencyKey);
  }

  lemma RecordedRefundHandlers(s: State, t: State, q: RefundRequested)
    requires RefundRecording(q) in s.handlers && HandlerOk(s, RefundRecording(q))
    requires t == RecordRefund(s, q)
    ensures forall h :: h in s.handlers && h.CancelWritten? ==> h in t.handlers
    ensures forall h :: h in t.handlers && h !in s.handlers ==> HandlerOk(t, h)
  {}

  lemma AckRefundKeeps(s: State, q: RefundRequested)
    requires Inv(s)
    ensures Keeps(s, AckRefund(s, q))
  {
    if RefundAcking(q) in s.handlers {
      HandlerFact(s, RefundAcking(q));
      AckedRefund(s, AckRefund(s, q), q);
      QueuesMove(s, AckRefund(s, q));
    } else {
      Stutters(s);
    }
  }

  lemma AckedRefund(s: State, t: State, q: RefundRequested)
    requires Tables(s) && Tokens(s) && RefundAcking(q) in s.handlers && HandlerOk(s, RefundAcking(q))
    requires t == AckRefund(s, q)
    ensures SameBooks(s, t) && Evolves(s, t) && Tokens(t)
  {
    forall k: Id | Owed(s, k) ensures Owed(t, k) {
      assert RefundRequested(k, k) in s.refundJobs && RefundRequested(k, k) !in t.refundJobs ==>
        q == RefundRequested(k, k);
    }
    SameBooksEvolve(s, t);
    EventIds(s);
    IntentTokensKept(s, t);
    ResultTokensKept(s, t);
  }

  // ---------------------------------------------------------------------------------------------
  // Crashes

  lemma CrashEvolves(s: State, t: State, h: Handler)
    requires h in s.handlers && t == CrashHandler(s, h)
    ensures Evolves(s, t)
  {}

  lemma CrashKeepsTables(s: State, t: State, h: Handler)
    requires Tables(s) && h in s.handlers && HandlerOk(s, h) && t == CrashHandler(s, h)
    ensures Tables(t)
  {
    RowFacts(s);
    StatusMovesKeepTables(s, t);
  }

  lemma CrashHandlerKeeps(s: State, h: Handler)
    requires Inv(s)
    ensures Keeps(s, CrashHandler(s, h))
  {
    if h in s.handlers {
      HandlerFact(s, h);
      CrashKeepsTables(s, CrashHandler(s, h), h);
      CrashedTokens(s, CrashHandler(s, h), h);
      Reassemble(s, CrashHandler(s, h));
    } else {
      Stutters(s);
    }
  }

  lemma CrashedTokens(s: State, t: State, h: Handler)
    requires Tables(s) && Tokens(s) && h in s.handlers && t == CrashHandler(s, h)
    ensures Evolves(s, t) && Tokens(t)
  {
    CrashEvolves(s, t, h);
    EventIds(s);
    IntentTokensKept(s, t);
    ResultTokensKept(s, t);
    RefundTokensKept(s, t);
  }

  // ---------------------------------------------------------------------------------------------

  /** `Apply` as a relation. */
  predicate Next(s: State, step: Step, t: State) {
    match step
    case Tick(now) => t == AdvanceClock(s, now)
    case HoldBegin(listing, checkIn, checkOut, nightly) => t == BeginHold(s, listing, checkIn, checkOut, nightly)
    case HoldClaim(h, deadlock) => t == ClaimSlot(s, h, deadlock)
    case CancelBegin(id) => t == BeginCancel(s, id)
    case CancelWrite(id, seen) => t == WriteCancelled(s, id, seen)
    case CancelEnqueue(id, dedup) => t == EnqueueCancelRefund(s, id, dedup)
    case SweepExpired(now) => t == ExpireHolds(s, now)
    case SweepCompleted(now) => t == CompleteStays(s, now)
    case RelayEnqueue(row, dedup) => t == EnqueueRow(s, row, dedup)
    case RelayMark(row) => t == MarkRow(s, row)
    case ChargeTake(job) => t == TakeCharge(s, job)
    case ChargeLookup(job) => t == LookupPayment(s, job)
    case ChargeClaim(job) => t == ClaimPayment(s, job)
    case ChargeCall(job, accept) => t == CallProvider(s, job, accept)
    case ChargeRecord(job, outcome) => t == RecordOutcome(s, job, outcome)
    case ChargePublish(job, result, dedup) => t == PublishResult(s, job, result, dedup)
    case ChargeAck(job) => t == AckCharge(s, job)
    case ChargeThrow(h) => t == ThrowCharge(s, h)
    case DeadLetter(job) => t == DeadLetterJob(s, job)
    case ResultTake(result) => t == TakeResult(s, result)
    case ResultUpdate(result) => t == UpdateIfHeld(s, result)
    case ResultCheck(result) => t == CheckSettled(s, result)
    case ResultRefund(result, dedup) => t == RequestRefund(s, result, dedup)
    case ResultAck(result) => t == AckResult(s, result)
    case RefundTake(q) => t == TakeRefund(s, q)
    case RefundLookup(q) => t == LookupRefundable(s, q)
    case RefundCall(q) => t == CallRefund(s, q)
    case RefundRecord(q) => t == RecordRefund(s, q)
    case RefundAck(q) => t == AckRefund(s, q)
    case Crash(h) => t == CrashHandler(s, h)
  }

  lemma ApplyIsNext(s: State, step: Step)
    ensures Next(s, step, Apply(s, step))
  {}

  /** The steps of guests, sweeps and relays. */
  predicate IsBooking(step: Step) {
    || step.Tick? || step.HoldBegin? || step.HoldClaim? || step.CancelBegin? || step.CancelWrite? || step.CancelEnqueue?
    || step.SweepExpired? || step.SweepCompleted? || step.RelayEnqueue? || step.RelayMark?
  }

  /** A charge on its way to the provider and back. */
  predicate IsCharge(step: Step) {
    step.ChargeTake? || step.ChargeLookup? || step.ChargeClaim? || step.ChargeCall? || step.ChargeRecord?
  }

  /** How a charge job's handler ends, and how any handler dies. */
  predicate IsEnding(step: Step) {
    step.ChargePublish? || step.ChargeAck? || step.ChargeThrow? || step.DeadLetter? || step.Crash?
  }

  /** Settlement. */
  predicate IsResult(step: Step) {
    step.ResultTake? || step.ResultUpdate? || step.ResultCheck? || step.ResultRefund? || step.ResultAck?
  }

  /** The refund. */
  predicate IsRefund(step: Step) {
    step.RefundTake? || step.RefundLookup? || step.RefundCall? || step.RefundRecord? || step.RefundAck?
  }

  lemma BookingKeeps(s: State, step: Step, t: State)
    requires Inv(s) && Next(s, step, t) && IsBooking(step)
    ensures Keeps(s, t)
  {
    match step
    case Tick(now) => AdvanceClockKeeps(s, now);
    case HoldBegin(listing, checkIn, checkOut, nightly) => BeginHoldKeeps(s, listing, checkIn, checkOut, nightly);
    case HoldClaim(hold, deadlock) => ClaimSlotKeeps(s, hold, deadlock);
    case CancelBegin(id) => BeginCancelKeeps(s, id);
    case CancelWrite(id, seen) => WriteCancelledKeeps(s, id, seen);
    case CancelEnqueue(id, dedup) => EnqueueCancelRefundKeeps(s, id, dedup);
    case SweepExpired(now) => ExpireHoldsKeeps(s, now);
    case SweepCompleted(now) => CompleteStaysKeeps(s, now);
    case RelayEnqueue(row, dedup) => EnqueueRowKeeps(s, row, dedup);
    case RelayMark(row) => MarkRowKeeps(s, row);
  }

  lemma ChargeKeeps(s: State, step: Step, t: State)
    requires Inv(s) && Next(s, step, t) && IsCharge(step)
    ensures Keeps(s, t)
  {
    match step
    case ChargeTake(job) => TakeChargeKeeps(s, job);
    case ChargeLookup(job) => LookupPaymentKeeps(s, job);
    case ChargeClaim(job) => ClaimPaymentKeeps(s, job);
    case ChargeCall(job, accept) => CallProviderKeeps(s, job, accept);
    case ChargeRecord(job, outcome) => RecordOutcomeKeeps(s, job, outcome);
  }

  lemma EndingKeeps(s: State, step: Step, t: State)
    requires Inv(s) && Next(s, step, t) && IsEnding(step)
    ensures Keeps(s, t)
  {
    match step
    case ChargePublish(job, result, dedup) => PublishResultKeeps(s, job, result, dedup);
    case ChargeAck(job) => AckChargeKeeps(s, job);
    case ChargeThrow(handler) => ThrowChargeKeeps(s, handler);
    case DeadLetter(job) => DeadLetterKeeps(s, job);
    case Crash(handler) => CrashHandlerKeeps(s, handler);
  }

  lemma ResultKeeps(s: State, step: Step, t: State)
    requires Inv(s) && Next(s, step, t) && IsResult(step)
    ensures Keeps(s, t)
  {
    match step
    case ResultTake(result) => TakeResultKeeps(s, result);
    case ResultUpdate(result) => UpdateIfHeldKeeps(s, result);
    case ResultCheck(result) => CheckSettledKeeps(s, result);
    case ResultRefund(result, dedup) => RequestRefundKeeps(s, result, dedup);
    case ResultAck(result) => AckResultKeeps(s, result);
  }

  lemma RefundKeeps(s: State, step: Step, t: State)
    requires Inv(s) && Next(s, step, t) && IsRefund(step)
    ensures Keeps(s, t)
  {
    match step
    case RefundTake(request) => TakeRefundKeeps(s, request);
    case RefundLookup(request) => LookupRefundableKeeps(s, request);
    case RefundCall(request) => CallRefundKeeps(s, request);
    case RefundRecord(request) => RecordRefundKeeps(s, request);
    case RefundAck(request) => AckRefundKeeps(s, request);
  }

  /** One step of the protocol, whichever it is. */
  lemma NextKeeps(s: State, step: Step, t: State)
    requires Inv(s) && Next(s, step, t)
    ensures Keeps(s, t)
  {
    if IsBooking(step) {
      BookingKeeps(s, step, t);
    } else if IsCharge(step) {
      ChargeKeeps(s, step, t);
    } else if IsEnding(step) {
      EndingKeeps(s, step, t);
    } else if IsResult(step) {
      ResultKeeps(s, step, t);
    } else {
      RefundKeeps(s, step, t);
    }
  }

  lemma StepKeeps(s: State, step: Step)
    requires Inv(s)
    ensures Keeps(s, Apply(s, step))
  {
    ApplyIsNext(s, step);
    NextKeeps(s, step, Apply(s, step));
  }

  /** Every run from the empty system. */
  lemma {:induction false} RunKeeps(clock: Instant, holdTtl: nat, steps: seq<Step>)
    ensures Inv(Run(Init(clock, holdTtl), steps))
    decreases |steps|
  {
    if steps == [] {
      InitInv(clock, holdTtl);
    } else {
      var before := steps[..|steps| - 1];
      RunKeeps(clock, holdTtl, before);
      StepKeeps(Run(Init(clock, holdTtl), before), steps[|steps| - 1]);
    }
  }
}

/** Every step keeps the invariant and only ever adds facts. */
module SagaSteps {
  import opened BookingTypes
  import opened Intervals
  import opened Saga
  import opened SagaInvariant
  import Nights

  ghost predicate Keeps(s: State, t: State) {
    Evolves(s, t) && Inv(t)
  }

  // ---------------------------------------------------------------------------------------------
  // The parts of the invariant, one at a time

  /** Tables only depend on the rows, the ledgers and the clock. */
  lemma TablesUntouched(s: State, t: State)
    requires Tables(s) && s.clock <= t.clock && s.holdTtl == t.holdTtl
    requires t.reservations == s.reservations && t.outbox == s.outbox && t.payments == s.payments
    requires t.charges == s.charges && t.refunds == s.refunds && t.lostRefunds == s.lostRefunds
    ensures Tables(t)
  {
    forall i | 0 <= i < |t.reservations| ensures RowOk(t, i) {
      assert RowOk(s, i);
    }
    forall k | k in t.payments ensures PaymentOk(t, k) {
      assert PaymentOk(s, k);
    }
    forall k: Id ensures LedgerOk(t, k) {
      assert LedgerOk(s, k);
    }
  }

  lemma IntentTokensKept(s: State, t: State)
    requires IntentTokens(s) && Evolves(s, t)
    requires forall job :: job in s.chargeJobs ==> job in t.chargeJobs
    requires forall k :: 0 <= k < |t.outbox| && t.outbox[k].enqueues > 0 ==>
               (k < |s.outbox| && s.outbox[k].enqueues > 0) || HasJob(t, k)
    ensures IntentTokens(t)
  {
    forall k | 0 <= k < |t.outbox| ensures IntentToken(t, k) {
      if k < |s.outbox| {
        assert IntentToken(s, k);
      }
    }
  }

  lemma ResultTokensKept(s: State, t: State)
    requires ResultTokens(s) && Evolves(s, t)
    requires forall r :: r in s.results ==> r in t.results
    requires forall r :: r in t.resultIds ==> r in s.resultIds || r in t.results
    ensures ResultTokens(t)
  {}

  lemma RefundTokensKept(s: State, t: State)
    requires RefundTokens(s) && Evolves(s, t)
    requires forall q :: q in s.refundJobs ==> q in t.refundJobs
    requires forall q :: q in t.refundIds ==> q in s.refundIds || q in t.refundJobs
    requires forall k :: k in t.refunds ==> k in s.refunds || RefundAsked(s, k)
    ensures RefundTokens(t)
  {}

  lemma HandlersSurvive(s: State, t: State)
    requires Evolves(s, t) && Messages(s)
    requires forall h :: h in t.handlers ==> h in s.handlers || HandlerOk(t, h)
    ensures forall h :: h in t.handlers ==> HandlerOk(t, h)
  {
    forall h | h in t.handlers ensures HandlerOk(t, h) {
      if h in s.handlers {
        HandlerSurvives(s, t, h);
      }
    }
  }

  /** Put together again: old messages survive, new ones must be in order. */
  lemma Reassemble(s: State, t: State)
    requires Inv(s) && Evolves(s, t) && Tables(t) && MovesOk(t.charges, t.refunds, t.moves) && Tokens(t)
    requires forall job :: job in t.chargeJobs ==> job in s.chargeJobs || JobOk(t, job)
    requires forall job :: job in t.deadLetters ==>
               job in s.deadLetters || (EventOk(t, job.event) && job.attemptsMade == CHARGE_ATTEMPTS)
    requires forall r :: r in t.results ==> r in t.resultIds
    requires forall r :: r in t.resultIds ==> r in s.resultIds || ResultOk(t, r)
    requires forall q :: q in t.refundJobs ==> q in t.refundIds
    requires forall q :: q in t.refundIds ==> q in s.refundIds || RefundOk(t, q)
    requires forall h :: h in t.handlers ==> h in s.handlers || HandlerOk(t, h)
    ensures Keeps(s, t)
  {
    MessagesSurvive(s, t);
    HandlersSurvive(s, t);
  }

  /** Neither queues nor their job ids differ. */
  predicate SameQueues(s: State, t: State) {
    && t.chargeJobs == s.chargeJobs && t.exhausted == s.exhausted && t.deadLetters == s.deadLetters
    && t.results == s.results && t.resultIds == s.resultIds
    && t.refundJobs == s.refundJobs && t.refundIds == s.refundIds
  }

  lemma TokensUntouched(s: State, t: State)
    requires Tables(s) && Tokens(s) && Evolves(s, t) && SameQueues(s, t)
    requires forall k :: k in t.refunds ==> k in s.refunds || RefundAsked(s, k)
    requires forall k :: 0 <= k < |t.outbox| && t.outbox[k].enqueues > 0 ==> k < |s.outbox| && s.outbox[k].enqueues > 0
    ensures Tokens(t)
  {
    EventIds(s);
    IntentTokensKept(s, t);
    ResultTokensKept(s, t);
    RefundTokensKept(s, t);
  }

  lemma EventIds(s: State)
    requires Tables(s)
    ensures forall k :: 0 <= k < |s.outbox| ==> s.outbox[k].event.reservationId == k
  {
    forall k | 0 <= k < |s.outbox| ensures s.outbox[k].event.reservationId == k {
      assert RowOk(s, k);
    }
  }

  /** Tables, ledgers and records are as they were; queues and handlers may differ. */
  predicate SameBooks(s: State, t: State) {
    && t.clock == s.clock && t.holdTtl == s.holdTtl
    && t.reservations == s.reservations && t.outbox == s.outbox && t.payments == s.payments
    && t.charges == s.charges && t.refunds == s.refunds && t.moves == s.moves
    && t.lostRefunds == s.lostRefunds
    && s.resultIds <= t.resultIds && s.refundIds <= t.refundIds
    && s.exhausted <= t.exhausted && s.lostNotices <= t.lostNotices
  }

  lemma SameBooksEvolve(s: State, t: State)
    requires SameBooks(s, t)
    requires forall k: Id :: Owed(s, k) ==> Owed(t, k)
    ensures Evolves(s, t)
  {}

  lemma HandlersOwe(s: State, t: State)
    requires t.refundJobs == s.refundJobs && t.refunds == s.refunds && t.lostRefunds == s.lostRefunds
    requires forall h :: h in s.handlers && h.CancelWritten? ==> h in t.handlers
    ensures forall k: Id :: Owed(s, k) ==> Owed(t, k)
  {}

  /** A step that only moves handlers along, and drops none that carries a token. */
  lemma HandlersMove(s: State, t: State)
    requires Inv(s) && s.(handlers := t.handlers) == t
    requires forall h :: h in t.handlers && h !in s.handlers ==> HandlerOk(s, h)
    requires forall h :: h in s.handlers && h.CancelWritten? ==> h in t.handlers
    ensures Keeps(s, t)
  {
    HandlersOwe(s, t);
    SameBooksEvolve(s, t);
    TablesUntouched(s, t);
    forall h | h in t.handlers && h !in s.handlers ensures HandlerOk(t, h) {
      HandlerSurvives(s, t, h);
    }
    TokensUntouched(s, t);
    Reassemble(s, t);
  }

  lemma Stutters(s: State)
    requires Inv(s)
    ensures Keeps(s, s)
  {}

  lemma HandlerFact(s: State, h: Handler)
    requires Inv(s) && h in s.handlers
    ensures HandlerOk(s, h)
  {}

  lemma HandlerEnters(s: State, h: Handler)
    requires Inv(s) && HandlerOk(s, h)
    ensures Keeps(s, Enter(s, h))
  {
    HandlersMove(s, Enter(s, h));
  }

  lemma HandlerLeaves(s: State, h: Handler)
    requires Inv(s) && h in s.handlers && !h.CancelWritten?
    ensures Keeps(s, Leave(s, h))
  {
    HandlersMove(s, Leave(s, h));
  }

  lemma HandlerAdvances(s: State, from: Handler, to: Handler)
    requires Inv(s) && from in s.handlers && !from.CancelWritten?
    requires HandlerOk(s, to)
    ensures Keeps(s, Move(s, from, to))
  {
    HandlersMove(s, Move(s, from, to));
  }

  // ---------------------------------------------------------------------------------------------
  // Clock and holds

  lemma ClockEvolves(s: State, now: Instant)
    ensures Evolves(s, AdvanceClock(s, now))
  {}

  lemma AdvanceClockKeeps(s: State, now: Instant)
    requires Inv(s)
    ensures Keeps(s, AdvanceClock(s, now))
  {
    var t := AdvanceClock(s, now);
    ClockEvolves(s, now);
    TablesUntouched(s, t);
    TokensUntouched(s, t);
    Reassemble(s, t);
  }

  lemma BeginHoldKeeps(s: State, listing: Id, checkIn: Instant, checkOut: Instant, nightly: nat)
    requires Inv(s)
    ensures Keeps(s, BeginHold(s, listing, checkIn, checkOut, nightly))
  {
    if checkIn < checkOut && s.clock <= checkIn {
      HandlerEnters(s, HoldClaiming(listing, checkIn, checkOut, Nights.PriceTotal(checkIn, checkOut, nightly),
                                    s.clock, false));
    } else {
      Stutters(s);
    }
  }

  lemma NewStaysApart(s: State, r: Reservation)
    requires Tables(s) && Admits(s.reservations, r) && r.status == HELD && r.insertedAt == s.clock
    ensures forall i :: 0 <= i < |s.reservations| ==> Apart(s.reservations[i], r)
  {
    RowFacts(s);
    forall i | 0 <= i < |s.reservations| ensures Apart(s.reservations[i], r) {
      assert !Conflict(s.reservations[i], r);
    }
  }

  lemma InsertKeepsTables(s: State, t: State, r: Reservation)
    requires Tables(s) && Admits(s.reservations, r)
    requires r.status == HELD && r.checkIn < r.checkOut
    requires r.readAt <= r.checkIn && r.readAt <= r.insertedAt == s.clock && r.holdExpiresAt == s.clock + s.holdTtl
    requires t == s.(
               reservations := s.reservations + [r],
               outbox := s.outbox + [OutboxRow(HeldEvent(|s.reservations|, r.priceTotalCents), s.clock, false, 0)],
               handlers := t.handlers)
    ensures Tables(t)
  {
    AdmittedInsertKeepsNoOverlap(s.reservations, r);
    NewStaysApart(s, r);
    forall i | 0 <= i < |t.reservations| ensures RowOk(t, i) {
      if i < |s.reservations| {
        assert RowOk(s, i);
      }
    }
    forall k | k in t.payments ensures PaymentOk(t, k) {
      assert PaymentOk(s, k);
    }
    forall k: Id ensures LedgerOk(t, k) {
      assert LedgerOk(s, k);
    }
  }

  lemma InsertEvolves(s: State, t: State, h: Handler)
    requires h in s.handlers && h.HoldClaiming?
    requires t == ClaimSlot(s, h, false)
    ensures Evolves(s, t)
  {}

  lemma InsertKeeps(s: State, t: State, h: Handler)
    requires Inv(s) && h in s.handlers && h.HoldClaiming?
    requires Admits(s.reservations, NewReservation(s, h))
    requires t == ClaimSlot(s, h, false)
    ensures Keeps(s, t)
  {
    HandlerFact(s, h);
    InsertEvolves(s, t, h);
    InsertKeepsTables(s, t, NewReservation(s, h));
    TokensUntouched(s, t);
    Reassemble(s, t);
  }

  lemma ClaimSlotKeeps(s: State, h: Handler, deadlock: bool)
    requires Inv(s)
    ensures Keeps(s, ClaimSlot(s, h, deadlock))
  {
    if !h.HoldClaiming? || h !in s.handlers {
      Stutters(s);
    } else if deadlock && !h.retried {
      HandlerFact(s, h);
      HandlerAdvances(s, h, h.(retried := true));
    } else if deadlock || !Admits(s.reservations, NewReservation(s, h)) {
      HandlerLeaves(s, h);
    } else {
      InsertKeeps(s, ClaimSlot(s, h, deadlock), h);
    }
  }

  // ---------------------------------------------------------------------------------------------
  // Cancels and sweeps

  lemma BeginCancelKeeps(s: State, id: Id)
    requires Inv(s)
    ensures Keeps(s, BeginCancel(s, id))
  {
    if id < |s.reservations| && CANCELLED in AllowedTransitions(s.reservations[id].status) {
      RowFacts(s);
      HandlerEnters(s, CancelRead(id, s.reservations[id].status));
    } else {
      Stutters(s);
    }
  }

  /** Rows moving along the lifecycle keep the tables, given what their new statuses assert. */
  lemma StatusMovesKeepTables(s: State, t: State)
    requires Tables(s) && |t.reservations| == |s.reservations|
    requires forall i :: 0 <= i < |s.reservations| ==> RowEvolves(s.reservations[i], t.reservations[i])
    requires t.outbox == s.outbox && t.payments == s.payments && t.clock == s.clock && t.holdTtl == s.holdTtl
    requires t.charges == s.charges && t.refunds == s.refunds
    requires forall i :: 0 <= i < |s.reservations| && t.reservations[i].status == EXPIRED ==>
               s.reservations[i].status == EXPIRED || s.reservations[i].holdExpiresAt < t.clock
    requires forall i :: 0 <= i < |s.reservations| && t.reservations[i].status == CONFIRMED ==>
        Paid(s, i) && Recorded(s, i)
    requires forall i :: 0 <= i < |s.reservations| && t.reservations[i].status == COMPLETED ==>
               s.reservations[i].status in {CONFIRMED, COMPLETED} && t.reservations[i].checkOut < t.clock
    requires forall k :: k in t.lostRefunds ==>
               k in s.lostRefunds || (k < |t.reservations| && t.reservations[k].status == CANCELLED && Paid(s, k))
    ensures Tables(t)
  {
    NoRevivalKeepsNoOverlap(s.reservations, t.reservations);
    forall i, j | 0 <= i < j < |t.reservations| ensures Apart(t.reservations[i], t.reservations[j]) {
      assert Apart(s.reservations[i], s.reservations[j]);
    }
    forall i | 0 <= i < |t.reservations| ensures RowOk(t, i) {
      assert RowOk(s, i);
    }
    forall k | k in t.payments ensures PaymentOk(t, k) {
      assert PaymentOk(s, k);
    }
    forall k: Id ensures LedgerOk(t, k) {
      assert LedgerOk(s, k);
    }
  }

  /** A step that moves rows and handlers, and leaves ledgers and queues alone. */
  lemma RowsMove(s: State, t: State)
    requires Inv(s) && Evolves(s, t) && Tables(t) && SameQueues(s, t)
    requires t.outbox == s.outbox && t.charges == s.charges && t.refunds == s.refunds && t.moves == s.moves
    requires forall h :: h in t.handlers && h !in s.handlers ==> HandlerOk(t, h)
    ensures Keeps(s, t)
  {
    TokensUntouched(s, t);
    Reassemble(s, t);
  }

  lemma SweepEvolves(s: State, t: State)
    requires t == s.(reservations := t.reservations) && |t.reservations| == |s.reservations|
    requires forall i :: 0 <= i < |s.reservations| ==> RowEvolves(s.reservations[i], t.reservations[i])
    requires forall i :: 0 <= i < |s.reservations| && Kept(s, i) ==> Kept(t, i)
    ensures Evolves(s, t)
  {}

  lemma ExpireHoldsKeeps(s: State, now: Instant)
    requires Inv(s)
    ensures Keeps(s, ExpireHolds(s, now))
  {
    var t := ExpireHolds(s, now);
    SweepEvolves(s, t);
    SweepKeepsTables(s, t);
    RowsMove(s, t);
  }

  lemma CompleteStaysKeeps(s: State, now: Instant)
    requires Inv(s)
    ensures Keeps(s, CompleteStays(s, now))
  {
    var t := CompleteStays(s, now);
    SweepEvolves(s, t);
    SweepKeepsTables(s, t);
    RowsMove(s, t);
  }

  lemma SweepKeepsTables(s: State, t: State)
    requires Tables(s) && t == s.(reservations := t.reservations) && |t.reservations| == |s.reservations|
    requires forall i :: 0 <= i < |s.reservations| ==> RowEvolves(s.reservations[i], t.reservations[i])
    requires forall i :: 0 <= i < |s.reservations| ==>
               && (t.reservations[i].status == CONFIRMED ==> s.reservations[i].status == CONFIRMED)
               && (t.reservations[i].status == EXPIRED ==>
                     s.reservations[i].status == EXPIRED || s.reservations[i].holdExpiresAt < s.clock)
               && (t.reservations[i].status == COMPLETED ==>
                     || s.reservations[i].status == COMPLETED
                     || (s.reservations[i].status == CONFIRMED && s.reservations[i].checkOut < s.clock))
    requires forall k :: k in s.lostRefunds && k < |s.reservations| ==>
        t.reservations[k].status == s.reservations[k].status
    ensures Tables(t)
  {
    RowFacts(s);
    StatusMovesKeepTables(s, t);
  }

  lemma RowFacts(s: State)
    requires Tables(s)
    ensures forall i :: 0 <= i < |s.reservations| && Kept(s, i) ==> Paid(s, i) && Recorded(s, i)
    ensures forall i :: 0 <= i < |s.reservations| && s.reservations[i].status == COMPLETED ==>
        s.reservations[i].checkOut < s.clock
  {
    forall i | 0 <= i < |s.reservations|
      ensures Kept(s, i) ==> Paid(s, i) && Recorded(s, i)
      ensures s.reservations[i].status == COMPLETED ==> s.reservations[i].checkOut < s.clock
    {
      assert RowOk(s, i);
    }
  }

  /** What the write of a cancel does, as a relation. */
  predicate CancelsRow(s: State, t: State, id: Id, seen: Status)
    requires id < |s.reservations|
  {
    && t == s.(reservations := SetStatus(s.reservations, id, CANCELLED), lostRefunds := t.lostRefunds,
               handlers := t.handlers)
    && t.lostRefunds == (if LosesRefund(s, CancelWrite(id, seen)) then s.lostRefunds + {id} else s.lostRefunds)
    && t.handlers == s.handlers - multiset{CancelRead(id, seen)}
                     + (if seen == CONFIRMED then multiset{CancelWritten(id)} else multiset{})
  }

  lemma WriteCancelledShape(s: State, id: Id, seen: Status)
    requires CancelRead(id, seen) in s.handlers && id < |s.reservations|
    ensures CancelsRow(s, WriteCancelled(s, id, seen), id, seen)
  {}

  lemma CancelledEvolves(s: State, t: State, id: Id, seen: Status)
    requires id < |s.reservations| && CancelsRow(s, t, id, seen)
    ensures FactsEvolve(s, t)
  {}

  lemma CancelledHandles(s: State, t: State, id: Id, seen: Status, k: Id)
    requires id < |s.reservations| && CancelRead(id, seen) in s.handlers && CancelsRow(s, t, id, seen)
    requires Handled(s, k)
    ensures Handled(t, k)
  {}

  lemma CancelledEnters(s: State, t: State, id: Id, seen: Status)
    requires id < |s.reservations| && CancelsRow(s, t, id, seen)
    ensures forall h :: h in t.handlers && h !in s.handlers ==> h == CancelWritten(id) && seen == CONFIRMED
  {}

  lemma CancelledTables(s: State, t: State, id: Id, seen: Status)
    requires Tables(s) && id < |s.reservations| && CancelsRow(s, t, id, seen)
    ensures Tables(t)
  {
    RowFacts(s);
    CancelledEvolves(s, t, id, seen);
    StatusMovesKeepTables(s, t);
  }

  lemma WriteCancelledKeeps(s: State, id: Id, seen: Status)
    requires Inv(s)
    ensures Keeps(s, WriteCancelled(s, id, seen))
  {
    if CancelRead(id, seen) in s.handlers {
      HandlerFact(s, CancelRead(id, seen));
      WriteCancelledShape(s, id, seen);
      CancelledKeeps(s, WriteCancelled(s, id, seen), id, seen);
    } else {
      Stutters(s);
    }
  }

  lemma CancelledKeeps(s: State, t: State, id: Id, seen: Status)
    requires Inv(s) && CancelRead(id, seen) in s.handlers && id < |s.reservations| && CancelsRow(s, t, id, seen)
    ensures Keeps(s, t)
  {
    CancelledEvolves(s, t, id, seen);
    forall k: Id | Handled(s, k) ensures Handled(t, k) {
      CancelledHandles(s, t, id, seen, k);
    }
    CancelledTables(s, t, id, seen);
    CancelledEnters(s, t, id, seen);
    HandlerFact(s, CancelRead(id, seen));
    CancelledOwes(s, t, id, seen);
    RowsMove(s, t);
  }

  lemma CancelledOwes(s: State, t: State, id: Id, seen: Status)
    requires HandlerOk(s, CancelRead(id, seen)) && id < |s.reservations| && CancelsRow(s, t, id, seen)
    ensures seen == CONFIRMED ==> HandlerOk(t, CancelWritten(id))
  {}

  /** Putting a refund request on its queue, by whichever handler owes it. */
  lemma AddRefundKeeps(s: State, t: State, q: RefundRequested, dedup: bool)
    requires Inv(s) && RefundOk(s, q)
    requires t == AddRefund(s, q, dedup).(handlers := t.handlers)
    requires forall h :: h in t.handlers && h !in s.handlers ==> HandlerOk(t, h)
    requires forall h :: h in s.handlers && h.CancelWritten? && h !in t.handlers ==> h.id == q.reservationId
    ensures Keeps(s, t)
  {
    AddRefundOwes(s, t, q, dedup);
    SameBooksEvolve(s, t);
    TablesUntouched(s, t);
    EventIds(s);
    IntentTokensKept(s, t);
    ResultTokensKept(s, t);
    Reassemble(s, t);
  }

  lemma AddRefundOwes(s: State, t: State, q: RefundRequested, dedup: bool)
    requires RefundTokens(s) && q.reservationId == q.idempotencyKey
    requires t == AddRefund(s, q, dedup).(handlers := t.handlers)
    requires forall h :: h in s.handlers && h.CancelWritten? && h !in t.handlers ==> h.id == q.reservationId
    ensures RefundTokens(t)
    ensures forall k: Id :: Owed(s, k) ==> Owed(t, k)
  {
    assert q in t.refundJobs || q.reservationId in t.refunds;
    forall k: Id | Owed(s, k) ensures Owed(t, k) {
      if CancelWritten(k) in s.handlers && CancelWritten(k) !in t.handlers {
        assert q == RefundRequested(k, k);
      }
    }
  }

  lemma EnqueueCancelRefundKeeps(s: State, id: Id, dedup: bool)
    requires Inv(s)
    ensures Keeps(s, EnqueueCancelRefund(s, id, dedup))
  {
    if CancelWritten(id) in s.handlers {
      HandlerFact(s, CancelWritten(id));
      AddRefundKeeps(s, EnqueueCancelRefund(s, id, dedup), RefundRequested(id, id), dedup);
    } else {
      Stutters(s);
    }
  }
}

/** The saga never gets stuck: from every reachable state there is a way to finish everything that is
    queued or in flight, without losing a refund on the way. So settlement is not an empty promise. */
module Draining {
  import opened BookingTypes
  import opened Saga
  import opened SagaInvariant
  import SagaSteps
  import opened SagaTheorems
  import opened Operations

  /** What no step on the way out gives up. */
  predicate LosesNothing(s: State, t: State) {
    t.lostRefunds == s.lostRefunds && t.lostNotices == s.lostNotices
  }

  // ---------------------------------------------------------------------------------------------
  // Handlers in flight

  /** How a handler gets out of the way: the two that still owe something do it, the others die, and
      what they were working on is still queued. */
  function Dismiss(s: State, h: Handler): State {
    match h
    case CancelWritten(id) => EnqueueCancelRefund(s, id, false)
    case FailureNotice(job) => DeadLetterJob(s, job)
    case _ => CrashHandler(s, h)
  }

  lemma DismissLeads(s: State, h: Handler)
    requires h in s.handlers
    ensures Leads(s, Dismiss(s, h))
  {
    if h.CancelWritten? {
      EnqueueLeads(s, h.id);
    } else if h.FailureNotice? {
      NoticeLeads(s, h.job);
    } else {
      CrashLeads(s, h);
    }
  }

  lemma EnqueueLeads(s: State, id: Id)
    ensures Leads(s, EnqueueCancelRefund(s, id, false))
  {
    Stays(s);
    GuestStep(s, s, EnqueueCancelRefund(s, id, false), CancelEnqueue(id, false));
  }

  lemma NoticeLeads(s: State, job: ChargeJob)
    ensures Leads(s, DeadLetterJob(s, job))
  {
    Stays(s);
    ChargeStep(s, s, DeadLetterJob(s, job), DeadLetter(job));
  }

  lemma CrashLeads(s: State, h: Handler)
    ensures Leads(s, CrashHandler(s, h))
  {
    Stays(s);
    GuestStep(s, s, CrashHandler(s, h), Crash(h));
  }

  lemma DismissFrame(s: State, h: Handler)
    requires h in s.handlers
    ensures var t := Dismiss(s, h);
      && t.handlers == s.handlers - multiset{h} && LosesNothing(s, t)
      && t.exhausted == s.exhausted && t.outbox == s.outbox
  {}

  lemma {:induction false} HandlersCanLeave(s: State) returns (t: State)
    ensures Leads(s, t) && LosesNothing(s, t) && t.exhausted == s.exhausted && t.outbox == s.outbox
    ensures t.handlers == multiset{}
    decreases |s.handlers|
  {
    if s.handlers == multiset{} {
      Stays(s);
      t := s;
    } else {
      var h :| h in s.handlers;
      DismissLeads(s, h);
      DismissFrame(s, h);
      t := HandlersCanLeave(Dismiss(s, h));
      LeadsOn(s, Dismiss(s, h), t);
    }
  }

  // ---------------------------------------------------------------------------------------------
  // The outbox

  predicate PublishedTo(s: State, n: nat) {
    n <= |s.outbox| && forall i :: 0 <= i < n ==> s.outbox[i].published
  }

  predicate SameEvents(s: State, t: State) {
    |t.outbox| == |s.outbox| && forall i :: 0 <= i < |s.outbox| ==> t.outbox[i].event == s.outbox[i].event
  }

  /** Publishing and marking one row touches that row and the charge queue. */
  lemma OneRowCanPublish(s: State, i: Id) returns (t: State)
    requires PublishedTo(s, i) && i < |s.outbox|
    ensures Leads(s, t) && t == s.(outbox := t.outbox, chargeJobs := t.chargeJobs)
    ensures SameEvents(s, t) && PublishedTo(t, i + 1)
  {
    Stays(s);
    if s.outbox[i].published {
      t := s;
    } else {
      var u := EnqueueRow(s, i, false);
      BackgroundStep(s, s, u, RelayEnqueue(i, false));
      t := MarkRow(u, i);
      BackgroundStep(s, u, t, RelayMark(i));
    }
  }

  lemma {:induction false} RowsCanPublish(s: State, n: nat) returns (t: State)
    requires n <= |s.outbox|
    ensures Leads(s, t) && t == s.(outbox := t.outbox, chargeJobs := t.chargeJobs)
    ensures SameEvents(s, t) && PublishedTo(t, n)
    decreases n
  {
    if n == 0 {
      Stays(s);
      t := s;
    } else {
      var u := RowsCanPublish(s, n - 1);
      t := OneRowCanPublish(u, n - 1);
      LeadsOn(s, u, t);
    }
  }

  // ---------------------------------------------------------------------------------------------
  // The charge queue

  /** What a delivery leaves alone. */
  predicate ChargingOnly(s: State, t: State) {
    && t.outbox == s.outbox && t.handlers == s.handlers && t.reservations == s.reservations
    && LosesNothing(s, t)
  }

  lemma ChargeFrame(s: State, e: BookingHeld)
    ensures var t := ChargePayment(s, e, Accepts).0;
      t == s.(payments := t.payments, charges := t.charges, moves := t.moves)
  {}

  lemma ProcessFrame(s: State, job: ChargeJob)
    ensures var t := ProcessCharge(s, job, Accepts, false).0;
      ChargingOnly(s, t) && t.chargeJobs == s.chargeJobs && t.exhausted == s.exhausted
  {
    ChargeFrame(s, job.event);
  }

  /** With a provider that answers, an attempt fails only if the event does not parse. */
  lemma AttemptsSucceed(s: State, job: ChargeJob)
    requires Reachable(s) && job in s.chargeJobs
    ensures !ProcessCharge(s, job, Accepts, false).1 ==> FreeStay(s, job.event.reservationId)
  {
    ReachableInv(s);
    assert JobOk(s, job);
    if job.event.idempotencyKey in s.payments {
      assert PaymentOk(s, job.event.idempotencyKey);
    }
  }

  predicate FreeStay(s: State, k: Id) {
    k < |s.reservations| && s.reservations[k].priceTotalCents == 0
  }

  /** Only the jobs of free stays, whose events never parse, may run out of attempts on the way. */
  ghost predicate ExhaustsFreeOnly(s: State, t: State) {
    forall k: Id :: Exhausted(t, k) ==> Exhausted(s, k) || FreeStay(s, k)
  }

  lemma DeliveryExhausts(s: State, job: ChargeJob)
    requires Reachable(s) && job in s.chargeJobs
    ensures ExhaustsFreeOnly(s, DeliverCharge(s, job, Accepts, false))
  {
    var t := DeliverCharge(s, job, Accepts, false);
    ProcessFrame(s, job);
    AttemptsSucceed(s, job);
    ReachableInv(s);
    SagaSteps.EventIds(s);
    forall k: Id | Exhausted(t, k) ensures Exhausted(s, k) || FreeStay(s, k) {
      assert LastAttempt(t, k) == LastAttempt(s, k);
      assert LastAttempt(s, k) in s.exhausted || LastAttempt(s, k) == Failed(job);
    }
  }

  lemma {:induction false} JobCanEnd(s: State, job: ChargeJob) returns (t: State)
    requires Reachable(s) && job in s.chargeJobs
    ensures Leads(s, t) && ChargingOnly(s, t) && ExhaustsFreeOnly(s, t)
    ensures t.chargeJobs == s.chargeJobs - multiset{job}
    decreases CHARGE_ATTEMPTS - job.attemptsMade
  {
    t := DeliverCharge(s, job, Accepts, false);
    DeliverChargeIsARun(s, job, Accepts, false);
    ProcessFrame(s, job);
    DeliveryExhausts(s, job);
    var (processed, ok) := ProcessCharge(s, job, Accepts, false);
    if !ok {
      AttemptsAreBounded(s, job);
      if Failed(job).attemptsMade < CHARGE_ATTEMPTS {
        var u := t;
        ReachableThrough(s, u);
        assert u.chargeJobs - multiset{Failed(job)} == s.chargeJobs - multiset{job};
        t := JobCanEnd(u, Failed(job));
        LeadsOn(s, u, t);
      }
    }
  }

  lemma AttemptsAreBounded(s: State, job: ChargeJob)
    requires Reachable(s) && job in s.chargeJobs
    ensures job.attemptsMade < CHARGE_ATTEMPTS
  {
    ReachableInv(s);
    assert JobOk(s, job);
  }

  lemma {:induction false} ChargesCanDrain(s: State) returns (t: State)
    requires Reachable(s)
    ensures Leads(s, t) && ChargingOnly(s, t) && ExhaustsFreeOnly(s, t)
    ensures t.chargeJobs == multiset{}
    decreases |s.chargeJobs|
  {
    if s.chargeJobs == multiset{} {
      Stays(s);
      t := s;
    } else {
      var job :| job in s.chargeJobs;
      var u := JobCanEnd(s, job);
      ReachableThrough(s, u);
      t := ChargesCanDrain(u);
      LeadsOn(s, u, t);
    }
  }

  // ---------------------------------------------------------------------------------------------
  // Results and refunds

  predicate SettlingOnly(s: State, t: State) {
    && t.outbox == s.outbox && t.handlers == s.handlers && t.chargeJobs == s.chargeJobs
    && t.exhausted == s.exhausted && LosesNothing(s, t)
  }

  lemma ResultFrame(s: State, r: PaymentResult)
    ensures var t := DeliverResult(s, r, false); SettlingOnly(s, t) && t.results == s.results - multiset{r}
  {}

  lemma {:induction false} ResultsCanDrain(s: State) returns (t: State)
    ensures Leads(s, t) && SettlingOnly(s, t) && t.results == multiset{}
    decreases |s.results|
  {
    if s.results == multiset{} {
      Stays(s);
      t := s;
    } else {
      var r :| r in s.results;
      var u := DeliverResult(s, r, false);
      DeliverResultIsARun(s, r, false);
      ResultFrame(s, r);
      t := ResultsCanDrain(u);
      LeadsOn(s, u, t);
    }
  }

  lemma RefundFrame(s: State, q: RefundRequested)
    ensures var t := DeliverRefund(s, q);
      SettlingOnly(s, t) && t.results == s.results && t.refundJobs == s.refundJobs - multiset{q}
  {}

  lemma {:induction false} RefundsCanDrain(s: State) returns (t: State)
    ensures Leads(s, t) && SettlingOnly(s, t) && t.results == s.results && t.refundJobs == multiset{}
    decreases |s.refundJobs|
  {
    if s.refundJobs == multiset{} {
      Stays(s);
      t := s;
    } else {
      var q :| q in s.refundJobs;
      var u := DeliverRefund(s, q);
      DeliverRefundIsARun(s, q);
      RefundFrame(s, q);
      t := RefundsCanDrain(u);
      LeadsOn(s, u, t);
    }
  }

  // ---------------------------------------------------------------------------------------------
  // Everything

  /** A way to finish that loses nothing and gives up on nobody who has to pay. */
  ghost predicate FinishesAs(s: State, t: State) {
    && Leads(s, t) && Drained(t)
    && LosesNothing(s, t)
    && forall k: Id :: Exhausted(t, k) ==> Exhausted(s, k) || FreeStay(t, k)
  }

  lemma PricesStay(s: State, t: State, k: Id)
    requires Reachable(s) && Leads(s, t) && FreeStay(s, k)
    ensures FreeStay(t, k)
  {
    ReachableInv(s);
    var steps :| Run(s, steps) == t;
    RunEvolves(s, steps);
    assert RowEvolves(s.reservations[k], t.reservations[k]);
  }

  lemma ThroughTheQueues(s: State) returns (t: State)
    requires Reachable(s) && s.handlers == multiset{} && PublishedTo(s, |s.outbox|)
    ensures Leads(s, t) && Drained(t) && LosesNothing(s, t) && ExhaustsFreeOnly(s, t)
  {
    var charged := ChargesCanDrain(s);
    var settled := ResultsCanDrain(charged);
    t := RefundsCanDrain(settled);
    LeadsOn(s, charged, settled);
    LeadsOn(s, settled, t);
  }

  /** From every reachable state everything can finish: the outbox, the three queues that have consumers and
      every handler, with no refund and no dead letter lost, and no priced booking run out of attempts on the way. */
  lemma EverythingCanFinish(s: State)
    requires Reachable(s)
    ensures exists t :: FinishesAs(s, t)
  {
    var quiet := HandlersCanLeave(s);
    ReachableThrough(s, quiet);
    var published := RowsCanPublish(quiet, |quiet.outbox|);
    ReachableThrough(quiet, published);
    var t := ThroughTheQueues(published);
    LeadsOn(s, quiet, published);
    LeadsOn(s, published, t);
    forall k: Id | Exhausted(t, k) ensures Exhausted(s, k) || FreeStay(t, k) {
      assert Exhausted(published, k) ==> Exhausted(s, k);
      if !Exhausted(s, k) {
        PricesStay(published, t, k);
      }
    }
    assert FinishesAs(s, t);
  }

  /** So whatever has happened so far, a customer who was charged can still end up with the stay or with
      the money, unless a cancel already lost the refund or the job already ran out of attempts. */
  lemma EveryChargeCanSettle(s: State, k: Id)
    requires Reachable(s) && Paid(s, k) && k !in s.lostRefunds && !Exhausted(s, k)
    ensures exists t :: FinishesAs(s, t) && (Kept(t, k) || k in t.refunds)
  {
    EverythingCanFinish(s);
    var t :| FinishesAs(s, t);
    PaidStays(s, t, k);
    ReachableThrough(s, t);
    MoneySafety(t, k);
    SettlementIsComplete(t, k);
  }

  lemma PaidStays(s: State, t: State, k: Id)
    requires Reachable(s) && Leads(s, t) && Paid(s, k)
    ensures Paid(t, k) && k < |t.reservations|
  {
    ReachableInv(s);
    var steps :| Run(s, steps) == t;
    RunEvolves(s, steps);
    assert LedgerOk(s, k) && PaymentOk(s, k);
  }
}

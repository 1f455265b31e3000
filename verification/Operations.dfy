/** What each service operation does to the system when nothing interrupts it, and the proof that it is
    a run of the saga's steps: whatever holds of every run holds of every sequence of these. */
module Operations {
  import opened BookingTypes
  import opened Intervals
  import opened Saga
  import Nights
  import Relay
  import SagaTheorems

  /** Some steps lead from one state to the other. */
  ghost predicate Leads(s: State, t: State) {
    exists steps :: Run(s, steps) == t
  }

  lemma Stays(s: State)
    ensures Leads(s, s)
  {
    assert Run(s, []) == s;
  }

  lemma RunLast(s: State, steps: seq<Step>, step: Step)
    ensures Run(s, steps + [step]) == Apply(Run(s, steps), step)
  {
    assert (steps + [step])[..|steps|] == steps;
  }

  lemma Extend(s: State, t: State, step: Step)
    requires Leads(s, t)
    ensures Leads(s, Apply(t, step))
  {
    var steps :| Run(s, steps) == t;
    RunLast(s, steps, step);
  }

  /** A run splits into its front and its last step. */
  lemma RunFront(s: State, steps: seq<Step>)
    requires steps != []
    ensures Run(s, steps) == Apply(Run(s, steps[..|steps| - 1]), steps[|steps| - 1])
  {}

  lemma {:induction false} LeadsAlong(s: State, t: State, steps: seq<Step>)
    requires Leads(s, t)
    ensures Leads(s, Run(t, steps))
    decreases |steps|
  {
    if steps != [] {
      LeadsAlong(s, t, steps[..|steps| - 1]);
      Extend(s, Run(t, steps[..|steps| - 1]), steps[|steps| - 1]);
      RunFront(t, steps);
    }
  }

  lemma LeadsOn(s: State, t: State, u: State)
    requires Leads(s, t) && Leads(t, u)
    ensures Leads(s, u)
  {
    var steps :| Run(t, steps) == u;
    LeadsAlong(s, t, steps);
  }

  lemma {:induction false} ReachableAlong(s: State, steps: seq<Step>)
    requires SagaTheorems.Reachable(s)
    ensures SagaTheorems.Reachable(Run(s, steps))
    decreases |steps|
  {
    if steps != [] {
      ReachableAlong(s, steps[..|steps| - 1]);
      SagaTheorems.ReachableNext(Run(s, steps[..|steps| - 1]), steps[|steps| - 1]);
      RunFront(s, steps);
    }
  }

  /** So every theorem about reachable states of the saga is one about the operations below, in any order. */
  lemma ReachableThrough(s: State, t: State)
    requires SagaTheorems.Reachable(s) && Leads(s, t)
    ensures SagaTheorems.Reachable(t)
  {
    var steps :| Run(s, steps) == t;
    ReachableAlong(s, steps);
  }

  lemma GuestStep(s: State, t: State, u: State, step: Step)
    requires Leads(s, t)
    requires match step
      case Tick(now) => u == AdvanceClock(t, now)
      case HoldBegin(listing, checkIn, checkOut, nightly) => u == BeginHold(t, listing, checkIn, checkOut, nightly)
      case HoldClaim(h, deadlock) => u == ClaimSlot(t, h, deadlock)
      case CancelBegin(id) => u == BeginCancel(t, id)
      case CancelWrite(id, seen) => u == WriteCancelled(t, id, seen)
      case CancelEnqueue(id, dedup) => u == EnqueueCancelRefund(t, id, dedup)
      case Crash(h) => u == CrashHandler(t, h)
      case _ => false
    ensures Leads(s, u)
  {
    Extend(s, t, step);
  }

  lemma BackgroundStep(s: State, t: State, u: State, step: Step)
    requires Leads(s, t)
    requires match step
      case Tick(now) => u == AdvanceClock(t, now)
      case SweepExpired(now) => u == ExpireHolds(t, now)
      case SweepCompleted(now) => u == CompleteStays(t, now)
      case RelayEnqueue(row, dedup) => u == EnqueueRow(t, row, dedup)
      case RelayMark(row) => u == MarkRow(t, row)
      case _ => false
    ensures Leads(s, u)
  {
    Extend(s, t, step);
  }

  lemma ChargeStep(s: State, t: State, u: State, step: Step)
    requires Leads(s, t)
    requires match step
      case ChargeTake(job) => u == TakeCharge(t, job)
      case ChargeLookup(job) => u == LookupPayment(t, job)
      case ChargeClaim(job) => u == ClaimPayment(t, job)
      case ChargeCall(job, accept) => u == CallProvider(t, job, accept)
      case ChargeRecord(job, outcome) => u == RecordOutcome(t, job, outcome)
      case ChargePublish(job, result, dedup) => u == PublishResult(t, job, result, dedup)
      case ChargeAck(job) => u == AckCharge(t, job)
      case ChargeThrow(h) => u == ThrowCharge(t, h)
      case DeadLetter(job) => u == DeadLetterJob(t, job)
      case _ => false
    ensures Leads(s, u)
  {
    Extend(s, t, step);
  }

  lemma AnswerStep(s: State, t: State, u: State, step: Step)
    requires Leads(s, t)
    requires match step
      case ResultTake(result) => u == TakeResult(t, result)
      case ResultUpdate(result) => u == UpdateIfHeld(t, result)
      case ResultCheck(result) => u == CheckSettled(t, result)
      case ResultRefund(result, dedup) => u == RequestRefund(t, result, dedup)
      case ResultAck(result) => u == AckResult(t, result)
      case RefundTake(request) => u == TakeRefund(t, request)
      case RefundLookup(request) => u == LookupRefundable(t, request)
      case RefundCall(request) => u == CallRefund(t, request)
      case RefundRecord(request) => u == RecordRefund(t, request)
      case RefundAck(request) => u == AckRefund(t, request)
      case _ => false
    ensures Leads(s, u)
  {
    Extend(s, t, step);
  }

  /** A handler that has just entered is the one that moves on or leaves. */
  lemma OwnHandler(t: State, h: Handler, g: Handler)
    ensures h in Enter(t, h).handlers
    ensures Move(Enter(t, h), h, g) == Enter(t, g) && Leave(Enter(t, h), h) == t
  {
    assert Enter(t, h).handlers - multiset{h} == t.handlers;
  }

  // ---------------------------------------------------------------------------------------------
  // Failed writes

  /** A driver error: its own code, and the cause with the original code if the driver kept one. */
  datatype DbError = DbError(code: Option<string>, cause: Option<Option<string>>)

  const PG_EXCLUSION_VIOLATION := "23P01"
  const PG_DEADLOCK_DETECTED := "40P01"

  function SqlState(err: DbError): Option<string> {
    if err.cause.Some? && err.cause.value.Some? then err.cause.value else err.code
  }

  predicate IsExclusionViolation(err: DbError) {
    SqlState(err) == Some(PG_EXCLUSION_VIOLATION)
  }

  predicate IsDeadlock(err: DbError) {
    SqlState(err) == Some(PG_DEADLOCK_DETECTED)
  }

  /** How the adapter reports the constraint's refusal. */
  const OVERLAP := DbError(None, Some(Some(PG_EXCLUSION_VIOLATION)))

  datatype ErrorCode = VALIDATION_FAILED | NOT_FOUND | RESERVATION_SLOT_TAKEN | INVALID_STATE_TRANSITION

  datatype Answer = Done(id: Id) | Problem(code: ErrorCode) | Fault(err: DbError)

  // ---------------------------------------------------------------------------------------------
  // BookingService.hold

  datatype Listing = Listing(active: bool, nightlyPriceCents: nat)

  datatype HoldRequest = HoldRequest(listing: Id, checkIn: Instant, checkOut: Instant)

  /** One attempt: the time that passes before it, and the fault that aborts it, if one does. */
  datatype Attempt = Attempt(wait: nat, fault: Option<DbError>)

  function Waited(s: State, wait: nat): State {
    s.(clock := s.clock + wait)
  }

  function Pricing(s: State, listings: map<Id, Listing>, r: HoldRequest): Handler
    requires r.checkIn < r.checkOut && r.listing in listings
  {
    HoldClaiming(r.listing, r.checkIn, r.checkOut,
                 Nights.PriceTotal(r.checkIn, r.checkOut, listings[r.listing].nightlyPriceCents), s.clock, false)
  }

  predicate Refused(s: State, listings: map<Id, Listing>, r: HoldRequest) {
    || r.checkOut <= r.checkIn
    || r.checkIn < s.clock
    || r.listing !in listings
    || !listings[r.listing].active
  }

  function Refusal(s: State, r: HoldRequest): ErrorCode {
    if r.checkOut <= r.checkIn || r.checkIn < s.clock then VALIDATION_FAILED else NOT_FOUND
  }

  /** One run of the claiming transaction: the reservation and its event together, or nothing. */
  function Claim(s: State, h: Handler, fault: Option<DbError>): (State, Option<DbError>)
    requires h.HoldClaiming?
  {
    if fault.Some? then (s, fault)
    else if !Admits(s.reservations, NewReservation(s, h)) then (s, Some(OVERLAP))
    else
      (s.(reservations := s.reservations + [NewReservation(s, h)],
          outbox := s.outbox + [OutboxRow(HeldEvent(|s.reservations|, h.price), s.clock, false, 0)]),
       None)
  }

  function Conclude(id: Id, failure: Option<DbError>): Answer {
    if failure.None? then Done(id)
    else if IsExclusionViolation(failure.value) then Problem(RESERVATION_SLOT_TAKEN)
    else Fault(failure.value)
  }

  function Hold(
      s: State, listings: map<Id, Listing>, r: HoldRequest, first: Attempt, second: Attempt): (State, Answer)
  {
    if Refused(s, listings, r) then (s, Problem(Refusal(s, r)))
    else
      var (t, failure) := ClaimWithRetry(s, Pricing(s, listings, r), first, second);
      (t, Conclude(|s.reservations|, failure))
  }

  /** A deadlock wrote nothing and is transient, so the claim runs once more; anything else is final. */
  function ClaimWithRetry(s: State, h: Handler, first: Attempt, second: Attempt): (State, Option<DbError>)
    requires h.HoldClaiming?
  {
    var (t, failure) := Claim(Waited(s, first.wait), h, first.fault);
    if failure.Some? && IsDeadlock(failure.value) then Claim(Waited(t, second.wait), h, second.fault) else (t, failure)
  }

  lemma BeginsHold(s: State, listings: map<Id, Listing>, r: HoldRequest)
    requires !Refused(s, listings, r)
    ensures Leads(s, Enter(s, Pricing(s, listings, r)))
  {
    Stays(s);
    GuestStep(s, s, Enter(s, Pricing(s, listings, r)),
              HoldBegin(r.listing, r.checkIn, r.checkOut, listings[r.listing].nightlyPriceCents));
  }

  lemma Waits(s: State, t: State, wait: nat)
    requires Leads(s, t)
    ensures Leads(s, Waited(t, wait))
  {
    GuestStep(s, t, Waited(t, wait), Tick(t.clock + wait));
  }

  /** An attempt with its handler in flight does what the transaction does; a deadlock on the first try
      leaves the handler there for the second. */
  lemma AttemptLeads(s: State, t: State, h: Handler, fault: Option<DbError>)
    requires h.HoldClaiming? && Leads(s, Enter(t, h))
    requires fault.Some? && IsDeadlock(fault.value) ==> h.retried
    ensures Leads(s, Claim(t, h, fault).0)
  {
    OwnHandler(t, h, h);
    if fault.Some? {
      assert CrashHandler(Enter(t, h), h) == t;
      GuestStep(s, Enter(t, h), t, Crash(h));
    } else {
      ClaimShape(t, h);
      GuestStep(s, Enter(t, h), Claim(t, h, None).0, HoldClaim(h, false));
    }
  }

  lemma ClaimShape(t: State, h: Handler)
    requires h.HoldClaiming?
    ensures ClaimSlot(Enter(t, h), h, false) == Claim(t, h, None).0
  {
    OwnHandler(t, h, h);
  }

  lemma DeadlockLeads(s: State, t: State, h: Handler)
    requires h.HoldClaiming? && !h.retried && Leads(s, Enter(t, h))
    ensures Leads(s, Enter(t, h.(retried := true)))
  {
    OwnHandler(t, h, h.(retried := true));
    GuestStep(s, Enter(t, h), Enter(t, h.(retried := true)), HoldClaim(h, true));
  }

  /** The second attempt, after a deadlock aborted the first. */
  lemma RetryLeads(s: State, t: State, h: Handler, second: Attempt)
    requires h.HoldClaiming? && !h.retried && Leads(s, Enter(t, h))
    ensures Leads(s, Claim(Waited(t, second.wait), h, second.fault).0)
  {
    var again, u := h.(retried := true), Waited(t, second.wait);
    DeadlockLeads(s, t, h);
    Waits(s, Enter(t, again), second.wait);
    assert Waited(Enter(t, again), second.wait) == Enter(u, again);
    AttemptLeads(s, u, again, second.fault);
    assert Claim(u, again, second.fault) == Claim(u, h, second.fault);
  }

  lemma HoldIsARun(s: State, listings: map<Id, Listing>, r: HoldRequest, first: Attempt, second: Attempt)
    ensures Leads(s, Hold(s, listings, r, first, second).0)
  {
    if Refused(s, listings, r) {
      Stays(s);
    } else {
      var h := Pricing(s, listings, r);
      var t := Waited(s, first.wait);
      BeginsHold(s, listings, r);
      Waits(s, Enter(s, h), first.wait);
      assert Waited(Enter(s, h), first.wait) == Enter(t, h);
      if first.fault.Some? && IsDeadlock(first.fault.value) {
        RetryLeads(s, t, h, second);
      } else {
        AttemptLeads(s, t, h, first.fault);
      }
    }
  }

  /** The attempt that decides the answer, and the instant it is made. */
  function Deciding(first: Attempt, second: Attempt): Attempt {
    if first.fault.Some? && IsDeadlock(first.fault.value)
    then Attempt(first.wait + second.wait, second.fault) else first
  }

  /** The row a hold asks for, priced by the listing and stamped at its insert. */
  function Wanted(s: State, listings: map<Id, Listing>, r: HoldRequest, at: Instant): Reservation
    requires r.checkIn < r.checkOut && r.listing in listings
  {
    Reservation(r.listing, r.checkIn, r.checkOut, HELD,
                (Nights.Day(r.checkOut) - Nights.Day(r.checkIn)) * listings[r.listing].nightlyPriceCents,
                at + s.holdTtl, s.clock, at)
  }

  lemma ClaimTruthfully(s: State, h: Handler, fault: Option<DbError>)
    requires h.HoldClaiming?
    ensures var (t, failure) := Claim(s, h, fault);
      var row := NewReservation(s, h);
      && (failure.None? <==> fault.None? && Admits(s.reservations, row))
      && (if failure.None? then
            && t.reservations == s.reservations + [row]
            && t.outbox == s.outbox + [OutboxRow(HeldEvent(|s.reservations|, h.price), s.clock, false, 0)]
          else t.reservations == s.reservations && t.outbox == s.outbox)
      && (fault.Some? ==> failure == fault)
      && (fault.None? && failure.Some? ==> IsExclusionViolation(failure.value) && !IsDeadlock(failure.value))
  {}

  /** The answer is what the deciding attempt concludes, made at its own instant. */
  lemma DecidedBy(s: State, h: Handler, first: Attempt, second: Attempt)
    requires h.HoldClaiming?
    ensures var decider := Deciding(first, second);
      ClaimWithRetry(s, h, first, second) == Claim(Waited(s, decider.wait), h, decider.fault)
  {
    ClaimTruthfully(Waited(s, first.wait), h, first.fault);
    assert Waited(Waited(s, first.wait), second.wait) == Waited(s, first.wait + second.wait);
  }

  lemma ConcludeTruthfully(id: Id, fault: Option<DbError>, failure: Option<DbError>, admitted: bool)
    requires failure.None? <==> fault.None? && admitted
    requires fault.Some? ==> failure == fault
    requires fault.None? && failure.Some? ==> IsExclusionViolation(failure.value)
    ensures var answer := Conclude(id, failure);
      && (answer.Done? <==> fault.None? && admitted)
      && (answer.Done? ==> answer.id == id)
      && (fault.None? ==> (answer == Problem(RESERVATION_SLOT_TAKEN) <==> !admitted))
      && (fault.Some? ==>
            answer == if IsExclusionViolation(fault.value) then Problem(RESERVATION_SLOT_TAKEN)
                      else Fault(fault.value))
  {}

  lemma WantedRow(s: State, listings: map<Id, Listing>, r: HoldRequest, wait: nat)
    requires !Refused(s, listings, r)
    ensures Nights.Day(r.checkOut) >= Nights.Day(r.checkIn)
    ensures NewReservation(Waited(s, wait), Pricing(s, listings, r)) == Wanted(s, listings, r, s.clock + wait)
  {
    Nights.PriceIsDays(r.checkIn, r.checkOut, listings[r.listing].nightlyPriceCents);
  }

  /** What one attempt at an ordered stay concludes, and what it leaves in the tables. */
  lemma DecidedTruthfully(s: State, h: Handler, fault: Option<DbError>)
    requires h.HoldClaiming? && h.checkIn < h.checkOut
    ensures var (t, failure) := Claim(s, h, fault);
      var answer, id, row := Conclude(|s.reservations|, failure), |s.reservations|, NewReservation(s, h);
      var free := SlotIsFree(s.reservations, h.listing, h.checkIn, h.checkOut);
      && (if answer.Done? then
            && answer.id == id
            && t.reservations == s.reservations + [row]
            && t.outbox == s.outbox + [OutboxRow(BookingHeld(id, id, h.price), s.clock, false, 0)]
          else t.reservations == s.reservations && t.outbox == s.outbox)
      && (answer.Done? <==> fault.None? && free)
      && (fault.None? ==> (answer == Problem(RESERVATION_SLOT_TAKEN) <==> !free))
      && (fault.Some? ==>
            answer == if IsExclusionViolation(fault.value) then Problem(RESERVATION_SLOT_TAKEN)
                      else Fault(fault.value))
  {
    HoldsNeedAFreeSlot(s.reservations, NewReservation(s, h));
    ClaimTruthfully(s, h, fault);
    ConcludeTruthfully(|s.reservations|, fault, Claim(s, h, fault).1, Admits(s.reservations, NewReservation(s, h)));
  }

  /** A call adds exactly the reservation asked for and the event that charges it, or nothing at all; it
      succeeds exactly when its deciding attempt ran and nothing active overlapped, and a guest is told
      the slot is taken exactly when something did, unless a fault itself claims to be that refusal. */
  lemma HoldAnswersTruthfully(s: State, listings: map<Id, Listing>, r: HoldRequest, first: Attempt, second: Attempt)
    requires s.clock <= r.checkIn < r.checkOut && r.listing in listings && listings[r.listing].active
    ensures Nights.Day(r.checkOut) >= Nights.Day(r.checkIn)
    ensures var (t, answer) := Hold(s, listings, r, first, second);
      var decider := Deciding(first, second);
      var row := Wanted(s, listings, r, s.clock + decider.wait);
      && (if answer.Done? then
            && answer.id == |s.reservations|
            && t.reservations == s.reservations + [row]
            && t.outbox
               == s.outbox
                  + [OutboxRow(BookingHeld(answer.id, answer.id, row.priceTotalCents), row.insertedAt, false, 0)]
          else t.reservations == s.reservations && t.outbox == s.outbox)
      && var free := SlotIsFree(s.reservations, r.listing, r.checkIn, r.checkOut);
      && (answer.Done? <==> decider.fault.None? && free)
      && (decider.fault.None? ==> (answer == Problem(RESERVATION_SLOT_TAKEN) <==> !free))
      && (decider.fault.Some? ==>
            answer == if IsExclusionViolation(decider.fault.value) then Problem(RESERVATION_SLOT_TAKEN)
                      else Fault(decider.fault.value))
  {
    var h, decider := Pricing(s, listings, r), Deciding(first, second);
    WantedRow(s, listings, r, decider.wait);
    DecidedBy(s, h, first, second);
    DecidedTruthfully(Waited(s, decider.wait), h, decider.fault);
  }

  // ---------------------------------------------------------------------------------------------
  // BookingService.cancel

  function Cancel(s: State, owned: bool, id: Id, dedup: bool): (State, Answer) {
    if !owned || id >= |s.reservations| then (s, Problem(NOT_FOUND))
    else if s.reservations[id].status == CANCELLED then (s, Done(id))
    else if CANCELLED !in AllowedTransitions(s.reservations[id].status) then (s, Problem(INVALID_STATE_TRANSITION))
    else
      var written := s.(reservations := SetStatus(s.reservations, id, CANCELLED));
      (if s.reservations[id].status == CONFIRMED then AddRefund(written, RefundRequested(id, id), dedup) else written,
       Done(id))
  }

  lemma CancelOfHeldLeads(s: State, id: Id)
    requires id < |s.reservations| && s.reservations[id].status == HELD
    ensures Leads(s, s.(reservations := SetStatus(s.reservations, id, CANCELLED)))
  {
    var h := CancelRead(id, HELD);
    var t := s.(reservations := SetStatus(s.reservations, id, CANCELLED));
    Stays(s);
    GuestStep(s, s, Enter(s, h), CancelBegin(id));
    assert WriteCancelled(Enter(s, h), id, HELD) == t;
    GuestStep(s, Enter(s, h), t, CancelWrite(id, HELD));
  }

  lemma CancelShapes(s: State, id: Id, dedup: bool)
    requires id < |s.reservations| && s.reservations[id].status == CONFIRMED
    ensures BeginCancel(s, id) == Enter(s, CancelRead(id, CONFIRMED))
    ensures var t := s.(reservations := SetStatus(s.reservations, id, CANCELLED));
      && WriteCancelled(Enter(s, CancelRead(id, CONFIRMED)), id, CONFIRMED) == Enter(t, CancelWritten(id))
      && EnqueueCancelRefund(Enter(t, CancelWritten(id)), id, dedup) == AddRefund(t, RefundRequested(id, id), dedup)
  {
    var t := s.(reservations := SetStatus(s.reservations, id, CANCELLED));
    OwnHandler(t, CancelRead(id, CONFIRMED), CancelWritten(id));
    OwnHandler(t, CancelWritten(id), CancelWritten(id));
  }

  lemma CancelOfPaidLeads(s: State, id: Id, dedup: bool)
    requires id < |s.reservations| && s.reservations[id].status == CONFIRMED
    ensures var t := s.(reservations := SetStatus(s.reservations, id, CANCELLED));
      Leads(s, AddRefund(t, RefundRequested(id, id), dedup))
  {
    var h, after := CancelRead(id, CONFIRMED), CancelWritten(id);
    var t := s.(reservations := SetStatus(s.reservations, id, CANCELLED));
    CancelShapes(s, id, dedup);
    Stays(s);
    GuestStep(s, s, Enter(s, h), CancelBegin(id));
    GuestStep(s, Enter(s, h), Enter(t, after), CancelWrite(id, CONFIRMED));
    GuestStep(s, Enter(t, after), AddRefund(t, RefundRequested(id, id), dedup), CancelEnqueue(id, dedup));
  }

  lemma CancelIsARun(s: State, owned: bool, id: Id, dedup: bool)
    ensures Leads(s, Cancel(s, owned, id, dedup).0)
  {
    Stays(s);
    if owned && id < |s.reservations| {
      if s.reservations[id].status == HELD {
        CancelOfHeldLeads(s, id);
      } else if s.reservations[id].status == CONFIRMED {
        CancelOfPaidLeads(s, id, dedup);
      }
    }
  }

  /** Run in one go, a cancel never loses a refund, asks for one exactly when the booking was paid,
      and does nothing the second time. */
  lemma CancelInOneGo(s: State, owned: bool, id: Id, dedup: bool, again: bool)
    ensures var (t, answer) := Cancel(s, owned, id, dedup);
      && t.lostRefunds == s.lostRefunds
      && (answer == Done(id) ==>
            && id < |s.reservations| && id < |t.reservations| && t.reservations[id].status == CANCELLED
            && (s.reservations[id].status == CONFIRMED ==> RefundRequested(id, id) in t.refundIds)
            && (t.refundJobs != s.refundJobs ==> s.reservations[id].status == CONFIRMED)
            && Cancel(t, owned, id, again) == (t, Done(id)))
      && (answer != Done(id) ==> t == s)
  {}

  // ---------------------------------------------------------------------------------------------
  // The sweeps

  /** The rows an `updateMany` or a `findMany` matches, in table order. */
  function DueHolds(rows: seq<Reservation>, now: Instant): (ids: seq<Id>)
    ensures forall k :: 0 <= k < |ids| ==> ids[k] < |rows|
    decreases |rows|
  {
    if rows == [] then []
    else
      var last := |rows| - 1;
      DueHolds(rows[..last], now) + (if HoldLapsed(rows[last], now) then [last] else [])
  }

  function FinishedStays(rows: seq<Reservation>, now: Instant): (ids: seq<Id>)
    ensures forall k :: 0 <= k < |ids| ==> ids[k] < |rows|
    decreases |rows|
  {
    if rows == [] then []
    else
      var last := |rows| - 1;
      FinishedStays(rows[..last], now) + (if StayFinished(rows[last], now) then [last] else [])
  }

  lemma NoMembers(ids: seq<Id>)
    ensures ids == [] <==> forall i: Id :: i !in ids
  {
    if ids != [] {
      assert ids[0] in ids;
    }
  }

  ghost predicate Ascending(ids: seq<Id>) {
    forall a, b :: 0 <= a < b < |ids| ==> ids[a] < ids[b]
  }

  lemma AscendingPush(ids: seq<Id>, x: Id)
    requires Ascending(ids) && forall i: Id :: i in ids ==> i < x
    ensures Ascending(ids + [x])
  {
    forall k | 0 <= k < |ids| ensures ids[k] < x {
      assert ids[k] in ids;
    }
  }

  lemma {:induction false} DueHoldsAre(rows: seq<Reservation>, now: Instant)
    ensures Ascending(DueHolds(rows, now))
    ensures forall i: Id :: i in DueHolds(rows, now) <==>
              i < |rows| && rows[i].status == HELD && rows[i].holdExpiresAt < now
    decreases |rows|
  {
    if rows != [] {
      var front := rows[..|rows| - 1];
      DueHoldsAre(front, now);
      AscendingPush(DueHolds(front, now), |front|);
      forall i: Id
        ensures i in DueHolds(rows, now) <==> i < |rows| && rows[i].status == HELD && rows[i].holdExpiresAt < now
      {
        assert i in DueHolds(front, now) <==> i < |front| && front[i] == rows[i] && HoldLapsed(rows[i], now);
      }
    }
  }

  lemma {:induction false} FinishedStaysAre(rows: seq<Reservation>, now: Instant)
    ensures Ascending(FinishedStays(rows, now))
    ensures forall i: Id :: i in FinishedStays(rows, now) <==>
              i < |rows| && rows[i].status == CONFIRMED && rows[i].checkOut < now
    decreases |rows|
  {
    if rows != [] {
      var front := rows[..|rows| - 1];
      FinishedStaysAre(front, now);
      AscendingPush(FinishedStays(front, now), |front|);
      forall i: Id
        ensures i in FinishedStays(rows, now) <==> i < |rows| && rows[i].status == CONFIRMED && rows[i].checkOut < now
      {
        assert i in FinishedStays(front, now) <==> i < |front| && front[i] == rows[i] && StayFinished(rows[i], now);
      }
    }
  }

  /** A sweep moves exactly the rows that are due, leaves the rest as they were, and finds nothing the
      second time. */
  lemma ExpirySweepIsExact(rows: seq<Reservation>, now: Instant, i: Id)
    requires i < |rows|
    ensures var swept := Expired(rows, now);
      && |swept| == |rows|
      && swept[i] == (if rows[i].status == HELD && rows[i].holdExpiresAt < now then rows[i].(status := EXPIRED)
                      else rows[i])
      && DueHolds(swept, now) == []
  {
    DueHoldsAre(rows, now);
    var swept := Expired(rows, now);
    DueHoldsAre(swept, now);
    NoMembers(DueHolds(swept, now));
  }

  lemma CompletionSweepIsExact(rows: seq<Reservation>, now: Instant, i: Id)
    requires i < |rows|
    ensures var swept := Completed(rows, now);
      && |swept| == |rows|
      && swept[i] == (if rows[i].status == CONFIRMED && rows[i].checkOut < now then rows[i].(status := COMPLETED)
                      else rows[i])
      && FinishedStays(swept, now) == []
  {
    FinishedStaysAre(rows, now);
    var swept := Completed(rows, now);
    FinishedStaysAre(swept, now);
    NoMembers(FinishedStays(swept, now));
  }

  function SweepHolds(s: State, wait: nat): State {
    ExpireHolds(Waited(s, wait), s.clock + wait)
  }

  function SweepStays(s: State, wait: nat): State {
    CompleteStays(Waited(s, wait), s.clock + wait)
  }

  lemma ExpirySweepIsARun(s: State, wait: nat)
    ensures Leads(s, SweepHolds(s, wait))
  {
    Stays(s);
    Waits(s, s, wait);
    BackgroundStep(s, Waited(s, wait), SweepHolds(s, wait), SweepExpired(s.clock + wait));
  }

  lemma CompletionSweepIsARun(s: State, wait: nat)
    ensures Leads(s, SweepStays(s, wait))
  {
    Stays(s);
    Waits(s, s, wait);
    BackgroundStep(s, Waited(s, wait), SweepStays(s, wait), SweepCompleted(s.clock + wait));
  }

  // ---------------------------------------------------------------------------------------------
  // OutboxRelayService.publishBatch

  /** Handing a batch to the queue, row by row. `dropped` are the rows whose job the queue already knows. */
  function EnqueueBatch(s: State, batch: seq<Id>, dropped: set<Id>): State
    decreases |batch|
  {
    if batch == [] then s
    else
      var last := |batch| - 1;
      EnqueueRow(EnqueueBatch(s, batch[..last], dropped), batch[last], batch[last] in dropped)
  }

  function MarkBatch(s: State, batch: seq<Id>): State
    decreases |batch|
  {
    if batch == [] then s else MarkRow(MarkBatch(s, batch[..|batch| - 1]), batch[|batch| - 1])
  }

  function PublishBatch(s: State, locked: set<Id>, dropped: set<Id>): State {
    var batch := Relay.Select(s.outbox, locked);
    MarkBatch(EnqueueBatch(s, batch, dropped), batch)
  }

  lemma {:induction false} EnqueuesLead(s: State, batch: seq<Id>, dropped: set<Id>)
    ensures Leads(s, EnqueueBatch(s, batch, dropped))
    decreases |batch|
  {
    if batch == [] {
      Stays(s);
    } else {
      var last := |batch| - 1;
      var t := EnqueueBatch(s, batch[..last], dropped);
      EnqueuesLead(s, batch[..last], dropped);
      BackgroundStep(s, t, EnqueueBatch(s, batch, dropped), RelayEnqueue(batch[last], batch[last] in dropped));
    }
  }

  lemma {:induction false} MarksLead(s: State, t: State, batch: seq<Id>)
    requires Leads(s, t)
    ensures Leads(s, MarkBatch(t, batch))
    decreases |batch|
  {
    if batch != [] {
      var last := |batch| - 1;
      MarksLead(s, t, batch[..last]);
      BackgroundStep(s, MarkBatch(t, batch[..last]), MarkBatch(t, batch), RelayMark(batch[last]));
    }
  }

  lemma PublishBatchIsARun(s: State, locked: set<Id>, dropped: set<Id>)
    ensures Leads(s, PublishBatch(s, locked, dropped))
  {
    var batch := Relay.Select(s.outbox, locked);
    EnqueuesLead(s, batch, dropped);
    MarksLead(s, EnqueueBatch(s, batch, dropped), batch);
  }

  ghost predicate Claimable(rows: seq<OutboxRow>, batch: seq<Id>) {
    && Relay.Distinct(batch)
    && forall k :: 0 <= k < |batch| ==> batch[k] < |rows| && !rows[batch[k]].published
  }

  lemma OneMoreRow(rows: seq<OutboxRow>, front: seq<Id>, i: Id)
    requires i < |rows| && i !in front
    ensures var r := rows[i];
      && Relay.Enqueued(rows, front)[i] == r
      && Relay.Enqueued(rows, front + [i]) == Relay.Enqueued(rows, front)[i := r.(enqueues := r.enqueues + 1)]
      && Relay.Marked(rows, front)[i] == r
      && Relay.Marked(rows, front + [i]) == Relay.Marked(rows, front)[i := r.(published := true)]
  {
    assert forall k :: k in front + [i] <==> k in front || k == i;
  }

  lemma LastIsNew(batch: seq<Id>)
    requires batch != [] && Relay.Distinct(batch)
    ensures batch[..|batch| - 1] + [batch[|batch| - 1]] == batch
    ensures batch[|batch| - 1] !in batch[..|batch| - 1]
    ensures Relay.Distinct(batch[..|batch| - 1])
  {}

  lemma EnqueueRowTable(s: State, i: Id, dedup: bool)
    requires i < |s.outbox| && !s.outbox[i].published
    ensures EnqueueRow(s, i, dedup).outbox == s.outbox[i := s.outbox[i].(enqueues := s.outbox[i].enqueues + 1)]
  {}

  lemma {:induction false} EnqueueBatchRows(s: State, batch: seq<Id>, dropped: set<Id>)
    requires Claimable(s.outbox, batch)
    ensures EnqueueBatch(s, batch, dropped).outbox == Relay.Enqueued(s.outbox, batch)
    decreases |batch|
  {
    if batch != [] {
      var last := |batch| - 1;
      LastIsNew(batch);
      EnqueueBatchRows(s, batch[..last], dropped);
      OneMoreRow(s.outbox, batch[..last], batch[last]);
      EnqueueRowTable(EnqueueBatch(s, batch[..last], dropped), batch[last], batch[last] in dropped);
    }
  }

  lemma {:induction false} MarkBatchRows(s: State, batch: seq<Id>)
    requires Relay.Distinct(batch)
    requires forall k :: 0 <= k < |batch| ==> batch[k] < |s.outbox| && s.outbox[batch[k]].enqueues > 0
    ensures MarkBatch(s, batch).outbox == Relay.Marked(s.outbox, batch)
    decreases |batch|
  {
    if batch != [] {
      var last := |batch| - 1;
      LastIsNew(batch);
      MarkBatchRows(s, batch[..last]);
      OneMoreRow(s.outbox, batch[..last], batch[last]);
    }
  }

  /** Part-way through a batch its next row is still there and still unpublished. */
  lemma NextInBatch(rows: seq<OutboxRow>, batch: seq<Id>, k: nat)
    requires Claimable(rows, batch) && k < |batch|
    ensures Claimable(rows, batch[..k])
    ensures batch[k] < |rows| && !Relay.Enqueued(rows, batch[..k])[batch[k]].published
    ensures batch[..k + 1][..k] == batch[..k] && batch[..k + 1][k] == batch[k]
  {}

  /** Its turn has come, and handing it over is the batch so far with it. */
  lemma NextIsEnqueued(s: State, batch: seq<Id>, dropped: set<Id>, k: nat)
    requires Claimable(s.outbox, batch) && k < |batch|
    ensures var t := EnqueueBatch(s, batch[..k], dropped);
      && batch[k] < |t.outbox| && !t.outbox[batch[k]].published
      && EnqueueBatch(s, batch[..k + 1], dropped) == EnqueueRow(t, batch[k], batch[k] in dropped)
  {
    NextInBatch(s.outbox, batch, k);
    EnqueueBatchRows(s, batch[..k], dropped);
  }

  lemma EnqueuedCanBeMarked(rows: seq<OutboxRow>, batch: seq<Id>)
    requires forall i: Id :: i in batch ==> i < |rows|
    ensures var after := Relay.Enqueued(rows, batch);
      forall k :: 0 <= k < |batch| ==> batch[k] < |after| && after[batch[k]].enqueues > 0
  {
    forall k | 0 <= k < |batch| ensures batch[k] < |rows| && Relay.Enqueued(rows, batch)[batch[k]].enqueues > 0 {
      assert batch[k] in batch;
    }
  }

  /** The saga's relay steps, taken for a batch, are the relay protocol's pass over the same table. */
  lemma PassesAgree(s: State, locked: set<Id>, dropped: set<Id>)
    ensures var batch := Relay.Select(s.outbox, locked);
      PublishBatch(s, locked, dropped).outbox == Relay.Marked(Relay.Enqueued(s.outbox, batch), batch)
  {
    var batch := Relay.Select(s.outbox, locked);
    Relay.SelectedRows(s.outbox, locked);
    forall k | 0 <= k < |batch| ensures batch[k] < |s.outbox| && !s.outbox[batch[k]].published {
      assert batch[k] in batch;
    }
    EnqueueBatchRows(s, batch, dropped);
    MarkBatchRows(EnqueueBatch(s, batch, dropped), batch);
  }

  // ---------------------------------------------------------------------------------------------
  // The charge

  /** What the provider would do with a key it has not settled yet. */
  datatype Verdict = Accepts | Declines | IsUnavailable

  /** `PaymentService.charge`: the result it returns, or nothing when it throws. */
  function ChargePayment(s: State, e: BookingHeld, verdict: Verdict): (State, Option<PaymentResult>) {
    var key := e.idempotencyKey;
    if key in s.payments && s.payments[key].status != PENDING then
      (s, if Presentable(s.payments[key]) then Some(ToResult(e, s.payments[key])) else None)
    else
      var t := Opened(s, e);
      if key !in t.charges && verdict == IsUnavailable then (t, None)
      else
        var (u, outcome) := Called(t, key, e.amountCents, verdict == Accepts);
        var settled := Settle(u.payments[key], outcome);
        (u.(payments := u.payments[key := settled]), Some(ToResult(e, settled)))
  }

  /** With its payment row there, PENDING if it was not. */
  function Opened(s: State, e: BookingHeld): State {
    if e.idempotencyKey in s.payments then s
    else s.(payments := s.payments[e.idempotencyKey := Payment(e.reservationId, PENDING, e.amountCents, None)])
  }

  /** `MockPaymentProvider.charge`, for a provider that answers. */
  function Called(s: State, key: Id, amount: int, accept: bool): (r: (State, ChargeOutcome))
    ensures r.0.payments == s.payments
  {
    if key in s.charges then (s, s.charges[key].outcome)
    else
      var outcome := if accept then Charged(key) else Declined;
      (s.(charges := s.charges[key := LedgerEntry(outcome, amount)],
          moves := if accept then s.moves + [Take(key, amount)] else s.moves),
       outcome)
  }

  function Published(s: State, result: PaymentResult, dedup: bool): State {
    s.(results := if dedup && result in s.resultIds then s.results else s.results + multiset{result},
       resultIds := s.resultIds + {result})
  }

  /** `ChargeProcessor.process`: false when it throws. An event that does not parse throws before anything. */
  function ProcessCharge(s: State, job: ChargeJob, verdict: Verdict, dedup: bool): (State, bool) {
    if job.event.amountCents <= 0 then (s, false)
    else
      var (t, result) := ChargePayment(s, job.event, verdict);
      if result.None? then (t, false) else (Published(t, result.value, dedup), true)
  }

  function Failed(job: ChargeJob): ChargeJob {
    job.(attemptsMade := job.attemptsMade + 1)
  }

  /** A failed job is run again while attempts remain. */
  function Requeued(jobs: multiset<ChargeJob>, job: ChargeJob): multiset<ChargeJob> {
    if Failed(job).attemptsMade < CHARGE_ATTEMPTS then jobs - multiset{job} + multiset{Failed(job)}
    else jobs - multiset{job}
  }

  function UsedUp(jobs: multiset<ChargeJob>, job: ChargeJob): multiset<ChargeJob> {
    if Failed(job).attemptsMade < CHARGE_ATTEMPTS then jobs else jobs + multiset{Failed(job)}
  }

  /** `ChargeProcessor.onFailed`: only a job that has used every attempt it was allowed is dead-lettered;
      the default is one. */
  function Buried(letters: multiset<ChargeJob>, job: Option<ChargeJob>, attempts: Option<nat>): multiset<ChargeJob> {
    var allowed := if attempts.Some? then attempts.value else 1;
    if job.None? || job.value.attemptsMade < allowed then letters else letters + multiset{job.value}
  }

  function FailAttempt(s: State, job: ChargeJob): State {
    s.(chargeJobs := Requeued(s.chargeJobs, job),
       exhausted := UsedUp(s.exhausted, job),
       deadLetters := Buried(s.deadLetters, Some(Failed(job)), Some(CHARGE_ATTEMPTS)))
  }

  /** One delivery of a job: processed and acknowledged, or failed. */
  function DeliverCharge(s: State, job: ChargeJob, verdict: Verdict, dedup: bool): State {
    var (t, ok) := ProcessCharge(s, job, verdict, dedup);
    if ok then t.(chargeJobs := t.chargeJobs - multiset{job}) else FailAttempt(t, job)
  }

  lemma RetryShape(t: State, h: Handler)
    requires Throws(h) && h.job in t.chargeJobs && Failed(h.job).attemptsMade < CHARGE_ATTEMPTS
    ensures ThrowCharge(Enter(t, h), h) == FailAttempt(t, h.job)
  {
    OwnHandler(t, h, h);
  }

  /** After its last failure, before its dead letter. */
  function Unburied(t: State, job: ChargeJob): State {
    FailAttempt(t, job).(deadLetters := t.deadLetters)
  }

  lemma ExhaustShape(t: State, h: Handler)
    requires Throws(h) && h.job in t.chargeJobs && Failed(h.job).attemptsMade >= CHARGE_ATTEMPTS
    ensures ThrowCharge(Enter(t, h), h) == Enter(Unburied(t, h.job), FailureNotice(Failed(h.job)))
  {
    OwnHandler(t, h, FailureNotice(Failed(h.job)));
  }

  lemma BuryShape(t: State, job: ChargeJob)
    requires Failed(job).attemptsMade >= CHARGE_ATTEMPTS
    ensures DeadLetterJob(Enter(Unburied(t, job), FailureNotice(Failed(job))), Failed(job)) == FailAttempt(t, job)
  {
    OwnHandler(Unburied(t, job), FailureNotice(Failed(job)), FailureNotice(Failed(job)));
  }

  lemma FailLeads(s: State, t: State, h: Handler)
    requires Throws(h) && h.job in t.chargeJobs && Leads(s, Enter(t, h))
    ensures Leads(s, FailAttempt(t, h.job))
  {
    if Failed(h.job).attemptsMade < CHARGE_ATTEMPTS {
      RetryShape(t, h);
      ChargeStep(s, Enter(t, h), FailAttempt(t, h.job), ChargeThrow(h));
    } else {
      var noticed := Enter(Unburied(t, h.job), FailureNotice(Failed(h.job)));
      ExhaustShape(t, h);
      ChargeStep(s, Enter(t, h), noticed, ChargeThrow(h));
      BuryShape(t, h.job);
      ChargeStep(s, noticed, FailAttempt(t, h.job), DeadLetter(Failed(h.job)));
    }
  }

  lemma PublishShape(t: State, job: ChargeJob, result: PaymentResult, dedup: bool)
    ensures var u := Published(t, result, dedup);
      && PublishResult(Enter(t, ChargePublishing(job, result)), job, result, dedup) == Enter(u, ChargeAcking(job))
      && AckCharge(Enter(u, ChargeAcking(job)), job) == u.(chargeJobs := t.chargeJobs - multiset{job})
  {
    OwnHandler(t, ChargePublishing(job, result), ChargeAcking(job));
    OwnHandler(Published(t, result, dedup), ChargeAcking(job), ChargeAcking(job));
  }

  lemma PublishLeads(s: State, t: State, job: ChargeJob, result: PaymentResult, dedup: bool)
    requires Leads(s, Enter(t, ChargePublishing(job, result)))
    ensures Leads(s, Published(t, result, dedup).(chargeJobs := t.chargeJobs - multiset{job}))
  {
    var u := Published(t, result, dedup);
    PublishShape(t, job, result, dedup);
    ChargeStep(s, Enter(t, ChargePublishing(job, result)), Enter(u, ChargeAcking(job)),
               ChargePublish(job, result, dedup));
    ChargeStep(s, Enter(u, ChargeAcking(job)), u.(chargeJobs := t.chargeJobs - multiset{job}), ChargeAck(job));
  }

  lemma LookupShape(s: State, job: ChargeJob)
    requires job.event.amountCents > 0
    ensures var key, taken := job.event.idempotencyKey, Enter(s, ChargeTaken(job));
      && (key !in s.payments ==> LookupPayment(taken, job) == Enter(s, ChargeClaiming(job)))
      && (key in s.payments && s.payments[key].status == PENDING ==>
            LookupPayment(taken, job) == Enter(s, ChargeCalling(job)))
      && (key in s.payments && s.payments[key].status != PENDING && Presentable(s.payments[key]) ==>
            LookupPayment(taken, job) == Enter(s, ChargePublishing(job, ToResult(job.event, s.payments[key]))))
  {
    var key, taken := job.event.idempotencyKey, ChargeTaken(job);
    OwnHandler(s, taken, ChargeClaiming(job));
    OwnHandler(s, taken, ChargeCalling(job));
    if key in s.payments && Presentable(s.payments[key]) {
      OwnHandler(s, taken, ChargePublishing(job, ToResult(job.event, s.payments[key])));
    }
  }

  lemma ClaimPaymentShape(s: State, job: ChargeJob)
    requires job.event.idempotencyKey !in s.payments
    ensures ClaimPayment(Enter(s, ChargeClaiming(job)), job) == Enter(Opened(s, job.event), ChargeCalling(job))
  {
    OwnHandler(s, ChargeClaiming(job), ChargeCalling(job));
  }

  /** Looking the payment up leads straight to the provider when the row is there and pending, and by
      way of opening it when it is not there. */
  lemma OpenLeads(s: State, job: ChargeJob)
    requires Leads(s, Enter(s, ChargeTaken(job))) && job.event.amountCents > 0
    requires var key := job.event.idempotencyKey; key in s.payments ==> s.payments[key].status == PENDING
    ensures Leads(s, Enter(Opened(s, job.event), ChargeCalling(job)))
  {
    var taken, t := Enter(s, ChargeTaken(job)), Opened(s, job.event);
    LookupShape(s, job);
    ChargeStep(s, taken, LookupPayment(taken, job), ChargeLookup(job));
    if job.event.idempotencyKey !in s.payments {
      ClaimPaymentShape(s, job);
      ChargeStep(s, Enter(s, ChargeClaiming(job)), Enter(t, ChargeCalling(job)), ChargeClaim(job));
    }
  }

  lemma CallShape(t: State, job: ChargeJob, accept: bool)
    requires job.event.idempotencyKey in t.payments
    ensures var key := job.event.idempotencyKey;
      var (u, outcome) := Called(t, key, job.event.amountCents, accept);
      var settled := Settle(t.payments[key], outcome);
      && CallProvider(Enter(t, ChargeCalling(job)), job, accept) == Enter(u, ChargeRecording(job, outcome))
      && RecordOutcome(Enter(u, ChargeRecording(job, outcome)), job, outcome)
         == Enter(u.(payments := u.payments[key := settled]), ChargePublishing(job, ToResult(job.event, settled)))
  {
    var key := job.event.idempotencyKey;
    var (u, outcome) := Called(t, key, job.event.amountCents, accept);
    OwnHandler(t, ChargeCalling(job), ChargeRecording(job, outcome));
    OwnHandler(u, ChargeRecording(job, outcome),
               ChargePublishing(job, ToResult(job.event, Settle(t.payments[key], outcome))));
  }

  lemma CallLeads(s: State, t: State, job: ChargeJob, accept: bool)
    requires Leads(s, Enter(t, ChargeCalling(job))) && job.event.idempotencyKey in t.payments
    ensures var key := job.event.idempotencyKey;
      var (u, outcome) := Called(t, key, job.event.amountCents, accept);
      var settled := Settle(t.payments[key], outcome);
      Leads(s, Enter(u.(payments := u.payments[key := settled]), ChargePublishing(job, ToResult(job.event, settled))))
  {
    var key := job.event.idempotencyKey;
    var (u, outcome) := Called(t, key, job.event.amountCents, accept);
    var settled := Settle(t.payments[key], outcome);
    var v := Enter(u.(payments := u.payments[key := settled]), ChargePublishing(job, ToResult(job.event, settled)));
    CallShape(t, job, accept);
    ChargeStep(s, Enter(t, ChargeCalling(job)), Enter(u, ChargeRecording(job, outcome)), ChargeCall(job, accept));
    ChargeStep(s, Enter(u, ChargeRecording(job, outcome)), v, ChargeRecord(job, outcome));
  }

  lemma ReplayLeads(s: State, job: ChargeJob, verdict: Verdict, dedup: bool)
    requires job in s.chargeJobs && Leads(s, Enter(s, ChargeTaken(job))) && job.event.amountCents > 0
    requires var key := job.event.idempotencyKey; key in s.payments && s.payments[key].status != PENDING
    ensures Leads(s, DeliverCharge(s, job, verdict, dedup))
  {
    var taken, payment := ChargeTaken(job), s.payments[job.event.idempotencyKey];
    if Presentable(payment) {
      LookupShape(s, job);
      ChargeStep(s, Enter(s, taken), LookupPayment(Enter(s, taken), job), ChargeLookup(job));
      PublishLeads(s, s, job, ToResult(job.event, payment), dedup);
    } else {
      FailLeads(s, s, taken);
    }
  }

  lemma FreshChargeShape(s: State, job: ChargeJob, verdict: Verdict, dedup: bool)
    requires job.event.amountCents > 0
    requires var key := job.event.idempotencyKey; key in s.payments ==> s.payments[key].status == PENDING
    ensures var key, t := job.event.idempotencyKey, Opened(s, job.event);
      if key !in t.charges && verdict == IsUnavailable then DeliverCharge(s, job, verdict, dedup) == FailAttempt(t, job)
      else
        var (u, outcome) := Called(t, key, job.event.amountCents, verdict == Accepts);
        var settled := Settle(t.payments[key], outcome);
        var v := u.(payments := u.payments[key := settled]);
        DeliverCharge(s, job, verdict, dedup)
        == Published(v, ToResult(job.event, settled), dedup).(chargeJobs := v.chargeJobs - multiset{job})
  {}

  lemma FreshChargeLeads(s: State, job: ChargeJob, verdict: Verdict, dedup: bool)
    requires job in s.chargeJobs && Leads(s, Enter(s, ChargeTaken(job))) && job.event.amountCents > 0
    requires var key := job.event.idempotencyKey; key in s.payments ==> s.payments[key].status == PENDING
    ensures Leads(s, DeliverCharge(s, job, verdict, dedup))
  {
    var key, t := job.event.idempotencyKey, Opened(s, job.event);
    FreshChargeShape(s, job, verdict, dedup);
    OpenLeads(s, job);
    if key !in t.charges && verdict == IsUnavailable {
      FailLeads(s, t, ChargeCalling(job));
    } else {
      var (u, outcome) := Called(t, key, job.event.amountCents, verdict == Accepts);
      var settled := Settle(t.payments[key], outcome);
      CallLeads(s, t, job, verdict == Accepts);
      PublishLeads(s, u.(payments := u.payments[key := settled]), job, ToResult(job.event, settled), dedup);
    }
  }

  lemma DeliverChargeIsARun(s: State, job: ChargeJob, verdict: Verdict, dedup: bool)
    requires job in s.chargeJobs
    ensures Leads(s, DeliverCharge(s, job, verdict, dedup))
  {
    var taken, key := ChargeTaken(job), job.event.idempotencyKey;
    Stays(s);
    ChargeStep(s, s, Enter(s, taken), ChargeTake(job));
    if job.event.amountCents <= 0 {
      FailLeads(s, s, taken);
    } else if key in s.payments && s.payments[key].status != PENDING {
      ReplayLeads(s, job, verdict, dedup);
    } else {
      FreshChargeLeads(s, job, verdict, dedup);
    }
  }

  /** Charging one event any number of times takes the money at most once: a second charge, whatever the
      provider would now say, moves nothing and reports the same. */
  lemma ChargingTwiceIsChargingOnce(s: State, e: BookingHeld, verdict: Verdict, later: Verdict)
    requires ChargePayment(s, e, verdict).1.Some?
    ensures var (t, result) := ChargePayment(s, e, verdict);
      ChargePayment(t, e, later) == (t, result)
  {}

  /** Even when the first charge died before it could record anything but the provider's own entry. */
  lemma ProviderRemembers(s: State, key: Id, amount: int, accept: bool, later: bool)
    ensures var (t, outcome) := Called(s, key, amount, accept);
      Called(t, key, amount, later) == (t, outcome)
  {}

  // ---------------------------------------------------------------------------------------------
  // Settlement

  datatype Settlement = Applied | AlreadySettled | Missing | RefundRequired(status: Status)

  /** `updateMany` on the one row, if it is still HELD. */
  function SettledIfHeld(s: State, id: Id, to: Status): State {
    if id < |s.reservations| && s.reservations[id].status == HELD
    then s.(reservations := SetStatus(s.reservations, id, to)) else s
  }

  function ApplyPaymentSucceeded(s: State, id: Id): (State, Settlement) {
    (SettledIfHeld(s, id, CONFIRMED),
     if id >= |s.reservations| then Missing
     else if s.reservations[id].status == HELD then Applied
     else if s.reservations[id].status == CONFIRMED then AlreadySettled
     else RefundRequired(s.reservations[id].status))
  }

  function ApplyPaymentFailed(s: State, id: Id): (State, Settlement) {
    (SettledIfHeld(s, id, CANCELLED),
     if id >= |s.reservations| then Missing
     else if s.reservations[id].status == HELD then Applied
     else AlreadySettled)
  }

  function SettleResult(s: State, r: PaymentResult): (State, Settlement) {
    if r.PaymentSucceeded? then ApplyPaymentSucceeded(s, r.reservationId) else ApplyPaymentFailed(s, r.reservationId)
  }

  /** `PaymentResultProcessor.process`. */
  function ProcessResult(s: State, r: PaymentResult, dedup: bool): State {
    var (t, settlement) := SettleResult(s, r);
    if settlement.RefundRequired? then AddRefund(t, RefundRequested(r.reservationId, r.idempotencyKey), dedup) else t
  }

  function DeliverResult(s: State, r: PaymentResult, dedup: bool): State {
    ProcessResult(s, r, dedup).(results := s.results - multiset{r})
  }

  lemma AckResultLeads(s: State, t: State, r: PaymentResult)
    requires Leads(s, Enter(t, ResultAcking(r)))
    ensures Leads(s, t.(results := t.results - multiset{r}))
  {
    OwnHandler(t, ResultAcking(r), ResultAcking(r));
    AnswerStep(s, Enter(t, ResultAcking(r)), t.(results := t.results - multiset{r}), ResultAck(r));
  }

  lemma UpdateShape(s: State, r: PaymentResult)
    ensures var id, after := r.reservationId, UpdateIfHeld(Enter(s, ResultTaken(r)), r);
      if id < |s.reservations| && s.reservations[id].status == HELD
      then after == Enter(SettleResult(s, r).0, ResultAcking(r))
      else after == Enter(s, ResultChecking(r))
  {
    OwnHandler(s, ResultTaken(r), ResultChecking(r));
    OwnHandler(s, ResultTaken(r), ResultAcking(r));
  }

  lemma CheckShape(s: State, r: PaymentResult, dedup: bool)
    requires r.reservationId >= |s.reservations| || s.reservations[r.reservationId].status != HELD
    ensures var after := CheckSettled(Enter(s, ResultChecking(r)), r);
      if SettleResult(s, r).1.RefundRequired? then
        && after == Enter(s, ResultRefunding(r))
        && RequestRefund(after, r, dedup) == Enter(ProcessResult(s, r, dedup), ResultAcking(r))
      else after == Enter(ProcessResult(s, r, dedup), ResultAcking(r))
  {
    OwnHandler(s, ResultChecking(r), ResultRefunding(r));
    OwnHandler(s, ResultChecking(r), ResultAcking(r));
    var q := RefundRequested(r.reservationId, r.idempotencyKey);
    OwnHandler(AddRefund(s, q, dedup), ResultRefunding(r), ResultAcking(r));
  }

  lemma SettleLateLeads(s: State, r: PaymentResult, dedup: bool)
    requires Leads(s, Enter(s, ResultChecking(r)))
    requires r.reservationId >= |s.reservations| || s.reservations[r.reservationId].status != HELD
    ensures Leads(s, Enter(ProcessResult(s, r, dedup), ResultAcking(r)))
  {
    var checking := Enter(s, ResultChecking(r));
    var after := CheckSettled(checking, r);
    CheckShape(s, r, dedup);
    AnswerStep(s, checking, after, ResultCheck(r));
    if SettleResult(s, r).1.RefundRequired? {
      AnswerStep(s, after, RequestRefund(after, r, dedup), ResultRefund(r, dedup));
    }
  }

  lemma ResultsUntouched(s: State, r: PaymentResult, dedup: bool)
    ensures var t := ProcessResult(s, r, dedup); DeliverResult(s, r, dedup) == t.(results := t.results - multiset{r})
  {}

  lemma ProcessLeads(s: State, r: PaymentResult, dedup: bool)
    requires Leads(s, Enter(s, ResultTaken(r)))
    ensures Leads(s, Enter(ProcessResult(s, r, dedup), ResultAcking(r)))
  {
    var taken := Enter(s, ResultTaken(r));
    UpdateShape(s, r);
    AnswerStep(s, taken, UpdateIfHeld(taken, r), ResultUpdate(r));
    if r.reservationId >= |s.reservations| || s.reservations[r.reservationId].status != HELD {
      SettleLateLeads(s, r, dedup);
    }
  }

  lemma DeliverResultIsARun(s: State, r: PaymentResult, dedup: bool)
    requires r in s.results
    ensures Leads(s, DeliverResult(s, r, dedup))
  {
    Stays(s);
    AnswerStep(s, s, Enter(s, ResultTaken(r)), ResultTake(r));
    ProcessLeads(s, r, dedup);
    AckResultLeads(s, ProcessResult(s, r, dedup), r);
    ResultsUntouched(s, r, dedup);
  }

  /** Settling a result again moves no reservation, and never confirms what a decline released. */
  lemma SettlingTwiceIsSettlingOnce(s: State, r: PaymentResult, other: PaymentResult)
    requires other.reservationId == r.reservationId
    ensures SettleResult(SettleResult(s, r).0, other).0 == SettleResult(s, r).0
    ensures SettleResult(s, r).1.Applied? <==> SettleResult(s, r).0 != s
  {
    var id := r.reservationId;
    if id < |s.reservations| && s.reservations[id].status == HELD {
      assert SettleResult(s, r).0.reservations[id].status != HELD;
    }
  }

  // ---------------------------------------------------------------------------------------------
  // The refund

  /** `MockPaymentProvider.refund`. */
  function GivenBack(s: State, key: Id): State {
    if key in s.refunds then s
    else s.(refunds := s.refunds + {key}, moves := s.moves + [GiveBack(key, AmountTaken(s.charges, key))])
  }

  /** `PaymentService.refund`. */
  function RefundPayment(s: State, q: RefundRequested): State {
    var key := q.idempotencyKey;
    if key in s.payments && s.payments[key].status == SUCCEEDED then
      GivenBack(s, key).(payments := s.payments[key := s.payments[key].(status := REFUNDED)])
    else s
  }

  function DeliverRefund(s: State, q: RefundRequested): State {
    RefundPayment(s, q).(refundJobs := s.refundJobs - multiset{q})
  }

  lemma AckRefundLeads(s: State, t: State, q: RefundRequested)
    requires Leads(s, Enter(t, RefundAcking(q)))
    ensures Leads(s, t.(refundJobs := t.refundJobs - multiset{q}))
  {
    OwnHandler(t, RefundAcking(q), RefundAcking(q));
    AnswerStep(s, Enter(t, RefundAcking(q)), t.(refundJobs := t.refundJobs - multiset{q}), RefundAck(q));
  }

  lemma RefundShape(s: State, q: RefundRequested)
    ensures var key := q.idempotencyKey;
      if key in s.payments && s.payments[key].status == SUCCEEDED then
        && LookupRefundable(Enter(s, RefundTaken(q)), q) == Enter(s, RefundCalling(q))
        && CallRefund(Enter(s, RefundCalling(q)), q) == Enter(GivenBack(s, key), RefundRecording(q))
      else LookupRefundable(Enter(s, RefundTaken(q)), q) == Enter(s, RefundAcking(q))
  {
    OwnHandler(s, RefundTaken(q), RefundCalling(q));
    OwnHandler(s, RefundTaken(q), RefundAcking(q));
    OwnHandler(s, RefundCalling(q), RefundRecording(q));
  }

  lemma RefundRecordShape(s: State, q: RefundRequested)
    requires var key := q.idempotencyKey; key in s.payments && s.payments[key].status == SUCCEEDED
    ensures RecordRefund(Enter(GivenBack(s, q.idempotencyKey), RefundRecording(q)), q)
         == Enter(RefundPayment(s, q), RefundAcking(q))
  {
    OwnHandler(GivenBack(s, q.idempotencyKey), RefundRecording(q), RefundAcking(q));
  }

  lemma RefundLeads(s: State, q: RefundRequested)
    requires Leads(s, Enter(s, RefundTaken(q)))
    ensures Leads(s, Enter(RefundPayment(s, q), RefundAcking(q)))
  {
    var key, taken := q.idempotencyKey, Enter(s, RefundTaken(q));
    RefundShape(s, q);
    AnswerStep(s, taken, LookupRefundable(taken, q), RefundLookup(q));
    if key in s.payments && s.payments[key].status == SUCCEEDED {
      RefundRecordShape(s, q);
      var recording := Enter(GivenBack(s, key), RefundRecording(q));
      AnswerStep(s, Enter(s, RefundCalling(q)), recording, RefundCall(q));
      AnswerStep(s, recording, Enter(RefundPayment(s, q), RefundAcking(q)), RefundRecord(q));
    }
  }

  lemma DeliverRefundIsARun(s: State, q: RefundRequested)
    requires q in s.refundJobs
    ensures Leads(s, DeliverRefund(s, q))
  {
    Stays(s);
    AnswerStep(s, s, Enter(s, RefundTaken(q)), RefundTake(q));
    RefundLeads(s, q);
    AckRefundLeads(s, RefundPayment(s, q), q);
  }

  /** A refund moves money exactly when there is a recorded charge that has not been given back, and
      asking again moves nothing more. */
  lemma RefundingTwiceIsRefundingOnce(s: State, q: RefundRequested)
    ensures var key, t := q.idempotencyKey, RefundPayment(s, q);
      && (t.moves != s.moves <==> key in s.payments && s.payments[key].status == SUCCEEDED && key !in s.refunds)
      && RefundPayment(t, q) == t
  {}
}

/** The services as they run: classes that change the tables, the queues and the provider's ledgers in
    place. Each method is tied to its operation, and so to a run of the saga's steps. */
module Services {
  import opened BookingTypes
  import opened Intervals
  import opened Saga
  import opened Operations
  import opened Answers
  import Nights
  import Relay

  // ---------------------------------------------------------------------------------------------
  // What the services share

  datatype Announcement = Announcement(listing: Id, reservation: Id, status: Status)

  /** The announcements a sweep makes for its candidates, in their order. */
  function Announced(rows: seq<Reservation>, ids: seq<Id>, status: Status): seq<Announcement>
    requires forall k :: 0 <= k < |ids| ==> ids[k] < |rows|
  {
    seq(|ids|, k requires 0 <= k < |ids| => Announcement(rows[ids[k]].listing, ids[k], status))
  }

  /** A sweep moves no reservation to another listing. */
  lemma SweptListings(rows: seq<Reservation>, now: Instant, ids: seq<Id>, status: Status)
    requires forall k :: 0 <= k < |ids| ==> ids[k] < |rows|
    ensures Announced(Expired(rows, now), ids, status) == Announced(rows, ids, status)
    ensures Announced(Completed(rows, now), ids, status) == Announced(rows, ids, status)
  {}

  class Database {
    var listings: map<Id, Listing>
    var reservations: seq<Reservation>
    var guests: seq<Id>
    var outbox: seq<OutboxRow>
    var payments: map<Id, Payment>

    constructor (listings: map<Id, Listing>)
      ensures this.listings == listings && reservations == [] && guests == [] && outbox == [] && payments == map[]
    {
      this.listings, reservations, guests, outbox, payments := listings, [], [], [], map[];
    }

    method UpdateStatus(id: Id, status: Status)
      requires id < |reservations|
      modifies this`reservations
      ensures reservations == SetStatus(old(reservations), id, status)
    {
      reservations := reservations[id := reservations[id].(status := status)];
    }

    /** `updateMany` on one id: the row is written only if it is still HELD. */
    method UpdateIfHeld(id: Id, status: Status) returns (count: nat)
      modifies this`reservations
      ensures count == (if id < |old(reservations)| && old(reservations)[id].status == HELD then 1 else 0)
      ensures reservations == (if count == 1 then SetStatus(old(reservations), id, status) else old(reservations))
    {
      if id < |reservations| && reservations[id].status == HELD {
        UpdateStatus(id, status);
        return 1;
      }
      return 0;
    }

    method FindDueHolds(now: Instant) returns (ids: seq<Id>)
      ensures ids == DueHolds(reservations, now)
      ensures forall i: Id :: i in ids <==>
                i < |reservations| && reservations[i].status == HELD && reservations[i].holdExpiresAt < now
    {
      DueHoldsAre(reservations, now);
      ids := [];
      for i := 0 to |reservations|
        invariant ids == DueHolds(reservations[..i], now)
      {
        assert reservations[..i + 1][..i] == reservations[..i];
        if reservations[i].status == HELD && reservations[i].holdExpiresAt < now {
          ids := ids + [i];
        }
      }
      assert reservations[..|reservations|] == reservations;
    }

    method FindFinishedStays(now: Instant) returns (ids: seq<Id>)
      ensures ids == FinishedStays(reservations, now)
      ensures forall i: Id :: i in ids <==>
                i < |reservations| && reservations[i].status == CONFIRMED && reservations[i].checkOut < now
    {
      FinishedStaysAre(reservations, now);
      ids := [];
      for i := 0 to |reservations|
        invariant ids == FinishedStays(reservations[..i], now)
      {
        assert reservations[..i + 1][..i] == reservations[..i];
        if reservations[i].status == CONFIRMED && reservations[i].checkOut < now {
          ids := ids + [i];
        }
      }
      assert reservations[..|reservations|] == reservations;
    }

    /** One set-based update, row by row. */
    method ExpireHolds(now: Instant) returns (count: nat)
      modifies this`reservations
      ensures reservations == Expired(old(reservations), now)
      ensures |reservations| == |old(reservations)|
      ensures forall i :: 0 <= i < |reservations| ==>
                var row := old(reservations)[i];
                reservations[i] == if row.status == HELD && row.holdExpiresAt < now then row.(status := EXPIRED)
                                   else row
      ensures count == |DueHolds(old(reservations), now)|
    {
      ghost var before := reservations;
      count := 0;
      for i := 0 to |reservations|
        invariant |reservations| == |before|
        invariant forall k :: 0 <= k < i ==> reservations[k] == ExpireRow(before[k], now)
        invariant forall k :: i <= k < |reservations| ==> reservations[k] == before[k]
        invariant count == |DueHolds(before[..i], now)|
      {
        assert before[..i + 1][..i] == before[..i];
        if reservations[i].status == HELD && reservations[i].holdExpiresAt < now {
          reservations := reservations[i := reservations[i].(status := EXPIRED)];
          count := count + 1;
        }
      }
      assert before[..|before|] == before;
    }

    method CompleteStays(now: Instant) returns (count: nat)
      modifies this`reservations
      ensures reservations == Completed(old(reservations), now)
      ensures |reservations| == |old(reservations)|
      ensures forall i :: 0 <= i < |reservations| ==>
                var row := old(reservations)[i];
                reservations[i] == if row.status == CONFIRMED && row.checkOut < now then row.(status := COMPLETED)
                                   else row
      ensures count == |FinishedStays(old(reservations), now)|
    {
      ghost var before := reservations;
      count := 0;
      for i := 0 to |reservations|
        invariant |reservations| == |before|
        invariant forall k :: 0 <= k < i ==> reservations[k] == CompleteRow(before[k], now)
        invariant forall k :: i <= k < |reservations| ==> reservations[k] == before[k]
        invariant count == |FinishedStays(before[..i], now)|
      {
        assert before[..i + 1][..i] == before[..i];
        if reservations[i].status == CONFIRMED && reservations[i].checkOut < now {
          reservations := reservations[i := reservations[i].(status := COMPLETED)];
          count := count + 1;
        }
      }
      assert before[..|before|] == before;
    }

    /** The unique key refuses a second payment; the caller does not mind. */
    method CreatePayment(e: BookingHeld) returns (created: bool)
      modifies this`payments
      ensures created <==> e.idempotencyKey !in old(payments)
      ensures payments == (if created
                           then old(payments)[
                             e.idempotencyKey := Payment(e.reservationId, PENDING, e.amountCents, None)]
                           else old(payments))
    {
      if e.idempotencyKey in payments {
        return false;
      }
      payments := payments[e.idempotencyKey := Payment(e.reservationId, PENDING, e.amountCents, None)];
      return true;
    }
  }

  /** The provider and its ledgers. */
  class MockPaymentProvider {
    var charges: map<Id, LedgerEntry>
    var refunds: set<Id>
    var moves: seq<MoneyMove>

    constructor ()
      ensures charges == map[] && refunds == {} && moves == []
    {
      charges, refunds, moves := map[], {}, [];
    }

    /** No outcome means a transient fault: nothing is recorded. A settled key is replayed before anything else. */
    method Charge(key: Id, amountCents: int, verdict: Verdict) returns (outcome: Option<ChargeOutcome>)
      modifies this`charges, this`moves
      ensures outcome.None? <==> key !in old(charges) && verdict == IsUnavailable
      ensures outcome.None? ==> charges == old(charges) && moves == old(moves)
      ensures outcome.Some? ==> key in charges && charges[key].outcome == outcome.value
      ensures key in old(charges) ==> charges == old(charges) && moves == old(moves)
      ensures key !in old(charges) && outcome.Some? ==>
        && outcome.value == (if verdict == Accepts then Charged(key) else Declined)
        && charges == old(charges)[key := LedgerEntry(outcome.value, amountCents)]
        && moves == (if verdict == Accepts then old(moves) + [Take(key, amountCents)] else old(moves))
    {
      if key in charges {
        return Some(charges[key].outcome);
      }
      if verdict == IsUnavailable {
        return None;
      }
      var answer := if verdict == Accepts then Charged(key) else Declined;
      charges := charges[key := LedgerEntry(answer, amountCents)];
      if verdict == Accepts {
        moves := moves + [Take(key, amountCents)];
      }
      return Some(answer);
    }

    method Refund(key: Id)
      modifies this`refunds, this`moves
      ensures refunds == old(refunds) + {key}
      ensures moves == (if key in old(refunds) then old(moves)
                        else old(moves) + [GiveBack(key, AmountTaken(charges, key))])
    {
      if key !in refunds {
        refunds := refunds + {key};
        moves := moves + [GiveBack(key, AmountTaken(charges, key))];
      }
    }
  }

  class Queues {
    var chargeJobs: multiset<ChargeJob>
    var results: multiset<PaymentResult>
    var refundJobs: multiset<RefundRequested>
    var deadLetters: multiset<ChargeJob>
    var resultIds: set<PaymentResult>
    var refundIds: set<RefundRequested>

    constructor ()
      ensures chargeJobs == multiset{} && results == multiset{} && refundJobs == multiset{} && deadLetters == multiset{}
      ensures resultIds == {} && refundIds == {}
    {
      chargeJobs, results, refundJobs, deadLetters := multiset{}, multiset{}, multiset{}, multiset{};
      resultIds, refundIds := {}, {};
    }

    /** A job whose id the queue still knows is not added again. */
    method AddResult(r: PaymentResult, dedup: bool)
      modifies this`results, this`resultIds
      ensures results == (if dedup && r in old(resultIds) then old(results) else old(results) + multiset{r})
      ensures resultIds == old(resultIds) + {r}
    {
      if !dedup || r !in resultIds {
        results := results + multiset{r};
      }
      resultIds := resultIds + {r};
    }

    method AddRefund(q: RefundRequested, dedup: bool)
      modifies this`refundJobs, this`refundIds
      ensures refundJobs == (if dedup && q in old(refundIds) then old(refundJobs) else old(refundJobs) + multiset{q})
      ensures refundIds == old(refundIds) + {q}
    {
      if !dedup || q !in refundIds {
        refundJobs := refundJobs + multiset{q};
      }
      refundIds := refundIds + {q};
    }
  }

  /** Everything together, seen as one state of the saga. `others` are the handlers in flight elsewhere. */
  class Platform {
    const db: Database
    const provider: MockPaymentProvider
    const queues: Queues
    const holdTtlMs: nat
    var clock: Instant
    var announcements: seq<Announcement>
    ghost var exhausted: multiset<ChargeJob>
    ghost var lostNotices: multiset<ChargeJob>
    ghost var lostRefunds: set<Id>
    ghost var others: multiset<Handler>

    constructor (db: Database, provider: MockPaymentProvider, queues: Queues, holdTtlMs: nat, clock: Instant)
      requires db.reservations == [] && db.guests == [] && db.outbox == [] && db.payments == map[]
      requires provider.charges == map[] && provider.refunds == {} && provider.moves == []
      requires queues.chargeJobs == multiset{} && queues.results == multiset{} && queues.refundJobs == multiset{}
      requires queues.deadLetters == multiset{} && queues.resultIds == {} && queues.refundIds == {}
      ensures this.db == db && this.provider == provider && this.queues == queues
      ensures AsState() == Init(clock, holdTtlMs) && Valid() && announcements == []
    {
      this.db, this.provider, this.queues := db, provider, queues;
      this.holdTtlMs, this.clock, announcements := holdTtlMs, clock, [];
      exhausted, lostNotices, lostRefunds, others := multiset{}, multiset{}, {}, multiset{};
    }

    ghost function AsState(): State
      reads this, db, provider, queues
    {
      State(clock, holdTtlMs, db.reservations, db.outbox, db.payments,
            provider.charges, provider.refunds, provider.moves,
            queues.chargeJobs, queues.results, queues.refundJobs, queues.deadLetters,
            queues.resultIds, queues.refundIds,
            exhausted, lostNotices, lostRefunds, others)
    }

    /** Every reservation has its guest. */
    ghost predicate Valid()
      reads this, db
    {
      |db.guests| == |db.reservations|
    }

    method Wait(ms: nat)
      modifies this`clock
      ensures clock == old(clock) + ms
    {
      clock := clock + ms;
    }

    method Announce(listing: Id, reservation: Id, status: Status)
      modifies this`announcements
      ensures announcements == old(announcements) + [Announcement(listing, reservation, status)]
    {
      announcements := announcements + [Announcement(listing, reservation, status)];
    }

    method AnnounceAll(ids: seq<Id>, status: Status)
      requires forall k :: 0 <= k < |ids| ==> ids[k] < |db.reservations|
      modifies this`announcements
      ensures announcements == old(announcements) + Announced(db.reservations, ids, status)
    {
      for k := 0 to |ids|
        invariant announcements == old(announcements) + Announced(db.reservations, ids[..k], status)
      {
        Announce(db.reservations[ids[k]].listing, ids[k], status);
      }
      assert ids[..|ids|] == ids;
    }
  }

  // ---------------------------------------------------------------------------------------------
  // booking.service.ts

  class BookingService {
    const p: Platform

    constructor (p: Platform)
      ensures this.p == p
    {
      this.p := p;
    }

    /** One run of the claiming transaction. */
    method ClaimSlot(guest: Id, r: HoldRequest, price: nat, readAt: Instant, fault: Option<DbError>)
        returns (failure: Option<DbError>)
      requires p.Valid()
      modifies p.db`reservations, p.db`guests, p.db`outbox
      ensures p.Valid()
      ensures (p.AsState(), failure)
           == Claim(old(p.AsState()), HoldClaiming(r.listing, r.checkIn, r.checkOut, price, readAt, false), fault)
      ensures p.db.guests == old(p.db.guests) + (if failure.None? then [guest] else [])
    {
      if fault.Some? {
        return fault;
      }
      var row := Reservation(r.listing, r.checkIn, r.checkOut, HELD, price, p.clock + p.holdTtlMs, readAt, p.clock);
      if !Admits(p.db.reservations, row) {
        return Some(OVERLAP);
      }
      var id := |p.db.reservations|;
      p.db.reservations := p.db.reservations + [row];
      p.db.guests := p.db.guests + [guest];
      p.db.outbox := p.db.outbox + [OutboxRow(BookingHeld(id, id, price), p.clock, false, 0)];
      return None;
    }

    method TryClaim(guest: Id, r: HoldRequest, price: nat, readAt: Instant, a: Attempt)
      returns (failure: Option<DbError>)
      requires p.Valid()
      modifies p`clock, p.db`reservations, p.db`guests, p.db`outbox
      ensures p.Valid()
      ensures (p.AsState(), failure)
           == Claim(Waited(old(p.AsState()), a.wait),
                    HoldClaiming(r.listing, r.checkIn, r.checkOut, price, readAt, false), a.fault)
      ensures p.db.guests == old(p.db.guests) + (if failure.None? then [guest] else [])
    {
      p.Wait(a.wait);
      failure := ClaimSlot(guest, r, price, readAt, a.fault);
    }

    /** The claim, retried once if a deadlock aborted it. */
    method ClaimWithRetry(guest: Id, r: HoldRequest, price: nat, readAt: Instant, first: Attempt, second: Attempt)
        returns (failure: Option<DbError>)
      requires p.Valid()
      modifies p`clock, p.db`reservations, p.db`guests, p.db`outbox
      ensures p.Valid()
      ensures (p.AsState(), failure) == Operations.ClaimWithRetry(
        old(p.AsState()), HoldClaiming(r.listing, r.checkIn, r.checkOut, price, readAt, false), first, second)
      ensures p.db.guests == old(p.db.guests) + (if failure.None? then [guest] else [])
    {
      failure := TryClaim(guest, r, price, readAt, first);
      if failure.Some? && IsDeadlock(failure.value) {
        failure := TryClaim(guest, r, price, readAt, second);
      }
    }

    /** The checks, in their order. A listing that is missing and one that is inactive look the same. */
    method Validate(r: HoldRequest) returns (problem: Option<ErrorCode>)
      ensures problem == Some(VALIDATION_FAILED) <==> r.checkOut <= r.checkIn || r.checkIn < p.clock
      ensures problem == Some(NOT_FOUND) <==>
                && p.clock <= r.checkIn < r.checkOut
                && (r.listing !in p.db.listings || !p.db.listings[r.listing].active)
      ensures problem == (if Refused(p.AsState(), p.db.listings, r) then Some(Refusal(p.AsState(), r)) else None)
    {
      if r.checkOut <= r.checkIn {
        return Some(VALIDATION_FAILED);
      }
      if r.checkIn < p.clock {
        return Some(VALIDATION_FAILED);
      }
      if r.listing !in p.db.listings || !p.db.listings[r.listing].active {
        return Some(NOT_FOUND);
      }
      return None;
    }

    /** A hold whose checks have passed: priced, claimed, announced. */
    method Place(guest: Id, r: HoldRequest, first: Attempt, second: Attempt) returns (answer: Answer)
      requires p.Valid() && !Refused(p.AsState(), p.db.listings, r)
      modifies p`clock, p`announcements, p.db`reservations, p.db`guests, p.db`outbox
      ensures p.Valid()
      ensures (p.AsState(), answer) == Operations.Hold(old(p.AsState()), p.db.listings, r, first, second)
      ensures p.db.guests == old(p.db.guests) + (if answer.Done? then [guest] else [])
      ensures p.announcements
          == old(p.announcements) + (if answer.Done? then [Announcement(r.listing, answer.id, HELD)] else [])
    {
      var price := Nights.PriceTotal(r.checkIn, r.checkOut, p.db.listings[r.listing].nightlyPriceCents);
      var id := |p.db.reservations|;
      var failure := ClaimWithRetry(guest, r, price, p.clock, first, second);
      if failure.Some? {
        return if IsExclusionViolation(failure.value) then Problem(RESERVATION_SLOT_TAKEN) else Fault(failure.value);
      }
      p.Announce(r.listing, id, HELD);
      return Done(id);
    }

    method Hold(guest: Id, r: HoldRequest, first: Attempt, second: Attempt) returns (answer: Answer)
      requires p.Valid()
      modifies p`clock, p`announcements, p.db`reservations, p.db`guests, p.db`outbox
      ensures p.Valid()
      ensures (p.AsState(), answer) == Operations.Hold(old(p.AsState()), p.db.listings, r, first, second)
      ensures answer == Problem(VALIDATION_FAILED) <==> r.checkOut <= r.checkIn || r.checkIn < old(p.clock)
      ensures answer == Problem(NOT_FOUND) <==>
                && old(p.clock) <= r.checkIn < r.checkOut
                && (r.listing !in p.db.listings || !p.db.listings[r.listing].active)
      ensures Leads(old(p.AsState()), p.AsState())
      ensures p.db.guests == old(p.db.guests) + (if answer.Done? then [guest] else [])
      ensures p.announcements
          == old(p.announcements) + (if answer.Done? then [Announcement(r.listing, answer.id, HELD)] else [])
    {
      HoldIsARun(p.AsState(), p.db.listings, r, first, second);
      HoldIsRefusedExactly(p.AsState(), p.db.listings, r, first, second);
      var problem := Validate(r);
      if problem.Some? {
        return Problem(problem.value);
      }
      answer := Place(guest, r, first, second);
    }

    /** The lookup is scoped to the guest: another guest's booking is indistinguishable from a missing one. */
    method GetOwned(guest: Id, id: Id) returns (found: Option<Reservation>)
      requires p.Valid()
      ensures found.Some? <==> id < |p.db.reservations| && p.db.guests[id] == guest
      ensures found.Some? ==> found.value == p.db.reservations[id]
    {
      if id < |p.db.reservations| && p.db.guests[id] == guest {
        return Some(p.db.reservations[id]);
      }
      return None;
    }

    method Cancel(guest: Id, id: Id, dedup: bool) returns (answer: Answer)
      requires p.Valid()
      modifies p`announcements, p.db`reservations, p.queues`refundJobs, p.queues`refundIds
      ensures p.Valid()
      ensures var owned := id < |p.db.guests| && p.db.guests[id] == guest;
        (p.AsState(), answer) == Operations.Cancel(old(p.AsState()), owned, id, dedup)
      ensures answer == Problem(NOT_FOUND) <==> id >= |p.db.guests| || p.db.guests[id] != guest
      ensures answer == Problem(NOT_FOUND) ==>
                p.AsState() == old(p.AsState()) && p.announcements == old(p.announcements)
      ensures Leads(old(p.AsState()), p.AsState())
      ensures p.announcements == old(p.announcements)
                + (if p.db.reservations == old(p.db.reservations) then []
                   else [Announcement(p.db.reservations[id].listing, id, CANCELLED)])
    {
      CancelIsARun(p.AsState(), id < |p.db.guests| && p.db.guests[id] == guest, id, dedup);
      CancelAnswersExactly(p.AsState(), id < |p.db.guests| && p.db.guests[id] == guest, id, dedup);
      var current := GetOwned(guest, id);
      if current.None? {
        return Problem(NOT_FOUND);
      }
      if current.value.status == CANCELLED {
        return Done(id);
      }
      if CANCELLED !in AllowedTransitions(current.value.status) {
        return Problem(INVALID_STATE_TRANSITION);
      }
      var wasPaid := current.value.status == CONFIRMED;
      p.db.UpdateStatus(id, CANCELLED);
      assert p.db.reservations[id] != old(p.db.reservations)[id];
      if wasPaid {
        p.queues.AddRefund(RefundRequested(id, id), dedup);
      }
      p.Announce(current.value.listing, id, CANCELLED);
      return Done(id);
    }

    method ApplyPaymentSucceeded(id: Id) returns (settlement: Settlement)
      modifies p`announcements, p.db`reservations
      ensures (p.AsState(), settlement) == Operations.ApplyPaymentSucceeded(old(p.AsState()), id)
      ensures p.announcements == old(p.announcements)
                + (if settlement.Applied?
                   then [Announcement(old(p.db.reservations)[id].listing, id, CONFIRMED)] else [])
    {
      var count := p.db.UpdateIfHeld(id, CONFIRMED);
      if count == 1 {
        p.Announce(p.db.reservations[id].listing, id, CONFIRMED);
        return Applied;
      }
      if id >= |p.db.reservations| {
        return Missing;
      }
      var status := p.db.reservations[id].status;
      return if status == CONFIRMED then AlreadySettled else RefundRequired(status);
    }

    method ApplyPaymentFailed(id: Id) returns (settlement: Settlement)
      modifies p`announcements, p.db`reservations
      ensures (p.AsState(), settlement) == Operations.ApplyPaymentFailed(old(p.AsState()), id)
      ensures p.announcements == old(p.announcements)
                + (if settlement.Applied?
                   then [Announcement(old(p.db.reservations)[id].listing, id, CANCELLED)] else [])
    {
      var count := p.db.UpdateIfHeld(id, CANCELLED);
      if count == 1 {
        p.Announce(p.db.reservations[id].listing, id, CANCELLED);
        return Applied;
      }
      return if id < |p.db.reservations| then AlreadySettled else Missing;
    }
  }

  // ---------------------------------------------------------------------------------------------
  // payment-result.processor.ts

  class PaymentResultProcessor {
    const p: Platform
    const booking: BookingService

    constructor (p: Platform, booking: BookingService)
      requires booking.p == p
      ensures this.p == p && this.booking == booking
    {
      this.p, this.booking := p, booking;
    }

    method Process(r: PaymentResult, dedup: bool)
      requires booking.p == p
      modifies p`announcements, p.db`reservations, p.queues`refundJobs, p.queues`refundIds
      ensures p.AsState() == ProcessResult(old(p.AsState()), r, dedup)
    {
      var settlement;
      if r.PaymentSucceeded? {
        settlement := booking.ApplyPaymentSucceeded(r.reservationId);
      } else {
        settlement := booking.ApplyPaymentFailed(r.reservationId);
      }
      if settlement.RefundRequired? {
        p.queues.AddRefund(RefundRequested(r.reservationId, r.idempotencyKey), dedup);
      }
    }

    /** A delivery whose handler lives to acknowledge it. */
    method Deliver(r: PaymentResult, dedup: bool)
      requires booking.p == p && r in p.queues.results
      modifies p`announcements, p.db`reservations, p.queues
      ensures p.AsState() == DeliverResult(old(p.AsState()), r, dedup)
      ensures Leads(old(p.AsState()), p.AsState())
    {
      DeliverResultIsARun(p.AsState(), r, dedup);
      Process(r, dedup);
      p.queues.results := p.queues.results - multiset{r};
    }
  }

  // ---------------------------------------------------------------------------------------------
  // payment.service.ts

  class PaymentService {
    const p: Platform

    constructor (p: Platform)
      ensures this.p == p
    {
      this.p := p;
    }

    /** No result means it threw. */
    method Charge(e: BookingHeld, verdict: Verdict) returns (result: Option<PaymentResult>)
      modifies p.db`payments, p.provider`charges, p.provider`moves
      ensures (p.AsState(), result) == ChargePayment(old(p.AsState()), e, verdict)
    {
      var key := e.idempotencyKey;
      if key in p.db.payments && p.db.payments[key].status != PENDING {
        return if Presentable(p.db.payments[key]) then Some(ToResult(e, p.db.payments[key])) else None;
      }
      if key !in p.db.payments {
        var _ := p.db.CreatePayment(e);
      }
      var outcome := p.provider.Charge(key, e.amountCents, verdict);
      if outcome.None? {
        return None;
      }
      var payment := p.db.payments[key];
      payment := match outcome.value
        case Charged(ref) => payment.(status := SUCCEEDED, providerRef := Some(ref))
        case Declined => payment.(status := FAILED);
      p.db.payments := p.db.payments[key := payment];
      return Some(ToResult(e, payment));
    }

    method Refund(q: RefundRequested)
      modifies p.db`payments, p.provider`refunds, p.provider`moves
      ensures p.AsState() == RefundPayment(old(p.AsState()), q)
    {
      var key := q.idempotencyKey;
      if key !in p.db.payments || p.db.payments[key].status != SUCCEEDED {
        return;
      }
      p.provider.Refund(key);
      p.db.payments := p.db.payments[key := p.db.payments[key].(status := REFUNDED)];
    }
  }

  // ---------------------------------------------------------------------------------------------
  // charge.processor.ts

  class ChargeProcessor {
    const p: Platform
    const payments: PaymentService

    constructor (p: Platform, payments: PaymentService)
      requires payments.p == p
      ensures this.p == p && this.payments == payments
    {
      this.p, this.payments := p, payments;
    }

    /** False means it threw, which the queue reads as a failed attempt. */
    method Process(job: ChargeJob, verdict: Verdict, dedup: bool) returns (completed: bool)
      requires payments.p == p
      modifies p.db`payments, p.provider`charges, p.provider`moves, p.queues`results, p.queues`resultIds
      ensures (p.AsState(), completed) == ProcessCharge(old(p.AsState()), job, verdict, dedup)
      ensures var key := job.event.idempotencyKey;
        !completed <==>
          || job.event.amountCents <= 0
          || (key in old(p.db.payments)
              && old(p.db.payments)[key].status == SUCCEEDED && old(p.db.payments)[key].providerRef.None?)
          || ((key in old(p.db.payments) ==> old(p.db.payments)[key].status == PENDING)
              && key !in old(p.provider.charges) && verdict == IsUnavailable)
    {
      DeliveryFailsExactly(p.AsState(), job, verdict, dedup);
      if job.event.amountCents <= 0 {
        return false;
      }
      var result := payments.Charge(job.event, verdict);
      if result.None? {
        return false;
      }
      p.queues.AddResult(result.value, dedup);
      return true;
    }

    method OnFailed(job: Option<ChargeJob>, attempts: Option<nat>)
      modifies p.queues`deadLetters
      ensures p.queues.deadLetters == Buried(old(p.queues.deadLetters), job, attempts)
    {
      if job.None? {
        return;
      }
      var allowed := if attempts.Some? then attempts.value else 1;
      if job.value.attemptsMade < allowed {
        return;
      }
      p.queues.deadLetters := p.queues.deadLetters + multiset{job.value};
    }

    /** What the queue does with a failed attempt. */
    method Requeue(job: ChargeJob)
      modifies p`exhausted, p.queues`chargeJobs
      ensures p.queues.chargeJobs == Requeued(old(p.queues.chargeJobs), job)
      ensures p.exhausted == UsedUp(old(p.exhausted), job)
    {
      p.queues.chargeJobs := p.queues.chargeJobs - multiset{job};
      if Failed(job).attemptsMade < CHARGE_ATTEMPTS {
        p.queues.chargeJobs := p.queues.chargeJobs + multiset{Failed(job)};
      } else {
        p.exhausted := p.exhausted + multiset{Failed(job)};
      }
    }

    method Fail(job: ChargeJob)
      modifies p`exhausted, p.queues`chargeJobs, p.queues`deadLetters
      ensures p.AsState() == FailAttempt(old(p.AsState()), job)
    {
      Requeue(job);
      OnFailed(Some(Failed(job)), Some(CHARGE_ATTEMPTS));
    }

    /** One delivery, with what the queue does about its end: acknowledge, retry, or give up. */
    method Deliver(job: ChargeJob, verdict: Verdict, dedup: bool)
      requires payments.p == p && job in p.queues.chargeJobs
      modifies p`exhausted, p.db`payments, p.provider`charges, p.provider`moves, p.queues
      ensures p.AsState() == DeliverCharge(old(p.AsState()), job, verdict, dedup)
      ensures Leads(old(p.AsState()), p.AsState())
    {
      DeliverChargeIsARun(p.AsState(), job, verdict, dedup);
      var completed := Process(job, verdict, dedup);
      if completed {
        p.queues.chargeJobs := p.queues.chargeJobs - multiset{job};
      } else {
        Fail(job);
      }
    }
  }

  // ---------------------------------------------------------------------------------------------
  // refund.processor.ts

  class RefundProcessor {
    const p: Platform
    const payments: PaymentService

    constructor (p: Platform, payments: PaymentService)
      requires payments.p == p
      ensures this.p == p && this.payments == payments
    {
      this.p, this.payments := p, payments;
    }

    method Deliver(q: RefundRequested)
      requires payments.p == p && q in p.queues.refundJobs
      modifies p.db`payments, p.provider`refunds, p.provider`moves, p.queues`refundJobs
      ensures p.AsState() == DeliverRefund(old(p.AsState()), q)
      ensures Leads(old(p.AsState()), p.AsState())
    {
      DeliverRefundIsARun(p.AsState(), q);
      payments.Refund(q);
      p.queues.refundJobs := p.queues.refundJobs - multiset{q};
    }
  }

  // ---------------------------------------------------------------------------------------------
  // outbox-relay.service.ts

  class OutboxRelayService {
    const p: Platform

    constructor (p: Platform)
      ensures this.p == p
    {
      this.p := p;
    }

    /** `locked` are the rows other relays hold, `dropped` the rows whose job the queue already knows. */
    method PublishBatch(locked: set<Id>, dropped: set<Id>) returns (published: nat)
      modifies p.db`outbox, p.queues`chargeJobs
      ensures p.AsState() == Operations.PublishBatch(old(p.AsState()), locked, dropped)
      ensures Leads(old(p.AsState()), p.AsState())
      ensures published == |Relay.Select(old(p.db.outbox), locked)| <= 100
      ensures var batch := Relay.Select(old(p.db.outbox), locked);
        p.db.outbox == Relay.Marked(Relay.Enqueued(old(p.db.outbox), batch), batch)
    {
      ghost var s := p.AsState();
      PublishBatchIsARun(s, locked, dropped);
      PassesAgree(s, locked, dropped);
      Relay.SelectedRows(p.db.outbox, locked);
      var batch := Relay.Select(p.db.outbox, locked);
      EnqueuedCanBeMarked(s.outbox, batch);
      Enqueue(batch, dropped);
      Mark(batch);
      return |batch|;
    }

    method EnqueueOne(i: Id, dedup: bool)
      requires i < |p.db.outbox| && !p.db.outbox[i].published
      modifies p.db`outbox, p.queues`chargeJobs
      ensures p.AsState() == EnqueueRow(old(p.AsState()), i, dedup)
    {
      var row := p.db.outbox[i];
      p.db.outbox := p.db.outbox[i := row.(enqueues := row.enqueues + 1)];
      if !dedup || row.enqueues == 0 {
        p.queues.chargeJobs := p.queues.chargeJobs + multiset{ChargeJob(row.event, 0)};
      }
    }

    method Enqueue(batch: seq<Id>, dropped: set<Id>)
      requires Claimable(p.db.outbox, batch)
      modifies p.db`outbox, p.queues`chargeJobs
      ensures p.AsState() == EnqueueBatch(old(p.AsState()), batch, dropped)
      ensures p.db.outbox == Relay.Enqueued(old(p.db.outbox), batch)
    {
      ghost var s := p.AsState();
      EnqueueBatchRows(s, batch, dropped);
      for k := 0 to |batch|
        invariant p.AsState() == EnqueueBatch(s, batch[..k], dropped)
      {
        NextIsEnqueued(s, batch, dropped, k);
        EnqueueOne(batch[k], batch[k] in dropped);
      }
      assert batch[..|batch|] == batch;
    }

    method MarkOne(i: Id)
      requires i < |p.db.outbox| && p.db.outbox[i].enqueues > 0
      modifies p.db`outbox
      ensures p.AsState() == MarkRow(old(p.AsState()), i)
    {
      p.db.outbox := p.db.outbox[i := p.db.outbox[i].(published := true)];
    }

    method Mark(batch: seq<Id>)
      requires Relay.Distinct(batch)
      requires forall k :: 0 <= k < |batch| ==> batch[k] < |p.db.outbox| && p.db.outbox[batch[k]].enqueues > 0
      modifies p.db`outbox
      ensures p.AsState() == MarkBatch(old(p.AsState()), batch)
    {
      ghost var s := p.AsState();
      for k := 0 to |batch|
        invariant p.AsState() == MarkBatch(s, batch[..k])
      {
        MarkBatchRows(s, batch[..k]);
        LastIsNew(batch[..k + 1]);
        assert batch[..k + 1][..k] == batch[..k];
        MarkOne(batch[k]);
      }
      assert batch[..|batch|] == batch;
    }
  }

  // ---------------------------------------------------------------------------------------------
  // reservation-expiry.service.ts and reservation-completion.service.ts

  class ReservationExpiryService {
    const p: Platform

    constructor (p: Platform)
      ensures this.p == p
    {
      this.p := p;
    }

    /** The candidates are read first and only announced; the update decides for itself, `wait` later. */
    method SweepExpiredHolds(wait: nat) returns (count: nat)
      modifies p`clock, p`announcements, p.db`reservations
      ensures p.AsState() == SweepHolds(old(p.AsState()), wait)
      ensures Leads(old(p.AsState()), p.AsState())
      ensures count == |DueHolds(old(p.db.reservations), p.clock)|
      ensures p.announcements == old(p.announcements)
                + Announced(old(p.db.reservations), DueHolds(old(p.db.reservations), old(p.clock)), EXPIRED)
    {
      ExpirySweepIsARun(p.AsState(), wait);
      var candidates := p.db.FindDueHolds(p.clock);
      p.Wait(wait);
      SweptListings(p.db.reservations, p.clock, candidates, EXPIRED);
      count := p.db.ExpireHolds(p.clock);
      p.AnnounceAll(candidates, EXPIRED);
    }
  }

  class ReservationCompletionService {
    const p: Platform

    constructor (p: Platform)
      ensures this.p == p
    {
      this.p := p;
    }

    method SweepCompletedStays(wait: nat) returns (count: nat)
      modifies p`clock, p`announcements, p.db`reservations
      ensures p.AsState() == SweepStays(old(p.AsState()), wait)
      ensures Leads(old(p.AsState()), p.AsState())
      ensures count == |FinishedStays(old(p.db.reservations), p.clock)|
      ensures p.announcements == old(p.announcements)
                + Announced(old(p.db.reservations), FinishedStays(old(p.db.reservations), old(p.clock)), COMPLETED)
    {
      CompletionSweepIsARun(p.AsState(), wait);
      var candidates := p.db.FindFinishedStays(p.clock);
      p.Wait(wait);
      SweptListings(p.db.reservations, p.clock, candidates, COMPLETED);
      count := p.db.CompleteStays(p.clock);
      p.AnnounceAll(candidates, COMPLETED);
    }
  }
}

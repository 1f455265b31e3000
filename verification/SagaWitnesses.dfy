/** Runs that show the exceptions of the settlement theorem are real, for every booking that costs money. */
module SagaWitnesses {
  import opened BookingTypes
  import opened Saga
  import opened SagaInvariant
  import opened SagaTheorems
  import Nights

  /** One stay to book, in a system whose clock stands at its check-in or before. */
  datatype Stay = Stay(clock: Instant, listing: Id, checkIn: Instant, checkOut: Instant, price: nat)

  predicate Bookable(b: Stay, nightlyPriceCents: nat) {
    b.clock <= b.checkIn < b.checkOut && b.price == Nights.PriceTotal(b.checkIn, b.checkOut, nightlyPriceCents)
  }

  /** Such stays exist at every listing, check-in and nightly price: one day, one night. */
  lemma StaysExist(clock: Instant, listing: Id, checkIn: Instant, checkOut: Instant, nightly: nat)
    requires clock <= checkIn && checkOut == checkIn + Nights.MS_PER_DAY
    ensures Bookable(Stay(clock, listing, checkIn, checkOut, nightly), nightly)
  {
    Nights.OneNightCosts(checkIn, checkOut, nightly);
  }

  function Booking(b: Stay, status: Status): Reservation {
    Reservation(b.listing, b.checkIn, b.checkOut, status, b.price, b.clock, b.clock, b.clock)
  }

  function Job(b: Stay): ChargeJob {
    ChargeJob(HeldEvent(0, b.price), 0)
  }

  function Success(b: Stay): PaymentResult {
    PaymentSucceeded(0, 0, b.price, 0)
  }

  /** Held, its event relayed, and a cancel suspended after reading the row as HELD. */
  function Held(b: Stay): State {
    Init(b.clock, 0).(
      reservations := [Booking(b, HELD)],
      outbox := [OutboxRow(HeldEvent(0, b.price), b.clock, true, 1)],
      chargeJobs := multiset{Job(b)},
      handlers := multiset{CancelRead(0, HELD)})
  }

  /** Charged and recorded, with the result on its way back. */
  function ChargedAndReported(b: Stay): State {
    Held(b).(
      payments := map[0 := Payment(0, SUCCEEDED, b.price, Some(0))],
      charges := map[0 := LedgerEntry(Charged(0), b.price)],
      moves := [Take(0, b.price)],
      chargeJobs := multiset{},
      results := multiset{Success(b)},
      resultIds := {Success(b)})
  }

  /** Confirmed; only the suspended cancel is still about. */
  function Confirmed(b: Stay): State {
    ChargedAndReported(b).(
      reservations := [Booking(b, CONFIRMED)],
      results := multiset{})
  }

  // One step of a run, by who takes it

  lemma GuestActs(s: State, t: State, step: Step)
    requires Reachable(s)
    requires match step
      case HoldBegin(listing, checkIn, checkOut, nightly) => t == BeginHold(s, listing, checkIn, checkOut, nightly)
      case HoldClaim(h, deadlock) => t == ClaimSlot(s, h, deadlock)
      case CancelBegin(id) => t == BeginCancel(s, id)
      case CancelWrite(id, seen) => t == WriteCancelled(s, id, seen)
      case CancelEnqueue(id, dedup) => t == EnqueueCancelRefund(s, id, dedup)
      case Crash(h) => t == CrashHandler(s, h)
      case _ => false
    ensures Reachable(t)
  {
    ReachableNext(s, step);
  }

  lemma WorkerActs(s: State, t: State, step: Step)
    requires Reachable(s)
    requires match step
      case RelayEnqueue(row, dedup) => t == EnqueueRow(s, row, dedup)
      case RelayMark(row) => t == MarkRow(s, row)
      case ChargeTake(job) => t == TakeCharge(s, job)
      case ChargeLookup(job) => t == LookupPayment(s, job)
      case ChargeClaim(job) => t == ClaimPayment(s, job)
      case ChargeCall(job, accept) => t == CallProvider(s, job, accept)
      case ChargeRecord(job, outcome) => t == RecordOutcome(s, job, outcome)
      case ChargePublish(job, result, dedup) => t == PublishResult(s, job, result, dedup)
      case ChargeAck(job) => t == AckCharge(s, job)
      case _ => false
    ensures Reachable(t)
  {
    ReachableNext(s, step);
  }

  lemma SettlerActs(s: State, t: State, step: Step)
    requires Reachable(s)
    requires match step
      case ResultTake(result) => t == TakeResult(s, result)
      case ResultUpdate(result) => t == UpdateIfHeld(s, result)
      case ResultAck(result) => t == AckResult(s, result)
      case _ => false
    ensures Reachable(t)
  {
    ReachableNext(s, step);
  }

  function Placed(b: Stay): State {
    Init(b.clock, 0).(
      reservations := [Booking(b, HELD)],
      outbox := [OutboxRow(HeldEvent(0, b.price), b.clock, false, 0)])
  }

  function Claiming(b: Stay): Handler {
    HoldClaiming(b.listing, b.checkIn, b.checkOut, b.price, b.clock, false)
  }

  lemma ClaimingIsReachable(b: Stay, nightly: nat)
    requires Bookable(b, nightly)
    ensures Reachable(Enter(Init(b.clock, 0), Claiming(b)))
  {
    var s0 := Init(b.clock, 0);
    assert Reachable(s0) by {
      assert s0 == Run(s0, []);
    }
    GuestActs(s0, Enter(s0, Claiming(b)), HoldBegin(b.listing, b.checkIn, b.checkOut, nightly));
  }

  lemma PlacedIsReachable(b: Stay)
    requires Reachable(Enter(Init(b.clock, 0), Claiming(b)))
    ensures Reachable(Placed(b))
  {
    var s1 := Enter(Init(b.clock, 0), Claiming(b));
    assert ClaimSlot(s1, Claiming(b), false) == Placed(b);
    GuestActs(s1, Placed(b), HoldClaim(Claiming(b), false));
  }

  function CancelSuspended(b: Stay): State {
    Enter(Placed(b), CancelRead(0, HELD))
  }

  lemma CancelSuspendedIsReachable(b: Stay)
    requires Reachable(Placed(b))
    ensures Reachable(CancelSuspended(b))
  {
    assert BeginCancel(Placed(b), 0) == CancelSuspended(b);
    GuestActs(Placed(b), CancelSuspended(b), CancelBegin(0));
  }

  lemma HeldIsReachable(b: Stay)
    requires Reachable(CancelSuspended(b))
    ensures Reachable(Held(b))
  {
    var s3 := CancelSuspended(b);
    var s4 := s3.(outbox := [OutboxRow(HeldEvent(0, b.price), b.clock, false, 1)], chargeJobs := multiset{Job(b)});
    WorkerActs(s3, s4, RelayEnqueue(0, false));
    WorkerActs(s4, Held(b), RelayMark(0));
  }

  /** Held, with one more handler in flight. */
  function With(s: State, b: Stay, h: Handler): State {
    s.(handlers := Held(b).handlers + multiset{h})
  }

  /** The one extra handler moves on, or leaves. */
  lemma ExtraMoves(s: State, b: Stay, g: Handler, h: Handler)
    ensures g in With(s, b, g).handlers && Move(With(s, b, g), g, h) == With(s, b, h)
    ensures Leave(With(s, b, g), g) == s.(handlers := Held(b).handlers)
  {
    assert Held(b).handlers + multiset{g} - multiset{g} == Held(b).handlers;
  }

  function Claimed(b: Stay): State {
    Held(b).(payments := map[0 := Payment(0, PENDING, b.price, None)])
  }

  lemma LookedUpIsReachable(b: Stay)
    requires Reachable(Held(b)) && b.price > 0
    ensures Reachable(With(Held(b), b, ChargeClaiming(Job(b))))
  {
    var s1 := With(Held(b), b, ChargeTaken(Job(b)));
    WorkerActs(Held(b), s1, ChargeTake(Job(b)));
    ExtraMoves(Held(b), b, ChargeTaken(Job(b)), ChargeClaiming(Job(b)));
    WorkerActs(s1, With(Held(b), b, ChargeClaiming(Job(b))), ChargeLookup(Job(b)));
  }

  lemma ClaimedIsReachable(b: Stay)
    requires Reachable(With(Held(b), b, ChargeClaiming(Job(b))))
    ensures Reachable(With(Claimed(b), b, ChargeCalling(Job(b))))
  {
    ExtraMoves(Held(b), b, ChargeClaiming(Job(b)), ChargeCalling(Job(b)));
    WorkerActs(With(Held(b), b, ChargeClaiming(Job(b))), With(Claimed(b), b, ChargeCalling(Job(b))),
               ChargeClaim(Job(b)));
  }

  function Taken(b: Stay): State {
    Claimed(b).(charges := map[0 := LedgerEntry(Charged(0), b.price)], moves := [Take(0, b.price)])
  }

  lemma TakenIsReachable(b: Stay)
    requires Reachable(With(Claimed(b), b, ChargeCalling(Job(b))))
    ensures Reachable(With(Taken(b), b, ChargeRecording(Job(b), Charged(0))))
  {
    ExtraMoves(Claimed(b), b, ChargeCalling(Job(b)), ChargeRecording(Job(b), Charged(0)));
    WorkerActs(With(Claimed(b), b, ChargeCalling(Job(b))),
               With(Taken(b), b, ChargeRecording(Job(b), Charged(0))), ChargeCall(Job(b), true));
  }

  function OnRecord(b: Stay): State {
    Taken(b).(payments := map[0 := Payment(0, SUCCEEDED, b.price, Some(0))])
  }

  lemma OnRecordShape(b: Stay)
    ensures RecordOutcome(With(Taken(b), b, ChargeRecording(Job(b), Charged(0))), Job(b), Charged(0))
         == With(OnRecord(b), b, ChargePublishing(Job(b), Success(b)))
  {
    ExtraMoves(Taken(b), b, ChargeRecording(Job(b), Charged(0)), ChargePublishing(Job(b), Success(b)));
  }

  lemma OnRecordIsReachable(b: Stay)
    requires Reachable(With(Taken(b), b, ChargeRecording(Job(b), Charged(0))))
    ensures Reachable(With(OnRecord(b), b, ChargePublishing(Job(b), Success(b))))
  {
    OnRecordShape(b);
    WorkerActs(With(Taken(b), b, ChargeRecording(Job(b), Charged(0))),
               With(OnRecord(b), b, ChargePublishing(Job(b), Success(b))), ChargeRecord(Job(b), Charged(0)));
  }

  function Published(b: Stay): State {
    With(OnRecord(b), b, ChargeAcking(Job(b))).(results := multiset{Success(b)}, resultIds := {Success(b)})
  }

  lemma PublishedShape(b: Stay)
    ensures PublishResult(With(OnRecord(b), b, ChargePublishing(Job(b), Success(b))), Job(b), Success(b), false)
        == Published(b)
  {
    ExtraMoves(OnRecord(b), b, ChargePublishing(Job(b), Success(b)), ChargeAcking(Job(b)));
  }

  lemma ReportedShape(b: Stay)
    ensures AckCharge(Published(b), Job(b)) == ChargedAndReported(b)
  {}

  lemma ReportedIsReachable(b: Stay)
    requires Reachable(With(OnRecord(b), b, ChargePublishing(Job(b), Success(b))))
    ensures Reachable(ChargedAndReported(b))
  {
    var s := With(OnRecord(b), b, ChargePublishing(Job(b), Success(b)));
    PublishedShape(b);
    WorkerActs(s, Published(b), ChargePublish(Job(b), Success(b), false));
    ReportedShape(b);
    WorkerActs(Published(b), ChargedAndReported(b), ChargeAck(Job(b)));
  }

  function Settling(b: Stay): State {
    With(ChargedAndReported(b), b, ResultTaken(Success(b)))
  }

  lemma SettlingIsReachable(b: Stay)
    requires Reachable(ChargedAndReported(b))
    ensures Reachable(Settling(b))
  {
    SettlerActs(ChargedAndReported(b), Settling(b), ResultTake(Success(b)));
  }

  function JustSettled(b: Stay): State {
    With(ChargedAndReported(b), b, ResultAcking(Success(b))).(reservations := [Booking(b, CONFIRMED)])
  }

  lemma SettledShape(b: Stay)
    ensures UpdateIfHeld(Settling(b), Success(b)) == JustSettled(b)
  {
    ExtraMoves(ChargedAndReported(b), b, ResultTaken(Success(b)), ResultAcking(Success(b)));
  }

  lemma SettledIsReachable(b: Stay)
    requires Reachable(Settling(b))
    ensures Reachable(JustSettled(b))
  {
    SettledShape(b);
    SettlerActs(Settling(b), JustSettled(b), ResultUpdate(Success(b)));
  }

  lemma ConfirmedShape(b: Stay)
    ensures AckResult(JustSettled(b), Success(b)) == Confirmed(b)
  {
    ExtraMoves(ChargedAndReported(b).(reservations := [Booking(b, CONFIRMED)]), b, ResultAcking(Success(b)),
               ResultAcking(Success(b)));
  }

  lemma ConfirmedIsReachable(b: Stay)
    requires Reachable(JustSettled(b))
    ensures Reachable(Confirmed(b))
  {
    ConfirmedShape(b);
    SettlerActs(JustSettled(b), Confirmed(b), ResultAck(Success(b)));
  }

  lemma SettledFromScratch(b: Stay, nightly: nat)
    requires Bookable(b, nightly) && b.price > 0
    ensures Reachable(JustSettled(b))
  {
    ClaimingIsReachable(b, nightly);
    PlacedIsReachable(b);
    CancelSuspendedIsReachable(b);
    HeldIsReachable(b);
    LookedUpIsReachable(b);
    ClaimedIsReachable(b);
    TakenIsReachable(b);
    OnRecordIsReachable(b);
    ReportedIsReachable(b);
    SettlingIsReachable(b);
    SettledIsReachable(b);
  }

  lemma ConfirmedFromScratch(b: Stay, nightly: nat)
    requires Bookable(b, nightly) && b.price > 0
    ensures Reachable(Confirmed(b))
  {
    SettledFromScratch(b, nightly);
    ConfirmedIsReachable(b);
  }

  /** Everything has drained, the one booking is cancelled, its charge stands, and no refund will come. */
  ghost predicate RefundIsLost(s: State, b: Stay) {
    && Reachable(s) && Drained(s) && s.exhausted == multiset{}
    && |s.reservations| == 1 && s.reservations[0].status == CANCELLED
    && Paid(s, 0) && 0 !in s.refunds
    && TallyOf(s.moves, 0).net == b.price
  }

  function Lost(b: Stay): State {
    Confirmed(b).(reservations := [Booking(b, CANCELLED)], lostRefunds := {0}, handlers := multiset{})
  }

  lemma LostIsLost(b: Stay)
    requires Reachable(Lost(b))
    ensures RefundIsLost(Lost(b), b)
  {
    assert [Take(0, b.price)] == [] + [Take(0, b.price)];
    TallyAppend([], Take(0, b.price), 0);
  }

  lemma StaleWriteShape(b: Stay)
    ensures WriteCancelled(Confirmed(b), 0, HELD) == Lost(b)
    ensures LosesRefund(Confirmed(b), CancelWrite(0, HELD))
  {}

  /** A cancel that read HELD and writes after the payment has settled keeps the guest's money. */
  lemma StaleCancelLosesTheRefund(b: Stay, nightly: nat)
    requires Bookable(b, nightly) && b.price > 0
    ensures Reachable(Confirmed(b)) && LosesRefund(Confirmed(b), CancelWrite(0, HELD))
    ensures Apply(Confirmed(b), CancelWrite(0, HELD)) == Lost(b)
    ensures RefundIsLost(Lost(b), b)
  {
    ConfirmedFromScratch(b, nightly);
    StaleWriteShape(b);
    GuestActs(Confirmed(b), Lost(b), CancelWrite(0, HELD));
    LostIsLost(b);
  }

  /** A cancel that read CONFIRMED has written CANCELLED and is about to enqueue the refund. */
  function Written(b: Stay): State {
    Confirmed(b).(reservations := [Booking(b, CANCELLED)], handlers := multiset{CancelWritten(0)})
  }

  function SecondCancel(b: Stay): State {
    Confirmed(b).(handlers := multiset{CancelRead(0, CONFIRMED)})
  }

  /** The suspended cancel has died. */
  function Alone(b: Stay): State {
    Confirmed(b).(handlers := multiset{})
  }

  lemma SecondCancelIsReachable(b: Stay)
    requires Reachable(Confirmed(b))
    ensures Reachable(SecondCancel(b))
  {
    GuestActs(Confirmed(b), Alone(b), Crash(CancelRead(0, HELD)));
    SecondCancelShape(b);
    GuestActs(Alone(b), SecondCancel(b), CancelBegin(0));
  }

  lemma SecondCancelShape(b: Stay)
    ensures BeginCancel(Alone(b), 0) == SecondCancel(b)
  {}

  lemma WrittenIsReachable(b: Stay)
    requires Reachable(SecondCancel(b))
    ensures Reachable(Written(b))
  {
    WrittenShape(b);
    GuestActs(SecondCancel(b), Written(b), CancelWrite(0, CONFIRMED));
  }

  lemma WrittenShape(b: Stay)
    ensures WriteCancelled(SecondCancel(b), 0, CONFIRMED) == Written(b)
  {}

  lemma DyingShape(b: Stay)
    ensures CrashHandler(Written(b), CancelWritten(0)) == Lost(b)
    ensures LosesRefund(Written(b), Crash(CancelWritten(0)))
  {}

  /** So does one that dies between its write and its enqueue. */
  lemma DyingCancelLosesTheRefund(b: Stay, nightly: nat)
    requires Bookable(b, nightly) && b.price > 0
    ensures Reachable(Written(b)) && LosesRefund(Written(b), Crash(CancelWritten(0)))
    ensures Apply(Written(b), Crash(CancelWritten(0))) == Lost(b)
    ensures RefundIsLost(Lost(b), b)
  {
    ConfirmedFromScratch(b, nightly);
    SecondCancelIsReachable(b);
    WrittenIsReachable(b);
    DyingShape(b);
    GuestActs(Written(b), Lost(b), Crash(CancelWritten(0)));
    LostIsLost(b);
  }
}

/** Runs that show every other exception of the saga's theorems is real too: closed rows that are cancelled,
    refunds that are recorded over, made good or made for a stay that was honoured, and exhausted charges
    that leave no dead letter. */
module SagaExceptions {
  import opened BookingTypes
  import opened Saga
  import opened SagaInvariant
  import opened SagaTheorems
  import opened SagaNotices
  import opened SagaWitnesses
  import opened Operations

  lemma TickAndSweep(s: State, now: Instant)
    requires Reachable(s) && s.clock <= now
    ensures Reachable(ExpireHolds(s.(clock := now), now)) && Reachable(CompleteStays(s.(clock := now), now))
  {
    Stays(s);
    GuestStep(s, s, s.(clock := now), Tick(now));
    BackgroundStep(s, s.(clock := now), ExpireHolds(s.(clock := now), now), SweepExpired(now));
    BackgroundStep(s, s.(clock := now), CompleteStays(s.(clock := now), now), SweepCompleted(now));
    ReachableThrough(s, ExpireHolds(s.(clock := now), now));
    ReachableThrough(s, CompleteStays(s.(clock := now), now));
  }

  // ---------------------------------------------------------------------------------------------
  // Cancels of rows that are closed

  /** A hold that expired between its cancel's read and its cancel's write. */
  function ExpiredUnderCancel(b: Stay): State {
    CancelSuspended(b).(clock := b.clock + 1, reservations := [Booking(b, EXPIRED)])
  }

  lemma ExpiredShape(b: Stay)
    ensures ExpireHolds(CancelSuspended(b).(clock := b.clock + 1), b.clock + 1) == ExpiredUnderCancel(b)
  {}

  lemma ExpiredIsReachable(b: Stay, nightly: nat)
    requires Bookable(b, nightly)
    ensures Reachable(ExpiredUnderCancel(b))
  {
    ClaimingIsReachable(b, nightly);
    PlacedIsReachable(b);
    CancelSuspendedIsReachable(b);
    TickAndSweep(CancelSuspended(b), b.clock + 1);
    ExpiredShape(b);
  }

  lemma CancelOfExpiredLands(b: Stay)
    ensures CancelsClosedRow(ExpiredUnderCancel(b), CancelWrite(0, HELD), 0)
    ensures Apply(ExpiredUnderCancel(b), CancelWrite(0, HELD)).reservations == [Booking(b, CANCELLED)]
  {}

  /** The unguarded write cancels a row that has expired. */
  lemma CancelOfExpiredHappens(b: Stay, nightly: nat)
    requires Bookable(b, nightly)
    ensures Reachable(ExpiredUnderCancel(b)) && ExpiredUnderCancel(b).reservations == [Booking(b, EXPIRED)]
    ensures CancelsClosedRow(ExpiredUnderCancel(b), CancelWrite(0, HELD), 0)
    ensures Apply(ExpiredUnderCancel(b), CancelWrite(0, HELD)).reservations == [Booking(b, CANCELLED)]
  {
    ExpiredIsReachable(b, nightly);
    CancelOfExpiredLands(b);
  }

  /** A stay that was paid, honoured and completed while a cancel that had read it as HELD was suspended. */
  function CompletedUnderCancel(b: Stay): State {
    Confirmed(b).(clock := b.checkOut + 1, reservations := [Booking(b, COMPLETED)])
  }

  lemma CompletedShape(b: Stay)
    ensures CompleteStays(Confirmed(b).(clock := b.checkOut + 1), b.checkOut + 1) == CompletedUnderCancel(b)
  {}

  lemma CompletedIsReachable(b: Stay, nightly: nat)
    requires Bookable(b, nightly) && b.price > 0
    ensures Reachable(CompletedUnderCancel(b))
  {
    ConfirmedFromScratch(b, nightly);
    TickAndSweep(Confirmed(b), b.checkOut + 1);
    CompletedShape(b);
  }

  lemma CancelOfCompletedLands(b: Stay)
    ensures CancelsClosedRow(CompletedUnderCancel(b), CancelWrite(0, HELD), 0)
    ensures Apply(CompletedUnderCancel(b), CancelWrite(0, HELD)).reservations == [Booking(b, CANCELLED)]
  {}

  /** So does one of a stay that was honoured. */
  lemma CancelOfCompletedHappens(b: Stay, nightly: nat)
    requires Bookable(b, nightly) && b.price > 0
    ensures Reachable(CompletedUnderCancel(b)) && CompletedUnderCancel(b).reservations == [Booking(b, COMPLETED)]
    ensures CancelsClosedRow(CompletedUnderCancel(b), CancelWrite(0, HELD), 0)
    ensures Apply(CompletedUnderCancel(b), CancelWrite(0, HELD)).reservations == [Booking(b, CANCELLED)]
  {
    CompletedIsReachable(b, nightly);
    CancelOfCompletedLands(b);
  }

  // ---------------------------------------------------------------------------------------------
  // A charge recorded over a refund

  function Overtaken(b: Stay): Handler {
    ChargeRecording(Job(b), Charged(0))
  }

  /** One charge of the job has taken the money and is about to record it. */
  lemma OvertakenIsReachable(b: Stay, nightly: nat)
    requires Bookable(b, nightly) && b.price > 0
    ensures Reachable(With(Taken(b), b, Overtaken(b)))
  {
    ClaimingIsReachable(b, nightly);
    PlacedIsReachable(b);
    CancelSuspendedIsReachable(b);
    HeldIsReachable(b);
    LookedUpIsReachable(b);
    ClaimedIsReachable(b);
    TakenIsReachable(b);
  }

  /** A second delivery of the job has overtaken it, and has recorded, published and acknowledged. */
  function OvertakenOnce(b: Stay): State {
    With(OnRecord(b), b, Overtaken(b)).(
      chargeJobs := multiset{}, results := multiset{Success(b)}, resultIds := {Success(b)})
  }

  lemma SecondDeliveryShape(b: Stay)
    requires b.price > 0
    ensures DeliverCharge(With(Taken(b), b, Overtaken(b)), Job(b), Accepts, false) == OvertakenOnce(b)
  {}

  lemma OvertakenOnceIsReachable(b: Stay)
    requires Reachable(With(Taken(b), b, Overtaken(b))) && b.price > 0
    ensures Reachable(OvertakenOnce(b))
  {
    DeliverChargeIsARun(With(Taken(b), b, Overtaken(b)), Job(b), Accepts, false);
    SecondDeliveryShape(b);
    ReachableThrough(With(Taken(b), b, Overtaken(b)), OvertakenOnce(b));
  }

  /** Then the suspended cancel has written, in time to find the row still HELD. */
  function CancelledMeanwhile(b: Stay): State {
    OvertakenOnce(b).(reservations := [Booking(b, CANCELLED)], handlers := multiset{Overtaken(b)})
  }

  lemma CancelShape(b: Stay)
    ensures WriteCancelled(OvertakenOnce(b), 0, HELD) == CancelledMeanwhile(b)
  {
    assert OvertakenOnce(b).handlers - multiset{CancelRead(0, HELD)} == multiset{Overtaken(b)};
  }

  lemma CancelledMeanwhileIsReachable(b: Stay)
    requires Reachable(OvertakenOnce(b))
    ensures Reachable(CancelledMeanwhile(b))
  {
    CancelShape(b);
    GuestActs(OvertakenOnce(b), CancelledMeanwhile(b), CancelWrite(0, HELD));
  }

  const REFUND: RefundRequested := RefundRequested(0, 0)

  /** So the success asked for a refund. */
  function RefundQueued(b: Stay): State {
    CancelledMeanwhile(b).(results := multiset{}, refundJobs := multiset{REFUND}, refundIds := {REFUND})
  }

  lemma RefundQueuedShape(b: Stay)
    ensures DeliverResult(CancelledMeanwhile(b), Success(b), false) == RefundQueued(b)
  {}

  lemma RefundQueuedIsReachable(b: Stay)
    requires Reachable(CancelledMeanwhile(b))
    ensures Reachable(RefundQueued(b))
  {
    DeliverResultIsARun(CancelledMeanwhile(b), Success(b), false);
    RefundQueuedShape(b);
    ReachableThrough(CancelledMeanwhile(b), RefundQueued(b));
  }

  /** And the refund was made and recorded, while the first charge is still about to record its own outcome. */
  function Refunded(b: Stay): State {
    RefundQueued(b).(
      payments := map[0 := Payment(0, REFUNDED, b.price, Some(0))],
      refunds := {0},
      moves := [Take(0, b.price), GiveBack(0, b.price)],
      refundJobs := multiset{})
  }

  lemma RefundedShape(b: Stay)
    ensures DeliverRefund(RefundQueued(b), REFUND) == Refunded(b)
  {}

  lemma RefundedIsReachable(b: Stay)
    requires Reachable(RefundQueued(b))
    ensures Reachable(Refunded(b))
  {
    DeliverRefundIsARun(RefundQueued(b), REFUND);
    RefundedShape(b);
    ReachableThrough(RefundQueued(b), Refunded(b));
  }

  lemma RefundedFromScratch(b: Stay, nightly: nat)
    requires Bookable(b, nightly) && b.price > 0
    ensures Reachable(Refunded(b))
  {
    OvertakenIsReachable(b, nightly);
    OvertakenOnceIsReachable(b);
    CancelledMeanwhileIsReachable(b);
    RefundQueuedIsReachable(b);
    RefundedIsReachable(b);
  }

  lemma RecordsOver(b: Stay)
    ensures RecordsOverRefund(Refunded(b), ChargeRecord(Job(b), Charged(0)), 0)
  {}

  lemma RecordedOver(b: Stay)
    ensures Apply(Refunded(b), ChargeRecord(Job(b), Charged(0))).payments
         == map[0 := Payment(0, SUCCEEDED, b.price, Some(0))]
  {}

  /** Two overlapping charges of one key take a payment row from REFUNDED back to SUCCEEDED. */
  lemma RecordingOverRefundHappens(b: Stay, nightly: nat)
    requires Bookable(b, nightly) && b.price > 0
    ensures Reachable(Refunded(b)) && Refunded(b).payments == map[0 := Payment(0, REFUNDED, b.price, Some(0))]
    ensures RecordsOverRefund(Refunded(b), ChargeRecord(Job(b), Charged(0)), 0)
    ensures Apply(Refunded(b), ChargeRecord(Job(b), Charged(0))).payments
         == map[0 := Payment(0, SUCCEEDED, b.price, Some(0))]
  {
    RefundedFromScratch(b, nightly);
    RecordsOver(b);
    RecordedOver(b);
  }

  // ---------------------------------------------------------------------------------------------
  // A lost refund that another cancel makes good

  /** Two cancels have read the row as CONFIRMED. */
  function BothCancelling(b: Stay): State {
    Confirmed(b).(handlers := multiset{CancelRead(0, CONFIRMED), CancelRead(0, CONFIRMED)})
  }

  lemma BothCancellingShape(b: Stay)
    ensures BeginCancel(SecondCancel(b), 0) == BothCancelling(b)
  {}

  /** The first has written CANCELLED and is about to enqueue the refund. */
  function FirstWrote(b: Stay): State {
    Confirmed(b).(reservations := [Booking(b, CANCELLED)],
                  handlers := multiset{CancelRead(0, CONFIRMED), CancelWritten(0)})
  }

  lemma FirstWroteShape(b: Stay)
    ensures WriteCancelled(BothCancelling(b), 0, CONFIRMED) == FirstWrote(b)
  {}

  /** It has died, and the refund with it; the second is where it was. */
  function FirstDied(b: Stay): State {
    Lost(b).(handlers := multiset{CancelRead(0, CONFIRMED)})
  }

  lemma FirstDiedShape(b: Stay)
    ensures CrashHandler(FirstWrote(b), CancelWritten(0)) == FirstDied(b)
    ensures LosesRefund(FirstWrote(b), Crash(CancelWritten(0)))
  {}

  lemma FirstWroteIsReachable(b: Stay)
    requires Reachable(SecondCancel(b))
    ensures Reachable(FirstWrote(b))
  {
    BothCancellingShape(b);
    GuestActs(SecondCancel(b), BothCancelling(b), CancelBegin(0));
    FirstWroteShape(b);
    GuestActs(BothCancelling(b), FirstWrote(b), CancelWrite(0, CONFIRMED));
  }

  lemma FirstDiedIsReachable(b: Stay)
    requires Reachable(FirstWrote(b))
    ensures Reachable(FirstDied(b))
  {
    FirstDiedShape(b);
    GuestActs(FirstWrote(b), FirstDied(b), Crash(CancelWritten(0)));
  }

  function SecondWrote(b: Stay): State {
    Lost(b).(handlers := multiset{CancelWritten(0)})
  }

  lemma SecondWroteShape(b: Stay)
    ensures WriteCancelled(FirstDied(b), 0, CONFIRMED) == SecondWrote(b)
  {}

  /** The second has lived to ask for the refund. */
  function AskedAgain(b: Stay): State {
    Lost(b).(refundJobs := multiset{REFUND}, refundIds := {REFUND})
  }

  lemma AskedAgainShape(b: Stay)
    ensures EnqueueCancelRefund(SecondWrote(b), 0, false) == AskedAgain(b)
  {}

  lemma AskedAgainIsReachable(b: Stay)
    requires Reachable(FirstDied(b))
    ensures Reachable(AskedAgain(b))
  {
    SecondWroteShape(b);
    GuestActs(FirstDied(b), SecondWrote(b), CancelWrite(0, CONFIRMED));
    AskedAgainShape(b);
    GuestActs(SecondWrote(b), AskedAgain(b), CancelEnqueue(0, false));
  }

  function MadeGood(b: Stay): State {
    AskedAgain(b).(
      payments := map[0 := Payment(0, REFUNDED, b.price, Some(0))],
      refunds := {0},
      moves := [Take(0, b.price), GiveBack(0, b.price)],
      refundJobs := multiset{})
  }

  lemma MadeGoodShape(b: Stay)
    ensures DeliverRefund(AskedAgain(b), REFUND) == MadeGood(b)
  {}

  lemma MadeGoodIsReachable(b: Stay)
    requires Reachable(AskedAgain(b))
    ensures Reachable(MadeGood(b))
  {
    DeliverRefundIsARun(AskedAgain(b), REFUND);
    MadeGoodShape(b);
    ReachableThrough(AskedAgain(b), MadeGood(b));
  }

  lemma MadeGoodFacts(b: Stay)
    ensures var s := MadeGood(b);
      && Drained(s) && s.exhausted == multiset{}
      && s.reservations == [Booking(b, CANCELLED)] && Paid(s, 0)
      && 0 in s.lostRefunds && 0 in s.refunds
  {}

  /** Two overlapping cancels of a paid stay, the first dying before its enqueue: a refund was lost, and
      the guest has the money back all the same. */
  lemma SecondCancelMakesGood(b: Stay, nightly: nat)
    requires Bookable(b, nightly) && b.price > 0
    ensures Reachable(FirstWrote(b)) && LosesRefund(FirstWrote(b), Crash(CancelWritten(0)))
    ensures var s := MadeGood(b);
      && Reachable(s) && Drained(s) && s.exhausted == multiset{}
      && s.reservations == [Booking(b, CANCELLED)] && Paid(s, 0)
      && 0 in s.lostRefunds && 0 in s.refunds
  {
    ConfirmedFromScratch(b, nightly);
    SecondCancelIsReachable(b);
    FirstWroteIsReachable(b);
    FirstDiedIsReachable(b);
    AskedAgainIsReachable(b);
    MadeGoodIsReachable(b);
    FirstDiedShape(b);
    MadeGoodFacts(b);
  }

  // ---------------------------------------------------------------------------------------------
  // A stay that was honoured and refunded

  /** Confirmed; the handler that settled it died before its acknowledgement, so the success is still queued. */
  function Unacknowledged(b: Stay): State {
    Alone(b).(results := multiset{Success(b)})
  }

  lemma UnacknowledgedShape(b: Stay)
    ensures var s := CrashHandler(JustSettled(b), CancelRead(0, HELD));
      CrashHandler(s, ResultAcking(Success(b))) == Unacknowledged(b)
  {
    var s := CrashHandler(JustSettled(b), CancelRead(0, HELD));
    assert s.handlers == multiset{ResultAcking(Success(b))};
  }

  lemma UnacknowledgedIsReachable(b: Stay)
    requires Reachable(JustSettled(b))
    ensures Reachable(Unacknowledged(b))
  {
    var s := CrashHandler(JustSettled(b), CancelRead(0, HELD));
    GuestActs(JustSettled(b), s, Crash(CancelRead(0, HELD)));
    UnacknowledgedShape(b);
    GuestActs(s, Unacknowledged(b), Crash(ResultAcking(Success(b))));
  }

  /** The stay has been honoured and completed. */
  function CompletedUnacknowledged(b: Stay): State {
    Unacknowledged(b).(clock := b.checkOut + 1, reservations := [Booking(b, COMPLETED)])
  }

  lemma CompletedUnacknowledgedShape(b: Stay)
    ensures CompleteStays(Unacknowledged(b).(clock := b.checkOut + 1), b.checkOut + 1) == CompletedUnacknowledged(b)
  {}

  lemma CompletedUnacknowledgedIsReachable(b: Stay)
    requires Reachable(Unacknowledged(b)) && b.clock <= b.checkOut
    ensures Reachable(CompletedUnacknowledged(b))
  {
    TickAndSweep(Unacknowledged(b), b.checkOut + 1);
    CompletedUnacknowledgedShape(b);
  }

  /** The success, delivered again, has found the row neither HELD nor CONFIRMED. */
  function CompletedAndAsked(b: Stay): State {
    CompletedUnacknowledged(b).(results := multiset{}, refundJobs := multiset{REFUND}, refundIds := {REFUND})
  }

  lemma CompletedAndAskedShape(b: Stay)
    ensures DeliverResult(CompletedUnacknowledged(b), Success(b), false) == CompletedAndAsked(b)
  {}

  lemma CompletedAndAskedIsReachable(b: Stay)
    requires Reachable(CompletedUnacknowledged(b))
    ensures Reachable(CompletedAndAsked(b))
  {
    DeliverResultIsARun(CompletedUnacknowledged(b), Success(b), false);
    CompletedAndAskedShape(b);
    ReachableThrough(CompletedUnacknowledged(b), CompletedAndAsked(b));
  }

  function CompletedAndRefunded(b: Stay): State {
    CompletedAndAsked(b).(
      payments := map[0 := Payment(0, REFUNDED, b.price, Some(0))],
      refunds := {0},
      moves := [Take(0, b.price), GiveBack(0, b.price)],
      refundJobs := multiset{})
  }

  lemma CompletedAndRefundedShape(b: Stay)
    ensures DeliverRefund(CompletedAndAsked(b), REFUND) == CompletedAndRefunded(b)
  {}

  lemma CompletedAndRefundedIsReachable(b: Stay)
    requires Reachable(CompletedAndAsked(b))
    ensures Reachable(CompletedAndRefunded(b))
  {
    DeliverRefundIsARun(CompletedAndAsked(b), REFUND);
    CompletedAndRefundedShape(b);
    ReachableThrough(CompletedAndAsked(b), CompletedAndRefunded(b));
  }

  /** A success redelivered after the stay was completed refunds a guest who has had the stay. */
  lemma CompletedStayIsRefunded(b: Stay, nightly: nat)
    requires Bookable(b, nightly) && b.price > 0
    ensures var s := CompletedAndRefunded(b);
      && Reachable(s) && Drained(s) && s.exhausted == multiset{} && s.lostRefunds == {}
      && s.reservations == [Booking(b, COMPLETED)] && 0 in s.refunds && TallyOf(s.moves, 0).net == 0
  {
    SettledFromScratch(b, nightly);
    UnacknowledgedIsReachable(b);
    CompletedUnacknowledgedIsReachable(b);
    CompletedAndAskedIsReachable(b);
    CompletedAndRefundedIsReachable(b);
    PaidMeansPaid(CompletedAndRefunded(b), 0);
  }

  // ---------------------------------------------------------------------------------------------
  // An exhausted charge without a dead letter

  /** The provider has the money, nothing is on record, and the job has failed n times. */
  function Failing(b: Stay, n: nat): State {
    Taken(b).(chargeJobs := multiset{Attempt(b, n)})
  }

  function Attempt(b: Stay, n: nat): ChargeJob {
    ChargeJob(HeldEvent(0, b.price), n)
  }

  lemma FirstFailureShape(b: Stay)
    ensures FailAttempt(Taken(b), Job(b)) == Failing(b, 1)
  {
    assert multiset{Job(b)} - multiset{Job(b)} == multiset{};
  }

  lemma FirstFailure(b: Stay)
    requires Reachable(With(Taken(b), b, Overtaken(b)))
    ensures Reachable(Failing(b, 1))
  {
    var s := With(Taken(b), b, Overtaken(b));
    Stays(s);
    assert s == Enter(Taken(b), Overtaken(b));
    FailLeads(s, Taken(b), Overtaken(b));
    FirstFailureShape(b);
    ReachableThrough(s, Failing(b, 1));
  }

  lemma FailureShape(b: Stay, n: nat)
    requires n + 1 < CHARGE_ATTEMPTS
    ensures FailAttempt(Failing(b, n), Attempt(b, n)) == Failing(b, n + 1)
  {
    assert multiset{Attempt(b, n)} - multiset{Attempt(b, n)} == multiset{};
  }

  lemma DeliveredAgain(b: Stay, n: nat)
    ensures Leads(Failing(b, n), Enter(Failing(b, n), ChargeTaken(Attempt(b, n))))
  {
    var s := Failing(b, n);
    Stays(s);
    ChargeStep(s, s, Enter(s, ChargeTaken(Attempt(b, n))), ChargeTake(Attempt(b, n)));
  }

  /** Delivered again, it fails before it gets anywhere. */
  lemma NextFailure(b: Stay, n: nat)
    requires Reachable(Failing(b, n)) && n + 1 < CHARGE_ATTEMPTS
    ensures Reachable(Failing(b, n + 1))
  {
    DeliveredAgain(b, n);
    FailLeads(Failing(b, n), Failing(b, n), ChargeTaken(Attempt(b, n)));
    FailureShape(b, n);
    ReachableThrough(Failing(b, n), Failing(b, n + 1));
  }

  function OutOfAttempts(b: Stay): State {
    Failing(b, 4).(chargeJobs := multiset{}, exhausted := multiset{Attempt(b, 5)})
  }

  lemma LastFailureShape(b: Stay)
    ensures ThrowCharge(Enter(Failing(b, 4), ChargeTaken(Attempt(b, 4))), ChargeTaken(Attempt(b, 4)))
         == Enter(OutOfAttempts(b), FailureNotice(Attempt(b, 5)))
  {
    OwnHandler(Failing(b, 4), ChargeTaken(Attempt(b, 4)), FailureNotice(Attempt(b, 5)));
  }

  lemma LastFailure(b: Stay)
    requires Reachable(Failing(b, 4))
    ensures Reachable(Enter(OutOfAttempts(b), FailureNotice(Attempt(b, 5))))
  {
    var s, h := Failing(b, 4), ChargeTaken(Attempt(b, 4));
    DeliveredAgain(b, 4);
    LastFailureShape(b);
    ChargeStep(s, Enter(s, h), Enter(OutOfAttempts(b), FailureNotice(Attempt(b, 5))), ChargeThrow(h));
    ReachableThrough(s, Enter(OutOfAttempts(b), FailureNotice(Attempt(b, 5))));
  }

  function Unnoted(b: Stay): State {
    OutOfAttempts(b).(lostNotices := multiset{Attempt(b, 5)})
  }

  lemma WorkerDies(b: Stay)
    requires Reachable(Enter(OutOfAttempts(b), FailureNotice(Attempt(b, 5))))
    ensures Reachable(Unnoted(b))
  {
    var notice := FailureNotice(Attempt(b, 5));
    OwnHandler(OutOfAttempts(b), notice, notice);
    GuestActs(Enter(OutOfAttempts(b), notice), Unnoted(b), Crash(notice));
  }

  /** Then the suspended cancel dies and the hold expires. */
  function Vanished(b: Stay): State {
    Unnoted(b).(clock := b.clock + 1, reservations := [Booking(b, EXPIRED)], handlers := multiset{})
  }

  function Quiet(b: Stay): State {
    Unnoted(b).(handlers := multiset{})
  }

  lemma VanishedShape(b: Stay)
    ensures ExpireHolds(Quiet(b).(clock := b.clock + 1), b.clock + 1) == Vanished(b)
  {}

  lemma VanishedIsReachable(b: Stay)
    requires Reachable(Unnoted(b))
    ensures Reachable(Vanished(b))
  {
    GuestActs(Unnoted(b), Quiet(b), Crash(CancelRead(0, HELD)));
    TickAndSweep(Quiet(b), b.clock + 1);
    VanishedShape(b);
  }

  lemma NoticeFromScratch(b: Stay, nightly: nat)
    requires Bookable(b, nightly) && b.price > 0
    ensures Reachable(Enter(OutOfAttempts(b), FailureNotice(Attempt(b, 5))))
  {
    OvertakenIsReachable(b, nightly);
    FirstFailure(b);
    NextFailure(b, 1);
    NextFailure(b, 2);
    NextFailure(b, 3);
    LastFailure(b);
  }

  lemma VanishedFacts(b: Stay)
    ensures var s := Vanished(b);
      && Drained(s) && s.lostRefunds == {}
      && Paid(s, 0) && !Kept(s, 0) && 0 !in s.refunds
      && s.deadLetters == multiset{} && s.exhausted == s.lostNotices == multiset{LastAttempt(s, 0)}
  {}

  lemma VanishedTally(b: Stay)
    ensures TallyOf(Vanished(b).moves, 0).net == b.price
  {
    assert [Take(0, b.price)] == [] + [Take(0, b.price)];
    TallyAppend([], Take(0, b.price), 0);
  }

  /** A charge that took the money and ran out of attempts, whose worker died before the dead letter: the
      guest has paid, has no stay and no refund, and nothing anywhere says so. */
  lemma DyingWorkerLosesTheDeadLetter(b: Stay, nightly: nat)
    requires Bookable(b, nightly) && b.price > 0
    ensures var notice, s := FailureNotice(Attempt(b, 5)), OutOfAttempts(b);
      Reachable(Enter(s, notice)) && LosesNotice(Enter(s, notice), Crash(notice))
    ensures var s := Vanished(b);
      && Reachable(s) && Drained(s) && s.lostRefunds == {}
      && Paid(s, 0) && TallyOf(s.moves, 0).net == b.price
      && !Kept(s, 0) && 0 !in s.refunds
      && s.deadLetters == multiset{} && s.exhausted == s.lostNotices == multiset{LastAttempt(s, 0)}
  {
    NoticeFromScratch(b, nightly);
    WorkerDies(b);
    VanishedIsReachable(b);
    VanishedFacts(b);
    VanishedTally(b);
  }
}

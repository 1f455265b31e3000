/** Holds racing for one calendar: any number of calls, their attempts in any order, each attempt either
    aborted by a deadlock or decided by the constraint, each call retrying once. The race is told call by
    call, so that one can say who won and what a loser lost to; and it is a run of the saga's claim steps. */
module Racing {
  import opened BookingTypes
  import opened Intervals
  import opened Saga
  import opened Operations
  import Nights

  /** What a call has validated and priced before its first attempt. */
  datatype Claim = Claim(listing: Id, checkIn: Instant, checkOut: Instant, price: nat, readAt: Instant)

  /** The row an attempt inserts: its expiry and its insert are those of the attempt, not of the call. */
  function RowAt(c: Claim, holdTtl: nat, at: Instant): Reservation {
    Reservation(c.listing, c.checkIn, c.checkOut, HELD, c.price, at + holdTtl, c.readAt, at)
  }

  /** The slot a claim asks for; what it conflicts with does not depend on when it is inserted. */
  function Slot(c: Claim): Reservation {
    RowAt(c, 0, c.readAt)
  }

  /** Where one call of `hold` stands. A row number says which row it won, or which one it lost to. */
  datatype Phase = Fresh | Retrying | Won(row: nat) | SlotTaken(row: nat) | DeadlockReported

  /** One call's next attempt, some time after whatever happened last. */
  datatype Turn = Turn(call: nat, wait: nat, deadlock: bool)

  datatype Race = Race(clock: Instant, holdTtl: nat, rows: seq<Reservation>, events: seq<OutboxRow>, phases: seq<Phase>)

  predicate Pending(p: Phase) {
    p.Fresh? || p.Retrying?
  }

  function FirstConflict(rows: seq<Reservation>, r: Reservation, from: nat): (i: nat)
    requires from <= |rows| && !Admits(rows, r)
    requires forall k :: 0 <= k < from ==> !Conflict(rows[k], r)
    ensures i < |rows| && Conflict(rows[i], r)
    decreases |rows| - from
  {
    if from < |rows| && Conflict(rows[from], r) then from else FirstConflict(rows, r, from + 1)
  }

  function Elapsed(race: Race, wait: nat): Race {
    race.(clock := race.clock + wait)
  }

  /** One run of a call's claiming transaction, now. */
  function Attempted(race: Race, claims: seq<Claim>, call: nat, deadlock: bool): Race
    requires |race.phases| == |claims|
  {
    if call >= |claims| || !Pending(race.phases[call]) then race
    else if deadlock then
      race.(phases := race.phases[call := if race.phases[call].Fresh? then Retrying else DeadlockReported])
    else
      var row := RowAt(claims[call], race.holdTtl, race.clock);
      if Admits(race.rows, row) then
        race.(rows := race.rows + [row],
              events := race.events + [OutboxRow(HeldEvent(|race.rows|, row.priceTotalCents), race.clock, false, 0)],
              phases := race.phases[call := Won(|race.rows|)])
      else race.(phases := race.phases[call := SlotTaken(FirstConflict(race.rows, row, 0))])
  }

  function Try(race: Race, claims: seq<Claim>, a: Turn): Race
    requires |race.phases| == |claims|
  {
    Attempted(Elapsed(race, a.wait), claims, a.call, a.deadlock)
  }

  function Start(clock: Instant, holdTtl: nat, rows: seq<Reservation>, claims: seq<Claim>): Race {
    Race(clock, holdTtl, rows, [], seq(|claims|, _ => Fresh))
  }

  function RunRace(start: Race, claims: seq<Claim>, schedule: seq<Turn>): (race: Race)
    requires |start.phases| == |claims|
    ensures |race.phases| == |claims|
    decreases |schedule|
  {
    if schedule == [] then start
    else Try(RunRace(start, claims, schedule[..|schedule| - 1]), claims, schedule[|schedule| - 1])
  }

  /** Each winner has its own new row, announced by its own event. */
  ghost predicate WinnersOk(rows: seq<Reservation>, claims: seq<Claim>, race: Race)
    requires |race.phases| == |claims|
  {
    && (forall c :: 0 <= c < |claims| && race.phases[c].Won? ==> WinnerOk(rows, claims, race, c))
    && (forall c, d :: 0 <= c < d < |claims| && race.phases[c].Won? && race.phases[d].Won? ==>
          race.phases[c].row != race.phases[d].row)
  }

  /** Each new row has its winner. */
  ghost predicate RowsHaveWinners(rows: seq<Reservation>, claims: seq<Claim>, race: Race)
    requires |race.phases| == |claims|
  {
    forall i :: |rows| <= i < |race.rows| ==> HasWinner(race, i)
  }

  ghost predicate HasWinner(race: Race, i: nat) {
    exists c :: 0 <= c < |race.phases| && race.phases[c] == Won(i)
  }

  /** Whoever was refused really lost to a row that is there. */
  ghost predicate LosersOk(claims: seq<Claim>, race: Race)
    requires |race.phases| == |claims|
  {
    forall c :: 0 <= c < |claims| && race.phases[c].SlotTaken? ==>
      race.phases[c].row < |race.rows| && Conflict(race.rows[race.phases[c].row], Slot(claims[c]))
  }

  ghost predicate Fair(rows: seq<Reservation>, claims: seq<Claim>, race: Race) {
    && |race.phases| == |claims|
    && NoOverlap(race.rows)
    && rows <= race.rows && |race.events| == |race.rows| - |rows|
    && WinnersOk(rows, claims, race)
    && RowsHaveWinners(rows, claims, race)
    && LosersOk(claims, race)
  }

  /** The winner's row is what its claim asked for, stamped and announced at one instant. */
  ghost predicate WinnerOk(rows: seq<Reservation>, claims: seq<Claim>, race: Race, c: nat)
    requires c < |claims| == |race.phases| && race.phases[c].Won?
  {
    var i := race.phases[c].row;
    && |rows| <= i < |race.rows|
    && race.rows[i] == RowAt(claims[c], race.holdTtl, race.rows[i].insertedAt)
    && i - |rows| < |race.events|
    && race.events[i - |rows|] == OutboxRow(BookingHeld(i, i, claims[c].price), race.rows[i].insertedAt, false, 0)
  }

  lemma WinKeepsWinners(rows: seq<Reservation>, claims: seq<Claim>, race: Race, c: nat)
    requires Fair(rows, claims, race) && c < |claims| && Pending(race.phases[c])
    requires Admits(race.rows, RowAt(claims[c], race.holdTtl, race.clock))
    ensures WinnersOk(rows, claims, Attempted(race, claims, c, false))
  {
    var after := Attempted(race, claims, c, false);
    forall d | 0 <= d < |claims| && after.phases[d].Won? ensures WinnerOk(rows, claims, after, d) {
      assert d != c ==> WinnerOk(rows, claims, race, d);
    }
  }

  lemma WinKeepsRows(rows: seq<Reservation>, claims: seq<Claim>, race: Race, c: nat)
    requires Fair(rows, claims, race) && c < |claims| && Pending(race.phases[c])
    requires Admits(race.rows, RowAt(claims[c], race.holdTtl, race.clock))
    ensures RowsHaveWinners(rows, claims, Attempted(race, claims, c, false))
  {
    var after := Attempted(race, claims, c, false);
    forall i | |rows| <= i < |after.rows| ensures HasWinner(after, i) {
      if i == |race.rows| {
        assert after.phases[c] == Won(i);
      } else {
        assert HasWinner(race, i);
        var d :| 0 <= d < |claims| && race.phases[d] == Won(i);
        assert after.phases[d] == Won(i);
      }
    }
  }

  lemma WinKeepsFair(rows: seq<Reservation>, claims: seq<Claim>, race: Race, c: nat)
    requires Fair(rows, claims, race) && c < |claims| && Pending(race.phases[c])
    requires Admits(race.rows, RowAt(claims[c], race.holdTtl, race.clock))
    ensures Fair(rows, claims, Attempted(race, claims, c, false))
  {
    AdmittedInsertKeepsNoOverlap(race.rows, RowAt(claims[c], race.holdTtl, race.clock));
    WinKeepsWinners(rows, claims, race, c);
    WinKeepsRows(rows, claims, race, c);
  }

  /** An attempt that wins nothing only moves its own call on. */
  lemma PhaseMoveKeepsFair(rows: seq<Reservation>, claims: seq<Claim>, race: Race, c: nat, p: Phase)
    requires Fair(rows, claims, race) && c < |claims| && Pending(race.phases[c]) && !p.Won?
    requires p.SlotTaken? ==> p.row < |race.rows| && Conflict(race.rows[p.row], Slot(claims[c]))
    ensures Fair(rows, claims, race.(phases := race.phases[c := p]))
  {
    var after := race.(phases := race.phases[c := p]);
    assert forall d :: 0 <= d < |claims| && d != c ==> after.phases[d] == race.phases[d];
    assert LosersOk(claims, after);
    forall i | |rows| <= i < |after.rows| ensures HasWinner(after, i) {
      assert HasWinner(race, i);
      var d :| 0 <= d < |claims| && race.phases[d] == Won(i);
      assert after.phases[d] == Won(i);
    }
    forall d | 0 <= d < |claims| && after.phases[d].Won? ensures WinnerOk(rows, claims, after, d) {
      assert WinnerOk(rows, claims, race, d);
    }
  }

  lemma AttemptKeepsFair(rows: seq<Reservation>, claims: seq<Claim>, race: Race, call: nat, deadlock: bool)
    requires Fair(rows, claims, race)
    ensures Fair(rows, claims, Attempted(race, claims, call, deadlock))
  {
    if call < |claims| && Pending(race.phases[call]) {
      var row := RowAt(claims[call], race.holdTtl, race.clock);
      if deadlock {
        PhaseMoveKeepsFair(rows, claims, race, call, if race.phases[call].Fresh? then Retrying else DeadlockReported);
      } else if Admits(race.rows, row) {
        WinKeepsFair(rows, claims, race, call);
      } else {
        PhaseMoveKeepsFair(rows, claims, race, call, SlotTaken(FirstConflict(race.rows, row, 0)));
      }
    }
  }

  lemma WaitKeepsFair(rows: seq<Reservation>, claims: seq<Claim>, race: Race, wait: nat)
    requires Fair(rows, claims, race)
    ensures Fair(rows, claims, Elapsed(race, wait))
  {
    var after := Elapsed(race, wait);
    forall i | |rows| <= i < |after.rows| ensures HasWinner(after, i) {
      assert HasWinner(race, i);
    }
    forall c | 0 <= c < |claims| && after.phases[c].Won? ensures WinnerOk(rows, claims, after, c) {
      assert WinnerOk(rows, claims, race, c);
    }
  }

  /** Whatever the schedule, the calendar stays disjoint, every call adds one reservation and one event
      or nothing, and every refusal names a row that overlaps the claim. */
  lemma {:induction false} EveryRaceIsFair(
      clock: Instant, holdTtl: nat, rows: seq<Reservation>, claims: seq<Claim>, schedule: seq<Turn>)
    requires NoOverlap(rows)
    ensures Fair(rows, claims, RunRace(Start(clock, holdTtl, rows, claims), claims, schedule))
    decreases |schedule|
  {
    if schedule != [] {
      var a, front := schedule[|schedule| - 1], schedule[..|schedule| - 1];
      var race := RunRace(Start(clock, holdTtl, rows, claims), claims, front);
      EveryRaceIsFair(clock, holdTtl, rows, claims, front);
      WaitKeepsFair(rows, claims, race, a.wait);
      AttemptKeepsFair(rows, claims, Elapsed(race, a.wait), a.call, a.deadlock);
    }
  }

  /** All claims want the same free slot. */
  ghost predicate OneFreeSlot(rows: seq<Reservation>, claims: seq<Claim>) {
    && (forall c :: 0 <= c < |claims| ==> Admits(rows, Slot(claims[c])))
    && (forall c, d :: 0 <= c < d < |claims| ==> Conflict(Slot(claims[c]), Slot(claims[d])))
  }

  predicate Decided(p: Phase) {
    p.Won? || p.SlotTaken?
  }

  /** A free slot fought over by any number of callers has at most one winner, and it has one as soon as
      any attempt got as far as the constraint. */
  lemma OneSlotOneWinner(
      clock: Instant, holdTtl: nat, rows: seq<Reservation>, claims: seq<Claim>, schedule: seq<Turn>)
    requires NoOverlap(rows) && OneFreeSlot(rows, claims)
    ensures var race := RunRace(Start(clock, holdTtl, rows, claims), claims, schedule);
      && (forall c, d :: 0 <= c < d < |claims| ==> !(race.phases[c].Won? && race.phases[d].Won?))
      && |race.rows| <= |rows| + 1
      && ((exists c :: 0 <= c < |claims| && race.phases[c].Won?)
          <==> (exists c :: 0 <= c < |claims| && Decided(race.phases[c])))
  {
    EveryRaceIsFair(clock, holdTtl, rows, claims, schedule);
    var race := RunRace(Start(clock, holdTtl, rows, claims), claims, schedule);
    forall c, d | 0 <= c < d < |claims| ensures !(race.phases[c].Won? && race.phases[d].Won?) {
      WinnersAreCompatible(rows, claims, race, c, d);
    }
    if |race.rows| > |rows| + 1 {
      NewRowsAreOne(rows, claims, race, |rows|, |rows| + 1);
    }
    if exists c :: 0 <= c < |claims| && Decided(race.phases[c]) {
      SomeoneLostToAWinner(rows, claims, race);
    }
  }

  lemma NewRowsAreOne(rows: seq<Reservation>, claims: seq<Claim>, race: Race, i: nat, j: nat)
    requires |race.phases| == |claims| && RowsHaveWinners(rows, claims, race)
    requires forall c, d :: 0 <= c < d < |claims| ==> !(race.phases[c].Won? && race.phases[d].Won?)
    requires |rows| <= i < |race.rows| && |rows| <= j < |race.rows|
    ensures i == j
  {
    assert HasWinner(race, i) && HasWinner(race, j);
    var c :| 0 <= c < |claims| && race.phases[c] == Won(i);
    var d :| 0 <= d < |claims| && race.phases[d] == Won(j);
    assert c == d;
  }

  /** On a free slot the only rows a claim can lose to are winners' rows. */
  lemma SomeoneLostToAWinner(rows: seq<Reservation>, claims: seq<Claim>, race: Race)
    requires Fair(rows, claims, race) && OneFreeSlot(rows, claims)
    requires exists c :: 0 <= c < |claims| && Decided(race.phases[c])
    ensures exists c :: 0 <= c < |claims| && race.phases[c].Won?
  {
    var e :| 0 <= e < |claims| && Decided(race.phases[e]);
    if race.phases[e].SlotTaken? {
      var i := race.phases[e].row;
      if i < |rows| {
        assert false;
      }
      assert HasWinner(race, i);
      var c :| 0 <= c < |claims| && race.phases[c] == Won(i);
    }
  }

  lemma WinnersAreCompatible(rows: seq<Reservation>, claims: seq<Claim>, race: Race, c: nat, d: nat)
    requires Fair(rows, claims, race) && c < |claims| && d < |claims| && c != d
    ensures race.phases[c].Won? && race.phases[d].Won? ==> !Conflict(Slot(claims[c]), Slot(claims[d]))
  {
    if race.phases[c].Won? && race.phases[d].Won? {
      assert WinnerOk(rows, claims, race, c) && WinnerOk(rows, claims, race, d);
      var i, j := race.phases[c].row, race.phases[d].row;
      assert i < j || j < i;
      assert if i < j then !Conflict(race.rows[i], race.rows[j]) else !Conflict(race.rows[j], race.rows[i]);
    }
  }

  // ---------------------------------------------------------------------------------------------
  // A race is a run of the saga

  function HandlerOf(c: Claim, retried: bool): Handler {
    HoldClaiming(c.listing, c.checkIn, c.checkOut, c.price, c.readAt, retried)
  }

  /** The handler a call has in flight, if it has not got its answer yet. */
  function InFlight(c: Claim, p: Phase): multiset<Handler> {
    if Pending(p) then multiset{HandlerOf(c, p.Retrying?)} else multiset{}
  }

  function AllInFlight(claims: seq<Claim>, phases: seq<Phase>): multiset<Handler>
    requires |phases| == |claims|
    decreases |claims|
  {
    if claims == [] then multiset{}
    else
      var last := |claims| - 1;
      AllInFlight(claims[..last], phases[..last]) + InFlight(claims[last], phases[last])
  }

  lemma WithOneMore(all: multiset<Handler>, moved: multiset<Handler>, x: multiset<Handler>, y: multiset<Handler>,
                    extra: multiset<Handler>)
    requires x <= all && moved == all - x + y
    ensures x <= all + extra && moved + extra == all + extra - x + y
  {}

  lemma LastOneMoves(front: multiset<Handler>, x: multiset<Handler>, y: multiset<Handler>)
    ensures x <= front + x && front + y == front + x - x + y
  {}

  /** One call moving on changes its own handler and nobody else's. */
  lemma {:induction false} OneCallMoves(claims: seq<Claim>, phases: seq<Phase>, c: nat, p: Phase)
    requires |phases| == |claims| && c < |claims|
    ensures InFlight(claims[c], phases[c]) <= AllInFlight(claims, phases)
    ensures AllInFlight(claims, phases[c := p])
         == AllInFlight(claims, phases) - InFlight(claims[c], phases[c]) + InFlight(claims[c], p)
    decreases |claims|
  {
    var last := |claims| - 1;
    var front := AllInFlight(claims[..last], phases[..last]);
    var x, y := InFlight(claims[c], phases[c]), InFlight(claims[c], p);
    if c == last {
      assert phases[c := p][..last] == phases[..last];
      LastOneMoves(front, x, y);
    } else {
      assert phases[c := p][..last] == phases[..last][c := p];
      OneCallMoves(claims[..last], phases[..last], c, p);
      WithOneMore(front, AllInFlight(claims[..last], phases[..last][c := p]), x, y,
                  InFlight(claims[last], phases[last]));
    }
  }

  /** The saga's state as the race has it: clock, rows, new events, and the handlers still in flight. */
  function AsSaga(s: State, race: Race, claims: seq<Claim>): State
    requires |race.phases| == |claims|
  {
    s.(clock := race.clock, reservations := race.rows, outbox := s.outbox + race.events,
       handlers := s.handlers + AllInFlight(claims, race.phases))
  }

  lemma WaitIsAStep(s: State, t: State, race: Race, claims: seq<Claim>, wait: nat)
    requires |race.phases| == |claims| && Leads(t, AsSaga(s, race, claims))
    ensures Leads(t, AsSaga(s, Elapsed(race, wait), claims))
  {
    Waits(t, AsSaga(s, race, claims), wait);
    assert Waited(AsSaga(s, race, claims), wait) == AsSaga(s, Elapsed(race, wait), claims);
  }

  lemma HandlersAfter(others: multiset<Handler>, mine: multiset<Handler>, h: Handler, next: multiset<Handler>)
    requires h in mine
    ensures h in others + mine
    ensures others + (mine - multiset{h} + next) == others + mine - multiset{h} + next
    ensures others + (mine - multiset{h} + multiset{}) == others + mine - multiset{h}
  {}

  /** The handlers in flight after an attempt: the call's own one is gone, or has become its next. */
  lemma AttemptHandlers(s: State, race: Race, claims: seq<Claim>, call: nat, deadlock: bool)
    requires |race.phases| == |claims| && call < |claims| && Pending(race.phases[call])
    ensures var h := HandlerOf(claims[call], race.phases[call].Retrying?);
      var now, after := AsSaga(s, race, claims), AsSaga(s, Attempted(race, claims, call, deadlock), claims);
      && h in now.handlers
      && after.handlers == (if deadlock && !h.retried then now.handlers - multiset{h} + multiset{h.(retried := true)}
                            else now.handlers - multiset{h})
  {
    var h := HandlerOf(claims[call], race.phases[call].Retrying?);
    var p := Attempted(race, claims, call, deadlock).phases[call];
    assert Attempted(race, claims, call, deadlock).phases == race.phases[call := p];
    OneCallMoves(claims, race.phases, call, p);
    HandlersAfter(s.handlers, AllInFlight(claims, race.phases), h, InFlight(claims[call], p));
  }

  /** The saga's claim step does to the state what the attempt does to the race. */
  lemma ClaimStepShape(s: State, race: Race, claims: seq<Claim>, call: nat, deadlock: bool)
    requires |race.phases| == |claims| && call < |claims| && Pending(race.phases[call]) && race.holdTtl == s.holdTtl
    ensures ClaimSlot(AsSaga(s, race, claims), HandlerOf(claims[call], race.phases[call].Retrying?), deadlock)
         == AsSaga(s, Attempted(race, claims, call, deadlock), claims)
  {
    var h, now := HandlerOf(claims[call], race.phases[call].Retrying?), AsSaga(s, race, claims);
    AttemptHandlers(s, race, claims, call, deadlock);
    assert NewReservation(now, h) == RowAt(claims[call], race.holdTtl, race.clock);
    if !deadlock && Admits(race.rows, NewReservation(now, h)) {
      var event := OutboxRow(HeldEvent(|race.rows|, h.price), race.clock, false, 0);
      assert s.outbox + (race.events + [event]) == s.outbox + race.events + [event];
    }
  }

  lemma AttemptIsAStep(s: State, t: State, race: Race, claims: seq<Claim>, call: nat, deadlock: bool)
    requires |race.phases| == |claims| && Leads(t, AsSaga(s, race, claims)) && race.holdTtl == s.holdTtl
    ensures Leads(t, AsSaga(s, Attempted(race, claims, call, deadlock), claims))
  {
    if call < |claims| && Pending(race.phases[call]) {
      var h := HandlerOf(claims[call], race.phases[call].Retrying?);
      ClaimStepShape(s, race, claims, call, deadlock);
      GuestStep(t, AsSaga(s, race, claims), AsSaga(s, Attempted(race, claims, call, deadlock), claims),
                HoldClaim(h, deadlock));
    }
  }

  lemma {:induction false} TtlNeverChanges(start: Race, claims: seq<Claim>, schedule: seq<Turn>)
    requires |start.phases| == |claims|
    ensures RunRace(start, claims, schedule).holdTtl == start.holdTtl
    decreases |schedule|
  {
    if schedule != [] {
      TtlNeverChanges(start, claims, schedule[..|schedule| - 1]);
    }
  }

  /** For every schedule the saga's clock, rows, outbox and handlers in flight are the race's: a race is a
      run of claim steps and of time passing. */
  lemma {:induction false} EveryRaceIsARun(s: State, clock: Instant, claims: seq<Claim>, schedule: seq<Turn>)
    ensures var start := Start(clock, s.holdTtl, s.reservations, claims);
      Leads(AsSaga(s, start, claims), AsSaga(s, RunRace(start, claims, schedule), claims))
    decreases |schedule|
  {
    var start := Start(clock, s.holdTtl, s.reservations, claims);
    var from := AsSaga(s, start, claims);
    if schedule == [] {
      Stays(from);
    } else {
      var a, front := schedule[|schedule| - 1], schedule[..|schedule| - 1];
      EveryRaceIsARun(s, clock, claims, front);
      TtlNeverChanges(start, claims, front);
      WaitIsAStep(s, from, RunRace(start, claims, front), claims, a.wait);
      AttemptIsAStep(s, from, Elapsed(RunRace(start, claims, front), a.wait), claims, a.call, a.deadlock);
    }
  }

  /** A call that `hold` would let through: validated, and priced from its listing. */
  predicate Called(c: Claim, nightlyPriceCents: nat) {
    && c.readAt <= c.checkIn < c.checkOut
    && c.price == Nights.PriceTotal(c.checkIn, c.checkOut, nightlyPriceCents)
  }

  /** The calls come in one after the other, however long apart, each reading the clock as it does. */
  ghost predicate InOrder(from: Instant, claims: seq<Claim>) {
    && (forall c :: 0 <= c < |claims| ==> from <= claims[c].readAt)
    && (forall c, d :: 0 <= c < d < |claims| ==> claims[c].readAt <= claims[d].readAt)
  }

  /** When the last of them has been called. */
  function LastRead(from: Instant, claims: seq<Claim>): Instant {
    if claims == [] then from else claims[|claims| - 1].readAt
  }

  /** The saga with every call under way and none of them attempted. */
  function AllCalled(s: State, claims: seq<Claim>): State {
    AsSaga(s, Start(LastRead(s.clock, claims), s.holdTtl, s.reservations, claims), claims)
  }

  lemma OneMoreCall(s: State, claims: seq<Claim>)
    requires claims != []
    ensures var last := |claims| - 1;
      AllCalled(s, claims)
      == Enter(AllCalled(s, claims[..last]).(clock := claims[last].readAt), HandlerOf(claims[last], false))
  {
    var last := |claims| - 1;
    assert (seq(|claims|, _ => Fresh))[..last] == seq(last, _ => Fresh);
  }

  lemma LastCallBegins(s: State, t: State, claims: seq<Claim>, nightlyPriceCents: nat)
    requires claims != [] && Called(claims[|claims| - 1], nightlyPriceCents)
    requires Leads(s, t) && t == AllCalled(s, claims[..|claims| - 1]) && t.clock <= claims[|claims| - 1].readAt
    ensures Leads(s, AllCalled(s, claims))
  {
    var c := claims[|claims| - 1];
    var now := t.(clock := c.readAt);
    GuestStep(s, t, now, Tick(c.readAt));
    OneMoreCall(s, claims);
    CallShape(now, c, nightlyPriceCents);
    GuestStep(s, now, AllCalled(s, claims), HoldBegin(c.listing, c.checkIn, c.checkOut, nightlyPriceCents));
  }

  lemma CallShape(t: State, c: Claim, nightlyPriceCents: nat)
    requires Called(c, nightlyPriceCents) && t.clock == c.readAt
    ensures BeginHold(t, c.listing, c.checkIn, c.checkOut, nightlyPriceCents) == Enter(t, HandlerOf(c, false))
  {}

  lemma FrontInOrder(from: Instant, claims: seq<Claim>)
    requires claims != [] && InOrder(from, claims)
    ensures InOrder(from, claims[..|claims| - 1])
    ensures LastRead(from, claims[..|claims| - 1]) <= claims[|claims| - 1].readAt
  {}

  /** And the race's beginning is one too: every call begins its hold, each at its own time. */
  lemma {:induction false} RacesBegin(s: State, claims: seq<Claim>, nightly: seq<nat>)
    requires |nightly| == |claims| && forall c :: 0 <= c < |claims| ==> Called(claims[c], nightly[c])
    requires InOrder(s.clock, claims)
    ensures Leads(s, AllCalled(s, claims))
    decreases |claims|
  {
    if claims == [] {
      Stays(s);
      assert AllCalled(s, claims) == s;
    } else {
      var last := |claims| - 1;
      FrontInOrder(s.clock, claims);
      RacesBegin(s, claims[..last], nightly[..last]);
      LastCallBegins(s, AllCalled(s, claims[..last]), claims, nightly[last]);
    }
  }
}

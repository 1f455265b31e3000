/** Realtime notifications: numbers allocated per listing after the commit, a channel that loses,
    repeats and reorders, and a client that drops old numbers and reports gaps. */
module Realtime {
  import opened BookingTypes

  // ---------------------------------------------------------------------------------------------
  // The client

  /** What may arrive off the socket. */
  datatype Raw = NotAnEvent | Wire(kind: string, version: int, listing: Id, status: string, number: int)

  const RESERVATION_CHANGED := "reservation.changed"
  const STATUSES: set<string> := {"HELD", "CONFIRMED", "CANCELLED", "EXPIRED", "COMPLETED"}

  predicate IsReservationChanged(raw: Raw) {
    raw.Wire? && raw.kind == RESERVATION_CHANGED && raw.version == 1 && raw.status in STATUSES
  }

  /** A prompt to re-read, and why. */
  datatype Report = Changed(listing: Id, number: int, gap: bool) | Reconnected

  datatype Client = Client(ids: seq<Id>, lastSeq: map<Id, int>, reports: seq<Report>)

  datatype Input = Arrives(raw: Raw) | Connects

  predicate Accepts(c: Client, raw: Raw) {
    && IsReservationChanged(raw)
    && raw.listing in c.ids
    && (raw.listing in c.lastSeq ==> raw.number > c.lastSeq[raw.listing])
  }

  function Receive(c: Client, input: Input): Client {
    match input
    case Connects => c.(reports := c.reports + [Reconnected])
    case Arrives(raw) =>
      if !Accepts(c, raw) then c
      else
        var missed := raw.listing in c.lastSeq && raw.number > c.lastSeq[raw.listing] + 1;
        c.(lastSeq := c.lastSeq[raw.listing := raw.number],
           reports := c.reports + [Changed(raw.listing, raw.number, missed)])
  }

  /** What counts as an event: the one kind, in the one version, with a status there is. */
  lemma EventsAre(raw: Raw)
    ensures IsReservationChanged(raw) <==>
      && raw.Wire? && raw.kind == "reservation.changed" && raw.version == 1
      && raw.status in ["HELD", "CONFIRMED", "CANCELLED", "EXPIRED", "COMPLETED"]
  {}

  /** An event is handled exactly when it is for a listing being watched and newer than the last one of it, with a
      gap exactly when at least one number in between is missing; anything else leaves the client as it was. */
  lemma EventsAreHandledExactly(c: Client, raw: Raw)
    ensures var after := Receive(c, Arrives(raw));
      if IsReservationChanged(raw) && raw.listing in c.ids
         && (raw.listing in c.lastSeq ==> c.lastSeq[raw.listing] < raw.number) then
        && after.ids == c.ids && after.lastSeq == c.lastSeq[raw.listing := raw.number]
        && after.reports == c.reports + [Changed(raw.listing, raw.number,
             raw.listing in c.lastSeq && c.lastSeq[raw.listing] + 1 < raw.number)]
      else after == c
  {}

  function ReceiveAll(ids: seq<Id>, inputs: seq<Input>): Client
    decreases |inputs|
  {
    if inputs == [] then Client(ids, map[], [])
    else Receive(ReceiveAll(ids, inputs[..|inputs| - 1]), inputs[|inputs| - 1])
  }

  /** The numbers a client has accepted for a listing, in order. */
  function Accepted(reports: seq<Report>, listing: Id): seq<int>
    decreases |reports|
  {
    if reports == [] then []
    else
      var r, before := reports[|reports| - 1], Accepted(reports[..|reports| - 1], listing);
      if r.Changed? && r.listing == listing then before + [r.number] else before
  }

  function GapsReported(reports: seq<Report>, listing: Id): nat
    decreases |reports|
  {
    if reports == [] then 0
    else
      var r := reports[|reports| - 1];
      GapsReported(reports[..|reports| - 1], listing) + (if r.Changed? && r.listing == listing && r.gap then 1 else 0)
  }

  ghost predicate Increasing(numbers: seq<int>) {
    forall k :: 0 < k < |numbers| ==> numbers[k - 1] < numbers[k]
  }

  ghost predicate Contiguous(numbers: seq<int>) {
    forall k :: 0 < k < |numbers| ==> numbers[k] == numbers[k - 1] + 1
  }

  ghost predicate ClientOk(c: Client, listing: Id) {
    var numbers := Accepted(c.reports, listing);
    && (listing in c.lastSeq <==> numbers != [])
    && (numbers != [] ==> c.lastSeq[listing] == numbers[|numbers| - 1])
    && Increasing(numbers)
    && (GapsReported(c.reports, listing) == 0 <==> Contiguous(numbers))
  }

  lemma OneMoreNumber(numbers: seq<int>, n: int)
    requires numbers != [] ==> numbers[|numbers| - 1] < n
    requires Increasing(numbers)
    ensures Increasing(numbers + [n])
    ensures Contiguous(numbers + [n]) <==> Contiguous(numbers) && (numbers != [] ==> n == numbers[|numbers| - 1] + 1)
  {
    var after := numbers + [n];
    if Contiguous(after) {
      forall k | 0 < k < |numbers| ensures numbers[k] == numbers[k - 1] + 1 {
        assert after[k] == after[k - 1] + 1;
      }
      assert numbers != [] ==> after[|numbers|] == after[|numbers| - 1] + 1;
    }
  }

  lemma OneMoreReport(reports: seq<Report>, r: Report, listing: Id)
    ensures var mine := r.Changed? && r.listing == listing;
      && Accepted(reports + [r], listing) == Accepted(reports, listing) + (if mine then [r.number] else [])
      && GapsReported(reports + [r], listing) == GapsReported(reports, listing) + (if mine && r.gap then 1 else 0)
  {
    assert (reports + [r])[..|reports|] == reports;
  }

  lemma ReceiveKeepsClientOk(c: Client, input: Input, listing: Id)
    requires ClientOk(c, listing)
    ensures ClientOk(Receive(c, input), listing)
  {
    if input.Connects? {
      OneMoreReport(c.reports, Reconnected, listing);
    } else if Accepts(c, input.raw) {
      var raw := input.raw;
      var missed := raw.listing in c.lastSeq && raw.number > c.lastSeq[raw.listing] + 1;
      OneMoreReport(c.reports, Changed(raw.listing, raw.number, missed), listing);
      if raw.listing == listing {
        OneMoreNumber(Accepted(c.reports, listing), raw.number);
      }
    }
  }

  /** Whatever arrives, in whatever order and however often: the accepted numbers of a listing increase,
      and they are contiguous from the first one on exactly when no gap was ever reported. */
  lemma {:induction false} GapsAreReportedExactly(ids: seq<Id>, inputs: seq<Input>, listing: Id)
    ensures var c := ReceiveAll(ids, inputs);
      && ClientOk(c, listing)
      && Increasing(Accepted(c.reports, listing))
      && (GapsReported(c.reports, listing) == 0 <==> Contiguous(Accepted(c.reports, listing)))
    decreases |inputs|
  {
    if inputs != [] {
      GapsAreReportedExactly(ids, inputs[..|inputs| - 1], listing);
      ReceiveKeepsClientOk(ReceiveAll(ids, inputs[..|inputs| - 1]), inputs[|inputs| - 1], listing);
    }
  }

  // ---------------------------------------------------------------------------------------------
  // The server, the channel and the client together

  /** One allocated number: the commit it announces, and the listing's newest commit at that moment. */
  datatype Allocation = Allocation(commit: nat, newest: nat)

  /** `version` counts a listing's commits, `log[l][n - 1]` is the announcement that got number n, and
      `floor` is the oldest commit the client's latest re-read of a listing can have seen. `announcing`
      holds the announcements between their commit and their number. */
  datatype State = State(
    version: map<Id, nat>,
    announcing: multiset<(Id, nat)>,
    log: map<Id, seq<Allocation>>,
    client: Client,
    floor: map<Id, nat>)

  datatype Step =
    | Commit(listing: Id)
    | Allocate(listing: Id, commit: nat)
    | GiveUp(listing: Id, commit: nat)
    | Deliver(raw: Raw)
    | Connect

  function Version(s: State, listing: Id): nat {
    if listing in s.version then s.version[listing] else 0
  }

  function Log(s: State, listing: Id): seq<Allocation> {
    if listing in s.log then s.log[listing] else []
  }

  function Floor(s: State, listing: Id): nat {
    if listing in s.floor then s.floor[listing] else 0
  }

  /** A message on the channel is one the server emitted, or is not an event at all. Losing, repeating
      and reordering are which of these are delivered, how often, and when. */
  predicate OnChannel(s: State, raw: Raw) {
    IsReservationChanged(raw) ==> 1 <= raw.number <= |Log(s, raw.listing)|
  }

  /** A re-read prompted now sees at least every commit there is now. */
  function ReRead(s: State, listings: seq<Id>): map<Id, nat> {
    s.floor + (map l | l in listings :: Version(s, l))
  }

  function Apply(s: State, step: Step): State {
    match step
    case Commit(l) =>
      s.(version := s.version[l := Version(s, l) + 1], announcing := s.announcing + multiset{(l, Version(s, l) + 1)})
    case Allocate(l, commit) =>
      if (l, commit) !in s.announcing then s
      else
        s.(announcing := s.announcing - multiset{(l, commit)},
           log := s.log[l := Log(s, l) + [Allocation(commit, Version(s, l))]])
    case GiveUp(l, commit) => s.(announcing := s.announcing - multiset{(l, commit)})
    case Deliver(raw) =>
      if !OnChannel(s, raw) then s
      else
        s.(client := Receive(s.client, Arrives(raw)),
           floor := if Accepts(s.client, raw) then ReRead(s, [raw.listing]) else s.floor)
    case Connect => s.(client := Receive(s.client, Connects), floor := ReRead(s, s.client.ids))
  }

  function Run(ids: seq<Id>, steps: seq<Step>): State
    decreases |steps|
  {
    if steps == [] then State(map[], multiset{}, map[], Client(ids, map[], []), map[])
    else Apply(Run(ids, steps[..|steps| - 1]), steps[|steps| - 1])
  }

  ghost predicate ListingOk(s: State, l: Id) {
    var log := Log(s, l);
    && (forall n :: 0 <= n < |log| ==> log[n].commit <= log[n].newest <= Version(s, l))
    && (forall m, n :: 0 <= m < n < |log| ==> log[m].newest <= log[n].newest)
    && (l in s.client.lastSeq ==> 1 <= s.client.lastSeq[l] <= |log|)
    && (l in s.client.lastSeq ==> forall n :: 0 <= n < s.client.lastSeq[l] && n < |log| ==>
        log[n].newest <= Floor(s, l))
    && Floor(s, l) <= Version(s, l)
  }

  ghost predicate Inv(s: State) {
    && (forall l: Id :: ListingOk(s, l))
    && (forall a :: a in s.announcing ==> a.1 <= Version(s, a.0))
  }

  lemma CommitKeeps(s: State, l: Id)
    requires Inv(s)
    ensures Inv(Apply(s, Commit(l)))
  {
    var t := Apply(s, Commit(l));
    forall k: Id ensures ListingOk(t, k) {
      assert ListingOk(s, k);
    }
  }

  lemma AllocateKeepsListing(s: State, l: Id, commit: nat, k: Id)
    requires Inv(s)
    ensures ListingOk(Apply(s, Allocate(l, commit)), k)
  {
    assert ListingOk(s, k);
  }

  lemma AllocateKeeps(s: State, l: Id, commit: nat)
    requires Inv(s)
    ensures Inv(Apply(s, Allocate(l, commit)))
  {
    forall k: Id ensures ListingOk(Apply(s, Allocate(l, commit)), k) {
      AllocateKeepsListing(s, l, commit, k);
    }
  }

  lemma AcceptKeepsListing(s: State, raw: Raw, k: Id)
    requires ListingOk(s, k) && OnChannel(s, raw) && Accepts(s.client, raw)
    ensures ListingOk(Apply(s, Deliver(raw)), k)
  {
    var t := Apply(s, Deliver(raw));
    assert Log(t, k) == Log(s, k) && Version(t, k) == Version(s, k);
    assert Floor(t, k) == if k == raw.listing then Version(s, k) else Floor(s, k);
  }

  lemma DropKeepsListing(s: State, raw: Raw, k: Id)
    requires ListingOk(s, k) && !Accepts(s.client, raw)
    ensures ListingOk(Apply(s, Deliver(raw)), k)
  {}

  lemma DeliverKeeps(s: State, raw: Raw)
    requires Inv(s)
    ensures Inv(Apply(s, Deliver(raw)))
  {
    if OnChannel(s, raw) {
      forall k: Id ensures ListingOk(Apply(s, Deliver(raw)), k) {
        assert ListingOk(s, k);
        if Accepts(s.client, raw) {
          AcceptKeepsListing(s, raw, k);
        } else {
          DropKeepsListing(s, raw, k);
        }
      }
    }
  }

  lemma OtherStepKeeps(s: State, step: Step)
    requires Inv(s) && (step.GiveUp? || step.Connect?)
    ensures Inv(Apply(s, step))
  {
    var t := Apply(s, step);
    forall k: Id ensures ListingOk(t, k) {
      assert ListingOk(s, k);
    }
  }

  lemma {:induction false} RunKeeps(ids: seq<Id>, steps: seq<Step>)
    ensures Inv(Run(ids, steps))
    decreases |steps|
  {
    if steps != [] {
      var before, step := Run(ids, steps[..|steps| - 1]), steps[|steps| - 1];
      RunKeeps(ids, steps[..|steps| - 1]);
      match step
      case Commit(l) => CommitKeeps(before, l);
      case Allocate(l, commit) => AllocateKeeps(before, l, commit);
      case GiveUp(_, _) => OtherStepKeeps(before, step);
      case Deliver(raw) => DeliverKeeps(before, raw);
      case Connect => OtherStepKeeps(before, step);
    }
  }

  /** Dropping an old number is safe: once an event has been handled, even by ignoring it, the client
      has re-read the listing at or after the commit that event announced. */
  lemma HandledMeansReRead(ids: seq<Id>, steps: seq<Step>, raw: Raw)
    requires IsReservationChanged(raw) && raw.listing in Run(ids, steps).client.ids
    requires OnChannel(Run(ids, steps), raw)
    ensures var s := Run(ids, steps);
      Log(s, raw.listing)[raw.number - 1].commit <= Floor(Apply(s, Deliver(raw)), raw.listing)
  {
    RunKeeps(ids, steps);
    assert ListingOk(Run(ids, steps), raw.listing);
  }

  /** A reconnect catches the client up on every listing it watches, whatever it missed. */
  lemma ReconnectCatchesUp(ids: seq<Id>, steps: seq<Step>, l: Id)
    requires l in ids
    ensures Floor(Apply(Run(ids, steps), Connect), l) == Version(Run(ids, steps), l)
    ensures forall n :: 0 <= n < |Log(Run(ids, steps), l)| ==>
              Log(Run(ids, steps), l)[n].commit <= Floor(Apply(Run(ids, steps), Connect), l)
  {
    RunKeeps(ids, steps);
    IdsNeverChange(ids, steps);
    assert ListingOk(Run(ids, steps), l);
  }

  lemma IdsKept(s: State, step: Step)
    ensures Apply(s, step).client.ids == s.client.ids
  {}

  lemma {:induction false} IdsNeverChange(ids: seq<Id>, steps: seq<Step>)
    ensures Run(ids, steps).client.ids == ids
    decreases |steps|
  {
    if steps != [] {
      IdsNeverChange(ids, steps[..|steps| - 1]);
      IdsKept(Run(ids, steps[..|steps| - 1]), steps[|steps| - 1]);
    }
  }

  // ---------------------------------------------------------------------------------------------
  // RealtimeGateway and useListingUpdates as they run

  lemma AllocatedLog(s: State, listing: Id, commit: nat, l: Id)
    requires (listing, commit) in s.announcing
    ensures Log(Apply(s, Allocate(listing, commit)), l)
         == if l == listing then Log(s, l) + [Allocation(commit, Version(s, l))] else Log(s, l)
  {}

  lemma StaysOnChannel(s: State, listing: Id, commit: nat, raw: Raw)
    requires (listing, commit) in s.announcing && OnChannel(s, raw)
    ensures OnChannel(Apply(s, Allocate(listing, commit)), raw)
  {
    if IsReservationChanged(raw) {
      AllocatedLog(s, listing, commit, raw.listing);
    }
  }

  function CounterOf(counters: map<Id, nat>, listing: Id): nat {
    if listing in counters then counters[listing] else 0
  }

  /** Counters are the lengths of the protocol's logs, and what has been emitted is on its channel. */
  ghost predicate Numbers(counters: map<Id, nat>, emitted: seq<(set<Id>, Raw)>, s: State) {
    && (forall l: Id :: CounterOf(counters, l) == |Log(s, l)|)
    && (forall i :: 0 <= i < |emitted| ==> OnChannel(s, emitted[i].1))
  }

  lemma SameLog(counters: map<Id, nat>, emitted: seq<(set<Id>, Raw)>, s: State, t: State)
    requires Numbers(counters, emitted, s) && t.log == s.log
    ensures Numbers(counters, emitted, t)
  {
    forall l: Id ensures CounterOf(counters, l) == |Log(t, l)| {
      assert Log(t, l) == Log(s, l);
    }
  }

  lemma AllocationNumbers(
      counters: map<Id, nat>, emitted: seq<(set<Id>, Raw)>, s: State, listing: Id, commit: nat, raw: Raw)
    requires Numbers(counters, emitted, s) && (listing, commit) in s.announcing
    requires IsReservationChanged(raw) && raw.listing == listing && raw.number == CounterOf(counters, listing) + 1
    ensures var after, t := counters[listing := CounterOf(counters, listing) + 1], Apply(s, Allocate(listing, commit));
      && Numbers(after, emitted, t)
      && OnChannel(t, raw)
      && Log(t, listing) == Log(s, listing) + [Allocation(commit, Version(s, listing))]
  {
    var after, t := counters[listing := CounterOf(counters, listing) + 1], Apply(s, Allocate(listing, commit));
    forall l: Id ensures CounterOf(after, l) == |Log(t, l)| {
      AllocatedLog(s, listing, commit, l);
    }
    forall i | 0 <= i < |emitted| ensures OnChannel(t, emitted[i].1) {
      StaysOnChannel(s, listing, commit, emitted[i].1);
    }
    AllocatedLog(s, listing, commit, listing);
  }

  /** The shared counter and what has been emitted so far. `incr` may fail or time out. */
  class RealtimeGateway {
    var counters: map<Id, nat>
    var rooms: map<Id, set<Id>>
    var emitted: seq<(set<Id>, Raw)>

    constructor ()
      ensures counters == map[] && rooms == map[] && emitted == [] && NumbersInOrder()
      ensures forall ids :: Represents(Run(ids, []))
    {
      counters, rooms, emitted := map[], map[], [];
    }

    function Counter(listing: Id): nat
      reads this
    {
      CounterOf(counters, listing)
    }

    /** The protocol's view of the gateway: the counters are the lengths of its logs, and whatever has been
        emitted is on its channel. */
    ghost predicate Represents(s: State)
      reads this
    {
      Numbers(counters, emitted, s)
    }

    /** Commits, deliveries, reconnects and announcements given up leave that view in place. */
    lemma StillRepresents(s: State, step: Step)
      requires Represents(s) && !step.Allocate?
      ensures Represents(Apply(s, step))
    {
      SameLog(counters, emitted, s, Apply(s, step));
    }

    /** Every emitted number was allocated, and a listing's numbers only ever go up. */
    ghost predicate NumbersInOrder()
      reads this
    {
      && (forall i :: 0 <= i < |emitted| ==>
            && IsReservationChanged(emitted[i].1)
            && emitted[i].1.listing in counters
            && 1 <= emitted[i].1.number <= counters[emitted[i].1.listing])
      && (forall i, j :: 0 <= i < j < |emitted| && emitted[i].1.listing == emitted[j].1.listing ==>
            emitted[i].1.number < emitted[j].1.number)
    }

    function Room(listing: Id): set<Id>
      reads this
    {
      if listing in rooms then rooms[listing] else {}
    }

    method Watch(socket: Id, listing: Id)
      modifies this`rooms
      ensures Room(listing) == old(Room(listing)) + {socket}
      ensures forall l :: l != listing ==> Room(l) == old(Room(l))
    {
      rooms := rooms[listing := Room(listing) + {socket}];
    }

    method Unwatch(socket: Id, listing: Id)
      modifies this`rooms
      ensures Room(listing) == old(Room(listing)) - {socket}
      ensures forall l :: l != listing ==> Room(l) == old(Room(l))
    {
      rooms := rooms[listing := Room(listing) - {socket}];
    }

    /** A number is used at most once, even when its event is then lost; failures change nothing else.
        In the protocol the call allocates the announcement's number, or gives the announcement up. */
    method PublishReservationChanged(
        listing: Id, status: string, numbered: bool, reached: bool, ghost s: State, ghost commit: nat)
      requires NumbersInOrder() && status in STATUSES
      requires Represents(s) && (listing, commit) in s.announcing
      modifies this`counters, this`emitted
      ensures NumbersInOrder()
      ensures var n := (if listing in old(counters) then old(counters[listing]) else 0) + 1;
        && counters == (if numbered then old(counters)[listing := n] else old(counters))
        && emitted == (if numbered && reached
                       then old(emitted) + [(Room(listing), Wire(RESERVATION_CHANGED, 1, listing, status, n))]
                       else old(emitted))
      ensures Represents(Apply(s, if numbered then Allocate(listing, commit) else GiveUp(listing, commit)))
      ensures numbered ==>
                var t := Apply(s, Allocate(listing, commit));
                Log(t, listing) == Log(s, listing) + [Allocation(commit, Version(s, listing))]
                && Counter(listing) == |Log(t, listing)|
    {
      if numbered {
        var number := (if listing in counters then counters[listing] else 0) + 1;
        counters := counters[listing := number];
        if reached {
          emitted := emitted + [(Room(listing), Wire(RESERVATION_CHANGED, 1, listing, status, number))];
        }
        AllocationNumbers(old(counters), old(emitted), s, listing, commit,
                          Wire(RESERVATION_CHANGED, 1, listing, status, number));
      } else {
        StillRepresents(s, GiveUp(listing, commit));
      }
    }
  }

  datatype SocketMessage = WatchListing(listing: Id) | UnwatchListing(listing: Id)

  /** One mounted subscription. */
  class ListingUpdates {
    const ids: seq<Id>
    var lastSeq: map<Id, int>
    var reports: seq<Report>
    var sent: seq<SocketMessage>

    function AsClient(): Client
      reads this
    {
      Client(ids, lastSeq, reports)
    }

    constructor (ids: seq<Id>)
      ensures this.ids == ids && AsClient() == Client(ids, map[], []) && sent == []
    {
      this.ids := ids;
      lastSeq, reports, sent := map[], [], [];
    }

    method Join()
      modifies this`sent
      ensures sent == old(sent) + seq(|ids|, i requires 0 <= i < |ids| => WatchListing(ids[i]))
    {
      for i := 0 to |ids|
        invariant sent == old(sent) + seq(i, k requires 0 <= k < i => WatchListing(ids[k]))
      {
        sent := sent + [WatchListing(ids[i])];
      }
    }

    method OnChanged(raw: Raw)
      modifies this`lastSeq, this`reports
      ensures AsClient() == Receive(old(AsClient()), Arrives(raw))
    {
      if !IsReservationChanged(raw) || raw.listing !in ids {
        return;
      }
      var seen := raw.listing in lastSeq;
      if seen && raw.number <= lastSeq[raw.listing] {
        return;
      }
      var missed := seen && raw.number > lastSeq[raw.listing] + 1;
      lastSeq := lastSeq[raw.listing := raw.number];
      reports := reports + [Changed(raw.listing, raw.number, missed)];
    }

    /** Rooms do not survive a reconnect: rejoin every one of them, then re-read. */
    method OnConnect()
      modifies this`sent, this`reports
      ensures AsClient() == Receive(old(AsClient()), Connects)
      ensures sent == old(sent) + seq(|ids|, i requires 0 <= i < |ids| => WatchListing(ids[i]))
    {
      Join();
      reports := reports + [Reconnected];
    }

    method Unmount()
      modifies this`sent
      ensures sent == old(sent) + seq(|ids|, i requires 0 <= i < |ids| => UnwatchListing(ids[i]))
    {
      for i := 0 to |ids|
        invariant sent == old(sent) + seq(i, k requires 0 <= k < i => UnwatchListing(ids[k]))
      {
        sent := sent + [UnwatchListing(ids[i])];
      }
    }
  }
}

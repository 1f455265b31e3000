/** Outbox relays: several instances, each pass claiming a batch under SKIP LOCKED, publishing it, and
    marking it, and possibly dying between any two of these. */
module Relay {
  import opened BookingTypes

  const BATCH_SIZE: nat := 100

  // ---------------------------------------------------------------------------------------------
  // The claim: ORDER BY created_at LIMIT 100 over the unpublished rows nobody else has locked

  /** The order of the query; rows of one instant come in table order. */
  predicate Before(rows: seq<OutboxRow>, i: nat, j: nat)
    requires i < |rows| && j < |rows|
  {
    rows[i].createdAt < rows[j].createdAt || (rows[i].createdAt == rows[j].createdAt && i < j)
  }

  predicate IsOldest(rows: seq<OutboxRow>, from: set<nat>, m: nat) {
    m in from && m < |rows| && forall j :: j in from && j < |rows| && j != m ==> Before(rows, m, j)
  }

  lemma {:induction false} OldestExists(rows: seq<OutboxRow>, from: set<nat>)
    requires from != {} && forall i :: i in from ==> i < |rows|
    ensures exists m :: IsOldest(rows, from, m)
  {
    var x :| x in from;
    if from == {x} {
      assert IsOldest(rows, from, x);
    } else {
      assert from - {x} != {};
      OldestExists(rows, from - {x});
      var m :| IsOldest(rows, from - {x}, m);
      var n := if Before(rows, x, m) then x else m;
      forall j | j in from && j < |rows| && j != n ensures Before(rows, n, j) {
        assert j == x || j == m || Before(rows, m, j);
      }
      assert IsOldest(rows, from, n);
    }
  }

  function Oldest(rows: seq<OutboxRow>, from: set<nat>): (m: nat)
    requires from != {} && forall i :: i in from ==> i < |rows|
    ensures IsOldest(rows, from, m)
  {
    OldestExists(rows, from);
    var m :| IsOldest(rows, from, m);
    m
  }

  function TakeOldest(rows: seq<OutboxRow>, from: set<nat>, n: nat): seq<nat>
    requires forall i :: i in from ==> i < |rows|
    decreases n
  {
    if n == 0 || from == {} then [] else [Oldest(rows, from)] + TakeOldest(rows, from - {Oldest(rows, from)}, n - 1)
  }

  function Unpublished(rows: seq<OutboxRow>): set<nat> {
    set i | 0 <= i < |rows| && !rows[i].published
  }

  function Select(rows: seq<OutboxRow>, locked: set<nat>): seq<nat> {
    TakeOldest(rows, Unpublished(rows) - locked, BATCH_SIZE)
  }

  function Elements(batch: seq<nat>): set<nat> {
    set i | i in batch
  }

  predicate Distinct(batch: seq<nat>) {
    forall a, b :: 0 <= a < b < |batch| ==> batch[a] != batch[b]
  }

  lemma {:induction false} BatchElements(rows: seq<OutboxRow>, from: set<nat>, n: nat)
    requires forall i :: i in from ==> i < |rows|
    ensures Distinct(TakeOldest(rows, from, n))
    ensures forall i :: i in TakeOldest(rows, from, n) ==> i in from
    decreases n
  {
    if n != 0 && from != {} {
      var m := Oldest(rows, from);
      BatchElements(rows, from - {m}, n - 1);
      var tail := TakeOldest(rows, from - {m}, n - 1);
      assert TakeOldest(rows, from, n) == [m] + tail;
      assert m !in tail;
    }
  }

  lemma {:induction false} BatchLength(rows: seq<OutboxRow>, from: set<nat>, n: nat)
    requires forall i :: i in from ==> i < |rows|
    ensures |TakeOldest(rows, from, n)| == (if |from| < n then |from| else n)
    decreases n
  {
    if n != 0 && from != {} {
      BatchLength(rows, from - {Oldest(rows, from)}, n - 1);
    }
  }

  lemma {:induction false} DistinctSize(batch: seq<nat>)
    requires Distinct(batch)
    ensures |Elements(batch)| == |batch|
    decreases |batch|
  {
    if batch == [] {
      assert Elements(batch) == {};
    } else {
      var last := |batch| - 1;
      DistinctSize(batch[..last]);
      assert Elements(batch) == Elements(batch[..last]) + {batch[last]};
      assert batch[last] !in Elements(batch[..last]);
    }
  }

  lemma BatchSize(rows: seq<OutboxRow>, from: set<nat>, n: nat)
    requires forall i :: i in from ==> i < |rows|
    ensures var batch := TakeOldest(rows, from, n);
      && Distinct(batch) && Elements(batch) <= from
      && |batch| == |Elements(batch)| == (if |from| < n then |from| else n)
  {
    BatchElements(rows, from, n);
    BatchLength(rows, from, n);
    DistinctSize(TakeOldest(rows, from, n));
  }

  lemma {:induction false} BatchOrder(rows: seq<OutboxRow>, from: set<nat>, n: nat, i: nat, j: nat)
    requires forall k :: k in from ==> k < |rows|
    requires i in TakeOldest(rows, from, n) && j in from && j !in TakeOldest(rows, from, n)
    ensures i < |rows| && j < |rows| && Before(rows, i, j)
    decreases n
  {
    var m, rest := Oldest(rows, from), from - {Oldest(rows, from)};
    var tail := TakeOldest(rows, rest, n - 1);
    assert TakeOldest(rows, from, n) == [m] + tail;
    assert j != m && j !in tail;
    if i != m {
      assert i in tail;
      BatchOrder(rows, rest, n - 1, i, j);
    }
  }

  lemma {:induction false} BatchSorted(rows: seq<OutboxRow>, from: set<nat>, n: nat, a: nat, b: nat)
    requires forall k :: k in from ==> k < |rows|
    requires a < b < |TakeOldest(rows, from, n)|
    ensures var batch := TakeOldest(rows, from, n);
      batch[a] < |rows| && batch[b] < |rows| && Before(rows, batch[a], batch[b])
    decreases n
  {
    var m, rest := Oldest(rows, from), from - {Oldest(rows, from)};
    var tail := TakeOldest(rows, rest, n - 1);
    assert TakeOldest(rows, from, n) == [m] + tail;
    BatchElements(rows, rest, n - 1);
    if a == 0 {
      assert tail[b - 1] in tail;
    } else {
      BatchSorted(rows, rest, n - 1, a - 1, b - 1);
    }
  }

  lemma SelectGoesBefore(rows: seq<OutboxRow>, locked: set<nat>)
    ensures var batch, open := Select(rows, locked), Unpublished(rows) - locked;
      && Distinct(batch) && Elements(batch) <= open
      && |batch| == |Elements(batch)| == (if |open| < BATCH_SIZE then |open| else BATCH_SIZE)
      && forall i, j :: i in Elements(batch) && j in open - Elements(batch) ==>
           i < |rows| && j < |rows| && Before(rows, i, j)
  {
    var batch, open := Select(rows, locked), Unpublished(rows) - locked;
    BatchSize(rows, open, BATCH_SIZE);
    forall i, j | i in Elements(batch) && j in open - Elements(batch)
      ensures i < |rows| && j < |rows| && Before(rows, i, j)
    {
      BatchOrder(rows, open, BATCH_SIZE, i, j);
    }
  }

  /** The rows a claim may take: not published, and locked by nobody else. */
  ghost predicate Waiting(rows: seq<OutboxRow>, locked: set<nat>, i: nat) {
    i < |rows| && !rows[i].published && i !in locked
  }

  /** Whatever is left out finds the batch full, of rows no younger than itself. */
  lemma LeftOut(rows: seq<OutboxRow>, locked: set<nat>, j: nat)
    requires Waiting(rows, locked, j) && j !in Select(rows, locked)
    ensures |Select(rows, locked)| == BATCH_SIZE
    ensures forall i: nat :: i in Select(rows, locked) ==> i < |rows| && rows[i].createdAt <= rows[j].createdAt
  {
    var batch, open := Select(rows, locked), Unpublished(rows) - locked;
    BatchSize(rows, open, BATCH_SIZE);
    LeavesOneOut(Elements(batch), open, j);
    forall i: nat | i in batch ensures i < |rows| && rows[i].createdAt <= rows[j].createdAt {
      BatchOrder(rows, open, BATCH_SIZE, i, j);
    }
  }

  lemma LeavesOneOut(chosen: set<nat>, open: set<nat>, j: nat)
    requires chosen <= open && j in open && j !in chosen
    ensures |chosen| < |open|
  {
    SmallerSet(chosen, open);
  }

  lemma InOrder(rows: seq<OutboxRow>, locked: set<nat>, a: nat, b: nat)
    requires a < b < |Select(rows, locked)|
    ensures var batch := Select(rows, locked);
      batch[a] < |rows| && batch[b] < |rows| && rows[batch[a]].createdAt <= rows[batch[b]].createdAt
  {
    BatchSorted(rows, Unpublished(rows) - locked, BATCH_SIZE, a, b);
  }

  /** A claim takes rows nobody has published or locked, each once and oldest first: a hundred of them, or all
      there are, and none that was committed after one it leaves out. */
  lemma SelectIsOldest(rows: seq<OutboxRow>, locked: set<nat>)
    ensures var batch := Select(rows, locked);
      && Distinct(batch) && |batch| <= 100
      && (forall i: nat :: i in batch ==> Waiting(rows, locked, i))
      && (forall a, b :: 0 <= a < b < |batch| ==>
            batch[a] < |rows| && batch[b] < |rows| && rows[batch[a]].createdAt <= rows[batch[b]].createdAt)
      && (forall j: nat :: Waiting(rows, locked, j) && j !in batch ==>
            |batch| == 100 && forall i: nat :: i in batch ==> i < |rows| && rows[i].createdAt <= rows[j].createdAt)
  {
    var batch := Select(rows, locked);
    SelectedRows(rows, locked);
    forall a, b | 0 <= a < b < |batch|
      ensures batch[a] < |rows| && batch[b] < |rows| && rows[batch[a]].createdAt <= rows[batch[b]].createdAt
    {
      InOrder(rows, locked, a, b);
    }
    forall j: nat | Waiting(rows, locked, j) && j !in batch
      ensures |batch| == 100 && forall i: nat :: i in batch ==> i < |rows| && rows[i].createdAt <= rows[j].createdAt
    {
      LeftOut(rows, locked, j);
    }
  }

  // ---------------------------------------------------------------------------------------------
  // What publishing and marking a batch do to the table

  function Enqueued(rows: seq<OutboxRow>, batch: seq<nat>): seq<OutboxRow> {
    seq(|rows|, i requires 0 <= i < |rows| =>
      if i in batch then rows[i].(enqueues := rows[i].enqueues + 1) else rows[i])
  }

  function Marked(rows: seq<OutboxRow>, batch: seq<nat>): seq<OutboxRow> {
    seq(|rows|, i requires 0 <= i < |rows| => if i in batch then rows[i].(published := true) else rows[i])
  }

  // ---------------------------------------------------------------------------------------------
  // Concurrent relays

  /** One relay's transaction: the rows it has locked, and whether it has published them yet. */
  datatype Batch = Batch(rows: seq<nat>, added: bool)

  /** `lostPasses` counts, for each row, the passes that died after publishing it and before marking it. */
  datatype State = State(rows: seq<OutboxRow>, lostPasses: seq<nat>, held: map<Id, Batch>)

  datatype Step =
    | Arrive(event: BookingHeld, createdAt: Instant)
    | Claim(relay: Id)
    | Add(relay: Id)
    | Mark(relay: Id)
    | Die(relay: Id)

  function Locked(held: map<Id, Batch>): set<nat> {
    set r, i | r in held && i in held[r].rows :: i
  }

  function Release(held: map<Id, Batch>, relay: Id): map<Id, Batch> {
    map r | r in held && r != relay :: held[r]
  }

  function Bump(counts: seq<nat>, batch: seq<nat>): seq<nat> {
    seq(|counts|, i requires 0 <= i < |counts| => if i in batch then counts[i] + 1 else counts[i])
  }

  function Apply(s: State, step: Step): State {
    match step
    case Arrive(event, createdAt) =>
      s.(rows := s.rows + [OutboxRow(event, createdAt, false, 0)], lostPasses := s.lostPasses + [0])
    case Claim(r) =>
      var batch := Select(s.rows, Locked(s.held));
      if r in s.held || batch == [] then s else s.(held := s.held[r := Batch(batch, false)])
    case Add(r) =>
      if r !in s.held || s.held[r].added then s
      else s.(rows := Enqueued(s.rows, s.held[r].rows), held := s.held[r := s.held[r].(added := true)])
    case Mark(r) =>
      if r !in s.held || !s.held[r].added then s
      else s.(rows := Marked(s.rows, s.held[r].rows), held := Release(s.held, r))
    case Die(r) =>
      if r !in s.held then s
      else s.(held := Release(s.held, r),
              lostPasses := if s.held[r].added then Bump(s.lostPasses, s.held[r].rows) else s.lostPasses)
  }

  function Run(steps: seq<Step>): State
    decreases |steps|
  {
    if steps == [] then State([], [], map[]) else Apply(Run(steps[..|steps| - 1]), steps[|steps| - 1])
  }

  /** Some relay has published the row and not yet marked it. */
  ghost predicate InFlight(s: State, i: nat) {
    exists r :: r in s.held && s.held[r].added && i in s.held[r].rows
  }

  ghost predicate BatchOk(s: State, r: Id)
    requires r in s.held
  {
    var batch := s.held[r].rows;
    && Distinct(batch) && 0 < |batch| <= BATCH_SIZE
    && forall i :: i in batch ==> i < |s.rows| && !s.rows[i].published
  }

  ghost predicate Disjoint(s: State) {
    forall a, b, i :: a in s.held && b in s.held && a != b && i in s.held[a].rows ==> i !in s.held[b].rows
  }

  /** A row has been enqueued once if it is published, once if it is just being published, and once for
      every pass that died in between. */
  ghost predicate Accounted(s: State, i: nat)
    requires i < |s.rows| == |s.lostPasses|
  {
    && (InFlight(s, i) ==> !s.rows[i].published)
    && s.rows[i].enqueues == s.lostPasses[i] + (if s.rows[i].published || InFlight(s, i) then 1 else 0)
  }

  ghost predicate Inv(s: State) {
    && |s.rows| == |s.lostPasses|
    && Disjoint(s)
    && (forall r :: r in s.held ==> BatchOk(s, r))
    && (forall i :: 0 <= i < |s.rows| ==> Accounted(s, i))
  }

  lemma ArriveKeeps(s: State, event: BookingHeld, createdAt: Instant)
    requires Inv(s)
    ensures Inv(Apply(s, Arrive(event, createdAt)))
  {
    var t := Apply(s, Arrive(event, createdAt));
    forall r | r in t.held ensures BatchOk(t, r) {
      assert BatchOk(s, r);
    }
    forall i | 0 <= i < |t.rows| ensures Accounted(t, i) {
      assert InFlight(t, i) == InFlight(s, i);
      if i < |s.rows| {
        assert Accounted(s, i);
      } else {
        forall r | r in s.held ensures i !in s.held[r].rows {
          assert BatchOk(s, r);
        }
      }
    }
  }

  lemma ClaimKeeps(s: State, r: Id)
    requires Inv(s)
    ensures Inv(Apply(s, Claim(r)))
  {
    var batch := Select(s.rows, Locked(s.held));
    if r !in s.held && batch != [] {
      SelectedRows(s.rows, Locked(s.held));
      ClaimedBatch(s, s.(held := s.held[r := Batch(batch, false)]), r, batch);
    }
  }

  lemma SelectedRows(rows: seq<OutboxRow>, locked: set<nat>)
    ensures var batch := Select(rows, locked);
      && Distinct(batch) && |batch| <= BATCH_SIZE
      && forall i :: i in batch ==> i < |rows| && !rows[i].published && i !in locked
  {
    var batch := Select(rows, locked);
    BatchSize(rows, Unpublished(rows) - locked, BATCH_SIZE);
    forall i | i in batch ensures i < |rows| && !rows[i].published && i !in locked {
      assert i in Elements(batch);
    }
  }

  lemma ClaimedBatch(s: State, t: State, r: Id, batch: seq<nat>)
    requires Inv(s) && r !in s.held && t == s.(held := s.held[r := Batch(batch, false)])
    requires Distinct(batch) && 0 < |batch| <= BATCH_SIZE
    requires forall i :: i in batch ==> i < |s.rows| && !s.rows[i].published && i !in Locked(s.held)
    ensures Inv(t)
  {
    forall q | q in t.held ensures BatchOk(t, q) {
      assert q != r ==> BatchOk(s, q);
    }
    forall i | 0 <= i < |t.rows| ensures Accounted(t, i) {
      assert Accounted(s, i);
      InFlightElsewhere(s, t, r, i);
    }
  }

  /** Relays other than one hold what they held, so a row that one does not hold is as it was. */
  lemma InFlightElsewhere(s: State, t: State, r: Id, i: nat)
    requires forall q :: q != r ==> (q in t.held <==> q in s.held) && (q in s.held ==> t.held[q] == s.held[q])
    requires r in s.held && s.held[r].added ==> i !in s.held[r].rows
    requires r in t.held && t.held[r].added ==> i !in t.held[r].rows
    ensures InFlight(t, i) == InFlight(s, i)
  {
    if q :| q in s.held && s.held[q].added && i in s.held[q].rows {
      assert q in t.held;
    }
    if q :| q in t.held && t.held[q].added && i in t.held[q].rows {
      assert q in s.held;
    }
  }

  lemma AddKeeps(s: State, r: Id)
    requires Inv(s)
    ensures Inv(Apply(s, Add(r)))
  {
    var t := Apply(s, Add(r));
    if r in s.held && !s.held[r].added {
      forall q | q in t.held ensures BatchOk(t, q) {
        assert BatchOk(s, q);
      }
      forall i | 0 <= i < |t.rows| ensures Accounted(t, i) {
        assert Accounted(s, i);
        if i in s.held[r].rows {
          assert BatchOk(s, r);
          assert InFlight(t, i) by {
            assert r in t.held && t.held[r].added && i in t.held[r].rows;
          }
        } else {
          InFlightElsewhere(s, t, r, i);
        }
      }
    }
  }

  /** Giving up a batch: what the others hold stays disjoint, and the batch's rows are nobody's. */
  lemma ReleaseFrees(s: State, t: State, r: Id, i: nat)
    requires Disjoint(s) && r in s.held && t.held == Release(s.held, r) && i in s.held[r].rows
    ensures !InFlight(t, i)
  {}

  lemma MarkKeeps(s: State, r: Id)
    requires Inv(s)
    ensures Inv(Apply(s, Mark(r)))
  {
    var t := Apply(s, Mark(r));
    if r in s.held && s.held[r].added {
      forall q | q in t.held ensures BatchOk(t, q) {
        assert BatchOk(s, q);
      }
      forall i | 0 <= i < |t.rows| ensures Accounted(t, i) {
        assert Accounted(s, i);
        if i in s.held[r].rows {
          ReleaseFrees(s, t, r, i);
          assert InFlight(s, i);
        } else {
          InFlightElsewhere(s, t, r, i);
        }
      }
    }
  }

  lemma DieKeeps(s: State, r: Id)
    requires Inv(s)
    ensures Inv(Apply(s, Die(r)))
  {
    var t := Apply(s, Die(r));
    if r in s.held {
      forall q | q in t.held ensures BatchOk(t, q) {
        assert BatchOk(s, q);
      }
      forall i | 0 <= i < |t.rows| ensures Accounted(t, i) {
        assert Accounted(s, i);
        if s.held[r].added && i in s.held[r].rows {
          ReleaseFrees(s, t, r, i);
          assert InFlight(s, i);
        } else {
          InFlightElsewhere(s, t, r, i);
        }
      }
    }
  }

  lemma {:induction false} RunKeeps(steps: seq<Step>)
    ensures Inv(Run(steps))
    decreases |steps|
  {
    if steps != [] {
      var before, step := Run(steps[..|steps| - 1]), steps[|steps| - 1];
      RunKeeps(steps[..|steps| - 1]);
      match step
      case Arrive(event, createdAt) => ArriveKeeps(before, event, createdAt);
      case Claim(r) => ClaimKeeps(before, r);
      case Add(r) => AddKeeps(before, r);
      case Mark(r) => MarkKeeps(before, r);
      case Die(r) => DieKeeps(before, r);
    }
  }

  /** Relays never hold the same row, and no batch is larger than the limit. */
  lemma BatchesAreDisjoint(steps: seq<Step>, a: Id, b: Id)
    requires a in Run(steps).held && b in Run(steps).held && a != b
    ensures Elements(Run(steps).held[a].rows) !! Elements(Run(steps).held[b].rows)
    ensures |Run(steps).held[a].rows| <= 100
  {
    RunKeeps(steps);
    assert BatchOk(Run(steps), a);
  }

  /** Every row is enqueued once when it is published, plus once for every pass that died after
      publishing and before marking: never lost, and never repeated without such a death. */
  lemma EnqueueAccounting(steps: seq<Step>, i: nat)
    requires i < |Run(steps).rows|
    ensures i < |Run(steps).lostPasses|
    ensures var s := Run(steps);
      && (s.rows[i].published ==> s.rows[i].enqueues == 1 + s.lostPasses[i])
      && (!s.rows[i].published ==> s.rows[i].enqueues == s.lostPasses[i] + (if InFlight(s, i) then 1 else 0))
  {
    RunKeeps(steps);
    assert Accounted(Run(steps), i);
  }

  // ---------------------------------------------------------------------------------------------
  // Bounded wait, for one relay at a time whose passes succeed

  function Pass(rows: seq<OutboxRow>): seq<OutboxRow> {
    var batch := Select(rows, {});
    Marked(Enqueued(rows, batch), batch)
  }

  /** The unpublished rows that go before a row. */
  function Ahead(rows: seq<OutboxRow>, i: nat): set<nat>
    requires i < |rows|
  {
    set j | 0 <= j < |rows| && !rows[j].published && Before(rows, j, i)
  }

  lemma SmallerSet(a: set<nat>, b: set<nat>)
    requires a <= b
    ensures |a| <= |b| && (|a| == |b| ==> a == b) && |b - a| == |b| - |a|
  {
    assert b == a + (b - a);
  }

  lemma PassRow(rows: seq<OutboxRow>, i: nat)
    requires i < |rows|
    ensures |Pass(rows)| == |rows|
    ensures Pass(rows)[i].published == (rows[i].published || i in Elements(Select(rows, {})))
    ensures Pass(rows)[i].createdAt == rows[i].createdAt
  {}

  lemma AheadAfterPass(rows: seq<OutboxRow>, i: nat)
    requires i < |rows|
    ensures |Pass(rows)| == |rows|
    ensures Ahead(Pass(rows), i) == Ahead(rows, i) - Elements(Select(rows, {}))
  {
    PassRow(rows, i);
    forall j | 0 <= j < |rows| ensures j in Ahead(Pass(rows), i) <==> j in Ahead(rows, i) - Elements(Select(rows, {})) {
      PassRow(rows, j);
    }
  }

  /** A pass publishes a row with fewer than a batch of rows ahead of it, and moves every other
      waiting row up by a whole batch. */
  lemma PassAdvances(rows: seq<OutboxRow>, i: nat)
    requires i < |rows| && !rows[i].published
    ensures |Pass(rows)| == |rows|
    ensures |Ahead(rows, i)| < 100 ==> Pass(rows)[i].published
    ensures |Ahead(rows, i)| >= 100 ==>
      !Pass(rows)[i].published && |Ahead(Pass(rows), i)| == |Ahead(rows, i)| - 100
  {
    PassRow(rows, i);
    AheadAfterPass(rows, i);
    ChosenAgainstAhead(rows, i, Elements(Select(rows, {})));
  }

  lemma ChosenAgainstAhead(rows: seq<OutboxRow>, i: nat, chosen: set<nat>)
    requires i < |rows| && !rows[i].published && chosen == Elements(Select(rows, {}))
    ensures i in chosen ==> |Ahead(rows, i)| < BATCH_SIZE
    ensures i !in chosen ==>
        |Ahead(rows, i)| >= BATCH_SIZE && |Ahead(rows, i) - chosen| == |Ahead(rows, i)| - BATCH_SIZE
  {
    var open, ahead := Unpublished(rows), Ahead(rows, i);
    assert open - {} == open;
    SelectGoesBefore(rows, {});
    if i in chosen {
      AheadWithinChosen(rows, i, open, chosen);
      SmallerSet(ahead, chosen - {i});
    } else {
      ChosenWithinAhead(rows, i, open, chosen);
      SmallerSet(chosen, ahead);
      SmallerSet(chosen, open);
    }
  }

  /** Nothing in the batch goes behind a row that was left out. */
  ghost predicate Downward(rows: seq<OutboxRow>, open: set<nat>, chosen: set<nat>) {
    forall i, j :: i in chosen && j in open - chosen ==> i < |rows| && j < |rows| && Before(rows, i, j)
  }

  lemma AheadWithinChosen(rows: seq<OutboxRow>, i: nat, open: set<nat>, chosen: set<nat>)
    requires i < |rows| && open == Unpublished(rows) && i in chosen && Downward(rows, open, chosen)
    ensures Ahead(rows, i) <= chosen - {i}
  {
    forall j | j in Ahead(rows, i) ensures j in chosen - {i} {
      assert j in chosen || Before(rows, i, j);
    }
  }

  lemma ChosenWithinAhead(rows: seq<OutboxRow>, i: nat, open: set<nat>, chosen: set<nat>)
    requires i < |rows| && open == Unpublished(rows) && chosen <= open && i in open - chosen
        && Downward(rows, open, chosen)
    ensures chosen <= Ahead(rows, i)
  {
    forall j | j in chosen ensures j in Ahead(rows, i) {
      assert Before(rows, j, i);
    }
  }

  /** Rows committed later, stamped no earlier than any row already there. */
  predicate LaterArrivals(rows: seq<OutboxRow>, arrivals: seq<OutboxRow>) {
    forall i, k :: 0 <= i < |rows| && 0 <= k < |arrivals| ==>
      !arrivals[k].published && rows[i].createdAt <= arrivals[k].createdAt
  }

  lemma ArrivalsGoBehind(rows: seq<OutboxRow>, arrivals: seq<OutboxRow>, i: nat)
    requires i < |rows| && LaterArrivals(rows, arrivals)
    ensures Ahead(rows + arrivals, i) == Ahead(rows, i)
  {}

  /** Passes with arrivals before each of them. */
  function Passes(rows: seq<OutboxRow>, arrivals: seq<seq<OutboxRow>>): seq<OutboxRow>
    decreases |arrivals|
  {
    if arrivals == [] then rows else Passes(Pass(rows + arrivals[0]), arrivals[1..])
  }

  ghost predicate ArrivalsInOrder(rows: seq<OutboxRow>, arrivals: seq<seq<OutboxRow>>)
    decreases |arrivals|
  {
    arrivals != [] ==> LaterArrivals(rows, arrivals[0]) && ArrivalsInOrder(Pass(rows + arrivals[0]), arrivals[1..])
  }

  lemma {:induction false} PublishedStays(rows: seq<OutboxRow>, arrivals: seq<seq<OutboxRow>>, i: nat)
    requires i < |rows| && rows[i].published
    ensures i < |Passes(rows, arrivals)| && Passes(rows, arrivals)[i].published
    decreases |arrivals|
  {
    if arrivals != [] {
      PublishedStays(Pass(rows + arrivals[0]), arrivals[1..], i);
    }
  }

  /** However many bookings keep arriving, a row with k older unpublished rows ahead of it is published
      within k / 100 + 1 passes. */
  lemma {:induction false} BoundedWait(rows: seq<OutboxRow>, arrivals: seq<seq<OutboxRow>>, i: nat)
    requires i < |rows| && ArrivalsInOrder(rows, arrivals)
    requires |arrivals| >= |Ahead(rows, i)| / 100 + 1
    ensures i < |Passes(rows, arrivals)| && Passes(rows, arrivals)[i].published
    decreases |arrivals|
  {
    var grown := rows + arrivals[0];
    if grown[i].published {
      PublishedStays(Pass(grown), arrivals[1..], i);
    } else {
      ArrivalsGoBehind(rows, arrivals[0], i);
      PassAdvances(grown, i);
      if Pass(grown)[i].published {
        PublishedStays(Pass(grown), arrivals[1..], i);
      } else {
        BoundedWait(Pass(grown), arrivals[1..], i);
      }
    }
  }

  /** With nothing arriving, each pass drains a full batch until none are left. */
  lemma {:induction false} BacklogDrains(rows: seq<OutboxRow>, passes: nat)
    ensures var n, left := |Unpublished(rows)|, |Unpublished(Passes(rows, seq(passes, _ => [])))|;
      left == (if n <= passes * 100 then 0 else n - passes * 100)
    decreases passes
  {
    if passes > 0 {
      var arrivals: seq<seq<OutboxRow>> := seq(passes, _ => []);
      assert rows + arrivals[0] == rows;
      assert arrivals[1..] == seq(passes - 1, _ => []);
      PassDrains(rows);
      BacklogDrains(Pass(rows), passes - 1);
    }
  }

  lemma PassDrains(rows: seq<OutboxRow>)
    ensures var n := |Unpublished(rows)|;
      |Unpublished(Pass(rows))| == (if n <= BATCH_SIZE then 0 else n - BATCH_SIZE)
  {
    var open, batch := Unpublished(rows), Select(rows, {});
    assert open - {} == open;
    SelectGoesBefore(rows, {});
    forall j | 0 <= j < |rows| ensures Pass(rows)[j].published == (rows[j].published || j in Elements(batch)) {
      PassRow(rows, j);
    }
    assert Unpublished(Pass(rows)) == open - Elements(batch);
    SmallerSet(Elements(batch), open);
  }
}

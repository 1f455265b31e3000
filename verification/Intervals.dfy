/** Half-open stays, the exclusion constraint over them, and what it implies about a listing's time. */
module Intervals {
  import opened BookingTypes

  /** An instant belongs to a stay from check-in, inclusive, to check-out, exclusive. */
  predicate Occupies(r: Reservation, t: Instant) {
    r.checkIn <= t < r.checkOut
  }

  function Max(a: int, b: int): int { if a < b then b else a }
  function Min(a: int, b: int): int { if a < b then a else b }

  /** How long two ranges run together, zero when they do not. */
  function OverlapLength(a: Reservation, b: Reservation): nat {
    Max(0, Min(a.checkOut, b.checkOut) - Max(a.checkIn, b.checkIn))
  }

  /** The `&&` of two `[)` ranges. */
  predicate Overlaps(a: Reservation, b: Reservation) {
    OverlapLength(a, b) > 0
  }

  /** `&&` is true exactly when some instant lies in both ranges; turnover at one instant is not one. */
  lemma OverlapIsSharedInstant(a: Reservation, b: Reservation)
    ensures Overlaps(a, b) <==> exists t: Instant :: Occupies(a, t) && Occupies(b, t)
    ensures a.checkOut == b.checkIn ==> !Overlaps(a, b)
  {
    if Overlaps(a, b) {
      assert Occupies(a, Max(a.checkIn, b.checkIn)) && Occupies(b, Max(a.checkIn, b.checkIn));
    }
  }

  /** Two rows the constraint refuses to hold at once. */
  predicate Conflict(a: Reservation, b: Reservation) {
    && a.listing == b.listing
    && Active(a.status) && Active(b.status)
    && Overlaps(a, b)
  }

  /** `no_overlapping_active_reservations` over the whole table. */
  ghost predicate NoOverlap(rows: seq<Reservation>) {
    forall i, j :: 0 <= i < j < |rows| ==> !Conflict(rows[i], rows[j])
  }

  /** The constraint lets an insert through exactly when no row conflicts with the new one. */
  predicate Admits(rows: seq<Reservation>, r: Reservation) {
    forall i :: 0 <= i < |rows| ==> !Conflict(rows[i], r)
  }

  /** No held or confirmed stay of the listing is still there at check-in and there before check-out. */
  ghost predicate SlotIsFree(rows: seq<Reservation>, listing: Id, checkIn: Instant, checkOut: Instant) {
    forall i :: 0 <= i < |rows| && rows[i].listing == listing && rows[i].status in {HELD, CONFIRMED} ==>
      rows[i].checkOut <= rows[i].checkIn || rows[i].checkOut <= checkIn || checkOut <= rows[i].checkIn
  }

  /** A hold of an ordered stay is let through exactly when its slot is free. */
  lemma HoldsNeedAFreeSlot(rows: seq<Reservation>, r: Reservation)
    requires r.status == HELD && r.checkIn < r.checkOut
    ensures Admits(rows, r) <==> SlotIsFree(rows, r.listing, r.checkIn, r.checkOut)
  {
    forall i | 0 <= i < |rows|
      ensures Conflict(rows[i], r) <==>
        rows[i].listing == r.listing && rows[i].status in {HELD, CONFIRMED}
        && !(rows[i].checkOut <= rows[i].checkIn || rows[i].checkOut <= r.checkIn || r.checkOut <= rows[i].checkIn)
    {}
  }

  lemma AdmittedInsertKeepsNoOverlap(rows: seq<Reservation>, r: Reservation)
    requires NoOverlap(rows)
    ensures Active(r.status) ==> (NoOverlap(rows + [r]) <==> Admits(rows, r))
  {
    var after := rows + [r];
    if NoOverlap(after) {
      forall i | 0 <= i < |rows| ensures !Conflict(rows[i], r) {
        assert !Conflict(after[i], after[|rows|]);
      }
    }
  }

  /** Rows that keep their listing and range, and are active only where they already were. */
  ghost predicate NoRevival(before: seq<Reservation>, after: seq<Reservation>) {
    && |before| == |after|
    && forall i :: 0 <= i < |before| ==>
        && after[i].listing == before[i].listing
        && after[i].checkIn == before[i].checkIn
        && after[i].checkOut == before[i].checkOut
        && (Active(after[i].status) ==> Active(before[i].status))
  }

  lemma NoRevivalKeepsNoOverlap(before: seq<Reservation>, after: seq<Reservation>)
    requires NoOverlap(before) && NoRevival(before, after)
    ensures NoOverlap(after)
  {
    forall i, j | 0 <= i < j < |after| ensures !Conflict(after[i], after[j]) {
      assert !Conflict(before[i], before[j]);
    }
  }

  // ---------------------------------------------------------------------------------------------
  // Capacity: however many active stays a listing has, inside any window they never add up to more
  // time than the window offers.

  predicate Within(lo: Instant, hi: Instant, t: Instant) {
    lo <= t < hi
  }

  function Window(lo: Instant, hi: Instant): set<Instant> {
    set t: Instant | lo <= t < hi && Within(lo, hi, t)
  }

  /** The instants of the window a row blocks on the listing. */
  function Blocked(r: Reservation, listing: Id, lo: Instant, hi: Instant): set<Instant> {
    if r.listing == listing && Active(r.status) then set t: Instant | lo <= t < hi && Occupies(r, t) else {}
  }

  function BlockedByAny(rows: seq<Reservation>, listing: Id, lo: Instant, hi: Instant): set<Instant> {
    if rows == [] then {}
    else BlockedByAny(rows[..|rows| - 1], listing, lo, hi) + Blocked(rows[|rows| - 1], listing, lo, hi)
  }

  /** The time the active rows of a listing take up inside the window, each counted in full. */
  function TimeCovered(rows: seq<Reservation>, listing: Id, lo: Instant, hi: Instant): nat {
    if rows == [] then 0
    else
      var r := rows[|rows| - 1];
      TimeCovered(rows[..|rows| - 1], listing, lo, hi)
      + (if r.listing == listing && Active(r.status)
         then Max(0, Min(r.checkOut, hi) - Max(r.checkIn, lo)) else 0)
  }

  lemma {:induction false} WindowSize(lo: Instant, hi: Instant)
    requires lo <= hi
    ensures |Window(lo, hi)| == hi - lo
    decreases hi - lo
  {
    if lo == hi {
      assert Window(lo, hi) == {};
    } else {
      assert Window(lo, hi) == Window(lo, hi - 1) + {hi - 1};
      WindowSize(lo, hi - 1);
    }
  }

  lemma BlockedSize(r: Reservation, listing: Id, lo: Instant, hi: Instant)
    requires r.listing == listing && Active(r.status)
    ensures |Blocked(r, listing, lo, hi)| == Max(0, Min(r.checkOut, hi) - Max(r.checkIn, lo))
  {
    var a, b := Max(r.checkIn, lo), Min(r.checkOut, hi);
    if a <= b {
      assert Blocked(r, listing, lo, hi) == Window(a, b);
      WindowSize(a, b);
    } else {
      assert Blocked(r, listing, lo, hi) == {};
    }
  }

  lemma {:induction false} BlockedInstantHasRow(
      rows: seq<Reservation>, listing: Id, lo: Instant, hi: Instant, t: Instant)
    requires t in BlockedByAny(rows, listing, lo, hi)
    ensures lo <= t < hi
    ensures exists i :: 0 <= i < |rows| && t in Blocked(rows[i], listing, lo, hi)
  {
    var last := |rows| - 1;
    if t !in Blocked(rows[last], listing, lo, hi) {
      BlockedInstantHasRow(rows[..last], listing, lo, hi, t);
      var i :| 0 <= i < last && t in Blocked(rows[..last][i], listing, lo, hi);
      assert t in Blocked(rows[i], listing, lo, hi);
    }
  }

  lemma BlockedApart(a: Reservation, b: Reservation, listing: Id, lo: Instant, hi: Instant)
    requires !Conflict(a, b)
    ensures Blocked(a, listing, lo, hi) !! Blocked(b, listing, lo, hi)
  {
    OverlapIsSharedInstant(a, b);
  }

  /** Disjointness turns the sum of lengths into the size of one set of instants. */
  lemma {:induction false} CoverageIsUnion(rows: seq<Reservation>, listing: Id, lo: Instant, hi: Instant)
    requires NoOverlap(rows)
    ensures TimeCovered(rows, listing, lo, hi) == |BlockedByAny(rows, listing, lo, hi)|
  {
    if rows != [] {
      var last := |rows| - 1;
      var r, front := rows[last], rows[..last];
      CoverageIsUnion(front, listing, lo, hi);
      var before, mine := BlockedByAny(front, listing, lo, hi), Blocked(r, listing, lo, hi);
      forall t | t in before ensures t !in mine {
        BlockedInstantHasRow(front, listing, lo, hi, t);
        var i :| 0 <= i < last && t in Blocked(front[i], listing, lo, hi);
        BlockedApart(rows[i], r, listing, lo, hi);
      }
      assert before !! mine;
      if r.listing == listing && Active(r.status) {
        BlockedSize(r, listing, lo, hi);
      }
    }
  }

  /** No window of a listing's calendar is ever oversold. */
  lemma Capacity(rows: seq<Reservation>, listing: Id, lo: Instant, hi: Instant)
    requires NoOverlap(rows) && lo <= hi
    ensures TimeCovered(rows, listing, lo, hi) <= hi - lo
  {
    CoverageIsUnion(rows, listing, lo, hi);
    WindowSize(lo, hi);
    var blocked := BlockedByAny(rows, listing, lo, hi);
    forall t | t in blocked ensures t in Window(lo, hi) {
      BlockedInstantHasRow(rows, listing, lo, hi, t);
    }
    SubsetSize(blocked, Window(lo, hi));
  }

  lemma {:induction false} SubsetSize(a: set<Instant>, b: set<Instant>)
    requires a <= b
    ensures |a| <= |b|
  {
    if a != {} {
      var x :| x in a;
      SubsetSize(a - {x}, b - {x});
    }
  }
}

/**
 * The slot grid shared by the three availability calculators: occupied
 * intervals, the half-open overlap test, the "today" cutoff and the forward
 * walk from opening to closing. Times are whole minutes since midnight of
 * the requested date; they are unbounded integers, so a slot that runs past
 * midnight is simply a larger number, as with the source's date arithmetic.
 */
module Slots {
  /** The half-open interval [start, start + duration) an appointment occupies. */
  datatype Busy = Busy(start: int, duration: int)

  /** `[s, s + dur)` and `[b.start, b.start + b.duration)` intersect; touching ends do not. */
  predicate Overlaps(s: int, dur: int, b: Busy)
  {
    s < b.start + b.duration && b.start < s + dur
  }

  /** The slot loop's conflict test, `citas.some(cita => overlap)`. */
  function IsConflicting(s: int, dur: int, busy: seq<Busy>): (r: bool)
    ensures r <==> exists i :: 0 <= i < |busy| && Overlaps(s, dur, busy[i])
  {
    if busy == [] then false
    else Overlaps(s, dur, busy[0]) || IsConflicting(s, dur, busy[1..])
  }

  /** `s` is reached from `start` by whole steps of `step` minutes. */
  predicate OnGrid(s: int, start: int, step: int)
    requires step > 0
    decreases s - start
  {
    if s < start then false
    else if s == start then true
    else OnGrid(s - step, start, step)
  }

  lemma {:induction false} GridShift(s: int, start: int, step: int)
    requires step > 0
    ensures OnGrid(s, start, step) <==> s == start || OnGrid(s, start + step, step)
    decreases s - start
  {
    if s > start + step {
      GridShift(s - step, start, step);
    }
  }

  /** On a grid of step 30, "on the grid" is "a whole number of half hours after `start`". */
  lemma {:induction false} GridOf30(s: int, start: int)
    ensures OnGrid(s, start, 30) <==> start <= s && (s - start) % 30 == 0
    decreases s - start
  {
    if s > start {
      GridOf30(s - 30, start);
    }
  }

  /** Every point of the hourly grid is a point of the half-hour grid from the same start. */
  lemma {:induction false} HourGridInHalfHourGrid(s: int, start: int)
    ensures OnGrid(s, start, 60) ==> OnGrid(s, start, 30)
    decreases s - start
  {
    if s > start && OnGrid(s, start, 60) {
      HourGridInHalfHourGrid(s - 60, start);
      assert OnGrid(s - 30, start, 30);
    }
  }

  /**
   * Where the "today" cutoff leaves the cursor: `open` advanced by whole
   * steps until it is no longer before `now`. It is the first grid point at
   * or after `now`, or `open` itself when that is already not before `now`.
   */
  function CutoffStart(open: int, now: int, step: int): (c: int)
    requires step > 0
    ensures c >= now && c >= open && OnGrid(c, open, step)
    ensures c == open || c - step < now
    decreases now - open
  {
    if open < now then
      GridShift(CutoffStart(open + step, now, step), open, step);
      CutoffStart(open + step, now, step)
    else open
  }

  /** The "today" loop `while (isBefore(current, now)) current = addMinutes(current, 30)`. */
  method AdvancePastNow(open: int, now: int) returns (current: int)
    ensures current == CutoffStart(open, now, 30)
  {
    current := open;
    while current < now
      invariant CutoffStart(current, now, 30) == CutoffStart(open, now, 30)
      decreases now - current
    {
      current := current + 30;
    }
  }

  /** A start time a walk from `start` offers: on the grid, ending by `close`, free of conflicts. */
  predicate Offered(s: int, start: int, close: int, dur: int, step: int, busy: seq<Busy>)
    requires step > 0
  {
    OnGrid(s, start, step) && s + dur <= close && !IsConflicting(s, dur, busy)
  }

  /**
   * The slot walk: candidates `current, current + step, ...` while
   * `candidate + dur <= close`; a candidate is kept unless it conflicts.
   */
  function Walk(current: int, close: int, dur: int, step: int, busy: seq<Busy>): seq<int>
    requires step > 0
    decreases close - dur - current
  {
    if current + dur <= close then
      (if IsConflicting(current, dur, busy) then [] else [current])
      + Walk(current + step, close, dur, step, busy)
    else []
  }

  /** Strictly ascending, hence also free of repeats. */
  predicate Ascending(r: seq<int>)
  {
    forall i, j :: 0 <= i < j < |r| ==> r[i] < r[j]
  }

  /** The walk offers exactly the offered start times: it is sound and complete. */
  lemma {:induction false} WalkMembers(s: int, current: int, close: int, dur: int, step: int, busy: seq<Busy>)
    requires step > 0
    ensures s in Walk(current, close, dur, step, busy) <==> Offered(s, current, close, dur, step, busy)
    decreases close - dur - current
  {
    GridShift(s, current, step);
    if current + dur <= close {
      WalkMembers(s, current + step, close, dur, step, busy);
    } else if OnGrid(s, current, step) {
      assert s >= current;
    }
  }

  /** The walk lists its slots in ascending order, all at or after where it started. */
  lemma {:induction false} WalkAscending(current: int, close: int, dur: int, step: int, busy: seq<Busy>)
    requires step > 0
    ensures Ascending(Walk(current, close, dur, step, busy))
    ensures forall s :: s in Walk(current, close, dur, step, busy) ==> s >= current
    decreases close - dur - current
  {
    if current + dur <= close {
      var rest := Walk(current + step, close, dur, step, busy);
      WalkAscending(current + step, close, dur, step, busy);
      if !IsConflicting(current, dur, busy) {
        var r := [current] + rest;
        assert Walk(current, close, dur, step, busy) == r;
        forall i, j | 0 <= i < j < |r| ensures r[i] < r[j] {
          if i == 0 {
            assert r[j] == rest[j - 1] && rest[j - 1] in rest;
          } else {
            assert r[i] == rest[i - 1] && r[j] == rest[j - 1];
          }
        }
      }
    }
  }

  /** Two ascending lists with the same members are the same list. */
  lemma {:induction false} AscendingUnique(a: seq<int>, b: seq<int>)
    requires Ascending(a) && Ascending(b)
    requires forall s :: s in a <==> s in b
    ensures a == b
  {
    if a != [] {
      assert a[0] in a;
    }
    if b != [] {
      assert b[0] in b;
    }
    if a != [] && b != [] {
      assert a[0] == b[0] by {
        assert a[0] in a && b[0] in b;
        var i :| 0 <= i < |a| && a[i] == b[0];
        var j :| 0 <= j < |b| && b[j] == a[0];
      }
      forall s ensures s in a[1..] <==> s in b[1..] {
        if s in a[1..] {
          var i :| 1 <= i < |a| && a[i] == s;
          assert s in a && s in b;
          var j :| 0 <= j < |b| && b[j] == s;
          assert j != 0;
          assert b[1..][j - 1] == s;
        }
        if s in b[1..] {
          var j :| 1 <= j < |b| && b[j] == s;
          assert s in b && s in a;
          var i :| 0 <= i < |a| && a[i] == s;
          assert i != 0;
          assert a[1..][i - 1] == s;
        }
      }
      AscendingUnique(a[1..], b[1..]);
      assert a == [a[0]] + a[1..] && b == [b[0]] + b[1..];
    }
  }

  /**
   * The walk is the one ascending list of the offered start times: any
   * list with those two properties is the walk's result.
   */
  lemma WalkIsUnique(r: seq<int>, start: int, close: int, dur: int, step: int, busy: seq<Busy>)
    requires step > 0
    requires Ascending(r)
    requires forall s :: s in r <==> Offered(s, start, close, dur, step, busy)
    ensures r == Walk(start, close, dur, step, busy)
  {
    WalkAscending(start, close, dur, step, busy);
    forall s ensures s in r <==> s in Walk(start, close, dur, step, busy) {
      WalkMembers(s, start, close, dur, step, busy);
    }
    AscendingUnique(r, Walk(start, close, dur, step, busy));
  }

  /** The slot loop: walks the grid and pushes every candidate that does not conflict. */
  method CollectSlots(start: int, close: int, dur: int, step: int, busy: seq<Busy>) returns (slots: seq<int>)
    requires step > 0
    ensures slots == Walk(start, close, dur, step, busy)
    ensures Ascending(slots)
    ensures forall s :: s in slots <==> Offered(s, start, close, dur, step, busy)
  {
    slots := [];
    var current := start;
    while current + dur <= close
      invariant slots + Walk(current, close, dur, step, busy) == Walk(start, close, dur, step, busy)
      decreases close - dur - current
    {
      if !IsConflicting(current, dur, busy) {
        slots := slots + [current];
      }
      current := current + step;
    }
    WalkAscending(start, close, dur, step, busy);
    forall s ensures s in slots <==> Offered(s, start, close, dur, step, busy) {
      WalkMembers(s, start, close, dur, step, busy);
    }
  }

  /** A candidate that starts inside a booked interval of positive length is never offered. */
  lemma BookedStartIsNotOffered(s: int, start: int, close: int, dur: int, step: int, busy: seq<Busy>, b: Busy)
    requires step > 0 && dur > 0
    requires b in busy && b.start <= s < b.start + b.duration
    ensures !Offered(s, start, close, dur, step, busy)
  {
    var i :| 0 <= i < |busy| && busy[i] == b;
    assert Overlaps(s, dur, busy[i]);
  }
}

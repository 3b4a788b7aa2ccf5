/**
 * Distance between two supply curves (lower_bound_index and ks_test of
 * powersimdata/design/generation/cost_curves.py).
 */
module StepDistance {
  import opened Reals
  import opened MeritOrder

  datatype KsError = EmptyCurve | CapacityMismatch | BadIndex

  ghost predicate IsLowerBound(q: real, capacity: seq<real>, i: nat) {
    && i + 1 < |capacity|
    && q < capacity[i + 1]
    && forall j :: 0 <= j <= i ==> capacity[j] <= q
  }

  /** Index of the last entry before the first one above `q`; None when there is no such pair. */
  function LowerBound(q: real, capacity: seq<real>): (r: Option<nat>)
    ensures r.Some? ==> IsLowerBound(q, capacity, r.value)
    ensures r.None? ==> capacity == [] || capacity[0] > q || forall j :: 0 <= j < |capacity| ==> capacity[j] <= q
  {
    if |capacity| < 2 || capacity[0] > q then None
    else if capacity[1] > q then Some(0)
    else
      match LowerBound(q, capacity[1..])
      case None => assert forall j :: 1 <= j < |capacity| ==> capacity[j] == capacity[1..][j - 1]; None
      case Some(i) => assert forall j :: 1 <= j <= i + 2 ==> capacity[j] == capacity[1..][j - 1]; Some(i + 1)
  }

  /** The bound is unique, so finding any such index is finding the result. */
  lemma {:induction false} LowerBoundIsUnique(q: real, capacity: seq<real>, i: nat)
    requires IsLowerBound(q, capacity, i)
    ensures LowerBound(q, capacity) == Some(i)
  {
    if i > 0 {
      assert capacity[0] <= q && capacity[1] <= q;
      LowerBoundIsUnique(q, capacity[1..], i - 1);
    }
  }

  method LowerBoundIndex(q: real, capacity: seq<real>) returns (r: Option<nat>)
    ensures r == LowerBound(q, capacity)
    ensures r.Some? <==> exists i :: IsLowerBound(q, capacity, i)
  {
    if capacity == [] || capacity[0] > q {
      return None;
    }
    for i := 0 to |capacity|
      invariant forall j :: 0 <= j < i ==> capacity[j] <= q
    {
      if capacity[i] > q {
        LowerBoundIsUnique(q, capacity, i - 1);
        return Some(i - 1);
      }
    }
    return None;
  }

  /** Price of a curve at capacity `q`; None where the source would index with None or out of range. */
  function PriceAt(c: StepCurve, q: real): Option<real> {
    if c.capacity == [] || c.price == [] then None
    else if q == c.capacity[|c.capacity| - 1] then Some(c.price[|c.price| - 1])
    else match LowerBound(q, c.capacity)
      case None => None
      case Some(i) => if i < |c.price| then Some(c.price[i]) else None
  }

  function MaxIn(xs: seq<real>): (m: real)
    requires xs != []
    ensures m in xs && forall i :: 0 <= i < |xs| ==> xs[i] <= m
  {
    if |xs| == 1 then xs[0]
    else
      assert forall i :: 1 <= i < |xs| ==> xs[i] == xs[1..][i - 1];
      Max(xs[0], MaxIn(xs[1..]))
  }

  /** Inserts `x` into an ascending list unless it is there already. */
  function InsertDistinct(x: real, xs: seq<real>): (r: seq<real>)
    ensures r != [] && forall y :: y in r <==> y == x || y in xs
  {
    if xs == [] then [x]
    else if x == xs[0] then xs
    else if x < xs[0] then [x] + xs
    else
      assert xs == [xs[0]] + xs[1..];
      [xs[0]] + InsertDistinct(x, xs[1..])
  }

  /** `sorted(set(xs))` */
  function SortedSet(xs: seq<real>): (r: seq<real>)
    ensures forall y :: y in r <==> y in xs
    ensures xs != [] ==> r != []
  {
    if xs == [] then [] else InsertDistinct(xs[0], SortedSet(xs[1..]))
  }

  predicate Priced(c: StepCurve, points: seq<real>) {
    forall i :: 0 <= i < |points| ==> PriceAt(c, points[i]).Some?
  }

  function GapAt(c1: StepCurve, c2: StepCurve, q: real): real
    requires PriceAt(c1, q).Some? && PriceAt(c2, q).Some?
  {
    Abs(PriceAt(c1, q).value - PriceAt(c2, q).value)
  }

  function Gaps(c1: StepCurve, c2: StepCurve, points: seq<real>): (r: seq<real>)
    requires Priced(c1, points) && Priced(c2, points)
    ensures |r| == |points| && forall i :: 0 <= i < |points| ==> r[i] == GapAt(c1, c2, points[i])
  {
    seq(|points|, i requires 0 <= i < |points| => GapAt(c1, c2, points[i]))
  }

  /** The largest price difference over the breakpoints of either curve. */
  function KsDistance(c1: StepCurve, c2: StepCurve): Result<real, KsError> {
    if c1.capacity == [] || c2.capacity == [] then Err(EmptyCurve)
    else if MaxIn(c1.capacity) != MaxIn(c2.capacity) then Err(CapacityMismatch)
    else
      var points := SortedSet(c1.capacity + c2.capacity);
      if Priced(c1, points) && Priced(c2, points) then Ok(MaxIn(Gaps(c1, c2, points))) else Err(BadIndex)
  }

  /** The price lookup inside the loop: the last price at full capacity, else the price below. */
  method PriceOn(c: StepCurve, q: real) returns (r: Option<real>)
    ensures r == PriceAt(c, q)
    ensures c.capacity != [] && c.price != [] && q == c.capacity[|c.capacity| - 1] ==>
      r == Some(c.price[|c.price| - 1])
    ensures c.capacity != [] && q != c.capacity[|c.capacity| - 1] ==>
      forall i: nat :: IsLowerBound(q, c.capacity, i) && i < |c.price| ==> r == Some(c.price[i])
  {
    forall i: nat | IsLowerBound(q, c.capacity, i)
      ensures LowerBound(q, c.capacity) == Some(i)
    {
      LowerBoundIsUnique(q, c.capacity, i);
    }
    if c.capacity == [] || c.price == [] {
      return None;
    }
    if q == c.capacity[|c.capacity| - 1] {
      return Some(c.price[|c.price| - 1]);
    }
    var i := LowerBoundIndex(q, c.capacity);
    return if i.None? || i.value >= |c.price| then None else Some(c.price[i.value]);
  }

  /** The largest difference over the sorted breakpoints is the largest over the breakpoints of either curve. */
  lemma EveryBreakpoint(c1: StepCurve, c2: StepCurve, all: seq<real>, gaps: seq<real>)
    requires all != [] && (forall q :: q in all <==> q in c1.capacity + c2.capacity)
    requires Priced(c1, all) && Priced(c2, all) && gaps == Gaps(c1, c2, all)
    ensures forall q :: q in c1.capacity || q in c2.capacity ==>
      PriceAt(c1, q).Some? && PriceAt(c2, q).Some? && GapAt(c1, c2, q) <= MaxIn(gaps)
    ensures exists q :: && (q in c1.capacity || q in c2.capacity) && PriceAt(c1, q).Some? && PriceAt(c2, q).Some?
                        && GapAt(c1, c2, q) == MaxIn(gaps)
  {
    hide PriceAt;
    forall q | q in c1.capacity || q in c2.capacity
      ensures PriceAt(c1, q).Some? && PriceAt(c2, q).Some? && GapAt(c1, c2, q) <= MaxIn(gaps)
    {
      assert q in all;
      var i :| 0 <= i < |all| && all[i] == q;
      assert gaps[i] <= MaxIn(gaps);
    }
    var i :| 0 <= i < |gaps| && gaps[i] == MaxIn(gaps);
    assert all[i] in all;
  }

  method KsTest(c1: StepCurve, c2: StepCurve) returns (r: Result<real, KsError>)
    ensures r == KsDistance(c1, c2)
    ensures r.Ok? <==> && c1.capacity != [] && c2.capacity != [] && MaxIn(c1.capacity) == MaxIn(c2.capacity)
                       && forall q :: q in c1.capacity || q in c2.capacity ==>
                            PriceAt(c1, q).Some? && PriceAt(c2, q).Some?
    ensures r.Ok? ==> && (forall q :: q in c1.capacity || q in c2.capacity ==> GapAt(c1, c2, q) <= r.value)
                      && (exists q :: (q in c1.capacity || q in c2.capacity) && GapAt(c1, c2, q) == r.value)
  {
    if c1.capacity == [] || c2.capacity == [] {
      return Err(EmptyCurve);
    }
    if MaxIn(c1.capacity) != MaxIn(c2.capacity) {
      return Err(CapacityMismatch);
    }
    var all := SortedSet(c1.capacity + c2.capacity);
    var differences: seq<real> := [];
    for i := 0 to |all|
      invariant |differences| == i
      invariant forall k :: 0 <= k < i ==>
        PriceAt(c1, all[k]).Some? && PriceAt(c2, all[k]).Some? && differences[k] == GapAt(c1, c2, all[k])
    {
      var f1 := PriceOn(c1, all[i]);
      var f2 := PriceOn(c2, all[i]);
      if f1.None? || f2.None? {
        assert all[i] in all;
        return Err(BadIndex);
      }
      differences := differences + [Abs(f1.value - f2.value)];
    }
    assert differences == Gaps(c1, c2, all);
    EveryBreakpoint(c1, c2, all, differences);
    return Ok(MaxIn(differences));
  }

  /** Starts at zero, capacities never fall, one price per capacity. */
  ghost predicate WellFormed(c: StepCurve) {
    && |c.capacity| == |c.price| > 0
    && c.capacity[0] == 0.0
    && forall i, j :: 0 <= i < j < |c.capacity| ==> c.capacity[i] <= c.capacity[j]
  }

  function Total(c: StepCurve): real
    requires c.capacity != []
  {
    c.capacity[|c.capacity| - 1]
  }

  /** Inside its range a well-formed curve always has a price: no lookup ever fails. */
  lemma PriceExists(c: StepCurve, q: real)
    requires WellFormed(c) && 0.0 <= q <= Total(c)
    ensures PriceAt(c, q).Some?
  {
  }

  /** A curve is constant from a capacity `b` up to `q` when none of its breakpoints lies in (b, q]. */
  lemma ConstantBetween(c: StepCurve, b: real, q: real)
    requires WellFormed(c) && 0.0 <= b <= q < Total(c)
    requires forall x :: x in c.capacity && x <= q ==> x <= b
    ensures PriceAt(c, q) == PriceAt(c, b)
  {
    PriceExists(c, q);
    var i := LowerBound(q, c.capacity).value;
    forall j | 0 <= j <= i
      ensures c.capacity[j] <= b
    {
      assert c.capacity[j] in c.capacity;
    }
    LowerBoundIsUnique(b, c.capacity, i);
  }

  /** The largest entry not above `q`. */
  lemma {:induction false} LastUpTo(xs: seq<real>, q: real) returns (b: real)
    requires exists x :: x in xs && x <= q
    ensures b in xs && b <= q && forall x :: x in xs && x <= q ==> x <= b
  {
    var x :| x in xs && x <= q;
    assert xs == [xs[0]] + xs[1..];
    if exists y :: y in xs[1..] && y <= q {
      b := LastUpTo(xs[1..], q);
      if b < xs[0] <= q {
        b := xs[0];
      }
    } else {
      b := xs[0];
    }
  }

  lemma MaxIsTotal(c: StepCurve)
    requires WellFormed(c)
    ensures MaxIn(c.capacity) == Total(c)
  {
  }

  /** `m` is the largest price difference over the whole continuum of capacities. */
  ghost predicate IsSupremum(c1: StepCurve, c2: StepCurve, m: real)
    requires WellFormed(c1) && WellFormed(c2)
  {
    && (forall q :: 0.0 <= q <= Min(Total(c1), Total(c2)) ==>
          PriceAt(c1, q).Some? && PriceAt(c2, q).Some? && GapAt(c1, c2, q) <= m)
    && (exists q :: 0.0 <= q <= Min(Total(c1), Total(c2)) &&
          PriceAt(c1, q).Some? && PriceAt(c2, q).Some? && GapAt(c1, c2, q) == m)
  }

  lemma InRange(c: StepCurve, x: real)
    requires WellFormed(c)
    ensures x in c.capacity ==> 0.0 <= x <= Total(c)
  {
  }

  lemma BreakpointsPriced(c1: StepCurve, c2: StepCurve, points: seq<real>)
    requires WellFormed(c1) && WellFormed(c2) && Total(c1) == Total(c2)
    requires forall x :: x in points <==> x in c1.capacity + c2.capacity
    ensures Priced(c1, points) && Priced(c2, points)
    ensures forall i :: 0 <= i < |points| ==> 0.0 <= points[i] <= Total(c1)
  {
    forall i | 0 <= i < |points|
      ensures 0.0 <= points[i] <= Total(c1) && PriceAt(c1, points[i]).Some? && PriceAt(c2, points[i]).Some?
    {
      assert points[i] in points;
      InRange(c1, points[i]);
      InRange(c2, points[i]);
      PriceExists(c1, points[i]);
      PriceExists(c2, points[i]);
    }
  }

  /** Every capacity shares its price difference with some breakpoint. */
  lemma NearestBreakpoint(c1: StepCurve, c2: StepCurve, points: seq<real>, q: real) returns (i: nat)
    requires WellFormed(c1) && WellFormed(c2) && Total(c1) == Total(c2)
    requires forall x :: x in points <==> x in c1.capacity + c2.capacity
    requires 0.0 <= q <= Total(c1)
    ensures i < |points| && PriceAt(c1, points[i]) == PriceAt(c1, q) && PriceAt(c2, points[i]) == PriceAt(c2, q)
  {
    var b := q;
    if q == Total(c1) {
      assert q in c1.capacity;
    } else {
      assert c1.capacity[0] in points;
      b := LastUpTo(points, q);
      forall x | x in c1.capacity || x in c2.capacity
        ensures x in points
      {
        assert x in c1.capacity + c2.capacity;
      }
      ConstantBetween(c1, b, q);
      ConstantBetween(c2, b, q);
    }
    assert b in points;
    i :| 0 <= i < |points| && points[i] == b;
  }

  /**
   * On well-formed curves the test succeeds exactly when the totals agree, and then its maximum
   * over finitely many breakpoints is the supremum over every capacity.
   */
  lemma KsIsSupremum(c1: StepCurve, c2: StepCurve)
    requires WellFormed(c1) && WellFormed(c2)
    ensures KsDistance(c1, c2).Ok? <==> Total(c1) == Total(c2)
    ensures Total(c1) == Total(c2) ==> IsSupremum(c1, c2, KsDistance(c1, c2).value)
  {
    MaxIsTotal(c1);
    MaxIsTotal(c2);
    if Total(c1) == Total(c2) {
      var points := SortedSet(c1.capacity + c2.capacity);
      BreakpointsPriced(c1, c2, points);
      var gaps := Gaps(c1, c2, points);
      var m := MaxIn(gaps);
      forall q | 0.0 <= q <= Total(c1)
        ensures PriceAt(c1, q).Some? && PriceAt(c2, q).Some? && GapAt(c1, c2, q) <= m
      {
        PriceExists(c1, q);
        PriceExists(c2, q);
        var i := NearestBreakpoint(c1, c2, points, q);
        assert gaps[i] <= m;
      }
      var i :| 0 <= i < |gaps| && gaps[i] == m;
      assert 0.0 <= points[i] <= Total(c1);
    }
  }

  /** A curve is at distance zero from itself, and the distance is symmetric. */
  lemma KsIsSymmetric(c1: StepCurve, c2: StepCurve)
    requires WellFormed(c1) && WellFormed(c2) && Total(c1) == Total(c2)
    ensures KsDistance(c1, c2) == KsDistance(c2, c1)
    ensures KsDistance(c1, c1) == Ok(0.0)
  {
    KsIsSupremum(c1, c2);
    KsIsSupremum(c2, c1);
    KsIsSupremum(c1, c1);
    hide PriceAt, KsDistance, WellFormed;
    var a, b, z := KsDistance(c1, c2).value, KsDistance(c2, c1).value, KsDistance(c1, c1).value;
    var q :| 0.0 <= q <= Min(Total(c1), Total(c2)) &&
             PriceAt(c1, q).Some? && PriceAt(c2, q).Some? && GapAt(c1, c2, q) == a;
    assert GapAt(c2, c1, q) <= b;
    var p :| 0.0 <= p <= Min(Total(c2), Total(c1)) &&
             PriceAt(c2, p).Some? && PriceAt(c1, p).Some? && GapAt(c2, c1, p) == b;
    assert GapAt(c1, c2, p) <= a;
  }

  /** Triangle inequality, across three unrelated sets of breakpoints. */
  lemma KsTriangle(c1: StepCurve, c2: StepCurve, c3: StepCurve)
    requires WellFormed(c1) && WellFormed(c2) && WellFormed(c3) && Total(c1) == Total(c2) == Total(c3)
    ensures KsDistance(c1, c2).Ok? && KsDistance(c2, c3).Ok? && KsDistance(c1, c3).Ok?
    ensures KsDistance(c1, c3).value <= KsDistance(c1, c2).value + KsDistance(c2, c3).value
  {
    KsIsSupremum(c1, c2);
    KsIsSupremum(c2, c3);
    KsIsSupremum(c1, c3);
    hide PriceAt, KsDistance, WellFormed;
    var m := KsDistance(c1, c3).value;
    var q :| 0.0 <= q <= Min(Total(c1), Total(c3)) &&
             PriceAt(c1, q).Some? && PriceAt(c3, q).Some? && GapAt(c1, c3, q) == m;
    assert GapAt(c1, c2, q) <= KsDistance(c1, c2).value;
    assert GapAt(c2, c3, q) <= KsDistance(c2, c3).value;
  }
}

/**
 * How the price read off a supply curve depends on the units: not on the order of equal
 * slopes, and only through the ratio of capacities when a thermal fleet is scaled.
 */
module PriceScaling {
  import opened Reals
  import opened GridModel
  import opened LinearCost
  import opened MeritOrder
  import opened SupplyCurve
  import opened EconomicDispatch
  import opened StepDistance

  /** Every curve built from a nonempty fleet is a valid argument of the curve comparison. */
  lemma BuiltCurvesAreWellFormed(units: seq<Unit>, n: nat, sorted: seq<Segment>)
    requires n > 0 && units != [] && Fleet(units) && IsSorting(Stacked(units, n, n), sorted)
    ensures WellFormed(CurveFrom(sorted, 0.0)) && Total(CurveFrom(sorted, 0.0)) == SumBy(units, Range)
  {
    hide SumBy, Stacked;
    SupplyCurveConserves(units, n, sorted);
    StackingOrder(units, n);
    FleetTelescopes(units, n);
    SortingKeepsWidths(ByUnit(units, n), sorted);
    CapacityShape(sorted, 0.0);
  }

  /** Slope of the segment that holds the x-th megawatt. */
  function SlopeAt(segs: seq<Segment>, x: real): real
    requires segs != []
  {
    if x < segs[0].width || |segs| == 1 then segs[0].slope else SlopeAt(segs[1..], x - segs[0].width)
  }

  /** Some index brackets `q` on the curve, and the price there is `price`. */
  ghost predicate ReadsPrice(c: StepCurve, q: real, price: real) {
    exists i: nat :: IsLowerBound(q, c.capacity, i) && i < |c.price| && c.price[i] == price
  }

  /** A price found behind the first segment is found on the whole curve. */
  lemma LaterPrice(segs: seq<Segment>, start: real, q: real, price: real)
    requires |segs| > 1 && 0.0 <= segs[0].width && start + segs[0].width <= q
    requires ReadsPrice(CurveFrom(segs[1..], start + segs[0].width), q, price)
    ensures ReadsPrice(CurveFrom(segs, start), q, price)
  {
    var s := segs[0];
    var c, r := CurveFrom(segs, start), CurveFrom(segs[1..], start + s.width);
    assert c.capacity == [start, s.width + start] + r.capacity;
    assert c.price == [s.slope, s.slope] + r.price;
    var i: nat :| IsLowerBound(q, r.capacity, i) && i < |r.price| && r.price[i] == price;
    var k: nat := i + 2;
    assert c.capacity[k + 1] == r.capacity[i + 1] && c.price[k] == r.price[i];
    forall j | 0 <= j <= k
      ensures c.capacity[j] <= q
    {
      assert j >= 2 ==> c.capacity[j] == r.capacity[j - 2];
    }
    assert IsLowerBound(q, c.capacity, k) && c.price[k] == price;
  }

  lemma {:induction false} PriceIsSlope(segs: seq<Segment>, start: real, q: real)
    requires segs != [] && Widths(segs) && start <= q < start + SumBy(segs, Width)
    ensures ReadsPrice(CurveFrom(segs, start), q, SlopeAt(segs, q - start))
  {
    hide SumBy;
    var s, tail := segs[0], segs[1..];
    SumBySplit(segs, Width);
    SumByNil(Width);
    if q < start + s.width {
      assert IsLowerBound(q, CurveFrom(segs, start).capacity, 0);
    } else {
      PriceIsSlope(tail, start + s.width, q);
      assert q - (start + s.width) == q - start - s.width;
      LaterPrice(segs, start, q, SlopeAt(segs, q - start));
    }
  }

  lemma {:induction false} LastPoint(segs: seq<Segment>, start: real)
    requires segs != []
    ensures var c := CurveFrom(segs, start); c.price[|c.price| - 1] == segs[|segs| - 1].slope
  {
    if |segs| > 1 {
      LastPoint(segs[1..], start + segs[0].width);
    }
  }

  /** The price anywhere on a curve, in terms of its segments. */
  lemma CurvePrice(segs: seq<Segment>, q: real)
    requires segs != [] && Widths(segs) && 0.0 <= q <= SumBy(segs, Width)
    ensures PriceAt(CurveFrom(segs, 0.0), q) ==
      Some(if q == SumBy(segs, Width) then segs[|segs| - 1].slope else SlopeAt(segs, q))
  {
    hide SumBy, CurveFrom, SlopeAt;
    var c := CurveFrom(segs, 0.0);
    CapacityShape(segs, 0.0);
    LastPoint(segs, 0.0);
    if q < SumBy(segs, Width) {
      PriceIsSlope(segs, 0.0, q);
      var i: nat :| IsLowerBound(q, c.capacity, i) && i < |c.price| && c.price[i] == SlopeAt(segs, q);
      LowerBoundIsUnique(q, c.capacity, i);
    }
  }

  function Below(p: real): Segment -> real { (s: Segment) => if s.slope < p then s.width else 0.0 }

  function UpTo(p: real): Segment -> real { (s: Segment) => if s.slope <= p then s.width else 0.0 }

  lemma {:induction false} NoneBelow(segs: seq<Segment>, p: real)
    requires forall s :: s in segs ==> p <= s.slope
    ensures SumBy(segs, Below(p)) == 0.0
  {
    if segs != [] {
      NoneBelow(segs[1..], p);
    }
  }

  lemma {:induction false} SomeUpTo(segs: seq<Segment>, p: real)
    requires Widths(segs)
    ensures SumBy(segs, UpTo(p)) >= 0.0
  {
    if segs != [] {
      SomeUpTo(segs[1..], p);
    }
  }

  /** The capacity offered strictly below the price at x is at most x; the capacity up to it exceeds x. */
  lemma {:induction false} SlopeBrackets(segs: seq<Segment>, x: real)
    requires segs != [] && SortedBySlope(segs) && Widths(segs) && 0.0 <= x < SumBy(segs, Width)
    ensures SumBy(segs, Below(SlopeAt(segs, x))) <= x < SumBy(segs, UpTo(SlopeAt(segs, x)))
    ensures segs[0].slope <= SlopeAt(segs, x)
  {
    hide SumBy;
    var s, tail, p := segs[0], segs[1..], SlopeAt(segs, x);
    SumBySplit(segs, Width);
    SumBySplit(segs, Below(p));
    SumBySplit(segs, UpTo(p));
    SumByNil(Width);
    if x < s.width {
      NoneBelow(tail, p);
      SomeUpTo(tail, p);
    } else {
      SlopeBrackets(tail, x - s.width);
    }
  }

  function StretchOne(s: Segment, f: real): Segment { Segment(s.width * f, s.slope) }

  /** Scaling the widths of all segments by f. */
  function Stretch(segs: seq<Segment>, f: real): (r: seq<Segment>)
    ensures |r| == |segs| && forall i :: 0 <= i < |r| ==> r[i] == StretchOne(segs[i], f)
  {
    seq(|segs|, i requires 0 <= i < |segs| => StretchOne(segs[i], f))
  }

  lemma Distribute(x: real, y: real, f: real)
    ensures (x + y) * f == x * f + y * f
  {
  }

  lemma {:induction false} StretchSum(segs: seq<Segment>, f: real, g: Segment -> real)
    requires forall s :: s in segs ==> g(StretchOne(s, f)) == g(s) * f
    ensures SumBy(Stretch(segs, f), g) == SumBy(segs, g) * f
  {
    hide StretchOne;
    if segs != [] {
      assert Stretch(segs, f)[1..] == Stretch(segs[1..], f);
      assert segs[0] in segs;
      StretchSum(segs[1..], f, g);
      Distribute(g(segs[0]), SumBy(segs[1..], g), f);
    }
  }

  lemma SortedIsNonEmpty(s: seq<Segment>, t: seq<Segment>)
    requires multiset(s) == multiset(t)
    ensures |s| == |t|
  {
    assert |s| == |multiset(s)| && |t| == |multiset(t)|;
  }

  lemma ScaleRange(q: real, total: real, f: real)
    requires f > 0.0 && 0.0 <= q <= total
    ensures 0.0 <= q * f <= total * f
    ensures q == total <==> q * f == total * f
  {
  }

  lemma StretchWidths(segs: seq<Segment>, f: real)
    requires f > 0.0 && Widths(segs)
    ensures Widths(Stretch(segs, f)) && SumBy(Stretch(segs, f), Width) == SumBy(segs, Width) * f
  {
    hide SumBy, Stretch;
    StretchSum(segs, f, Width);
    var r := Stretch(segs, f);
    forall i | 0 <= i < |r|
      ensures r[i].width >= 0.0
    {
      assert segs[i] in segs;
      assert segs[i].width * f >= 0.0;
    }
  }

  lemma SameTop(segs: seq<Segment>, f: real, t: seq<Segment>, t': seq<Segment>)
    requires segs != [] && IsSorting(segs, t) && IsSorting(Stretch(segs, f), t') && |t| == |t'| == |segs|
    ensures t[|t| - 1].slope == t'[|t'| - 1].slope
  {
    var segs', a, b := Stretch(segs, f), t[|t| - 1], t'[|t'| - 1];
    assert a in multiset(t) && b in multiset(t');
    var i :| 0 <= i < |segs| && segs[i] == a;
    assert segs'[i] in multiset(segs');
    var j :| 0 <= j < |t'| && t'[j] == segs'[i];
    var k :| 0 <= k < |segs'| && segs'[k] == b;
    assert segs[k] in multiset(segs);
    var l :| 0 <= l < |t| && t[l] == segs[k];
  }

  lemma Cancel(a: real, q: real, b: real, f: real)
    requires f > 0.0 && a * f <= q * f < b * f
    ensures a <= q < b
  {
  }

  lemma OneBracket(segs: seq<Segment>, p: real, p': real, q: real)
    requires Widths(segs)
    requires q < SumBy(segs, UpTo(p)) && SumBy(segs, Below(p')) <= q
    ensures p' <= p
  {
    if p < p' {
      SumByMonotone(segs, UpTo(p), Below(p'));
    }
  }

  lemma SameInside(segs: seq<Segment>, f: real, t: seq<Segment>, t': seq<Segment>, q: real)
    requires f > 0.0 && Widths(segs) && segs != [] && t != [] && t' != []
    requires IsSorting(segs, t) && IsSorting(Stretch(segs, f), t')
    requires 0.0 <= q < SumBy(segs, Width)
    ensures SlopeAt(t', q * f) == SlopeAt(t, q)
  {
    hide SumBy, SlopeAt;
    var segs' := Stretch(segs, f);
    SortingKeepsWidths(segs, t);
    StretchWidths(segs, f);
    SortingKeepsWidths(segs', t');
    ScaleRange(q, SumBy(segs, Width), f);
    SlopeBrackets(t, q);
    SlopeBrackets(t', q * f);
    var p, p' := SlopeAt(t, q), SlopeAt(t', q * f);
    SumByPermutation(segs, t, Below(p));
    SumByPermutation(segs, t, UpTo(p));
    SumByPermutation(segs', t', Below(p'));
    SumByPermutation(segs', t', UpTo(p'));
    StretchSum(segs, f, Below(p'));
    StretchSum(segs, f, UpTo(p'));
    Cancel(SumBy(segs, Below(p')), q, SumBy(segs, UpTo(p')), f);
    OneBracket(segs, p, p', q);
    OneBracket(segs, p', p, q);
  }

  /**
   * The price at f q on any curve over the stretched segments is the price at q on any
   * curve over the original ones. With f = 1 this says that ties do not matter.
   */
  lemma StretchedPrice(segs: seq<Segment>, f: real, t: seq<Segment>, t': seq<Segment>, q: real)
    requires f > 0.0 && Widths(segs) && segs != []
    requires IsSorting(segs, t) && IsSorting(Stretch(segs, f), t')
    requires 0.0 <= q <= SumBy(segs, Width)
    ensures PriceAt(CurveFrom(t', 0.0), q * f) == PriceAt(CurveFrom(t, 0.0), q)
    ensures PriceAt(CurveFrom(t, 0.0), q).Some?
  {
    hide SumBy, CurveFrom, PriceAt, SlopeAt, Stretch, StretchOne, SortedBySlope;
    var segs', total := Stretch(segs, f), SumBy(segs, Width);
    SortedIsNonEmpty(segs, t);
    SortedIsNonEmpty(segs', t');
    SortingKeepsWidths(segs, t);
    StretchWidths(segs, f);
    SortingKeepsWidths(segs', t');
    ScaleRange(q, total, f);
    CurvePrice(t, q);
    CurvePrice(t', q * f);
    if q == total {
      SameTop(segs, f, t, t');
    } else {
      SameInside(segs, f, t, t', q);
    }
  }

  /** What scaling capacity by f does to a thermal unit. */
  function ScaleUnit(u: Unit, f: real): Unit
    requires f != 0.0
  {
    Unit(u.plant.(pmin := u.plant.pmin * f, pmax := u.plant.pmax * f),
         u.cost.(c0 := u.cost.c0 * f, c2 := u.cost.c2 / f))
  }

  /** Producing f p costs f times as much: C'(f p) = f C(p). */
  lemma CostIsHomogeneous(u: Unit, f: real, p: real)
    requires f != 0.0
    ensures Quadratic(ScaleUnit(u, f).cost, p * f) == Quadratic(u.cost, p) * f
  {
    var c := u.cost;
    assert (c.c2 / f) * (p * f) * (p * f) == c.c2 * p * p * f by {
      assert (c.c2 / f) * f == c.c2;
      assert (c.c2 / f) * (p * f) * (p * f) == ((c.c2 / f) * f) * p * p * f;
    }
    assert c.c1 * (p * f) == c.c1 * p * f;
  }

  lemma PowerScales(low: real, rise: real, rise': real, f: real, p: real, p': real)
    requires p == low + rise && p' == low * f + rise' && rise' == rise * f
    ensures p' == p * f
  {
  }

  lemma StepScales(low: real, high: real, f: real, n: real, step: real, step': real)
    requires n > 0.0 && step == (high - low) / n && step' == (high * f - low * f) / n
    ensures step' == step * f
  {
  }

  lemma ThreeFactors(x: real, f: real, y: real, xf: real)
    requires xf == x * f
    ensures xf * y == x * y * f
  {
  }

  lemma PointsScale(u: Unit, f: real, n: nat, i: nat)
    requires f != 0.0 && n > 0
    ensures PointAt(ScaleUnit(u, f), n, i) == Point(PointAt(u, n, i).p * f, PointAt(u, n, i).f * f)
  {
    hide Quadratic;
    var v := ScaleUnit(u, f);
    var step, step', ri := PowerStep(u, n), PowerStep(v, n), i as real;
    StepScales(u.plant.pmin, u.plant.pmax, f, n as real, step, step');
    assert step' * ri == step * ri * f by {
      ThreeFactors(step, f, ri, step');
    }
    var p, p' := PointAt(u, n, i).p, PointAt(v, n, i).p;
    PowerScales(u.plant.pmin, step * ri, step' * ri, f, p, p');
    CostIsHomogeneous(u, f, p);
  }

  lemma PieceScales(a: Point, b: Point, f: real)
    requires f != 0.0 && a.p != b.p
    ensures var a', b' := Point(a.p * f, a.f * f), Point(b.p * f, b.f * f);
      && a'.p != b'.p
      && Segment(b'.p - a'.p, Slope(a', b')) == StretchOne(Segment(b.p - a.p, Slope(a, b)), f)
  {
  }

  lemma ScaledSegment(u: Unit, f: real, n: nat, i: nat)
    requires f > 0.0 && i < n && Capable(u) && Capable(ScaleUnit(u, f))
    ensures Segments(ScaleUnit(u, f), n)[i] == StretchOne(Segments(u, n)[i], f)
  {
    hide PointAt, ScaleUnit, Segments;
    UnitSegment(u, n, i);
    UnitSegment(ScaleUnit(u, f), n, i);
    PointsScale(u, f, n, i);
    PointsScale(u, f, n, i + 1);
    PieceScales(PointAt(u, n, i), PointAt(u, n, i + 1), f);
  }

  lemma CapableScales(u: Unit, f: real)
    requires f > 0.0 && Capable(u)
    ensures Capable(ScaleUnit(u, f))
  {
  }

  lemma ScaledSegments(u: Unit, f: real, n: nat)
    requires f > 0.0 && n > 0 && Capable(u)
    ensures Capable(ScaleUnit(u, f))
    ensures Segments(ScaleUnit(u, f), n) == Stretch(Segments(u, n), f)
  {
    CapableScales(u, f);
    var v := ScaleUnit(u, f);
    forall i | 0 <= i < n
      ensures Segments(v, n)[i] == StretchOne(Segments(u, n)[i], f)
    {
      ScaledSegment(u, f, n, i);
    }
  }

  function ScaleFleet(units: seq<Unit>, f: real): (r: seq<Unit>)
    requires f != 0.0
    ensures |r| == |units| && forall g :: 0 <= g < |r| ==> r[g] == ScaleUnit(units[g], f)
  {
    seq(|units|, g requires 0 <= g < |units| => ScaleUnit(units[g], f))
  }

  lemma {:induction false} ScaledStack(units: seq<Unit>, f: real, n: nat, k: nat)
    requires f > 0.0 && 0 < n && k <= n && Fleet(units)
    ensures Fleet(ScaleFleet(units, f))
    ensures Stacked(ScaleFleet(units, f), n, k) == Stretch(Stacked(units, n, k), f)
  {
    hide Segments, Column, StretchOne, ScaleUnit;
    var scaled := ScaleFleet(units, f);
    forall g | 0 <= g < |units|
      ensures Capable(scaled[g]) && Segments(scaled[g], n) == Stretch(Segments(units[g], n), f)
    {
      ScaledSegments(units[g], f, n);
    }
    if k > 0 {
      ScaledStack(units, f, n, k - 1);
      assert Column(scaled, n, k - 1) == Stretch(Column(units, n, k - 1), f);
    }
  }

  /**
   * Scaling homogeneity: after scaling a thermal fleet's capacity by f > 0, the price at f q
   * is the old price at q, for every q, number of segments and order of equal slopes.
   */
  lemma ScalingIsHomogeneous(units: seq<Unit>, f: real, n: nat, t: seq<Segment>, t': seq<Segment>, q: real)
    requires f > 0.0 && n > 0 && units != [] && Fleet(units)
    requires Fleet(ScaleFleet(units, f))
    requires IsSorting(Stacked(units, n, n), t) && IsSorting(Stacked(ScaleFleet(units, f), n, n), t')
    requires 0.0 <= q <= SumBy(units, Range)
    ensures PriceAt(CurveFrom(t', 0.0), q * f) == PriceAt(CurveFrom(t, 0.0), q)
    ensures PriceAt(CurveFrom(t, 0.0), q).Some?
  {
    hide SumBy, Stacked, CurveFrom, PriceAt, SortedBySlope;
    ScaledStack(units, f, n, n);
    StackingOrder(units, n);
    FleetTelescopes(units, n);
    var stack, rows := Stacked(units, n, n), ByUnit(units, n);
    SumByPermutation(rows, stack, Width);
    SortingKeepsWidths(rows, stack);
    SortedIsNonEmpty(stack, rows);
    StretchedPrice(stack, f, t, t', q);
  }
}

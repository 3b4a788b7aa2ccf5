/**
 * What a supply curve means for the units behind it: it conserves capacity and cost
 * whatever the number of segments and the sort, and the area under it is the least
 * linearized cost at which the fleet can produce each amount.
 */
module EconomicDispatch {
  import opened Reals
  import opened GridModel
  import opened LinearCost
  import opened MeritOrder
  import opened SupplyCurve

  ghost predicate Fleet(units: seq<Unit>) {
    forall g :: 0 <= g < |units| ==> Capable(units[g])
  }

  ghost predicate Convex(units: seq<Unit>) {
    forall g :: 0 <= g < |units| ==> units[g].cost.c2 >= 0.0
  }

  /** The same segments, stacked unit by unit. */
  ghost function ByUnit(units: seq<Unit>, n: nat): seq<Segment>
    requires n > 0 && Fleet(units)
  {
    if units == [] then [] else Segments(units[0], n) + ByUnit(units[1..], n)
  }

  lemma StackedUnfold(units: seq<Unit>, n: nat, k: nat)
    requires 0 < n && k <= n && Fleet(units)
    ensures k == 0 ==> Stacked(units, n, k) == []
    ensures k > 0 ==>
      multiset(Stacked(units, n, k)) == multiset(Stacked(units, n, k - 1)) + multiset(Column(units, n, k - 1))
  {
  }

  lemma ColumnTail(units: seq<Unit>, n: nat, i: nat)
    requires i < n && units != [] && Fleet(units)
    ensures multiset(Column(units, n, i)) == multiset{Segments(units[0], n)[i]} + multiset(Column(units[1..], n, i))
  {
    hide Segments, Column;
    assert Column(units, n, i) == [Segments(units[0], n)[i]] + Column(units[1..], n, i);
  }

  lemma {:induction false} StackedTail(units: seq<Unit>, n: nat, k: nat)
    requires 0 < n && k <= n && units != [] && Fleet(units)
    ensures multiset(Stacked(units, n, k)) == multiset(Segments(units[0], n)[..k]) + multiset(Stacked(units[1..], n, k))
  {
    hide Segments, Column, Stacked;
    StackedUnfold(units, n, k);
    StackedUnfold(units[1..], n, k);
    if k > 0 {
      StackedTail(units, n, k - 1);
      ColumnTail(units, n, k - 1);
      var first := Segments(units[0], n);
      assert first[..k] == first[..k - 1] + [first[k - 1]];
      assert multiset(first[..k]) == multiset(first[..k - 1]) + multiset{first[k - 1]};
    }
  }

  lemma {:induction false} EmptyStack(n: nat, k: nat)
    requires 0 < n && k <= n
    ensures Stacked([], n, k) == []
  {
    if k > 0 {
      EmptyStack(n, k - 1);
    }
  }

  lemma {:induction false} StackingOrder(units: seq<Unit>, n: nat)
    requires n > 0 && Fleet(units)
    ensures multiset(Stacked(units, n, n)) == multiset(ByUnit(units, n))
  {
    hide Segments, Stacked;
    if units == [] {
      EmptyStack(n, n);
    } else {
      StackedTail(units, n, n);
      StackingOrder(units[1..], n);
      var first := Segments(units[0], n);
      assert first[..n] == first;
      assert multiset(first + ByUnit(units[1..], n)) == multiset(first) + multiset(ByUnit(units[1..], n));
    }
  }

  function Range(u: Unit): real { u.plant.pmax - u.plant.pmin }

  function CostRange(u: Unit): real { Quadratic(u.cost, u.plant.pmax) - Quadratic(u.cost, u.plant.pmin) }

  lemma PieceCost(a: Point, b: Point)
    requires a.p != b.p
    ensures FullCost(Segment(b.p - a.p, Slope(a, b))) == b.f - a.f
  {
  }

  /** Widths and full costs of consecutive pieces telescope. */
  lemma {:induction false} Telescope(points: seq<Point>)
    requires Increasing(points) && points != [] && Apart(points)
    ensures var last := points[|points| - 1];
      && SumBy(SegmentsOf(points), Width) == last.p - points[0].p
      && SumBy(SegmentsOf(points), FullCost) == last.f - points[0].f
    ensures Widths(SegmentsOf(points))
  {
    hide Slope, SumBy, FullCost;
    if |points| >= 2 {
      var a, b, rest := points[0], points[1], SegmentsOf(points[1..]);
      Telescope(points[1..]);
      assert SegmentsOf(points) == [Segment(b.p - a.p, Slope(a, b))] + rest;
      assert SegmentsOf(points)[1..] == rest;
      SumBySplit(SegmentsOf(points), Width);
      SumBySplit(SegmentsOf(points), FullCost);
      PieceCost(a, b);
    } else {
      SumByNil(Width);
      SumByNil(FullCost);
    }
  }

  lemma UnitTelescopes(u: Unit, n: nat)
    requires n > 0 && Capable(u)
    ensures SumBy(Segments(u, n), Width) == Range(u)
    ensures SumBy(Segments(u, n), FullCost) == CostRange(u)
    ensures Widths(Segments(u, n))
  {
    hide Quadratic, PowerStep;
    PointsIncrease(u, n);
    EndPoints(u, n);
    BreakpointsApart(u, n);
    Telescope(Points(u, n, n + 1));
  }

  lemma {:induction false} FleetTelescopes(units: seq<Unit>, n: nat)
    requires n > 0 && Fleet(units)
    ensures SumBy(ByUnit(units, n), Width) == SumBy(units, Range)
    ensures SumBy(ByUnit(units, n), FullCost) == SumBy(units, CostRange)
    ensures Widths(ByUnit(units, n))
  {
    if units != [] {
      FleetTelescopes(units[1..], n);
      UnitTelescopes(units[0], n);
      SumByConcat(Segments(units[0], n), ByUnit(units[1..], n), Width);
      SumByConcat(Segments(units[0], n), ByUnit(units[1..], n), FullCost);
    }
  }

  ghost predicate NonDecreasing(xs: seq<real>) {
    forall i, j :: 0 <= i < j < |xs| ==> xs[i] <= xs[j]
  }

  lemma PrependTwice(x: real, y: real, xs: seq<real>)
    requires x <= y && NonDecreasing(xs) && (xs != [] ==> y <= xs[0])
    ensures NonDecreasing([x, y] + xs)
  {
  }

  /** Capacities never fall, start at `start` and end at the total width. */
  lemma {:induction false} CapacityShape(segs: seq<Segment>, start: real)
    requires Widths(segs)
    ensures var c := CurveFrom(segs, start).capacity;
      NonDecreasing(c) && (segs != [] ==> c[0] == start && c[|c| - 1] == start + SumBy(segs, Width))
  {
    if segs != [] {
      var s, tail := segs[0], segs[1..];
      CapacityShape(tail, start + s.width);
      PrependTwice(start, s.width + start, CurveFrom(tail, start + s.width).capacity);
      assert tail == [] ==> SumBy(tail, Width) == 0.0;
    }
  }

  lemma {:induction false} PriceShape(segs: seq<Segment>, start: real)
    requires SortedBySlope(segs)
    ensures NonDecreasing(CurveFrom(segs, start).price)
    ensures segs != [] ==> CurveFrom(segs, start).price[0] == segs[0].slope
  {
    if segs != [] {
      PriceShape(segs[1..], start + segs[0].width);
      PrependTwice(segs[0].slope, segs[0].slope, CurveFrom(segs[1..], start + segs[0].width).price);
    }
  }

  /**
   * Conservation: for every number of segments and every order of equal slopes, the curve
   * is monotone, its capacity is the fleet's adjustable range, and its area is the fleet's
   * quadratic cost difference between Pmax and Pmin.
   */
  lemma SupplyCurveConserves(units: seq<Unit>, n: nat, sorted: seq<Segment>)
    requires n > 0 && units != [] && Fleet(units)
    requires IsSorting(Stacked(units, n, n), sorted)
    ensures var c := CurveFrom(sorted, 0.0);
      && c.capacity != []
      && NonDecreasing(c.capacity)
      && NonDecreasing(c.price)
      && c.capacity[|c.capacity| - 1] == SumBy(units, Range)
      && AreaUnder(c, SumBy(units, Range)) == SumBy(units, CostRange)
  {
    hide SumBy, AreaUnder, Segments, Stacked, Cost, Fill, CurveFrom;
    var rows := ByUnit(units, n);
    StackingOrder(units, n);
    FleetTelescopes(units, n);
    SortingKeepsWidths(rows, sorted);
    SumByPermutation(rows, sorted, FullCost);
    assert |sorted| == |rows| by {
      assert |rows| == |multiset(rows)| && |sorted| == |multiset(sorted)|;
    }
    CapacityShape(sorted, 0.0);
    PriceShape(sorted, 0.0);
    AreaIsFillCost(sorted, 0.0, SumBy(units, Range));
    FillEverything(sorted, SumBy(units, Range));
  }

  lemma ChordRise(a: Point, b: Point, x: real)
    requires a.p < b.p && 0.0 <= x <= b.p - a.p
    ensures ChordAt(a, b, a.p + x) - a.f == Pay(Segment(b.p - a.p, Slope(a, b)), Clamp(x, b.p - a.p))
  {
  }

  lemma ChordWhole(a: Point, b: Point, x: real)
    requires a.p < b.p && b.p - a.p <= x
    ensures b.f - a.f == Pay(Segment(b.p - a.p, Slope(a, b)), Clamp(x, b.p - a.p))
  {
  }

  lemma InterpolateSplits(points: seq<Point>, p: real)
    requires |points| >= 2 && Increasing(points)
    ensures |points| == 2 || p <= points[1].p ==>
      Interpolate(points, p) == ChordAt(points[0], points[1], p)
    ensures |points| > 2 && points[1].p < p ==> Interpolate(points, p) == Interpolate(points[1..], p)
  {
  }

  /** Climbing a unit's piecewise-linear cost is filling its segments in order. */
  lemma {:induction false} ClimbIsFill(points: seq<Point>, x: real)
    requires |points| >= 2 && Increasing(points) && Apart(points)
    requires 0.0 <= x <= points[|points| - 1].p - points[0].p
    ensures Interpolate(points, points[0].p + x) - points[0].f == Cost(SegmentsOf(points), Fill(SegmentsOf(points), x))
  {
    hide ChordAt, Slope, Cost, Fill, Interpolate, Pay;
    var segs := SegmentsOf(points);
    var a, b, w := points[0], points[1], points[1].p - points[0].p;
    assert segs[1..] == SegmentsOf(points[1..]);
    FillSplits(segs, x);
    InterpolateSplits(points, a.p + x);
    if x <= w {
      ChordRise(a, b, x);
      Telescope(points[1..]);
      FillNothing(segs[1..], x - w);
    } else {
      ChordWhole(a, b, x);
      assert a.p + x == b.p + (x - w);
      ClimbIsFill(points[1..], x - w);
    }
  }

  /** Linearized cost of raising unit `u` by `x` above its minimum. */
  ghost function Climb(u: Unit, n: nat, x: real): real
    requires n > 0 && Capable(u)
  {
    LinearCostAt(u, n, u.plant.pmin + x) - LinearCostAt(u, n, u.plant.pmin)
  }

  lemma ClimbCost(u: Unit, n: nat, x: real)
    requires n > 0 && Capable(u) && 0.0 <= x <= Range(u)
    ensures Climb(u, n, x) == Cost(Segments(u, n), Fill(Segments(u, n), x))
  {
    hide Quadratic, PowerStep;
    var points := Points(u, n, n + 1);
    PointsIncrease(u, n);
    BreakpointsApart(u, n);
    EndPoints(u, n);
    ClimbIsFill(points, x);
    TouchesAtBreakpoints(u, n, 0);
  }

  lemma SlopeOrder(c: GenCost, x: real, y: real)
    requires c.c2 >= 0.0 && x <= y
    ensures c.c2 * x + c.c1 <= c.c2 * y + c.c1
  {
  }

  lemma UnitSlope(u: Unit, n: nat, i: nat)
    requires i < n && Capable(u)
    ensures Segments(u, n)[i].slope == u.cost.c2 * (PointAt(u, n, i).p + PointAt(u, n, i + 1).p) + u.cost.c1
  {
    hide Quadratic, PowerStep, ChordAt;
    BreakpointsApart(u, n);
    SegmentAt(Points(u, n, n + 1), i);
    ChordGap(u.cost, PointAt(u, n, i).p, PointAt(u, n, i + 1).p, 0.0);
  }

  lemma SlopeGrows(u: Unit, n: nat, i: nat, j: nat)
    requires i < j < n && Capable(u) && u.cost.c2 >= 0.0
    ensures Segments(u, n)[i].slope <= Segments(u, n)[j].slope
  {
    hide Segments, PointAt;
    UnitSlope(u, n, i);
    UnitSlope(u, n, j);
    PointsOrdered(u, n, i, j);
    PointsOrdered(u, n, i + 1, j + 1);
    SlopeOrder(u.cost, PointAt(u, n, i).p + PointAt(u, n, i + 1).p, PointAt(u, n, j).p + PointAt(u, n, j + 1).p);
  }

  lemma SegmentsAreSorted(u: Unit, n: nat)
    requires n > 0 && Capable(u) && u.cost.c2 >= 0.0
    ensures SortedBySlope(Segments(u, n))
  {
    forall i, j | 0 <= i < j < n
      ensures Segments(u, n)[i].slope <= Segments(u, n)[j].slope
    {
      SlopeGrows(u, n, i, j);
    }
  }

  /** Each unit raised by between nothing and its range, `q` in total. */
  ghost predicate Dispatch(units: seq<Unit>, xs: seq<real>, q: real) {
    && |xs| == |units|
    && (forall g :: 0 <= g < |xs| ==> 0.0 <= xs[g] <= Range(units[g]))
    && Sum(xs) == q
  }

  ghost function FleetCost(units: seq<Unit>, n: nat, xs: seq<real>): real
    requires n > 0 && Fleet(units) && |xs| == |units|
  {
    if units == [] then 0.0 else Climb(units[0], n, xs[0]) + FleetCost(units[1..], n, xs[1..])
  }

  lemma {:induction false} CostConcat(s: seq<Segment>, t: seq<Segment>, d: seq<real>, e: seq<real>)
    requires |s| == |d| && |t| == |e|
    ensures Cost(s + t, d + e) == Cost(s, d) + Cost(t, e)
  {
    hide Pay;
    if s == [] {
      assert s + t == t && d + e == e;
    } else {
      assert (s + t)[1..] == s[1..] + t && (d + e)[1..] == d[1..] + e;
      CostConcat(s[1..], t, d[1..], e);
    }
  }

  /** A dispatch of the fleet is a draw from its segments at the same cost. */
  lemma {:induction false} DispatchDraws(units: seq<Unit>, n: nat, xs: seq<real>, q: real) returns (d: seq<real>)
    requires n > 0 && Fleet(units) && Dispatch(units, xs, q)
    ensures Draw(ByUnit(units, n), d, q) && Cost(ByUnit(units, n), d) == FleetCost(units, n, xs)
  {
    if units == [] {
      d := [];
    } else {
      var u, x := units[0], xs[0];
      var rest := DispatchDraws(units[1..], n, xs[1..], q - x);
      UnitTelescopes(u, n);
      FillDraws(Segments(u, n), x);
      ClimbCost(u, n, x);
      d := Fill(Segments(u, n), x) + rest;
      SumConcat(Fill(Segments(u, n), x), rest);
      CostConcat(Segments(u, n), ByUnit(units[1..], n), Fill(Segments(u, n), x), rest);
    }
  }

  lemma CostNil()
    ensures Cost([], []) == 0.0
  {
  }

  lemma SplitDraw(s: seq<Segment>, t: seq<Segment>, d: seq<real>, q: real) returns (mine: seq<real>, x: real)
    requires Draw(s + t, d, q)
    ensures mine == d[..|s|] && x == Sum(mine)
    ensures Draw(s, mine, x) && Draw(t, d[|s|..], q - x)
    ensures Cost(s + t, d) == Cost(s, mine) + Cost(t, d[|s|..])
  {
    hide Cost, Sum;
    mine, x := d[..|s|], Sum(d[..|s|]);
    var rest := d[|s|..];
    assert d == mine + rest;
    SumConcat(mine, rest);
    CostConcat(s, t, mine, rest);
    forall i | 0 <= i < |s|
      ensures 0.0 <= mine[i] <= s[i].width
    {
      assert (s + t)[i] == s[i] && mine[i] == d[i];
    }
    forall i | 0 <= i < |t|
      ensures 0.0 <= rest[i] <= t[i].width
    {
      assert (s + t)[|s| + i] == t[i] && rest[i] == d[|s| + i];
    }
  }

  lemma {:induction false} DrawWithin(segs: seq<Segment>, d: seq<real>, q: real)
    requires Draw(segs, d, q)
    ensures 0.0 <= q <= SumBy(segs, Width)
  {
    if segs != [] {
      DrawTail(segs, d, q);
      DrawWithin(segs[1..], d[1..], q - d[0]);
    }
  }

  lemma UnitDraw(u: Unit, n: nat, d: seq<real>, x: real)
    requires n > 0 && Capable(u) && u.cost.c2 >= 0.0 && Draw(Segments(u, n), d, x)
    ensures 0.0 <= x <= Range(u) && Climb(u, n, x) <= Cost(Segments(u, n), d)
  {
    hide Segments, Cost, Fill, Climb, AreaUnder, CurveFrom, SumBy, Range;
    var segs := Segments(u, n);
    UnitTelescopes(u, n);
    DrawWithin(segs, d, x);
    SegmentsAreSorted(u, n);
    MeritOrderIsOptimal(segs, segs, x);
    AreaIsFillCost(segs, 0.0, x);
    ClimbCost(u, n, x);
  }

  /** Adding up a draw unit by unit gives a dispatch that costs no more (the costs being convex). */
  lemma {:induction false} DrawDispatches(units: seq<Unit>, n: nat, d: seq<real>, q: real) returns (xs: seq<real>)
    requires n > 0 && Fleet(units) && Convex(units)
    requires Draw(ByUnit(units, n), d, q)
    ensures Dispatch(units, xs, q) && FleetCost(units, n, xs) <= Cost(ByUnit(units, n), d)
  {
    hide Segments, Cost, Climb;
    if units == [] {
      CostNil();
      xs := [];
    } else {
      var u, others := units[0], ByUnit(units[1..], n);
      var mine, x := SplitDraw(Segments(u, n), others, d, q);
      var tail := DrawDispatches(units[1..], n, d[n..], q - x);
      UnitDraw(u, n, mine, x);
      xs := [x] + tail;
      assert xs[1..] == tail;
    }
  }

  /**
   * The supply curve solves economic dispatch: for convex costs the area under it up to q is the
   * least total linearized cost of raising the fleet by q MW, and some dispatch attains it.
   */
  lemma SupplyCurveIsEconomicDispatch(units: seq<Unit>, n: nat, sorted: seq<Segment>, q: real)
    requires n > 0 && Fleet(units) && Convex(units)
    requires IsSorting(Stacked(units, n, n), sorted) && 0.0 <= q <= SumBy(units, Range)
    ensures forall xs :: Dispatch(units, xs, q) ==> AreaUnder(CurveFrom(sorted, 0.0), q) <= FleetCost(units, n, xs)
    ensures exists xs :: Dispatch(units, xs, q) && AreaUnder(CurveFrom(sorted, 0.0), q) == FleetCost(units, n, xs)
  {
    hide Cost, AreaUnder, FleetCost, CurveFrom, SumBy;
    var rows := ByUnit(units, n);
    StackingOrder(units, n);
    FleetTelescopes(units, n);
    MeritOrderIsOptimal(rows, sorted, q);
    forall xs | Dispatch(units, xs, q)
      ensures AreaUnder(CurveFrom(sorted, 0.0), q) <= FleetCost(units, n, xs)
    {
      var d := DispatchDraws(units, n, xs, q);
    }
    var d :| Draw(rows, d, q) && Cost(rows, d) == AreaUnder(CurveFrom(sorted, 0.0), q);
    var xs := DrawDispatches(units, n, d, q);
  }
}

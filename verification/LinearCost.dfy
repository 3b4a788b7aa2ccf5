/**
 * Piecewise-linear approximation of quadratic generator costs
 * (powersimdata/input/configure.py).
 */
module LinearCost {
  import opened Reals
  import opened GridModel

  datatype Point = Point(p: real, f: real)

  /** A linearized cost row: breakpoints for dispatchable units, one price otherwise. */
  datatype Curve = Piecewise(points: seq<Point>) | Fixed(price: real)

  datatype LinearizeError = NotPolynomial | NotQuadratic

  /** Quadratic cost of producing `p`. */
  function Quadratic(c: GenCost, p: real): real {
    c.c2 * p * p + c.c1 * p + c.c0
  }

  predicate Dispatchable(u: Unit) {
    u.plant.pmin != u.plant.pmax
  }

  function PowerStep(u: Unit, n: nat): real
    requires n > 0
  {
    (u.plant.pmax - u.plant.pmin) / n as real
  }

  /** The i-th breakpoint, which lies on the quadratic. */
  function PointAt(u: Unit, n: nat, i: nat): Point
    requires n > 0
  {
    var p := u.plant.pmin + PowerStep(u, n) * i as real;
    Point(p, Quadratic(u.cost, p))
  }

  /** The first k of the n + 1 breakpoints. */
  function Points(u: Unit, n: nat, k: nat): (r: seq<Point>)
    requires n > 0
    ensures |r| == k && forall i :: 0 <= i < k ==> r[i] == PointAt(u, n, i)
  {
    seq(k, i requires 0 <= i => PointAt(u, n, i))
  }

  /** A cell of the i-th breakpoint columns: without segments the step is not a number, and 0 is filled in. */
  function Cell(u: Unit, n: int, i: nat): Point {
    if n > 0 then PointAt(u, n, i) else Point(0.0, 0.0)
  }

  function Cells(u: Unit, n: int, k: nat): (r: seq<Point>)
    ensures |r| == k && forall i :: 0 <= i < k ==> r[i] == Cell(u, n, i)
    ensures n > 0 ==> r == Points(u, n, k)
  {
    seq(k, i requires 0 <= i => Cell(u, n, i))
  }

  /** There are n + 1 breakpoint columns, none for negative n. */
  function Columns(n: int): nat { if n < 0 then 0 else n + 1 }

  function Linearized(u: Unit, n: int): (c: Curve)
    ensures n > 0 && Dispatchable(u) ==> c == Piecewise(Points(u, n, n + 1))
  {
    if Dispatchable(u) then Piecewise(Cells(u, n, Columns(n))) else Fixed(Quadratic(u.cost, u.plant.pmax))
  }

  ghost predicate PointOf(u: Unit, n: int, i: int, at: Point)
    requires n > 0
  {
    && at.p == u.plant.pmin + (u.plant.pmax - u.plant.pmin) / n as real * i as real
    && at.f == u.cost.c2 * at.p * at.p + u.cost.c1 * at.p + u.cost.c0
  }

  /**
   * The new cost row of a unit, in terms of its own columns: n + 1 equally spaced points from Pmin on the
   * quadratic c2 p^2 + c1 p + c0, or its value at Pmax where Pmin = Pmax.
   */
  ghost predicate CurveOf(u: Unit, n: int, c: Curve) {
    if u.plant.pmin == u.plant.pmax then
      c == Fixed(u.cost.c2 * u.plant.pmax * u.plant.pmax + u.cost.c1 * u.plant.pmax + u.cost.c0)
    else
      && c.Piecewise?
      && (n < 0 ==> c.points == []) && (n == 0 ==> c.points == [Point(0.0, 0.0)]) && (n > 0 ==> |c.points| == n + 1)
      && (n > 0 ==> forall i :: 0 <= i < |c.points| ==> PointOf(u, n, i, c.points[i]))
  }

  lemma LinearizedIsCurveOf(u: Unit, n: int)
    ensures CurveOf(u, n, Linearized(u, n))
  {
    if Dispatchable(u) && n > 0 {
      var points := Points(u, n, n + 1);
      forall i | 0 <= i < |points|
        ensures PointOf(u, n, i, points[i])
      {
        assert points[i] == PointAt(u, n, i);
      }
    }
  }

  /** Fills in the breakpoint columns one by one, as the source does. */
  method LinearizeGencost(units: seq<Unit>, n: int) returns (r: Result<seq<Curve>, LinearizeError>)
    ensures r.Err? <==> exists i :: 0 <= i < |units| && (units[i].cost.model != 2 || units[i].cost.n != 3)
    ensures r.Err? && r.error == NotQuadratic ==> forall i :: 0 <= i < |units| ==> units[i].cost.model == 2
    ensures r.Ok? ==> |r.value| == |units| && forall i :: 0 <= i < |units| ==>
      r.value[i] == Linearized(units[i], n) && CurveOf(units[i], n, r.value[i])
  {
    hide Quadratic, PointAt, CurveOf;
    forall i | 0 <= i < |units| {
      LinearizedIsCurveOf(units[i], n);
    }
    if exists i :: 0 <= i < |units| && units[i].cost.model != 2 {
      return Err(NotPolynomial);
    }
    if exists i :: 0 <= i < |units| && units[i].cost.n != 3 {
      return Err(NotQuadratic);
    }
    var after := seq(|units|, g requires 0 <= g < |units| =>
      if Dispatchable(units[g]) then Piecewise([]) else Fixed(Quadratic(units[g].cost, units[g].plant.pmax)));
    for i := 0 to Columns(n)
      invariant |after| == |units|
      invariant forall g :: 0 <= g < |units| ==>
        after[g] == if Dispatchable(units[g]) then Piecewise(Cells(units[g], n, i))
                    else Fixed(Quadratic(units[g].cost, units[g].plant.pmax))
    {
      ghost var before := after;
      after := seq(|units|, g requires 0 <= g < |units| && |after| == |units| =>
        match after[g]
        case Piecewise(points) => Piecewise(points + [Cell(units[g], n, i)])
        case Fixed(price) => Fixed(price));
      forall g | 0 <= g < |units| && Dispatchable(units[g])
        ensures after[g] == Piecewise(Cells(units[g], n, i + 1))
      {
        assert before[g] == Piecewise(Cells(units[g], n, i));
        assert Cells(units[g], n, i) + [Cell(units[g], n, i)] == Cells(units[g], n, i + 1);
      }
    }
    return Ok(after);
  }

  /** Slope of the chord between two breakpoints. */
  function Slope(a: Point, b: Point): real
    requires a.p != b.p
  {
    (b.f - a.f) / (b.p - a.p)
  }

  /** The line through `a` and `b`, at `p`. */
  function ChordAt(a: Point, b: Point, p: real): real
    requires a.p != b.p
  {
    a.f + Slope(a, b) * (p - a.p)
  }

  ghost predicate Increasing(points: seq<Point>) {
    forall i, j :: 0 <= i < j < |points| ==> points[i].p < points[j].p
  }

  /** The piecewise-linear function through `points`. */
  function Interpolate(points: seq<Point>, p: real): real
    requires |points| >= 2 && Increasing(points)
  {
    if |points| == 2 || p <= points[1].p
    then ChordAt(points[0], points[1], p)
    else Interpolate(points[1..], p)
  }

  lemma ChordEnds(a: Point, b: Point)
    requires a.p != b.p
    ensures ChordAt(a, b, a.p) == a.f && ChordAt(a, b, b.p) == b.f
  {
  }

  /** Between breakpoints i and i + 1 the function follows that chord. */
  lemma {:induction false} InterpolateOnSegment(points: seq<Point>, i: nat, p: real)
    requires i + 1 < |points| && Increasing(points)
    requires points[i].p <= p <= points[i + 1].p
    ensures Interpolate(points, p) == ChordAt(points[i], points[i + 1], p)
  {
    hide ChordAt;
    if i > 0 {
      if p <= points[1].p {
        assert i == 1 && p == points[1].p;
        ChordEnds(points[0], points[1]);
        ChordEnds(points[1], points[2]);
      } else {
        InterpolateOnSegment(points[1..], i - 1, p);
      }
    }
  }

  /** How far a chord over [a, b] lies above a quadratic with leading term c, at distances x and y from its ends. */
  function Gap(c: real, x: real, y: real): real {
    c * (x * y)
  }

  /** A chord of the quadratic over [a, b] exceeds it by exactly c2 (p - a)(b - p). */
  lemma ChordGap(c: GenCost, a: real, b: real, p: real)
    requires a != b
    ensures var x, y := Point(a, Quadratic(c, a)), Point(b, Quadratic(c, b));
      && Slope(x, y) == c.c2 * (a + b) + c.c1
      && ChordAt(x, y, p) == Quadratic(c, p) + Gap(c.c2, p - a, b - p)
  {
  }

  ghost predicate Capable(u: Unit) {
    u.plant.pmin < u.plant.pmax
  }

  lemma NextPoint(u: Unit, n: nat, i: nat)
    requires n > 0 && Capable(u)
    ensures PowerStep(u, n) > 0.0
    ensures PointAt(u, n, i + 1).p == PointAt(u, n, i).p + PowerStep(u, n)
  {
    assert PowerStep(u, n) * (i + 1) as real == PowerStep(u, n) * i as real + PowerStep(u, n);
  }

  lemma EndPoints(u: Unit, n: nat)
    requires n > 0
    ensures PointAt(u, n, 0).p == u.plant.pmin && PointAt(u, n, n).p == u.plant.pmax
  {
  }

  lemma PointsOrdered(u: Unit, n: nat, i: nat, j: nat)
    requires n > 0 && Capable(u) && i <= j
    ensures PointAt(u, n, i).p <= PointAt(u, n, j).p
    ensures i < j ==> PointAt(u, n, i).p < PointAt(u, n, j).p
  {
  }

  lemma PointsIncrease(u: Unit, n: nat)
    requires n > 0 && Capable(u)
    ensures Increasing(Points(u, n, n + 1))
  {
    forall i, j | 0 <= i < j < n + 1
      ensures PointAt(u, n, i).p < PointAt(u, n, j).p
    {
      PointsOrdered(u, n, i, j);
    }
  }

  /** The linearized cost of unit `u` split into `n` segments. */
  ghost function LinearCostAt(u: Unit, n: nat, p: real): real
    requires n > 0 && Capable(u)
  {
    PointsIncrease(u, n);
    Interpolate(Points(u, n, n + 1), p)
  }

  lemma OnSegment(u: Unit, n: nat, i: nat, p: real)
    requires i < n && Capable(u)
    requires PointAt(u, n, i).p <= p <= PointAt(u, n, i + 1).p
    ensures var a, b := PointAt(u, n, i).p, PointAt(u, n, i + 1).p;
      LinearCostAt(u, n, p) == Quadratic(u.cost, p) + Gap(u.cost.c2, p - a, b - p)
  {
    hide Quadratic, PowerStep, Gap;
    PointsIncrease(u, n);
    NextPoint(u, n, i);
    InterpolateOnSegment(Points(u, n, n + 1), i, p);
    ChordGap(u.cost, PointAt(u, n, i).p, PointAt(u, n, i + 1).p, p);
  }

  lemma {:induction false} SegmentAbove(u: Unit, n: nat, p: real, k: nat) returns (i: nat)
    requires n > 0 && Capable(u) && k < n
    requires PointAt(u, n, k).p <= p <= u.plant.pmax
    ensures i < n && PointAt(u, n, i).p <= p <= PointAt(u, n, i + 1).p
    decreases n - k
  {
    EndPoints(u, n);
    if p <= PointAt(u, n, k + 1).p || k + 1 == n {
      i := k;
    } else {
      i := SegmentAbove(u, n, p, k + 1);
    }
  }

  lemma SegmentOf(u: Unit, n: nat, p: real) returns (i: nat)
    requires n > 0 && Capable(u) && u.plant.pmin <= p <= u.plant.pmax
    ensures i < n && PointAt(u, n, i).p <= p <= PointAt(u, n, i + 1).p
  {
    EndPoints(u, n);
    i := SegmentAbove(u, n, p, 0);
  }

  /** The approximation is exact at every breakpoint. */
  lemma TouchesAtBreakpoints(u: Unit, n: nat, i: nat)
    requires i <= n && n > 0 && Capable(u)
    ensures LinearCostAt(u, n, PointAt(u, n, i).p) == Quadratic(u.cost, PointAt(u, n, i).p)
  {
    hide Quadratic, PowerStep, PointAt;
    var k := if i < n then i else n - 1;
    NextPoint(u, n, k);
    OnSegment(u, n, k, PointAt(u, n, i).p);
  }

  lemma Scale(c: real, x: real, y: real)
    requires c >= 0.0 && 0.0 <= x <= y
    ensures 0.0 <= c * x <= c * y
  {
  }

  lemma GapBound(c: real, x: real, h: real)
    requires 0.0 <= x <= h && c >= 0.0
    ensures 0.0 <= Gap(c, x, h - x) <= c * (h * h) / 4.0
  {
    var y := x - h / 2.0;
    assert y * y >= 0.0;
    assert x * (h - x) == h * h / 4.0 - y * y;
    Scale(c, x * (h - x), h * h / 4.0);
  }

  /** It never lies below the quadratic and exceeds it by at most c2 h^2 / 4, h being the segment width. */
  lemma LinearizationBound(u: Unit, n: nat, p: real)
    requires n > 0 && Capable(u) && u.cost.c2 >= 0.0
    requires u.plant.pmin <= p <= u.plant.pmax
    ensures Quadratic(u.cost, p) <= LinearCostAt(u, n, p)
    ensures LinearCostAt(u, n, p) <= Quadratic(u.cost, p) + u.cost.c2 * (PowerStep(u, n) * PowerStep(u, n)) / 4.0
  {
    hide Quadratic, PowerStep, PointAt, Gap;
    var i := SegmentOf(u, n, p);
    NextPoint(u, n, i);
    OnSegment(u, n, i, p);
    GapBound(u.cost.c2, p - PointAt(u, n, i).p, PowerStep(u, n));
  }

  lemma HalfSquare(c: real, h: real, x: real, y: real)
    requires x == h / 2.0 && y == h / 2.0
    ensures Gap(c, x, y) == c * (h * h) / 4.0
  {
  }

  /** The bound is attained at the middle of every segment, so no smaller one holds. */
  lemma BoundIsAttained(u: Unit, n: nat, i: nat, p: real)
    requires i < n && Capable(u) && p == PointAt(u, n, i).p + PowerStep(u, n) / 2.0
    ensures LinearCostAt(u, n, p) == Quadratic(u.cost, p) + u.cost.c2 * (PowerStep(u, n) * PowerStep(u, n)) / 4.0
  {
    hide Quadratic, PowerStep, PointAt, Gap;
    NextPoint(u, n, i);
    OnSegment(u, n, i, p);
    HalfSquare(u.cost.c2, PowerStep(u, n), p - PointAt(u, n, i).p, PointAt(u, n, i + 1).p - p);
  }

  lemma OutsideIsBelow(c: real, a: real, b: real, p: real)
    requires c >= 0.0 && a < b && !(a <= p <= b)
    ensures Gap(c, p - a, b - p) <= 0.0
  {
  }

  /** Every chord, extended, lies on or below the approximation. */
  lemma ChordsAreBelow(u: Unit, n: nat, i: nat, p: real)
    requires i < n && Capable(u) && u.cost.c2 >= 0.0
    requires u.plant.pmin <= p <= u.plant.pmax
    ensures var a, b := PointAt(u, n, i), PointAt(u, n, i + 1);
      && a.p < b.p
      && ChordAt(a, b, p) <= LinearCostAt(u, n, p)
  {
    hide Quadratic, PowerStep, LinearCostAt, ChordAt, Gap;
    NextPoint(u, n, i);
    var a, b := PointAt(u, n, i).p, PointAt(u, n, i + 1).p;
    ChordGap(u.cost, a, b, p);
    if a <= p <= b {
      OnSegment(u, n, i, p);
    } else {
      LinearizationBound(u, n, p);
      OutsideIsBelow(u.cost.c2, a, b, p);
    }
  }

  lemma BetweenIsInside(x: real, y: real, t: real, z: real)
    requires x <= y && 0.0 <= t <= 1.0 && z == (1.0 - t) * x + t * y
    ensures x <= z <= y
  {
    Scale(t, 0.0, y - x);
    Scale(1.0 - t, 0.0, y - x);
  }

  lemma LineCombination(s: real, f: real, p: real, x: real, y: real, t: real, z: real)
    requires z == (1.0 - t) * x + t * y
    ensures f + s * (z - p) == (1.0 - t) * (f + s * (x - p)) + t * (f + s * (y - p))
  {
  }

  lemma Combination(a: Point, b: Point, x: real, y: real, t: real, z: real, lx: real, ly: real)
    requires a.p != b.p && 0.0 <= t <= 1.0 && z == (1.0 - t) * x + t * y
    requires ChordAt(a, b, x) <= lx && ChordAt(a, b, y) <= ly
    ensures ChordAt(a, b, z) <= (1.0 - t) * lx + t * ly
  {
    var cx, cy := ChordAt(a, b, x), ChordAt(a, b, y);
    LineCombination(Slope(a, b), a.f, a.p, x, y, t, z);
    assert (1.0 - t) * (lx - cx) >= 0.0 && t * (ly - cy) >= 0.0;
  }

  /** The approximation is a convex function on [Pmin, Pmax]. */
  lemma LinearizationIsConvex(u: Unit, n: nat, x: real, y: real, t: real, z: real)
    requires n > 0 && Capable(u) && u.cost.c2 >= 0.0
    requires u.plant.pmin <= x <= y <= u.plant.pmax
    requires 0.0 <= t <= 1.0 && z == (1.0 - t) * x + t * y
    ensures u.plant.pmin <= z <= u.plant.pmax
    ensures LinearCostAt(u, n, z) <= (1.0 - t) * LinearCostAt(u, n, x) + t * LinearCostAt(u, n, y)
  {
    hide Quadratic, PowerStep, PointAt, ChordAt;
    BetweenIsInside(x, y, t, z);
    var i := SegmentOf(u, n, z);
    var a, b := PointAt(u, n, i), PointAt(u, n, i + 1);
    ChordsAreBelow(u, n, i, x);
    ChordsAreBelow(u, n, i, y);
    PointsIncrease(u, n);
    InterpolateOnSegment(Points(u, n, n + 1), i, z);
    Combination(a, b, x, y, t, z, LinearCostAt(u, n, x), LinearCostAt(u, n, y));
  }

  lemma DivisionFacts(j: nat, k: nat, n: nat)
    requires k > 0 && j < k * n
    ensures j / k < n
    ensures k * (j / k) <= j < k * (j / k + 1)
  {
  }

  lemma FinePoint(u: Unit, n: nat, k: nat, i: nat)
    requires n > 0 && k > 0
    ensures k * n > 0 && k * i >= 0
    ensures PointAt(u, k * n, k * i).p == PointAt(u, n, i).p
  {
  }

  /** The j-th fine segment lies inside the (j / k)-th coarse one. */
  lemma FineInCoarse(u: Unit, n: nat, k: nat, j: nat) returns (i: nat)
    requires n > 0 && k > 0 && Capable(u) && j < k * n
    ensures i < n
    ensures PointAt(u, n, i).p <= PointAt(u, k * n, j).p
    ensures PointAt(u, k * n, j + 1).p <= PointAt(u, n, i + 1).p
  {
    hide Quadratic, PowerStep, PointAt, Gap;
    i := j / k;
    DivisionFacts(j, k, n);
    FinePoint(u, n, k, i);
    FinePoint(u, n, k, i + 1);
    PointsOrdered(u, k * n, k * i, j);
    PointsOrdered(u, k * n, j + 1, k * (i + 1));
  }

  lemma NestedGap(c: real, x: real, x': real, y: real, y': real)
    requires c >= 0.0 && 0.0 <= x <= x' && 0.0 <= y <= y'
    ensures Gap(c, x, y) <= Gap(c, x', y')
  {
  }

  /** Splitting every segment into k equal parts never raises the approximation (k = 2 is doubling). */
  lemma RefinementNeverRaises(u: Unit, n: nat, k: nat, p: real)
    requires n > 0 && k > 0 && Capable(u) && u.cost.c2 >= 0.0
    requires u.plant.pmin <= p <= u.plant.pmax
    ensures k * n > 0
    ensures LinearCostAt(u, k * n, p) <= LinearCostAt(u, n, p)
  {
    hide Quadratic, PowerStep, PointAt, Gap;
    var m := k * n;
    FinePoint(u, n, k, 0);
    var j := SegmentOf(u, m, p);
    var i := FineInCoarse(u, n, k, j);
    OnSegment(u, m, j, p);
    OnSegment(u, n, i, p);
    var a, b := PointAt(u, n, i).p, PointAt(u, n, i + 1).p;
    NestedGap(u.cost.c2, p - PointAt(u, m, j).p, p - a, PointAt(u, m, j + 1).p - p, b - p);
  }
}

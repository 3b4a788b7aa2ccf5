/**
 * From generators to a supply curve (powersimdata/design/generation/cost_curves.py):
 * slice the linearized costs, keep the requested area and types, sort, accumulate.
 */
module SupplyCurve {
  import opened Reals
  import opened GridModel
  import opened LinearCost
  import opened MeritOrder

  datatype SupplyError = BadCostModel(reason: LinearizeError) | MissingColumn | InvalidType

  /** A row of the supply table; `segments` is None where the slope is not a number. */
  datatype SupplyRow = SupplyRow(resource: string, zone: int, segments: Option<seq<Segment>>)

  ghost predicate Apart(points: seq<Point>) {
    forall i :: 0 <= i < |points| - 1 ==> points[i].p != points[i + 1].p
  }

  /** `p_diff` and `slope` of each piece. */
  function SegmentsOf(points: seq<Point>): (r: seq<Segment>)
    requires Apart(points)
    ensures |r| == if |points| < 2 then 0 else |points| - 1
  {
    if |points| < 2 then []
    else [Segment(points[1].p - points[0].p, Slope(points[0], points[1]))] + SegmentsOf(points[1..])
  }

  lemma {:induction false} SegmentAt(points: seq<Point>, i: nat)
    requires Apart(points) && i + 1 < |points|
    ensures SegmentsOf(points)[i] == Segment(points[i + 1].p - points[i].p, Slope(points[i], points[i + 1]))
  {
    if i > 0 {
      SegmentAt(points[1..], i - 1);
    }
  }

  lemma BreakpointsApart(u: Unit, n: nat)
    requires n > 0 && Dispatchable(u)
    ensures Apart(Points(u, n, n + 1))
  {
  }

  ghost function Segments(u: Unit, n: nat): (r: seq<Segment>)
    requires n > 0 && Dispatchable(u)
    ensures |r| == n
  {
    BreakpointsApart(u, n);
    SegmentsOf(Points(u, n, n + 1))
  }

  lemma UnitSegment(u: Unit, n: nat, i: nat)
    requires i < n && Dispatchable(u)
    ensures var a, b := PointAt(u, n, i), PointAt(u, n, i + 1);
      a.p != b.p && Segments(u, n)[i] == Segment(b.p - a.p, Slope(a, b))
  {
    hide PointAt, Slope;
    BreakpointsApart(u, n);
    SegmentAt(Points(u, n, n + 1), i);
  }

  /** The p_diff and slope cells of a unit: none without segments, not numbers for a unit that is not dispatchable. */
  ghost function Slices(u: Unit, n: int): Option<seq<Segment>> {
    if n <= 0 then Some([]) else if Dispatchable(u) then Some(Segments(u, n)) else None
  }

  method SliceCurve(ghost u: Unit, c: Curve, n: int) returns (segments: Option<seq<Segment>>)
    requires c == Linearized(u, n)
    ensures segments == Slices(u, n)
  {
    if n <= 0 {
      return Some([]);
    }
    if c.Fixed? {
      return None;
    }
    var points, slices: seq<Segment> := c.points, [];
    BreakpointsApart(u, n);
    for i := 0 to n
      invariant |slices| == i && slices == Segments(u, n)[..i]
    {
      SegmentAt(points, i);
      slices := slices + [Segment(points[i + 1].p - points[i].p, Slope(points[i], points[i + 1]))];
    }
    assert slices == Segments(u, n);
    return Some(slices);
  }

  /** Linearizes every unit and adds the width and slope columns one segment at a time. */
  method GetSupplyData(units: seq<Unit>, n: int) returns (r: Result<seq<SupplyRow>, SupplyError>)
    ensures r.Err? <==> || (n > 0 && forall u :: u in units ==> !Dispatchable(u))
                        || (exists u :: u in units && (u.cost.model != 2 || u.cost.n != 3))
    ensures r.Ok? ==> |r.value| == |units| && forall g :: 0 <= g < |units| ==>
      r.value[g] == SupplyRow(units[g].plant.resource, units[g].plant.zone, Slices(units[g], n))
  {
    var curves := LinearizeGencost(units, n);
    if curves.Err? {
      return Err(BadCostModel(curves.error));
    }
    if n > 0 && forall g :: 0 <= g < |units| ==> !Dispatchable(units[g]) {
      return Err(MissingColumn);
    }
    var rows: seq<SupplyRow> := [];
    for g := 0 to |units|
      invariant |rows| == g
      invariant forall k :: 0 <= k < g ==>
        rows[k] == SupplyRow(units[k].plant.resource, units[k].plant.zone, Slices(units[k], n))
    {
      assert curves.value[g] == Linearized(units[g], n);
      var segments := SliceCurve(units[g], curves.value[g], n);
      rows := rows + [SupplyRow(units[g].plant.resource, units[g].plant.zone, segments)];
    }
    return Ok(rows);
  }

  /** Whether a unit contributes to the curve of the given zones and types. */
  predicate Offers(u: Unit, zones: set<int>, types: set<string>) {
    u.plant.zone in zones && u.plant.resource in types && Dispatchable(u)
  }

  function Chosen(units: seq<Unit>, zones: set<int>, types: set<string>): (r: seq<Unit>)
    ensures forall u :: u in r <==> u in units && Offers(u, zones, types)
    ensures forall g :: 0 <= g < |r| ==> Offers(r[g], zones, types)
  {
    if units == [] then []
    else if Offers(units[0], zones, types) then [units[0]] + Chosen(units[1..], zones, types)
    else Chosen(units[1..], zones, types)
  }

  /** Every unit that offers is chosen as often as it is there; no other is. */
  lemma {:induction false} ChosenAsOften(units: seq<Unit>, zones: set<int>, types: set<string>, u: Unit)
    ensures multiset(Chosen(units, zones, types))[u] == if Offers(u, zones, types) then multiset(units)[u] else 0
  {
    if units != [] {
      var rest := units[1..];
      ChosenAsOften(rest, zones, types, u);
      assert units == [units[0]] + rest;
      if Offers(units[0], zones, types) {
        assert multiset([units[0]] + Chosen(rest, zones, types)) ==
               multiset{units[0]} + multiset(Chosen(rest, zones, types));
      }
    }
  }

  /** The i-th segment of every unit. */
  ghost function Column(units: seq<Unit>, n: nat, i: nat): (r: seq<Segment>)
    requires i < n && forall g :: 0 <= g < |units| ==> Dispatchable(units[g])
    ensures |r| == |units| && forall g :: 0 <= g < |units| ==> r[g] == Segments(units[g], n)[i]
  {
    seq(|units|, g requires 0 <= g < |units| => Segments(units[g], n)[i])
  }

  /** The segments of all units, stacked column by column as the source does. */
  ghost function Stacked(units: seq<Unit>, n: nat, k: nat): seq<Segment>
    requires n > 0 && k <= n && forall g :: 0 <= g < |units| ==> Dispatchable(units[g])
  {
    if k == 0 then [] else Stacked(units, n, k - 1) + Column(units, n, k - 1)
  }

  lemma InsertedAt(sorted: seq<Segment>, s: Segment, k: nat)
    requires SortedBySlope(sorted) && k <= |sorted|
    requires (forall j :: 0 <= j < k ==> sorted[j].slope < s.slope) && (k < |sorted| ==> s.slope <= sorted[k].slope)
    ensures SortedBySlope(sorted[..k] + [s] + sorted[k..])
  {
    var r := sorted[..k] + [s] + sorted[k..];
    forall i, j | 0 <= i < j < |r|
      ensures r[i].slope <= r[j].slope
    {
      assert r[i] == if i < k then sorted[i] else if i == k then s else sorted[i - 1];
      assert r[j] == if j < k then sorted[j] else if j == k then s else sorted[j - 1];
    }
  }

  lemma InsertedOne(sorted: seq<Segment>, s: Segment, k: nat)
    requires k <= |sorted|
    ensures multiset(sorted[..k] + [s] + sorted[k..]) == multiset(sorted) + multiset{s}
  {
    assert sorted == sorted[..k] + sorted[k..];
  }

  method InsertBySlope(sorted: seq<Segment>, s: Segment) returns (r: seq<Segment>)
    requires SortedBySlope(sorted)
    ensures SortedBySlope(r) && multiset(r) == multiset(sorted) + multiset{s}
  {
    var k := 0;
    while k < |sorted| && sorted[k].slope < s.slope
      invariant 0 <= k <= |sorted|
      invariant forall j :: 0 <= j < k ==> sorted[j].slope < s.slope
    {
      k := k + 1;
    }
    r := sorted[..k] + [s] + sorted[k..];
    InsertedAt(sorted, s, k);
    InsertedOne(sorted, s, k);
  }

  /** Insertion sort; the contract leaves the order of equal slopes open, as the source's sort does. */
  method SortBySlope(segs: seq<Segment>) returns (sorted: seq<Segment>)
    ensures IsSorting(segs, sorted)
  {
    sorted := [];
    for i := 0 to |segs|
      invariant IsSorting(segs[..i], sorted)
    {
      assert segs[..i + 1] == segs[..i] + [segs[i]];
      sorted := InsertBySlope(sorted, segs[i]);
    }
    assert segs[..|segs|] == segs;
  }

  /** Trims the table to the area and types and drops rows without a slope. */
  method KeepRows(ghost units: seq<Unit>, data: seq<SupplyRow>, zones: set<int>, types: set<string>, ghost n: nat)
    returns (rows: seq<seq<Segment>>)
    requires n > 0 && |data| == |units|
    requires forall g :: 0 <= g < |units| ==>
      data[g] == SupplyRow(units[g].plant.resource, units[g].plant.zone, Slices(units[g], n))
    ensures var chosen := Chosen(units, zones, types);
      |rows| == |chosen| && forall g :: 0 <= g < |rows| ==> rows[g] == Segments(chosen[g], n)
  {
    hide Segments;
    rows := [];
    var i := |data|;
    while i > 0
      invariant 0 <= i <= |data|
      invariant var chosen := Chosen(units[i..], zones, types);
        |rows| == |chosen| && forall g :: 0 <= g < |rows| ==> rows[g] == Segments(chosen[g], n)
    {
      i := i - 1;
      ghost var u, rest := units[i], units[i + 1..];
      assert units[i..] == [u] + rest;
      if data[i].zone in zones && data[i].resource in types && data[i].segments.Some? {
        assert Chosen(units[i..], zones, types) == [u] + Chosen(rest, zones, types);
        rows := [data[i].segments.value] + rows;
      }
    }
    assert units[0..] == units;
  }

  /** The running sum that turns sorted segments into the two lists. */
  method Accumulate(sorted: seq<Segment>) returns (c: StepCurve)
    ensures c == CurveFrom(sorted, 0.0) && StepsThrough(c, sorted, 0.0)
  {
    hide StepAt, SumBy, CurveFrom;
    CurveSteps(sorted, 0.0);
    var capacity: seq<real>, price: seq<real>, sum := [], [], 0.0;
    assert sorted[0..] == sorted;
    for i := 0 to |sorted|
      invariant CurveFrom(sorted, 0.0).capacity == capacity + CurveFrom(sorted[i..], sum).capacity
      invariant CurveFrom(sorted, 0.0).price == price + CurveFrom(sorted[i..], sum).price
    {
      var s := sorted[i];
      assert sorted[i..][1..] == sorted[i + 1..];
      Prepended(sorted[i..], sum);
      capacity := capacity + [sum, s.width + sum];
      price := price + [s.slope, s.slope];
      sum := sum + s.width;
    }
    EmptyCurve(sum);
    c := StepCurve(capacity, price);
  }

  /** Builds the capacity and price lists of the supply curve. */
  method BuildSupplyCurve(units: seq<Unit>, n: int, zones: set<int>, types: set<string>)
    returns (r: Result<StepCurve, SupplyError>)
    ensures r.Err? <==>
      || n < 1
      || (forall u :: u in units ==> !Dispatchable(u))
      || (exists u :: u in units && (u.cost.model != 2 || u.cost.n != 3))
      || (exists t :: t in types && forall u :: u in units ==> u.plant.resource != t)
    ensures r.Ok? ==> exists sorted ::
      && IsSorting(Stacked(Chosen(units, zones, types), n, n), sorted)
      && r.value == CurveFrom(sorted, 0.0) && StepsThrough(r.value, sorted, 0.0)
  {
    if n < 1 {
      return Err(MissingColumn);
    }
    var data := GetSupplyData(units, n);
    if data.Err? {
      return Err(data.error);
    }
    if !(types <= set g | 0 <= g < |units| :: data.value[g].resource) {
      ghost var t :| t in types && t !in set g | 0 <= g < |units| :: data.value[g].resource;
      forall u | u in units
        ensures u.plant.resource != t
      {
        ghost var g :| 0 <= g < |units| && units[g] == u;
        assert data.value[g].resource == u.plant.resource;
      }
      return Err(InvalidType);
    }
    ghost var chosen := Chosen(units, zones, types);
    var rows := KeepRows(units, data.value, zones, types, n);
    var stack: seq<Segment> := [];
    for i := 0 to n
      invariant stack == Stacked(chosen, n, i)
    {
      var column := seq(|rows|, g requires 0 <= g < |rows| && |rows[g]| == n => rows[g][i]);
      assert column == Column(chosen, n, i);
      stack := stack + column;
    }
    var sorted := SortBySlope(stack);
    var curve := Accumulate(sorted);
    return Ok(curve);
  }
}

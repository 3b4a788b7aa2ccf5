/**
 * Merit order: filling cost segments from the cheapest up minimizes the cost of
 * every amount of power (the step curve of powersimdata/design/generation/cost_curves.py).
 */
module MeritOrder {
  import opened Reals

  /** `width` MW on offer at `slope` $/MWh. */
  datatype Segment = Segment(width: real, slope: real)

  function Width(s: Segment): real { s.width }

  function FullCost(s: Segment): real { s.width * s.slope }

  ghost predicate SortedBySlope(segs: seq<Segment>) {
    forall i, j :: 0 <= i < j < |segs| ==> segs[i].slope <= segs[j].slope
  }

  ghost predicate Widths(segs: seq<Segment>) {
    forall s :: s in segs ==> s.width >= 0.0
  }

  /** `t` lists the segments of `s` by nondecreasing slope; ties may come in any order. */
  ghost predicate IsSorting(s: seq<Segment>, t: seq<Segment>) {
    multiset(s) == multiset(t) && SortedBySlope(t)
  }

  function Clamp(x: real, hi: real): real {
    if x < 0.0 then 0.0 else if x > hi then hi else x
  }

  /** A step curve as two parallel lists, two points per segment. */
  datatype StepCurve = StepCurve(capacity: seq<real>, price: seq<real>)

  function CurveFrom(segs: seq<Segment>, start: real): (c: StepCurve)
    ensures |c.capacity| == |c.price| == 2 * |segs|
  {
    if segs == [] then StepCurve([], [])
    else
      var s := segs[0];
      var rest := CurveFrom(segs[1..], start + s.width);
      StepCurve([start, s.width + start] + rest.capacity, [s.slope, s.slope] + rest.price)
  }

  lemma WidthBefore(segs: seq<Segment>, k: nat)
    requires k < |segs|
    ensures k == 0 ==> SumBy(segs[..k], Width) == 0.0 && SumBy(segs[..k + 1], Width) == segs[0].width
    ensures k > 0 ==> SumBy(segs[..k], Width) == segs[0].width + SumBy(segs[1..][..k - 1], Width)
    ensures k > 0 ==> SumBy(segs[..k + 1], Width) == segs[0].width + SumBy(segs[1..][..k], Width)
  {
    assert segs[..1] == [segs[0]] && [segs[0]][1..] == [];
    if k > 0 {
      assert segs[..k][1..] == segs[1..][..k - 1] && segs[..k + 1][1..] == segs[1..][..k];
    }
  }

  /**
   * What the two lists of a curve hold for the k-th segment: its slope twice, the capacity offered before
   * it, and the capacity offered up to its end.
   */
  ghost predicate StepAt(c: StepCurve, segs: seq<Segment>, start: real, k: nat)
    requires |c.capacity| == |c.price| == 2 * |segs| && k < |segs|
  {
    && c.price[2 * k] == segs[k].slope && c.price[2 * k + 1] == segs[k].slope
    && c.capacity[2 * k] == start + SumBy(segs[..k], Width)
    && c.capacity[2 * k + 1] == start + SumBy(segs[..k + 1], Width)
  }

  ghost predicate StepsThrough(c: StepCurve, segs: seq<Segment>, start: real) {
    |c.capacity| == |c.price| == 2 * |segs| && forall k :: 0 <= k < |segs| ==> StepAt(c, segs, start, k)
  }

  lemma Prepended(segs: seq<Segment>, start: real)
    requires segs != []
    ensures var c, r := CurveFrom(segs, start), CurveFrom(segs[1..], start + segs[0].width);
      && c.capacity == [start, segs[0].width + start] + r.capacity
      && c.price == [segs[0].slope, segs[0].slope] + r.price
  {
  }

  lemma EmptyCurve(start: real)
    ensures CurveFrom([], start) == StepCurve([], [])
  {
  }

  lemma {:induction false} CurveStep(segs: seq<Segment>, start: real, k: nat)
    requires k < |segs|
    ensures StepAt(CurveFrom(segs, start), segs, start, k)
  {
    hide SumBy, CurveFrom;
    Prepended(segs, start);
    WidthBefore(segs, k);
    if k > 0 {
      var tail, c := segs[1..], CurveFrom(segs, start);
      var r, j := CurveFrom(tail, start + segs[0].width), k - 1;
      CurveStep(tail, start + segs[0].width, j);
      assert segs[k] == tail[j] && tail[..j + 1] == tail[..k];
      assert c.price[2 * k] == r.price[2 * j] && c.price[2 * k + 1] == r.price[2 * j + 1];
      assert c.capacity[2 * k] == r.capacity[2 * j] && c.capacity[2 * k + 1] == r.capacity[2 * j + 1];
    }
  }

  lemma CurveSteps(segs: seq<Segment>, start: real)
    ensures StepsThrough(CurveFrom(segs, start), segs, start)
  {
    hide CurveFrom, StepAt;
    forall k | 0 <= k < |segs|
      ensures StepAt(CurveFrom(segs, start), segs, start, k)
    {
      CurveStep(segs, start, k);
    }
  }

  /** Area under the steps of a curve from 0 to q. */
  function AreaUnder(c: StepCurve, q: real): real
    requires |c.capacity| == |c.price|
    decreases |c.capacity|
  {
    if |c.capacity| < 2 then 0.0
    else
      var first := c.price[0] * Clamp(q - c.capacity[0], c.capacity[1] - c.capacity[0]);
      first + AreaUnder(StepCurve(c.capacity[2..], c.price[2..]), q)
  }

  function Pay(s: Segment, x: real): real { s.slope * x }

  /** Cost of drawing `d[i]` from the i-th segment. */
  function Cost(segs: seq<Segment>, d: seq<real>): real
    requires |segs| == |d|
  {
    if segs == [] then 0.0 else Pay(segs[0], d[0]) + Cost(segs[1..], d[1..])
  }

  /** `d` draws `q` MW in total, from each segment between nothing and its width. */
  ghost predicate Draw(segs: seq<Segment>, d: seq<real>, q: real) {
    && |d| == |segs|
    && (forall i :: 0 <= i < |d| ==> 0.0 <= d[i] <= segs[i].width)
    && Sum(d) == q
  }

  /** Fills the segments in list order. */
  function Fill(segs: seq<Segment>, x: real): (d: seq<real>)
    ensures |d| == |segs|
  {
    if segs == [] then [] else [Clamp(x, segs[0].width)] + Fill(segs[1..], x - segs[0].width)
  }

  lemma {:induction false} TotalWidthNonNegative(segs: seq<Segment>)
    requires Widths(segs)
    ensures SumBy(segs, Width) >= 0.0
  {
    if segs != [] {
      TotalWidthNonNegative(segs[1..]);
    }
  }

  lemma {:induction false} FillDraws(segs: seq<Segment>, x: real)
    requires Widths(segs)
    ensures Draw(segs, Fill(segs, x), Clamp(x, SumBy(segs, Width)))
  {
    TotalWidthNonNegative(segs);
    if segs != [] {
      TotalWidthNonNegative(segs[1..]);
      FillDraws(segs[1..], x - segs[0].width);
      var d := Fill(segs, x);
      assert d[1..] == Fill(segs[1..], x - segs[0].width);
    }
  }

  lemma FillSplits(segs: seq<Segment>, q: real)
    requires segs != []
    ensures var s := segs[0];
      Cost(segs, Fill(segs, q)) == Pay(s, Clamp(q, s.width)) + Cost(segs[1..], Fill(segs[1..], q - s.width))
  {
  }

  /** The area under the curve is the cost of filling its segments in order. */
  lemma {:induction false} AreaIsFillCost(segs: seq<Segment>, start: real, q: real)
    ensures AreaUnder(CurveFrom(segs, start), q) == Cost(segs, Fill(segs, q - start))
  {
    hide Clamp;
    if segs != [] {
      var c := CurveFrom(segs, start);
      var s := segs[0];
      AreaIsFillCost(segs[1..], start + s.width, q);
      assert StepCurve(c.capacity[2..], c.price[2..]) == CurveFrom(segs[1..], start + s.width);
      assert c.capacity[1] - c.capacity[0] == s.width;
      FillSplits(segs, q - start);
    }
  }

  /** What a segment at slope below `price` saves when fully used (never positive). */
  function Saving(price: real): Segment -> real {
    (s: Segment) => if s.slope < price then (s.slope - price) * s.width else 0.0
  }

  /** The cost of `q` MW priced at `price`, less the savings of the cheaper segments. */
  function DualBound(segs: seq<Segment>, q: real, price: real): real {
    price * q + SumBy(segs, Saving(price))
  }

  lemma TermBound(s: Segment, x: real, price: real)
    requires 0.0 <= x <= s.width
    ensures price * x + Saving(price)(s) <= s.slope * x
  {
  }

  /** Weak duality: no draw beats pricing the whole amount at `price`, less the possible savings. */
  lemma {:induction false} WeakDuality(segs: seq<Segment>, d: seq<real>, q: real, price: real)
    requires Draw(segs, d, q)
    ensures DualBound(segs, q, price) <= Cost(segs, d)
  {
    if segs != [] {
      var s, x := segs[0], d[0];
      assert Sum(d) == x + Sum(d[1..]);
      WeakDuality(segs[1..], d[1..], q - x, price);
      TermBound(s, x, price);
      assert price * q == price * x + price * (q - x);
    }
  }

  lemma FillContinues(segs: seq<Segment>, q: real, price: real)
    requires segs != [] && segs[0].slope <= price && 0.0 <= segs[0].width <= q
    requires var x := q - segs[0].width;
      Cost(segs[1..], Fill(segs[1..], x)) == DualBound(segs[1..], x, price)
    ensures Cost(segs, Fill(segs, q)) == DualBound(segs, q, price)
  {
  }

  lemma SumBySplit(segs: seq<Segment>, f: Segment -> real)
    requires segs != []
    ensures SumBy(segs, f) == f(segs[0]) + SumBy(segs[1..], f)
  {
  }

  lemma SumByNil(f: Segment -> real)
    ensures SumBy([], f) == 0.0
  {
  }

  lemma {:induction false} FillNothing(segs: seq<Segment>, x: real)
    requires x <= 0.0 && Widths(segs)
    ensures Cost(segs, Fill(segs, x)) == 0.0
  {
    if segs != [] {
      assert Fill(segs, x)[1..] == Fill(segs[1..], x - segs[0].width);
      FillNothing(segs[1..], x - segs[0].width);
    }
  }

  lemma {:induction false} NoSavings(segs: seq<Segment>, price: real)
    requires forall s :: s in segs ==> price <= s.slope
    ensures SumBy(segs, Saving(price)) == 0.0
  {
    if segs != [] {
      NoSavings(segs[1..], price);
    }
  }

  lemma FillStops(segs: seq<Segment>, q: real)
    requires SortedBySlope(segs) && Widths(segs) && segs != []
    requires 0.0 <= q <= segs[0].width
    ensures Cost(segs, Fill(segs, q)) == DualBound(segs, q, segs[0].slope)
  {
    FillSplits(segs, q);
    FillNothing(segs[1..], q - segs[0].width);
    NoSavings(segs[1..], segs[0].slope);
  }

  /** Filling a sorted list meets the dual bound, at the slope of the segment reached. */
  lemma {:induction false} FillMeetsBound(segs: seq<Segment>, q: real) returns (price: real)
    requires SortedBySlope(segs) && Widths(segs) && segs != []
    requires 0.0 <= q <= SumBy(segs, Width)
    ensures Cost(segs, Fill(segs, q)) == DualBound(segs, q, price)
    ensures exists i :: 0 <= i < |segs| && segs[i].slope == price
  {
    hide SumBy, Cost, Fill, DualBound, Clamp;
    var s, tail := segs[0], segs[1..];
    SumBySplit(segs, Width);
    SumByNil(Width);
    if q <= s.width {
      price := s.slope;
      FillStops(segs, q);
    } else {
      price := FillMeetsBound(tail, q - s.width);
      var i :| 0 <= i < |tail| && tail[i].slope == price;
      assert segs[i + 1].slope == price;
      FillContinues(segs, q, price);
    }
  }

  lemma DrawTail(s: seq<Segment>, d: seq<real>, q: real)
    requires s != [] && Draw(s, d, q)
    ensures Draw(s[1..], d[1..], q - d[0])
    ensures Cost(s, d) == Pay(s[0], d[0]) + Cost(s[1..], d[1..])
  {
  }

  lemma SumInsert(rest: seq<real>, k: nat, x: real)
    requires k <= |rest|
    ensures Sum(rest[..k] + [x] + rest[k..]) == x + Sum(rest)
  {
    SumConcat(rest[..k], rest[k..]);
    assert rest[..k] + rest[k..] == rest;
    SumAppend(rest[..k], x);
    SumConcat(rest[..k] + [x], rest[k..]);
  }

  lemma DrawInsert(t: seq<Segment>, k: nat, rest: seq<real>, x: real, q: real)
    requires k < |t| && Draw(DropAt(t, k), rest, q - x) && 0.0 <= x <= t[k].width
    ensures Draw(t, rest[..k] + [x] + rest[k..], q)
  {
    SumInsert(rest, k, x);
    var e := rest[..k] + [x] + rest[k..];
    forall i | 0 <= i < |e|
      ensures 0.0 <= e[i] <= t[i].width
    {
      var j := if i <= k then i else i - 1;
      assert i != k ==> e[i] == rest[j] && DropAt(t, k)[j] == t[i];
    }
  }

  lemma {:induction false} CostInsert(t: seq<Segment>, k: nat, rest: seq<real>, x: real, e: seq<real>)
    requires k < |t| && |rest| == |t| - 1 && e == rest[..k] + [x] + rest[k..]
    ensures Cost(t, e) == Pay(t[k], x) + Cost(DropAt(t, k), rest)
  {
    hide Pay;
    if k == 0 {
      assert e[1..] == rest;
      assert DropAt(t, k) == t[1..];
    } else {
      assert e[1..] == rest[1..][..k - 1] + [x] + rest[1..][k - 1..];
      CostInsert(t[1..], k - 1, rest[1..], x, e[1..]);
      assert DropAt(t, k)[1..] == DropAt(t[1..], k - 1);
    }
  }

  /** A draw can be rearranged along any permutation of the segments. */
  lemma {:induction false} Rearrange(s: seq<Segment>, t: seq<Segment>, d: seq<real>, q: real) returns (e: seq<real>)
    requires multiset(s) == multiset(t) && Draw(s, d, q)
    ensures Draw(t, e, q) && Cost(t, e) == Cost(s, d)
  {
    hide Cost, Sum, Pay;
    if s == [] {
      assert |t| == |multiset(t)|;
      e := d;
    } else {
      var k := PermutationHead(s, t);
      DrawTail(s, d, q);
      var rest := Rearrange(s[1..], DropAt(t, k), d[1..], q - d[0]);
      e := rest[..k] + [d[0]] + rest[k..];
      DrawInsert(t, k, rest, d[0], q);
      CostInsert(t, k, rest, d[0], e);
    }
  }

  lemma NothingIsFree()
    ensures Cost([], []) == 0.0 && Fill([], 0.0) == [] && SumBy([], Width) == 0.0
  {
  }

  lemma DualBoundOfSorting(segs: seq<Segment>, sorted: seq<Segment>, q: real, price: real)
    requires multiset(segs) == multiset(sorted)
    ensures DualBound(segs, q, price) == DualBound(sorted, q, price)
  {
    SumByPermutation(segs, sorted, Saving(price));
  }

  lemma SortingKeepsWidths(segs: seq<Segment>, sorted: seq<Segment>)
    requires multiset(segs) == multiset(sorted) && Widths(segs)
    ensures Widths(sorted) && SumBy(segs, Width) == SumBy(sorted, Width)
  {
    SumByPermutation(segs, sorted, Width);
    forall s | s in sorted
      ensures s.width >= 0.0
    {
      assert s in multiset(segs);
    }
  }

  /**
   * Merit-order optimality: the area under the curve up to q is the cost of some way of
   * drawing q MW from the segments, and no way of drawing q MW costs less.
   */
  lemma MeritOrderIsOptimal(segs: seq<Segment>, sorted: seq<Segment>, q: real)
    requires IsSorting(segs, sorted) && Widths(segs)
    requires 0.0 <= q <= SumBy(segs, Width)
    ensures exists d :: Draw(segs, d, q) && Cost(segs, d) == AreaUnder(CurveFrom(sorted, 0.0), q)
    ensures forall d :: Draw(segs, d, q) ==> AreaUnder(CurveFrom(sorted, 0.0), q) <= Cost(segs, d)
  {
    hide Cost, AreaUnder, CurveFrom, Fill, Saving, DualBound, SumBy;
    SortingKeepsWidths(segs, sorted);
    AreaIsFillCost(sorted, 0.0, q);
    FillDraws(sorted, q);
    var d := Rearrange(sorted, segs, Fill(sorted, q), q);
    if sorted == [] {
      assert |segs| == |multiset(segs)|;
      NothingIsFree();
    } else {
      var price := FillMeetsBound(sorted, q);
      DualBoundOfSorting(segs, sorted, q, price);
      forall d | Draw(segs, d, q)
        ensures AreaUnder(CurveFrom(sorted, 0.0), q) <= Cost(segs, d)
      {
        WeakDuality(segs, d, q, price);
      }
    }
  }

  /** Filling everything costs the full price of every segment. */
  lemma {:induction false} FillEverything(segs: seq<Segment>, x: real)
    requires Widths(segs) && x >= SumBy(segs, Width)
    ensures Cost(segs, Fill(segs, x)) == SumBy(segs, FullCost)
  {
    if segs != [] {
      TotalWidthNonNegative(segs[1..]);
      assert Fill(segs, x)[1..] == Fill(segs[1..], x - segs[0].width);
      FillEverything(segs[1..], x - segs[0].width);
    }
  }
}

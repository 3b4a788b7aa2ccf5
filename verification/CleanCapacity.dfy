/**
 * Capacity needed to meet clean-energy targets
 * (powersimdata/design/generation/clean_capacity_scaling.py).
 */
module CleanCapacity {
  import opened Reals
  import opened TransformGrids

  /** Previous capacity, capacity factor (None where it is not a number) and expected extra curtailment. */
  datatype Resource = Resource(capacity: real, factor: Option<real>, curtailment: real)

  datatype Target = Target(demand: real, fraction: real, allowed: set<string>, generation: map<string, real>,
                           external: real, solarPercentage: Option<real>, solar: Resource, wind: Resource)

  /** The ce_target, ce_shortfall and ce_overgeneration columns. */
  datatype Need = Need(target: real, shortfall: real, surplus: real)

  datatype Row = Row(target: Target, need: Need)

  // ------------------------------------------------------------ shortfall

  /** A resource without a column has generated nothing. */
  function Generation(t: Target, r: string): real {
    if r in t.generation then t.generation[r] else 0.0
  }

  ghost function AnyOrder(s: set<string>): (order: seq<string>)
    ensures Enumerates(order, s)
  {
    if s == {} then []
    else
      var x :| x in s;
      [x] + AnyOrder(s - {x})
  }

  lemma {:induction false} EnumerationIsSet(order: seq<string>, s: set<string>)
    requires Enumerates(order, s)
    ensures multiset(order) == multiset(s)
  {
    if order == [] {
      assert s == {};
    } else {
      var x, rest := order[0], order[1..];
      assert order == [x] + rest;
      assert x in order;
      forall y
        ensures y in rest <==> y in s - {x}
      {
        if y in rest {
          var j :| 0 <= j < |rest| && rest[j] == y;
          assert order[0] != order[j + 1];
          assert y in order;
        }
        if y in s - {x} {
          assert y in order;
        }
      }
      EnumerationIsSet(rest, s - {x});
      assert s == (s - {x}) + {x};
    }
  }

  /** Previous generation by the resources that count as clean, in whatever order they are added. */
  ghost function CleanGeneration(t: Target): real {
    SumBy(AnyOrder(t.allowed), r => Generation(t, r))
  }

  lemma AnyOrderWillDo(t: Target, order: seq<string>)
    requires Enumerates(order, t.allowed)
    ensures SumBy(order, r => Generation(t, r)) == CleanGeneration(t)
  {
    EnumerationIsSet(order, t.allowed);
    EnumerationIsSet(AnyOrder(t.allowed), t.allowed);
    SumByPermutation(order, AnyOrder(t.allowed), r => Generation(t, r));
  }

  /** Target minus previous and external clean energy; negative where the target is exceeded. */
  ghost function Gap(t: Target): real {
    t.demand * t.fraction - CleanGeneration(t) - t.external
  }

  /** Shortfall and surplus are the two parts of the gap; at most one of them is there. */
  ghost predicate Assessed(row: Row) {
    var n := row.need;
    && n.target == row.target.demand * row.target.fraction
    && n.shortfall >= 0.0 && n.surplus >= 0.0 && (n.shortfall == 0.0 || n.surplus == 0.0)
    && n.shortfall - n.surplus == Gap(row.target)
  }

  /** Clipping the gap and its negative at 0 splits it into its two parts. */
  lemma Assess(t: Target, target: real, total: real)
    requires target == t.demand * t.fraction && total == CleanGeneration(t) + t.external
    ensures Assessed(Row(t, Need(target, Max(target - total, 0.0), Max(-1.0 * (target - total), 0.0))))
  {
    hide CleanGeneration;
  }

  method AddShortfallToTargets(targets: seq<Target>) returns (rows: seq<Row>)
    ensures |rows| == |targets|
    ensures forall i :: 0 <= i < |rows| ==> rows[i].target == targets[i] && Assessed(rows[i])
  {
    hide SumBy, Generation, Assessed;
    rows := [];
    for i := 0 to |targets|
      invariant |rows| == i
      invariant forall j :: 0 <= j < i ==> rows[j].target == targets[j] && Assessed(rows[j])
    {
      var t := targets[i];
      var order := Enumerate(t.allowed);
      AnyOrderWillDo(t, order);
      var target, total := t.demand * t.fraction, SumBy(order, r => Generation(t, r)) + t.external;
      Assess(t, target, total);
      rows := rows + [Row(t, Need(target, Max(target - total, 0.0), Max(-1.0 * (target - total), 0.0)))];
    }
  }

  predicate Participates(row: Row) {
    row.need.target > 0.0
  }

  function Participants(rows: seq<Row>): (r: seq<Row>)
    ensures forall row :: row in r ==> row in rows
  {
    if rows == [] then []
    else if Participates(rows[0]) then [rows[0]] + Participants(rows[1..])
    else Participants(rows[1..])
  }

  function Shortfall(row: Row): real { row.need.shortfall }

  function Surplus(row: Row): real { row.need.surplus }

  function IndependentShortfall(rows: seq<Row>): real {
    SumBy(rows, Shortfall)
  }

  function CollaborativeShortfall(rows: seq<Row>): real {
    SumBy(Participants(rows), Shortfall) - SumBy(Participants(rows), Surplus)
  }

  lemma SumByHead(row: Row, rest: seq<Row>, f: Row -> real)
    ensures SumBy([row] + rest, f) == f(row) + SumBy(rest, f)
  {
  }

  ghost function SumGap(rows: seq<Row>): real {
    if rows == [] then 0.0 else Gap(rows[0].target) + SumGap(rows[1..])
  }

  lemma SumGapHead(row: Row, rest: seq<Row>)
    ensures SumGap([row] + rest) == Gap(row.target) + SumGap(rest)
  {
  }

  /** Pooling leaves the participants' total target minus their previous and external clean energy. */
  lemma {:induction false} CollaborativeIsTotalGap(rows: seq<Row>)
    requires forall row :: row in rows ==> Assessed(row)
    ensures CollaborativeShortfall(rows) == SumGap(Participants(rows))
  {
    hide Gap;
    if rows != [] {
      var row, rest := rows[0], rows[1..];
      assert rows == [row] + rest;
      CollaborativeIsTotalGap(rest);
      assert row in rows && Assessed(row);
      assert Participants(rows) == if Participates(row) then [row] + Participants(rest) else Participants(rest);
      SumByHead(row, Participants(rest), Shortfall);
      SumByHead(row, Participants(rest), Surplus);
      SumByHead(row, rest, Shortfall);
      SumGapHead(row, Participants(rest));
    }
  }

  /**
   * Pooling never needs more than acting alone, and needs as much exactly when no participant
   * exceeds its target and nobody else falls short.
   */
  lemma {:induction false} CollaborationNeverCosts(rows: seq<Row>)
    requires forall row :: row in rows ==> Assessed(row)
    ensures CollaborativeShortfall(rows) <= IndependentShortfall(rows)
    ensures CollaborativeShortfall(rows) == IndependentShortfall(rows) <==>
      forall row :: row in rows ==> if Participates(row) then row.need.surplus == 0.0 else row.need.shortfall == 0.0
  {
    hide Gap;
    if rows != [] {
      var row, rest := rows[0], rows[1..];
      assert rows == [row] + rest;
      CollaborationNeverCosts(rest);
      assert row in rows && Assessed(row);
      assert Participants(rows) == if Participates(row) then [row] + Participants(rest) else Participants(rest);
      SumByHead(row, Participants(rest), Shortfall);
      SumByHead(row, Participants(rest), Surplus);
      SumByHead(row, rest, Shortfall);
      SumGapHead(row, Participants(rest));
    }
  }

  // ------------------------------------------------------------ independent planning

  datatype Added = Added(solar: real, wind: real)

  function OrZero(x: Option<real>): real {
    if x.Some? then x.value else 0.0
  }

  /** Capacity factor after the extra curtailment. */
  function Expected(r: Resource): Option<real> {
    if r.factor.Some? then Some(r.factor.value * (1.0 - r.curtailment)) else None
  }

  /** The given solar share, or the present one; None when there is neither solar nor wind. */
  function SolarShare(t: Target): Option<real> {
    if t.solarPercentage.Some? then t.solarPercentage
    else if t.solar.capacity + t.wind.capacity == 0.0 then None
    else Some(t.solar.capacity / (t.solar.capacity + t.wind.capacity))
  }

  /** Average capacity factor of new capacity: a missing resource contributes nothing. */
  function Mix(solar: Option<real>, wind: Option<real>, share: real): Option<real> {
    if solar.None? && wind.None? then None
    else if solar.None? then Some(wind.value * (1.0 - share))
    else if wind.None? then Some(solar.value * share)
    else Some(solar.value * share + wind.value * (1.0 - share))
  }

  function AverageFactor(t: Target, share: real): Option<real> {
    Mix(Expected(t.solar), Expected(t.wind), share)
  }

  /** New solar and wind capacity; None where the source's numbers are not finite. */
  function AddedCapacity(t: Target, shortfall: real, hours: real): Option<Added> {
    var share := SolarShare(t);
    if share.None? then None
    else
      var average := AverageFactor(t, share.value);
      if average.None? || average.value * hours == 0.0 then None
      else
        var total := shortfall / (average.value * hours);
        Some(Added(total * share.value, total * (1.0 - share.value)))
  }

  /**
   * Capacity `added` generates exactly `shortfall`, each resource with a known capacity factor at that
   * factor less its curtailment and the other at nothing, and solar has the given share of it or, where
   * none is given, the share it has of the present capacity.
   */
  ghost predicate ClosesGap(t: Target, added: Added, shortfall: real, hours: real) {
    && (if t.solar.factor.Some? then added.solar * t.solar.factor.value * (1.0 - t.solar.curtailment) * hours else 0.0)
       + (if t.wind.factor.Some? then added.wind * t.wind.factor.value * (1.0 - t.wind.curtailment) * hours else 0.0)
       == shortfall
    && (t.solarPercentage.Some? ==> added.solar == t.solarPercentage.value * (added.solar + added.wind))
    && (t.solarPercentage.None? ==>
          added.solar * (t.solar.capacity + t.wind.capacity) == t.solar.capacity * (added.solar + added.wind))
  }

  /** The energy of one resource at its expected factor, written out. */
  lemma Output(mw: real, r: Resource, hours: real)
    ensures mw * OrZero(Expected(r)) * hours ==
      if r.factor.Some? then mw * r.factor.value * (1.0 - r.curtailment) * hours else 0.0
  {
    if r.factor.Some? {
      var f, c := r.factor.value, 1.0 - r.curtailment;
      assert mw * (f * c) * hours == mw * f * c * hours;
    }
  }

  lemma SharesOut(t: Target, total: real)
    requires SolarShare(t).Some?
    ensures var s, w := total * SolarShare(t).value, total * (1.0 - SolarShare(t).value);
      && s + w == total
      && (t.solarPercentage.Some? ==> s == t.solarPercentage.value * total)
      && (t.solarPercentage.None? ==> s * (t.solar.capacity + t.wind.capacity) == t.solar.capacity * total)
  {
    if t.solarPercentage.None? {
      var x, y := t.solar.capacity, t.solar.capacity + t.wind.capacity;
      assert x / y * y == x;
      assert total * (x / y) * y == total * (x / y * y);
    }
  }

  lemma Collect(total: real, share: real, s: real, w: real, hours: real, average: real)
    requires average == s * share + w * (1.0 - share)
    ensures (total * share) * s * hours + (total * (1.0 - share)) * w * hours == total * (average * hours)
  {
  }

  lemma WeightedAverage(t: Target, share: real, average: real)
    requires AverageFactor(t, share) == Some(average)
    ensures average == OrZero(Expected(t.solar)) * share + OrZero(Expected(t.wind)) * (1.0 - share)
  {
  }

  lemma Requotient(x: real, y: real)
    requires y != 0.0
    ensures x / y * y == x
  {
  }

  /** How the new capacity is split, and what it is the solution of. */
  lemma AddedParts(t: Target, shortfall: real, hours: real) returns (total: real, average: real)
    requires AddedCapacity(t, shortfall, hours).Some?
    ensures SolarShare(t).Some? && AverageFactor(t, SolarShare(t).value) == Some(average)
    ensures var a, share := AddedCapacity(t, shortfall, hours).value, SolarShare(t).value;
      a.solar == total * share && a.wind == total * (1.0 - share) && total * (average * hours) == shortfall
  {
    hide AverageFactor, SolarShare;
    average := AverageFactor(t, SolarShare(t).value).value;
    total := shortfall / (average * hours);
    Requotient(shortfall, average * hours);
  }

  /** The added capacity generates exactly the shortfall, in the asked-for proportion. */
  lemma IndependentClosesGap(t: Target, shortfall: real, hours: real)
    requires AddedCapacity(t, shortfall, hours).Some?
    ensures ClosesGap(t, AddedCapacity(t, shortfall, hours).value, shortfall, hours)
  {
    hide Expected, AverageFactor, SolarShare, AddedCapacity, OrZero;
    var a := AddedCapacity(t, shortfall, hours).value;
    var total, average := AddedParts(t, shortfall, hours);
    var share := SolarShare(t).value;
    WeightedAverage(t, share, average);
    Collect(total, share, OrZero(Expected(t.solar)), OrZero(Expected(t.wind)), hours, average);
    Output(a.solar, t.solar, hours);
    Output(a.wind, t.wind, hours);
    SharesOut(t, total);
  }

  /** Where a capacity factor is known it is positive and not all of it is curtailed. */
  predicate Productive(r: Resource) {
    r.factor.Some? ==> r.factor.value > 0.0 && r.curtailment < 1.0
  }

  lemma ShareRange(s: real, w: real)
    requires s >= 0.0 && w >= 0.0 && s + w > 0.0
    ensures 0.0 <= s / (s + w) <= 1.0
  {
  }

  lemma Sign(q: real, y: real)
    requires y > 0.0
    ensures q < 0.0 ==> q * y < 0.0
    ensures q > 0.0 ==> q * y > 0.0
    ensures q == 0.0 ==> q * y == 0.0
  {
  }

  lemma ExpectedSign(r: Resource)
    requires Productive(r)
    ensures Expected(r).Some? <==> r.factor.Some?
    ensures Expected(r).Some? ==> Expected(r).value > 0.0
  {
    if r.factor.Some? {
      Sign(r.factor.value, 1.0 - r.curtailment);
    }
  }

  lemma MixSign(s: Option<real>, w: Option<real>, share: real, hours: real)
    requires (s.Some? ==> s.value > 0.0) && (w.Some? ==> w.value > 0.0) && 0.0 <= share <= 1.0 && hours > 0.0
    ensures Mix(s, w, share).Some? && Mix(s, w, share).value * hours != 0.0 <==>
      (s.Some? && share > 0.0) || (w.Some? && share < 1.0)
  {
    var x := if s.Some? then s.value * share else 0.0;
    var y := if w.Some? then w.value * (1.0 - share) else 0.0;
    if s.Some? {
      Sign(share, s.value);
    }
    if w.Some? {
      Sign(1.0 - share, w.value);
    }
    assert Mix(s, w, share).Some? ==> Mix(s, w, share).value == x + y;
    Sign(x + y, hours);
  }

  /**
   * Exactly when a plan exists: the solar share is determined, and some of the new capacity goes to a
   * resource with a known capacity factor.
   */
  lemma IndependentIsPossible(t: Target, shortfall: real, hours: real)
    requires hours > 0.0 && t.solar.capacity >= 0.0 && t.wind.capacity >= 0.0
    requires Productive(t.solar) && Productive(t.wind)
    requires t.solarPercentage.Some? ==> 0.0 <= t.solarPercentage.value <= 1.0
    ensures AddedCapacity(t, shortfall, hours).Some? <==>
      && (t.solarPercentage.Some? || t.solar.capacity + t.wind.capacity > 0.0)
      && var share := SolarShare(t);
      share.Some? && ((t.solar.factor.Some? && share.value > 0.0) || (t.wind.factor.Some? && share.value < 1.0))
  {
    hide Expected, Mix;
    if SolarShare(t).Some? {
      var share := SolarShare(t).value;
      assert 0.0 <= share <= 1.0 by {
        if t.solarPercentage.None? {
          ShareRange(t.solar.capacity, t.wind.capacity);
        }
      }
      ExpectedSign(t.solar);
      ExpectedSign(t.wind);
      MixSign(Expected(t.solar), Expected(t.wind), share, hours);
    }
  }

  datatype Plan = Plan(row: Row, next: Option<Added>)

  /** The capacity on top of the previous one generates exactly the target's own shortfall. */
  ghost predicate ClosesOwnGap(p: Plan, hours: real)
    requires p.next.Some?
  {
    var t := p.row.target;
    var added := Added(p.next.value.solar - t.solar.capacity, p.next.value.wind - t.wind.capacity);
    ClosesGap(t, added, p.row.need.shortfall, hours)
  }

  /** Next capacities, target by target. */
  method AddNewCapacitiesIndependent(rows: seq<Row>, hours: real) returns (plans: seq<Plan>)
    ensures |plans| == |rows|
    ensures forall i :: 0 <= i < |rows| ==>
      && plans[i].row == rows[i]
      && (plans[i].next.Some? <==> AddedCapacity(rows[i].target, rows[i].need.shortfall, hours).Some?)
      && (plans[i].next.Some? ==> ClosesOwnGap(plans[i], hours))
  {
    hide AddedCapacity, ClosesGap;
    plans := [];
    for i := 0 to |rows|
      invariant |plans| == i
      invariant forall j :: 0 <= j < i ==>
        && plans[j].row == rows[j]
        && (plans[j].next.Some? <==> AddedCapacity(rows[j].target, rows[j].need.shortfall, hours).Some?)
        && (plans[j].next.Some? ==> ClosesOwnGap(plans[j], hours))
    {
      var t := rows[i].target;
      var added := AddedCapacity(t, rows[i].need.shortfall, hours);
      var next := None;
      if added.Some? {
        IndependentClosesGap(t, rows[i].need.shortfall, hours);
        next := Some(Added(t.solar.capacity + added.value.solar, t.wind.capacity + added.value.wind));
        assert Added(next.value.solar - t.solar.capacity, next.value.wind - t.wind.capacity) == added.value;
      }
      plans := plans + [Plan(rows[i], next)];
    }
  }

  // ------------------------------------------------------------ collaborative planning

  datatype Curtailment = Curtailment(solar: Option<real>, wind: Option<real>)

  datatype PlanError = BadCurtailment | NotFinite

  function SolarCapacity(row: Row): real { row.target.solar.capacity }

  function WindCapacity(row: Row): real { row.target.wind.capacity }

  function SolarGeneration(row: Row): real { Generation(row.target, "solar") }

  function WindGeneration(row: Row): real { Generation(row.target, "wind") }

  function Pooled(rows: seq<Row>, f: Row -> real): real {
    SumBy(Participants(rows), f)
  }

  predicate Fraction(x: Option<real>) {
    x.Some? ==> 0.0 <= x.value <= 1.0
  }

  /** Pooled capacity factor after curtailment. */
  function PooledFactor(generation: real, capacity: real, hours: real, curtailment: real): real
    requires capacity * hours != 0.0
  {
    generation / (capacity * hours) * (1.0 - curtailment)
  }

  /** The numbers a pooled plan is computed from. */
  datatype Pool = Pool(solar: real, wind: real, solarFactor: real, windFactor: real, share: real)

  function PoolOf(rows: seq<Row>, hours: real, fraction: Option<real>, c: Curtailment): Option<Pool> {
    var s, w := Pooled(rows, SolarCapacity), Pooled(rows, WindCapacity);
    if s * hours == 0.0 || w * hours == 0.0 || c.solar.None? || c.wind.None? then None
    else if fraction.None? && s + w == 0.0 then None
    else
      Some(Pool(s, w, PooledFactor(Pooled(rows, SolarGeneration), s, hours, c.solar.value),
                PooledFactor(Pooled(rows, WindGeneration), w, hours, c.wind.value),
                if fraction.Some? then fraction.value else s / (s + w)))
  }

  function PoolAverage(p: Pool): real {
    p.solarFactor * p.share + p.windFactor * (1.0 - p.share)
  }

  /** New capacity of the pool. */
  function PoolTotal(p: Pool, shortfall: real, hours: real): real
    requires PoolAverage(p) * hours != 0.0
  {
    shortfall / (PoolAverage(p) * hours)
  }

  /** Scaling of the participants' solar and wind capacity. */
  function PoolScaling(p: Pool, total: real): Added
    requires p.solar != 0.0 && p.wind != 0.0
  {
    Added(1.0 + total * p.share / p.solar, 1.0 + total * (1.0 - p.share) / p.wind)
  }

  /** What the participants' capacity grows by. */
  function Growth(rows: seq<Row>, next: seq<real>, f: Row -> real): real
    requires |next| == |rows|
  {
    if rows == [] then 0.0
    else (if Participates(rows[0]) then next[0] - f(rows[0]) else 0.0) + Growth(rows[1..], next[1..], f)
  }

  lemma Spread(x: real, y: real, scale: real)
    ensures x * scale - x + y * (scale - 1.0) == (x + y) * (scale - 1.0)
  {
  }

  lemma {:induction false} ScaledGrowth(rows: seq<Row>, next: seq<real>, f: Row -> real, scale: real)
    requires |next| == |rows| && forall i :: 0 <= i < |rows| && Participates(rows[i]) ==> next[i] == f(rows[i]) * scale
    ensures Growth(rows, next, f) == Pooled(rows, f) * (scale - 1.0)
  {
    if rows != [] {
      ScaledGrowth(rows[1..], next[1..], f, scale);
      if Participates(rows[0]) {
        assert Participants(rows)[1..] == Participants(rows[1..]);
        Spread(f(rows[0]), Pooled(rows[1..], f), scale);
      }
    }
  }

  /** Growing both pools by their scaling generates exactly the shortfall. */
  lemma PoolCloses(p: Pool, shortfall: real, hours: real)
    requires PoolAverage(p) * hours != 0.0 && p.solar != 0.0 && p.wind != 0.0
    ensures var s := PoolScaling(p, PoolTotal(p, shortfall, hours));
      p.solar * (s.solar - 1.0) * p.solarFactor * hours + p.wind * (s.wind - 1.0) * p.windFactor * hours == shortfall
  {
  }

  function NextCapacity(row: Row, f: Row -> real, scale: real): real {
    if Participates(row) then f(row) * scale else f(row)
  }

  /** `a` is generation over capacity times hours, less the curtailed part. */
  predicate IsFactor(a: real, generation: real, capacity: real, hours: real, curtailment: real) {
    capacity * hours != 0.0 && a * (capacity * hours) == generation * (1.0 - curtailment)
  }

  /** `s` is the given fraction of `s + w`, or stands to `w` as `x` to `y`. */
  predicate InShare(s: real, w: real, fraction: Option<real>, x: real, y: real) {
    (fraction.Some? ==> s == fraction.value * (s + w)) && (fraction.None? ==> s * y == w * x)
  }

  predicate Split(s: real, w: real, total: real, share: real) {
    s == total * share && w == total * (1.0 - share)
  }

  /** Energy of `s` and `w` MW at the capacity factors `a` and `b`. */
  function Generates(s: real, a: real, w: real, b: real, hours: real): real {
    s * a * hours + w * b * hours
  }

  /**
   * The participants' growth, at the factors `a` and `b` that solar and wind had over all of them less the
   * curtailment, generates their total target minus previous and external clean energy; solar has the given share of
   * it or, where none is given, the share it has of their present capacity.
   */
  ghost predicate ClosesTotalGap(rows: seq<Row>, hours: real, fraction: Option<real>, c: Curtailment,
                                 solar: seq<real>, wind: seq<real>, a: real, b: real)
    requires |solar| == |wind| == |rows| && c.solar.Some? && c.wind.Some?
  {
    var s, w := Growth(rows, solar, SolarCapacity), Growth(rows, wind, WindCapacity);
    && IsFactor(a, Pooled(rows, SolarGeneration), Pooled(rows, SolarCapacity), hours, c.solar.value)
    && IsFactor(b, Pooled(rows, WindGeneration), Pooled(rows, WindCapacity), hours, c.wind.value)
    && Generates(s, a, w, b, hours) == SumGap(Participants(rows))
    && InShare(s, w, fraction, Pooled(rows, SolarCapacity), Pooled(rows, WindCapacity))
  }

  ghost predicate GrowAlike(rows: seq<Row>, solar: seq<real>, wind: seq<real>, s: real, w: real)
    requires |solar| == |wind| == |rows|
  {
    forall i :: 0 <= i < |rows| && Participates(rows[i]) ==>
      solar[i] == rows[i].target.solar.capacity * s && wind[i] == rows[i].target.wind.capacity * w
  }

  /** Non-participants are left alone; participants all grow by the same factor. */
  ghost predicate OnlyParticipants(rows: seq<Row>, solar: seq<real>, wind: seq<real>)
    requires |solar| == |wind| == |rows|
  {
    && (forall i :: 0 <= i < |rows| && !Participates(rows[i]) ==>
          solar[i] == rows[i].target.solar.capacity && wind[i] == rows[i].target.wind.capacity)
    && (exists s, w :: GrowAlike(rows, solar, wind, s, w))
  }

  lemma PoolCapacities(rows: seq<Row>, hours: real, fraction: Option<real>, c: Curtailment)
    requires PoolOf(rows, hours, fraction, c).Some?
    ensures var p := PoolOf(rows, hours, fraction, c).value;
      p.solar == Pooled(rows, SolarCapacity) && p.wind == Pooled(rows, WindCapacity) && p.solar != 0.0 && p.wind != 0.0
  {
  }

  lemma PoolGrowth(p: Pool, total: real)
    requires p.solar != 0.0 && p.wind != 0.0
    ensures p.solar * (PoolScaling(p, total).solar - 1.0) == total * p.share
    ensures p.wind * (PoolScaling(p, total).wind - 1.0) == total * (1.0 - p.share)
  {
  }

  lemma GrowthCloses(rows: seq<Row>, p: Pool, hours: real, solar: seq<real>, wind: seq<real>, scaling: Added)
    requires |solar| == |wind| == |rows|
    requires p.solar == Pooled(rows, SolarCapacity) && p.wind == Pooled(rows, WindCapacity)
    requires p.solar != 0.0 && p.wind != 0.0 && PoolAverage(p) * hours != 0.0
    requires scaling == PoolScaling(p, PoolTotal(p, CollaborativeShortfall(rows), hours))
    requires forall j :: 0 <= j < |rows| ==> solar[j] == NextCapacity(rows[j], SolarCapacity, scaling.solar)
    requires forall j :: 0 <= j < |rows| ==> wind[j] == NextCapacity(rows[j], WindCapacity, scaling.wind)
    ensures var s, w := Growth(rows, solar, SolarCapacity), Growth(rows, wind, WindCapacity);
      var total := PoolTotal(p, CollaborativeShortfall(rows), hours);
      && Generates(s, p.solarFactor, w, p.windFactor, hours) == CollaborativeShortfall(rows)
      && Split(s, w, total, p.share)
  {
    hide PoolScaling, PoolTotal, PoolAverage, SumBy, Growth, CollaborativeShortfall, Pooled;
    ScaledGrowth(rows, solar, SolarCapacity, scaling.solar);
    ScaledGrowth(rows, wind, WindCapacity, scaling.wind);
    PoolCloses(p, CollaborativeShortfall(rows), hours);
    PoolGrowth(p, PoolTotal(p, CollaborativeShortfall(rows), hours));
  }

  lemma PoolShares(x: real, y: real, total: real, share: real, fraction: Option<real>, s: real, w: real)
    requires Split(s, w, total, share)
    requires fraction.Some? ==> share == fraction.value
    requires fraction.None? ==> x + y != 0.0 && share == x / (x + y)
    ensures InShare(s, w, fraction, x, y)
  {
    assert s + w == total;
    if fraction.None? {
      assert share * (x + y) == x;
      assert share * y == (1.0 - share) * x;
      assert total * (share * y) == total * ((1.0 - share) * x);
    }
  }

  lemma FactorOf(generation: real, capacity: real, hours: real, curtailment: real)
    requires capacity * hours != 0.0
    ensures IsFactor(PooledFactor(generation, capacity, hours, curtailment), generation, capacity, hours, curtailment)
  {
    var d, k := capacity * hours, 1.0 - curtailment;
    Requotient(generation, d);
    assert generation / d * k * d == generation / d * d * k;
  }

  /** The columns a pool was computed from. */
  lemma PoolFields(rows: seq<Row>, hours: real, fraction: Option<real>, c: Curtailment)
    requires PoolOf(rows, hours, fraction, c).Some?
    ensures var p := PoolOf(rows, hours, fraction, c).value;
      var x, y := Pooled(rows, SolarCapacity), Pooled(rows, WindCapacity);
      && p.solar == x && p.wind == y && c.solar.Some? && c.wind.Some?
      && IsFactor(p.solarFactor, Pooled(rows, SolarGeneration), x, hours, c.solar.value)
      && IsFactor(p.windFactor, Pooled(rows, WindGeneration), y, hours, c.wind.value)
      && (fraction.Some? ==> p.share == fraction.value) && (fraction.None? ==> x + y != 0.0 && p.share == x / (x + y))
  {
    hide Pooled, PooledFactor, IsFactor;
    FactorOf(Pooled(rows, SolarGeneration), Pooled(rows, SolarCapacity), hours, c.solar.value);
    FactorOf(Pooled(rows, WindGeneration), Pooled(rows, WindCapacity), hours, c.wind.value);
  }

  /** What the growth of a pool means for the columns it was computed from. */
  lemma PoolWrittenOut(rows: seq<Row>, hours: real, fraction: Option<real>, c: Curtailment, solar: seq<real>,
                       wind: seq<real>, total: real)
    requires |solar| == |wind| == |rows| && PoolOf(rows, hours, fraction, c).Some?
    requires var p := PoolOf(rows, hours, fraction, c).value;
      var s, w := Growth(rows, solar, SolarCapacity), Growth(rows, wind, WindCapacity);
      && Generates(s, p.solarFactor, w, p.windFactor, hours) == SumGap(Participants(rows))
      && Split(s, w, total, p.share)
    ensures var p := PoolOf(rows, hours, fraction, c).value;
      && c.solar.Some? && c.wind.Some?
      && ClosesTotalGap(rows, hours, fraction, c, solar, wind, p.solarFactor, p.windFactor)
  {
    hide Growth, Pooled, Participants, Generates, Split, InShare, IsFactor, PoolOf;
    var p := PoolOf(rows, hours, fraction, c).value;
    PoolFields(rows, hours, fraction, c);
    var s, w := Growth(rows, solar, SolarCapacity), Growth(rows, wind, WindCapacity);
    PoolShares(p.solar, p.wind, total, p.share, fraction, s, w);
  }

  lemma NextCapacities(rows: seq<Row>, solar: seq<real>, wind: seq<real>, scaling: Added)
    requires |solar| == |wind| == |rows|
    requires forall j :: 0 <= j < |rows| ==> solar[j] == NextCapacity(rows[j], SolarCapacity, scaling.solar)
    requires forall j :: 0 <= j < |rows| ==> wind[j] == NextCapacity(rows[j], WindCapacity, scaling.wind)
    ensures OnlyParticipants(rows, solar, wind)
  {
    assert GrowAlike(rows, solar, wind, scaling.solar, scaling.wind);
  }

  /**
   * The capacities planned together. The participants' growth, at their pooled capacity factors,
   * generates exactly their total target minus previous and external clean energy; every participant's
   * solar (and wind) grows in the same proportion, and all others keep what they have.
   */
  method AddNewCapacitiesCollaborative(rows: seq<Row>, hours: real, fraction: Option<real>,
                                       curtailment: Option<Curtailment>)
    returns (r: Result<(seq<real>, seq<real>), PlanError>)
    requires forall row :: row in rows ==> Assessed(row)
    ensures var c := if curtailment.Some? then curtailment.value else Curtailment(Some(0.0), Some(0.0));
      var pool := PoolOf(rows, hours, fraction, c);
      && (r.Err? && r.error == BadCurtailment <==> !(Fraction(c.solar) && Fraction(c.wind)))
      && (r.Ok? <==> Fraction(c.solar) && Fraction(c.wind) && pool.Some? && PoolAverage(pool.value) * hours != 0.0)
      && (r.Ok? ==> && |r.value.0| == |r.value.1| == |rows|
                    && ClosesTotalGap(rows, hours, fraction, c, r.value.0, r.value.1,
                                      pool.value.solarFactor, pool.value.windFactor)
                    && OnlyParticipants(rows, r.value.0, r.value.1))
  {
    hide SumBy, Participants, Gap, PooledFactor, PoolAverage, PoolTotal, PoolScaling, Growth, ClosesTotalGap, Pooled;
    var c := if curtailment.Some? then curtailment.value else Curtailment(Some(0.0), Some(0.0));
    if !(Fraction(c.solar) && Fraction(c.wind)) {
      return Err(BadCurtailment);
    }
    var pool := PoolOf(rows, hours, fraction, c);
    if pool.None? || PoolAverage(pool.value) * hours == 0.0 {
      return Err(NotFinite);
    }
    PoolCapacities(rows, hours, fraction, c);
    var scaling := PoolScaling(pool.value, PoolTotal(pool.value, CollaborativeShortfall(rows), hours));
    var solar, wind := [], [];
    for i := 0 to |rows|
      invariant |solar| == |wind| == i
      invariant forall j :: 0 <= j < i ==> solar[j] == NextCapacity(rows[j], SolarCapacity, scaling.solar)
      invariant forall j :: 0 <= j < i ==> wind[j] == NextCapacity(rows[j], WindCapacity, scaling.wind)
    {
      var s, w := rows[i].target.solar.capacity, rows[i].target.wind.capacity;
      if Participates(rows[i]) {
        s, w := s * scaling.solar, w * scaling.wind;
      }
      solar, wind := solar + [s], wind + [w];
    }
    GrowthCloses(rows, pool.value, hours, solar, wind, scaling);
    CollaborativeIsTotalGap(rows);
    PoolWrittenOut(rows, hours, fraction, c, solar, wind,
                   PoolTotal(pool.value, CollaborativeShortfall(rows), hours));
    NextCapacities(rows, solar, wind, scaling);
    return Ok((solar, wind));
  }
}

/** Scaling homogeneity end to end: from the change table through the transform to the supply curve. */
module FleetScaling {
  import opened Reals
  import opened Tables
  import opened GridModel
  import opened Products
  import opened TransformSpec
  import opened ScalingSteps
  import opened GridTheorems
  import LC = LinearCost
  import opened MeritOrder
  import opened SupplyCurve
  import opened EconomicDispatch
  import SD = StepDistance
  import opened PriceScaling

  ghost predicate Readable(g: Grid) {
    SameIds(g) && forall k :: k in g.plant.ids ==> k in g.plant.rows
  }

  /** The units of a grid in index order. */
  ghost function Units(g: Grid): (r: seq<Unit>)
    requires Readable(g)
    ensures |r| == |g.plant.ids| && forall i :: 0 <= i < |r| ==> r[i] == UnitAt(g, g.plant.ids[i])
  {
    seq(|g.plant.ids|, i requires 0 <= i < |g.plant.ids| => UnitAt(g, g.plant.ids[i]))
  }

  ghost predicate InArea(u: Unit, zones: set<int>, types: set<string>) {
    u.plant.zone in zones && u.plant.resource in types
  }

  /** Scaling a thermal unit's capacity by `f` and nothing else. */
  function Purely(f: real): (m: Multiplier) { Multiplier(f, 1.0, 1.0, f, f) }

  /**
   * The change table scales the units of `types` in `zones` by `f`: whatever it does to other plants,
   * the factors that apply to each of these, by zone or by id, amount to `f`, and no new plant joins them.
   */
  ghost predicate ScalesArea(g: Grid, ct: Changes, geo: Geography, zones: set<int>, types: set<string>, f: real)
    requires SameIds(g)
  {
    && (forall k :: k in g.plant.rows && InArea(UnitAt(g, k), zones, types) ==> FullMultiplier(g, ct, k) == Purely(f))
    && (forall i :: 0 <= i < |OrEmpty(ct.newPlant)| ==>
          !InArea(EntryUnit(g, ct, geo, OrEmpty(ct.newPlant)[i]), zones, types))
  }

  lemma PurelyScaled(u: Unit, f: real)
    requires f != 0.0
    ensures Multiplied(u, Purely(f)) == ScaleUnit(u, f)
  {
  }

  lemma TimesOne(x: real)
    ensures Times(x, 1.0) == x && Times(1.0, x) == x
  {
  }

  ghost predicate NoIdFactors(ct: Changes, k: int) {
    forall kind, r :: IdFactor(ct, kind, r, k) == 1.0
  }

  lemma NoIdMultiplier(ct: Changes, rs: set<string>, thermal: set<string>, k: int)
    requires NoIdFactors(ct, k)
    ensures IdMultiplier(ct, rs, thermal, k) == ONE
  {
    hide IdFactor, Product;
    ProductOfOnes(IdFactors(ct, Capacity, rs, k));
    ProductOfOnes(IdFactors(ct, Cost, rs, k));
    ProductOfOnes(IdFactors(ct, MinGen, rs, k));
    ProductOfOnes(IdFactors(ct, Capacity, rs * thermal, k));
    ProductOfOnes(Divisors(ct, rs * thermal, k));
  }

  /** By zone: one capacity factor for the thermal resource in the unit's zone, and no factor for its id. */
  lemma ZoneFactorScales(g: Grid, ct: Changes, k: int, f: real)
    requires SameIds(g) && k in g.plant.rows && f != 0.0 && NoIdFactors(ct, k)
    requires g.plant.rows[k].resource in g.resources.thermal * g.resources.all
    requires var p := g.plant.rows[k];
      && ZoneFactor(ct, Capacity, p.resource, p.zone) == f
      && ZoneFactor(ct, Cost, p.resource, p.zone) == 1.0 && ZoneFactor(ct, MinGen, p.resource, p.zone) == 1.0
    ensures FullMultiplier(g, ct, k) == Purely(f)
  {
    hide Times, ZoneFactor, IdMultiplier, NoIdFactors;
    NoIdMultiplier(ct, g.resources.all, g.resources.thermal, k);
    TimesOne(f);
    TimesOne(1.0);
  }

  /** By id: one capacity factor for the unit's id, recorded under a thermal resource, and no factor for its zone. */
  lemma IdFactorScales(g: Grid, ct: Changes, k: int, r: string, f: real)
    requires SameIds(g) && k in g.plant.rows && f != 0.0 && r in g.resources.thermal * g.resources.all
    requires forall kind, s :: IdFactor(ct, kind, s, k) == if kind == Capacity && s == r then f else 1.0
    requires var p := g.plant.rows[k]; forall kind :: ZoneFactor(ct, kind, p.resource, p.zone) == 1.0
    ensures FullMultiplier(g, ct, k) == Purely(f)
  {
    hide Times, ZoneFactor, IdFactor, Product;
    var rs, hot := g.resources.all, g.resources.all * g.resources.thermal;
    ProductSingle(IdFactors(ct, Capacity, rs, k), r);
    ProductOfOnes(IdFactors(ct, Cost, rs, k));
    ProductOfOnes(IdFactors(ct, MinGen, rs, k));
    ProductSingle(IdFactors(ct, Capacity, hot, k), r);
    ProductSingle(Divisors(ct, hot, k), r);
    TimesOne(f);
    TimesOne(1.0);
  }

  /** A unit of the area ends up scaled by f. */
  lemma AreaUnit(g: Grid, ct: Changes, geo: Geography, zones: set<int>, types: set<string>, f: real, k: int)
    requires WellFormed(g) && SameIds(g) && f > 0.0 && ScalesArea(g, ct, geo, zones, types, f)
    requires k in g.plant.rows && InArea(UnitAt(g, k), zones, types)
    ensures var t := Transform(g, ct, geo);
      SameIds(t) && k in t.plant.rows && UnitAt(t, k) == ScaleUnit(UnitAt(g, k), f)
  {
    hide WellFormed, Transform, Multiplied, ScaleUnit, FullMultiplier, EntryUnit;
    ScalingClosedForm(g, ct, geo, k);
    PurelyScaled(UnitAt(g, k), f);
  }

  /** Every other old unit stays out of the area. */
  lemma OtherUnit(g: Grid, ct: Changes, geo: Geography, k: int)
    requires WellFormed(g) && SameIds(g) && k in g.plant.rows
    ensures var t := Transform(g, ct, geo);
      SameIds(t) && k in t.plant.rows && t.plant.rows[k].zone == g.plant.rows[k].zone
      && t.plant.rows[k].resource == g.plant.rows[k].resource
  {
    hide WellFormed, Transform, FullMultiplier;
    ScalingClosedForm(g, ct, geo, k);
  }

  lemma StaysInPlace(u: Unit, m: Multiplier)
    requires m.divisor != 0.0
    ensures Multiplied(u, m).plant.resource == u.plant.resource && Multiplied(u, m).plant.zone == u.plant.zone
  {
  }

  lemma NewUnitStays(g: Grid, ct: Changes, geo: Geography, zones: set<int>, types: set<string>, f: real, i: nat, k: int)
    requires WellFormed(g) && SameIds(g) && i < |OrEmpty(ct.newPlant)| && k == g.plant.NextId() + i
    requires ScalesArea(g, ct, geo, zones, types, f)
    ensures var t := Transform(g, ct, geo); SameIds(t) && k in t.plant.rows && !InArea(UnitAt(t, k), zones, types)
  {
    hide WellFormed, Transform, IdMultiplier, Multiplied, EntryUnit, FullMultiplier, Table.NextId, Table.Valid;
    NewPlantClosedForm(g, ct, geo, i, k);
    var u := EntryUnit(g, ct, geo, OrEmpty(ct.newPlant)[i]);
    StaysInPlace(u, IdMultiplier(ct, g.resources.all, g.resources.thermal, k));
  }

  lemma {:induction false} ChosenConcat(us: seq<Unit>, vs: seq<Unit>, zones: set<int>, types: set<string>)
    ensures Chosen(us + vs, zones, types) == Chosen(us, zones, types) + Chosen(vs, zones, types)
  {
    if us == [] {
      assert us + vs == vs;
    } else {
      assert (us + vs)[1..] == us[1..] + vs;
      ChosenConcat(us[1..], vs, zones, types);
    }
  }

  lemma {:induction false} NoneChosen(us: seq<Unit>, zones: set<int>, types: set<string>)
    requires forall i :: 0 <= i < |us| ==> !InArea(us[i], zones, types)
    ensures Chosen(us, zones, types) == []
  {
    if us != [] {
      NoneChosen(us[1..], zones, types);
    }
  }

  ghost predicate Corresponds(u: Unit, v: Unit, zones: set<int>, types: set<string>, f: real)
    requires f != 0.0
  {
    if InArea(u, zones, types) then v == ScaleUnit(u, f) else !InArea(v, zones, types)
  }

  lemma OffersScale(u: Unit, v: Unit, zones: set<int>, types: set<string>, f: real)
    requires f > 0.0 && Corresponds(u, v, zones, types, f)
    ensures Offers(v, zones, types) <==> Offers(u, zones, types)
    ensures Offers(u, zones, types) ==> v == ScaleUnit(u, f)
  {
  }

  lemma {:induction false} ChosenScales(us: seq<Unit>, vs: seq<Unit>, zones: set<int>, types: set<string>, f: real)
    requires f > 0.0 && |us| == |vs|
    requires forall i :: 0 <= i < |us| ==> Corresponds(us[i], vs[i], zones, types, f)
    ensures Chosen(vs, zones, types) == ScaleFleet(Chosen(us, zones, types), f)
  {
    hide Corresponds, Offers, ScaleUnit;
    if us != [] {
      OffersScale(us[0], vs[0], zones, types, f);
      ChosenScales(us[1..], vs[1..], zones, types, f);
    }
  }

  lemma IsReadable(g: Grid, ct: Changes, geo: Geography)
    requires WellFormed(g) && SameIds(g)
    ensures Readable(g)
    ensures var t := Transform(g, ct, geo);
      Readable(t) && t.plant.ids == g.plant.ids + seq(|OrEmpty(ct.newPlant)|, i => g.plant.NextId() + i)
  {
    hide Transform, WellFormed, ByZone, Added, Table.NextId;
    TransformedKeys(g, ct, geo);
    PlantKeys(g, ct, geo);
    WellFormedPlants(g);
  }

  lemma OldCorresponds(g: Grid, ct: Changes, geo: Geography, zones: set<int>, types: set<string>, f: real, k: int)
    requires WellFormed(g) && SameIds(g) && f > 0.0 && ScalesArea(g, ct, geo, zones, types, f) && k in g.plant.rows
    ensures var t := Transform(g, ct, geo);
      SameIds(t) && k in t.plant.rows && Corresponds(UnitAt(g, k), UnitAt(t, k), zones, types, f)
  {
    hide WellFormed, Transform, ScaleUnit, ScalesArea;
    if InArea(UnitAt(g, k), zones, types) {
      AreaUnit(g, ct, geo, zones, types, f, k);
    } else {
      OtherUnit(g, ct, geo, k);
    }
  }

  /** The fleet the supply curve is built from is the base fleet scaled by f. */
  lemma TransformedFleet(g: Grid, ct: Changes, geo: Geography, zones: set<int>, types: set<string>, f: real)
    requires WellFormed(g) && SameIds(g) && f > 0.0 && ScalesArea(g, ct, geo, zones, types, f)
    ensures Readable(g) && Readable(Transform(g, ct, geo))
    ensures Chosen(Units(Transform(g, ct, geo)), zones, types) == ScaleFleet(Chosen(Units(g), zones, types), f)
  {
    hide WellFormed, Transform, ScalesArea, ScaleUnit, Corresponds, Chosen, Table.NextId;
    IsReadable(g, ct, geo);
    var t, us, n := Transform(g, ct, geo), Units(g), |g.plant.ids|;
    var vs := Units(t);
    forall i | 0 <= i < n
      ensures Corresponds(us[i], vs[i], zones, types, f)
    {
      OldCorresponds(g, ct, geo, zones, types, f, g.plant.ids[i]);
    }
    forall i | n <= i < |vs|
      ensures !InArea(vs[i], zones, types)
    {
      NewUnitStays(g, ct, geo, zones, types, f, i - n, t.plant.ids[i]);
    }
    assert vs == vs[..n] + vs[n..];
    ChosenConcat(vs[..n], vs[n..], zones, types);
    ChosenScales(us, vs[..n], zones, types, f);
    NoneChosen(vs[n..], zones, types);
  }

  /**
   * If the change table scales the queried fleet by f > 0, by zone or by plant id, then every supply
   * curve of the transformed grid prices q f exactly as every supply curve of the base grid prices q.
   */
  lemma TransformedPrices(g: Grid, ct: Changes, geo: Geography, zones: set<int>, types: set<string>, f: real,
                          n: nat, s: seq<Segment>, s': seq<Segment>, q: real)
    requires WellFormed(g) && SameIds(g) && f > 0.0 && ScalesArea(g, ct, geo, zones, types, f)
    requires Readable(g) && Readable(Transform(g, ct, geo)) && n > 0
    requires Chosen(Units(g), zones, types) != [] && Fleet(Chosen(Units(g), zones, types))
    requires IsSorting(Stacked(Chosen(Units(g), zones, types), n, n), s)
    requires IsSorting(Stacked(Chosen(Units(Transform(g, ct, geo)), zones, types), n, n), s')
    requires 0.0 <= q <= SumBy(Chosen(Units(g), zones, types), Range)
    ensures SD.PriceAt(CurveFrom(s', 0.0), q * f) == SD.PriceAt(CurveFrom(s, 0.0), q)
    ensures SD.PriceAt(CurveFrom(s, 0.0), q).Some?
  {
    hide WellFormed, Transform, ScalesArea, ScaleUnit, SumBy, Stacked, CurveFrom, SD.PriceAt, SortedBySlope, Chosen;
    TransformedFleet(g, ct, geo, zones, types, f);
    var fleet := Chosen(Units(g), zones, types);
    assert Fleet(ScaleFleet(fleet, f)) by {
      forall i | 0 <= i < |fleet|
        ensures LC.Capable(ScaleUnit(fleet[i], f))
      {
        CapableScales(fleet[i], f);
      }
    }
    ScalingIsHomogeneous(fleet, f, n, s, s', q);
  }
}

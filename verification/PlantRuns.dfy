/** Runs of plant edits, with their failures: exactly which calls keep 0 <= Pmin <= Pmax for good. */
module PlantRuns {
  import opened Reals
  import opened Tables
  import opened GridModel
  import opened Products
  import opened TransformSpec
  import opened ScalingSteps
  import opened NetworkSpec
  import opened PlantEdits

  // ------------------------------------------------------------ factors and their products

  ghost predicate AllFactors(m: map<string, Factors>, p: map<int, real> -> bool) {
    forall r :: r in m ==> p(m[r].zone) && p(m[r].id)
  }

  lemma FactorSign(g: Grid, c: Changes, kind: Kind, k: int)
    requires AllFactors(Family(c, kind), NonNegative)
    ensures TotalFactor(g, c, kind, k) >= 0.0
  {
    hide Product;
    ProductSign(IdFactors(c, kind, g.resources.all, k));
    TimesNonNegative(ZoneShare(g, c, kind, k), Product(IdFactors(c, kind, g.resources.all, k)));
  }

  lemma SameFamily(g: Grid, c: Changes, d: Changes, kind: Kind, k: int)
    requires Family(c, kind) == Family(d, kind)
    ensures TotalFactor(g, c, kind, k) == TotalFactor(g, d, kind, k)
  {
    hide Product;
    assert IdFactors(c, kind, g.resources.all, k) == IdFactors(d, kind, g.resources.all, k);
  }

  lemma NoFactor(g: Grid, c: Changes, kind: Kind, k: int)
    requires k !in g.plant.rows && forall r :: r in Family(c, kind) ==> k !in Family(c, kind)[r].id
    ensures TotalFactor(g, c, kind, k) == 1.0
  {
    hide Product;
    ProductOfOnes(IdFactors(c, kind, g.resources.all, k));
  }

  lemma Reorder(x: real, y: real, z: real)
    ensures (x * z) * y == (x * y) * z
  {
  }

  /** Multiplying one recorded factor multiplies the product. */
  lemma ProductUpdate(m: map<string, real>, n: map<string, real>, r: string, x: real)
    requires r in m && r in n && n[r] == m[r] * x && n - {r} == m - {r}
    ensures Product(n) == Product(m) * x
  {
    hide Product;
    ProductRemove(m, r);
    ProductRemove(n, r);
    Reorder(m[r], Product(m - {r}), x);
  }

  lemma Associate(x: real, y: real, z: real, yz: real)
    requires yz == y * z
    ensures Times(x, yz) == Times(x, y) * z
  {
  }

  lemma CorrectedFactor(g: Grid, c: Changes, d: Changes, r: string, cuts: map<int, real>, k: int)
    requires r in g.resources.all && r in c.pmin
    requires d == Entered(c, MinGen, r, c.pmin[r].(id := Corrected(c.pmin[r].id, cuts)))
    ensures TotalFactor(g, d, MinGen, k) == TotalFactor(g, c, MinGen, k) * Factor(cuts, k)
  {
    hide Product, Times;
    var m, n := IdFactors(c, MinGen, g.resources.all, k), IdFactors(d, MinGen, g.resources.all, k);
    assert n.Keys == m.Keys;
    assert forall s :: s in m && s != r ==> n[s] == m[s];
    assert n - {r} == m - {r};
    ProductUpdate(m, n, r, Factor(cuts, k));
    var share := ZoneShare(g, c, MinGen, k);
    assert ZoneShare(g, d, MinGen, k) == share;
    Associate(share, Product(m), Factor(cuts, k), Product(n));
  }

  // ------------------------------------------------------------ the invariant

  ghost predicate IdsKnown(g: Grid, c: Changes, m: map<string, Factors>) {
    forall r, k :: r in m && k in m[r].id ==> IsPlant(g, c, k)
  }

  /** Recorded factors and entries are of the right sign, and minimum-generation factors name existing plants. */
  ghost predicate Signed(g: Grid, c: Changes) {
    && AllFactors(c.capacity, NonNegative) && AllFactors(c.pmin, NonNegative)
    && IdsKnown(g, c, c.pmin)
    && (forall i :: 0 <= i < |OrEmpty(c.newPlant)| ==>
          0.0 <= OrEmpty(c.newPlant)[i].pmin <= OrEmpty(c.newPlant)[i].pmax)
  }

  ghost predicate Fits(g: Grid, c: Changes, k: int)
    requires IsPlant(g, c, k)
  {
    Start(g, c, k).low * TotalFactor(g, c, MinGen, k) <= Start(g, c, k).high
  }

  ghost predicate Bounded(g: Grid, c: Changes) {
    Signed(g, c) && forall k :: IsPlant(g, c, k) ==> Fits(g, c, k)
  }

  /** `0 <= Pmin <= Pmax` in a grid. */
  ghost predicate Proper(t: Table<Plant>) {
    forall k :: k in t.rows ==> 0.0 <= t.rows[k].pmin <= t.rows[k].pmax
  }

  lemma StartIsProper(g: Grid, c: Changes, k: int)
    requires Proper(g.plant) && Signed(g, c) && IsPlant(g, c, k)
    ensures 0.0 <= Start(g, c, k).low <= Start(g, c, k).high
  {
  }

  lemma Compare(low: real, high: real, cap: real, share: real)
    requires cap >= 0.0
    ensures low * cap * share <= high * cap <==> cap == 0.0 || low * share <= high
  {
  }

  /** Exactly when a plant ends up with Pmin <= Pmax: its capacity vanishes or its factors fit. */
  lemma LimitsHoldIff(g: Grid, c: Changes, geo: Geography, k: int)
    requires WellFormed(g) && SameIds(g) && IsPlant(g, c, k)
    requires AllFactors(c.capacity, NonNegative)
    ensures var t := Transform(g, c, geo);
      && k in t.plant.rows
      && (t.plant.rows[k].pmin <= t.plant.rows[k].pmax <==> TotalFactor(g, c, Capacity, k) == 0.0 || Fits(g, c, k))
  {
    hide Transform, WellFormed, TotalFactor, Start;
    PlantLimits(g, c, geo, k);
    FactorSign(g, c, Capacity, k);
    Compare(Start(g, c, k).low, Start(g, c, k).high, TotalFactor(g, c, Capacity, k), TotalFactor(g, c, MinGen, k));
  }

  /** A plant scaled to nothing is never clipped, however far its Pmin factors exceed its limits. */
  lemma ZeroHidesFromClipping(g: Grid, c: Changes, geo: Geography, k: int)
    requires WellFormed(g) && SameIds(g) && IsPlant(g, c, k) && TotalFactor(g, c, Capacity, k) == 0.0
    ensures k !in Corrections(Transform(g, c, geo).plant)
  {
    hide Transform, WellFormed, TotalFactor, Start;
    PlantLimits(g, c, geo, k);
  }

  lemma ProperPlant(g: Grid, c: Changes, geo: Geography, k: int)
    requires WellFormed(g) && SameIds(g) && Proper(g.plant) && Signed(g, c) && IsPlant(g, c, k) && Fits(g, c, k)
    ensures k in Transform(g, c, geo).plant.rows
    ensures var p := Transform(g, c, geo).plant.rows[k]; 0.0 <= p.pmin <= p.pmax
  {
    hide Transform, WellFormed, TotalFactor, Start, Fits, IsPlant;
    LimitsHoldIff(g, c, geo, k);
    PlantLimits(g, c, geo, k);
    StartIsProper(g, c, k);
    FactorSign(g, c, Capacity, k);
    FactorSign(g, c, MinGen, k);
    TimesNonNegative(Start(g, c, k).low, TotalFactor(g, c, Capacity, k));
    TimesNonNegative(Start(g, c, k).low * TotalFactor(g, c, Capacity, k), TotalFactor(g, c, MinGen, k));
  }

  lemma BoundedIsProper(g: Grid, c: Changes, geo: Geography)
    requires WellFormed(g) && SameIds(g) && Proper(g.plant) && Bounded(g, c)
    ensures Proper(Transform(g, c, geo).plant)
  {
    hide Transform, WellFormed, TotalFactor, Start, Signed, Fits, IsPlant;
    PlantIds(g, c, geo);
    forall k | IsPlant(g, c, k)
      ensures k in Transform(g, c, geo).plant.rows
      ensures var p := Transform(g, c, geo).plant.rows[k]; 0.0 <= p.pmin <= p.pmax
    {
      ProperPlant(g, c, geo, k);
    }
  }

  lemma BaseIsBounded(g: Grid)
    requires Proper(g.plant)
    ensures Bounded(g, NO_CHANGES)
  {
    hide Product;
    forall k | IsPlant(g, NO_CHANGES, k)
      ensures Fits(g, NO_CHANGES, k)
    {
      ProductOfOnes(IdFactors(NO_CHANGES, MinGen, g.resources.all, k));
    }
  }

  // ------------------------------------------------------------ what every call leaves

  /** `raises` says whether looking up the anticipated plants fails. `Elsewhere` is any edit of other keys, or none. */
  datatype PlantEdit =
    | AddPlants(plants: seq<NewPlant>)
    | Scale(kind: Kind, resource: string, zones: Option<map<int, real>>, ids: Option<map<int, real>>, raises: bool)
    | ClearPlants
    | Elsewhere

  ghost predicate GoodPlants(g: Grid, c: Changes, es: seq<NewPlant>) {
    forall i :: 0 <= i < |es| ==> GoodPlant(g, BusTable(g, c), es[i])
  }

  /** The call `e` returns instead of raising. */
  ghost predicate Returns(g: Grid, geo: Geography, c: Changes, e: PlantEdit)
    requires SameIds(g)
  {
    match e
    case AddPlants(es) => GoodPlants(g, c, es)
    case Scale(MinGen, r, zones, ids, raises) => PminScaled(g, geo, c, r, zones, ids, raises).ok
    case Scale(kind, r, zones, ids, raises) => FactorsEntered(g, c, kind, r, zones, ids, raises).ok
    case _ => true
  }

  /** The call `e` on the change table `c`, whether it returns or raises, leaves `d`. */
  ghost predicate Leaves(g: Grid, geo: Geography, c: Changes, e: PlantEdit, d: Changes)
    requires SameIds(g)
  {
    match e
    case AddPlants(es) => d == if GoodPlants(g, c, es) then c.(newPlant := Some(OrEmpty(c.newPlant) + es)) else c
    case Scale(MinGen, r, zones, ids, raises) => d == PminScaled(g, geo, c, r, zones, ids, raises).ct
    case Scale(kind, r, zones, ids, raises) => d == FactorsEntered(g, c, kind, r, zones, ids, raises).ct
    case ClearPlants => d == c.(newPlant := None, capacity := map[], cost := map[], pmin := map[])
    case Elsewhere => d.newPlant == c.newPlant && d.capacity == c.capacity && d.cost == c.cost && d.pmin == c.pmin
  }

  lemma AddingKeepsSigned(g: Grid, c: Changes, es: seq<NewPlant>)
    requires Signed(g, c) && forall i :: 0 <= i < |es| ==> 0.0 <= es[i].pmin <= es[i].pmax
    ensures Signed(g, c.(newPlant := Some(OrEmpty(c.newPlant) + es)))
  {
    var d := c.(newPlant := Some(OrEmpty(c.newPlant) + es));
    assert forall k :: IsPlant(g, c, k) ==> IsPlant(g, d, k);
  }

  lemma ByOne(x: real)
    ensures x * 1.0 == x
  {
  }

  lemma AddingKeepsBounded(g: Grid, c: Changes, es: seq<NewPlant>)
    requires WellFormed(g) && Bounded(g, c) && forall i :: 0 <= i < |es| ==> 0.0 <= es[i].pmin <= es[i].pmax
    ensures Bounded(g, c.(newPlant := Some(OrEmpty(c.newPlant) + es)))
  {
    hide WellFormed, TotalFactor, Table.NextId;
    var d := c.(newPlant := Some(OrEmpty(c.newPlant) + es));
    AddingKeepsSigned(g, c, es);
    forall k | IsPlant(g, d, k)
      ensures Fits(g, d, k)
    {
      SameFamily(g, c, d, MinGen, k);
      if IsPlant(g, c, k) {
        assert Start(g, d, k) == Start(g, c, k);
        assert Fits(g, c, k);
      } else {
        assert forall r :: r in c.pmin ==> k !in c.pmin[r].id;
        NoFactor(g, c, MinGen, k);
        ByOne(Start(g, d, k).low);
      }
    }
  }

  function FactorsOf(c: Changes, kind: Kind, r: string): Factors {
    if r in Family(c, kind) then Family(c, kind)[r] else Factors(map[], map[])
  }

  /** At most the factors of `r` in one family differ. */
  ghost predicate OnlyKey(c: Changes, d: Changes, kind: Kind, r: string) {
    && d.newPlant == c.newPlant && (forall other :: other != kind ==> Family(d, other) == Family(c, other))
    && Family(d, kind) - {r} == Family(c, kind) - {r}
  }

  /** Every factor in `m` was there before or is one of those given, and not negative. */
  ghost predicate Drawn(m: map<int, real>, before: map<int, real>, given: Option<map<int, real>>) {
    forall k :: k in m ==>
      || (given.Some? && k in given.value && m[k] == given.value[k] && m[k] >= 0.0)
      || (k in before && m[k] == before[k])
  }

  ghost predicate NonNegativeIfGiven(m: Option<map<int, real>>) {
    m.Some? ==> NonNegative(m.value)
  }

  lemma EnteredOnlyKey(c: Changes, kind: Kind, r: string, f: Factors)
    ensures OnlyKey(c, Entered(c, kind, r, f), kind, r) && FactorsOf(Entered(c, kind, r, f), kind, r) == f
    ensures OnlyKey(c, Popped(c, kind, r), kind, r) && FactorsOf(Popped(c, kind, r), kind, r) == Factors(map[], map[])
  {
  }

  lemma Lookup(c: Changes, kind: Kind, r: string)
    requires r in Family(c, kind)
    ensures FactorsOf(c, kind, r) == Family(c, kind)[r]
  {
  }

  lemma OnlyKeyNone(c: Changes, kind: Kind, r: string)
    ensures OnlyKey(c, c, kind, r)
  {
  }

  lemma OnlyKeyTwice(c: Changes, d: Changes, e: Changes, kind: Kind, r: string)
    requires OnlyKey(c, d, kind, r) && OnlyKey(d, e, kind, r)
    ensures OnlyKey(c, e, kind, r)
  {
  }

  lemma ZonePartSource(g: Grid, c: Changes, kind: Kind, r: string, zones: map<int, real>)
    requires r in Family(c, kind)
    ensures var a := ZonePart(g, c, kind, r, zones);
      && OnlyKey(c, a.ct, kind, r)
      && Drawn(FactorsOf(a.ct, kind, r).zone, FactorsOf(c, kind, r).zone, Some(zones))
      && Drawn(FactorsOf(a.ct, kind, r).id, FactorsOf(c, kind, r).id, None)
      && (a.ok ==> NonNegative(zones))
  {
    hide Entered, Popped, OnlyKey, FactorsOf;
    var f := Family(c, kind)[r];
    assert FactorsOf(c, kind, r) == f by {
      Lookup(c, kind, r);
    }
    var d := Entered(c, kind, r, f.(zone := f.zone + Populated(g, r, zones)));
    EnteredOnlyKey(c, kind, r, f.(zone := f.zone + Populated(g, r, zones)));
    EnteredOnlyKey(d, kind, r, f);
    EnteredOnlyKey(c, kind, r, f);
    OnlyKeyTwice(c, d, Popped(d, kind, r), kind, r);
    OnlyKeyNone(c, kind, r);
  }

  lemma IdPartSource(g: Grid, c: Changes, kind: Kind, r: string, ids: map<int, real>, raises: bool)
    ensures var a := IdPart(g, c, kind, r, ids, raises);
      && OnlyKey(c, a.ct, kind, r)
      && Drawn(FactorsOf(a.ct, kind, r).zone, FactorsOf(c, kind, r).zone, None)
      && Drawn(FactorsOf(a.ct, kind, r).id, FactorsOf(c, kind, r).id, Some(ids))
      && (a.ok ==> NonNegative(ids))
      && (forall k :: k in FactorsOf(a.ct, kind, r).id ==> k in FactorsOf(c, kind, r).id || IsPlant(g, c, k))
  {
    hide IsPlant;
  }

  lemma NoFactorsRecorded(c: Changes, kind: Kind, r: string)
    ensures r !in Family(c, kind) ==> FactorsOf(c, kind, r) == Factors(map[], map[])
  {
  }

  lemma KeyKeepsPlants(c: Changes, d: Changes, kind: Kind, r: string)
    requires OnlyKey(c, d, kind, r)
    ensures d.newPlant == c.newPlant
  {
  }

  lemma EnteredHolds(c: Changes, kind: Kind, r: string)
    ensures r in Family(Entered(c, kind, r, Factors(map[], map[])), kind)
  {
  }

  lemma SamePlant(g: Grid, c: Changes, d: Changes, k: int)
    requires d.newPlant == c.newPlant
    ensures IsPlant(g, d, k) <==> IsPlant(g, c, k)
  {
  }

  /**
   * Whether it returns or raises, recording factors touches one key of one family and puts only given,
   * nonnegative factors there, and plant factors only for known plants.
   */
  lemma EntriesSource(g: Grid, c: Changes, kind: Kind, r: string,
                      zones: Option<map<int, real>>, ids: Option<map<int, real>>, raises: bool)
    ensures var a := FactorsEntered(g, c, kind, r, zones, ids, raises);
      && OnlyKey(c, a.ct, kind, r)
      && Drawn(FactorsOf(a.ct, kind, r).zone, FactorsOf(c, kind, r).zone, zones)
      && Drawn(FactorsOf(a.ct, kind, r).id, FactorsOf(c, kind, r).id, ids)
      && (forall k :: k in FactorsOf(a.ct, kind, r).id ==> k in FactorsOf(c, kind, r).id || IsPlant(g, c, k))
      && (a.ok ==> r in g.resources.all && NonNegativeIfGiven(zones) && NonNegativeIfGiven(ids))
  {
    hide OnlyKey, IdPart, ZonePart, Entered, NonNegative, IsPlant, FactorsOf;
    OnlyKeyNone(c, kind, r);
    EnteredOnlyKey(c, kind, r, Factors(map[], map[]));
    var keyed := if r in Family(c, kind) then c else Entered(c, kind, r, Factors(map[], map[]));
    assert r in Family(keyed, kind) by {
      EnteredHolds(c, kind, r);
    }
    assert FactorsOf(keyed, kind, r) == FactorsOf(c, kind, r) by {
      NoFactorsRecorded(c, kind, r);
    }
    var a := if zones.Some? then ZonePart(g, keyed, kind, r, zones.value) else Outcome(true, keyed);
    if zones.Some? {
      ZonePartSource(g, keyed, kind, r, zones.value);
    } else {
      OnlyKeyNone(keyed, kind, r);
    }
    OnlyKeyTwice(c, keyed, a.ct, kind, r);
    if ids.Some? {
      IdPartSource(g, a.ct, kind, r, ids.value, raises);
      OnlyKeyTwice(c, a.ct, IdPart(g, a.ct, kind, r, ids.value, raises).ct, kind, r);
      KeyKeepsPlants(c, a.ct, kind, r);
      forall k
        ensures IsPlant(g, a.ct, k) <==> IsPlant(g, c, k)
      {
        SamePlant(g, c, a.ct, k);
      }
    }
  }

  lemma StillKnown(g: Grid, c: Changes, d: Changes, m: map<string, Factors>)
    requires d.newPlant == c.newPlant && IdsKnown(g, c, m)
    ensures IdsKnown(g, d, m)
  {
    forall r, k | r in m && k in m[r].id
      ensures IsPlant(g, d, k)
    {
      assert IsPlant(g, c, k);
    }
  }

  ghost predicate OthersKept(c: Changes, d: Changes, kind: Kind, r: string) {
    forall s :: s in Family(d, kind) && s != r ==> s in Family(c, kind) && Family(d, kind)[s] == Family(c, kind)[s]
  }

  lemma KeepsNonNegative(c: Changes, d: Changes, kind: Kind, r: string,
                         zones: Option<map<int, real>>, ids: Option<map<int, real>>)
    requires OthersKept(c, d, kind, r) && AllFactors(Family(c, kind), NonNegative)
    requires Drawn(FactorsOf(d, kind, r).zone, FactorsOf(c, kind, r).zone, zones)
    requires Drawn(FactorsOf(d, kind, r).id, FactorsOf(c, kind, r).id, ids)
    ensures AllFactors(Family(d, kind), NonNegative)
  {
  }

  lemma KeepsKnown(g: Grid, c: Changes, d: Changes, kind: Kind, r: string)
    requires OthersKept(c, d, kind, r) && IdsKnown(g, c, Family(c, kind))
    requires forall k :: k in FactorsOf(d, kind, r).id ==> k in FactorsOf(c, kind, r).id || IsPlant(g, c, k)
    ensures IdsKnown(g, c, Family(d, kind))
  {
  }

  lemma OtherKeys(c: Changes, d: Changes, kind: Kind, r: string)
    requires OnlyKey(c, d, kind, r)
    ensures d.newPlant == c.newPlant && forall other :: other != kind ==> Family(d, other) == Family(c, other)
    ensures OthersKept(c, d, kind, r)
  {
    forall s | s in Family(d, kind) && s != r
      ensures s in Family(c, kind) && Family(d, kind)[s] == Family(c, kind)[s]
    {
      assert s in Family(d, kind) - {r};
    }
  }

  lemma EntriesKeepSigns(g: Grid, c: Changes, kind: Kind, r: string,
                         zones: Option<map<int, real>>, ids: Option<map<int, real>>, raises: bool)
    requires Signed(g, c)
    ensures Signed(g, FactorsEntered(g, c, kind, r, zones, ids, raises).ct)
  {
    hide FactorsEntered, OnlyKey, IsPlant, Drawn, FactorsOf;
    EntriesSource(g, c, kind, r, zones, ids, raises);
    var d := FactorsEntered(g, c, kind, r, zones, ids, raises).ct;
    OtherKeys(c, d, kind, r);
    assert Family(c, Capacity) == c.capacity && Family(d, Capacity) == d.capacity;
    assert Family(c, MinGen) == c.pmin && Family(d, MinGen) == d.pmin;
    if kind != Cost {
      KeepsNonNegative(c, d, kind, r, zones, ids);
    }
    if kind == MinGen {
      KeepsKnown(g, c, d, kind, r);
    }
    StillKnown(g, c, d, d.pmin);
  }

  lemma FitsFrame(g: Grid, c: Changes, d: Changes)
    requires d.newPlant == c.newPlant && Family(d, MinGen) == Family(c, MinGen)
    requires forall k :: IsPlant(g, c, k) ==> Fits(g, c, k)
    ensures forall k :: IsPlant(g, d, k) ==> Fits(g, d, k)
  {
    hide TotalFactor;
    forall k | IsPlant(g, d, k)
      ensures Fits(g, d, k)
    {
      assert IsPlant(g, c, k) && Fits(g, c, k);
      SameFamily(g, c, d, MinGen, k);
    }
  }

  lemma ScalingKeepsBounded(g: Grid, c: Changes, kind: Kind, r: string,
                            zones: Option<map<int, real>>, ids: Option<map<int, real>>, raises: bool)
    requires Bounded(g, c) && kind != MinGen
    ensures Bounded(g, FactorsEntered(g, c, kind, r, zones, ids, raises).ct)
  {
    hide FactorsEntered, Signed, TotalFactor;
    EntriesKeepSigns(g, c, kind, r, zones, ids, raises);
    EntriesSource(g, c, kind, r, zones, ids, raises);
    OtherKeys(c, FactorsEntered(g, c, kind, r, zones, ids, raises).ct, kind, r);
    FitsFrame(g, c, FactorsEntered(g, c, kind, r, zones, ids, raises).ct);
  }

  /** The correction makes `low * share <= high` true unless the capacity is zero; then it changes nothing. */
  lemma CutFits(low: real, high: real, cap: real, share: real, pmin: real, pmax: real, cut: real)
    requires cap >= 0.0 && low >= 0.0 && share >= 0.0 && high >= 0.0
    requires pmax == high * cap && pmin == low * cap * share
    requires cut == if pmin != 0.0 && pmax / pmin < 1.0 then pmax / pmin else 1.0
    ensures low * (share * cut) <= high <==> cap != 0.0 || low * share <= high
    ensures cut >= 0.0
  {
  }

  lemma SameStart(g: Grid, c: Changes, d: Changes, k: int)
    requires d.newPlant == c.newPlant && IsPlant(g, c, k)
    ensures IsPlant(g, d, k) && Start(g, d, k) == Start(g, c, k)
  {
  }

  /**
   * The guard of one clipping: afterwards a plant's factors fit if and only if its capacity factor is
   * not zero or they fitted when the new factors were entered.
   */
  lemma ClippingFits(g: Grid, geo: Geography, c: Changes, d: Changes, cuts: map<int, real>, k: int)
    requires WellFormed(g) && SameIds(g) && Proper(g.plant) && Signed(g, c)
    requires cuts == Corrections(Transform(g, c, geo).plant) && d.newPlant == c.newPlant
    requires TotalFactor(g, d, MinGen, k) == TotalFactor(g, c, MinGen, k) * Factor(cuts, k)
    requires IsPlant(g, c, k) && IsPlant(g, d, k)
    ensures Fits(g, d, k) <==> TotalFactor(g, c, Capacity, k) != 0.0 || Fits(g, c, k)
    ensures Factor(cuts, k) >= 0.0
  {
    hide WellFormed, Transform, TotalFactor, IsPlant;
    PlantLimits(g, c, geo, k);
    StartIsProper(g, c, k);
    FactorSign(g, c, Capacity, k);
    FactorSign(g, c, MinGen, k);
    assert Start(g, d, k) == Start(g, c, k) by {
      SameStart(g, c, d, k);
    }
    var p, s := Transform(g, c, geo).plant.rows[k], Start(g, c, k);
    var cap, share := TotalFactor(g, c, Capacity, k), TotalFactor(g, c, MinGen, k);
    CutFits(s.low, s.high, cap, share, p.pmin, p.pmax, Factor(cuts, k));
  }

  lemma CorrectedSigns(g: Grid, geo: Geography, c: Changes, r: string, cuts: map<int, real>)
    requires WellFormed(g) && SameIds(g) && Signed(g, c) && r in c.pmin
    requires forall k :: k in cuts ==> IsPlant(g, c, k) && cuts[k] >= 0.0
    ensures Signed(g, Entered(c, MinGen, r, c.pmin[r].(id := Corrected(c.pmin[r].id, cuts))))
  {
    hide WellFormed, IsPlant;
    var m := c.pmin[r].id;
    var d := Entered(c, MinGen, r, c.pmin[r].(id := Corrected(m, cuts)));
    forall k
      ensures IsPlant(g, d, k) <==> IsPlant(g, c, k)
    {
      SamePlant(g, c, d, k);
    }
    var n := Corrected(m, cuts);
    forall k | k in n
      ensures n[k] >= 0.0
    {
      if k in cuts {
        TimesNonNegative(Factor(m, k), cuts[k]);
      }
    }
  }

  /** Every plant has a nonzero capacity factor, or already fits. */
  ghost predicate Coverable(g: Grid, c: Changes) {
    forall k :: IsPlant(g, c, k) ==> TotalFactor(g, c, Capacity, k) != 0.0 || Fits(g, c, k)
  }

  lemma CutsArePlants(g: Grid, c: Changes, geo: Geography)
    requires WellFormed(g) && SameIds(g)
    ensures forall k :: k in Corrections(Transform(g, c, geo).plant) ==> IsPlant(g, c, k)
  {
    hide WellFormed, Transform, IsPlant;
    PlantIds(g, c, geo);
  }

  ghost predicate Fitting(g: Grid, c: Changes) {
    forall k :: IsPlant(g, c, k) ==> Fits(g, c, k)
  }

  /** After a minimum-generation call that raises, nothing has been clipped. */
  lemma RaisedIsUnclipped(g: Grid, geo: Geography, c: Changes, r: string,
                          zones: Option<map<int, real>>, ids: Option<map<int, real>>, raises: bool)
    requires SameIds(g) && !PminScaled(g, geo, c, r, zones, ids, raises).ok
    ensures PminScaled(g, geo, c, r, zones, ids, raises).ct == FactorsEntered(g, c, MinGen, r, zones, ids, raises).ct
  {
    hide FactorsEntered, Defined, Transform;
  }

  /**
   * After a minimum-generation call that returns all factors fit, whatever they were before, if and only
   * if the table is coverable once the given factors are entered.
   */
  lemma ClippingBounds(g: Grid, geo: Geography, c: Changes, r: string,
                       zones: Option<map<int, real>>, ids: Option<map<int, real>>, raises: bool)
    requires WellFormed(g) && SameIds(g) && Proper(g.plant) && Signed(g, c)
    requires PminScaled(g, geo, c, r, zones, ids, raises).ok
    ensures Signed(g, PminScaled(g, geo, c, r, zones, ids, raises).ct)
    ensures Bounded(g, PminScaled(g, geo, c, r, zones, ids, raises).ct) <==>
      Coverable(g, FactorsEntered(g, c, MinGen, r, zones, ids, raises).ct)
  {
    hide WellFormed, FactorsEntered, Signed, TotalFactor, Transform, Defined, IsPlant, Corrected, Corrections, Fits,
         OnlyKey, Drawn, FactorsOf;
    var a := FactorsEntered(g, c, MinGen, r, zones, ids, raises);
    var d := PminScaled(g, geo, c, r, zones, ids, raises).ct;
    EntriesKeepSigns(g, c, MinGen, r, zones, ids, raises);
    EntriesSource(g, c, MinGen, r, zones, ids, raises);
    var cuts := Corrections(Transform(g, a.ct, geo).plant);
    forall k
      ensures IsPlant(g, d, k) <==> IsPlant(g, a.ct, k)
    {
      SamePlant(g, a.ct, d, k);
    }
    forall k
      ensures TotalFactor(g, d, MinGen, k) == TotalFactor(g, a.ct, MinGen, k) * Factor(cuts, k)
    {
      if cuts == map[] {
        ByOne(TotalFactor(g, d, MinGen, k));
      } else {
        CorrectedFactor(g, a.ct, d, r, cuts, k);
      }
    }
    forall k | IsPlant(g, a.ct, k)
      ensures Fits(g, d, k) <==> TotalFactor(g, a.ct, Capacity, k) != 0.0 || Fits(g, a.ct, k)
      ensures Factor(cuts, k) >= 0.0
    {
      ClippingFits(g, geo, a.ct, d, cuts, k);
    }
    CutsArePlants(g, a.ct, geo);
    if cuts != map[] {
      CorrectedSigns(g, geo, a.ct, r, cuts);
    }
  }

  lemma CompareQuotient(q: real, y: real)
    requires y > 0.0
    ensures q < 1.0 <==> q * y < y
  {
  }

  /** A correction multiplies Pmin down to Pmax, and no further. */
  lemma CutIsExact(pmin: real, pmax: real, cut: real)
    requires pmin >= 0.0 && pmax >= 0.0
    requires cut == if pmin != 0.0 && pmax / pmin < 1.0 then pmax / pmin else 1.0
    ensures pmin * cut == Min(pmin, pmax)
  {
    ByOne(pmin);
    if pmin > 0.0 {
      var q := pmax / pmin;
      assert q * pmin == pmax;
      CompareQuotient(q, pmin);
      if q < 1.0 {
        assert cut == q;
        assert pmin * cut == q * pmin;
      } else {
        assert cut == 1.0 && pmin <= pmax;
      }
    }
  }

  lemma Rescaled(low: real, cap: real, share: real, cut: real, after: real)
    requires after == share * cut
    ensures low * cap * after == low * cap * share * cut
  {
  }

  /** The factors a clipping call leaves, against those it entered. */
  lemma ClippedFactors(g: Grid, geo: Geography, c: Changes, r: string, zones: Option<map<int, real>>,
                       ids: Option<map<int, real>>, raises: bool, k: int)
    requires SameIds(g) && PminScaled(g, geo, c, r, zones, ids, raises).ok && IsPlant(g, c, k)
    ensures var a := FactorsEntered(g, c, MinGen, r, zones, ids, raises).ct;
      var d, cuts := PminScaled(g, geo, c, r, zones, ids, raises).ct, Corrections(Transform(g, a, geo).plant);
      && IsPlant(g, a, k) && IsPlant(g, d, k) && Start(g, d, k) == Start(g, a, k)
      && TotalFactor(g, d, Capacity, k) == TotalFactor(g, a, Capacity, k)
      && TotalFactor(g, d, MinGen, k) == TotalFactor(g, a, MinGen, k) * Factor(cuts, k)
  {
    hide FactorsEntered, TotalFactor, Transform, Defined, IsPlant, Corrected, Corrections, OnlyKey, Drawn, FactorsOf,
         Start;
    var a := FactorsEntered(g, c, MinGen, r, zones, ids, raises).ct;
    var d, cuts := PminScaled(g, geo, c, r, zones, ids, raises).ct, Corrections(Transform(g, a, geo).plant);
    EntriesSource(g, c, MinGen, r, zones, ids, raises);
    KeyKeepsPlants(c, a, MinGen, r);
    SamePlant(g, c, a, k);
    SamePlant(g, a, d, k);
    SameStart(g, a, d, k);
    SameFamily(g, a, d, Capacity, k);
    if cuts == map[] {
      ByOne(TotalFactor(g, d, MinGen, k));
    } else {
      CorrectedFactor(g, a, d, r, cuts, k);
    }
  }

  lemma LimitsAreSigned(g: Grid, c: Changes, geo: Geography, k: int)
    requires WellFormed(g) && SameIds(g) && Proper(g.plant) && Signed(g, c) && IsPlant(g, c, k)
    ensures k in Transform(g, c, geo).plant.rows
    ensures Transform(g, c, geo).plant.rows[k].pmin >= 0.0 && Transform(g, c, geo).plant.rows[k].pmax >= 0.0
  {
    hide WellFormed, Transform, TotalFactor, Start, IsPlant;
    PlantLimits(g, c, geo, k);
    StartIsProper(g, c, k);
    FactorSign(g, c, Capacity, k);
    FactorSign(g, c, MinGen, k);
    var s, cap, share := Start(g, c, k), TotalFactor(g, c, Capacity, k), TotalFactor(g, c, MinGen, k);
    TimesNonNegative(s.low, cap);
    TimesNonNegative(s.low * cap, share);
    TimesNonNegative(s.high, cap);
  }

  /**
   * What clipping does to the grid: with the given factors entered, every plant keeps its Pmax, and its
   * Pmin becomes the smaller of what it would have been and that Pmax.
   */
  lemma ClippingIsExact(g: Grid, geo: Geography, c: Changes, r: string, zones: Option<map<int, real>>,
                        ids: Option<map<int, real>>, raises: bool, k: int)
    requires WellFormed(g) && SameIds(g) && Proper(g.plant) && Signed(g, c)
    requires PminScaled(g, geo, c, r, zones, ids, raises).ok && IsPlant(g, c, k)
    ensures var t := Transform(g, FactorsEntered(g, c, MinGen, r, zones, ids, raises).ct, geo).plant;
      var u := Transform(g, PminScaled(g, geo, c, r, zones, ids, raises).ct, geo).plant;
      && k in t.rows && k in u.rows && u.rows[k].pmax == t.rows[k].pmax
      && u.rows[k].pmin == Min(t.rows[k].pmin, t.rows[k].pmax)
  {
    hide WellFormed, FactorsEntered, Signed, TotalFactor, Transform, Defined, IsPlant, Start, Proper, PminScaled;
    var a := FactorsEntered(g, c, MinGen, r, zones, ids, raises).ct;
    var d := PminScaled(g, geo, c, r, zones, ids, raises).ct;
    var cuts := Corrections(Transform(g, a, geo).plant);
    EntriesKeepSigns(g, c, MinGen, r, zones, ids, raises);
    ClippedFactors(g, geo, c, r, zones, ids, raises, k);
    PlantLimits(g, a, geo, k);
    PlantLimits(g, d, geo, k);
    var low, cap, share := Start(g, a, k).low, TotalFactor(g, a, Capacity, k), TotalFactor(g, a, MinGen, k);
    Rescaled(low, cap, share, Factor(cuts, k), TotalFactor(g, d, MinGen, k));
    LimitsAreSigned(g, a, geo, k);
    CutIsExact(Transform(g, a, geo).plant.rows[k].pmin, Transform(g, a, geo).plant.rows[k].pmax, Factor(cuts, k));
  }

  /**
   * What keeps a call safe. One that clips needs a table it can cover; one that raises after entering or
   * dropping minimum-generation factors does not clip, so what it leaves must fit as it stands.
   */
  ghost predicate Guarded(g: Grid, geo: Geography, c: Changes, e: PlantEdit)
    requires SameIds(g)
  {
    e.Scale? && e.kind == MinGen ==>
      var entered := FactorsEntered(g, c, MinGen, e.resource, e.zones, e.ids, e.raises).ct;
      if Returns(g, geo, c, e) then Coverable(g, entered) else Fitting(g, entered)
  }

  lemma BoundedFrame(g: Grid, c: Changes, d: Changes)
    requires Bounded(g, c) && d.newPlant == c.newPlant && d.capacity == c.capacity && d.pmin == c.pmin
    ensures Bounded(g, d)
  {
    hide TotalFactor;
    FitsFrame(g, c, d);
    forall r, k | r in d.pmin && k in d.pmin[r].id
      ensures IsPlant(g, d, k)
    {
      assert IsPlant(g, c, k);
    }
  }

  lemma ClearedIsBounded(g: Grid, c: Changes, d: Changes)
    requires Proper(g.plant)
    requires d == c.(newPlant := None, capacity := map[], cost := map[], pmin := map[])
    ensures Bounded(g, d)
  {
    hide Bounded;
    BaseIsBounded(g);
    BoundedFrame(g, NO_CHANGES, d);
  }

  /** Every call, returned or raised, keeps the factors fitting if it is guarded; an unguarded one never does. */
  lemma StepKeepsBounded(g: Grid, geo: Geography, c: Changes, e: PlantEdit, d: Changes)
    requires WellFormed(g) && SameIds(g) && Proper(g.plant) && Bounded(g, c) && Leaves(g, geo, c, e, d)
    ensures Bounded(g, d) <==> Guarded(g, geo, c, e)
  {
    hide WellFormed, FactorsEntered, PminScaled, Signed, Fits, IsPlant, Coverable, BusTable;
    match e
    case AddPlants(es) =>
      if GoodPlants(g, c, es) {
        AddingKeepsBounded(g, c, es);
      }
    case Scale(MinGen, r, zones, ids, raises) =>
      if Returns(g, geo, c, e) {
        ClippingBounds(g, geo, c, r, zones, ids, raises);
      } else {
        RaisedIsUnclipped(g, geo, c, r, zones, ids, raises);
        EntriesKeepSigns(g, c, MinGen, r, zones, ids, raises);
      }
    case Scale(kind, r, zones, ids, raises) => ScalingKeepsBounded(g, c, kind, r, zones, ids, raises);
    case ClearPlants => ClearedIsBounded(g, c, d);
    case Elsewhere => BoundedFrame(g, c, d);
  }

  /** The change tables seen along a run of calls, returned or raised, from the empty one. */
  ghost predicate Run(g: Grid, geo: Geography, edits: seq<PlantEdit>, states: seq<Changes>)
    requires SameIds(g)
  {
    && |states| == |edits| + 1 && states[0] == NO_CHANGES
    && forall i :: 0 <= i < |edits| ==> Leaves(g, geo, states[i], edits[i], states[i + 1])
  }

  ghost predicate GuardedUpTo(g: Grid, geo: Geography, edits: seq<PlantEdit>, states: seq<Changes>, n: nat)
    requires SameIds(g) && n <= |edits| < |states|
  {
    forall i :: 0 <= i < n ==> Guarded(g, geo, states[i], edits[i])
  }

  /** The factors fit at every point up to the n-th exactly if every minimum-generation call so far was guarded. */
  lemma {:induction false} RunIsBoundedIff(g: Grid, geo: Geography, edits: seq<PlantEdit>, states: seq<Changes>, n: nat)
    requires WellFormed(g) && SameIds(g) && Proper(g.plant) && Run(g, geo, edits, states) && n < |states|
    ensures (forall i :: 0 <= i <= n ==> Bounded(g, states[i])) <==> GuardedUpTo(g, geo, edits, states, n)
  {
    hide WellFormed, Bounded, Leaves, Guarded;
    if n == 0 {
      BaseIsBounded(g);
    } else {
      RunIsBoundedIff(g, geo, edits, states, n - 1);
      if Bounded(g, states[n - 1]) {
        StepKeepsBounded(g, geo, states[n - 1], edits[n - 1], states[n]);
      }
    }
  }

  lemma StepKeepsSigned(g: Grid, geo: Geography, c: Changes, e: PlantEdit, d: Changes)
    requires WellFormed(g) && SameIds(g) && Proper(g.plant) && Signed(g, c) && Leaves(g, geo, c, e, d)
    ensures Signed(g, d)
  {
    hide WellFormed, FactorsEntered, PminScaled, Coverable, IsPlant, BusTable;
    match e
    case AddPlants(es) =>
      if GoodPlants(g, c, es) {
        AddingKeepsSigned(g, c, es);
      }
    case Scale(MinGen, r, zones, ids, raises) =>
      if Returns(g, geo, c, e) {
        ClippingBounds(g, geo, c, r, zones, ids, raises);
      } else {
        RaisedIsUnclipped(g, geo, c, r, zones, ids, raises);
        EntriesKeepSigns(g, c, MinGen, r, zones, ids, raises);
      }
    case Scale(kind, r, zones, ids, raises) => EntriesKeepSigns(g, c, kind, r, zones, ids, raises);
    case ClearPlants =>
    case Elsewhere => StillKnown(g, c, d, d.pmin);
  }

  /** In every run all recorded factors and entries keep their signs, whatever raises. */
  lemma {:induction false} RunIsSigned(g: Grid, geo: Geography, edits: seq<PlantEdit>, states: seq<Changes>, i: nat)
    requires WellFormed(g) && SameIds(g) && Proper(g.plant) && Run(g, geo, edits, states) && i < |states|
    ensures Signed(g, states[i])
  {
    hide WellFormed, Leaves;
    if i > 0 {
      RunIsSigned(g, geo, edits, states, i - 1);
      StepKeepsSigned(g, geo, states[i - 1], edits[i - 1], states[i]);
    }
  }

  /** Clipping in a run: every minimum-generation call that returns clips exactly. */
  lemma RunClipsExactly(g: Grid, geo: Geography, edits: seq<PlantEdit>, states: seq<Changes>, i: nat, k: int)
    requires WellFormed(g) && SameIds(g) && Proper(g.plant) && Run(g, geo, edits, states) && i < |edits|
    requires edits[i].Scale? && edits[i].kind == MinGen && Returns(g, geo, states[i], edits[i])
    requires IsPlant(g, states[i], k)
    ensures var e := edits[i];
      var entered := FactorsEntered(g, states[i], MinGen, e.resource, e.zones, e.ids, e.raises).ct;
      var t, u := Transform(g, entered, geo).plant, Transform(g, states[i + 1], geo).plant;
      && k in t.rows && k in u.rows && u.rows[k].pmax == t.rows[k].pmax
      && u.rows[k].pmin == Min(t.rows[k].pmin, t.rows[k].pmax)
  {
    hide WellFormed, FactorsEntered, PminScaled, Transform, IsPlant, Signed, Proper;
    var e := edits[i];
    RunIsSigned(g, geo, edits, states, i);
    assert Leaves(g, geo, states[i], e, states[i + 1]);
    ClippingIsExact(g, geo, states[i], e.resource, e.zones, e.ids, e.raises, k);
  }

  /** Scaling never touches the list of new plants. */
  lemma ScalingKeepsEntries(g: Grid, geo: Geography, c: Changes, e: PlantEdit, d: Changes)
    requires SameIds(g) && e.Scale? && Leaves(g, geo, c, e, d)
    ensures d.newPlant == c.newPlant
  {
    hide FactorsEntered, Defined, Transform, OnlyKey, Drawn, FactorsOf, IsPlant;
    EntriesSource(g, c, e.kind, e.resource, e.zones, e.ids, e.raises);
    OtherKeys(c, FactorsEntered(g, c, e.kind, e.resource, e.zones, e.ids, e.raises).ct, e.kind, e.resource);
  }

  /** Every new plant with a profile borrows it from a base plant of its own resource. */
  ghost predicate Borrows(g: Grid, c: Changes) {
    forall e :: e in OrEmpty(c.newPlant) && e.resource in g.resources.profile ==>
      e.neighbor.Some? && e.neighbor.value in g.plant.rows && g.plant.rows[e.neighbor.value].resource == e.resource
  }

  lemma {:induction false} RunBorrows(g: Grid, geo: Geography, edits: seq<PlantEdit>, states: seq<Changes>, i: nat)
    requires SameIds(g) && Run(g, geo, edits, states) && i < |states|
    ensures Borrows(g, states[i])
  {
    hide FactorsEntered, PminScaled, BusTable;
    if i > 0 {
      RunBorrows(g, geo, edits, states, i - 1);
      assert Leaves(g, geo, states[i - 1], edits[i - 1], states[i]);
      if edits[i - 1].Scale? {
        ScalingKeepsEntries(g, geo, states[i - 1], edits[i - 1], states[i]);
      }
    }
  }

  /**
   * Pmin clipping over whole runs: at every point of every run of plant edits, returned or raised and
   * interleaved with any edits of other keys, every plant of the transformed grid has 0 <= Pmin <= Pmax,
   * if every minimum-generation call so far was guarded.
   */
  lemma PminStaysBelowPmax(g: Grid, geo: Geography, edits: seq<PlantEdit>, states: seq<Changes>, i: nat)
    requires WellFormed(g) && SameIds(g) && Proper(g.plant) && Run(g, geo, edits, states) && i < |states|
    requires GuardedUpTo(g, geo, edits, states, i)
    ensures Proper(Transform(g, states[i], geo).plant)
  {
    hide WellFormed, Run, GuardedUpTo, Bounded, Transform;
    RunIsBoundedIff(g, geo, edits, states, i);
    BoundedIsProper(g, states[i], geo);
  }

  /**
   * The other half: once the factors do not fit, every later change table with the same Pmin factors
   * and a nonzero capacity factor for that plant breaks the limits.
   */
  lemma MisfitShowsAgain(g: Grid, geo: Geography, c: Changes, d: Changes, k: int)
    requires WellFormed(g) && SameIds(g) && AllFactors(d.capacity, NonNegative)
    requires IsPlant(g, c, k) && !Fits(g, c, k) && d.newPlant == c.newPlant && d.pmin == c.pmin
    requires TotalFactor(g, d, Capacity, k) != 0.0
    ensures !Proper(Transform(g, d, geo).plant)
  {
    hide WellFormed, Transform, TotalFactor, Start, IsPlant;
    SameStart(g, c, d, k);
    SameFamily(g, c, d, MinGen, k);
    LimitsHoldIff(g, d, geo, k);
  }
}

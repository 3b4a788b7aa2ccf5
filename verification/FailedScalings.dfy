/**
 * What a call that records plant factors loses or leaves behind when it raises
 * (powersimdata/input/change_table.py and powersimdata/input/changes/plant.py).
 */
module FailedScalings {
  import opened Reals
  import opened GridModel
  import opened Products
  import opened TransformSpec
  import opened PlantEdits
  import opened PlantRuns
  import opened PlantCounterexamples

  predicate Considered(g: Grid, r: string, zones: Option<map<int, real>>, ids: Option<map<int, real>>) {
    r in g.resources.all && (Given(zones) || Given(ids))
  }

  predicate UnknownZone(g: Grid, zones: Option<map<int, real>>) {
    zones.Some? && exists z :: z in zones.value && !KnownZone(g, z)
  }

  predicate UnknownPlant(g: Grid, c: Changes, ids: Option<map<int, real>>) {
    ids.Some? && exists k :: k in ids.value && !IsPlant(g, c, k)
  }

  predicate GoodZones(g: Grid, zones: Option<map<int, real>>) {
    !UnknownZone(g, zones) && (zones.Some? ==> NonNegative(zones.value))
  }

  /** The zone factors of `r` once those given are merged in. */
  function Merged(g: Grid, c: Changes, kind: Kind, r: string, zones: Option<map<int, real>>): map<int, real> {
    FactorsOf(c, kind, r).zone + (if zones.Some? then Populated(g, r, zones.value) else map[])
  }

  /** Zone factors are given, but none of them, nor an earlier one, finds plants. */
  predicate NothingLeft(g: Grid, c: Changes, kind: Kind, r: string, zones: Option<map<int, real>>) {
    zones.Some? && Merged(g, c, kind, r, zones) == map[]
  }

  /** The guards of the branches that drop the key and raise. */
  predicate DropsKey(g: Grid, c: Changes, kind: Kind, r: string,
                     zones: Option<map<int, real>>, ids: Option<map<int, real>>, raises: bool) {
    || UnknownZone(g, zones)
    || (&& GoodZones(g, zones) && ids.Some?
        && (NothingLeft(g, c, kind, r, zones) || (!raises && UnknownPlant(g, c, ids))))
  }

  /** The change table between the two parts of a call whose zones are good. */
  lemma AfterZones(g: Grid, c: Changes, kind: Kind, r: string, zones: Option<map<int, real>>)
    requires GoodZones(g, zones)
    ensures var a := ZonePhase(g, c, kind, r, zones);
      && a.ok && a.ct.newPlant == c.newPlant
      && (NothingLeft(g, c, kind, r, zones) ==> a.ct == Popped(c, kind, r))
      && (!NothingLeft(g, c, kind, r, zones) ==>
            a.ct == Entered(c, kind, r, FactorsOf(c, kind, r).(zone := Merged(g, c, kind, r, zones))))
  {
    hide KnownZone, NonNegative, Populated;
    var keyed := if r in Family(c, kind) then c else Entered(c, kind, r, Factors(map[], map[]));
    var f, m := FactorsOf(c, kind, r), Merged(g, c, kind, r, zones);
    assert Family(keyed, kind)[r] == f;
    assert Family(keyed, kind)[r := f.(zone := m)] == Family(c, kind)[r := f.(zone := m)];
    assert Family(c, kind)[r := f.(zone := m)] - {r} == Family(c, kind) - {r};
    if zones.None? {
      assert m == f.zone;
      assert Family(keyed, kind) == Family(c, kind)[r := f];
    }
  }

  lemma SameUnknown(g: Grid, c: Changes, d: Changes, ids: Option<map<int, real>>)
    requires d.newPlant == c.newPlant
    ensures UnknownPlant(g, d, ids) <==> UnknownPlant(g, c, ids)
  {
    hide IsPlant;
    forall k
      ensures IsPlant(g, d, k) <==> IsPlant(g, c, k)
    {
      SamePlant(g, c, d, k);
    }
  }

  lemma Holds(c: Changes, kind: Kind, r: string, f: Factors)
    ensures r in Family(Entered(c, kind, r, f), kind) && Family(Entered(c, kind, r, f), kind)[r] == f
    ensures r !in Family(Popped(c, kind, r), kind)
  {
  }

  /** Exactly when the call raises. */
  lemma RaisesIff(g: Grid, c: Changes, kind: Kind, r: string,
                  zones: Option<map<int, real>>, ids: Option<map<int, real>>, raises: bool)
    ensures FactorsEntered(g, c, kind, r, zones, ids, raises).ok <==>
      && Considered(g, r, zones, ids) && GoodZones(g, zones)
      && (ids.Some? ==> && !raises && !UnknownPlant(g, c, ids) && NonNegative(ids.value)
                        && !NothingLeft(g, c, kind, r, zones))
  {
    hide KnownZone, NonNegative, Populated, IsPlant, Merged, NothingLeft;
    if GoodZones(g, zones) {
      var d := ZonePhase(g, c, kind, r, zones).ct;
      AfterZones(g, c, kind, r, zones);
      SameUnknown(g, c, d, ids);
      Holds(c, kind, r, FactorsOf(c, kind, r).(zone := Merged(g, c, kind, r, zones)));
    }
  }

  lemma PoppedTwice(c: Changes, kind: Kind, r: string, f: Factors)
    ensures Popped(Entered(c, kind, r, f), kind, r) == Popped(c, kind, r)
    ensures Popped(Popped(c, kind, r), kind, r) == Popped(c, kind, r)
    ensures r in Family(c, kind) && f == Family(c, kind)[r] ==> Entered(c, kind, r, f) == c
    ensures r !in Family(c, kind) ==> Popped(c, kind, r) == c
    ensures r in Family(Entered(c, kind, r, f), kind) && r !in Family(Popped(c, kind, r), kind)
  {
    var m := Family(c, kind);
    assert m[r := f] - {r} == m - {r} && m - {r} - {r} == m - {r};
    if r in m && f == m[r] {
      assert m[r := f] == m;
    }
    if r !in m {
      assert m - {r} == m;
    }
  }

  /** What the change table is after a considered call that raised, by the guard of the branch that did. */
  lemma AfterFailure(g: Grid, c: Changes, kind: Kind, r: string,
                     zones: Option<map<int, real>>, ids: Option<map<int, real>>, raises: bool)
    requires Considered(g, r, zones, ids) && !FactorsEntered(g, c, kind, r, zones, ids, raises).ok
    ensures var d, f := FactorsEntered(g, c, kind, r, zones, ids, raises).ct, FactorsOf(c, kind, r);
      && (DropsKey(g, c, kind, r, zones, ids, raises) ==> d == Popped(c, kind, r))
      && (!DropsKey(g, c, kind, r, zones, ids, raises) && !GoodZones(g, zones) ==> d == Entered(c, kind, r, f))
      && (!DropsKey(g, c, kind, r, zones, ids, raises) && GoodZones(g, zones) ==>
            d == Entered(c, kind, r, f.(zone := Merged(g, c, kind, r, zones))))
  {
    hide KnownZone, NonNegative, Populated, IsPlant, Merged, NothingLeft, Entered, Popped;
    PoppedTwice(c, kind, r, FactorsOf(c, kind, r));
    PoppedTwice(c, kind, r, Factors(map[], map[]));
    if GoodZones(g, zones) {
      var f := FactorsOf(c, kind, r).(zone := Merged(g, c, kind, r, zones));
      AfterZones(g, c, kind, r, zones);
      SameUnknown(g, c, ZonePhase(g, c, kind, r, zones).ct, ids);
      PoppedTwice(c, kind, r, f);
    }
  }

  /** A call that raises has lost everything recorded for the resource if and only if it drops the key. */
  lemma FailedCallDropsIff(g: Grid, c: Changes, kind: Kind, r: string,
                           zones: Option<map<int, real>>, ids: Option<map<int, real>>, raises: bool)
    requires Considered(g, r, zones, ids)
    ensures var a := FactorsEntered(g, c, kind, r, zones, ids, raises);
      !a.ok && r !in Family(a.ct, kind) <==> DropsKey(g, c, kind, r, zones, ids, raises)
  {
    hide KnownZone, NonNegative, Populated, IsPlant, Merged, NothingLeft, Entered, Popped, FactorsEntered;
    RaisesIff(g, c, kind, r, zones, ids, raises);
    PoppedTwice(c, kind, r, FactorsOf(c, kind, r));
    PoppedTwice(c, kind, r, FactorsOf(c, kind, r).(zone := Merged(g, c, kind, r, zones)));
    if !FactorsEntered(g, c, kind, r, zones, ids, raises).ok {
      AfterFailure(g, c, kind, r, zones, ids, raises);
    }
  }

  /** A call that returns has lost everything recorded for the resource if and only if no zone factor is left. */
  lemma ReturnedCallDropsIff(g: Grid, c: Changes, kind: Kind, r: string,
                             zones: Option<map<int, real>>, ids: Option<map<int, real>>, raises: bool)
    requires Considered(g, r, zones, ids)
    ensures var a := FactorsEntered(g, c, kind, r, zones, ids, raises);
      a.ok && r !in Family(a.ct, kind) <==> GoodZones(g, zones) && ids.None? && NothingLeft(g, c, kind, r, zones)
  {
    hide KnownZone, NonNegative, Populated, IsPlant, Merged, NothingLeft;
    RaisesIff(g, c, kind, r, zones, ids, raises);
    if GoodZones(g, zones) {
      AfterZones(g, c, kind, r, zones);
      Holds(c, kind, r, FactorsOf(c, kind, r).(zone := Merged(g, c, kind, r, zones)));
    }
  }

  /** `after` holds what `given` says, and elsewhere what `before` said. */
  ghost predicate Overrides(after: map<int, real>, before: map<int, real>, given: Option<map<int, real>>) {
    forall k :: if given.Some? && k in given.value then k in after && after[k] == given.value[k]
                else (k in after <==> k in before) && (k in after ==> after[k] == before[k])
  }

  /** The same for zones, where only those with plants of the resource count. */
  ghost predicate OverridesZones(g: Grid, r: string, after: map<int, real>, before: map<int, real>,
                                 given: Option<map<int, real>>) {
    forall z ::
      if given.Some? && z in given.value && HasPlants(g, r, z) then z in after && after[z] == given.value[z]
      else (z in after <==> z in before) && (z in after ==> after[z] == before[z])
  }

  lemma MergedOverrides(g: Grid, c: Changes, kind: Kind, r: string, zones: Option<map<int, real>>)
    ensures OverridesZones(g, r, Merged(g, c, kind, r, zones), FactorsOf(c, kind, r).zone, zones)
  {
    hide HasPlants;
  }

  /**
   * A call that returns has recorded every given plant factor and every zone factor with plants, keeps
   * the earlier ones it does not name, and leaves all other keys alone; where no zone factor is left the
   * key is gone.
   */
  lemma ReturnedCallRecords(g: Grid, c: Changes, kind: Kind, r: string,
                            zones: Option<map<int, real>>, ids: Option<map<int, real>>, raises: bool)
    requires FactorsEntered(g, c, kind, r, zones, ids, raises).ok
    ensures var d := FactorsEntered(g, c, kind, r, zones, ids, raises).ct;
      && d == WithFamily(c, kind, Family(d, kind)) && Family(d, kind) - {r} == Family(c, kind) - {r}
      && (NothingLeft(g, c, kind, r, zones) ==> r !in Family(d, kind))
      && (!NothingLeft(g, c, kind, r, zones) ==>
            && r in Family(d, kind)
            && Overrides(Family(d, kind)[r].id, FactorsOf(c, kind, r).id, ids)
            && OverridesZones(g, r, Family(d, kind)[r].zone, FactorsOf(c, kind, r).zone, zones))
  {
    hide KnownZone, NonNegative, Populated, IsPlant, Merged, NothingLeft, OverridesZones;
    EntriesSource(g, c, kind, r, zones, ids, raises);
    RaisesIff(g, c, kind, r, zones, ids, raises);
    AfterZones(g, c, kind, r, zones);
    MergedOverrides(g, c, kind, r, zones);
    Holds(c, kind, r, FactorsOf(c, kind, r).(zone := Merged(g, c, kind, r, zones)));
  }

  /**
   * A call that raises leaves the change table as it was if and only if it is rejected at once, or, for a
   * recorded resource, keeps the key and merges no new zone factor, or, for another, drops the key again.
   */
  lemma FailedCallKeepsIff(g: Grid, c: Changes, kind: Kind, r: string,
                           zones: Option<map<int, real>>, ids: Option<map<int, real>>, raises: bool)
    requires !FactorsEntered(g, c, kind, r, zones, ids, raises).ok
    ensures FactorsEntered(g, c, kind, r, zones, ids, raises).ct == c <==>
      || !Considered(g, r, zones, ids)
      || (if r in Family(c, kind)
          then && !DropsKey(g, c, kind, r, zones, ids, raises)
               && (GoodZones(g, zones) ==> Merged(g, c, kind, r, zones) == Family(c, kind)[r].zone)
          else DropsKey(g, c, kind, r, zones, ids, raises))
  {
    hide KnownZone, NonNegative, Populated, IsPlant, Merged, NothingLeft, Entered, Popped, GoodZones, DropsKey;
    if Considered(g, r, zones, ids) {
      hide FactorsEntered;
      var f := FactorsOf(c, kind, r);
      var h := f.(zone := Merged(g, c, kind, r, zones));
      AfterFailure(g, c, kind, r, zones, ids, raises);
      PoppedTwice(c, kind, r, f);
      PoppedTwice(c, kind, r, h);
      Holds(c, kind, r, h);
    }
  }

  lemma KnownPlant(g: Grid, c: Changes, k: int)
    requires k in g.plant.rows
    ensures IsPlant(g, c, k)
  {
  }

  lemma Strangers(g: Grid, c: Changes, kind: Kind, r: string, k: int)
    requires !IsPlant(g, c, k)
    ensures DropsKey(g, c, kind, r, None, Some(map[k := 1.0]), false)
  {
    hide IsPlant;
    assert k in map[k := 1.0];
  }

  lemma OnlyOneKey(kind: Kind, r: string, k: int, f: real)
    ensures Popped(WithFamily(NO_CHANGES, kind, OnePlant(r, k, f)), kind, r) == NO_CHANGES
  {
    assert OnePlant(r, k, f) - {r} == map[];
  }

  /**
   * Two calls that record a factor for a plant and then name an unknown one: the second raises, and the
   * first one's factor is gone.
   */
  lemma FailedCallForgets(g: Grid, geo: Geography, kind: Kind, r: string, k: int, f: real, stranger: int)
    returns (edits: seq<PlantEdit>, states: seq<Changes>)
    requires SameIds(g) && kind != MinGen && r in g.resources.all && k in g.plant.rows && f >= 0.0
    requires !IsPlant(g, NO_CHANGES, stranger)
    ensures edits == [Rescale(kind, r, k, f), Rescale(kind, r, stranger, 1.0)]
    ensures Run(g, geo, edits, states) && Returns(g, geo, states[0], edits[0]) && !Returns(g, geo, states[1], edits[1])
    ensures Family(states[1], kind) == OnePlant(r, k, f) && states[2] == NO_CHANGES
  {
    hide IsPlant, FactorsEntered, PminScaled, DropsKey;
    var c := WithFamily(NO_CHANGES, kind, OnePlant(r, k, f));
    edits, states := [Rescale(kind, r, k, f), Rescale(kind, r, stranger, 1.0)], [NO_CHANGES, c, NO_CHANGES];
    KnownPlant(g, NO_CHANGES, k);
    SetsFactor(g, NO_CHANGES, kind, r, k, f, f);
    var ids := Some(map[stranger := 1.0]);
    assert stranger in ids.value && Considered(g, r, None, ids);
    SamePlant(g, NO_CHANGES, c, stranger);
    Strangers(g, c, kind, r, stranger);
    FailedCallDropsIff(g, c, kind, r, None, ids, false);
    AfterFailure(g, c, kind, r, None, ids, false);
    OnlyOneKey(kind, r, k, f);
  }

  lemma ZoneEnteredOnly(g: Grid, r: string, k: int, z: int, p: real)
    requires r in g.resources.all && p > 0.0
    requires k in g.plant.rows && g.plant.rows[k].resource == r && g.plant.rows[k].zone == z
    ensures FactorsEntered(g, NO_CHANGES, MinGen, r, Some(map[z := p]), Some(map[k := -1.0]), false) ==
      Outcome(false, NO_CHANGES.(pmin := map[r := Factors(map[z := p], map[])]))
  {
    hide FactorsEntered, IsPlant;
    var zones, ids := Some(map[z := p]), Some(map[k := -1.0]);
    assert z in zones.value && k in ids.value;
    assert KnownZone(g, z) && HasPlants(g, r, z);
    assert Populated(g, r, zones.value) == zones.value;
    assert Merged(g, NO_CHANGES, MinGen, r, zones) == zones.value;
    KnownPlant(g, NO_CHANGES, k);
    assert !NonNegative(ids.value);
    RaisesIff(g, NO_CHANGES, MinGen, r, zones, ids, false);
    AfterFailure(g, NO_CHANGES, MinGen, r, zones, ids, false);
  }

  lemma ZoneFactorOf(g: Grid, c: Changes, r: string, k: int, z: int, p: real)
    requires c.pmin == map[r := Factors(map[z := p], map[])] && r in g.resources.all
    requires k in g.plant.rows && g.plant.rows[k].resource == r && g.plant.rows[k].zone == z
    ensures TotalFactor(g, c, MinGen, k) == p
  {
    hide Product;
    ProductOfOnes(IdFactors(c, MinGen, g.resources.all, k));
  }

  lemma NoCapacityFactors(g: Grid, c: Changes, k: int)
    requires c.capacity == map[]
    ensures TotalFactor(g, c, Capacity, k) == 1.0
  {
    hide Product;
    ProductOfOnes(IdFactors(c, Capacity, g.resources.all, k));
  }

  lemma Misfits(g: Grid, c: Changes, k: int, p: real)
    requires k in g.plant.rows && IsPlant(g, c, k) && TotalFactor(g, c, MinGen, k) == p
    requires g.plant.rows[k].pmin * p > g.plant.rows[k].pmax
    ensures !Fits(g, c, k)
  {
    hide TotalFactor;
  }

  /**
   * A single call that raises and leaves Pmin above Pmax: the zone factor is recorded, the negative plant
   * factor raises, and nothing is clipped. This works on every proper grid, for every plant and every
   * zone factor that should have been clipped.
   */
  lemma FailedCallUnclips(g: Grid, geo: Geography, r: string, k: int, z: int, p: real)
    returns (edits: seq<PlantEdit>, states: seq<Changes>)
    requires WellFormed(g) && SameIds(g) && Proper(g.plant) && r in g.resources.all
    requires k in g.plant.rows && g.plant.rows[k].resource == r && g.plant.rows[k].zone == z
    requires g.plant.rows[k].pmin * p > g.plant.rows[k].pmax
    ensures edits == [Scale(MinGen, r, Some(map[z := p]), Some(map[k := -1.0]), false)]
    ensures Run(g, geo, edits, states) && !Returns(g, geo, states[0], edits[0])
    ensures !Proper(Transform(g, states[1], geo).plant)
  {
    hide WellFormed, Transform, TotalFactor, FactorsEntered, Proper, IsPlant, Fits, Start, Defined;
    var zones, ids := Some(map[z := p]), Some(map[k := -1.0]);
    var c := NO_CHANGES.(pmin := map[r := Factors(map[z := p], map[])]);
    edits, states := [Scale(MinGen, r, zones, ids, false)], [NO_CHANGES, c];
    PositiveFactor(g, k, p);
    ZoneEnteredOnly(g, r, k, z, p);
    KnownPlant(g, c, k);
    ZoneFactorOf(g, c, r, k, z, p);
    NoCapacityFactors(g, c, k);
    Misfits(g, c, k, p);
    MisfitShowsAgain(g, geo, c, c, k);
  }
}

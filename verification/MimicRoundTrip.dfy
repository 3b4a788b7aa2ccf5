/** Applying the mimicked change table to the base grid gives the reference capacities back, within the tolerance. */
module MimicRoundTrips {
  import opened Reals
  import opened Tables
  import opened GridModel
  import opened Products
  import opened TransformSpec
  import opened ScalingSteps
  import opened GridTheorems
  import opened PlantEdits
  import opened MimicGrid

  function OrOne(o: Option<real>): real {
    if o.Some? then o.value else 1.0
  }

  function RefPmax(ref: Table<Plant>, k: int): real {
    if k in ref.rows then ref.rows[k].pmax else 0.0
  }

  /** A change table holding only the mimicked factors. */
  function MimicChanges(m: map<string, Factors>): Changes {
    NO_CHANGES.(capacity := m)
  }

  ghost predicate KnownResources(g: Grid) {
    forall k :: k in g.plant.rows ==> g.plant.rows[k].resource in g.resources.all
  }

  /** The total factor of a plant is its zone's entry times its own. */
  lemma MimicFactor(g: Grid, ref: Table<Plant>, eps: real, m: map<string, Factors>, k: int)
    requires Mimics(g.plant, ref, eps, m) && KnownResources(g) && k in g.plant.rows
    ensures var p := g.plant.rows[k];
      TotalFactor(g, MimicChanges(m), Capacity, k) ==
        Times(OrOne(ZoneEntry(g.plant, ref, eps, p.resource, p.zone)), OrOne(PlantEntry(g.plant, ref, eps, k)))
  {
    hide ZoneEntry, PlantEntry, Product, Times;
    var c, p := MimicChanges(m), g.plant.rows[k];
    assert InGroup(g.plant, p.resource, p.zone, k);
    assert GroupExists(g.plant, p.resource, p.zone);
    assert ZoneIn(m, p.resource, p.zone) == ZoneEntry(g.plant, ref, eps, p.resource, p.zone);
    var factors := IdFactors(c, Capacity, g.resources.all, k);
    forall s | s in factors
      ensures factors[s] == OrOne(IdIn(m, s, k))
    {
    }
    assert IdIn(m, p.resource, k) == PlantEntry(g.plant, ref, eps, k);
    ProductSingle(factors, p.resource);
  }

  lemma Nothing(eps: real)
    ensures Times(0.0, 1.0) == 0.0 && Times(eps, 0.0) == 0.0
  {
  }

  lemma DividedBy(s: real, zone: Option<real>)
    requires OrOne(zone) > 0.0
    ensures s > 0.0 ==> Divided(s, zone) == s / OrOne(zone)
    ensures s <= 0.0 ==> Divided(s, zone) == s
  {
  }

  lemma Exact(s: real, zone: real, x: real)
    requires s >= 0.0 && zone > 0.0 && x == if s > 0.0 then s / zone else s
    ensures Times(zone, x) == s && Times(zone, 1.0) == zone
  {
  }

  lemma Near(x: real, eps: real, zone: real)
    requires zone > 0.0 && eps >= 0.0
    ensures Times(eps, zone) >= 0.0
    ensures Abs(x - 1.0) <= eps ==> Abs(zone - Times(zone, x)) <= Times(eps, zone)
  {
  }

  lemma Reproduce(s: real, zone: real, eps: real, x: real)
    requires s >= 0.0 && zone > 0.0 && 0.0 <= eps < 1.0
    requires x == if s > 0.0 then s / zone else s
    ensures s == 0.0 ==> !(Abs(x - 1.0) <= eps)
    ensures Times(zone, x) == s && Times(zone, 1.0) == zone && 0.0 <= Times(eps, zone)
    ensures Abs(x - 1.0) <= eps ==> Abs(zone - s) <= Times(eps, zone)
  {
    hide Times;
    Exact(s, zone, x);
    Near(x, eps, zone);
  }

  /** Zone and plant factor together reproduce the scaling up to the tolerance, and exactly where it vanishes. */
  lemma EntriesReproduce(base: Table<Plant>, ref: Table<Plant>, eps: real, k: int)
    requires k in base.rows && k in base.ids && 0.0 <= eps < 1.0
    requires NonNegativeCapacity(base) && NonNegativeCapacity(ref)
    ensures var p, s := base.rows[k], Scaling(base, ref, k);
      var zone, plant := ZoneEntry(base, ref, eps, p.resource, p.zone), PlantEntry(base, ref, eps, k);
      && OrOne(zone) >= 0.0
      && Abs(Times(OrOne(zone), OrOne(plant)) - s) <= Times(eps, OrOne(zone))
      && (s == 0.0 || plant.Some? ==> Times(OrOne(zone), OrOne(plant)) == s)
  {
    hide Scaling, ZoneEntry, Times, Median;
    var p, s := base.rows[k], Scaling(base, ref, k);
    ScalingSign(base, ref, k);
    GroupEntry(base, ref, eps, p.resource, p.zone);
    if Positives(base, ref, base.ids, p.resource, p.zone) == [] {
      assert InGroup(base, p.resource, p.zone, k);
      assert s == 0.0;
      Nothing(eps);
    } else {
      var zone := ZoneEntry(base, ref, eps, p.resource, p.zone);
      DividedBy(s, zone);
      Reproduce(s, OrOne(zone), eps, Divided(s, zone));
    }
  }

  /** Multiplying an approximation by the base capacity. */
  lemma Magnify(b: real, total: real, s: real, eps: real, zone: real, p: real)
    requires b >= 0.0 && Abs(total - s) <= Times(eps, zone) && p == Times(b, s)
    ensures Abs(b * total - p) <= eps * zone * b
    ensures total == s ==> b * total == p
    ensures b == 0.0 ==> b * total == 0.0
    ensures p == 0.0 && b != 0.0 ==> s == 0.0
  {
  }

  lemma RefIsScaling(base: Table<Plant>, ref: Table<Plant>, k: int)
    requires k in base.rows && (k in ref.rows ==> Reachable(base, ref, k))
    ensures RefPmax(ref, k) == Times(base.rows[k].pmax, Scaling(base, ref, k))
  {
  }

  /**
   * Mimic round trip: the transform of the base grid by the mimicked factors is defined, gives every
   * plant a capacity within eps times its zone factor (1 if none) times its base capacity of the
   * reference, and exactly the reference where that is 0 or where the plant got a factor of its own.
   */
  lemma MimicRoundTrip(g: Grid, ref: Table<Plant>, eps: real, m: map<string, Factors>, geo: Geography, k: int)
    requires WellFormed(g) && SameIds(g) && KnownResources(g) && k in g.plant.rows
    requires NonNegativeCapacity(g.plant) && NonNegativeCapacity(ref) && 0.0 <= eps < 1.0
    requires forall j :: j in ref.rows ==> Reachable(g.plant, ref, j)
    requires Mimics(g.plant, ref, eps, m)
    ensures var t, p := Transform(g, MimicChanges(m), geo), g.plant.rows[k];
      && SameIds(t) && k in t.plant.rows
      && Abs(t.plant.rows[k].pmax - RefPmax(ref, k)) <= eps * OrOne(ZoneIn(m, p.resource, p.zone)) * p.pmax
      && (RefPmax(ref, k) == 0.0 || IdIn(m, p.resource, k).Some? ==> t.plant.rows[k].pmax == RefPmax(ref, k))
  {
    hide WellFormed, Transform, Scaling, ZoneEntry, PlantEntry, TotalFactor, Times;
    var c, p, s := MimicChanges(m), g.plant.rows[k], Scaling(g.plant, ref, k);
    PlantLimits(g, c, geo, k);
    MimicFactor(g, ref, eps, m, k);
    assert k in g.plant.ids by {
      WellFormedPlants(g);
    }
    EntriesReproduce(g.plant, ref, eps, k);
    RefIsScaling(g.plant, ref, k);
    var zone, plant := ZoneEntry(g.plant, ref, eps, p.resource, p.zone), PlantEntry(g.plant, ref, eps, k);
    assert InGroup(g.plant, p.resource, p.zone, k);
    assert ZoneIn(m, p.resource, p.zone) == zone && IdIn(m, p.resource, k) == plant;
    Magnify(p.pmax, Times(OrOne(zone), OrOne(plant)), s, eps, OrOne(zone), RefPmax(ref, k));
  }

  /** The mimicked change table never makes the transform fail. */
  lemma MimicIsDefined(g: Grid, ref: Table<Plant>, eps: real, m: map<string, Factors>, geo: Geography)
    requires WellFormed(g) && SameIds(g) && Mimics(g.plant, ref, eps, m)
    ensures Defined(g, MimicChanges(m), geo)
  {
    hide WellFormed, ByZone, Added, ZoneEntry, PlantEntry;
    var c := MimicChanges(m);
    var z := ByZone(g, c);
    forall r, i | r in m && i in m[r].zone
      ensures HasPlants(g, r, i)
    {
      assert ZoneIn(m, r, i).Some?;
      var k :| k in g.plant.rows && InGroup(g.plant, r, i, k);
    }
    PlantKeys(g, c, geo);
    forall r, k | r in m && k in m[r].id
      ensures k in Added(z, c, geo).plant.rows
    {
      assert IdIn(m, r, k).Some?;
    }
  }
}

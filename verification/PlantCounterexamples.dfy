/** Runs of accepted plant edits after which the transformed grid or its profiles are not what one would expect. */
module PlantCounterexamples {
  import opened Reals
  import opened Tables
  import opened GridModel
  import opened Products
  import opened TransformSpec
  import opened ScalingSteps
  import opened GridTheorems
  import opened NetworkSpec
  import opened PlantEdits
  import opened PlantRuns
  import opened TransformProfiles
  import PA = ProfileAgreement

  /** Factors of one resource by plant id. */
  function OnePlant(r: string, k: int, f: real): map<string, Factors> {
    map[r := Factors(map[], map[k := f])]
  }

  function Rescale(kind: Kind, r: string, k: int, f: real): PlantEdit {
    Scale(kind, r, None, Some(map[k := f]), false)
  }

  /** Setting one plant's factor where the resource has no other. */
  lemma SetsFactor(g: Grid, c: Changes, kind: Kind, r: string, k: int, f: real, was: real)
    requires r in g.resources.all && IsPlant(g, c, k) && f >= 0.0
    requires Family(c, kind) == map[] || Family(c, kind) == OnePlant(r, k, was)
    ensures FactorsEntered(g, c, kind, r, None, Some(map[k := f]), false) ==
      Outcome(true, WithFamily(c, kind, OnePlant(r, k, f)))
  {
    hide IsPlant;
    var m := map[k := f];
    assert k in m && Given(Some(m));
    var a := ZonePhase(g, c, kind, r, None).ct;
    assert r in Family(a, kind) && Family(a, kind)[r].zone == map[];
    SamePlant(g, c, a, k);
    assert Family(a, kind)[r].id + m == m;
    assert Family(a, kind)[r := Factors(map[], m)] == OnePlant(r, k, f);
  }

  lemma OneFactor(g: Grid, c: Changes, kind: Kind, r: string, k: int, f: real, j: int)
    requires r in g.resources.all && Family(c, kind) == OnePlant(r, k, f)
    ensures TotalFactor(g, c, kind, j) == if j == k then f else 1.0
  {
    hide Product, Times;
    var m := IdFactors(c, kind, g.resources.all, j);
    ProductSingle(m, r);
    assert ZoneShare(g, c, kind, j) == 1.0;
    OneTimes(m[r]);
  }

  /** A change table that only holds plant factors by id of base plants never fails. */
  lemma IdFactorsAreDefined(g: Grid, c: Changes, geo: Geography)
    requires WellFormed(g) && SameIds(g) && c == NO_CHANGES.(capacity := c.capacity, pmin := c.pmin)
    requires forall r :: r in c.capacity ==> c.capacity[r].zone == map[] && c.capacity[r].id.Keys <= g.plant.rows.Keys
    requires forall r :: r in c.pmin ==> c.pmin[r].zone == map[] && c.pmin[r].id.Keys <= g.plant.rows.Keys
    ensures Defined(g, c, geo)
  {
    hide WellFormed, ByZone, Added;
    PlantKeys(g, c, geo);
    var a := Added(ByZone(g, c), c, geo);
    forall r, k | r in c.capacity && k in c.capacity[r].id
      ensures k in a.plant.rows
    {
      assert k in c.capacity[r].id.Keys;
    }
    forall r, k | r in c.pmin && k in c.pmin[r].id
      ensures k in a.plant.rows
    {
      assert k in c.pmin[r].id.Keys;
    }
  }

  lemma Untouched(p: Plant, s: Span, cap: real, share: real)
    requires 0.0 <= s.low <= s.high && (cap == 0.0 || (cap == 1.0 && share == 1.0))
    requires p.pmax == s.high * cap && p.pmin == s.low * cap * share
    ensures !TooHigh(p)
  {
  }

  /** With plant `k` scaled to nothing, no plant of a proper grid is clipped, whatever factor `k` gets. */
  lemma NothingToClip(g: Grid, c: Changes, geo: Geography, r: string, k: int, p: real)
    requires WellFormed(g) && SameIds(g) && Proper(g.plant) && r in g.resources.all && k in g.plant.rows
    requires c == NO_CHANGES.(capacity := OnePlant(r, k, 0.0), pmin := OnePlant(r, k, p))
    ensures Corrections(Transform(g, c, geo).plant) == map[]
  {
    hide WellFormed, Transform, TotalFactor;
    PlantIds(g, c, geo);
    var t := Transform(g, c, geo).plant;
    forall j | j in t.rows
      ensures !TooHigh(t.rows[j])
    {
      assert IsPlant(g, c, j);
      PlantLimits(g, c, geo, j);
      OneFactor(g, c, Capacity, r, k, 0.0, j);
      OneFactor(g, c, MinGen, r, k, p, j);
      Untouched(t.rows[j], Start(g, c, j), if j == k then 0.0 else 1.0, if j == k then p else 1.0);
    }
  }

  lemma PositiveFactor(g: Grid, k: int, p: real)
    requires Proper(g.plant) && k in g.plant.rows && g.plant.rows[k].pmin * p > g.plant.rows[k].pmax
    ensures p > 0.0
  {
  }

  /**
   * Scaling a plant to zero, raising its minimum generation and restoring its capacity: three calls that
   * all succeed, after which Pmin exceeds Pmax. This works on every proper grid, for every plant and every
   * factor that should have been clipped.
   */
  lemma ZeroCapacityDefeatsClipping(g: Grid, geo: Geography, r: string, k: int, p: real)
    returns (edits: seq<PlantEdit>, states: seq<Changes>)
    requires WellFormed(g) && SameIds(g) && Proper(g.plant) && r in g.resources.all && k in g.plant.rows
    requires g.plant.rows[k].pmin * p > g.plant.rows[k].pmax
    ensures edits == [Rescale(Capacity, r, k, 0.0), Rescale(MinGen, r, k, p), Rescale(Capacity, r, k, 1.0)]
    ensures Run(g, geo, edits, states) && forall i :: 0 <= i < 3 ==> Returns(g, geo, states[i], edits[i])
    ensures !Proper(Transform(g, states[3], geo).plant)
  {
    hide WellFormed, Transform, Defined, TotalFactor, FactorsEntered, Corrections, Proper;
    var c0, c1 := NO_CHANGES, NO_CHANGES.(capacity := OnePlant(r, k, 0.0));
    var c2 := c1.(pmin := OnePlant(r, k, p));
    var c3 := c2.(capacity := OnePlant(r, k, 1.0));
    edits := [Rescale(Capacity, r, k, 0.0), Rescale(MinGen, r, k, p), Rescale(Capacity, r, k, 1.0)];
    states := [c0, c1, c2, c3];
    PositiveFactor(g, k, p);
    SetsFactor(g, c0, Capacity, r, k, 0.0, 0.0);
    SetsFactor(g, c1, MinGen, r, k, p, 0.0);
    SetsFactor(g, c2, Capacity, r, k, 1.0, 0.0);
    IdFactorsAreDefined(g, c2, geo);
    NothingToClip(g, c2, geo, r, k, p);
    assert PminScaled(g, geo, c1, r, None, Some(map[k := p]), false) == Outcome(true, c2);
    OneFactor(g, c3, Capacity, r, k, 1.0, k);
    OneFactor(g, c3, MinGen, r, k, p, k);
    MisfitShowsAgain(g, geo, c3, c3, k);
  }

  lemma Doubled(column: seq<real>, h: nat, x: real)
    requires h < |column| && column[h] != 0.0 && x > 0.0
    ensures ScaledColumn(column, x) != ScaledColumn(column, x * 2.0)
  {
    var y := column[h] * x;
    assert y != 0.0;
    assert ScaledColumn(column, x)[h] == y && ScaledColumn(column, x * 2.0)[h] == y * 2.0;
  }

  /**
   * Adding a plant and doubling its capacity: two calls that succeed, after which the plant's column of
   * the computed profile is not its neighbour's raw column times its Pmax in the grid. This works for
   * every accepted entry with a profile and a positive Pmax, and any neighbour that produces at all.
   */
  lemma ScalingMissesNewProfile(g: Grid, geo: Geography, r: string, e: NewPlant, types: set<string>,
                                raw: map<int, seq<real>>, h: nat)
    returns (edits: seq<PlantEdit>, states: seq<Changes>, k: int)
    requires WellFormed(g) && SameIds(g) && r in g.resources.all && GoodPlant(g, g.bus, e) && e.pmax > 0.0
    requires e.resource in types && types <= g.resources.profile
    requires forall j :: j in g.plant.rows && g.plant.rows[j].resource in types ==> j in raw
    requires e.neighbor.Some? && e.neighbor.value in raw
    requires h < |raw[e.neighbor.value]| && raw[e.neighbor.value][h] != 0.0
    ensures k == g.plant.NextId() && edits == [AddPlants([e]), Rescale(Capacity, r, k, 2.0)]
    ensures Run(g, geo, edits, states) && forall i :: 0 <= i < 2 ==> Returns(g, geo, states[i], edits[i])
    ensures var t := Transform(g, states[2], geo).plant;
      && k in t.rows && |t.ids| > 0
      && forall p :: IsProfile(t, [e], types, raw, p) ==>
           p.Some? && k in p.value.data && p.value.data[k] != ScaledColumn(raw[e.neighbor.value], t.rows[k].pmax)
  {
    hide WellFormed, Transform, TotalFactor, FactorsEntered, Table.NextId, ScaledColumn, IsProfile, OfTypes, BusTable;
    k := g.plant.NextId();
    var c0, c1 := NO_CHANGES, NO_CHANGES.(newPlant := Some([e]));
    var c2 := c1.(capacity := OnePlant(r, k, 2.0));
    edits, states := [AddPlants([e]), Rescale(Capacity, r, k, 2.0)], [c0, c1, c2];
    NoBusChanges(g, NO_CHANGES);
    assert [] + [e] == [e];
    SetsFactor(g, c1, Capacity, r, k, 2.0, 0.0);
    NewIdIsFresh(g, 0);
    PlantLimits(g, c2, geo, k);
    OneFactor(g, c2, Capacity, r, k, 2.0, k);
    PA.NewIdIsAssigned(g, c2, geo);
    var t, column := Transform(g, c2, geo).plant, raw[e.neighbor.value];
    Doubled(column, h, e.pmax);
    forall p | IsProfile(t, [e], types, raw, p)
      ensures p.Some? && k in p.value.data && p.value.data[k] != ScaledColumn(column, t.rows[k].pmax)
    {
      PA.ProfileAgrees(g, c2, geo, types, raw, p);
      assert PA.EntryColumn(g, [e], raw, p.value, 0);
    }
  }
}

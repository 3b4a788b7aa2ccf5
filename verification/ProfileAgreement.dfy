/** The profile's columns and the grid's plants agree. */
module ProfileAgreement {
  import opened Reals
  import opened Tables
  import opened GridModel
  import opened TransformSpec
  import opened GridTheorems
  import opened PlantEdits
  import PR = PlantRuns
  import opened TransformProfiles

  lemma SameIndexValid(t: Table<Plant>, u: Table<Plant>)
    requires t.Valid() && u.ids == t.ids && u.rows.Keys == t.rows.Keys
    ensures u.Valid()
  {
    forall k
      ensures k in u.ids <==> k in u.rows
    {
      assert k in u.rows.Keys <==> k in t.rows.Keys;
    }
  }

  /** The new part of the transformed index, seen from its end, is the list of assigned ids. */
  lemma NewIdIsAssigned(g: Grid, ct: Changes, geo: Geography)
    requires WellFormed(g) && SameIds(g)
    ensures var t, n := Transform(g, ct, geo).plant, |OrEmpty(ct.newPlant)|;
      && n <= |t.ids| && t.Valid() && OldIds(t, n) == g.plant.ids
      && (forall i :: 0 <= i < n ==> NewId(t, n, i) == g.plant.NextId() + i)
  {
    hide WellFormed, Transform, ByZone, Added, Table.NextId, Table.Valid;
    PlantKeys(g, ct, geo);
    TransformedKeys(g, ct, geo);
    SameIndexValid(Added(ByZone(g, ct), ct, geo).plant, Transform(g, ct, geo).plant);
  }

  lemma TransformedTypes(g: Grid, ct: Changes, geo: Geography, k: int)
    requires WellFormed(g) && SameIds(g) && IsPlant(g, ct, k)
    ensures var t := Transform(g, ct, geo);
      && SameIds(t) && k in t.plant.rows
      && t.plant.rows[k].resource ==
           (if k in g.plant.rows then g.plant.rows[k].resource else OrEmpty(ct.newPlant)[k - g.plant.NextId()].resource)
  {
    hide WellFormed, Transform, Table.NextId, EntryUnit, FullMultiplier, IdMultiplier;
    if k in g.plant.rows {
      ScalingClosedForm(g, ct, geo, k);
    } else {
      var i := k - g.plant.NextId();
      NewPlantClosedForm(g, ct, geo, i, k);
      EntryLimits(g, ct, geo, OrEmpty(ct.newPlant)[i]);
    }
  }

  /** Picking the new ids by entry type or by plant type is the same. */
  lemma {:induction false} NewIdsAreOfTypes(t: Table<Plant>, n: nat, es: seq<NewPlant>, types: set<string>)
    requires |es| <= n <= |t.ids|
    requires forall i :: 0 <= i < |es| ==> NewId(t, n, i) in t.rows && t.rows[NewId(t, n, i)].resource == es[i].resource
    ensures NewIds(t, n, es, types) == OfTypes(t, t.ids[|t.ids| - n..][..|es|], types)
  {
    if es != [] {
      var last, tail := |es| - 1, t.ids[|t.ids| - n..];
      NewIdsAreOfTypes(t, n, es[..last], types);
      assert tail[..|es|] == tail[..last] + [NewId(t, n, last)];
      OfTypesNext(t, tail[..last], NewId(t, n, last), types);
    }
  }

  /** What the checks on new plants guarantee: the profile to borrow belongs to a base plant of the same type. */
  ghost predicate Neighborly(g: Grid, ct: Changes, types: set<string>) {
    forall e :: e in OrEmpty(ct.newPlant) && e.resource in types ==>
      e.neighbor.Some? && e.neighbor.value in g.plant.rows && g.plant.rows[e.neighbor.value].resource in types
  }

  /** After every run of successful plant edits it holds. */
  lemma RunIsNeighborly(g: Grid, geo: Geography, edits: seq<PR.PlantEdit>, states: seq<Changes>, i: nat,
                        types: set<string>)
    requires SameIds(g) && types <= g.resources.profile && PR.Run(g, geo, edits, states) && i < |states|
    ensures Neighborly(g, states[i], types)
  {
    hide PR.Run;
    PR.RunBorrows(g, geo, edits, states, i);
  }

  lemma PlantIndex(t: Table<Plant>)
    requires t.Valid()
    ensures forall k :: k in t.ids <==> k in t.rows
  {
  }

  lemma {:induction false} SameTypes(t: Table<Plant>, u: Table<Plant>, ids: seq<int>, types: set<string>)
    requires forall k :: k in ids ==> k in t.rows && k in u.rows && u.rows[k].resource == t.rows[k].resource
    ensures OfTypes(t, ids, types) == OfTypes(u, ids, types)
  {
    if ids != [] {
      var k := ids[0];
      assert k in ids;
      SameTypes(t, u, ids[1..], types);
      assert k in t.rows && t.rows[k].resource in types <==> k in u.rows && u.rows[k].resource in types;
    }
  }

  lemma OldColumns(g: Grid, ct: Changes, geo: Geography, types: set<string>)
    requires WellFormed(g) && SameIds(g)
    ensures OfTypes(Transform(g, ct, geo).plant, g.plant.ids, types) == OfTypes(g.plant, g.plant.ids, types)
  {
    hide WellFormed, Transform, Table.NextId, Table.Valid, OfTypes;
    WellFormedPlants(g);
    PlantIndex(g.plant);
    var t := Transform(g, ct, geo).plant;
    forall k | k in g.plant.ids
      ensures k in t.rows && t.rows[k].resource == g.plant.rows[k].resource
    {
      TransformedTypes(g, ct, geo, k);
    }
    SameTypes(g.plant, t, g.plant.ids, types);
  }

  lemma NewColumns(g: Grid, ct: Changes, geo: Geography, types: set<string>)
    requires WellFormed(g) && SameIds(g)
    ensures var t, es := Transform(g, ct, geo).plant, OrEmpty(ct.newPlant);
      |es| <= |t.ids| && NewIds(t, |es|, es, types) == OfTypes(t, t.ids[|t.ids| - |es|..], types)
  {
    hide WellFormed, Transform, Table.NextId, Table.Valid, OfTypes, NewIds;
    var t, es := Transform(g, ct, geo).plant, OrEmpty(ct.newPlant);
    var n := |es|;
    NewIdIsAssigned(g, ct, geo);
    forall i | 0 <= i < n
      ensures NewId(t, n, i) in t.rows && t.rows[NewId(t, n, i)].resource == es[i].resource
    {
      NewIdIsFresh(g, i);
      TransformedTypes(g, ct, geo, NewId(t, n, i));
    }
    NewIdsAreOfTypes(t, n, es, types);
    assert t.ids[|t.ids| - n..][..n] == t.ids[|t.ids| - n..];
  }

  lemma InIndex(t: Table<Plant>, k: int)
    requires t.Valid() && k in t.rows
    ensures k in t.ids
  {
  }

  /** No column is missing, and the columns are exactly the plants of the group in index order. */
  lemma ColumnsAgree(g: Grid, ct: Changes, geo: Geography, types: set<string>, raw: map<int, seq<real>>)
    requires WellFormed(g) && SameIds(g) && Neighborly(g, ct, types)
    requires forall k :: k in g.plant.rows && g.plant.rows[k].resource in types ==> k in raw
    ensures var t, es := Transform(g, ct, geo).plant, OrEmpty(ct.newPlant);
      && t.Valid() && |es| <= |t.ids|
      && var olds := OfTypes(t, OldIds(t, |es|), types);
      && (forall k :: k in olds ==> k in raw)
      && (forall i :: 0 <= i < |es| && es[i].resource in types ==> HasNeighbor(es[i], olds))
      && olds == OfTypes(g.plant, g.plant.ids, types)
      && olds + NewIds(t, |es|, es, types) == OfTypes(t, t.ids, types)
  {
    hide WellFormed, Transform, Table.NextId, Table.Valid, OfTypes, NewIds;
    var t, es := Transform(g, ct, geo).plant, OrEmpty(ct.newPlant);
    var n := |es|;
    NewIdIsAssigned(g, ct, geo);
    OldColumns(g, ct, geo, types);
    NewColumns(g, ct, geo, types);
    assert t.ids == OldIds(t, n) + t.ids[|t.ids| - n..];
    OfTypesConcat(t, OldIds(t, n), t.ids[|t.ids| - n..], types);
    WellFormedPlants(g);
    PlantIndex(g.plant);
    forall i | 0 <= i < |es| && es[i].resource in types
      ensures HasNeighbor(es[i], OfTypes(g.plant, g.plant.ids, types))
    {
      var e := es[i];
      assert e in OrEmpty(ct.newPlant);
      assert e.neighbor.Some? && e.neighbor.value in g.plant.rows;
      InIndex(g.plant, e.neighbor.value);
    }
  }

  /** The plant of the i-th entry, if its type is in the group, has its neighbour's raw column times its own Pmax. */
  ghost predicate EntryColumn(g: Grid, es: seq<NewPlant>, raw: map<int, seq<real>>, p: Profile, i: nat)
    requires i < |es|
  {
    var k := g.plant.NextId() + i;
    && k in p.data && es[i].neighbor.Some? && es[i].neighbor.value in raw
    && p.data[k] == ScaledColumn(raw[es[i].neighbor.value], es[i].pmax)
  }

  /**
   * Profile and grid agreement: what is computed for the transformed grid and any accepted list of new
   * plants exists, its columns are exactly the plants of the group in index order, each old column is
   * the raw one times the transformed Pmax, and each new column is its own entry's neighbour's
   * raw column times its own entry's Pmax.
   */
  lemma ProfileAgrees(g: Grid, ct: Changes, geo: Geography, types: set<string>, raw: map<int, seq<real>>,
                      r: Option<Profile>)
    requires WellFormed(g) && SameIds(g) && Neighborly(g, ct, types)
    requires forall k :: k in g.plant.rows && g.plant.rows[k].resource in types ==> k in raw
    requires var t, es := Transform(g, ct, geo).plant, OrEmpty(ct.newPlant);
      |es| <= |t.ids| && IsProfile(t, es, types, raw, r)
    ensures var t, es := Transform(g, ct, geo).plant, OrEmpty(ct.newPlant);
      && r.Some? && r.value.columns == OfTypes(t, t.ids, types)
      && (forall k :: k in g.plant.rows && g.plant.rows[k].resource in types ==>
            k in r.value.data && k in t.rows && r.value.data[k] == ScaledColumn(raw[k], t.rows[k].pmax))
      && (forall i :: 0 <= i < |es| && es[i].resource in types ==> EntryColumn(g, es, raw, r.value, i))
  {
    hide WellFormed, Transform, Table.NextId, Table.Valid, OfTypes, NewIds, ScaledColumn;
    ColumnsAgree(g, ct, geo, types, raw);
    NewIdIsAssigned(g, ct, geo);
    var t, es := Transform(g, ct, geo).plant, OrEmpty(ct.newPlant);
    forall k | k in g.plant.rows && g.plant.rows[k].resource in types
      ensures k in OfTypes(g.plant, g.plant.ids, types) && k in t.rows
    {
      WellFormedPlants(g);
      InIndex(g.plant, k);
      TransformedTypes(g, ct, geo, k);
    }
    forall i | 0 <= i < |es| && es[i].resource in types
      ensures EntryColumn(g, es, raw, r.value, i)
    {
      assert Borrowed(t, es, raw, r.value, i);
    }
  }

  lemma Unchanged(x: real, f: real)
    ensures x * f == x <==> x == 0.0 || f == 1.0
  {
    assert x * f - x == x * (f - 1.0);
  }

  lemma SameColumns(x: real, y: real)
    ensures (forall raw :: ScaledColumn(raw, x) == ScaledColumn(raw, y)) <==> x == y
  {
    if x != y {
      assert ScaledColumn([1.0], x)[0] == x && ScaledColumn([1.0], y)[0] == y;
    }
  }

  /**
   * A new column follows its entry and not the grid: it is the raw profile times the transformed Pmax
   * for every raw profile exactly if no capacity factor was recorded on the new plant or its Pmax is 0.
   */
  lemma NewColumnFollowsEntry(g: Grid, ct: Changes, geo: Geography, i: nat, k: int)
    requires WellFormed(g) && SameIds(g) && i < |OrEmpty(ct.newPlant)| && k == g.plant.NextId() + i
    ensures k in Transform(g, ct, geo).plant.rows
    ensures var e, pmax := OrEmpty(ct.newPlant)[i], Transform(g, ct, geo).plant.rows[k].pmax;
      (forall raw :: ScaledColumn(raw, e.pmax) == ScaledColumn(raw, pmax)) <==>
      e.pmax == 0.0 || TotalFactor(g, ct, Capacity, k) == 1.0
  {
    hide WellFormed, Transform, Table.NextId, TotalFactor, ScaledColumn;
    NewIdIsFresh(g, i);
    PlantLimits(g, ct, geo, k);
    var e, f := OrEmpty(ct.newPlant)[i], TotalFactor(g, ct, Capacity, k);
    var pmax := Transform(g, ct, geo).plant.rows[k].pmax;
    assert pmax == e.pmax * f;
    SameColumns(e.pmax, pmax);
    Unchanged(e.pmax, f);
  }
}

/** Facts about the added rows, used by the loops of the transform and by the theorems about them. */
module Additions {
  import opened Reals
  import opened Tables
  import opened GridModel
  import opened TransformSpec
  import opened ScalingSteps

  /** `u` holds different contents under the same index. */
  ghost predicate OnlyRows<R>(t: Table<R>, u: Table<R>) {
    u.ids == t.ids && u.rows.Keys == t.rows.Keys
  }

  lemma RowsDetermine<R>(t: Table<R>, u: Table<R>, rows: map<int, R>)
    requires OnlyRows(t, u) && rows.Keys == t.rows.Keys && forall k :: k in rows ==> u.rows[k] == rows[k]
    ensures u == Table(t.ids, rows)
  {
    assert u.rows.Keys == rows.Keys;
    assert forall k :: k in u.rows ==> k in rows && u.rows[k] == rows[k];
    assert u.rows == rows;
  }

  lemma OnlyRowsValid<R, S>(t: Table<R>, u: Table<S>)
    requires t.Valid() && u.ids == t.ids && u.rows.Keys == t.rows.Keys
    ensures u.Valid() && u.NextId() == t.NextId()
  {
  }

  /** Looking up a substation is not disturbed by one appended elsewhere. */
  lemma {:induction false} SubAtPut(t: Table<Substation>, ids: seq<int>, id: int, s: Substation, lat: real, lon: real)
    requires id !in ids && id !in t.rows
    ensures SubAt(t.Put(id, s), ids + [id], lat, lon) ==
      if SubAt(t, ids, lat, lon).Some? then SubAt(t, ids, lat, lon)
      else if s.lat == lat && s.lon == lon then Some(id) else None
  {
    if ids == [] {
      assert ids + [id] == [id];
      assert [id][1..] == [];
    } else {
      assert (ids + [id])[1..] == ids[1..] + [id];
      SubAtPut(t, ids[1..], id, s, lat, lon);
    }
  }

  lemma {:induction false} AddBusesBus(g: Grid, es: seq<NewBus>)
    ensures AddBuses(g, es).bus == g.bus.AppendAll(NewBusRows(g.bus, es))
  {
    hide NewBusRow, Table.AppendAll;
    if es == [] {
      AppendNone(g.bus);
    } else {
      var front, e := es[..|es| - 1], es[|es| - 1];
      AddBusesBus(g, front);
      AppendStep(g.bus, NewBusRows(g.bus, front), NewBusRow(g.bus, e));
      assert NewBusRows(g.bus, front) + [NewBusRow(g.bus, e)] == NewBusRows(g.bus, es);
    }
  }

  lemma PlacedTables(g: Grid, id: int, e: NewBus, interconnect: string)
    requires g.bus2sub.Valid() && g.sub.Valid() && g.sub.ids != [] && id == g.bus.NextId()
    requires g.bus.ids == g.bus2sub.ids
    ensures var h := Placed(g, id, e, interconnect);
      h.bus2sub.Valid() && h.sub.Valid() && h.sub.ids != [] && h.bus2sub.ids == g.bus.ids + [id] && h.bus == g.bus
  {
  }

  /**
   * The tables after adding buses: the i-th new bus gets the i-th id after the last, bus and bus2sub
   * keep equal ids, and the substation table stays valid.
   */
  lemma {:induction false} AddBusesTables(g: Grid, es: seq<NewBus>)
    requires WellFormed(g)
    ensures var h := AddBuses(g, es);
      && h.bus == g.bus.AppendAll(NewBusRows(g.bus, es))
      && h.bus.Valid() && h.bus2sub.Valid() && h.sub.Valid()
      && h.bus.ids == h.bus2sub.ids && h.bus.ids != [] && h.sub.ids != []
      && h.bus.NextId() == g.bus.NextId() + |es|
  {
    hide Placed, Table.Valid, NewBusRow, NewBusRows;
    AddBusesBus(g, es);
    AppendRows(g.bus, NewBusRows(g.bus, es));
    AppendIds(g.bus, NewBusRows(g.bus, es));
    if es != [] {
      var front, e := es[..|es| - 1], es[|es| - 1];
      AddBusesTables(g, front);
      AddBusesBus(g, front);
      var id := g.bus.NextId() + |front|;
      PlacedTables(AddBuses(g, front), id, e, InterconnectOf(g.bus, e.zone));
    }
  }

  ghost predicate PlacesOf(m: map<(real, real), int>, t: Table<Substation>) {
    forall lat, lon :: ((lat, lon) in m <==> SubAt(t, t.ids, lat, lon).Some?)
                       && ((lat, lon) in m ==> SubAt(t, t.ids, lat, lon) == Some(m[(lat, lon)]))
  }

  /** Coordinates to the first substation there (`sub.groupby(["lat", "lon"])`). */
  function Places(t: Table<Substation>): (m: map<(real, real), int>)
    ensures PlacesOf(m, t)
  {
    var coordinates := set k | k in t.ids && k in t.rows :: (t.rows[k].lat, t.rows[k].lon);
    var m := map c | c in coordinates && SubAt(t, t.ids, c.0, c.1).Some? :: SubAt(t, t.ids, c.0, c.1).value;
    assert forall lat, lon :: SubAt(t, t.ids, lat, lon).Some? ==> (lat, lon) in coordinates by {
      forall lat, lon | SubAt(t, t.ids, lat, lon).Some?
        ensures (lat, lon) in coordinates
      {
        var k := SubAt(t, t.ids, lat, lon).value;
        assert (t.rows[k].lat, t.rows[k].lon) in coordinates;
      }
    }
    m
  }

  lemma PlacesGrow(m: map<(real, real), int>, t: Table<Substation>, id: int, s: Substation)
    requires t.Valid() && PlacesOf(m, t) && id == t.NextId() && (s.lat, s.lon) !in m
    ensures PlacesOf(m[(s.lat, s.lon) := id], t.Put(id, s))
  {
    OldIdsAreSmaller(t);
    var n, u := m[(s.lat, s.lon) := id], t.Put(id, s);
    forall lat, lon
      ensures ((lat, lon) in n <==> SubAt(u, u.ids, lat, lon).Some?)
              && ((lat, lon) in n ==> SubAt(u, u.ids, lat, lon) == Some(n[(lat, lon)]))
    {
      SubAtPut(t, t.ids, id, s, lat, lon);
    }
  }

  lemma AddNoBuses(g: Grid)
    ensures AddBuses(g, []) == g
  {
  }

  lemma AddOneBus(g: Grid, es: seq<NewBus>, e: NewBus)
    ensures var front, id := AddBuses(g, es), g.bus.NextId() + |es|;
      AddBuses(g, es + [e]) ==
        Placed(front, id, e, InterconnectOf(g.bus, e.zone)).(bus := front.bus.Put(id, NewBusRow(g.bus, e)))
  {
    hide Placed;
    assert (es + [e])[..|es|] == es;
  }

  lemma PlacedOld(g: Grid, id: int, e: NewBus, interconnect: string)
    ensures var found := SubAt(g.sub, g.sub.ids, e.lat, e.lon);
      found.Some? ==>
        Placed(g, id, e, interconnect) == g.(bus2sub := g.bus2sub.Put(id, BusToSub(found.value, interconnect)))
  {
  }

  lemma PlacedNew(g: Grid, id: int, e: NewBus, interconnect: string)
    ensures var sub := g.sub.NextId();
      SubAt(g.sub, g.sub.ids, e.lat, e.lon).None? ==>
        Placed(g, id, e, interconnect) ==
          g.(bus2sub := g.bus2sub.Put(id, BusToSub(sub, interconnect)),
             sub := g.sub.Put(sub, Substation(e.lat, e.lon, interconnect)))
  {
  }

  lemma AddNothing(g: Grid, geo: Geography)
    ensures AddBuses(g, []) == g && AddDcLines(g, []) == g && AddPlants(g, []) == g && AddStorage(g, []) == g
  {
  }

  lemma {:induction false} RejectNothing(ids: seq<int>)
    ensures Reject(ids, {}) == ids
  {
    if ids != [] {
      RejectNothing(ids[1..]);
    }
  }

  lemma WithoutNothing(g: Grid)
    ensures g.branch.Without({}) == g.branch && g.bus.Without({}) == g.bus
  {
    RejectNothing(g.branch.ids);
    RejectNothing(g.bus.ids);
    assert g.branch.rows - {} == g.branch.rows && g.bus.rows - {} == g.bus.rows;
  }

  /** The tables stay valid, and plant and cost ids stay equal, through all additions. */
  lemma AdditionsAreValid(g: Grid, ct: Changes, geo: Geography)
    requires WellFormed(g)
    ensures var a := AddBuses(g, OrEmpty(ct.newBus));
      var b := if ct.newBranch.Some? then AddBranches(a, geo, ct.newBranch.value) else a;
      var c := AddDcLines(b, OrEmpty(ct.newDcline));
      var d := AddPlants(c, OrEmpty(ct.newPlant));
      && SameIds(c) && d.plant.Valid() && c.plant == g.plant && c.gencost == g.gencost
      && c.bus == a.bus && c.zones == g.zones
      && c.resources == g.resources
  {
    WellFormedIsSameIds(g);
    AddBusesFrame(g, OrEmpty(ct.newBus));
    var a := AddBuses(g, OrEmpty(ct.newBus));
    var b := if ct.newBranch.Some? then AddBranches(a, geo, ct.newBranch.value) else a;
    var c := AddDcLines(b, OrEmpty(ct.newDcline));
    AppendRows(c.plant, PlantRows(c, OrEmpty(ct.newPlant)));
  }

  lemma ZonesFail(g: Grid, h: Grid, ct: Changes)
    requires OnlyUnits(g, h)
    requires !(forall z :: z in OrNoFactors(ct.branch).zone ==> HasBranches(h, z))
    ensures !ZonesDefined(g, ct)
  {
  }

  /** The zone loops end in the grid the specification describes. */
  lemma ByZoneReached(g: Grid, h: Grid, r: Grid, ct: Changes)
    requires WellFormed(g) && SameIds(g) && OnlyUnits(g, h)
    requires forall k :: k in h.plant.rows ==> UnitAt(h, k) == ZoneScaled(ct, g.resources, UnitAt(g, k))
    requires r == h.(branch := r.branch) && OnlyRows(h.branch, r.branch)
    requires forall k :: k in r.branch.rows ==>
      r.branch.rows[k] == ZoneScaledBranch(OrNoFactors(ct.branch).zone, h.branch.rows[k])
    ensures r == ByZone(g, ct) && WellFormed(r) && SameIds(r)
    ensures forall z :: HasBranches(h, z) <==> HasBranches(g, z)
  {
    hide ZoneScaled, ZoneScaledBranch;
    UnitsDetermine(g, h, map k | k in g.plant.rows :: ZoneScaled(ct, g.resources, UnitAt(g, k)));
    RowsDetermine(h.branch, r.branch,
      map k | k in g.branch.rows :: ZoneScaledBranch(OrNoFactors(ct.branch).zone, g.branch.rows[k]));
    OnlyRowsValid(g.plant, r.plant);
    OnlyRowsValid(g.gencost, r.gencost);
    OnlyRowsValid(g.branch, r.branch);
  }

  lemma ByIdReached(g: Grid, h: Grid, r: Grid, t: Grid, ct: Changes)
    requires SameIds(g) && OnlyUnits(g, h)
    requires forall k :: k in h.plant.rows ==>
      UnitAt(h, k) == IdScaled(ct, g.resources.all, g.resources.thermal, k, UnitAt(g, k))
    requires r == h.(branch := r.branch) && OnlyRows(h.branch, r.branch)
    requires forall k :: k in r.branch.rows ==>
      r.branch.rows[k] == IdScaledBranch(OrNoFactors(ct.branch).id, k, h.branch.rows[k])
    requires t == r.(dcline := t.dcline) && OnlyRows(r.dcline, t.dcline)
    requires forall k :: k in t.dcline.rows ==>
      t.dcline.rows[k] == IdScaledDcLine(OrEmptyMap(ct.dcline), k, r.dcline.rows[k])
    ensures t == ById(g, ct)
  {
    hide IdScaled, IdScaledBranch, IdScaledDcLine;
    UnitsDetermine(g, h,
      map k | k in g.plant.rows :: IdScaled(ct, g.resources.all, g.resources.thermal, k, UnitAt(g, k)));
    RowsDetermine(h.branch, r.branch,
      map k | k in g.branch.rows :: IdScaledBranch(OrNoFactors(ct.branch).id, k, g.branch.rows[k]));
    RowsDetermine(r.dcline, t.dcline,
      map k | k in g.dcline.rows :: IdScaledDcLine(OrEmptyMap(ct.dcline), k, g.dcline.rows[k]));
  }

  lemma CostRowsFrame(g: Grid, t: Table<Plant>, es: seq<NewPlant>)
    ensures CostRows(g.(plant := t), es) == CostRows(g, es)
  {
  }
}

/**
 * The transform as the source runs it: tables updated in place, dictionaries and resource
 * sets visited in whatever order they come. Each method is proved to reach the order-free
 * result of TransformSpec, and to fail exactly where that result is undefined.
 */
module TransformGrids {
  import opened Tables
  import opened GridModel
  import opened TransformSpec
  import opened ScalingSteps
  import opened Additions

  /** `order` lists every element of `s` once. */
  ghost predicate Enumerates<T(!new)>(order: seq<T>, s: set<T>) {
    && (forall x :: x in order <==> x in s)
    && (forall i, j :: 0 <= i < j < |order| ==> order[i] != order[j])
  }

  /** The order in which a loop visits a dictionary or a set: any order at all. */
  method Enumerate<T(!new, ==)>(s: set<T>) returns (order: seq<T>)
    ensures Enumerates(order, s)
  {
    order := [];
    var rest, more := s, true;
    while more
      invariant !more ==> rest == {}
      invariant Enumerates(order, s - rest) && rest <= s
      decreases rest, more
    {
      if x :| x in rest {
        order, rest := order + [x], rest - {x};
      } else {
        assert rest == {};
        more := false;
      }
    }
    assert s - rest == s;
  }

  /** A quadratic cost with the terms of a thermal entry, and a free one for any other. */
  predicate CarriesTerms(res: Resources, e: NewPlant, c: GenCost) {
    && c.model == 2 && c.n == 3
    && (e.resource in res.thermal ==> e.terms.Some? && e.terms.value == CostTerms(c.c0, c.c1, c.c2))
    && (e.resource !in res.thermal ==> c.c0 == 0.0 && c.c1 == 0.0 && c.c2 == 0.0)
  }

  ghost predicate RowCarries(g: Grid, k: int, e: NewPlant) {
    k in g.gencost.rows && CarriesTerms(g.resources, e, g.gencost.rows[k])
  }

  lemma AppendedCosts(g: Grid, h: Grid, es: seq<NewPlant>)
    requires g.gencost.Valid() && h == g.(gencost := g.gencost.AppendAll(CostRows(g, es)))
    requires forall i :: 0 <= i < |es| ==> Costed(g, es[i])
    ensures forall i :: 0 <= i < |es| ==> RowCarries(h, g.gencost.NextId() + i, es[i])
  {
    hide Table.AppendAll, Table.Valid, Table.NextId;
    forall i | 0 <= i < |es|
      ensures RowCarries(h, g.gencost.NextId() + i, es[i])
    {
      AppendedRow(g.gencost, CostRows(g, es), i);
    }
  }

  class TransformGrid {
    var grid: Grid
    const ct: Changes
    const geo: Geography

    constructor (g: Grid, ct: Changes, geo: Geography)
      ensures grid == g && this.ct == ct && this.geo == geo
    {
      this.grid, this.ct, this.geo := g, ct, geo;
    }

    /** `table.loc[ids, columns] *= f` */
    method ScaleUnits(kind: Kind, thermal: bool, ids: set<int>, f: real)
      requires SameIds(grid)
      modifies this
      ensures OnlyUnits(old(grid), grid)
      ensures forall k :: k in grid.plant.rows ==>
        UnitAt(grid, k) == if k in ids then Scaled(kind, thermal, UnitAt(old(grid), k), f) else UnitAt(old(grid), k)
    {
      hide Scaled;
      var us := map k | k in grid.plant.rows ::
        if k in ids then Scaled(kind, thermal, UnitAt(grid, k), f) else UnitAt(grid, k);
      UnitsBack(grid, us);
      grid := WithUnits(grid, us);
    }

    /** Scales the group of plants of resource `r` in zone `z`; fails if there is none. */
    method ScaleGroup(kind: Kind, thermal: bool, r: string, z: int, f: real) returns (ok: bool)
      requires SameIds(grid)
      modifies this
      ensures ok <==> HasPlants(old(grid), r, z)
      ensures !ok ==> grid == old(grid)
      ensures OnlyUnits(old(grid), grid)
      ensures ok ==> forall k :: k in grid.plant.rows ==>
        UnitAt(grid, k) == ZonedUnit(kind, thermal, r, map[z := f], UnitAt(old(grid), k))
    {
      hide Scaled;
      var ids := set k | k in grid.plant.rows && grid.plant.rows[k].resource == r && grid.plant.rows[k].zone == z;
      if k :| k in ids {
        ScaleUnits(kind, thermal, ids, f);
        return true;
      } else {
        forall k | k in grid.plant.rows && grid.plant.rows[k].resource == r
          ensures grid.plant.rows[k].zone != z
        {
          assert k !in ids;
        }
        return false;
      }
    }

    /** The zone factors of one kind recorded under resource `r`, if any. */
    method ScaleByZone(kind: Kind, r: string) returns (ok: bool)
      requires SameIds(grid)
      modifies this
      ensures ok <==> ZonesMatch(old(grid), ct, kind, r)
      ensures OnlyUnits(old(grid), grid)
      ensures ok ==> forall k :: k in grid.plant.rows ==>
        UnitAt(grid, k) == ZoneKind(ct, kind, r in grid.resources.thermal, r, UnitAt(old(grid), k))
    {
      hide Scaled, HasPlants;
      var thermal := r in grid.resources.thermal;
      forall k | k in grid.plant.rows {
        ZonedIsFactor(ct, kind, thermal, r, UnitAt(grid, k));
      }
      if r !in Family(ct, kind) {
        return true;
      }
      var factors := Family(ct, kind)[r].zone;
      var order := Enumerate(factors.Keys);
      ghost var todo := factors.Keys;
      for i := 0 to |order|
        invariant forall z :: z in todo <==> z in order[i..]
        invariant OnlyUnits(old(grid), grid)
        invariant forall z :: z in factors && z !in todo ==> HasPlants(old(grid), r, z)
        invariant forall k :: k in grid.plant.rows ==>
          UnitAt(grid, k) == ZonedSoFar(kind, thermal, r, factors, todo, UnitAt(old(grid), k))
      {
        var z := order[i];
        assert z in order && order[i..] == [z] + order[i + 1..];
        SamePlants(old(grid), grid, r, z);
        ok := ScaleGroup(kind, thermal, r, z, factors[z]);
        if !ok {
          return;
        }
        todo := todo - {z};
      }
      return true;
    }

    /** The id factors of one kind recorded under resource `r`, if any. */
    method ScaleById(kind: Kind, r: string) returns (ok: bool)
      requires SameIds(grid)
      modifies this
      ensures ok <==> IdsMatch(old(grid), ct, kind, r)
      ensures OnlyUnits(old(grid), grid)
      ensures ok ==> forall k :: k in grid.plant.rows ==>
        UnitAt(grid, k) == IdKind(ct, kind, r in grid.resources.thermal, r, k, UnitAt(old(grid), k))
    {
      hide Scaled;
      var thermal := r in grid.resources.thermal;
      forall k | k in grid.plant.rows {
        ListedIsFactor(ct, kind, thermal, r, k, UnitAt(grid, k));
      }
      if r !in Family(ct, kind) {
        return true;
      }
      var factors := Family(ct, kind)[r].id;
      var order := Enumerate(factors.Keys);
      ghost var todo := factors.Keys;
      for i := 0 to |order|
        invariant forall j :: j in todo <==> j in order[i..]
        invariant OnlyUnits(old(grid), grid)
        invariant forall j :: j in factors && j !in todo ==> j in old(grid).plant.rows
        invariant forall k :: k in grid.plant.rows ==>
          UnitAt(grid, k) == if k in todo then UnitAt(old(grid), k)
                             else ListedUnit(kind, thermal, factors, k, UnitAt(old(grid), k))
      {
        var j := order[i];
        assert j in order && order[i..] == [j] + order[i + 1..];
        if j !in grid.plant.rows {
          return false;
        }
        ScaleUnits(kind, thermal, {j}, factors[j]);
        todo := todo - {j};
      }
      return true;
    }

    /** Capacity, cost and minimum generation of one resource, by zone. */
    method ScaleResourceByZone(r: string) returns (ok: bool)
      requires SameIds(grid)
      modifies this
      ensures ok <==> AllZonesMatch(old(grid), ct, r)
      ensures OnlyUnits(old(grid), grid)
      ensures ok ==> forall k :: k in grid.plant.rows ==>
        UnitAt(grid, k) == ZoneAll(ct, r in grid.resources.thermal, r, UnitAt(old(grid), k))
    {
      hide ZoneKind;
      ok := ScaleByZone(Capacity, r);
      if !ok {
        return;
      }
      SameZones(old(grid), grid, ct, Cost, r);
      SameZones(old(grid), grid, ct, MinGen, r);
      ghost var g := grid;
      ok := ScaleByZone(Cost, r);
      if !ok {
        return;
      }
      SameZones(g, grid, ct, MinGen, r);
      ok := ScaleByZone(MinGen, r);
    }

    method ScaleResourceById(r: string) returns (ok: bool)
      requires SameIds(grid)
      modifies this
      ensures ok <==> AllIdsMatch(old(grid), ct, r)
      ensures OnlyUnits(old(grid), grid)
      ensures ok ==> forall k :: k in grid.plant.rows ==>
        UnitAt(grid, k) == IdAll(ct, r in grid.resources.thermal, r, k, UnitAt(old(grid), k))
    {
      hide IdKind;
      ok := ScaleById(Capacity, r);
      if !ok {
        return;
      }
      ok := ScaleById(Cost, r);
      if !ok {
        return;
      }
      ok := ScaleById(MinGen, r);
    }

    /** First phase: every resource by zone, in any order of the resource set. */
    method ScaleAllByZone() returns (ok: bool)
      requires SameIds(grid)
      modifies this
      ensures ok <==> forall r :: r in old(grid).resources.all ==> AllZonesMatch(old(grid), ct, r)
      ensures OnlyUnits(old(grid), grid)
      ensures ok ==> forall k :: k in grid.plant.rows ==>
        UnitAt(grid, k) == ZoneScaled(ct, grid.resources, UnitAt(old(grid), k))
    {
      hide Scaled, ZoneAll;
      var res := grid.resources;
      var order := Enumerate(res.all);
      ghost var todo := res.all;
      forall k | k in grid.plant.rows {
        ZoneDoneAtStart(ct, res, UnitAt(grid, k));
      }
      for i := 0 to |order|
        invariant forall r :: r in todo <==> r in order[i..]
        invariant OnlyUnits(old(grid), grid)
        invariant forall r :: r in res.all && r !in todo ==> AllZonesMatch(old(grid), ct, r)
        invariant forall k :: k in grid.plant.rows ==> UnitAt(grid, k) == ZoneDone(ct, res, todo, UnitAt(old(grid), k))
      {
        var r := order[i];
        assert r in order && order[i..] == [r] + order[i + 1..];
        SameZones(old(grid), grid, ct, Capacity, r);
        SameZones(old(grid), grid, ct, Cost, r);
        SameZones(old(grid), grid, ct, MinGen, r);
        ghost var before := grid;
        ok := ScaleResourceByZone(r);
        if !ok {
          return;
        }
        forall k | k in grid.plant.rows
          ensures UnitAt(grid, k) == ZoneDone(ct, res, todo - {r}, UnitAt(old(grid), k))
        {
          ZoneDoneStep(ct, res, todo, r, UnitAt(old(grid), k));
          assert UnitAt(before, k) == ZoneDone(ct, res, todo, UnitAt(old(grid), k));
        }
        todo := todo - {r};
      }
      return true;
    }

    /** Third phase: every resource by id, in any order of the resource set. */
    method ScaleAllById() returns (ok: bool)
      requires SameIds(grid)
      modifies this
      ensures ok <==> forall r :: r in old(grid).resources.all ==> AllIdsMatch(old(grid), ct, r)
      ensures OnlyUnits(old(grid), grid)
      ensures ok ==> forall k :: k in grid.plant.rows ==>
        UnitAt(grid, k) == IdScaled(ct, grid.resources.all, grid.resources.thermal, k, UnitAt(old(grid), k))
    {
      hide Scaled, IdAll, IdScaled;
      var res := grid.resources;
      var order := Enumerate(res.all);
      ghost var todo := res.all;
      forall k | k in grid.plant.rows {
        IdScaledAtStart(ct, res.thermal, k, UnitAt(grid, k));
      }
      assert res.all - todo == {};
      for i := 0 to |order|
        invariant todo <= res.all && forall r :: r in todo <==> r in order[i..]
        invariant OnlyUnits(old(grid), grid)
        invariant forall r :: r in res.all && r !in todo ==> AllIdsMatch(old(grid), ct, r)
        invariant forall k :: k in grid.plant.rows ==>
          UnitAt(grid, k) == IdScaled(ct, res.all - todo, res.thermal, k, UnitAt(old(grid), k))
      {
        var r := order[i];
        assert r in order && order[i..] == [r] + order[i + 1..];
        ghost var before := grid;
        ok := ScaleResourceById(r);
        if !ok {
          return;
        }
        assert res.all - (todo - {r}) == res.all - todo + {r};
        forall k | k in grid.plant.rows
          ensures UnitAt(grid, k) == IdScaled(ct, res.all - (todo - {r}), res.thermal, k, UnitAt(old(grid), k))
        {
          IdScaledStep(ct, res.all - todo, res.thermal, r, k, UnitAt(old(grid), k));
          assert UnitAt(before, k) == IdScaled(ct, res.all - todo, res.thermal, k, UnitAt(old(grid), k));
        }
        todo := todo - {r};
      }
      assert res.all - todo == res.all;
      return true;
    }

    /** `branch.loc[ids]`: rateA multiplied and x divided by `f`. */
    method ScaleBranches(ids: set<int>, f: real)
      modifies this
      ensures grid == old(grid).(branch := grid.branch) && OnlyRows(old(grid).branch, grid.branch)
      ensures forall k :: k in grid.branch.rows ==>
        grid.branch.rows[k] == if k in ids then ScaledBranch(old(grid).branch.rows[k], f) else old(grid).branch.rows[k]
    {
      hide ScaledBranch;
      grid := grid.(branch := Table(grid.branch.ids, map k | k in grid.branch.rows ::
        if k in ids then ScaledBranch(grid.branch.rows[k], f) else grid.branch.rows[k]));
    }

    /** The lines with both ends in zone `z`; fails if there is none. */
    method ScaleBranchGroup(z: int, f: real) returns (ok: bool)
      modifies this
      ensures ok <==> HasBranches(old(grid), z)
      ensures grid == old(grid).(branch := grid.branch) && OnlyRows(old(grid).branch, grid.branch)
      ensures ok ==> forall k :: k in grid.branch.rows ==>
        grid.branch.rows[k] == ZoneScaledBranch(map[z := f], old(grid).branch.rows[k])
    {
      hide ScaledBranch;
      var ids := set k | k in grid.branch.rows && grid.branch.rows[k].fromZone == z && grid.branch.rows[k].toZone == z;
      if k :| k in ids {
        ScaleBranches(ids, f);
        return true;
      } else {
        forall k | k in grid.branch.rows && grid.branch.rows[k].fromZone == z
          ensures grid.branch.rows[k].toZone != z
        {
          assert k !in ids;
        }
        return false;
      }
    }

    method ScaleBranchByZone() returns (ok: bool)
      modifies this
      ensures ok <==> forall z :: z in OrNoFactors(ct.branch).zone ==> HasBranches(old(grid), z)
      ensures grid == old(grid).(branch := grid.branch) && OnlyRows(old(grid).branch, grid.branch)
      ensures ok ==> forall k :: k in grid.branch.rows ==>
        grid.branch.rows[k] == ZoneScaledBranch(OrNoFactors(ct.branch).zone, old(grid).branch.rows[k])
    {
      hide ScaledBranch;
      var factors := OrNoFactors(ct.branch).zone;
      var order := Enumerate(factors.Keys);
      ghost var todo := factors.Keys;
      for i := 0 to |order|
        invariant forall z :: z in todo <==> z in order[i..]
        invariant grid == old(grid).(branch := grid.branch) && OnlyRows(old(grid).branch, grid.branch)
        invariant forall z :: z in factors && z !in todo ==> HasBranches(old(grid), z)
        invariant forall k :: k in grid.branch.rows ==>
          grid.branch.rows[k] == ZoneScaledSoFar(factors, todo, old(grid).branch.rows[k])
      {
        var z := order[i];
        assert z in order && order[i..] == [z] + order[i + 1..];
        SameBranches(old(grid), grid, z);
        ok := ScaleBranchGroup(z, factors[z]);
        if !ok {
          return;
        }
        todo := todo - {z};
      }
      return true;
    }

    method ScaleBranchById() returns (ok: bool)
      modifies this
      ensures ok <==> forall k :: k in OrNoFactors(ct.branch).id ==> k in old(grid).branch.rows
      ensures grid == old(grid).(branch := grid.branch) && OnlyRows(old(grid).branch, grid.branch)
      ensures ok ==> forall k :: k in grid.branch.rows ==>
        grid.branch.rows[k] == IdScaledBranch(OrNoFactors(ct.branch).id, k, old(grid).branch.rows[k])
    {
      hide ScaledBranch;
      var factors := OrNoFactors(ct.branch).id;
      var order := Enumerate(factors.Keys);
      ghost var todo := factors.Keys;
      for i := 0 to |order|
        invariant forall j :: j in todo <==> j in order[i..]
        invariant grid == old(grid).(branch := grid.branch) && OnlyRows(old(grid).branch, grid.branch)
        invariant forall j :: j in factors && j !in todo ==> j in old(grid).branch.rows
        invariant forall k :: k in grid.branch.rows ==>
          grid.branch.rows[k] == if k in todo then old(grid).branch.rows[k]
                                 else IdScaledBranch(factors, k, old(grid).branch.rows[k])
      {
        var j := order[i];
        assert j in order && order[i..] == [j] + order[i + 1..];
        if j !in grid.branch.rows {
          assert j !in old(grid).branch.rows.Keys;
          return false;
        }
        ScaleBranches({j}, factors[j]);
        todo := todo - {j};
      }
      return true;
    }

    method ScaleOneDcLine(j: int, f: real)
      requires j in grid.dcline.rows
      modifies this
      ensures grid == old(grid).(dcline := grid.dcline) && OnlyRows(old(grid).dcline, grid.dcline)
      ensures grid.dcline.rows == old(grid).dcline.rows[j := ScaledDcLine(old(grid).dcline.rows[j], f)]
    {
      var d := grid.dcline.rows[j];
      var line := d.(pmin := d.pmin * f, pmax := d.pmax * f);
      if f == 0.0 {
        line := line.(status := 0);
      }
      assert line == ScaledDcLine(d, f);
      grid := grid.(dcline := Table(grid.dcline.ids, grid.dcline.rows[j := line]));
    }

    method ScaleDcLine() returns (ok: bool)
      modifies this
      ensures ok <==> forall k :: k in OrEmptyMap(ct.dcline) ==> k in old(grid).dcline.rows
      ensures grid == old(grid).(dcline := grid.dcline) && OnlyRows(old(grid).dcline, grid.dcline)
      ensures ok ==> forall k :: k in grid.dcline.rows ==>
        grid.dcline.rows[k] == IdScaledDcLine(OrEmptyMap(ct.dcline), k, old(grid).dcline.rows[k])
    {
      hide ScaledDcLine;
      var factors := OrEmptyMap(ct.dcline);
      var order := Enumerate(factors.Keys);
      ghost var todo := factors.Keys;
      for i := 0 to |order|
        invariant forall j :: j in todo <==> j in order[i..]
        invariant grid == old(grid).(dcline := grid.dcline) && OnlyRows(old(grid).dcline, grid.dcline)
        invariant forall j :: j in factors && j !in todo ==> j in old(grid).dcline.rows
        invariant forall k :: k in grid.dcline.rows ==>
          grid.dcline.rows[k] == if k in todo then old(grid).dcline.rows[k]
                                 else IdScaledDcLine(factors, k, old(grid).dcline.rows[k])
      {
        var j := order[i];
        assert j in order && order[i..] == [j] + order[i + 1..];
        if j !in grid.dcline.rows {
          assert j !in old(grid).dcline.rows.Keys;
          return false;
        }
        ScaleOneDcLine(j, factors[j]);
        todo := todo - {j};
      }
      return true;
    }

    /** Buses one by one, looking substations up in a dictionary that grows with the new ones. */
    method AddBus(es: seq<NewBus>) returns (ok: bool)
      requires WellFormed(grid)
      modifies this
      ensures ok <==> BusesDefined(old(grid), es)
      ensures ok ==> grid == AddBuses(old(grid), es)
    {
      hide Placed, AddBuses;
      ghost var g := grid;
      var bus := grid.bus;
      var places := Places(grid.sub);
      AddNoBuses(g);
      for i := 0 to |es|
        invariant grid == AddBuses(g, es[..i])
        invariant BusesDefined(g, es[..i])
        invariant PlacesOf(places, grid.sub)
      {
        var e := es[i];
        assert es[..i + 1] == es[..i] + [e];
        var zone := ZoneInterconnect(bus, bus.ids, e.zone);
        if zone.None? {
          return false;
        }
        AddBusesTables(g, es[..i]);
        MaxIsLast(grid.bus);
        MaxIsLast(grid.sub);
        AddOneBus(g, es[..i], e);
        var id := MaxOf(grid.bus.ids) + 1;
        var row := Bus(e.zone, zone.value, e.lat, e.lon, e.baseKV, e.pd);
        ghost var before := grid;
        if (e.lat, e.lon) in places {
          var link := BusToSub(places[(e.lat, e.lon)], zone.value);
          grid := grid.(bus := grid.bus.Put(id, row), bus2sub := grid.bus2sub.Put(id, link));
          PlacedOld(before, id, e, zone.value);
        } else {
          var sub := MaxOf(grid.sub.ids) + 1;
          PlacesGrow(places, grid.sub, sub, Substation(e.lat, e.lon, zone.value));
          grid := grid.(bus := grid.bus.Put(id, row), bus2sub := grid.bus2sub.Put(id, BusToSub(sub, zone.value)),
                        sub := grid.sub.Put(sub, Substation(e.lat, e.lon, zone.value)));
          places := places[(e.lat, e.lon) := sub];
          PlacedNew(before, id, e, zone.value);
        }
      }
      assert es[..|es|] == es;
      return true;
    }

    method AddBranch(es: seq<NewLine>) returns (ok: bool)
      modifies this
      ensures ok <==> BranchesDefined(old(grid), geo, es)
      ensures ok ==> grid == AddBranches(old(grid), geo, es)
    {
      hide NewBranchRow, Table.AppendAll, Table.Put, Table.NextId;
      ghost var g := grid;
      AppendNone(g.branch);
      var v2x := geo.reactancePerDistance(grid.bus, grid.branch);
      ghost var rows := BranchRows(g, geo, v2x, es);
      for i := 0 to |es|
        invariant grid == g.(branch := g.branch.AppendAll(rows[..i]))
        invariant i > 0 ==> g.branch.ids != []
        invariant forall j :: 0 <= j < i ==> BranchReady(g, v2x, es[j])
      {
        var e := es[i];
        AppendNth(g.branch, rows, i);
        if !BranchReady(grid, v2x, e) || grid.branch.ids == [] {
          return false;
        }
        var row := NewBranchRow(grid.bus.rows[e.fromBus], grid.bus.rows[e.toBus], geo, v2x, e);
        grid := grid.(branch := grid.branch.Put(grid.branch.NextId(), row));
      }
      assert rows[..|es|] == rows;
      return true;
    }

    method AddDcLine(es: seq<NewLine>) returns (ok: bool)
      modifies this
      ensures ok <==> DcLinesDefined(old(grid), es)
      ensures ok ==> grid == AddDcLines(old(grid), es)
    {
      hide Table.AppendAll, Table.Put, Table.NextId;
      ghost var g, rows := grid, DcLineRows(grid, es);
      AppendNone(g.dcline);
      for i := 0 to |es|
        invariant grid == g.(dcline := g.dcline.AppendAll(rows[..i]))
        invariant i > 0 ==> g.dcline.ids != []
        invariant forall j :: 0 <= j < i ==> OnBuses(g, es[j])
      {
        var e := es[i];
        AppendNth(g.dcline, rows, i);
        if !OnBuses(grid, e) || grid.dcline.ids == [] {
          return false;
        }
        var line := DcLine(e.fromBus, e.toBus, e.pmin, e.pmax, 1,
                           grid.bus.rows[e.fromBus].interconnect, grid.bus.rows[e.toBus].interconnect);
        grid := grid.(dcline := grid.dcline.Put(grid.dcline.NextId(), line));
      }
      assert rows[..|es|] == rows;
      return true;
    }

    method AddPlant(es: seq<NewPlant>) returns (ok: bool)
      modifies this
      ensures ok <==> (es != [] ==> old(grid).plant.ids != []) && forall i :: 0 <= i < |es| ==> Sited(old(grid), es[i])
      ensures ok ==> grid == old(grid).(plant := old(grid).plant.AppendAll(PlantRows(old(grid), es)))
    {
      hide Table.AppendAll, Table.Put, Table.NextId;
      ghost var g, rows := grid, PlantRows(grid, es);
      AppendNone(g.plant);
      for i := 0 to |es|
        invariant grid == g.(plant := g.plant.AppendAll(rows[..i]))
        invariant i > 0 ==> g.plant.ids != []
        invariant forall j :: 0 <= j < i ==> Sited(g, es[j])
      {
        var e := es[i];
        AppendNth(g.plant, rows, i);
        if !Sited(grid, e) || grid.plant.ids == [] {
          return false;
        }
        var b := grid.bus.rows[e.bus];
        var plant := Plant(e.bus, e.resource, b.zone, b.interconnect, e.pmin, e.pmax);
        grid := grid.(plant := grid.plant.Put(grid.plant.NextId(), plant));
      }
      assert rows[..|es|] == rows;
      return true;
    }

    method NewCost(e: NewPlant) returns (cost: GenCost)
      requires Costed(grid, e)
      ensures cost == CostRow(grid, e)
    {
      cost := GenCost(2, 3, 0.0, 0.0, 0.0);
      if e.resource in grid.resources.thermal {
        cost := cost.(c0 := e.terms.value.c0, c1 := e.terms.value.c1, c2 := e.terms.value.c2);
      }
    }

    method AddGencost(es: seq<NewPlant>) returns (ok: bool)
      modifies this
      ensures ok <==> && (es != [] ==> old(grid).gencost.ids != [])
                      && forall i :: 0 <= i < |es| ==> Costed(old(grid), es[i])
      ensures ok ==> grid == old(grid).(gencost := old(grid).gencost.AppendAll(CostRows(old(grid), es)))
      ensures ok && old(grid).gencost.Valid() ==>
        forall i :: 0 <= i < |es| ==> RowCarries(grid, old(grid).gencost.NextId() + i, es[i])
    {
      hide Table.AppendAll, Table.Put, Table.NextId, Table.Valid, RowCarries;
      ghost var g, rows := grid, CostRows(grid, es);
      AppendNone(g.gencost);
      for i := 0 to |es|
        invariant grid == g.(gencost := g.gencost.AppendAll(rows[..i]))
        invariant i > 0 ==> g.gencost.ids != []
        invariant forall j :: 0 <= j < i ==> Costed(g, es[j])
      {
        var e := es[i];
        AppendNth(g.gencost, rows, i);
        if !Costed(grid, e) || grid.gencost.ids == [] {
          return false;
        }
        var cost := NewCost(e);
        assert CostRow(grid, e) == CostRow(g, e);
        grid := grid.(gencost := grid.gencost.Put(grid.gencost.NextId(), cost));
      }
      assert rows[..|es|] == rows;
      if g.gencost.Valid() {
        AppendedCosts(g, grid, es);
      }
      return true;
    }

    /** Plants and their cost rows, in two loops over the same entries. */
    method AddGen(es: seq<NewPlant>) returns (ok: bool)
      requires SameIds(grid)
      modifies this
      ensures ok <==> PlantsDefined(old(grid), es)
      ensures ok ==> grid == AddPlants(old(grid), es)
    {
      ghost var g := grid;
      ok := AddPlant(es);
      if !ok {
        return;
      }
      CostRowsFrame(g, grid.plant, es);
      assert forall i :: 0 <= i < |es| ==> (Costed(grid, es[i]) <==> Costed(g, es[i]));
      ok := AddGencost(es);
    }

    method AddStorageUnits(es: seq<NewStorage>) returns (ok: bool)
      requires grid.plant.Valid()
      modifies this
      ensures ok <==> es == [] || old(grid).plant.ids != []
      ensures ok ==> grid == AddStorage(old(grid), es)
    {
      ghost var g := grid;
      if es == [] {
        assert g.storageGen + StorageUnits(es) == g.storageGen;
        assert g.storageData + StorageRows(g.plant.NextId(), es) == g.storageData;
        return true;
      }
      if grid.plant.ids == [] {
        return false;
      }
      MaxIsLast(grid.plant);
      var first := MaxOf(grid.plant.ids) + 1;
      for i := 0 to |es|
        invariant grid == AddStorage(g, es[..i])
      {
        var e := es[i];
        assert es[..i + 1] == es[..i] + [e];
        assert StorageUnits(es[..i + 1]) == StorageUnits(es[..i]) + [StorageUnit(e)];
        assert StorageRows(first, es[..i + 1]) == StorageRows(first, es[..i]) + [StorageRow(first + i, e)];
        grid := grid.(storageGen := grid.storageGen + [StorageUnit(e)],
                      storageData := grid.storageData + [StorageRow(first + i, e)]);
      }
      assert es[..|es|] == es;
      return true;
    }

    /** Exactly the listed branches go; the others keep their rows and their order, and nothing else changes. */
    method RemoveBranch(drop: set<int>)
      modifies this
      ensures Drops(old(grid).branch, grid.branch, drop) && grid == old(grid).(branch := grid.branch)
      ensures grid.branch == old(grid).branch.Without(drop)
    {
      WithoutDrops(grid.branch, drop);
      grid := grid.(branch := grid.branch.Without(drop));
    }

    /** The same for buses; their substation mapping stays. */
    method RemoveBus(drop: set<int>)
      modifies this
      ensures Drops(old(grid).bus, grid.bus, drop) && grid == old(grid).(bus := grid.bus)
      ensures grid.bus == old(grid).bus.Without(drop)
    {
      WithoutDrops(grid.bus, drop);
      grid := grid.(bus := grid.bus.Without(drop));
    }

    method AddAll() returns (ok: bool)
      requires WellFormed(grid)
      modifies this
      ensures ok <==> AdditionsDefined(old(grid), ct, geo)
      ensures ok ==> grid == Added(old(grid), ct, geo)
    {
      hide WellFormed, AddBuses, AddBranches, AddDcLines, AddPlants, AddStorage, SameIds, Table.Valid;
      ghost var g := grid;
      AdditionsAreValid(g, ct, geo);
      AddNothing(grid, geo);
      if ct.newBus.Some? {
        ok := AddBus(ct.newBus.value);
        if !ok { return; }
      }
      AddNothing(grid, geo);
      if ct.newBranch.Some? {
        ok := AddBranch(ct.newBranch.value);
        if !ok { return; }
      }
      AddNothing(grid, geo);
      if ct.newDcline.Some? {
        ok := AddDcLine(ct.newDcline.value);
        if !ok { return; }
      }
      AddNothing(grid, geo);
      if ct.newPlant.Some? {
        ok := AddGen(ct.newPlant.value);
        if !ok { return; }
      }
      AddNothing(grid, geo);
      ok := true;
      if ct.storage.Some? {
        ok := AddStorageUnits(ct.storage.value);
      }
    }

    /** The whole transform. On failure the source raises and the half-changed copy is discarded. */
    method ApplyChangeTable() returns (ok: bool)
      requires WellFormed(grid)
      modifies this
      ensures SameIds(old(grid)) && (ok <==> Defined(old(grid), ct, geo))
      ensures ok ==> grid == Transform(old(grid), ct, geo)
    {
      hide WellFormed, SameIds, AdditionsDefined, Added, ByZone, ById, AllZonesMatch, AllIdsMatch, HasBranches;
      ghost var g := grid;
      WellFormedIsSameIds(g);
      ok := ScaleAllByZone();
      if !ok { return; }
      ghost var g1 := grid;
      ok := ScaleBranchByZone();
      if !ok {
        ZonesFail(g, g1, ct);
        return;
      }
      ByZoneReached(g, g1, grid, ct);
      ghost var g2 := grid;
      ok := AddAll();
      if !ok { return; }
      AdditionsKeepSameIds(g2, ct, geo);
      ghost var g3 := grid;
      ok := ScaleAllById();
      if !ok { return; }
      ghost var g4 := grid;
      ok := ScaleBranchById();
      if !ok { return; }
      ghost var g5 := grid;
      ok := ScaleDcLine();
      if !ok { return; }
      ByIdReached(g3, g4, g5, grid, ct);
      WithoutNothing(grid);
      if ct.removeBranch.Some? {
        RemoveBranch(ct.removeBranch.value);
      }
      WithoutNothing(grid);
      if ct.removeBus.Some? {
        RemoveBus(ct.removeBus.value);
      }
    }
  }
}

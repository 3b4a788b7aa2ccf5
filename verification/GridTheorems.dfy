/** What the transformed grid looks like, row by row. */
module GridTheorems {
  import opened Tables
  import opened GridModel
  import opened TransformSpec
  import opened ScalingSteps
  import opened Products
  import opened Additions

  const ONE := Multiplier(1.0, 1.0, 1.0, 1.0, 1.0)

  lemma MultipliedByOne(u: Unit)
    ensures Multiplied(u, ONE) == u
  {
  }

  /** The zone factors that apply to a pre-existing unit: those of its own resource and zone. */
  function ZoneMultiplier(ct: Changes, res: Resources, u: Unit): (m: Multiplier)
    ensures m.divisor != 0.0
  {
    var r, z := u.plant.resource, u.plant.zone;
    if r !in res.all then ONE
    else
      var f1, f2, f3 := ZoneFactor(ct, Capacity, r, z), ZoneFactor(ct, Cost, r, z), ZoneFactor(ct, MinGen, r, z);
      Multiplier(f1, f2, f3, if r in res.thermal then f1 else 1.0, if r in res.thermal then NonZero(f1) else 1.0)
  }

  lemma NonZeroTimes(x: real, y: real)
    requires x != 0.0 && y != 0.0
    ensures Times(x, y) != 0.0
  {
  }

  function Compose(a: Multiplier, b: Multiplier): (m: Multiplier)
    requires a.divisor != 0.0 && b.divisor != 0.0
    ensures m.divisor != 0.0
  {
    NonZeroTimes(a.divisor, b.divisor);
    Multiplier(Times(a.cap, b.cap), Times(a.cost, b.cost), Times(a.pmin, b.pmin),
               Times(a.heat, b.heat), Times(a.divisor, b.divisor))
  }

  lemma OneTimes(x: real)
    ensures Times(1.0, x) == x
  {
  }

  lemma ZoneScaledIsMultiplied(ct: Changes, res: Resources, u: Unit)
    ensures ZoneScaled(ct, res, u) == Multiplied(u, ZoneMultiplier(ct, res, u))
  {
    hide Scaled, Multiplied, ZoneFactor, Times;
    MultipliedByOne(u);
    var r, z := u.plant.resource, u.plant.zone;
    if r in res.all {
      var f1, f2, f3 := ZoneFactor(ct, Capacity, r, z), ZoneFactor(ct, Cost, r, z), ZoneFactor(ct, MinGen, r, z);
      ThenIsScaling(u, ONE, r in res.thermal, f1, f2, f3);
      OneTimes(f1);
      OneTimes(f2);
      OneTimes(f3);
      OneTimes(NonZero(f1));
    }
  }

  lemma TwicePlant(u: Unit, a: Multiplier, b: Multiplier, ab: Multiplier)
    requires a.divisor != 0.0 && b.divisor != 0.0 && ab == Compose(a, b)
    ensures Multiplied(Multiplied(u, a), b).plant == Multiplied(u, ab).plant
  {
    hide Times;
    Regroup(u.plant.pmax, a.cap, b.cap, ab.cap);
    Regroup4(u.plant.pmin, a.cap, a.pmin, b.cap, b.pmin, ab.cap, ab.pmin);
  }

  lemma TwiceLinear(u: Unit, a: Multiplier, b: Multiplier, ab: Multiplier)
    requires a.divisor != 0.0 && b.divisor != 0.0 && ab == Compose(a, b)
    ensures var v, w := Multiplied(Multiplied(u, a), b), Multiplied(u, ab);
      v.cost.c1 == w.cost.c1 && v.cost.c0 == w.cost.c0
  {
    hide Times;
    Regroup(u.cost.c1, a.cost, b.cost, ab.cost);
    Regroup4(u.cost.c0, a.heat, a.cost, b.heat, b.cost, ab.heat, ab.cost);
  }

  lemma QuotientChain(c: real, d: real, x: real, y: real, p: real, q: real, m: real, n: real, pq: real, mn: real)
    requires m != 0.0 && n != 0.0 && mn != 0.0 && pq == p * q && mn == m * n
    requires d * m == c * p && x * n == d * q && y * mn == c * pq
    ensures x == y
  {
  }

  lemma TwiceQuadratic(u: Unit, a: Multiplier, b: Multiplier, ab: Multiplier)
    requires a.divisor != 0.0 && b.divisor != 0.0 && ab == Compose(a, b)
    ensures Multiplied(Multiplied(u, a), b).cost.c2 == Multiplied(u, ab).cost.c2
  {
    hide Multiplied;
    var v := Multiplied(u, a);
    MultipliedQuadratic(u, a);
    MultipliedQuadratic(v, b);
    MultipliedQuadratic(u, ab);
    var x, y := Multiplied(v, b).cost.c2, Multiplied(u, ab).cost.c2;
    QuotientChain(u.cost.c2, v.cost.c2, x, y, a.cost, b.cost, a.divisor, b.divisor, ab.cost, ab.divisor);
  }

  /** Two multipliers in a row act as their product. */
  lemma MultipliedTwice(u: Unit, a: Multiplier, b: Multiplier)
    requires a.divisor != 0.0 && b.divisor != 0.0
    ensures Multiplied(Multiplied(u, a), b) == Multiplied(u, Compose(a, b))
  {
    var ab := Compose(a, b);
    TwicePlant(u, a, b, ab);
    TwiceLinear(u, a, b, ab);
    TwiceQuadratic(u, a, b, ab);
    var v, w := Multiplied(Multiplied(u, a), b), Multiplied(u, ab);
    assert v.cost == u.cost.(c0 := v.cost.c0, c1 := v.cost.c1, c2 := v.cost.c2);
    assert w.cost == u.cost.(c0 := w.cost.c0, c1 := w.cost.c1, c2 := w.cost.c2);
  }

  /** Rows depend on the buses and resources only. */
  lemma SameRows(a: Grid, c: Grid, ct: Changes)
    requires a.bus == c.bus && a.resources == c.resources
    ensures DcLineRows(a, OrEmpty(ct.newDcline)) == DcLineRows(c, OrEmpty(ct.newDcline))
    ensures PlantRows(a, OrEmpty(ct.newPlant)) == PlantRows(c, OrEmpty(ct.newPlant))
    ensures CostRows(a, OrEmpty(ct.newPlant)) == CostRows(c, OrEmpty(ct.newPlant))
  {
  }

  /** What the additions make of each table. */
  lemma AdditionTables(z: Grid, ct: Changes, geo: Geography)
    ensures var a := Added(z, ct, geo);
      && a.bus == z.bus.AppendAll(NewBusRows(z.bus, OrEmpty(ct.newBus)))
      && a.dcline == z.dcline.AppendAll(DcLineRows(a, OrEmpty(ct.newDcline)))
      && a.plant == z.plant.AppendAll(PlantRows(a, OrEmpty(ct.newPlant)))
      && a.gencost == z.gencost.AppendAll(CostRows(a, OrEmpty(ct.newPlant)))
      && a.zones == z.zones && a.resources == z.resources
      && a.sub == AddBuses(z, OrEmpty(ct.newBus)).sub && a.bus2sub == AddBuses(z, OrEmpty(ct.newBus)).bus2sub
      && a.storageGen == z.storageGen + StorageUnits(OrEmpty(ct.storage))
      && a.storageData == z.storageData + StorageRows(a.plant.NextId(), OrEmpty(ct.storage))
  {
    hide NewBusRow, DcLineRow, PlantRow, CostRow, StorageRow, AddBuses, Table.AppendAll;
    AddBusesFrame(z, OrEmpty(ct.newBus));
    AddBusesBus(z, OrEmpty(ct.newBus));
    var a := Added(z, ct, geo);
    var b := AddBuses(z, OrEmpty(ct.newBus));
    var c := if ct.newBranch.Some? then AddBranches(b, geo, ct.newBranch.value) else b;
    var d := AddDcLines(c, OrEmpty(ct.newDcline));
    SameRows(a, c, ct);
    SameRows(a, d, ct);
  }

  lemma ZonedIsWellFormed(g: Grid, ct: Changes)
    requires WellFormed(g) && SameIds(g)
    ensures WellFormed(ByZone(g, ct)) && SameIds(ByZone(g, ct))
    ensures OnlyRows(g.plant, ByZone(g, ct).plant) && OnlyRows(g.branch, ByZone(g, ct).branch)
  {
  }

  /** The tables at the end of the additions, and what the later phases may do to them. */
  lemma AddedTables(g: Grid, ct: Changes, geo: Geography)
    requires WellFormed(g) && SameIds(g)
    ensures var z := ByZone(g, ct); var a := Added(z, ct, geo);
      && SameIds(z) && SameIds(a) && WellFormed(z)
      && OnlyRows(g.plant, z.plant) && OnlyRows(g.branch, z.branch)
      && z.bus == g.bus && z.dcline == g.dcline && z.sub == g.sub && z.bus2sub == g.bus2sub && z.zones == g.zones
      && z.resources == g.resources && z.storageGen == g.storageGen && z.storageData == g.storageData
      && a.bus == g.bus.AppendAll(NewBusRows(g.bus, OrEmpty(ct.newBus)))
      && a.dcline == g.dcline.AppendAll(DcLineRows(a, OrEmpty(ct.newDcline)))
      && a.plant == z.plant.AppendAll(PlantRows(a, OrEmpty(ct.newPlant)))
      && a.gencost == z.gencost.AppendAll(CostRows(a, OrEmpty(ct.newPlant)))
      && a.zones == g.zones && a.resources == g.resources
      && a.sub == AddBuses(z, OrEmpty(ct.newBus)).sub && a.bus2sub == AddBuses(z, OrEmpty(ct.newBus)).bus2sub
      && a.storageGen == g.storageGen + StorageUnits(OrEmpty(ct.storage))
      && a.storageData == g.storageData + StorageRows(a.plant.NextId(), OrEmpty(ct.storage))
  {
    hide ZoneScaled, ZoneScaledBranch, WellFormed, AddBuses, Added, NewBusRows, DcLineRows, PlantRows, CostRows,
         StorageRows, StorageUnits;
    ZonedIsWellFormed(g, ct);
    AdditionsKeepSameIds(ByZone(g, ct), ct, geo);
    AdditionTables(ByZone(g, ct), ct, geo);
  }

  lemma AddedFrame(g: Grid, ct: Changes, geo: Geography)
    requires WellFormed(g) && SameIds(g)
    ensures SameIds(ByZone(g, ct)) && SameIds(Added(ByZone(g, ct), ct, geo))
    ensures Added(ByZone(g, ct), ct, geo).resources == g.resources
  {
    ZonedIsWellFormed(g, ct);
    AdditionsKeepSameIds(ByZone(g, ct), ct, geo);
  }

  /** The branch rows before id scaling and removal. */
  lemma AddedBranches(g: Grid, ct: Changes, geo: Geography)
    requires WellFormed(g) && SameIds(g)
    ensures var z := ByZone(g, ct); var a := Added(z, ct, geo); var v2x := geo.reactancePerDistance(a.bus, z.branch);
      a.branch == if ct.newBranch.None? then z.branch
                  else z.branch.AppendAll(BranchRows(a, geo, v2x, ct.newBranch.value))
  {
    hide ZoneScaled, ZoneScaledBranch, NewBranchRow;
    var z := ByZone(g, ct);
    ZonedIsWellFormed(g, ct);
    AddBusesFrame(z, OrEmpty(ct.newBus));
    var a, b := Added(z, ct, geo), AddBuses(z, OrEmpty(ct.newBus));
    if ct.newBranch.Some? {
      var v2x := geo.reactancePerDistance(a.bus, z.branch);
      assert BranchRows(a, geo, v2x, ct.newBranch.value) == BranchRows(b, geo, v2x, ct.newBranch.value);
    }
  }

  /** Every factor that applies to a pre-existing unit: its zone's and its id's. */
  ghost function FullMultiplier(g: Grid, ct: Changes, k: int): (m: Multiplier)
    requires SameIds(g) && k in g.plant.rows
    ensures m.divisor != 0.0
  {
    Compose(ZoneMultiplier(ct, g.resources, UnitAt(g, k)), IdMultiplier(ct, g.resources.all, g.resources.thermal, k))
  }

  /** What the i-th new_plant entry adds, before id scaling. */
  ghost function EntryUnit(g: Grid, ct: Changes, geo: Geography, e: NewPlant): Unit
    requires SameIds(g)
  {
    var a := Added(ByZone(g, ct), ct, geo);
    Unit(PlantRow(a, e), CostRow(a, e))
  }

  lemma KeysOf<R>(t: Table<R>, u: Table<R>)
    requires OnlyRows(t, u)
    ensures forall k :: k in t.rows <==> k in u.rows
    ensures t.NextId() == u.NextId()
  {
  }

  lemma WellFormedPlants(g: Grid)
    requires WellFormed(g)
    ensures g.plant.Valid() && g.gencost.Valid() && g.plant.NextId() == g.gencost.NextId()
  {
  }

  lemma PlantKeys(g: Grid, ct: Changes, geo: Geography)
    requires WellFormed(g) && SameIds(g)
    ensures var a := Added(ByZone(g, ct), ct, geo); var n := |OrEmpty(ct.newPlant)|;
      && SameIds(a) && a.plant.ids == g.plant.ids + seq(n, i => g.plant.NextId() + i)
      && (forall k :: k in a.plant.rows <==> k in g.plant.rows || g.plant.NextId() <= k < g.plant.NextId() + n)
      && a.plant.Valid()
  {
    hide WellFormed, ByZone, Added, PlantRows, CostRows;
    AddedTables(g, ct, geo);
    var z, a, es := ByZone(g, ct), Added(ByZone(g, ct), ct, geo), OrEmpty(ct.newPlant);
    AppendKeys(z.plant, PlantRows(a, es));
    AppendIds(z.plant, PlantRows(a, es));
    KeysOf(g.plant, z.plant);
    WellFormedPlants(z);
    AppendRows(z.plant, PlantRows(a, es));
  }

  /** A pre-existing unit before id scaling. */
  lemma OldUnit(g: Grid, ct: Changes, geo: Geography, k: int)
    requires WellFormed(g) && SameIds(g) && k in g.plant.rows
    ensures var a := Added(ByZone(g, ct), ct, geo);
      k in a.plant.rows && SameIds(a) && UnitAt(a, k) == ZoneScaled(ct, g.resources, UnitAt(g, k))
  {
    hide WellFormed, Added, PlantRows, CostRows, ZoneScaled, Table.Valid, Table.AppendAll;
    AddedTables(g, ct, geo);
    var z, a, es := ByZone(g, ct), Added(ByZone(g, ct), ct, geo), OrEmpty(ct.newPlant);
    WellFormedPlants(z);
    assert k in z.plant.rows && k in z.gencost.rows;
    KeptRow(z.plant, PlantRows(a, es), k);
    KeptRow(z.gencost, CostRows(a, es), k);
  }

  /** The unit of the i-th new entry before id scaling. */
  lemma NewUnit(g: Grid, ct: Changes, geo: Geography, i: nat, k: int)
    requires WellFormed(g) && SameIds(g) && i < |OrEmpty(ct.newPlant)| && k == g.plant.NextId() + i
    ensures var a := Added(ByZone(g, ct), ct, geo);
      k in a.plant.rows && SameIds(a) && UnitAt(a, k) == EntryUnit(g, ct, geo, OrEmpty(ct.newPlant)[i])
  {
    hide WellFormed, Added, ByZone, PlantRow, CostRow, Table.Valid, Table.AppendAll, Table.NextId;
    AddedTables(g, ct, geo);
    var z, a, es := ByZone(g, ct), Added(ByZone(g, ct), ct, geo), OrEmpty(ct.newPlant);
    WellFormedPlants(z);
    KeysOf(g.plant, z.plant);
    AppendedRow(z.plant, PlantRows(a, es), i);
    AppendedRow(z.gencost, CostRows(a, es), i);
  }

  lemma ByIdUnit(a: Grid, ct: Changes, k: int)
    requires SameIds(a) && k in a.plant.rows
    ensures var t := Removed(ById(a, ct), ct);
      SameIds(t) && t.plant.ids == a.plant.ids && t.plant.rows.Keys == a.plant.rows.Keys
      && UnitAt(t, k) == Multiplied(UnitAt(a, k), IdMultiplier(ct, a.resources.all, a.resources.thermal, k))
  {
  }

  lemma TransformedKeys(g: Grid, ct: Changes, geo: Geography)
    requires WellFormed(g) && SameIds(g)
    ensures var t, a := Transform(g, ct, geo), Added(ByZone(g, ct), ct, geo);
      SameIds(t) && t.plant.ids == a.plant.ids && t.plant.rows.Keys == a.plant.rows.Keys
  {
    hide IdScaled, IdScaledBranch, IdScaledDcLine, ByZone, Added, WellFormed;
    AddedFrame(g, ct, geo);
    var t, a := Transform(g, ct, geo), Added(ByZone(g, ct), ct, geo);
    assert t.plant.rows.Keys == a.plant.rows.Keys && t.gencost.rows.Keys == a.plant.rows.Keys;
  }

  /**
   * Order-free closed form for a pre-existing unit: its base values times the zone factors of its own
   * resource and the product of all id factors recorded for it. No visiting order appears, and zero
   * factors are left out of the divisor of c2.
   */
  lemma ScalingClosedForm(g: Grid, ct: Changes, geo: Geography, k: int)
    requires WellFormed(g) && SameIds(g) && k in g.plant.rows
    ensures var t := Transform(g, ct, geo);
      k in t.plant.rows && SameIds(t) && UnitAt(t, k) == Multiplied(UnitAt(g, k), FullMultiplier(g, ct, k))
  {
    hide Multiplied, ZoneMultiplier, IdMultiplier, Compose, ZoneScaled, WellFormed, ById, Removed, Added, ByZone;
    AddedFrame(g, ct, geo);
    OldUnit(g, ct, geo, k);
    ByIdUnit(Added(ByZone(g, ct), ct, geo), ct, k);
    var u := UnitAt(g, k);
    ZoneScaledIsMultiplied(ct, g.resources, u);
    MultipliedTwice(u, ZoneMultiplier(ct, g.resources, u), IdMultiplier(ct, g.resources.all, g.resources.thermal, k));
  }

  lemma NewIdIsFresh(g: Grid, i: nat)
    requires WellFormed(g)
    ensures g.plant.NextId() + i !in g.plant.rows
  {
  }

  /** The same for the i-th new_plant entry, which gets id `k`: its own values times the id factors only. */
  lemma NewPlantClosedForm(g: Grid, ct: Changes, geo: Geography, i: nat, k: int)
    requires WellFormed(g) && SameIds(g) && i < |OrEmpty(ct.newPlant)| && k == g.plant.NextId() + i
    ensures k !in g.plant.rows
    ensures var t := Transform(g, ct, geo);
      && k in t.plant.rows && SameIds(t)
      && UnitAt(t, k) == Multiplied(EntryUnit(g, ct, geo, OrEmpty(ct.newPlant)[i]),
                                    IdMultiplier(ct, g.resources.all, g.resources.thermal, k))
  {
    hide Multiplied, IdMultiplier, ById, Removed, Added, ByZone, EntryUnit, WellFormed, Table.Valid, Table.NextId;
    AddedFrame(g, ct, geo);
    var a, u := Added(ByZone(g, ct), ct, geo), EntryUnit(g, ct, geo, OrEmpty(ct.newPlant)[i]);
    NewUnit(g, ct, geo, i, k);
    assert UnitAt(a, k) == u;
    NewIdIsFresh(g, i);
    ByIdUnit(a, ct, k);
  }

  /** The plant stands at the bus of its entry, in that bus's zone and interconnect. */
  predicate StandsAt(g: Grid, ct: Changes, e: NewPlant, p: Plant) {
    var bus := g.bus.AppendAll(NewBusRows(g.bus, OrEmpty(ct.newBus)));
    && p.bus == e.bus && p.resource == e.resource
    && (e.bus in bus.rows ==> p.zone == bus.rows[e.bus].zone && p.interconnect == bus.rows[e.bus].interconnect)
  }

  /** The limits of an entry times the factors recorded for its id. */
  predicate LimitsTimes(e: NewPlant, m: Multiplier, p: Plant) {
    p.pmax == e.pmax * m.cap && p.pmin == e.pmin * m.cap * m.pmin
  }

  /** A quadratic cost: the terms of a thermal entry times their factors, and nothing for any other. */
  predicate CostsTimes(res: Resources, e: NewPlant, m: Multiplier, c: GenCost)
    requires m.divisor != 0.0
  {
    && c.model == 2 && c.n == 3
    && (e.resource in res.thermal && e.terms.Some? ==>
          && c.c0 == e.terms.value.c0 * m.heat * m.cost && c.c1 == e.terms.value.c1 * m.cost
          && c.c2 == e.terms.value.c2 * m.cost / m.divisor)
    && (e.resource !in res.thermal ==> c.c0 == 0.0 && c.c1 == 0.0 && c.c2 == 0.0)
  }

  lemma ZeroTimes(x: real, y: real, d: real)
    requires d != 0.0
    ensures 0.0 * x * y == 0.0 && 0.0 * y == 0.0 && 0.0 * y / d == 0.0
  {
  }

  lemma CostWrittenOut(g: Grid, e: NewPlant, p: Plant, m: Multiplier)
    requires m.divisor != 0.0
    ensures CostsTimes(g.resources, e, m, Multiplied(Unit(p, CostRow(g, e)), m).cost)
  {
    ZeroTimes(m.heat, m.cost, m.divisor);
  }

  lemma PlantWrittenOut(g: Grid, a: Grid, ct: Changes, e: NewPlant, c: GenCost, m: Multiplier)
    requires m.divisor != 0.0 && a.bus == g.bus.AppendAll(NewBusRows(g.bus, OrEmpty(ct.newBus)))
    ensures var p := Multiplied(Unit(PlantRow(a, e), c), m).plant; StandsAt(g, ct, e, p) && LimitsTimes(e, m, p)
  {
    hide NewBusRows, Table.AppendAll;
  }

  /**
   * The same in terms of the entry: a thermal plant costs what its entry says, times its id factors, any
   * other nothing; it has the limits of its entry times its id factors, and the zone and the
   * interconnect of the bus its entry names.
   */
  lemma NewPlantIsItsEntry(g: Grid, ct: Changes, geo: Geography, i: nat, k: int)
    requires WellFormed(g) && SameIds(g) && i < |OrEmpty(ct.newPlant)| && k == g.plant.NextId() + i
    ensures var t, e := Transform(g, ct, geo), OrEmpty(ct.newPlant)[i];
      var m := IdMultiplier(ct, g.resources.all, g.resources.thermal, k);
      && k in t.plant.rows && k in t.gencost.rows
      && StandsAt(g, ct, e, t.plant.rows[k]) && LimitsTimes(e, m, t.plant.rows[k])
      && CostsTimes(g.resources, e, m, t.gencost.rows[k])
  {
    hide Multiplied, IdMultiplier, Transform, Added, ByZone, WellFormed, Table.Valid, Table.NextId, Table.AppendAll,
         NewBusRows, StandsAt, LimitsTimes, CostsTimes, PlantRow, CostRow;
    NewPlantClosedForm(g, ct, geo, i, k);
    AddedTables(g, ct, geo);
    var a, e := Added(ByZone(g, ct), ct, geo), OrEmpty(ct.newPlant)[i];
    var m := IdMultiplier(ct, g.resources.all, g.resources.thermal, k);
    CostWrittenOut(a, e, PlantRow(a, e), m);
    PlantWrittenOut(g, a, ct, e, CostRow(a, e), m);
  }

  /** Without a recorded factor it is 1. */
  predicate RecordedOr1(m: map<string, Factors>, r: string, k: int, byId: bool, f: real) {
    var recorded := if r !in m then map[] else if byId then m[r].id else m[r].zone;
    if k in recorded then f == recorded[k] else f == 1.0
  }

  /** A factor is what its own family records for the zone or the id. */
  lemma FactorsAreRecorded(ct: Changes, r: string, k: int)
    ensures RecordedOr1(ct.capacity, r, k, false, ZoneFactor(ct, Capacity, r, k))
    ensures RecordedOr1(ct.cost, r, k, false, ZoneFactor(ct, Cost, r, k))
    ensures RecordedOr1(ct.pmin, r, k, false, ZoneFactor(ct, MinGen, r, k))
    ensures RecordedOr1(ct.capacity, r, k, true, IdFactor(ct, Capacity, r, k))
    ensures RecordedOr1(ct.cost, r, k, true, IdFactor(ct, Cost, r, k))
    ensures RecordedOr1(ct.pmin, r, k, true, IdFactor(ct, MinGen, r, k))
  {
  }

  /** Zone factor times the product of the id factors, kind by kind; c0 and c2 follow the capacity if thermal. */
  ghost predicate FullFactors(g: Grid, ct: Changes, k: int, m: Multiplier)
    requires k in g.plant.rows
  {
    var p, res := g.plant.rows[k], g.resources;
    var r, z, hot := p.resource, p.zone, res.all * res.thermal;
    && m.cap == ZoneFactor(ct, Capacity, r, z) * Product(IdFactors(ct, Capacity, res.all, k))
    && m.cost == ZoneFactor(ct, Cost, r, z) * Product(IdFactors(ct, Cost, res.all, k))
    && m.pmin == ZoneFactor(ct, MinGen, r, z) * Product(IdFactors(ct, MinGen, res.all, k))
    && var heat := if r in res.thermal then ZoneFactor(ct, Capacity, r, z) else 1.0;
    && m.heat == heat * Product(IdFactors(ct, Capacity, hot, k))
    && m.divisor == (if heat == 0.0 then 1.0 else heat) * Product(Divisors(ct, hot, k))
  }

  lemma FullMultiplierIs(g: Grid, ct: Changes, k: int)
    requires SameIds(g) && k in g.plant.rows && g.plant.rows[k].resource in g.resources.all
    ensures FullFactors(g, ct, k, FullMultiplier(g, ct, k))
  {
    hide ZoneFactor, Product, IdFactors, Divisors;
  }

  lemma UnitWrittenOut(u: Unit, m: Multiplier)
    requires m.divisor != 0.0
    ensures var v := Multiplied(u, m);
      && v.plant == u.plant.(pmax := u.plant.pmax * m.cap, pmin := u.plant.pmin * m.cap * m.pmin)
      && v.cost == u.cost.(c0 := u.cost.c0 * m.heat * m.cost, c1 := u.cost.c1 * m.cost,
                           c2 := u.cost.c2 * m.cost / m.divisor)
  {
  }

  /** A pre-existing unit in terms of the base grid and of the recorded factors. */
  lemma OldPlantIsScaled(g: Grid, ct: Changes, geo: Geography, k: int)
    requires WellFormed(g) && SameIds(g) && k in g.plant.rows && g.plant.rows[k].resource in g.resources.all
    ensures var t := Transform(g, ct, geo);
      && k in t.plant.rows && k in t.gencost.rows
      && exists m: Multiplier | FullFactors(g, ct, k, m) && m.divisor != 0.0 ::
           var p, c := g.plant.rows[k], g.gencost.rows[k];
           && t.plant.rows[k] == p.(pmax := p.pmax * m.cap, pmin := p.pmin * m.cap * m.pmin)
           && t.gencost.rows[k] ==
              c.(c0 := c.c0 * m.heat * m.cost, c1 := c.c1 * m.cost, c2 := c.c2 * m.cost / m.divisor)
  {
    hide Multiplied, Transform, WellFormed, FullMultiplier, FullFactors;
    ScalingClosedForm(g, ct, geo, k);
    FullMultiplierIs(g, ct, k);
    UnitWrittenOut(UnitAt(g, k), FullMultiplier(g, ct, k));
  }

  function BranchFactor(ct: Changes, b: Branch, k: int): real {
    var m := OrNoFactors(ct.branch);
    (if b.fromZone == b.toZone then Factor(m.zone, b.fromZone) else 1.0) * Factor(m.id, k)
  }

  lemma SameProduct(rate: real, x: Reactance, f: real)
    ensures x.Finite? && f != 0.0 ==> x.DividedBy(f).Finite? && rate * f * x.DividedBy(f).value == rate * x.value
  {
    if x.Finite? && f != 0.0 {
      var q := x.value / f;
      assert q * f == x.value;
      assert rate * f * q == rate * (q * f);
    }
  }

  lemma AfterIdScaling(a: Grid, ct: Changes, k: int)
    requires SameIds(a) && k in a.branch.rows && k !in OrNone(ct.removeBranch)
    ensures var t := Removed(ById(a, ct), ct);
      k in t.branch.rows && t.branch.rows[k] == IdScaledBranch(OrNoFactors(ct.branch).id, k, a.branch.rows[k])
  {
  }

  lemma WellFormedBranches(g: Grid)
    requires WellFormed(g)
    ensures g.branch.Valid() && g.dcline.Valid() && g.bus.Valid()
  {
  }

  lemma BeforeIdScaling(g: Grid, ct: Changes, geo: Geography, k: int)
    requires WellFormed(g) && SameIds(g) && k in g.branch.rows
    ensures var a := Added(ByZone(g, ct), ct, geo);
      && SameIds(a) && k in a.branch.rows
      && a.branch.rows[k] == ZoneScaledBranch(OrNoFactors(ct.branch).zone, g.branch.rows[k])
  {
    hide ZoneScaled, ZoneScaledBranch, Added, BranchRows, Table.Valid;
    AddedTables(g, ct, geo);
    AddedBranches(g, ct, geo);
    var z, a := ByZone(g, ct), Added(ByZone(g, ct), ct, geo);
    WellFormedBranches(z);
    if ct.newBranch.Some? {
      AppendRows(z.branch, BranchRows(a, geo, geo.reactancePerDistance(a.bus, z.branch), ct.newBranch.value));
    }
  }

  lemma DividedTwice(x: real, f: real, h: real, fh: real)
    requires f != 0.0 && h != 0.0 && fh == f * h
    ensures fh != 0.0 && x / f / h == x / fh
  {
  }

  lemma ScaledTwice(b: Branch, f: real, h: real, fh: real)
    requires fh == f * h
    ensures ScaledBranch(ScaledBranch(b, f), h) == b.(rateA := b.rateA * fh, x := b.x.DividedBy(fh))
  {
    assert b.rateA * f * h == b.rateA * fh;
    if b.x.Finite? && f != 0.0 && h != 0.0 {
      DividedTwice(b.x.value, f, h, fh);
    }
  }

  lemma BranchByOne(b: Branch)
    ensures b.x.Finite? ==> ScaledBranch(b, 1.0) == b
    ensures ScaledBranch(b, 1.0).rateA == b.rateA && ScaledBranch(b, 1.0) == b
  {
  }

  lemma TwoScalings(ct: Changes, b: Branch, k: int)
    ensures var m, f := OrNoFactors(ct.branch), BranchFactor(ct, b, k);
      IdScaledBranch(m.id, k, ZoneScaledBranch(m.zone, b)) == b.(rateA := b.rateA * f, x := b.x.DividedBy(f))
  {
    hide ScaledBranch;
    var m := OrNoFactors(ct.branch);
    var f := if b.fromZone == b.toZone then Factor(m.zone, b.fromZone) else 1.0;
    var h := Factor(m.id, k);
    var z := ZoneScaledBranch(m.zone, b);
    BranchByOne(b);
    BranchByOne(z);
    assert z == ScaledBranch(b, f);
    var r := IdScaledBranch(m.id, k, z);
    assert r == ScaledBranch(z, h);
    ScaledTwice(b, f, h, BranchFactor(ct, b, k));
  }

  /**
   * A pre-existing branch that is not removed keeps its ends; its capacity is multiplied and its
   * reactance divided by its zone and id factors, so that for nonzero factors their product is unchanged.
   */
  lemma BranchScaling(g: Grid, ct: Changes, geo: Geography, k: int)
    requires WellFormed(g) && SameIds(g) && k in g.branch.rows && k !in OrNone(ct.removeBranch)
    ensures var b, t, f := g.branch.rows[k], Transform(g, ct, geo), BranchFactor(ct, g.branch.rows[k], k);
      && k in t.branch.rows
      && t.branch.rows[k] == b.(rateA := b.rateA * f, x := b.x.DividedBy(f))
      && (b.x.Finite? && f != 0.0 ==>
            t.branch.rows[k].x.Finite? && t.branch.rows[k].rateA * t.branch.rows[k].x.value == b.rateA * b.x.value)
  {
    hide WellFormed, ByZone, Added, ScaledBranch, BranchFactor, ZoneScaledBranch, IdScaledBranch, ById, Removed,
         Table.Valid;
    AddedFrame(g, ct, geo);
    BeforeIdScaling(g, ct, geo, k);
    AfterIdScaling(Added(ByZone(g, ct), ct, geo), ct, k);
    var b, f := g.branch.rows[k], BranchFactor(ct, g.branch.rows[k], k);
    TwoScalings(ct, b, k);
    SameProduct(b.rateA, b.x, f);
  }

  lemma StorageId(id: int, e: NewStorage)
    ensures StorageRow(id, e).unitIdx == id
  {
  }

  lemma NextAfter(g: Grid, ct: Changes, t: Table<Plant>)
    requires t.ids == g.plant.ids + seq(|OrEmpty(ct.newPlant)|, i => g.plant.NextId() + i)
    ensures g.plant.ids != [] ==> t.NextId() == g.plant.NextId() + |OrEmpty(ct.newPlant)|
  {
  }

  /** The storage units are not touched after the additions. */
  lemma StorageKept(g: Grid, ct: Changes, geo: Geography)
    requires WellFormed(g) && SameIds(g)
    ensures var t, a := Transform(g, ct, geo), Added(ByZone(g, ct), ct, geo);
      t.storageData == a.storageData && t.storageGen == a.storageGen
  {
  }

  /** Charges and discharges at its capacity, starts half full, and keeps to its entry's shares of its energy. */
  predicate StoresAs(e: NewStorage, u: StorageGen, d: StorageData) {
    && u.bus == e.bus && u.pmin == -e.capacity && u.pmax == e.capacity
    && d.initial == e.capacity * e.duration / 2.0
    && d.minLevel == e.capacity * e.duration * e.minStor && d.maxLevel == e.capacity * e.duration * e.maxStor
    && d.terminalMin == e.capacity * e.duration * e.terminalMin
    && d.terminalMax == e.capacity * e.duration * e.terminalMax
    && d.price == e.energyValue && d.inEff == e.inEff && d.outEff == e.outEff && d.lossFactor == e.lossFactor
  }

  lemma StorageWrittenOut(id: int, e: NewStorage)
    ensures StoresAs(e, StorageUnit(e), StorageRow(id, e))
  {
  }

  /** The earlier storage units are kept, and the others are what the entries say. */
  predicate StorageGrows(g: Grid, es: seq<NewStorage>, gen: seq<StorageGen>, data: seq<StorageData>) {
    var n, m := |g.storageGen|, |g.storageData|;
    && |gen| == n + |es| && gen[..n] == g.storageGen && |data| == m + |es| && data[..m] == g.storageData
    && forall i :: 0 <= i < |es| ==> StoresAs(es[i], gen[n + i], data[m + i])
  }

  lemma StorageJoined(g: Grid, es: seq<NewStorage>, gen: seq<StorageGen>, data: seq<StorageData>)
    requires |gen| == |es| == |data| && forall i :: 0 <= i < |es| ==> StoresAs(es[i], gen[i], data[i])
    ensures StorageGrows(g, es, g.storageGen + gen, g.storageData + data)
  {
    hide StoresAs;
  }

  lemma StorageAppended(g: Grid, es: seq<NewStorage>, first: int)
    ensures StorageGrows(g, es, g.storageGen + StorageUnits(es), g.storageData + StorageRows(first, es))
  {
    hide StoresAs, StorageUnit, StorageRow, StorageGrows;
    var gen, data := StorageUnits(es), StorageRows(first, es);
    forall i | 0 <= i < |es|
      ensures StoresAs(es[i], gen[i], data[i])
    {
      StorageWrittenOut(first + i, es[i]);
    }
    StorageJoined(g, es, gen, data);
  }

  /** Base storage units stay as they are, and the i-th new one is what its entry says. */
  lemma NewStorageIsItsEntry(g: Grid, ct: Changes, geo: Geography)
    requires WellFormed(g) && SameIds(g)
    ensures var t := Transform(g, ct, geo); StorageGrows(g, OrEmpty(ct.storage), t.storageGen, t.storageData)
  {
    hide WellFormed, ByZone, Added, Transform, StorageUnits, StorageRows, StorageGrows, Table.NextId;
    AddedTables(g, ct, geo);
    StorageKept(g, ct, geo);
    StorageAppended(g, OrEmpty(ct.storage), Added(ByZone(g, ct), ct, geo).plant.NextId());
  }

  lemma StorageNumbers(g: Grid, ct: Changes, geo: Geography)
    requires WellFormed(g) && SameIds(g)
    ensures var t := Transform(g, ct, geo);
      && |t.storageData| == |g.storageData| + |OrEmpty(ct.storage)|
      && (forall j :: |g.storageData| <= j < |t.storageData| && g.plant.ids != [] ==>
            && t.storageData[j].unitIdx == g.plant.NextId() + |OrEmpty(ct.newPlant)| + (j - |g.storageData|)
            && t.storageData[j].unitIdx !in t.plant.rows)
  {
    hide WellFormed, ByZone, Added, Transform, StorageRow, Table.NextId, Table.Valid;
    AddedTables(g, ct, geo);
    PlantKeys(g, ct, geo);
    TransformedKeys(g, ct, geo);
    StorageKept(g, ct, geo);
    var a, t, es := Added(ByZone(g, ct), ct, geo), Transform(g, ct, geo), OrEmpty(ct.storage);
    OldIdsAreSmaller(a.plant);
    NextAfter(g, ct, a.plant);
    forall j | |g.storageData| <= j < |t.storageData|
      ensures t.storageData[j].unitIdx == a.plant.NextId() + (j - |g.storageData|)
      ensures t.storageData[j].unitIdx !in t.plant.rows
    {
      var i := j - |g.storageData|;
      assert t.storageData[j] == StorageRows(a.plant.NextId(), es)[i];
      StorageId(a.plant.NextId() + i, es[i]);
      assert a.plant.NextId() + i !in a.plant.rows.Keys;
    }
  }

  /**
   * Id assignment. The i-th added bus, branch, DC line or plant gets last base id + 1 + i, whatever
   * else the change table holds; gencost ids equal plant ids; the new storage units are numbered
   * consecutively after the last plant, so never like a plant.
   */
  lemma IdAssignment(g: Grid, ct: Changes, geo: Geography)
    requires WellFormed(g) && SameIds(g)
    ensures var t := Transform(g, ct, geo);
      && t.plant.ids == t.gencost.ids == g.plant.ids + seq(|OrEmpty(ct.newPlant)|, i => g.plant.NextId() + i)
      && t.dcline.ids == g.dcline.ids + seq(|OrEmpty(ct.newDcline)|, i => g.dcline.NextId() + i)
      && t.bus.ids == Reject(g.bus.ids + seq(|OrEmpty(ct.newBus)|, i => g.bus.NextId() + i), OrNone(ct.removeBus))
      && t.branch.ids ==
           Reject(g.branch.ids + seq(|OrEmpty(ct.newBranch)|, i => g.branch.NextId() + i), OrNone(ct.removeBranch))
      && (forall j :: |g.storageData| <= j < |t.storageData| && g.plant.ids != [] ==>
            && t.storageData[j].unitIdx == g.plant.NextId() + |OrEmpty(ct.newPlant)| + (j - |g.storageData|)
            && t.storageData[j].unitIdx !in t.plant.rows)
      && |t.storageData| == |g.storageData| + |OrEmpty(ct.storage)|
  {
    hide WellFormed, ByZone, Added, IdScaled, IdScaledBranch, IdScaledDcLine, BranchRows, PlantRows, NewBusRows,
         DcLineRows, StorageRow;
    AddedTables(g, ct, geo);
    AddedBranches(g, ct, geo);
    PlantKeys(g, ct, geo);
    TransformedKeys(g, ct, geo);
    var z, a := ByZone(g, ct), Added(ByZone(g, ct), ct, geo);
    AppendIds(g.bus, NewBusRows(g.bus, OrEmpty(ct.newBus)));
    AppendIds(g.dcline, DcLineRows(a, OrEmpty(ct.newDcline)));
    assert z.branch.NextId() == g.branch.NextId();
    if ct.newBranch.Some? {
      AppendIds(z.branch, BranchRows(a, geo, geo.reactancePerDistance(a.bus, z.branch), ct.newBranch.value));
    } else {
      assert g.branch.ids + seq(|OrEmpty(ct.newBranch)|, i => g.branch.NextId() + i) == g.branch.ids;
    }
    StorageNumbers(g, ct, geo);
  }

  lemma RejectedIds<R>(t: Table<R>, n: nat, drop: set<int>)
    requires t.Valid()
    ensures var ids := t.ids + seq(n, i => t.NextId() + i);
      && Ascending(Reject(ids, drop))
      && (forall k :: k in Reject(ids, drop) <==> k !in drop && (k in t.ids || t.NextId() <= k < t.NextId() + n))
      && (forall k :: t.NextId() <= k ==> k !in t.ids)
  {
    var ids := t.ids + seq(n, i => t.NextId() + i);
    OldIdsAreSmaller(t);
    forall k
      ensures k in ids <==> k in t.ids || t.NextId() <= k < t.NextId() + n
    {
      if t.NextId() <= k < t.NextId() + n {
        assert ids[|t.ids| + (k - t.NextId())] == k;
      }
    }
    forall i, j | 0 <= i < j < |ids|
      ensures ids[i] < ids[j]
    {
      assert i < |t.ids| ==> ids[i] in t.ids;
    }
    RejectMembers(ids, drop);
    RejectAscends(ids, drop);
  }

  /**
   * Which bus and branch ids the transformed grid has: the base ids and one new id per entry, less the
   * removed ones, in ascending order; no new id is a base id.
   */
  lemma AssignedIds(g: Grid, ct: Changes, geo: Geography)
    requires WellFormed(g) && SameIds(g)
    ensures var t, n := Transform(g, ct, geo), |OrEmpty(ct.newBus)|;
      && Ascending(t.bus.ids)
      && (forall k :: k in t.bus.ids <==> k !in OrNone(ct.removeBus)
                                          && (k in g.bus.ids || g.bus.NextId() <= k < g.bus.NextId() + n))
      && (forall k :: g.bus.NextId() <= k ==> k !in g.bus.ids)
    ensures var t, n := Transform(g, ct, geo), |OrEmpty(ct.newBranch)|;
      && Ascending(t.branch.ids)
      && (forall k :: k in t.branch.ids <==> k !in OrNone(ct.removeBranch)
                                             && (k in g.branch.ids || g.branch.NextId() <= k < g.branch.NextId() + n))
      && (forall k :: g.branch.NextId() <= k ==> k !in g.branch.ids)
  {
    hide WellFormed, Transform, Table.NextId;
    IdAssignment(g, ct, geo);
    WellFormedBranches(g);
    RejectedIds(g.bus, |OrEmpty(ct.newBus)|, OrNone(ct.removeBus));
    RejectedIds(g.branch, |OrEmpty(ct.newBranch)|, OrNone(ct.removeBranch));
  }
}

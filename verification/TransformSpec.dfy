/**
 * What the change table does to a grid, without reference to any iteration order
 * (powersimdata/input/transform_grid.py).
 */
module TransformSpec {
  import opened Reals
  import opened Tables
  import opened GridModel
  import opened Products

  /** The three families of generator scaling factors. */
  datatype Kind = Capacity | Cost | MinGen

  function Family(ct: Changes, kind: Kind): map<string, Factors> {
    match kind
    case Capacity => ct.capacity
    case Cost => ct.cost
    case MinGen => ct.pmin
  }

  function Factor(m: map<int, real>, k: int): real {
    if k in m then m[k] else 1.0
  }

  /** One scaling: capacity also rescales the cost curve of thermal units, dividing c2 unless the factor is 0. */
  function Scaled(kind: Kind, thermal: bool, u: Unit, f: real): (v: Unit)
    ensures v.plant == u.plant.(pmax := v.plant.pmax, pmin := v.plant.pmin)
    ensures v.cost == u.cost.(c0 := v.cost.c0, c1 := v.cost.c1, c2 := v.cost.c2)
  {
    match kind
    case Capacity =>
      Unit(u.plant.(pmax := u.plant.pmax * f, pmin := u.plant.pmin * f),
           if !thermal then u.cost
           else u.cost.(c0 := u.cost.c0 * f, c2 := if f != 0.0 then u.cost.c2 / f else u.cost.c2))
    case Cost => u.(cost := u.cost.(c0 := u.cost.c0 * f, c1 := u.cost.c1 * f, c2 := u.cost.c2 * f))
    case MinGen => u.(plant := u.plant.(pmin := u.plant.pmin * f))
  }

  /** The factor of resource `r` in zone `z` (1 when the change table has none). */
  function ZoneFactor(ct: Changes, kind: Kind, r: string, z: int): real {
    if r in Family(ct, kind) then Factor(Family(ct, kind)[r].zone, z) else 1.0
  }

  /** The factor recorded for id `k` under resource `r`, whatever the resource of `k`. */
  function IdFactor(ct: Changes, kind: Kind, r: string, k: int): real {
    if r in Family(ct, kind) then Factor(Family(ct, kind)[r].id, k) else 1.0
  }

  /** Zone scaling of a pre-existing unit: only the factors of its own resource apply. */
  function ZoneScaled(ct: Changes, res: Resources, u: Unit): (v: Unit)
    ensures v.plant == u.plant.(pmax := v.plant.pmax, pmin := v.plant.pmin)
  {
    if u.plant.resource !in res.all then u
    else
      var r, z, thermal := u.plant.resource, u.plant.zone, u.plant.resource in res.thermal;
      Scaled(MinGen, thermal,
        Scaled(Cost, thermal,
          Scaled(Capacity, thermal, u, ZoneFactor(ct, Capacity, r, z)), ZoneFactor(ct, Cost, r, z)),
        ZoneFactor(ct, MinGen, r, z))
  }

  function IdFactors(ct: Changes, kind: Kind, rs: set<string>, k: int): map<string, real> {
    map r | r in rs :: IdFactor(ct, kind, r, k)
  }

  function NonZero(x: real): real { if x == 0.0 then 1.0 else x }

  function Divisors(ct: Changes, rs: set<string>, k: int): map<string, real> {
    map r | r in rs :: NonZero(IdFactor(ct, Capacity, r, k))
  }

  /** What a set of scalings multiplies a unit's numbers by; `heat` and `divisor` act on c0 and c2. */
  datatype Multiplier = Multiplier(cap: real, cost: real, pmin: real, heat: real, divisor: real)

  function Multiplied(u: Unit, m: Multiplier): Unit
    requires m.divisor != 0.0
  {
    Unit(u.plant.(pmax := u.plant.pmax * m.cap, pmin := u.plant.pmin * m.cap * m.pmin),
         u.cost.(c0 := u.cost.c0 * m.heat * m.cost, c1 := u.cost.c1 * m.cost, c2 := u.cost.c2 * m.cost / m.divisor))
  }

  /** The products of all id factors that the resources `rs` record for id `k`. */
  ghost function IdMultiplier(ct: Changes, rs: set<string>, thermal: set<string>, k: int): (m: Multiplier)
    ensures m.divisor != 0.0
  {
    ProductNonZero(Divisors(ct, rs * thermal, k));
    Multiplier(Product(IdFactors(ct, Capacity, rs, k)), Product(IdFactors(ct, Cost, rs, k)),
               Product(IdFactors(ct, MinGen, rs, k)),
               Product(IdFactors(ct, Capacity, rs * thermal, k)), Product(Divisors(ct, rs * thermal, k)))
  }

  /** Id scaling by the resources `rs`: every resource that lists `k` applies, in any order. */
  ghost function IdScaled(ct: Changes, rs: set<string>, thermal: set<string>, k: int, u: Unit): Unit {
    Multiplied(u, IdMultiplier(ct, rs, thermal, k))
  }

  /** Branches scale capacity up and reactance down. */
  function ScaledBranch(b: Branch, f: real): (r: Branch)
    ensures r == b.(rateA := r.rateA, x := r.x)
  {
    b.(rateA := b.rateA * f, x := b.x.DividedBy(f))
  }

  function ZoneScaledBranch(m: map<int, real>, b: Branch): (r: Branch)
    ensures r == b.(rateA := r.rateA, x := r.x)
  {
    if b.fromZone == b.toZone && b.fromZone in m then ScaledBranch(b, m[b.fromZone]) else b
  }

  function IdScaledBranch(m: map<int, real>, k: int, b: Branch): (r: Branch)
    ensures r == b.(rateA := r.rateA, x := r.x)
  {
    if k in m then ScaledBranch(b, m[k]) else b
  }

  /** A DC line scaled to nothing is switched off. */
  function ScaledDcLine(d: DcLine, f: real): (r: DcLine)
    ensures r.fromBus == d.fromBus && r.toBus == d.toBus
  {
    d.(pmin := d.pmin * f, pmax := d.pmax * f, status := if f == 0.0 then 0 else d.status)
  }

  function IdScaledDcLine(m: map<int, real>, k: int, d: DcLine): (r: DcLine)
    ensures r.fromBus == d.fromBus && r.toBus == d.toBus
  {
    if k in m then ScaledDcLine(d, m[k]) else d
  }

  /** The unit stored under id `k`. */
  function UnitAt(g: Grid, k: int): Unit
    requires k in g.plant.rows && k in g.gencost.rows
  {
    Unit(g.plant.rows[k], g.gencost.rows[k])
  }

  predicate SameIds(g: Grid) {
    g.plant.ids == g.gencost.ids && g.plant.rows.Keys == g.gencost.rows.Keys
  }

  /** `g` with its units replaced. */
  function WithUnits(g: Grid, us: map<int, Unit>): Grid {
    g.(plant := Table(g.plant.ids, map k | k in us :: us[k].plant),
       gencost := Table(g.gencost.ids, map k | k in us :: us[k].cost))
  }

  function OrNoFactors(o: Option<Factors>): Factors {
    if o.Some? then o.value else Factors(map[], map[])
  }

  function OrEmptyMap(o: Option<map<int, real>>): map<int, real> {
    if o.Some? then o.value else map[]
  }

  function ByZone(g: Grid, ct: Changes): Grid
    requires SameIds(g)
  {
    WithUnits(g, map k | k in g.plant.rows :: ZoneScaled(ct, g.resources, UnitAt(g, k))).(
      branch := Table(g.branch.ids,
                      map k | k in g.branch.rows :: ZoneScaledBranch(OrNoFactors(ct.branch).zone, g.branch.rows[k])))
  }

  ghost function ById(g: Grid, ct: Changes): Grid
    requires SameIds(g)
  {
    var res := g.resources;
    WithUnits(g, map k | k in g.plant.rows :: IdScaled(ct, res.all, res.thermal, k, UnitAt(g, k))).(
      branch := Table(g.branch.ids,
                      map k | k in g.branch.rows :: IdScaledBranch(OrNoFactors(ct.branch).id, k, g.branch.rows[k])),
      dcline := Table(g.dcline.ids,
                      map k | k in g.dcline.rows :: IdScaledDcLine(OrEmptyMap(ct.dcline), k, g.dcline.rows[k])))
  }

  /** Interconnect of the first bus of a zone. */
  function ZoneInterconnect(t: Table<Bus>, ids: seq<int>, z: int): Option<string> {
    if ids == [] then None
    else if ids[0] in t.rows && t.rows[ids[0]].zone == z then Some(t.rows[ids[0]].interconnect)
    else ZoneInterconnect(t, ids[1..], z)
  }

  function InterconnectOf(t: Table<Bus>, z: int): string {
    var i := ZoneInterconnect(t, t.ids, z);
    if i.Some? then i.value else ""
  }

  function NewBusRow(t: Table<Bus>, e: NewBus): Bus {
    Bus(e.zone, InterconnectOf(t, e.zone), e.lat, e.lon, e.baseKV, e.pd)
  }

  function NewBusRows(t: Table<Bus>, es: seq<NewBus>): (r: seq<Bus>)
    ensures |r| == |es| && forall i :: 0 <= i < |es| ==> r[i] == NewBusRow(t, es[i])
  {
    seq(|es|, i requires 0 <= i < |es| => NewBusRow(t, es[i]))
  }

  /** The first substation at the given coordinates. */
  function SubAt(t: Table<Substation>, ids: seq<int>, lat: real, lon: real): (r: Option<int>)
    ensures r.Some? ==> r.value in ids && r.value in t.rows && t.rows[r.value].lat == lat && t.rows[r.value].lon == lon
    ensures r.None? ==> forall k :: k in ids && k in t.rows ==> t.rows[k].lat != lat || t.rows[k].lon != lon
    ensures r.Some? && Ascending(ids) ==>
      forall k :: k in ids && k in t.rows && t.rows[k].lat == lat && t.rows[k].lon == lon ==> r.value <= k
  {
    if ids == [] then None
    else if ids[0] in t.rows && t.rows[ids[0]].lat == lat && t.rows[ids[0]].lon == lon then Some(ids[0])
    else SubAt(t, ids[1..], lat, lon)
  }

  /** Substation tables after placing the bus `id`: an existing substation at its coordinates, or a new one. */
  function Placed(g: Grid, id: int, e: NewBus, interconnect: string): Grid {
    var found := SubAt(g.sub, g.sub.ids, e.lat, e.lon);
    if found.Some? then g.(bus2sub := g.bus2sub.Put(id, BusToSub(found.value, interconnect)))
    else
      var sub := g.sub.NextId();
      g.(bus2sub := g.bus2sub.Put(id, BusToSub(sub, interconnect)),
         sub := g.sub.Put(sub, Substation(e.lat, e.lon, interconnect)))
  }

  function AddBuses(g: Grid, es: seq<NewBus>): Grid {
    if es == [] then g
    else
      var front, e := AddBuses(g, es[..|es| - 1]), es[|es| - 1];
      var id := g.bus.NextId() + |es| - 1;
      Placed(front, id, e, InterconnectOf(g.bus, e.zone)).(bus := front.bus.Put(id, NewBusRow(g.bus, e)))
  }

  function NewBranchRow(a: Bus, b: Bus, geo: Geography, v2x: map<real, real>, e: NewLine): (r: Branch)
    requires a.baseKV in v2x && b.baseKV in v2x
    ensures r.fromBus == e.fromBus && r.toBus == e.toBus
  {
    Branch(e.fromBus, e.toBus, e.pmax, Finite(geo.distance(a, b) * ((v2x[a.baseKV] + v2x[b.baseKV]) / 2.0)),
           a.interconnect, a.zone, b.zone)
  }

  predicate OnBuses(g: Grid, e: NewLine) {
    e.fromBus in g.bus.rows && e.toBus in g.bus.rows
  }

  predicate BranchReady(g: Grid, v2x: map<real, real>, e: NewLine) {
    && OnBuses(g, e)
    && g.bus.rows[e.fromBus].zone in g.zones && g.bus.rows[e.toBus].zone in g.zones
    && g.bus.rows[e.fromBus].baseKV in v2x && g.bus.rows[e.toBus].baseKV in v2x
  }

  /** A row for a line that can be built; any row for one that cannot. */
  function BranchRowOf(g: Grid, geo: Geography, v2x: map<real, real>, e: NewLine): Branch {
    if BranchReady(g, v2x, e) then NewBranchRow(g.bus.rows[e.fromBus], g.bus.rows[e.toBus], geo, v2x, e)
    else Branch(e.fromBus, e.toBus, e.pmax, NotFinite, "", 0, 0)
  }

  function BranchRows(g: Grid, geo: Geography, v2x: map<real, real>, es: seq<NewLine>): (r: seq<Branch>)
    ensures |r| == |es| && forall i :: 0 <= i < |es| ==> r[i] == BranchRowOf(g, geo, v2x, es[i])
  {
    seq(|es|, i requires 0 <= i < |es| => BranchRowOf(g, geo, v2x, es[i]))
  }

  function AddBranches(g: Grid, geo: Geography, es: seq<NewLine>): Grid {
    g.(branch := g.branch.AppendAll(BranchRows(g, geo, geo.reactancePerDistance(g.bus, g.branch), es)))
  }

  function DcLineRow(g: Grid, e: NewLine): DcLine {
    var a := if e.fromBus in g.bus.rows then g.bus.rows[e.fromBus].interconnect else "";
    var b := if e.toBus in g.bus.rows then g.bus.rows[e.toBus].interconnect else "";
    DcLine(e.fromBus, e.toBus, e.pmin, e.pmax, 1, a, b)
  }

  function DcLineRows(g: Grid, es: seq<NewLine>): (r: seq<DcLine>)
    ensures |r| == |es| && forall i :: 0 <= i < |es| ==> r[i] == DcLineRow(g, es[i])
  {
    seq(|es|, i requires 0 <= i < |es| => DcLineRow(g, es[i]))
  }

  function AddDcLines(g: Grid, es: seq<NewLine>): Grid {
    g.(dcline := g.dcline.AppendAll(DcLineRows(g, es)))
  }

  predicate Sited(g: Grid, e: NewPlant) {
    e.bus in g.bus.rows && g.bus.rows[e.bus].zone in g.zones
  }

  predicate Costed(g: Grid, e: NewPlant) {
    e.resource in g.resources.thermal ==> e.terms.Some?
  }

  predicate PlantReady(g: Grid, e: NewPlant) {
    Sited(g, e) && Costed(g, e)
  }

  function PlantRow(g: Grid, e: NewPlant): Plant {
    if e.bus in g.bus.rows
    then Plant(e.bus, e.resource, g.bus.rows[e.bus].zone, g.bus.rows[e.bus].interconnect, e.pmin, e.pmax)
    else Plant(e.bus, e.resource, 0, "", e.pmin, e.pmax)
  }

  /** Thermal entries bring their cost terms; all others cost nothing. */
  function CostRow(g: Grid, e: NewPlant): GenCost {
    if e.resource in g.resources.thermal && e.terms.Some?
    then GenCost(2, 3, e.terms.value.c2, e.terms.value.c1, e.terms.value.c0)
    else GenCost(2, 3, 0.0, 0.0, 0.0)
  }

  function PlantRows(g: Grid, es: seq<NewPlant>): (r: seq<Plant>)
    ensures |r| == |es| && forall i :: 0 <= i < |es| ==> r[i] == PlantRow(g, es[i])
  {
    seq(|es|, i requires 0 <= i < |es| => PlantRow(g, es[i]))
  }

  function CostRows(g: Grid, es: seq<NewPlant>): (r: seq<GenCost>)
    ensures |r| == |es| && forall i :: 0 <= i < |es| ==> r[i] == CostRow(g, es[i])
  {
    seq(|es|, i requires 0 <= i < |es| => CostRow(g, es[i]))
  }

  function AddPlants(g: Grid, es: seq<NewPlant>): Grid {
    g.(plant := g.plant.AppendAll(PlantRows(g, es)), gencost := g.gencost.AppendAll(CostRows(g, es)))
  }

  function StorageUnit(e: NewStorage): StorageGen {
    StorageGen(e.bus, -e.capacity, e.capacity)
  }

  function StorageRow(id: int, e: NewStorage): StorageData {
    var energy := e.capacity * e.duration;
    StorageData(id, energy / 2.0, energy * e.minStor, energy * e.maxStor,
                energy * e.terminalMin, energy * e.terminalMax, e.energyValue, e.inEff, e.outEff, e.lossFactor)
  }

  function StorageUnits(es: seq<NewStorage>): (r: seq<StorageGen>)
    ensures |r| == |es| && forall i :: 0 <= i < |es| ==> r[i] == StorageUnit(es[i])
  {
    seq(|es|, i requires 0 <= i < |es| => StorageUnit(es[i]))
  }

  function StorageRows(first: int, es: seq<NewStorage>): (r: seq<StorageData>)
    ensures |r| == |es| && forall i :: 0 <= i < |es| ==> r[i] == StorageRow(first + i, es[i])
  {
    seq(|es|, i requires 0 <= i < |es| => StorageRow(first + i, es[i]))
  }

  function AddStorage(g: Grid, es: seq<NewStorage>): Grid {
    var first := g.plant.NextId();
    g.(storageGen := g.storageGen + StorageUnits(es), storageData := g.storageData + StorageRows(first, es))
  }

  function Added(g: Grid, ct: Changes, geo: Geography): Grid {
    var a := AddBuses(g, OrEmpty(ct.newBus));
    var b := if ct.newBranch.Some? then AddBranches(a, geo, ct.newBranch.value) else a;
    var c := AddDcLines(b, OrEmpty(ct.newDcline));
    var d := AddPlants(c, OrEmpty(ct.newPlant));
    AddStorage(d, OrEmpty(ct.storage))
  }

  function Removed(g: Grid, ct: Changes): Grid {
    g.(branch := g.branch.Without(OrNone(ct.removeBranch)), bus := g.bus.Without(OrNone(ct.removeBus)))
  }

  // ------------------------------------------------------------ where the transform fails

  predicate HasPlants(g: Grid, r: string, z: int) {
    exists k :: k in g.plant.rows && g.plant.rows[k].resource == r && g.plant.rows[k].zone == z
  }

  /** Every zone factor finds plants of its resource in its zone. */
  ghost predicate ZonesMatch(g: Grid, ct: Changes, kind: Kind, r: string) {
    r in Family(ct, kind) ==> forall z :: z in Family(ct, kind)[r].zone ==> HasPlants(g, r, z)
  }

  ghost predicate IdsMatch(g: Grid, ct: Changes, kind: Kind, r: string) {
    r in Family(ct, kind) ==> forall k :: k in Family(ct, kind)[r].id ==> k in g.plant.rows
  }

  ghost predicate AllZonesMatch(g: Grid, ct: Changes, r: string) {
    ZonesMatch(g, ct, Capacity, r) && ZonesMatch(g, ct, Cost, r) && ZonesMatch(g, ct, MinGen, r)
  }

  ghost predicate AllIdsMatch(g: Grid, ct: Changes, r: string) {
    IdsMatch(g, ct, Capacity, r) && IdsMatch(g, ct, Cost, r) && IdsMatch(g, ct, MinGen, r)
  }

  predicate HasBranches(g: Grid, z: int) {
    exists k :: k in g.branch.rows && g.branch.rows[k].fromZone == z && g.branch.rows[k].toZone == z
  }

  ghost predicate ZonesDefined(g: Grid, ct: Changes) {
    && (forall r :: r in g.resources.all ==> AllZonesMatch(g, ct, r))
    && (forall z :: z in OrNoFactors(ct.branch).zone ==> HasBranches(g, z))
  }

  ghost predicate IdsDefined(g: Grid, ct: Changes) {
    && (forall r :: r in g.resources.all ==> AllIdsMatch(g, ct, r))
    && (forall k :: k in OrNoFactors(ct.branch).id ==> k in g.branch.rows)
    && (forall k :: k in OrEmptyMap(ct.dcline) ==> k in g.dcline.rows)
  }

  predicate BusesDefined(g: Grid, es: seq<NewBus>) {
    forall i :: 0 <= i < |es| ==> ZoneInterconnect(g.bus, g.bus.ids, es[i].zone).Some?
  }

  predicate BranchesDefined(g: Grid, geo: Geography, es: seq<NewLine>) {
    var v2x := geo.reactancePerDistance(g.bus, g.branch);
    (es != [] ==> g.branch.ids != []) && forall i :: 0 <= i < |es| ==> BranchReady(g, v2x, es[i])
  }

  predicate DcLinesDefined(g: Grid, es: seq<NewLine>) {
    (es != [] ==> g.dcline.ids != []) && forall i :: 0 <= i < |es| ==> OnBuses(g, es[i])
  }

  predicate PlantsDefined(g: Grid, es: seq<NewPlant>) {
    (es != [] ==> g.plant.ids != []) && forall i :: 0 <= i < |es| ==> PlantReady(g, es[i])
  }

  ghost predicate AdditionsDefined(g: Grid, ct: Changes, geo: Geography) {
    var a := AddBuses(g, OrEmpty(ct.newBus));
    var b := if ct.newBranch.Some? then AddBranches(a, geo, ct.newBranch.value) else a;
    var c := AddDcLines(b, OrEmpty(ct.newDcline));
    var d := AddPlants(c, OrEmpty(ct.newPlant));
    && BusesDefined(g, OrEmpty(ct.newBus))
    && (ct.newBranch.Some? ==> BranchesDefined(a, geo, ct.newBranch.value))
    && DcLinesDefined(b, OrEmpty(ct.newDcline))
    && PlantsDefined(c, OrEmpty(ct.newPlant))
    && (OrEmpty(ct.storage) != [] ==> d.plant.ids != [])
  }

  /** The transform runs to the end instead of raising. */
  ghost predicate Defined(g: Grid, ct: Changes, geo: Geography)
    requires SameIds(g)
  {
    && ZonesDefined(g, ct)
    && AdditionsDefined(ByZone(g, ct), ct, geo)
    && IdsDefined(Added(ByZone(g, ct), ct, geo), ct)
  }

  lemma {:induction false} AppendKeys<R>(t: Table<R>, rs: seq<R>)
    ensures forall k :: k in t.AppendAll(rs).rows <==> k in t.rows || t.NextId() <= k < t.NextId() + |rs|
  {
    if rs != [] {
      AppendKeys(t, rs[..|rs| - 1]);
    }
  }

  lemma {:induction false} AddBusesFrame(g: Grid, es: seq<NewBus>)
    ensures var h := AddBuses(g, es); h == g.(bus := h.bus, bus2sub := h.bus2sub, sub := h.sub)
  {
    if es != [] {
      AddBusesFrame(g, es[..|es| - 1]);
    }
  }

  lemma AdditionsKeepSameIds(g: Grid, ct: Changes, geo: Geography)
    requires SameIds(g)
    ensures SameIds(Added(g, ct, geo))
    ensures Added(g, ct, geo).resources == g.resources
  {
    AddBusesFrame(g, OrEmpty(ct.newBus));
    var es := OrEmpty(ct.newPlant);
    var a := AddBuses(g, OrEmpty(ct.newBus));
    var b := if ct.newBranch.Some? then AddBranches(a, geo, ct.newBranch.value) else a;
    var c := AddDcLines(b, OrEmpty(ct.newDcline));
    AppendIds(g.plant, PlantRows(c, es));
    AppendIds(g.gencost, CostRows(c, es));
    AppendKeys(g.plant, PlantRows(c, es));
    AppendKeys(g.gencost, CostRows(c, es));
    var p, q := g.plant.AppendAll(PlantRows(c, es)), g.gencost.AppendAll(CostRows(c, es));
    assert p.ids == q.ids;
    forall k
      ensures k in p.rows.Keys <==> k in q.rows.Keys
    {
      assert k in g.plant.rows.Keys <==> k in g.gencost.rows.Keys;
      assert k in p.rows <==> k in q.rows;
    }
  }

  /** The transformed grid: zone scaling, additions, id scaling, removals, in this order. */
  ghost function Transform(g: Grid, ct: Changes, geo: Geography): Grid
    requires SameIds(g)
  {
    AdditionsKeepSameIds(ByZone(g, ct), ct, geo);
    Removed(ById(Added(ByZone(g, ct), ct, geo), ct), ct)
  }

  /** A base grid as the source's readers build it. */
  ghost predicate WellFormed(g: Grid) {
    && g.bus.Valid() && g.branch.Valid() && g.dcline.Valid() && g.plant.Valid() && g.gencost.Valid()
    && g.sub.Valid() && g.bus2sub.Valid()
    && g.bus.ids != [] && g.sub.ids != []
    && g.plant.ids == g.gencost.ids
    && g.bus.ids == g.bus2sub.ids
  }

  lemma WellFormedIsSameIds(g: Grid)
    requires WellFormed(g)
    ensures SameIds(g)
  {
    forall k
      ensures k in g.plant.rows.Keys <==> k in g.gencost.rows.Keys
    {
      assert k in g.plant.ids <==> k in g.gencost.ids;
    }
  }
}

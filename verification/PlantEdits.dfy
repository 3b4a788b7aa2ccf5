/**
 * The edits of the plant part of the change table, with their failures, and the theorem that
 * clipping keeps 0 <= Pmin <= Pmax (powersimdata/input/changes/plant.py and
 * powersimdata/input/change_table.py).
 */
module PlantEdits {
  import opened Reals
  import opened Tables
  import opened GridModel
  import opened Products
  import opened TransformSpec
  import opened ScalingSteps
  import opened GridTheorems

  /** How a call ends: returned or raised, and the change table it leaves behind. */
  datatype Outcome = Outcome(ok: bool, ct: Changes)

  function WithFamily(c: Changes, kind: Kind, m: map<string, Factors>): (r: Changes)
    ensures Family(r, kind) == m && forall other :: other != kind ==> Family(r, other) == Family(c, other)
  {
    match kind
    case Capacity => c.(capacity := m)
    case Cost => c.(cost := m)
    case MinGen => c.(pmin := m)
  }

  function Entered(c: Changes, kind: Kind, r: string, f: Factors): Changes {
    WithFamily(c, kind, Family(c, kind)[r := f])
  }

  function Popped(c: Changes, kind: Kind, r: string): Changes {
    WithFamily(c, kind, Family(c, kind) - {r})
  }

  predicate KnownZone(g: Grid, z: int) {
    exists k :: k in g.plant.rows && g.plant.rows[k].zone == z
  }

  predicate NonNegative(m: map<int, real>) {
    forall k :: k in m ==> m[k] >= 0.0
  }

  /** The zone factors that find plants of the resource. */
  function Populated(g: Grid, r: string, m: map<int, real>): map<int, real> {
    map z | z in m && HasPlants(g, r, z) :: m[z]
  }

  /** An unknown zone drops the whole key; so does ending up without any zone factor. */
  function ZonePart(g: Grid, c: Changes, kind: Kind, r: string, zones: map<int, real>): Outcome
    requires r in Family(c, kind)
  {
    if exists z :: z in zones && !KnownZone(g, z) then Outcome(false, Popped(c, kind, r))
    else if !NonNegative(zones) then Outcome(false, c)
    else
      var merged := Family(c, kind)[r].zone + Populated(g, r, zones);
      var d := Entered(c, kind, r, Family(c, kind)[r].(zone := merged));
      Outcome(true, if merged == map[] then Popped(d, kind, r) else d)
  }

  predicate IsPlant(g: Grid, c: Changes, k: int) {
    k in g.plant.rows || g.plant.NextId() <= k < g.plant.NextId() + |OrEmpty(c.newPlant)|
  }

  /**
   * An unknown plant drops the whole key; a key the zone part has dropped makes the call fail.
   * `raises` says whether looking up the anticipated plants fails.
   */
  function IdPart(g: Grid, c: Changes, kind: Kind, r: string, ids: map<int, real>, raises: bool): Outcome {
    if raises then Outcome(false, c)
    else if exists k :: k in ids && !IsPlant(g, c, k) then Outcome(false, Popped(c, kind, r))
    else if !NonNegative(ids) || r !in Family(c, kind) then Outcome(false, c)
    else Outcome(true, Entered(c, kind, r, Family(c, kind)[r].(id := Family(c, kind)[r].id + ids)))
  }

  predicate Given(m: Option<map<int, real>>) {
    m.Some? && m.value != map[]
  }

  function ZonePhase(g: Grid, c: Changes, kind: Kind, r: string, zones: Option<map<int, real>>): Outcome {
    var keyed := if r in Family(c, kind) then c else Entered(c, kind, r, Factors(map[], map[]));
    if zones.Some? then ZonePart(g, keyed, kind, r, zones.value) else Outcome(true, keyed)
  }

  /** Recording zone and plant factors of resource `r`. */
  function FactorsEntered(g: Grid, c: Changes, kind: Kind, r: string,
                          zones: Option<map<int, real>>, ids: Option<map<int, real>>, raises: bool): Outcome {
    if r !in g.resources.all || !(Given(zones) || Given(ids)) then Outcome(false, c)
    else
      var a := ZonePhase(g, c, kind, r, zones);
      if a.ok && ids.Some? then IdPart(g, a.ct, kind, r, ids.value, raises) else a
  }

  /** The lookup needs a transform only if plants are added or capacities of base types are scaled. */
  predicate NeedsTransform(g: Grid, c: Changes) {
    c.newPlant.Some? || exists k :: k in g.plant.rows && g.plant.rows[k].resource in c.capacity
  }

  ghost predicate LookupRaises(g: Grid, geo: Geography, c: Changes)
    requires SameIds(g)
  {
    NeedsTransform(g, c) && !Defined(g, c, geo)
  }

  predicate TooHigh(p: Plant) {
    p.pmin != 0.0 && p.pmax / p.pmin < 1.0
  }

  function Corrections(t: Table<Plant>): map<int, real> {
    map k | k in t.rows && TooHigh(t.rows[k]) :: if t.rows[k].pmin != 0.0 then t.rows[k].pmax / t.rows[k].pmin else 1.0
  }

  function Corrected(m: map<int, real>, cuts: map<int, real>): (r: map<int, real>)
    ensures r.Keys == m.Keys + cuts.Keys
    ensures forall k :: k in r ==> r[k] == if k !in cuts then m[k] else Factor(m, k) * cuts[k]
  {
    map k | k in m.Keys + cuts.Keys :: if k !in cuts then m[k] else Factor(m, k) * cuts[k]
  }

  /** Recording minimum-generation factors, then clipping every plant whose Pmin would exceed its Pmax. */
  ghost function PminScaled(g: Grid, geo: Geography, c: Changes, r: string,
                            zones: Option<map<int, real>>, ids: Option<map<int, real>>, raises: bool): Outcome
    requires SameIds(g)
  {
    var a := FactorsEntered(g, c, MinGen, r, zones, ids, raises);
    if !a.ok || !Defined(g, a.ct, geo) then Outcome(false, a.ct)
    else
      var cuts := Corrections(Transform(g, a.ct, geo).plant);
      if cuts == map[] then a
      else if r !in a.ct.pmin then Outcome(false, a.ct)
      else Outcome(true, Entered(a.ct, MinGen, r, a.ct.pmin[r].(id := Corrected(a.ct.pmin[r].id, cuts))))
  }

  /** What is demanded of a new plant, on the buses as the change table stands. */
  predicate GoodPlant(g: Grid, bus: Table<Bus>, e: NewPlant) {
    && e.resource in g.resources.all && e.bus in bus.rows && 0.0 <= e.pmin <= e.pmax
    && (if e.resource in g.resources.profile
        then && e.neighbor.Some? && e.neighbor.value in g.plant.rows
             && g.plant.rows[e.neighbor.value].resource == e.resource
        else e.terms.Some? && e.terms.value.c0 >= 0.0 && e.terms.value.c1 >= 0.0 && e.terms.value.c2 >= 0.0)
  }

  /** A plant as a caller gives it. */
  datatype PlantSpec = PlantSpec(bus: int, resource: string, pmax: real, pmin: Option<real>,
                                 c0: Option<real>, c1: Option<real>, c2: Option<real>)

  function SameType(t: Table<Plant>, ids: seq<int>, r: string): (peers: seq<int>)
    ensures forall k :: k in peers <==> k in ids && k in t.rows && t.rows[k].resource == r
  {
    if ids == [] then []
    else if ids[0] in t.rows && t.rows[ids[0]].resource == r then [ids[0]] + SameType(t, ids[1..], r)
    else SameType(t, ids[1..], r)
  }

  /** The first of the closest. */
  function Closest(distance: int -> real, ids: seq<int>): (r: Option<int>)
    ensures r.None? <==> ids == []
    ensures r.Some? ==> r.value in ids && forall k :: k in ids ==> distance(r.value) <= distance(k)
    ensures r.Some? ==>
      exists i :: 0 <= i < |ids| && ids[i] == r.value && forall j :: 0 <= j < i ==> distance(r.value) < distance(ids[j])
  {
    if ids == [] then None
    else
      var front, x := Closest(distance, ids[..|ids| - 1]), ids[|ids| - 1];
      assert ids == ids[..|ids| - 1] + [x];
      if front.None? || distance(x) < distance(front.value) then Some(x) else front
  }

  function ShareOf(share: Option<real>, pmax: real): real {
    if share.Some? then share.value * pmax else 0.0
  }

  /** The given Pmin, or the resource's share of Pmax; None where the resource has no entry in the shares. */
  function DefaultedPmin(g: Grid, s: PlantSpec): Option<real> {
    if s.pmin.Some? then s.pmin
    else if s.resource !in g.resources.pminShare then None
    else Some(ShareOf(g.resources.pminShare[s.resource], s.pmax))
  }

  function Neighbor(g: Grid, geo: Geography, b: Bus, r: string): Option<int> {
    Closest(k => geo.plantDistance(b, k), SameType(g.plant, g.plant.ids, r))
  }

  function Terms(s: PlantSpec): Option<CostTerms> {
    if s.c0.Some? && s.c1.Some? && s.c2.Some? then Some(CostTerms(s.c0.value, s.c1.value, s.c2.value)) else None
  }

  predicate TermsAccepted(s: PlantSpec) {
    var t := Terms(s);
    t.Some? && t.value.c0 >= 0.0 && t.value.c1 >= 0.0 && t.value.c2 >= 0.0
  }

  /** The entry recorded for a plant, None where the checks reject it. */
  function NormalPlant(g: Grid, geo: Geography, bus: Table<Bus>, s: PlantSpec): (r: Option<NewPlant>)
    ensures r.Some? ==> GoodPlant(g, bus, r.value) && r.value.bus == s.bus && r.value.resource == s.resource
    ensures r.Some? ==> r.value.pmax == s.pmax && (s.pmin.Some? ==> r.value.pmin == s.pmin.value)
  {
    var pmin := DefaultedPmin(g, s);
    if s.resource !in g.resources.all || s.bus !in bus.rows || pmin.None? || !(0.0 <= pmin.value <= s.pmax) then None
    else if s.resource in g.resources.profile then
      var near := Neighbor(g, geo, bus.rows[s.bus], s.resource);
      if near.None? then None else Some(NewPlant(s.bus, s.resource, pmin.value, s.pmax, Terms(s), near))
    else if !TermsAccepted(s) then None
    else Some(NewPlant(s.bus, s.resource, pmin.value, s.pmax, Terms(s), None))
  }

  /** Base plants of resource `r`, as the index lists them. */
  predicate Peer(g: Grid, r: string, k: int) {
    k in g.plant.ids && k in g.plant.rows && g.plant.rows[k].resource == r
  }

  predicate NotNegative(x: Option<real>) {
    x.Some? && x.value >= 0.0
  }

  /** The given Pmin lies between 0 and Pmax; without one, the resource's share of Pmax does, if it has one. */
  predicate PminAccepted(g: Grid, s: PlantSpec) {
    if s.pmin.Some? then 0.0 <= s.pmin.value <= s.pmax
    else s.resource in g.resources.pminShare && 0.0 <= ShareOf(g.resources.pminShare[s.resource], s.pmax) <= s.pmax
  }

  /** The checks on a new plant, in terms of what the caller gives. */
  ghost predicate PlantAccepted(g: Grid, bus: Table<Bus>, s: PlantSpec) {
    && s.resource in g.resources.all && s.bus in bus.rows && PminAccepted(g, s)
    && (if s.resource in g.resources.profile then exists k :: Peer(g, s.resource, k)
        else NotNegative(s.c0) && NotNegative(s.c1) && NotNegative(s.c2))
  }

  /**
   * The entry says what the caller said. Without a Pmin it is the resource's share of Pmax, or 0; a plant
   * with a profile names a base plant of its resource that no other is closer than, any other its costs.
   */
  ghost predicate RecordsPlant(g: Grid, geo: Geography, bus: Table<Bus>, e: NewPlant, s: PlantSpec) {
    && e.bus == s.bus && e.resource == s.resource && e.pmax == s.pmax && s.bus in bus.rows
    && (s.pmin.Some? ==> e.pmin == s.pmin.value)
    && (s.pmin.None? ==>
          && s.resource in g.resources.pminShare
          && var share := g.resources.pminShare[s.resource];
             (share.None? ==> e.pmin == 0.0) && (share.Some? ==> e.pmin == share.value * s.pmax))
    && (s.resource in g.resources.profile ==>
          && e.neighbor.Some? && Peer(g, s.resource, e.neighbor.value)
          && forall k :: Peer(g, s.resource, k) ==>
               geo.plantDistance(bus.rows[s.bus], e.neighbor.value) <= geo.plantDistance(bus.rows[s.bus], k))
    && (s.resource !in g.resources.profile ==>
          && e.terms.Some? && s.c0 == Some(e.terms.value.c0) && s.c1 == Some(e.terms.value.c1)
          && s.c2 == Some(e.terms.value.c2))
  }

  lemma DefaultIs(g: Grid, s: PlantSpec)
    ensures PminAccepted(g, s) <==> DefaultedPmin(g, s).Some? && 0.0 <= DefaultedPmin(g, s).value <= s.pmax
    ensures s.pmin.Some? ==> DefaultedPmin(g, s) == s.pmin
    ensures s.pmin.None? ==> (DefaultedPmin(g, s).Some? <==> s.resource in g.resources.pminShare)
    ensures s.pmin.None? && s.resource in g.resources.pminShare ==>
      DefaultedPmin(g, s) == Some(ShareOf(g.resources.pminShare[s.resource], s.pmax))
  {
    hide ShareOf;
  }

  lemma ShareIs(share: Option<real>, pmax: real)
    ensures share.None? ==> ShareOf(share, pmax) == 0.0
    ensures share.Some? ==> ShareOf(share, pmax) == share.value * pmax
  {
  }

  lemma NeighborIs(g: Grid, geo: Geography, b: Bus, r: string)
    ensures var near := Neighbor(g, geo, b, r);
      && (near.Some? <==> exists k :: Peer(g, r, k))
      && (near.Some? ==> && Peer(g, r, near.value)
                         && forall k :: Peer(g, r, k) ==> geo.plantDistance(b, near.value) <= geo.plantDistance(b, k))
  {
    var peers := SameType(g.plant, g.plant.ids, r);
    assert forall k :: k in peers <==> Peer(g, r, k);
    if peers != [] {
      assert peers[0] in peers;
    }
  }

  /** Exactly the plants that pass the checks get an entry, and it says what the caller said. */
  lemma NormalPlantIs(g: Grid, geo: Geography, bus: Table<Bus>, s: PlantSpec)
    ensures NormalPlant(g, geo, bus, s).Some? <==> PlantAccepted(g, bus, s)
    ensures NormalPlant(g, geo, bus, s).Some? ==> RecordsPlant(g, geo, bus, NormalPlant(g, geo, bus, s).value, s)
  {
    hide DefaultedPmin, Neighbor, Peer, ShareOf, PminAccepted, GoodPlant;
    DefaultIs(g, s);
    if s.pmin.None? && s.resource in g.resources.pminShare {
      ShareIs(g.resources.pminShare[s.resource], s.pmax);
    }
    if s.bus in bus.rows {
      NeighborIs(g, geo, bus.rows[s.bus], s.resource);
    }
  }

  predicate Acceptable(g: Grid, geo: Geography, bus: Table<Bus>, info: seq<PlantSpec>) {
    forall i :: 0 <= i < |info| ==> NormalPlant(g, geo, bus, info[i]).Some?
  }

  function NormalPlants(g: Grid, geo: Geography, bus: Table<Bus>, info: seq<PlantSpec>): (r: seq<NewPlant>)
    requires Acceptable(g, geo, bus, info)
    ensures |r| == |info| && forall i :: 0 <= i < |r| ==> r[i] == NormalPlant(g, geo, bus, info[i]).value
    ensures forall i :: 0 <= i < |r| ==> GoodPlant(g, bus, r[i])
  {
    seq(|info|, i requires 0 <= i < |info| => NormalPlant(g, geo, bus, info[i]).value)
  }

  // ------------------------------------------------------------ limits of a transformed plant

  datatype Span = Span(low: real, high: real)

  /** The limits a plant starts from: its base row or its entry. */
  function Start(g: Grid, c: Changes, k: int): Span
    requires IsPlant(g, c, k)
  {
    if k in g.plant.rows then Span(g.plant.rows[k].pmin, g.plant.rows[k].pmax)
    else var e := OrEmpty(c.newPlant)[k - g.plant.NextId()]; Span(e.pmin, e.pmax)
  }

  /** The zone factor of a kind that applies to `k`: pre-existing plants only. */
  function ZoneShare(g: Grid, c: Changes, kind: Kind, k: int): real {
    if k in g.plant.rows && g.plant.rows[k].resource in g.resources.all
    then ZoneFactor(c, kind, g.plant.rows[k].resource, g.plant.rows[k].zone)
    else 1.0
  }

  ghost function TotalFactor(g: Grid, c: Changes, kind: Kind, k: int): real {
    Times(ZoneShare(g, c, kind, k), Product(IdFactors(c, kind, g.resources.all, k)))
  }

  lemma OldLimits(g: Grid, c: Changes, geo: Geography, k: int)
    requires WellFormed(g) && SameIds(g) && k in g.plant.rows
    ensures var t, p := Transform(g, c, geo), g.plant.rows[k];
      && SameIds(t) && k in t.plant.rows
      && t.plant.rows[k].pmax == p.pmax * TotalFactor(g, c, Capacity, k)
      && t.plant.rows[k].pmin == p.pmin * TotalFactor(g, c, Capacity, k) * TotalFactor(g, c, MinGen, k)
  {
    hide WellFormed, Transform, Times, Product, ZoneFactor;
    ScalingClosedForm(g, c, geo, k);
  }

  lemma EntryLimits(g: Grid, c: Changes, geo: Geography, e: NewPlant)
    requires SameIds(g)
    ensures EntryUnit(g, c, geo, e).plant.pmin == e.pmin && EntryUnit(g, c, geo, e).plant.pmax == e.pmax
    ensures EntryUnit(g, c, geo, e).plant.resource == e.resource
  {
  }

  lemma NewLimits(g: Grid, c: Changes, geo: Geography, k: int)
    requires WellFormed(g) && SameIds(g) && k !in g.plant.rows && IsPlant(g, c, k)
    ensures var t, s := Transform(g, c, geo), Start(g, c, k);
      && SameIds(t) && k in t.plant.rows
      && t.plant.rows[k].pmax == s.high * TotalFactor(g, c, Capacity, k)
      && t.plant.rows[k].pmin == s.low * TotalFactor(g, c, Capacity, k) * TotalFactor(g, c, MinGen, k)
  {
    hide WellFormed, Transform, Times, Product, Table.NextId, EntryUnit;
    var i := k - g.plant.NextId();
    NewPlantClosedForm(g, c, geo, i, k);
    EntryLimits(g, c, geo, OrEmpty(c.newPlant)[i]);
    OneTimes(Product(IdFactors(c, Capacity, g.resources.all, k)));
    OneTimes(Product(IdFactors(c, MinGen, g.resources.all, k)));
  }

  lemma PlantLimits(g: Grid, c: Changes, geo: Geography, k: int)
    requires WellFormed(g) && SameIds(g) && IsPlant(g, c, k)
    ensures var t := Transform(g, c, geo);
      && SameIds(t) && k in t.plant.rows
      && t.plant.rows[k].pmax == Start(g, c, k).high * TotalFactor(g, c, Capacity, k)
      && t.plant.rows[k].pmin == Start(g, c, k).low * TotalFactor(g, c, Capacity, k) * TotalFactor(g, c, MinGen, k)
  {
    hide WellFormed, Transform, Times, Product, ZoneFactor, Table.NextId;
    if k in g.plant.rows {
      OldLimits(g, c, geo, k);
    } else {
      NewLimits(g, c, geo, k);
    }
  }

  lemma PlantIds(g: Grid, c: Changes, geo: Geography)
    requires WellFormed(g) && SameIds(g)
    ensures forall k :: k in Transform(g, c, geo).plant.rows <==> IsPlant(g, c, k)
  {
    hide WellFormed, Transform, ByZone, Added, Table.NextId;
    TransformedKeys(g, c, geo);
    PlantKeys(g, c, geo);
    forall k
      ensures k in Transform(g, c, geo).plant.rows <==> IsPlant(g, c, k)
    {
      assert k in Transform(g, c, geo).plant.rows.Keys <==> k in Added(ByZone(g, c), c, geo).plant.rows.Keys;
    }
  }
}

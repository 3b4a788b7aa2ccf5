/**
 * The change table: edits recorded after validating them against a cached preview of the
 * transformed grid (powersimdata/input/change_table.py and powersimdata/input/changes/).
 */
module ChangeTables {
  import opened Reals
  import opened Tables
  import opened GridModel
  import opened TransformSpec
  import opened TransformGrids
  import opened Additions
  import opened NetworkSpec
  import NE = NetworkEdits
  import opened PlantEdits
  import PR = PlantRuns
  import opened CacheKeys

  datatype BusSpec = BusSpec(lat: real, lon: real, zone: int, pd: Option<real>, baseKV: Option<real>)

  /** A line given by one symmetric capacity, or by separate limits. */
  datatype LineSpec = Symmetric(fromBus: int, toBus: int, capacity: real)
                    | Limits(fromBus: int, toBus: int, pmin: real, pmax: real)

  /** A storage unit; everything but its bus and capacity is optional. */
  datatype StorageSpec = StorageSpec(bus: int, capacity: real, duration: Option<real>, minStor: Option<real>,
                                     maxStor: Option<real>, energyValue: Option<real>, inEff: Option<real>,
                                     outEff: Option<real>, lossFactor: Option<real>,
                                     terminalMin: Option<real>, terminalMax: Option<real>)

  datatype LineKind = AcBranch | DcBranch

  datatype Group = BranchGroup | BusGroup | DcLineGroup | StorageGroup | PlantGroup

  function OrDefault(x: Option<real>, d: real): real {
    if x.Some? then x.value else d
  }

  function NormalBus(b: BusSpec): NewBus {
    NewBus(b.lat, b.lon, b.zone, OrDefault(b.pd, 0.0), OrDefault(b.baseKV, 230.0))
  }

  function NormalBuses(info: seq<BusSpec>): (r: seq<NewBus>)
    ensures |r| == |info| && forall i :: 0 <= i < |info| ==> r[i] == NormalBus(info[i])
  {
    seq(|info|, i requires 0 <= i < |info| => NormalBus(info[i]))
  }

  function NormalLine(l: LineSpec): NewLine {
    match l
    case Symmetric(a, b, capacity) => NewLine(a, b, -1.0 * capacity, capacity)
    case Limits(a, b, pmin, pmax) => NewLine(a, b, pmin, pmax)
  }

  function NormalLines(info: seq<LineSpec>): (r: seq<NewLine>)
    ensures |r| == |info| && forall i :: 0 <= i < |info| ==> r[i] == NormalLine(info[i])
  {
    seq(|info|, i requires 0 <= i < |info| => NormalLine(info[i]))
  }

  function NormalStorage(g: Grid, s: StorageSpec): NewStorage {
    var d := g.storageDefaults;
    NewStorage(s.bus, s.capacity, OrDefault(s.duration, d.duration), OrDefault(s.minStor, d.minStor),
               OrDefault(s.maxStor, d.maxStor), OrDefault(s.energyValue, d.energyValue), OrDefault(s.inEff, d.inEff),
               OrDefault(s.outEff, d.outEff), OrDefault(s.lossFactor, d.lossFactor),
               OrDefault(s.terminalMin, d.terminalMin), OrDefault(s.terminalMax, d.terminalMax))
  }

  function NormalStorages(g: Grid, info: seq<StorageSpec>): (r: seq<NewStorage>)
    ensures |r| == |info| && forall i :: 0 <= i < |info| ==> r[i] == NormalStorage(g, info[i])
  {
    seq(|info|, i requires 0 <= i < |info| => NormalStorage(g, info[i]))
  }

  /** `x` is the given value, or `d` where none is given. */
  predicate GivenOr(x: real, given: Option<real>, d: real) {
    (given.Some? ==> x == given.value) && (given.None? ==> x == d)
  }

  /** The entry says what the caller said; demand defaults to 0 and voltage to 230 kV. */
  predicate RecordsBus(e: NewBus, b: BusSpec) {
    && e.lat == b.lat && e.lon == b.lon && e.zone == b.zone
    && GivenOr(e.pd, b.pd, 0.0) && GivenOr(e.baseKV, b.baseKV, 230.0)
  }

  /** Its own buses, and the given limits or the given capacity in both directions. */
  predicate RecordsLine(e: NewLine, l: LineSpec) {
    && e.fromBus == l.fromBus && e.toBus == l.toBus
    && (l.Symmetric? ==> e.pmax == l.capacity && e.pmin == -l.capacity)
    && (l.Limits? ==> e.pmax == l.pmax && e.pmin == l.pmin)
  }

  predicate RecordsStorage(e: NewStorage, s: StorageSpec, d: StorageDefaults) {
    && e.bus == s.bus && e.capacity == s.capacity && GivenOr(e.duration, s.duration, d.duration)
    && GivenOr(e.minStor, s.minStor, d.minStor) && GivenOr(e.maxStor, s.maxStor, d.maxStor)
    && GivenOr(e.energyValue, s.energyValue, d.energyValue) && GivenOr(e.inEff, s.inEff, d.inEff)
    && GivenOr(e.outEff, s.outEff, d.outEff) && GivenOr(e.lossFactor, s.lossFactor, d.lossFactor)
    && GivenOr(e.terminalMin, s.terminalMin, d.terminalMin) && GivenOr(e.terminalMax, s.terminalMax, d.terminalMax)
  }

  /** The earlier entries in front, then one entry for each that was given. */
  predicate Appends<T(==), S>(before: Option<seq<T>>, after: Option<seq<T>>, info: seq<S>, records: (T, S) -> bool) {
    && after.Some? && OrEmpty(before) <= after.value && |after.value| == |OrEmpty(before)| + |info|
    && forall i :: 0 <= i < |info| ==> records(after.value[|OrEmpty(before)| + i], info[i])
  }

  lemma Appended<T, S>(before: Option<seq<T>>, added: seq<T>, info: seq<S>, records: (T, S) -> bool)
    requires |added| == |info| && forall i :: 0 <= i < |info| ==> records(added[i], info[i])
    ensures Appends(before, Some(OrEmpty(before) + added), info, records)
  {
  }

  lemma LineRecorded(l: LineSpec)
    ensures RecordsLine(NormalLine(l), l)
  {
  }

  lemma LinesAppended(before: Option<seq<NewLine>>, info: seq<LineSpec>)
    ensures Appends(before, Some(OrEmpty(before) + NormalLines(info)), info, RecordsLine)
  {
    hide RecordsLine, NormalLine, Appends;
    forall i | 0 <= i < |info|
      ensures RecordsLine(NormalLines(info)[i], info[i])
    {
      LineRecorded(info[i]);
    }
    Appended(before, NormalLines(info), info, RecordsLine);
  }

  lemma BusRecorded(b: BusSpec)
    ensures RecordsBus(NormalBus(b), b)
  {
  }

  lemma BusesAppended(before: Option<seq<NewBus>>, info: seq<BusSpec>)
    ensures Appends(before, Some(OrEmpty(before) + NormalBuses(info)), info, RecordsBus)
  {
    hide RecordsBus, NormalBus, Appends;
    forall i | 0 <= i < |info|
      ensures RecordsBus(NormalBuses(info)[i], info[i])
    {
      BusRecorded(info[i]);
    }
    Appended(before, NormalBuses(info), info, RecordsBus);
  }

  lemma StorageRecorded(g: Grid, s: StorageSpec)
    ensures RecordsStorage(NormalStorage(g, s), s, g.storageDefaults)
  {
  }

  lemma StoragesAppended(g: Grid, before: Option<seq<NewStorage>>, info: seq<StorageSpec>)
    ensures Appends(before, Some(OrEmpty(before) + NormalStorages(g, info)), info,
                    (e: NewStorage, s: StorageSpec) => RecordsStorage(e, s, g.storageDefaults))
  {
    hide RecordsStorage, NormalStorage, Appends;
    var added := NormalStorages(g, info);
    forall i | 0 <= i < |info|
      ensures RecordsStorage(added[i], info[i], g.storageDefaults)
    {
      StorageRecorded(g, info[i]);
    }
    Appended(before, added, info, (e: NewStorage, s: StorageSpec) => RecordsStorage(e, s, g.storageDefaults));
  }

  lemma PlantsAppended(g: Grid, geo: Geography, bus: Table<Bus>, before: Option<seq<NewPlant>>, info: seq<PlantSpec>)
    requires Acceptable(g, geo, bus, info)
    ensures Appends(before, Some(OrEmpty(before) + NormalPlants(g, geo, bus, info)), info,
                    (e: NewPlant, s: PlantSpec) => RecordsPlant(g, geo, bus, e, s))
  {
    hide RecordsPlant, NormalPlant, GoodPlant, Appends;
    var added := NormalPlants(g, geo, bus, info);
    forall i | 0 <= i < |info|
      ensures RecordsPlant(g, geo, bus, added[i], info[i])
    {
      NormalPlantIs(g, geo, bus, info[i]);
    }
    Appended(before, added, info, (e: NewPlant, s: PlantSpec) => RecordsPlant(g, geo, bus, e, s));
  }

  /** On the globe, in a known zone, at a positive voltage. */
  predicate BusAccepted(g: Grid, b: BusSpec) {
    && -90.0 <= b.lat <= 90.0 && -180.0 <= b.lon <= 180.0 && b.zone in g.zones
    && (b.baseKV.Some? ==> b.baseKV.value > 0.0)
  }

  lemma BusAcceptedIsGood(g: Grid, b: BusSpec)
    ensures BusAccepted(g, b) <==> NE.GoodBus(g, NormalBus(b))
  {
  }

  /** The checks on one line, against the anticipated buses. */
  predicate LineAccepted(kind: LineKind, bus: Table<Bus>, l: LineSpec) {
    && l.fromBus in bus.rows && l.toBus in bus.rows && l.fromBus != l.toBus
    && (match l
        case Symmetric(_, _, capacity) => capacity >= 0.0
        case Limits(_, _, pmin, pmax) => kind != AcBranch && pmin <= pmax)
    && (kind == AcBranch ==> bus.rows[l.fromBus].interconnect == bus.rows[l.toBus].interconnect)
    && (bus.rows[l.fromBus].lat != bus.rows[l.toBus].lat || bus.rows[l.fromBus].lon != bus.rows[l.toBus].lon)
  }

  /** The given value, or the default, is not negative and at most `high`. */
  predicate UpTo(given: Option<real>, d: real, high: Option<real>) {
    && (given.Some? ==> 0.0 <= given.value && (high.Some? ==> given.value <= high.value))
    && (given.None? ==> 0.0 <= d && (high.Some? ==> d <= high.value))
  }

  /** The checks on one storage unit: nothing negative, and no share or efficiency above 1. */
  predicate StorageAccepted(bus: Table<Bus>, s: StorageSpec, d: StorageDefaults) {
    && s.bus in bus.rows && 0 <= s.bus && 0.0 <= s.capacity
    && UpTo(s.duration, d.duration, None) && UpTo(s.energyValue, d.energyValue, None)
    && UpTo(s.terminalMin, d.terminalMin, None) && UpTo(s.terminalMax, d.terminalMax, None)
    && UpTo(s.minStor, d.minStor, Some(1.0)) && UpTo(s.maxStor, d.maxStor, Some(1.0))
    && UpTo(s.inEff, d.inEff, Some(1.0)) && UpTo(s.outEff, d.outEff, Some(1.0))
    && UpTo(s.lossFactor, d.lossFactor, Some(1.0))
  }

  lemma StorageAcceptedIsGood(g: Grid, bus: Table<Bus>, s: StorageSpec)
    ensures StorageAccepted(bus, s, g.storageDefaults) <==> NE.GoodStorage(bus, NormalStorage(g, s))
  {
  }

  function LineEdit(kind: LineKind, lines: seq<NewLine>): NE.NetworkEdit {
    match kind
    case AcBranch => NE.AddBranches(lines)
    case DcBranch => NE.AddDcLines(lines)
  }

  /** In `d` the keys of the named groups are gone and all other keys are as in `c`. */
  ghost predicate ClearedTo(c: Changes, d: Changes, which: set<Group>) {
    && d.storage == (if StorageGroup in which then None else c.storage)
    && (if BranchGroup in which then d.branch.None? && d.newBranch.None? && d.removeBranch.None?
        else d.branch == c.branch && d.newBranch == c.newBranch && d.removeBranch == c.removeBranch)
    && (if DcLineGroup in which then d.dcline.None? && d.newDcline.None?
        else d.dcline == c.dcline && d.newDcline == c.newDcline)
    && (if BusGroup in which then d.newBus.None? && d.removeBus.None?
        else d.newBus == c.newBus && d.removeBus == c.removeBus)
    && (if PlantGroup in which then d.newPlant.None? && d.capacity == map[] && d.cost == map[] && d.pmin == map[]
        else d.newPlant == c.newPlant && d.capacity == c.capacity && d.cost == c.cost && d.pmin == c.pmin)
  }

  lemma SameBuses(g: Grid, c: Changes, d: Changes)
    requires OrEmpty(c.newBus) == OrEmpty(d.newBus) && OrNone(c.removeBus) == OrNone(d.removeBus)
    ensures BusTable(g, c) == BusTable(g, d)
  {
  }

  lemma NoBranchChanges(g: Grid, c: Changes)
    requires c.newBranch.None? && c.removeBranch.None?
    ensures BranchEnds(g, c) == BranchEndsOf(g.branch)
  {
    var t := BranchEndsOf(g.branch);
    AppendNone(t);
    RejectNothing(t.ids);
    assert EntryEnds([]) == [] && t.rows - {} == t.rows;
  }

  lemma SameBranches(g: Grid, c: Changes, d: Changes)
    requires OrEmpty(c.newBranch) == OrEmpty(d.newBranch) && OrNone(c.removeBranch) == OrNone(d.removeBranch)
    ensures BranchEnds(g, c) == BranchEnds(g, d)
  {
  }

  lemma NoDcLineChanges(g: Grid, c: Changes)
    requires c.newDcline.None?
    ensures DcLineEnds(g, c) == DcLineEndsOf(g.dcline)
  {
  }

  lemma SameDcLines(g: Grid, c: Changes, d: Changes)
    requires OrEmpty(c.newDcline) == OrEmpty(d.newDcline)
    ensures DcLineEnds(g, c) == DcLineEnds(g, d)
  {
  }

  lemma SameStorage(g: Grid, c: Changes, d: Changes)
    requires c.storage == d.storage
    ensures StorageGens(g, c) == StorageGens(g, d)
  {
  }

  lemma NoStorageChanges(g: Grid, c: Changes)
    requires c.storage.None?
    ensures StorageGens(g, c) == g.storageGen
  {
  }

  /** A cleared group shows the base grid again; an uncleared one shows what it showed before. */
  lemma ClearedShowsBase(g: Grid, c: Changes, d: Changes, which: set<Group>)
    requires ClearedTo(c, d, which)
    ensures BusTable(g, d) == if BusGroup in which then g.bus else BusTable(g, c)
    ensures BranchEnds(g, d) == if BranchGroup in which then BranchEndsOf(g.branch) else BranchEnds(g, c)
    ensures DcLineEnds(g, d) == if DcLineGroup in which then DcLineEndsOf(g.dcline) else DcLineEnds(g, c)
    ensures StorageGens(g, d) == if StorageGroup in which then g.storageGen else StorageGens(g, c)
    ensures which == {BranchGroup, BusGroup, DcLineGroup, StorageGroup, PlantGroup} ==> d == NO_CHANGES
  {
    hide BusTable, BranchEnds, DcLineEnds, StorageGens;
    if BusGroup in which {
      NoBusChanges(g, d);
    } else {
      SameBuses(g, c, d);
    }
    if BranchGroup in which {
      NoBranchChanges(g, d);
    } else {
      SameBranches(g, c, d);
    }
    if DcLineGroup in which {
      NoDcLineChanges(g, d);
    } else {
      SameDcLines(g, c, d);
    }
    if StorageGroup in which {
      NoStorageChanges(g, d);
    } else {
      SameStorage(g, c, d);
    }
  }

  lemma MergedIs(g: Grid, r: string, zones: map<int, real>, before: map<int, real>, merged: map<int, real>)
    requires forall z :: z in merged <==> z in before || (z in zones && HasPlants(g, r, z))
    requires forall z :: z in merged ==> merged[z] == if z in zones && HasPlants(g, r, z) then zones[z] else before[z]
    ensures merged == before + Populated(g, r, zones)
  {
    hide HasPlants;
    var sum := before + Populated(g, r, zones);
    forall z
      ensures z in merged.Keys <==> z in sum.Keys
    {
      assert z in sum <==> z in before || z in Populated(g, r, zones);
    }
    assert forall z :: z in sum ==> merged[z] == sum[z];
  }

  lemma CorrectedIs(before: map<int, real>, cuts: map<int, real>, factors: map<int, real>)
    requires forall k :: k in factors <==> k in before || k in cuts
    requires forall k :: k in factors ==> factors[k] == if k in cuts then Factor(before, k) * cuts[k] else before[k]
    ensures factors == Corrected(before, cuts)
  {
    var r := Corrected(before, cuts);
    forall k
      ensures k in factors.Keys <==> k in r.Keys
    {
      assert k in r.Keys <==> k in before.Keys + cuts.Keys;
    }
    assert forall k :: k in r ==> factors[k] == r[k];
  }

  /** An accepted list of lines is one the integrity theorem speaks about. */
  lemma AcceptedIsGood(kind: LineKind, bus: Table<Bus>, info: seq<LineSpec>)
    requires forall i :: 0 <= i < |info| ==> LineAccepted(kind, bus, info[i])
    ensures kind == AcBranch ==> forall i :: 0 <= i < |info| ==> NE.GoodBranch(bus, NormalLines(info)[i])
    ensures kind == DcBranch ==> forall i :: 0 <= i < |info| ==> NE.GoodDcLine(bus, NormalLines(info)[i])
  {
  }

  lemma KnownBranches(g: Grid, c: Changes, t: Table<Branch>)
    requires BranchEndsOf(t) == BranchEnds(g, c)
    ensures t.rows.Keys == BranchEnds(g, c).rows.Keys
  {
  }

  lemma SameBusKey(c: Changes, d: Changes)
    requires d.newBus == c.newBus && d.removeBus == c.removeBus
    ensures BusKey(d) == BusKey(c)
  {
  }

  /** Existing branches have not been removed before, so recording their removal changes the table. */
  lemma RemovalIsNew(g: Grid, c: Changes, info: set<int>)
    requires info <= BranchEnds(g, c).rows.Keys
    ensures NE.Recorded(c, NE.RemoveBranches(info)) != c <==> info != {} || c.removeBranch.None?
  {
    var gone := OrNone(c.removeBranch);
    assert info !! gone;
    assert info * gone == {};
    assert gone + info == gone ==> info == info * gone;
    assert info == {} ==> gone + info == gone;
  }

  lemma BranchesTouch(g: Grid, c: Changes, t: Table<Branch>, ids: set<int>)
    requires BranchEndsOf(t) == BranchEnds(g, c)
    ensures NE.Touching(BranchEnds(g, c), ids) <==>
      exists k :: k in t.rows && (t.rows[k].fromBus in ids || t.rows[k].toBus in ids)
  {
    hide BranchEnds;
    var e := BranchEndsOf(t);
    assert forall k :: k in t.rows <==> k in e.rows;
    assert forall k :: k in t.rows ==> e.rows[k] == Ends(t.rows[k].fromBus, t.rows[k].toBus);
  }

  lemma DcLinesTouch(g: Grid, c: Changes, t: Table<DcLine>, ids: set<int>)
    requires DcLineEndsOf(t) == DcLineEnds(g, c)
    ensures NE.Touching(DcLineEnds(g, c), ids) <==>
      exists k :: k in t.rows && (t.rows[k].fromBus in ids || t.rows[k].toBus in ids)
  {
    hide DcLineEnds;
    var e := DcLineEndsOf(t);
    assert forall k :: k in t.rows <==> k in e.rows;
    assert forall k :: k in t.rows ==> e.rows[k] == Ends(t.rows[k].fromBus, t.rows[k].toBus);
  }

  lemma SameZonesDefined(g: Grid, c: Changes, d: Changes)
    requires (forall kind :: Family(d, kind) == Family(c, kind)) && d.branch == c.branch
    ensures ZonesDefined(g, d) <==> ZonesDefined(g, c)
  {
  }

  lemma SameZoneScaling(c: Changes, d: Changes, res: Resources, u: Unit)
    requires forall kind :: Family(d, kind) == Family(c, kind)
    ensures ZoneScaled(d, res, u) == ZoneScaled(c, res, u)
  {
  }

  lemma RemovalKeepsZones(g: Grid, c: Changes, d: Changes)
    requires SameIds(g) && d == c.(removeBranch := d.removeBranch, removeBus := d.removeBus)
    ensures ByZone(g, d) == ByZone(g, c) && (ZonesDefined(g, d) <==> ZonesDefined(g, c))
  {
    hide ZoneScaled, ZoneScaledBranch, ZonesDefined;
    assert forall kind :: Family(d, kind) == Family(c, kind);
    SameZonesDefined(g, c, d);
    var a := map k | k in g.plant.rows :: ZoneScaled(c, g.resources, UnitAt(g, k));
    var b := map k | k in g.plant.rows :: ZoneScaled(d, g.resources, UnitAt(g, k));
    forall k | k in g.plant.rows
      ensures a[k] == b[k]
    {
      SameZoneScaling(c, d, g.resources, UnitAt(g, k));
    }
    assert a == b;
  }

  lemma RemovalKeepsIds(a: Grid, c: Changes, d: Changes)
    requires d == c.(removeBranch := d.removeBranch, removeBus := d.removeBus)
    ensures IdsDefined(a, d) <==> IdsDefined(a, c)
  {
  }

  /** Removals come last in the transform, so recording one cannot make it fail. */
  lemma RemovalKeepsDefined(g: Grid, c: Changes, e: NE.NetworkEdit, geo: Geography)
    requires SameIds(g) && (e.RemoveBranches? || e.RemoveBuses?)
    ensures Defined(g, NE.Recorded(c, e), geo) <==> Defined(g, c, geo)
  {
    var d := NE.Recorded(c, e);
    RemovalKeepsZones(g, c, d);
    RemovalKeepsIds(Added(ByZone(g, c), c, geo), c, d);
  }

  class ChangeTable {
    const base: Grid
    const geo: Geography
    var ct: Changes
    var busCache: map<seq<Atom>, Table<Bus>>
    var branchCache: map<seq<Atom>, Table<Branch>>
    var dclineCache: map<seq<Atom>, Table<DcLine>>
    var storageCache: map<seq<Atom>, seq<StorageGen>>

    /**
     * Cache agreement: for every change table, past, present or future, an entry found under its key
     * has the buses (or line ids and ends, or storage units) that its fresh transform has.
     */
    ghost predicate Valid()
      reads this
    {
      && WellFormed(base)
      && (forall c :: BusKey(c) in busCache ==> busCache[BusKey(c)] == BusTable(base, c))
      && (forall c :: BranchKey(c) in branchCache ==> BranchEndsOf(branchCache[BranchKey(c)]) == BranchEnds(base, c))
      && (forall c :: DcLineKey(c) in dclineCache ==> DcLineEndsOf(dclineCache[DcLineKey(c)]) == DcLineEnds(base, c))
      && (forall es :: StorageKey(es) in storageCache ==>
            storageCache[StorageKey(es)] == base.storageGen + StorageUnits(es))
    }

    constructor (g: Grid, geo: Geography)
      requires WellFormed(g)
      ensures Valid() && ct == NO_CHANGES && base == g && this.geo == geo
      ensures busCache == map[] && branchCache == map[] && dclineCache == map[] && storageCache == map[]
    {
      base, this.geo, ct := g, geo, NO_CHANGES;
      busCache, branchCache, dclineCache, storageCache := map[], map[], map[], map[];
    }

    /** A fresh transform of the base grid; None where it raises. */
    method Fresh() returns (r: Option<Grid>)
      requires Valid()
      ensures SameIds(base)
      ensures r.Some? <==> Defined(base, ct, geo)
      ensures r.Some? ==> r.value == Transform(base, ct, geo)
    {
      var t := new TransformGrid(base, ct, geo);
      var ok := t.ApplyChangeTable();
      return if ok then Some(t.grid) else None;
    }

    /** A preview raises if the table has edits, is not cached, and the transform raises. */
    ghost predicate BusRaises()
      requires SameIds(base)
      reads this
    {
      (ct.newBus.Some? || ct.removeBus.Some?) && BusKey(ct) !in busCache && !Defined(base, ct, geo)
    }

    ghost predicate BranchRaises()
      requires SameIds(base)
      reads this
    {
      (ct.newBranch.Some? || ct.removeBranch.Some?) && BranchKey(ct) !in branchCache && !Defined(base, ct, geo)
    }

    ghost predicate DcLineRaises()
      requires SameIds(base)
      reads this
    {
      ct.newDcline.Some? && DcLineKey(ct) !in dclineCache && !Defined(base, ct, geo)
    }

    ghost predicate StorageRaises()
      requires SameIds(base)
      reads this
    {
      ct.storage.Some? && StorageKey(ct.storage.value) !in storageCache && !Defined(base, ct, geo)
    }

    /** The anticipated bus table. */
    method GetBus() returns (r: Option<Table<Bus>>)
      requires Valid()
      modifies this`busCache
      ensures Valid() && SameIds(base)
      ensures r.Some? ==> r.value == BusTable(base, ct)
      ensures r.None? <==> old(BusRaises())
      ensures Defined(base, ct, geo) ==> r == Some(Transform(base, ct, geo).bus)
    {
      hide Transform, Defined, BusTable, BranchEnds, DcLineEnds, WellFormed;
      WellFormedIsSameIds(base);
      TransformedNetwork(base, ct, geo);
      var key := BusKey(ct);
      if ct.newBus.None? && ct.removeBus.None? {
        NoBusChanges(base, ct);
        return Some(base.bus);
      }
      if key in busCache {
        return Some(busCache[key]);
      }
      var current := Fresh();
      if current.None? {
        return None;
      }
      forall c | BusKey(c) == key
        ensures BusTable(base, c) == current.value.bus
      {
        BusKeyInjective(c, ct);
        SameBuses(base, c, ct);
      }
      busCache := busCache[key := current.value.bus];
      return Some(current.value.bus);
    }

    /** The anticipated branch table; only its ids and ends are kept in agreement. */
    method GetBranch() returns (r: Option<Table<Branch>>)
      requires Valid()
      modifies this`branchCache
      ensures Valid() && SameIds(base)
      ensures r.Some? ==> BranchEndsOf(r.value) == BranchEnds(base, ct)
      ensures r.None? <==> old(BranchRaises())
      ensures Defined(base, ct, geo) ==>
        r.Some? && BranchEndsOf(r.value) == BranchEndsOf(Transform(base, ct, geo).branch)
    {
      hide Transform, Defined, BusTable, BranchEnds, DcLineEnds, BranchEndsOf, WellFormed;
      WellFormedIsSameIds(base);
      TransformedNetwork(base, ct, geo);
      var key := BranchKey(ct);
      if ct.newBranch.None? && ct.removeBranch.None? {
        NoBranchChanges(base, ct);
        return Some(base.branch);
      }
      if key in branchCache {
        return Some(branchCache[key]);
      }
      var current := Fresh();
      if current.None? {
        return None;
      }
      forall c | BranchKey(c) == key
        ensures BranchEnds(base, c) == BranchEnds(base, ct)
      {
        BranchKeyInjective(c, ct);
        SameBranches(base, c, ct);
      }
      branchCache := branchCache[key := current.value.branch];
      return Some(current.value.branch);
    }

    method GetDcLine() returns (r: Option<Table<DcLine>>)
      requires Valid()
      modifies this`dclineCache
      ensures Valid() && SameIds(base)
      ensures r.Some? ==> DcLineEndsOf(r.value) == DcLineEnds(base, ct)
      ensures r.None? <==> old(DcLineRaises())
      ensures Defined(base, ct, geo) ==>
        r.Some? && DcLineEndsOf(r.value) == DcLineEndsOf(Transform(base, ct, geo).dcline)
    {
      hide Transform, Defined, BusTable, BranchEnds, DcLineEnds, DcLineEndsOf, WellFormed;
      WellFormedIsSameIds(base);
      TransformedNetwork(base, ct, geo);
      var key := DcLineKey(ct);
      if ct.newDcline.None? {
        NoDcLineChanges(base, ct);
        return Some(base.dcline);
      }
      if key in dclineCache {
        return Some(dclineCache[key]);
      }
      var current := Fresh();
      if current.None? {
        return None;
      }
      forall c | DcLineKey(c) == key
        ensures DcLineEnds(base, c) == DcLineEnds(base, ct)
      {
        DcLineKeyInjective(c, ct);
        SameDcLines(base, c, ct);
      }
      dclineCache := dclineCache[key := current.value.dcline];
      return Some(current.value.dcline);
    }

    method GetStorageGen() returns (r: Option<seq<StorageGen>>)
      requires Valid()
      modifies this`storageCache
      ensures Valid() && SameIds(base)
      ensures r.Some? ==> r.value == StorageGens(base, ct)
      ensures r.None? <==> old(StorageRaises())
      ensures Defined(base, ct, geo) ==> r == Some(Transform(base, ct, geo).storageGen)
    {
      hide Transform, Defined, BusTable, BranchEnds, DcLineEnds, WellFormed, StorageKey, StorageUnits;
      WellFormedIsSameIds(base);
      TransformedNetwork(base, ct, geo);
      if ct.storage.None? {
        NoStorageChanges(base, ct);
        return Some(base.storageGen);
      }
      var key := StorageKey(ct.storage.value);
      if key in storageCache {
        return Some(storageCache[key]);
      }
      var current := Fresh();
      if current.None? {
        return None;
      }
      forall es | StorageKey(es) == key
        ensures es == ct.storage.value
      {
        StorageKeyInjective(es, ct.storage.value);
      }
      storageCache := storageCache[key := current.value.storageGen];
      return Some(current.value.storageGen);
    }

    /** Every bus must lie on the globe, in a known zone, at a positive voltage. */
    method AddBus(info: seq<BusSpec>) returns (ok: bool)
      requires Valid()
      modifies this`ct
      ensures Valid()
      ensures ok <==> forall i :: 0 <= i < |info| ==> BusAccepted(base, info[i])
      ensures ok <==> NE.Allowed(base, old(ct), NE.AddBuses(NormalBuses(info)))
      ensures ct == if ok then NE.Recorded(old(ct), NE.AddBuses(NormalBuses(info))) else old(ct)
      ensures ok ==> ct == old(ct).(newBus := ct.newBus) && Appends(old(ct).newBus, ct.newBus, info, RecordsBus)
    {
      hide BusTable, BranchEnds, DcLineEnds, WellFormed, BusKey, BranchKey, DcLineKey, StorageKey, StorageUnits,
           Appends, BusAccepted;
      BusesAppended(ct.newBus, info);
      forall i | 0 <= i < |info|
        ensures BusAccepted(base, info[i]) <==> NE.GoodBus(base, NormalBuses(info)[i])
      {
        BusAcceptedIsGood(base, info[i]);
      }
      var buses: seq<NewBus> := [];
      for i := 0 to |info|
        invariant buses == NormalBuses(info)[..i]
        invariant forall j :: 0 <= j < i ==> NE.GoodBus(base, NormalBuses(info)[j])
      {
        var b := info[i];
        var bus := NewBus(b.lat, b.lon, b.zone, 0.0, 230.0);
        if b.pd.Some? {
          bus := bus.(pd := b.pd.value);
        }
        if b.baseKV.Some? {
          bus := bus.(baseKV := b.baseKV.value);
        }
        assert bus == NormalBuses(info)[i];
        if Abs(bus.lat) > 90.0 || Abs(bus.lon) > 180.0 || bus.zone !in base.zones || bus.baseKV <= 0.0 {
          return false;
        }
        buses := buses + [bus];
      }
      assert buses == NormalBuses(info);
      ct := ct.(newBus := Some(OrEmpty(ct.newBus) + buses));
      return true;
    }

    /** The entry for a line, None where a check fails. */
    method CheckLine(kind: LineKind, bus: Table<Bus>, l: LineSpec) returns (line: Option<NewLine>)
      ensures line.Some? <==> LineAccepted(kind, bus, l)
      ensures line.Some? ==> line.value == NormalLine(l)
    {
      var from, to := l.fromBus, l.toBus;
      if from !in bus.rows || to !in bus.rows || from == to {
        return None;
      }
      match l {
        case Symmetric(_, _, capacity) =>
          if capacity < 0.0 {
            return None;
          }
          line := Some(NewLine(from, to, -capacity, capacity));
        case Limits(_, _, pmin, pmax) =>
          if kind == AcBranch || pmin > pmax {
            return None;
          }
          line := Some(NewLine(from, to, pmin, pmax));
      }
      var a, b := bus.rows[from], bus.rows[to];
      if kind == AcBranch && a.interconnect != b.interconnect {
        return None;
      }
      if a.lat == b.lat && a.lon == b.lon {
        return None;
      }
    }

    /** Lines are checked against the anticipated buses and recorded all together or not at all. */
    method AddLine(kind: LineKind, info: seq<LineSpec>) returns (ok: bool)
      requires Valid()
      modifies this`ct, this`busCache
      ensures Valid() && SameIds(base)
      ensures ok <==>
        && !old(BusRaises())
        && forall i :: 0 <= i < |info| ==> LineAccepted(kind, BusTable(base, old(ct)), info[i])
      ensures ok ==> NE.Allowed(base, old(ct), LineEdit(kind, NormalLines(info)))
      ensures ct == if ok then NE.Recorded(old(ct), LineEdit(kind, NormalLines(info))) else old(ct)
      ensures ok && kind == AcBranch ==>
        ct == old(ct).(newBranch := ct.newBranch) && Appends(old(ct).newBranch, ct.newBranch, info, RecordsLine)
      ensures ok && kind == DcBranch ==>
        ct == old(ct).(newDcline := ct.newDcline) && Appends(old(ct).newDcline, ct.newDcline, info, RecordsLine)
    {
      hide BusTable, Defined, BranchEnds, DcLineEnds, WellFormed, Transform, BusKey, BranchKey, DcLineKey, StorageKey,
           Appends, StorageUnits, BranchEndsOf, DcLineEndsOf;
      ghost var c := ct;
      var bus := GetBus();
      if bus.None? {
        return false;
      }
      var lines: seq<NewLine> := [];
      for i := 0 to |info|
        invariant Valid() && ct == old(ct) && lines == NormalLines(info)[..i]
        invariant forall j :: 0 <= j < i ==> LineAccepted(kind, bus.value, info[j])
      {
        var line := CheckLine(kind, bus.value, info[i]);
        if line.None? {
          return false;
        }
        lines := lines + [line.value];
      }
      assert lines == NormalLines(info);
      AcceptedIsGood(kind, bus.value, info);
      LinesAppended(ct.newBranch, info);
      LinesAppended(ct.newDcline, info);
      if kind == AcBranch {
        ct := ct.(newBranch := Some(OrEmpty(ct.newBranch) + lines));
      } else {
        ct := ct.(newDcline := Some(OrEmpty(ct.newDcline) + lines));
      }
      return true;
    }

    /** Storage units are completed with the grid's defaults and recorded all together or not at all. */
    method AddStorageCapacity(info: seq<StorageSpec>) returns (ok: bool)
      requires Valid()
      modifies this`ct, this`busCache
      ensures Valid() && SameIds(base)
      ensures ok <==>
        && !old(BusRaises())
        && forall i :: 0 <= i < |info| ==> StorageAccepted(BusTable(base, old(ct)), info[i], base.storageDefaults)
      ensures ok <==> !old(BusRaises()) && NE.Allowed(base, old(ct), NE.AddStorages(NormalStorages(base, info)))
      ensures ct == if ok then NE.Recorded(old(ct), NE.AddStorages(NormalStorages(base, info))) else old(ct)
      ensures ok ==> && ct == old(ct).(storage := ct.storage)
                     && Appends(old(ct).storage, ct.storage, info,
                                (e: NewStorage, s: StorageSpec) => RecordsStorage(e, s, base.storageDefaults))
    {
      hide BusTable, Defined, BranchEnds, DcLineEnds, WellFormed, Transform, BusKey, BranchKey, DcLineKey, StorageKey,
           Appends, StorageUnits, BranchEndsOf, DcLineEndsOf, NormalStorage, StorageAccepted, NE.GoodStorage;
      var bus := GetBus();
      if bus.None? {
        return false;
      }
      forall i | 0 <= i < |info|
        ensures StorageAccepted(bus.value, info[i], base.storageDefaults) <==>
          NE.GoodStorage(bus.value, NormalStorages(base, info)[i])
      {
        StorageAcceptedIsGood(base, bus.value, info[i]);
      }
      var storages: seq<NewStorage> := [];
      for i := 0 to |info|
        invariant storages == NormalStorages(base, info)[..i]
        invariant forall j :: 0 <= j < i ==> NE.GoodStorage(bus.value, NormalStorages(base, info)[j])
      {
        var storage := NormalStorage(base, info[i]);
        assert storage == NormalStorages(base, info)[i];
        if !NE.GoodStorage(bus.value, storage) {
          return false;
        }
        storages := storages + [storage];
      }
      assert storages == NormalStorages(base, info);
      StoragesAppended(base, ct.storage, info);
      ct := ct.(storage := Some(OrEmpty(ct.storage) + storages));
      return true;
    }

    /**
     * The removal is recorded before the final look at load buses, which needs a bus preview: if that
     * raises, the call fails although the change table has changed.
     */
    method RemoveBranch(info: set<int>) returns (ok: bool)
      requires Valid()
      modifies this`ct, this`branchCache, this`busCache
      ensures Valid() && SameIds(base)
      ensures var allowed := !old(BranchRaises()) && NE.Allowed(base, old(ct), NE.RemoveBranches(info));
        && (ok <==> allowed && !old(BusRaises()))
        && ct == (if allowed then NE.Recorded(old(ct), NE.RemoveBranches(info)) else old(ct))
        && (allowed ==> ct == old(ct).(removeBranch := Some(OrNone(old(ct).removeBranch) + info)))
        && (!ok && ct != old(ct) <==> allowed && old(BusRaises()) && (info != {} || old(ct).removeBranch.None?))
    {
      hide BusTable, Defined, BranchEnds, DcLineEnds, BranchEndsOf, WellFormed, Transform, BusKey, BranchKey, DcLineKey,
           StorageKey, StorageUnits, DcLineEndsOf;
      ghost var c := ct;
      var branch := GetBranch();
      if branch.None? {
        return false;
      }
      KnownBranches(base, c, branch.value);
      if !(info <= branch.value.rows.Keys) {
        return false;
      }
      RemovalIsNew(base, c, info);
      ct := ct.(removeBranch := Some((if ct.removeBranch.Some? then ct.removeBranch.value else {}) + info));
      WellFormedIsSameIds(base);
      RemovalKeepsDefined(base, c, NE.RemoveBranches(info), geo);
      SameBusKey(c, ct);
      var bus := GetBus();
      return bus.Some?;
    }

    /** `generators` are the buses of plants with positive capacity in the plant preview, None if it raises. */
    method RemoveBus(info: set<int>, generators: Option<set<int>>) returns (ok: bool)
      requires Valid()
      modifies this
      ensures Valid() && SameIds(base)
      ensures ok <==>
        && !old(BusRaises()) && !old(StorageRaises()) && !old(BranchRaises()) && !old(DcLineRaises())
        && NE.Allowed(base, old(ct), NE.RemoveBuses(info)) && generators.Some? && generators.value !! info
      ensures ct == if ok then NE.Recorded(old(ct), NE.RemoveBuses(info)) else old(ct)
      ensures ok ==> ct == old(ct).(removeBus := Some(OrNone(old(ct).removeBus) + info))
    {
      hide BusTable, Defined, BranchEnds, DcLineEnds, BranchEndsOf, DcLineEndsOf, WellFormed, StorageGens, Transform,
           BusKey, BranchKey, DcLineKey, StorageKey, StorageUnits;
      ghost var c := ct;
      var bus := GetBus();
      if bus.None? || !(info <= bus.value.rows.Keys) {
        return false;
      }
      if generators.None? || !(generators.value !! info) {
        return false;
      }
      var storage := GetStorageGen();
      if storage.None? || exists i :: 0 <= i < |storage.value| && storage.value[i].bus in info {
        return false;
      }
      var branch := GetBranch();
      if branch.None? {
        return false;
      }
      BranchesTouch(base, c, branch.value, info);
      var branches := branch.value.rows;
      if exists k :: k in branches && (branches[k].fromBus in info || branches[k].toBus in info) {
        return false;
      }
      var dcline := GetDcLine();
      if dcline.None? {
        return false;
      }
      DcLinesTouch(base, c, dcline.value, info);
      var lines := dcline.value.rows;
      if exists k :: k in lines && (lines[k].fromBus in info || lines[k].toBus in info) {
        return false;
      }
      ct := ct.(removeBus := Some((if ct.removeBus.Some? then ct.removeBus.value else {}) + info));
      return true;
    }

    method DefaultPmin(s: PlantSpec) returns (r: Option<real>)
      ensures r == DefaultedPmin(base, s)
    {
      if s.pmin.Some? {
        return s.pmin;
      }
      if s.resource !in base.resources.pminShare {
        return None;
      }
      return Some(ShareOf(base.resources.pminShare[s.resource], s.pmax));
    }

    method FindClosestNeighbor(b: Bus, peers: seq<int>) returns (near: Option<int>)
      ensures near == Closest(k => geo.plantDistance(b, k), peers)
    {
      var distance := k => geo.plantDistance(b, k);
      near := None;
      for i := 0 to |peers|
        invariant near == Closest(distance, peers[..i])
      {
        assert peers[..i + 1][..i] == peers[..i];
        if near.None? || distance(peers[i]) < distance(near.value) {
          near := Some(peers[i]);
        }
      }
      assert peers[..|peers|] == peers;
    }

    /** The body of the loop over the given plants. */
    method CheckPlant(bus: Table<Bus>, s: PlantSpec) returns (r: Option<NewPlant>)
      ensures r == NormalPlant(base, geo, bus, s)
    {
      hide DefaultedPmin, GoodPlant;
      if s.resource !in base.resources.all || s.bus !in bus.rows || s.pmax < 0.0 {
        return None;
      }
      var given := DefaultPmin(s);
      if given.None? || given.value < 0.0 || given.value > s.pmax {
        return None;
      }
      var pmin := given.value;
      if s.resource in base.resources.profile {
        var peers := SameType(base.plant, base.plant.ids, s.resource);
        if peers == [] {
          return None;
        }
        var near := FindClosestNeighbor(bus.rows[s.bus], peers);
        return Some(NewPlant(s.bus, s.resource, pmin, s.pmax, Terms(s), near));
      }
      if !TermsAccepted(s) {
        return None;
      }
      return Some(NewPlant(s.bus, s.resource, pmin, s.pmax, Terms(s), None));
    }

    /** Plants are checked against the anticipated buses and recorded all together or not at all. */
    method AddPlant(info: seq<PlantSpec>) returns (ok: bool)
      requires Valid()
      modifies this`ct, this`busCache
      ensures Valid() && SameIds(base)
      ensures ok <==>
        && !old(BusRaises())
        && forall i :: 0 <= i < |info| ==> PlantAccepted(base, BusTable(base, old(ct)), info[i])
      ensures ok ==> && ct == old(ct).(newPlant := ct.newPlant)
                     && Appends(old(ct).newPlant, ct.newPlant, info,
                                (e: NewPlant, s: PlantSpec) => RecordsPlant(base, geo, BusTable(base, old(ct)), e, s))
      ensures ok ==>
        && Acceptable(base, geo, BusTable(base, old(ct)), info)
        && PR.Leaves(base, geo, old(ct), PR.AddPlants(NormalPlants(base, geo, BusTable(base, old(ct)), info)), ct)
      ensures !ok ==> ct == old(ct)
    {
      hide BusTable, Defined, BranchEnds, DcLineEnds, WellFormed, NormalPlant, GoodPlant, Transform, BusKey, BranchKey,
           DcLineKey, StorageKey, StorageUnits, BranchEndsOf, DcLineEndsOf, Appends, PlantAccepted, RecordsPlant;
      var bus := GetBus();
      if bus.None? {
        return false;
      }
      forall i | 0 <= i < |info|
        ensures PlantAccepted(base, bus.value, info[i]) <==> NormalPlant(base, geo, bus.value, info[i]).Some?
      {
        NormalPlantIs(base, geo, bus.value, info[i]);
      }
      var plants: seq<NewPlant> := [];
      for i := 0 to |info|
        invariant Valid() && ct == old(ct) && |plants| == i
        invariant forall j :: 0 <= j < i ==> NormalPlant(base, geo, bus.value, info[j]) == Some(plants[j])
      {
        var plant := CheckPlant(bus.value, info[i]);
        if plant.None? {
          return false;
        }
        plants := plants + [plant.value];
      }
      assert plants == NormalPlants(base, geo, bus.value, info);
      PlantsAppended(base, geo, bus.value, ct.newPlant, info);
      ct := ct.(newPlant := Some(OrEmpty(ct.newPlant) + plants));
      return true;
    }

    method EnterZones(kind: Kind, r: string, zones: map<int, real>) returns (ok: bool)
      requires Valid() && r in Family(ct, kind)
      modifies this`ct
      ensures Valid() && Outcome(ok, ct) == ZonePart(base, old(ct), kind, r, zones)
    {
      hide BusTable, BranchEnds, DcLineEnds, WellFormed, Transform, BusKey, BranchKey, DcLineKey, StorageKey,
           StorageUnits, BranchEndsOf, DcLineEndsOf;
      if exists z :: z in zones && !KnownZone(base, z) {
        ct := Popped(ct, kind, r);
        return false;
      }
      if !NonNegative(zones) {
        return false;
      }
      var merged := Family(ct, kind)[r].zone;
      ghost var before := merged;
      var order := Enumerate(zones.Keys);
      for i := 0 to |order|
        invariant forall z :: z in merged <==> z in before || (z in order[..i] && HasPlants(base, r, z))
        invariant forall z :: z in merged ==>
          merged[z] == if z in order[..i] && HasPlants(base, r, z) then zones[z] else before[z]
      {
        var z := order[i];
        assert z in order && order[..i + 1] == order[..i] + [z];
        if HasPlants(base, r, z) {
          merged := merged[z := zones[z]];
        }
      }
      assert order[..|order|] == order;
      MergedIs(base, r, zones, before, merged);
      ct := Entered(ct, kind, r, Family(ct, kind)[r].(zone := merged));
      if merged == map[] {
        ct := Popped(ct, kind, r);
      }
      return true;
    }

    /** The ids of the anticipated plants; None where the transform this needs raises. */
    method PlantPreview() returns (r: Option<set<int>>)
      requires Valid()
      ensures SameIds(base) && (r.None? <==> LookupRaises(base, geo, ct))
      ensures r.Some? ==> forall k :: k in r.value <==> IsPlant(base, ct, k)
    {
      hide Defined, Transform, BusTable, BranchEnds, DcLineEnds, WellFormed, BusKey, BranchKey, DcLineKey, StorageKey,
           StorageUnits, BranchEndsOf, DcLineEndsOf;
      WellFormedIsSameIds(base);
      PlantIds(base, ct, geo);
      if !NeedsTransform(base, ct) {
        return Some(base.plant.rows.Keys);
      }
      var current := Fresh();
      return if current.Some? then Some(current.value.plant.rows.Keys) else None;
    }

    method EnterIds(kind: Kind, r: string, ids: map<int, real>) returns (ok: bool)
      requires Valid()
      modifies this`ct
      ensures Valid() && SameIds(base)
      ensures Outcome(ok, ct) == IdPart(base, old(ct), kind, r, ids, LookupRaises(base, geo, old(ct)))
    {
      hide Defined, Transform, BusTable, BranchEnds, DcLineEnds, WellFormed, BusKey, BranchKey, DcLineKey, StorageKey,
           StorageUnits, BranchEndsOf, DcLineEndsOf, IsPlant, LookupRaises;
      var known := PlantPreview();
      if known.None? {
        return false;
      }
      if exists k :: k in ids && k !in known.value {
        ct := Popped(ct, kind, r);
        return false;
      }
      if !NonNegative(ids) || r !in Family(ct, kind) {
        return false;
      }
      ct := Entered(ct, kind, r, Family(ct, kind)[r].(id := Family(ct, kind)[r].id + ids));
      return true;
    }

    /** Records zone and plant factors of one resource; several of its failures drop the whole key. */
    method AddPlantEntries(kind: Kind, r: string, zones: Option<map<int, real>>, ids: Option<map<int, real>>)
      returns (ok: bool)
      requires Valid()
      modifies this`ct
      ensures Valid() && SameIds(base)
      ensures var raises := LookupRaises(base, geo, ZonePhase(base, old(ct), kind, r, zones).ct);
        var e := PR.Scale(kind, r, zones, ids, raises);
        && Outcome(ok, ct) == FactorsEntered(base, old(ct), kind, r, zones, ids, raises)
        && (kind != MinGen ==> (ok <==> PR.Returns(base, geo, old(ct), e)) && PR.Leaves(base, geo, old(ct), e, ct))
    {
      hide Defined, Transform, BusTable, BranchEnds, DcLineEnds, WellFormed, BusKey, BranchKey, DcLineKey, StorageKey,
           PminScaled, StorageUnits, BranchEndsOf, DcLineEndsOf;
      WellFormedIsSameIds(base);
      if r !in base.resources.all || !(Given(zones) || Given(ids)) {
        return false;
      }
      if r !in Family(ct, kind) {
        ct := Entered(ct, kind, r, Factors(map[], map[]));
      }
      if zones.Some? {
        ok := EnterZones(kind, r, zones.value);
        if !ok {
          return;
        }
      }
      if ids.Some? {
        ok := EnterIds(kind, r, ids.value);
        return;
      }
      return true;
    }

    /** Multiplies the corrections into the plant factors, in any order. */
    static method Correct(before: map<int, real>, cuts: map<int, real>) returns (factors: map<int, real>)
      ensures factors == Corrected(before, cuts)
    {
      factors := before;
      var order := Enumerate(cuts.Keys);
      for i := 0 to |order|
        invariant forall k :: k in factors <==> k in before || k in order[..i]
        invariant forall k :: k in factors ==>
          factors[k] == if k in order[..i] then Factor(before, k) * cuts[k] else before[k]
      {
        var k := order[i];
        assert k in order && order[..i + 1] == order[..i] + [k];
        assert k !in order[..i];
        if k in factors {
          factors := factors[k := factors[k] * cuts[k]];
        } else {
          factors := factors[k := cuts[k]];
        }
      }
      assert order[..|order|] == order;
      CorrectedIs(before, cuts, factors);
    }

    /** Records minimum-generation factors and multiplies in a correction wherever Pmin would exceed Pmax. */
    method ScalePlantPmin(r: string, zones: Option<map<int, real>>, ids: Option<map<int, real>>) returns (ok: bool)
      requires Valid()
      modifies this`ct
      ensures Valid() && SameIds(base)
      ensures var raises := LookupRaises(base, geo, ZonePhase(base, old(ct), MinGen, r, zones).ct);
        var e := PR.Scale(MinGen, r, zones, ids, raises);
        (ok <==> PR.Returns(base, geo, old(ct), e)) && PR.Leaves(base, geo, old(ct), e, ct)
    {
      hide Defined, Transform, BusTable, BranchEnds, DcLineEnds, WellFormed, FactorsEntered, BusKey, BranchKey,
           DcLineKey, StorageKey, StorageUnits, BranchEndsOf, DcLineEndsOf, LookupRaises, ZonePhase;
      WellFormedIsSameIds(base);
      ok := AddPlantEntries(MinGen, r, zones, ids);
      if !ok {
        return;
      }
      var candidate := Fresh();
      if candidate.None? {
        return false;
      }
      var cuts := Corrections(candidate.value.plant);
      if cuts == map[] {
        return true;
      }
      if r !in ct.pmin {
        return false;
      }
      var factors := Correct(ct.pmin[r].id, cuts);
      ct := Entered(ct, MinGen, r, ct.pmin[r].(id := factors));
      return true;
    }

    /** Empties the change table; the caches stay, and stay right. */
    method ClearAll()
      requires Valid()
      modifies this`ct
      ensures Valid() && ct == NO_CHANGES
    {
      ct := NO_CHANGES;
    }

    /** Drops the keys of the named groups; deleting an absent `storage` key fails before anything is dropped. */
    method Clear(which: set<Group>) returns (ok: bool)
      requires Valid()
      modifies this`ct
      ensures Valid() && (ok <==> (StorageGroup in which ==> old(ct).storage.Some?))
      ensures if ok then ClearedTo(old(ct), ct, which) else ct == old(ct)
    {
      hide WellFormed, BusTable, BranchEnds, DcLineEnds, BusKey, BranchKey, DcLineKey, StorageKey, StorageUnits;
      var left := ct;
      if StorageGroup in which {
        if ct.storage.None? {
          return false;
        }
        left := left.(storage := None);
      }
      if BranchGroup in which {
        left := left.(branch := None, newBranch := None, removeBranch := None);
      }
      if DcLineGroup in which {
        left := left.(dcline := None, newDcline := None);
      }
      if BusGroup in which {
        left := left.(newBus := None, removeBus := None);
      }
      if PlantGroup in which {
        left := left.(newPlant := None, capacity := map[], cost := map[], pmin := map[]);
      }
      assert ClearedTo(ct, left, which);
      ct := left;
      return true;
    }
  }

  /** A zone without buses has no interconnect. */
  lemma {:induction false} EmptyZone(t: Table<Bus>, ids: seq<int>, z: int)
    requires forall k :: k in t.rows ==> t.rows[k].zone != z
    ensures ZoneInterconnect(t, ids, z).None?
  {
    if ids != [] {
      EmptyZone(t, ids[1..], z);
    }
  }

  lemma BusInEmptyZone(g: Grid, c: Changes, geo: Geography)
    requires SameIds(g) && c.newBus.Some? && |c.newBus.value| > 0
    requires forall k :: k in g.bus.rows ==> g.bus.rows[k].zone != c.newBus.value[0].zone
    ensures !Defined(g, c, geo)
  {
    hide AddBuses, AddBranches, AddDcLines, AddPlants, ZoneScaled, ZoneScaledBranch;
    EmptyZone(g.bus, g.bus.ids, c.newBus.value[0].zone);
  }

  /**
   * A failed removal that sticks: a bus is accepted in a zone that has no buses, so that the transform
   * raises from then on, and removing any branch fails although the removal is recorded.
   */
  method FailedRemovalSticks(g: Grid, geo: Geography, b: BusSpec, k: int)
    returns (t: ChangeTable, added: bool, ok: bool)
    requires WellFormed(g) && NE.GoodBus(g, NormalBus(b)) && k in g.branch.rows
    requires forall j :: j in g.bus.rows ==> g.bus.rows[j].zone != b.zone
    ensures t.base == g && added && !ok
    ensures t.ct == NO_CHANGES.(newBus := Some([NormalBus(b)]), removeBranch := Some({k}))
  {
    hide WellFormed, Defined, NE.GoodBus;
    t := new ChangeTable(g, geo);
    added := t.AddBus([b]);
    assert NormalBuses([b]) == [NormalBus(b)];
    assert [] + NormalBuses([b]) == [NormalBus(b)];
    WellFormedIsSameIds(g);
    BusInEmptyZone(g, t.ct, geo);
    NoBranchChanges(g, t.ct);
    assert k in BranchEndsOf(g.branch).rows;
    ok := t.RemoveBranch({k});
    assert OrNone(None) + {k} == {k};
  }

  /**
   * From the caller to the grid: a new branch has the capacity it was given times its id factor, a new DC
   * line its limits times its factor.
   */
  lemma CallerGetsCapacity(g: Grid, c: Changes, geo: Geography, i: nat, l: LineSpec)
    requires WellFormed(g) && SameIds(g)
    ensures var k, t := g.branch.NextId() + i, Transform(g, c, geo);
      && i < |OrEmpty(c.newBranch)| && RecordsLine(OrEmpty(c.newBranch)[i], l) && l.Symmetric?
      && k !in OrNone(c.removeBranch) ==>
        && k in t.branch.rows && t.branch.rows[k].fromBus == l.fromBus && t.branch.rows[k].toBus == l.toBus
        && t.branch.rows[k].rateA == l.capacity * Factor(OrNoFactors(c.branch).id, k)
    ensures var k, t := g.dcline.NextId() + i, Transform(g, c, geo);
      i < |OrEmpty(c.newDcline)| && RecordsLine(OrEmpty(c.newDcline)[i], l) ==>
        && k in t.dcline.rows && t.dcline.rows[k].fromBus == l.fromBus && t.dcline.rows[k].toBus == l.toBus
        && t.dcline.rows[k].pmax == (if l.Symmetric? then l.capacity else l.pmax) * DcFactor(c, k)
        && t.dcline.rows[k].pmin == (if l.Symmetric? then -l.capacity else l.pmin) * DcFactor(c, k)
  {
    hide WellFormed, Transform, Table.NextId, Defined, LiesBetween;
    NewLinesJoinTheirBuses(g, c, geo, i);
    if i < |OrEmpty(c.newBranch)| && g.branch.NextId() + i !in OrNone(c.removeBranch) {
      NewBranchLimits(g, c, geo, i, g.branch.NextId() + i);
    }
    if i < |OrEmpty(c.newDcline)| {
      NewDcLineLimits(g, c, geo, i, g.dcline.NextId() + i);
    }
  }
}

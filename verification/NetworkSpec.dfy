/**
 * The part of a transformed grid that the change table validates against: which buses exist, where
 * lines and storage units are attached. It depends on the additions and removals only.
 */
module NetworkSpec {
  import opened Reals
  import opened Tables
  import opened GridModel
  import opened TransformSpec
  import opened Additions
  import opened GridTheorems

  /** Buses after additions and removals. */
  function BusTable(g: Grid, c: Changes): Table<Bus> {
    g.bus.AppendAll(NewBusRows(g.bus, OrEmpty(c.newBus))).Without(OrNone(c.removeBus))
  }

  lemma NoBusChanges(g: Grid, c: Changes)
    requires c.newBus.None? && c.removeBus.None?
    ensures BusTable(g, c) == g.bus
  {
    WithoutNothing(g);
    AppendNone(g.bus);
    assert NewBusRows(g.bus, []) == [];
  }

  datatype Ends = Ends(fromBus: int, toBus: int)

  function BranchEndsOf(t: Table<Branch>): Table<Ends> {
    Table(t.ids, map k | k in t.rows :: Ends(t.rows[k].fromBus, t.rows[k].toBus))
  }

  function DcLineEndsOf(t: Table<DcLine>): Table<Ends> {
    Table(t.ids, map k | k in t.rows :: Ends(t.rows[k].fromBus, t.rows[k].toBus))
  }

  function EntryEnds(es: seq<NewLine>): (r: seq<Ends>)
    ensures |r| == |es| && forall i :: 0 <= i < |es| ==> r[i] == Ends(es[i].fromBus, es[i].toBus)
  {
    seq(|es|, i requires 0 <= i < |es| => Ends(es[i].fromBus, es[i].toBus))
  }

  function BranchEnds(g: Grid, c: Changes): Table<Ends> {
    BranchEndsOf(g.branch).AppendAll(EntryEnds(OrEmpty(c.newBranch))).Without(OrNone(c.removeBranch))
  }

  function DcLineEnds(g: Grid, c: Changes): Table<Ends> {
    DcLineEndsOf(g.dcline).AppendAll(EntryEnds(OrEmpty(c.newDcline)))
  }

  function StorageGens(g: Grid, c: Changes): seq<StorageGen> {
    g.storageGen + StorageUnits(OrEmpty(c.storage))
  }

  lemma {:induction false} BranchEndsAppend(t: Table<Branch>, rows: seq<Branch>, ends: seq<Ends>)
    requires |rows| == |ends| && forall i :: 0 <= i < |rows| ==> ends[i] == Ends(rows[i].fromBus, rows[i].toBus)
    ensures BranchEndsOf(t.AppendAll(rows)) == BranchEndsOf(t).AppendAll(ends)
  {
    if rows != [] {
      var n := |rows| - 1;
      BranchEndsAppend(t, rows[..n], ends[..n]);
      var u := t.AppendAll(rows[..n]);
      assert BranchEndsOf(u.Put(t.NextId() + n, rows[n])).rows == BranchEndsOf(u).Put(t.NextId() + n, ends[n]).rows;
    }
  }

  lemma {:induction false} DcLineEndsAppend(t: Table<DcLine>, rows: seq<DcLine>, ends: seq<Ends>)
    requires |rows| == |ends| && forall i :: 0 <= i < |rows| ==> ends[i] == Ends(rows[i].fromBus, rows[i].toBus)
    ensures DcLineEndsOf(t.AppendAll(rows)) == DcLineEndsOf(t).AppendAll(ends)
  {
    if rows != [] {
      var n := |rows| - 1;
      DcLineEndsAppend(t, rows[..n], ends[..n]);
      var u := t.AppendAll(rows[..n]);
      assert DcLineEndsOf(u.Put(t.NextId() + n, rows[n])).rows == DcLineEndsOf(u).Put(t.NextId() + n, ends[n]).rows;
    }
  }

  lemma SameBranchEnds(t: Table<Branch>, u: Table<Branch>)
    requires OnlyRows(t, u)
    requires forall k :: k in u.rows ==> u.rows[k].fromBus == t.rows[k].fromBus && u.rows[k].toBus == t.rows[k].toBus
    ensures BranchEndsOf(u) == BranchEndsOf(t)
  {
    var a, b := BranchEndsOf(u).rows, BranchEndsOf(t).rows;
    assert a.Keys == u.rows.Keys && b.Keys == t.rows.Keys;
    assert forall k :: k in a ==> k in b && a[k] == b[k];
    assert a == b;
  }

  lemma SameDcLineEnds(t: Table<DcLine>, u: Table<DcLine>)
    requires OnlyRows(t, u)
    requires forall k :: k in u.rows ==> u.rows[k].fromBus == t.rows[k].fromBus && u.rows[k].toBus == t.rows[k].toBus
    ensures DcLineEndsOf(u) == DcLineEndsOf(t)
  {
    var a, b := DcLineEndsOf(u).rows, DcLineEndsOf(t).rows;
    assert a.Keys == u.rows.Keys && b.Keys == t.rows.Keys;
    assert forall k :: k in a ==> k in b && a[k] == b[k];
    assert a == b;
  }

  lemma BranchEndsWithout(t: Table<Branch>, drop: set<int>)
    ensures BranchEndsOf(t.Without(drop)) == BranchEndsOf(t).Without(drop)
  {
  }

  lemma TransformedBranches(g: Grid, c: Changes, geo: Geography)
    requires WellFormed(g) && SameIds(g)
    ensures BranchEndsOf(Transform(g, c, geo).branch) == BranchEnds(g, c)
  {
    hide Added, WellFormed, BranchEndsOf, IdScaled, IdScaledDcLine, NewBranchRow, ZoneScaled, Table.Without,
         Table.AppendAll;
    AddedTables(g, c, geo);
    AddedBranches(g, c, geo);
    var z, a := ByZone(g, c), Added(ByZone(g, c), c, geo);
    SameBranchEnds(g.branch, z.branch);
    if c.newBranch.Some? {
      var rows := BranchRows(a, geo, geo.reactancePerDistance(a.bus, z.branch), c.newBranch.value);
      BranchEndsAppend(z.branch, rows, EntryEnds(c.newBranch.value));
    } else {
      assert EntryEnds(OrEmpty(c.newBranch)) == [];
      AppendNone(BranchEndsOf(g.branch));
    }
    var s := ById(a, c).branch;
    assert OnlyRows(a.branch, s);
    SameBranchEnds(a.branch, s);
    BranchEndsWithout(s, OrNone(c.removeBranch));
  }

  lemma TransformedDcLines(g: Grid, c: Changes, geo: Geography)
    requires WellFormed(g) && SameIds(g)
    ensures DcLineEndsOf(Transform(g, c, geo).dcline) == DcLineEnds(g, c)
  {
    hide ByZone, Added, WellFormed, DcLineEndsOf, IdScaled, IdScaledBranch, Table.AppendAll;
    AddedTables(g, c, geo);
    var a := Added(ByZone(g, c), c, geo);
    DcLineEndsAppend(g.dcline, DcLineRows(a, OrEmpty(c.newDcline)), EntryEnds(OrEmpty(c.newDcline)));
    var s := ById(a, c).dcline;
    assert OnlyRows(a.dcline, s);
    SameDcLineEnds(a.dcline, s);
  }

  /** The transform of any change table has exactly these buses, line ends and storage units. */
  lemma TransformedNetwork(g: Grid, c: Changes, geo: Geography)
    requires WellFormed(g) && SameIds(g)
    ensures var t := Transform(g, c, geo);
      && t.bus == BusTable(g, c)
      && BranchEndsOf(t.branch) == BranchEnds(g, c)
      && DcLineEndsOf(t.dcline) == DcLineEnds(g, c)
      && t.storageGen == StorageGens(g, c)
  {
    hide ByZone, Added, WellFormed, BranchEndsOf, DcLineEndsOf, BranchRows, DcLineRows, NewBusRows, StorageUnits,
         IdScaled, IdScaledBranch, IdScaledDcLine, BranchEnds, DcLineEnds;
    AddedTables(g, c, geo);
    TransformedBranches(g, c, geo);
    TransformedDcLines(g, c, geo);
  }

  predicate BusCarries(t: Table<Bus>, k: int, e: NewBus) {
    && k in t.rows
    && t.rows[k].lat == e.lat && t.rows[k].lon == e.lon && t.rows[k].zone == e.zone
    && t.rows[k].pd == e.pd && t.rows[k].baseKV == e.baseKV
  }

  /** The base bus `j` is the first in zone `z`, and belongs to the interconnect. */
  predicate InInterconnect(g: Grid, j: int, z: int, interconnect: string) {
    && j in g.bus.rows && g.bus.rows[j].zone == z && g.bus.rows[j].interconnect == interconnect
    && forall k :: k in g.bus.rows && g.bus.rows[k].zone == z ==> j <= k
  }

  /** The first base bus of the zone of bus `k` belongs to its interconnect. */
  ghost predicate InZoneInterconnect(g: Grid, t: Table<Bus>, k: int) {
    k in t.rows && exists j :: InInterconnect(g, j, t.rows[k].zone, t.rows[k].interconnect)
  }

  lemma BusRowIsEntry(t: Table<Bus>, e: NewBus)
    ensures var b := NewBusRow(t, e);
      && b.lat == e.lat && b.lon == e.lon && b.zone == e.zone && b.pd == e.pd && b.baseKV == e.baseKV
      && b.interconnect == InterconnectOf(t, e.zone)
  {
  }

  lemma ZoneIsKnown(g: Grid, c: Changes, geo: Geography, i: nat)
    requires SameIds(g) && i < |OrEmpty(c.newBus)| && Defined(g, c, geo)
    ensures ZoneInterconnect(g.bus, g.bus.ids, OrEmpty(c.newBus)[i].zone).Some?
  {
    hide AddBuses, AddBranches, AddDcLines, AddPlants, ZoneScaled, ZoneScaledBranch;
  }

  lemma {:induction false} ZoneHasBus(t: Table<Bus>, ids: seq<int>, z: int) returns (j: int)
    requires ZoneInterconnect(t, ids, z).Some?
    ensures j in t.rows && t.rows[j].zone == z && ZoneInterconnect(t, ids, z) == Some(t.rows[j].interconnect)
    ensures j in ids && (Ascending(ids) ==> forall k :: k in ids && k in t.rows && t.rows[k].zone == z ==> j <= k)
  {
    if ids[0] in t.rows && t.rows[ids[0]].zone == z {
      j := ids[0];
    } else {
      j := ZoneHasBus(t, ids[1..], z);
    }
  }

  lemma FirstBus(t: Table<Bus>, j: int, z: int)
    requires t.Valid()
    requires Ascending(t.ids) ==> forall k :: k in t.ids && k in t.rows && t.rows[k].zone == z ==> j <= k
    ensures forall k :: k in t.rows && t.rows[k].zone == z ==> j <= k
  {
  }

  /**
   * The i-th new bus (unless removed again) carries its own entry's values, and the interconnect of
   * the first base bus of its zone, whatever else the change table holds.
   */
  lemma NewBusHasItsEntry(g: Grid, c: Changes, geo: Geography, i: nat)
    requires WellFormed(g) && SameIds(g) && i < |OrEmpty(c.newBus)| && g.bus.NextId() + i !in OrNone(c.removeBus)
    ensures BusCarries(Transform(g, c, geo).bus, g.bus.NextId() + i, OrEmpty(c.newBus)[i])
    ensures Defined(g, c, geo) ==> InZoneInterconnect(g, Transform(g, c, geo).bus, g.bus.NextId() + i)
  {
    hide Transform, NewBusRow, WellFormed, Table.NextId, Table.AppendAll, Table.Valid, Defined;
    TransformedNetwork(g, c, geo);
    WellFormedBranches(g);
    var e := OrEmpty(c.newBus)[i];
    AppendedRow(g.bus, NewBusRows(g.bus, OrEmpty(c.newBus)), i);
    BusRowIsEntry(g.bus, e);
    if Defined(g, c, geo) {
      ZoneIsKnown(g, c, geo, i);
      var j := ZoneHasBus(g.bus, g.bus.ids, e.zone);
      FirstBus(g.bus, j, e.zone);
      assert InInterconnect(g, j, e.zone, InterconnectOf(g.bus, e.zone));
    }
  }

  /** The i-th new branch (unless removed again) and the i-th new DC line join the buses of their own entry. */
  lemma NewLinesJoinTheirBuses(g: Grid, c: Changes, geo: Geography, i: nat)
    requires WellFormed(g) && SameIds(g)
    ensures var t, k := Transform(g, c, geo), g.branch.NextId() + i;
      i < |OrEmpty(c.newBranch)| && k !in OrNone(c.removeBranch) ==>
        && k in t.branch.rows
        && t.branch.rows[k].fromBus == OrEmpty(c.newBranch)[i].fromBus
        && t.branch.rows[k].toBus == OrEmpty(c.newBranch)[i].toBus
    ensures var t, k := Transform(g, c, geo), g.dcline.NextId() + i;
      i < |OrEmpty(c.newDcline)| ==>
        && k in t.dcline.rows
        && t.dcline.rows[k].fromBus == OrEmpty(c.newDcline)[i].fromBus
        && t.dcline.rows[k].toBus == OrEmpty(c.newDcline)[i].toBus
  {
    hide Transform, WellFormed, BusTable, Table.NextId, Table.AppendAll, Table.Valid;
    TransformedNetwork(g, c, geo);
    WellFormedBranches(g);
    var t, b, d := Transform(g, c, geo), BranchEndsOf(g.branch), DcLineEndsOf(g.dcline);
    OnlyRowsValid(g.branch, b);
    OnlyRowsValid(g.dcline, d);
    if i < |OrEmpty(c.newBranch)| && g.branch.NextId() + i !in OrNone(c.removeBranch) {
      AppendedRow(b, EntryEnds(OrEmpty(c.newBranch)), i);
      assert g.branch.NextId() + i in BranchEndsOf(t.branch).rows;
    }
    if i < |OrEmpty(c.newDcline)| {
      AppendedRow(d, EntryEnds(OrEmpty(c.newDcline)), i);
      assert g.dcline.NextId() + i in DcLineEndsOf(t.dcline).rows;
    }
  }

  predicate Joins(t: Table<Branch>, k: int, e: NewLine) {
    k in t.rows && t.rows[k].fromBus == e.fromBus && t.rows[k].toBus == e.toBus
  }

  /**
   * Ids are never reused: whatever is appended, scaled or removed later, the id of an earlier entry
   * belongs to that entry or to nothing.
   */
  lemma IdsAreNeverReused(g: Grid, c: Changes, d: Changes, geo: Geography, i: nat)
    requires WellFormed(g) && SameIds(g)
    requires OrEmpty(c.newBus) <= OrEmpty(d.newBus) && OrEmpty(c.newBranch) <= OrEmpty(d.newBranch)
    ensures var t, k := Transform(g, d, geo).bus, g.bus.NextId() + i;
      i < |OrEmpty(c.newBus)| && k in t.ids ==> BusCarries(t, k, OrEmpty(c.newBus)[i])
    ensures var t, k := Transform(g, d, geo).branch, g.branch.NextId() + i;
      i < |OrEmpty(c.newBranch)| && k in t.ids ==> Joins(t, k, OrEmpty(c.newBranch)[i])
  {
    hide WellFormed, Transform, Table.NextId, BusCarries;
    AssignedIds(g, d, geo);
    if i < |OrEmpty(c.newBus)| && g.bus.NextId() + i in Transform(g, d, geo).bus.ids {
      NewBusHasItsEntry(g, d, geo, i);
    }
    NewLinesJoinTheirBuses(g, d, geo, i);
  }

  function DcFactor(c: Changes, k: int): real {
    Factor(OrEmptyMap(c.dcline), k)
  }

  /** Limits of a DC line times its factor, switched off by a zero one; nothing else changes. */
  predicate DcLineIs(d: DcLine, from: DcLine, f: real) {
    d == from.(pmin := from.pmin * f, pmax := from.pmax * f, status := if f == 0.0 then 0 else from.status)
  }

  lemma DcLineById(m: map<int, real>, k: int, d: DcLine)
    ensures DcLineIs(IdScaledDcLine(m, k, d), d, Factor(m, k))
  {
  }

  /** After the additions a line is scaled by id, and only a branch can still be removed. */
  lemma LinesLast(a: Grid, c: Changes, k: int)
    requires SameIds(a)
    ensures var t := Removed(ById(a, c), c);
      && (k in a.dcline.rows ==>
            k in t.dcline.rows && t.dcline.rows[k] == IdScaledDcLine(OrEmptyMap(c.dcline), k, a.dcline.rows[k]))
      && (k in a.branch.rows && k !in OrNone(c.removeBranch) ==>
            k in t.branch.rows && t.branch.rows[k] == IdScaledBranch(OrNoFactors(c.branch).id, k, a.branch.rows[k]))
  {
    hide IdScaled, IdScaledBranch, IdScaledDcLine;
  }

  /** A base DC line takes its own factor only. */
  lemma DcLineScaling(g: Grid, c: Changes, geo: Geography, k: int)
    requires WellFormed(g) && SameIds(g) && k in g.dcline.rows
    ensures var t := Transform(g, c, geo);
      k in t.dcline.rows && DcLineIs(t.dcline.rows[k], g.dcline.rows[k], DcFactor(c, k))
  {
    hide WellFormed, ByZone, Added, ById, Removed, IdScaledDcLine, DcLineIs, Table.AppendAll, Table.Valid;
    AddedTables(g, c, geo);
    WellFormedBranches(g);
    var a := Added(ByZone(g, c), c, geo);
    KeptRow(g.dcline, DcLineRows(a, OrEmpty(c.newDcline)), k);
    LinesLast(a, c, k);
    DcLineById(OrEmptyMap(c.dcline), k, a.dcline.rows[k]);
  }

  /** The i-th new DC line has its own entry's limits times its factor, and runs unless that is zero. */
  lemma NewDcLineLimits(g: Grid, c: Changes, geo: Geography, i: nat, k: int)
    requires WellFormed(g) && SameIds(g) && i < |OrEmpty(c.newDcline)| && k == g.dcline.NextId() + i
    ensures var t, e, f := Transform(g, c, geo), OrEmpty(c.newDcline)[i], DcFactor(c, k);
      && k in t.dcline.rows && var d := t.dcline.rows[k];
      && d.pmin == e.pmin * f && d.pmax == e.pmax * f && (d.status == 1 <==> f != 0.0) && (d.status == 0 <==> f == 0.0)
      && var bus := g.bus.AppendAll(NewBusRows(g.bus, OrEmpty(c.newBus))).rows;
      && (e.fromBus in bus ==> d.fromInterconnect == bus[e.fromBus].interconnect)
      && (e.toBus in bus ==> d.toInterconnect == bus[e.toBus].interconnect)
  {
    hide WellFormed, ByZone, Added, ById, Removed, IdScaledDcLine, Table.AppendAll, Table.Valid, Table.NextId;
    AddedTables(g, c, geo);
    WellFormedBranches(g);
    var a := Added(ByZone(g, c), c, geo);
    AppendedRow(g.dcline, DcLineRows(a, OrEmpty(c.newDcline)), i);
    LinesLast(a, c, k);
    DcLineById(OrEmptyMap(c.dcline), k, a.dcline.rows[k]);
  }

  lemma BranchRowLimit(a: Grid, geo: Geography, v2x: map<real, real>, e: NewLine)
    ensures BranchRowOf(a, geo, v2x, e).rateA == e.pmax
  {
  }

  lemma ScaledRow(m: map<int, real>, k: int, row: Branch)
    ensures IdScaledBranch(m, k, row).rateA == row.rateA * Factor(m, k)
  {
  }

  /** The length of the branch times the mean of its two ends' reactance per distance, divided by its factor. */
  predicate ReactsAs(a: Bus, b: Bus, geo: Geography, v2x: map<real, real>, f: real, x: Reactance) {
    && a.baseKV in v2x && b.baseKV in v2x
    && (f == 0.0 ==> x == NotFinite)
    && (f != 0.0 ==> x == Finite(geo.distance(a, b) * ((v2x[a.baseKV] + v2x[b.baseKV]) / 2.0) / f))
  }

  lemma BranchRowReacts(a: Grid, geo: Geography, v2x: map<real, real>, e: NewLine, m: map<int, real>, k: int)
    requires BranchReady(a, v2x, e)
    ensures ReactsAs(a.bus.rows[e.fromBus], a.bus.rows[e.toBus], geo, v2x, Factor(m, k),
                     IdScaledBranch(m, k, BranchRowOf(a, geo, v2x, e)).x)
  {
  }

  /** The branch lies in the zones of the buses it joins. */
  predicate LiesBetween(g: Grid, c: Changes, e: NewLine, b: Branch) {
    var bus := g.bus.AppendAll(NewBusRows(g.bus, OrEmpty(c.newBus)));
    && e.fromBus in bus.rows && e.toBus in bus.rows
    && b.fromZone == bus.rows[e.fromBus].zone && b.toZone == bus.rows[e.toBus].zone
    && b.interconnect == bus.rows[e.fromBus].interconnect
  }

  lemma NewBranchReady(g: Grid, c: Changes, geo: Geography, i: nat)
    requires WellFormed(g) && SameIds(g) && i < |OrEmpty(c.newBranch)| && Defined(g, c, geo)
    ensures var z, a := ByZone(g, c), Added(ByZone(g, c), c, geo);
      SameIds(z) && BranchReady(a, geo.reactancePerDistance(a.bus, z.branch), OrEmpty(c.newBranch)[i])
  {
    hide WellFormed, ByZone, Added, AddBuses, AddDcLines, AddPlants;
    AddedTables(g, c, geo);
    var z, a := ByZone(g, c), Added(ByZone(g, c), c, geo);
    var b := AddBuses(z, OrEmpty(c.newBus));
    AddBusesFrame(z, OrEmpty(c.newBus));
    AddBusesBus(z, OrEmpty(c.newBus));
    assert BranchReady(b, geo.reactancePerDistance(b.bus, b.branch), c.newBranch.value[i]);
  }

  lemma BranchRowBetween(g: Grid, c: Changes, a: Grid, geo: Geography, v2x: map<real, real>, e: NewLine, b: Branch)
    requires BranchReady(a, v2x, e) && a.bus == g.bus.AppendAll(NewBusRows(g.bus, OrEmpty(c.newBus)))
    requires var row := BranchRowOf(a, geo, v2x, e); b == row.(rateA := b.rateA, x := b.x)
    ensures LiesBetween(g, c, e, b)
  {
  }

  /**
   * The i-th new branch (unless removed again) has its own entry's capacity times its id factor: zone
   * factors do not reach it. Where the transform is defined it lies in the zones of its two buses and in
   * the interconnect of the first, and its reactance follows from its length and its buses' voltages.
   */
  lemma NewBranchLimits(g: Grid, c: Changes, geo: Geography, i: nat, k: int)
    requires WellFormed(g) && SameIds(g) && i < |OrEmpty(c.newBranch)|
    requires k == g.branch.NextId() + i && k !in OrNone(c.removeBranch)
    ensures var t, e := Transform(g, c, geo), OrEmpty(c.newBranch)[i];
      && k in t.branch.rows && var b := t.branch.rows[k];
      && b.rateA == e.pmax * Factor(OrNoFactors(c.branch).id, k)
      && (Defined(g, c, geo) ==> LiesBetween(g, c, e, b))
      && (Defined(g, c, geo) ==>
            && var bus := g.bus.AppendAll(NewBusRows(g.bus, OrEmpty(c.newBus)));
            && e.fromBus in bus.rows && e.toBus in bus.rows
            && ReactsAs(bus.rows[e.fromBus], bus.rows[e.toBus], geo,
                        geo.reactancePerDistance(bus, ByZone(g, c).branch), Factor(OrNoFactors(c.branch).id, k), b.x))
  {
    hide WellFormed, ByZone, Added, ById, Removed, IdScaledBranch, Table.AppendAll, Table.Valid, Table.NextId,
         BranchRowOf, Defined, LiesBetween, BranchReady, ReactsAs;
    AddedTables(g, c, geo);
    AddedBranches(g, c, geo);
    WellFormedBranches(ByZone(g, c));
    var z, a, e := ByZone(g, c), Added(ByZone(g, c), c, geo), OrEmpty(c.newBranch)[i];
    var v2x := geo.reactancePerDistance(a.bus, z.branch);
    SameNext(g.branch, z.branch);
    AppendedRow(z.branch, BranchRows(a, geo, v2x, c.newBranch.value), i);
    LinesLast(a, c, k);
    var row := BranchRowOf(a, geo, v2x, e);
    assert a.branch.rows[k] == row;
    BranchRowLimit(a, geo, v2x, e);
    ScaledRow(OrNoFactors(c.branch).id, k, row);
    if Defined(g, c, geo) {
      NewBranchReady(g, c, geo, i);
      BranchRowBetween(g, c, a, geo, v2x, e, IdScaledBranch(OrNoFactors(c.branch).id, k, row));
      BranchRowReacts(a, geo, v2x, e, OrNoFactors(c.branch).id, k);
    }
  }
}

/**
 * The edits that change which elements exist, what each demands of the grid as it then stands,
 * and the integrity that every history of such edits keeps.
 */
module NetworkEdits {
  import opened Reals
  import opened Tables
  import opened GridModel
  import opened TransformSpec
  import opened Additions
  import opened NetworkSpec

  datatype NetworkEdit =
    | AddBuses(buses: seq<NewBus>)
    | AddBranches(lines: seq<NewLine>)
    | AddDcLines(lines: seq<NewLine>)
    | AddStorages(storages: seq<NewStorage>)
    | RemoveBranches(ids: set<int>)
    | RemoveBuses(ids: set<int>)

  /** The change table after recording an edit. */
  function Recorded(c: Changes, e: NetworkEdit): Changes {
    match e
    case AddBuses(buses) => c.(newBus := Some(OrEmpty(c.newBus) + buses))
    case AddBranches(lines) => c.(newBranch := Some(OrEmpty(c.newBranch) + lines))
    case AddDcLines(lines) => c.(newDcline := Some(OrEmpty(c.newDcline) + lines))
    case AddStorages(storages) => c.(storage := Some(OrEmpty(c.storage) + storages))
    case RemoveBranches(ids) => c.(removeBranch := Some(OrNone(c.removeBranch) + ids))
    case RemoveBuses(ids) => c.(removeBus := Some(OrNone(c.removeBus) + ids))
  }

  predicate Apart(a: Bus, b: Bus) {
    a.lat != b.lat || a.lon != b.lon
  }

  predicate GoodDcLine(bus: Table<Bus>, e: NewLine) {
    && e.fromBus in bus.rows && e.toBus in bus.rows && e.fromBus != e.toBus
    && e.pmin <= e.pmax && Apart(bus.rows[e.fromBus], bus.rows[e.toBus])
  }

  /** An AC line is symmetric and stays inside one interconnect. */
  predicate GoodBranch(bus: Table<Bus>, e: NewLine) {
    && GoodDcLine(bus, e) && e.pmin == -e.pmax && 0.0 <= e.pmax
    && bus.rows[e.fromBus].interconnect == bus.rows[e.toBus].interconnect
  }

  predicate GoodStorage(bus: Table<Bus>, e: NewStorage) {
    && e.bus in bus.rows && 0 <= e.bus && 0.0 <= e.capacity && 0.0 <= e.duration && 0.0 <= e.energyValue
    && 0.0 <= e.minStor <= 1.0 && 0.0 <= e.maxStor <= 1.0 && 0.0 <= e.inEff <= 1.0 && 0.0 <= e.outEff <= 1.0
    && 0.0 <= e.lossFactor <= 1.0 && 0.0 <= e.terminalMin && 0.0 <= e.terminalMax
  }

  predicate GoodBus(g: Grid, e: NewBus) {
    Abs(e.lat) <= 90.0 && Abs(e.lon) <= 180.0 && e.zone in g.zones && e.baseKV > 0.0
  }

  predicate Touching(ends: Table<Ends>, ids: set<int>) {
    exists k :: k in ends.rows && (ends.rows[k].fromBus in ids || ends.rows[k].toBus in ids)
  }

  /** What the checks of the source amount to, on the grid as the change table stands. */
  predicate Allowed(g: Grid, c: Changes, e: NetworkEdit) {
    match e
    case AddBuses(buses) => forall i :: 0 <= i < |buses| ==> GoodBus(g, buses[i])
    case AddBranches(lines) => forall i :: 0 <= i < |lines| ==> GoodBranch(BusTable(g, c), lines[i])
    case AddDcLines(lines) => forall i :: 0 <= i < |lines| ==> GoodDcLine(BusTable(g, c), lines[i])
    case AddStorages(storages) => forall i :: 0 <= i < |storages| ==> GoodStorage(BusTable(g, c), storages[i])
    case RemoveBranches(ids) => ids <= BranchEnds(g, c).rows.Keys
    case RemoveBuses(ids) =>
      && ids <= BusTable(g, c).rows.Keys
      && (forall i :: 0 <= i < |StorageGens(g, c)| ==> StorageGens(g, c)[i].bus !in ids)
      && !Touching(BranchEnds(g, c), ids) && !Touching(DcLineEnds(g, c), ids)
  }

  /** Removals are checked against the transformed grid: what goes is there, and nothing hangs on a bus that goes. */
  lemma RemovalAllowedIff(g: Grid, c: Changes, geo: Geography, ids: set<int>)
    requires WellFormed(g) && SameIds(g)
    ensures var t := Transform(g, c, geo);
      && (Allowed(g, c, RemoveBranches(ids)) <==> ids <= t.branch.rows.Keys)
      && (Allowed(g, c, RemoveBuses(ids)) <==>
            && ids <= t.bus.rows.Keys
            && (forall i :: 0 <= i < |t.storageGen| ==> t.storageGen[i].bus !in ids)
            && (forall k :: k in t.branch.rows ==> t.branch.rows[k].fromBus !in ids && t.branch.rows[k].toBus !in ids)
            && (forall k :: k in t.dcline.rows ==> t.dcline.rows[k].fromBus !in ids && t.dcline.rows[k].toBus !in ids))
  {
    hide WellFormed, Transform, BusTable, BranchEnds, DcLineEnds, StorageGens;
    TransformedNetwork(g, c, geo);
    var t := Transform(g, c, geo);
    var ac, dc := BranchEndsOf(t.branch).rows, DcLineEndsOf(t.dcline).rows;
    assert ac.Keys == t.branch.rows.Keys && dc.Keys == t.dcline.rows.Keys;
    assert forall k :: k in t.branch.rows ==> ac[k] == Ends(t.branch.rows[k].fromBus, t.branch.rows[k].toBus);
    assert forall k :: k in t.dcline.rows ==> dc[k] == Ends(t.dcline.rows[k].fromBus, t.dcline.rows[k].toBus);
    assert Touching(BranchEnds(g, c), ids) <==>
      exists k :: k in t.branch.rows && (t.branch.rows[k].fromBus in ids || t.branch.rows[k].toBus in ids);
    assert Touching(DcLineEnds(g, c), ids) <==>
      exists k :: k in t.dcline.rows && (t.dcline.rows[k].fromBus in ids || t.dcline.rows[k].toBus in ids);
  }

  /** Lines and storage sit on existing buses, no line is a loop, no AC line crosses interconnects. */
  ghost predicate Sound(bus: Table<Bus>, branch: Table<Ends>, dcline: Table<Ends>, storage: seq<StorageGen>) {
    && (forall k :: k in branch.rows ==>
          && branch.rows[k].fromBus in bus.rows && branch.rows[k].toBus in bus.rows
          && branch.rows[k].fromBus != branch.rows[k].toBus
          && bus.rows[branch.rows[k].fromBus].interconnect == bus.rows[branch.rows[k].toBus].interconnect)
    && (forall k :: k in dcline.rows ==>
          && dcline.rows[k].fromBus in bus.rows && dcline.rows[k].toBus in bus.rows
          && dcline.rows[k].fromBus != dcline.rows[k].toBus)
    && (forall i :: 0 <= i < |storage| ==> storage[i].bus in bus.rows)
  }

  ghost predicate SoundChanges(g: Grid, c: Changes) {
    Sound(BusTable(g, c), BranchEnds(g, c), DcLineEnds(g, c), StorageGens(g, c))
  }

  /** Integrity of an actual grid. */
  ghost predicate SoundGrid(g: Grid) {
    Sound(g.bus, BranchEndsOf(g.branch), DcLineEndsOf(g.dcline), g.storageGen)
  }

  lemma BaseIsSound(g: Grid)
    requires WellFormed(g) && SoundGrid(g)
    ensures SoundChanges(g, NO_CHANGES)
  {
    WithoutNothing(g);
    AppendNone(g.bus);
    AppendNone(BranchEndsOf(g.branch));
    AppendNone(DcLineEndsOf(g.dcline));
    assert NewBusRows(g.bus, []) == [] && EntryEnds([]) == [] && StorageUnits([]) == [];
    assert g.storageGen + [] == g.storageGen;
    RejectNothing(g.branch.ids);
    var e := BranchEndsOf(g.branch);
    assert e.rows - {} == e.rows;
  }

  /** Keys and rows after appending more and dropping some. */
  lemma {:induction false} AppendMore<R>(t: Table<R>, rs: seq<R>, more: seq<R>)
    requires t.Valid()
    ensures forall k :: k in t.AppendAll(rs + more).rows <==>
      k in t.AppendAll(rs).rows || t.NextId() + |rs| <= k < t.NextId() + |rs| + |more|
    ensures forall k :: k in t.AppendAll(rs).rows ==> t.AppendAll(rs + more).rows[k] == t.AppendAll(rs).rows[k]
    ensures forall k :: t.NextId() + |rs| <= k < t.NextId() + |rs| + |more| ==>
      t.AppendAll(rs + more).rows[k] == more[k - t.NextId() - |rs|]
  {
    AppendRows(t, rs);
    AppendRows(t, rs + more);
    OldIdsAreSmaller(t);
  }

  lemma EndsAreValid(g: Grid)
    requires WellFormed(g)
    ensures BranchEndsOf(g.branch).Valid() && DcLineEndsOf(g.dcline).Valid()
  {
  }

  lemma MoreBusesKeep(g: Grid, c: Changes, buses: seq<NewBus>)
    requires WellFormed(g)
    ensures Keeps(BusTable(g, c), BusTable(g, Recorded(c, AddBuses(buses))))
  {
    hide NewBusRow;
    var es := OrEmpty(c.newBus);
    assert NewBusRows(g.bus, es + buses) == NewBusRows(g.bus, es) + NewBusRows(g.bus, buses);
    AppendMore(g.bus, NewBusRows(g.bus, es), NewBusRows(g.bus, buses));
  }

  lemma KeepingIsSound(t: Table<Bus>, u: Table<Bus>, branch: Table<Ends>, dcline: Table<Ends>, storage: seq<StorageGen>)
    requires Keeps(t, u) && Sound(t, branch, dcline, storage)
    ensures Sound(u, branch, dcline, storage)
  {
  }

  lemma MoreBranches(g: Grid, c: Changes, lines: seq<NewLine>)
    requires WellFormed(g)
    ensures var t := BranchEnds(g, Recorded(c, AddBranches(lines))); forall k :: k in t.rows ==>
      (k in BranchEnds(g, c).rows && t.rows[k] == BranchEnds(g, c).rows[k]) || t.rows[k] in EntryEnds(lines)
  {
    EndsAreValid(g);
    var es := OrEmpty(c.newBranch);
    assert EntryEnds(es + lines) == EntryEnds(es) + EntryEnds(lines);
    AppendMore(BranchEndsOf(g.branch), EntryEnds(es), EntryEnds(lines));
  }

  lemma MoreDcLines(g: Grid, c: Changes, lines: seq<NewLine>)
    requires WellFormed(g)
    ensures var t := DcLineEnds(g, Recorded(c, AddDcLines(lines))); forall k :: k in t.rows ==>
      (k in DcLineEnds(g, c).rows && t.rows[k] == DcLineEnds(g, c).rows[k]) || t.rows[k] in EntryEnds(lines)
  {
    EndsAreValid(g);
    var es := OrEmpty(c.newDcline);
    assert EntryEnds(es + lines) == EntryEnds(es) + EntryEnds(lines);
    AppendMore(DcLineEndsOf(g.dcline), EntryEnds(es), EntryEnds(lines));
  }

  lemma FewerBranches(g: Grid, c: Changes, ids: set<int>)
    ensures var t := BranchEnds(g, Recorded(c, RemoveBranches(ids))); forall k :: k in t.rows ==>
      k in BranchEnds(g, c).rows && t.rows[k] == BranchEnds(g, c).rows[k]
  {
  }

  lemma FewerBuses(g: Grid, c: Changes, ids: set<int>)
    ensures var t := BusTable(g, Recorded(c, RemoveBuses(ids))); forall k :: k in BusTable(g, c).rows && k !in ids ==>
      k in t.rows && t.rows[k] == BusTable(g, c).rows[k]
  {
  }

  /** Each edit changes one table at most. */
  lemma Unaffected(g: Grid, c: Changes, e: NetworkEdit)
    ensures var d := Recorded(c, e);
      && (!e.AddBuses? && !e.RemoveBuses? ==> BusTable(g, d) == BusTable(g, c))
      && (!e.AddBranches? && !e.RemoveBranches? ==> BranchEnds(g, d) == BranchEnds(g, c))
      && (!e.AddDcLines? ==> DcLineEnds(g, d) == DcLineEnds(g, c))
      && (!e.AddStorages? ==> StorageGens(g, d) == StorageGens(g, c))
  {
  }

  /** Every allowed edit keeps the network sound. */
  lemma EditKeepsSound(g: Grid, c: Changes, e: NetworkEdit)
    requires WellFormed(g) && SoundChanges(g, c) && Allowed(g, c, e)
    ensures SoundChanges(g, Recorded(c, e))
  {
    hide BusTable, BranchEnds, DcLineEnds;
    var d := Recorded(c, e);
    Unaffected(g, c, e);
    match e
    case AddBuses(buses) =>
      MoreBusesKeep(g, c, buses);
      KeepingIsSound(BusTable(g, c), BusTable(g, d), BranchEnds(g, c), DcLineEnds(g, c), StorageGens(g, c));
    case AddBranches(lines) => MoreBranches(g, c, lines);
    case AddDcLines(lines) => MoreDcLines(g, c, lines);
    case AddStorages(storages) =>
      assert StorageUnits(OrEmpty(c.storage) + storages) == StorageUnits(OrEmpty(c.storage)) + StorageUnits(storages);
      assert StorageGens(g, d) == StorageGens(g, c) + StorageUnits(storages);
    case RemoveBranches(ids) => FewerBranches(g, c, ids);
    case RemoveBuses(ids) => FewerBuses(g, c, ids);
  }

  ghost predicate Step(g: Grid, c: Changes, d: Changes) {
    exists e :: Allowed(g, c, e) && d == Recorded(c, e)
  }

  /**
   * A history of change tables: each is its predecessor (a failed call) or records one edit allowed
   * at that point.
   */
  ghost predicate History(g: Grid, run: seq<Changes>) {
    && |run| > 0 && run[0] == NO_CHANGES
    && forall i :: 0 <= i < |run| - 1 ==> run[i + 1] == run[i] || Step(g, run[i], run[i + 1])
  }

  lemma {:induction false} HistoriesAreSound(g: Grid, run: seq<Changes>, i: nat)
    requires WellFormed(g) && SoundGrid(g) && History(g, run) && i < |run|
    ensures SoundChanges(g, run[i])
  {
    hide SoundChanges, Allowed, Recorded, SoundGrid;
    if i == 0 {
      BaseIsSound(g);
    } else {
      HistoriesAreSound(g, run, i - 1);
      var c, d := run[i - 1], run[i - 1 + 1];
      if d != c {
        var e :| Allowed(g, c, e) && d == Recorded(c, e);
        EditKeepsSound(g, c, e);
      }
    }
  }

  /**
   * Referential integrity over whole runs: from a well-formed base grid, whatever sequence of bus,
   * branch, DC line and storage additions and branch and bus removals is called, the transformed grid
   * has every branch, DC line and storage unit on existing buses, no loops, and no AC branch between
   * interconnects.
   */
  lemma ReferentialIntegrity(g: Grid, run: seq<Changes>, i: nat, geo: Geography)
    requires WellFormed(g) && SameIds(g) && SoundGrid(g) && History(g, run) && i < |run|
    ensures SoundGrid(Transform(g, run[i], geo))
  {
    hide Sound, History, Transform, BranchEndsOf, DcLineEndsOf, BusTable, BranchEnds, DcLineEnds, StorageGens,
         WellFormed;
    HistoriesAreSound(g, run, i);
    TransformedNetwork(g, run[i], geo);
  }
}

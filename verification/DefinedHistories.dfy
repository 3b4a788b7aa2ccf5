/** When a history of accepted network edits leaves a change table whose transform does not raise. */
module DefinedHistories {
  import opened Tables
  import opened GridModel
  import opened TransformSpec
  import opened Additions
  import opened GridTheorems
  import opened NetworkSpec
  import NE = NetworkEdits

  /** All buses there will be before removals. */
  function AllBuses(g: Grid, c: Changes): Table<Bus> {
    g.bus.AppendAll(NewBusRows(g.bus, OrEmpty(c.newBus)))
  }

  /** No scaling and no new plants. */
  ghost predicate OnlyNetwork(c: Changes) {
    c == NO_CHANGES.(newBus := c.newBus, newBranch := c.newBranch, newDcline := c.newDcline, storage := c.storage,
                     removeBranch := c.removeBranch, removeBus := c.removeBus)
  }

  ghost predicate Attached(t: Table<Bus>, es: seq<NewLine>) {
    forall i :: 0 <= i < |es| ==> es[i].fromBus in t.rows && es[i].toBus in t.rows
  }

  ghost predicate ZonesKnown(g: Grid, t: Table<Bus>) {
    forall k :: k in t.rows ==> t.rows[k].zone in g.zones
  }

  /** What the checks of the change table do ensure. */
  ghost predicate Checked(g: Grid, c: Changes) {
    && OnlyNetwork(c) && ZonesKnown(g, AllBuses(g, c))
    && Attached(AllBuses(g, c), OrEmpty(c.newBranch)) && Attached(AllBuses(g, c), OrEmpty(c.newDcline))
  }

  lemma BaseIsChecked(g: Grid)
    requires ZonesKnown(g, g.bus)
    ensures Checked(g, NO_CHANGES)
  {
    AppendNone(g.bus);
    assert NewBusRows(g.bus, []) == [];
  }

  lemma MoreBuses(g: Grid, c: Changes, buses: seq<NewBus>)
    requires WellFormed(g) && ZonesKnown(g, AllBuses(g, c)) && forall i :: 0 <= i < |buses| ==> buses[i].zone in g.zones
    ensures var d := NE.Recorded(c, NE.AddBuses(buses));
      ZonesKnown(g, AllBuses(g, d)) && forall k :: k in AllBuses(g, c).rows ==> k in AllBuses(g, d).rows
  {
    hide WellFormed;
    WellFormedBranches(g);
    var es := OrEmpty(c.newBus);
    assert NewBusRows(g.bus, es + buses) == NewBusRows(g.bus, es) + NewBusRows(g.bus, buses);
    NE.AppendMore(g.bus, NewBusRows(g.bus, es), NewBusRows(g.bus, buses));
  }

  lemma PresentBuses(g: Grid, c: Changes)
    ensures forall k :: k in BusTable(g, c).rows ==> k in AllBuses(g, c).rows
  {
  }

  lemma SameAllBuses(g: Grid, c: Changes, d: Changes)
    requires c.newBus == d.newBus
    ensures AllBuses(g, c) == AllBuses(g, d)
  {
  }

  lemma EditKeepsChecked(g: Grid, c: Changes, e: NE.NetworkEdit)
    requires WellFormed(g) && Checked(g, c) && NE.Allowed(g, c, e)
    ensures Checked(g, NE.Recorded(c, e))
  {
    hide WellFormed, AllBuses, BranchEnds, DcLineEnds, NewBusRow;
    PresentBuses(g, c);
    match e
    case AddBuses(buses) => MoreBuses(g, c, buses);
    case AddBranches(lines) => SameAllBuses(g, c, NE.Recorded(c, e));
    case AddDcLines(lines) => SameAllBuses(g, c, NE.Recorded(c, e));
    case AddStorages(storages) => SameAllBuses(g, c, NE.Recorded(c, e));
    case RemoveBranches(ids) => SameAllBuses(g, c, NE.Recorded(c, e));
    case RemoveBuses(ids) => SameAllBuses(g, c, NE.Recorded(c, e));
  }

  lemma {:induction false} HistoriesAreChecked(g: Grid, run: seq<Changes>, i: nat)
    requires WellFormed(g) && ZonesKnown(g, g.bus) && NE.History(g, run) && i < |run|
    ensures Checked(g, run[i])
  {
    hide WellFormed, Checked, NE.Allowed, NE.Recorded;
    if i == 0 {
      BaseIsChecked(g);
    } else {
      HistoriesAreChecked(g, run, i - 1);
      var c, d := run[i - 1], run[i - 1 + 1];
      if d != c {
        var e :| NE.Allowed(g, c, e) && d == NE.Recorded(c, e);
        EditKeepsChecked(g, c, e);
      }
    }
  }

  predicate HasBus(g: Grid, z: int) {
    exists k :: k in g.bus.rows && g.bus.rows[k].zone == z
  }

  predicate Wired(bus: Table<Bus>, v2x: map<real, real>, e: NewLine) {
    && e.fromBus in bus.rows && bus.rows[e.fromBus].baseKV in v2x
    && e.toBus in bus.rows && bus.rows[e.toBus].baseKV in v2x
  }

  /**
   * What the checks leave open: every new bus in a zone that has base buses, every new branch at voltages
   * of existing lines, and rows to number after in the branch, DC line and plant tables.
   */
  ghost predicate Buildable(g: Grid, c: Changes, geo: Geography) {
    var bus := AllBuses(g, c);
    && (forall i :: 0 <= i < |OrEmpty(c.newBus)| ==> HasBus(g, OrEmpty(c.newBus)[i].zone))
    && (OrEmpty(c.newBranch) != [] ==> g.branch.ids != [])
    && (forall i :: 0 <= i < |OrEmpty(c.newBranch)| ==>
          Wired(bus, geo.reactancePerDistance(bus, g.branch), OrEmpty(c.newBranch)[i]))
    && (OrEmpty(c.newDcline) != [] ==> g.dcline.ids != [])
    && (OrEmpty(c.storage) != [] ==> g.plant.ids != [])
  }

  lemma {:induction false} ZoneFound(t: Table<Bus>, ids: seq<int>, k: int)
    requires k in ids && k in t.rows
    ensures ZoneInterconnect(t, ids, t.rows[k].zone).Some?
  {
    if ids[0] != k {
      ZoneFound(t, ids[1..], k);
    }
  }

  lemma BusesDefinedIff(g: Grid, es: seq<NewBus>)
    requires g.bus.Valid()
    ensures BusesDefined(g, es) <==> forall i :: 0 <= i < |es| ==> HasBus(g, es[i].zone)
  {
    hide ZoneInterconnect;
    forall z
      ensures ZoneInterconnect(g.bus, g.bus.ids, z).Some? <==> HasBus(g, z)
    {
      if ZoneInterconnect(g.bus, g.bus.ids, z).Some? {
        var k := ZoneHasBus(g.bus, g.bus.ids, z);
      }
      if HasBus(g, z) {
        var k :| k in g.bus.rows && g.bus.rows[k].zone == z;
        ZoneFound(g.bus, g.bus.ids, k);
      }
    }
  }

  /** Without zone factors the first phase changes nothing here. */
  lemma NoZoneScaling(g: Grid, c: Changes)
    requires SameIds(g) && OnlyNetwork(c)
    ensures var z := ByZone(g, c);
      && z.branch == g.branch && z.bus == g.bus && z.dcline == g.dcline
      && z.plant.ids == g.plant.ids && z.zones == g.zones
  {
    hide ZoneScaled;
    var rows := ByZone(g, c).branch.rows;
    assert rows.Keys == g.branch.rows.Keys;
    assert forall k :: k in rows ==> rows[k] == g.branch.rows[k];
    assert rows == g.branch.rows;
  }

  lemma SameBusesDefined(g: Grid, z: Grid, es: seq<NewBus>)
    requires z.bus == g.bus
    ensures BusesDefined(z, es) <==> BusesDefined(g, es)
  {
  }

  lemma AdditionsDefinedIff(g: Grid, z: Grid, c: Changes, geo: Geography)
    requires OnlyNetwork(c) && Checked(g, c) && g.bus.Valid()
    requires z.branch == g.branch && z.bus == g.bus && z.dcline == g.dcline
    requires z.plant.ids == g.plant.ids && z.zones == g.zones
    ensures AdditionsDefined(z, c, geo) <==> Buildable(g, c, geo)
  {
    hide AddBuses, NewBusRow, BranchRows, DcLineRows, Table.Valid, HasBus, InterconnectOf, ZoneInterconnect,
         BusesDefined;
    AddBusesFrame(z, OrEmpty(c.newBus));
    AddBusesBus(z, OrEmpty(c.newBus));
    SameBusesDefined(g, z, OrEmpty(c.newBus));
    BusesDefinedIff(g, OrEmpty(c.newBus));
    assert PlantRows(z, []) == [];
  }

  /** After any history of accepted edits the transform runs to the end if and only if the table is buildable. */
  lemma HistoryIsDefinedIff(g: Grid, run: seq<Changes>, i: nat, geo: Geography)
    requires WellFormed(g) && SameIds(g) && ZonesKnown(g, g.bus) && NE.History(g, run) && i < |run|
    ensures Defined(g, run[i], geo) <==> Buildable(g, run[i], geo)
  {
    hide WellFormed, Buildable, AdditionsDefined, ByZone, Added, NE.History;
    HistoriesAreChecked(g, run, i);
    NoZoneScaling(g, run[i]);
    WellFormedBranches(g);
    AdditionsDefinedIff(g, ByZone(g, run[i]), run[i], geo);
  }
}

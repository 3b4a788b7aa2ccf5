/** The keys under which the change table caches previews of the transformed tables. */
module CacheKeys {
  import opened GridModel

  /**
   * The components of a key: an entry's sorted items, the marker string, the sorted tuple of removed
   * ids (which is as good as the set it lists).
   */
  datatype Atom = Entry(items: seq<(string, real)>) | Marker(name: string) | Ids(ids: set<int>)

  function BusItems(e: NewBus): seq<(string, real)> {
    [("Pd", e.pd), ("baseKV", e.baseKV), ("lat", e.lat), ("lon", e.lon), ("zone_id", e.zone as real)]
  }

  function LineItems(e: NewLine): seq<(string, real)> {
    [("Pmax", e.pmax), ("Pmin", e.pmin), ("from_bus_id", e.fromBus as real), ("to_bus_id", e.toBus as real)]
  }

  function StorageItems(e: NewStorage): seq<(string, real)> {
    [("InEff", e.inEff), ("LossFactor", e.lossFactor), ("OutEff", e.outEff), ("bus_id", e.bus as real),
     ("capacity", e.capacity), ("duration", e.duration), ("energy_value", e.energyValue), ("max_stor", e.maxStor),
     ("min_stor", e.minStor), ("terminal_max", e.terminalMax), ("terminal_min", e.terminalMin)]
  }

  lemma BusItemsInjective(a: NewBus, b: NewBus)
    requires BusItems(a) == BusItems(b)
    ensures a == b
  {
  }

  function Entries<T>(es: seq<T>, items: T -> seq<(string, real)>): (r: seq<Atom>)
    ensures |r| == |es| && forall i :: 0 <= i < |es| ==> r[i] == Entry(items(es[i]))
  {
    seq(|es|, i requires 0 <= i < |es| => Entry(items(es[i])))
  }

  /** Additions, then the marker, then the removals. */
  function Key<T>(es: seq<T>, items: T -> seq<(string, real)>, marker: string, removed: set<int>): seq<Atom> {
    Entries(es, items) + [Marker(marker), Ids(removed)]
  }

  function BusKey(c: Changes): seq<Atom> { Key(OrEmpty(c.newBus), BusItems, "remove_bus", OrNone(c.removeBus)) }

  function BranchKey(c: Changes): seq<Atom> {
    Key(OrEmpty(c.newBranch), LineItems, "remove_branch", OrNone(c.removeBranch))
  }

  /** DC line removals never reach the transform; the histories considered here have none. */
  function DcLineKey(c: Changes): seq<Atom> { Key(OrEmpty(c.newDcline), LineItems, "remove_dcline", {}) }

  function StorageKey(es: seq<NewStorage>): seq<Atom> { Entries(es, StorageItems) }

  lemma KeyInjective<T>(a: seq<T>, b: seq<T>, items: T -> seq<(string, real)>, marker: string, r: set<int>, s: set<int>)
    requires Key(a, items, marker, r) == Key(b, items, marker, s)
    ensures r == s && |a| == |b| && forall i :: 0 <= i < |a| ==> items(a[i]) == items(b[i])
  {
    var x, y := Key(a, items, marker, r), Key(b, items, marker, s);
    assert |x| == |y|;
    assert x[|a| + 1] == y[|b| + 1];
    forall i | 0 <= i < |a|
      ensures items(a[i]) == items(b[i])
    {
      assert x[i] == Entry(items(a[i])) && y[i] == Entry(items(b[i]));
    }
  }

  /** Equal keys mean equal additions and equal removals, table by table. */
  lemma BusKeyInjective(c: Changes, d: Changes)
    requires BusKey(c) == BusKey(d)
    ensures OrEmpty(c.newBus) == OrEmpty(d.newBus) && OrNone(c.removeBus) == OrNone(d.removeBus)
  {
    var a, b := OrEmpty(c.newBus), OrEmpty(d.newBus);
    KeyInjective(a, b, BusItems, "remove_bus", OrNone(c.removeBus), OrNone(d.removeBus));
    forall i | 0 <= i < |a|
      ensures a[i] == b[i]
    {
      BusItemsInjective(a[i], b[i]);
    }
  }

  lemma LinesFromItems(a: seq<NewLine>, b: seq<NewLine>)
    requires |a| == |b| && forall i :: 0 <= i < |a| ==> LineItems(a[i]) == LineItems(b[i])
    ensures a == b
  {
  }

  lemma BranchKeyInjective(c: Changes, d: Changes)
    requires BranchKey(c) == BranchKey(d)
    ensures OrEmpty(c.newBranch) == OrEmpty(d.newBranch) && OrNone(c.removeBranch) == OrNone(d.removeBranch)
  {
    KeyInjective(OrEmpty(c.newBranch), OrEmpty(d.newBranch), LineItems, "remove_branch",
                 OrNone(c.removeBranch), OrNone(d.removeBranch));
    LinesFromItems(OrEmpty(c.newBranch), OrEmpty(d.newBranch));
  }

  lemma DcLineKeyInjective(c: Changes, d: Changes)
    requires DcLineKey(c) == DcLineKey(d)
    ensures OrEmpty(c.newDcline) == OrEmpty(d.newDcline)
  {
    KeyInjective(OrEmpty(c.newDcline), OrEmpty(d.newDcline), LineItems, "remove_dcline", {}, {});
    LinesFromItems(OrEmpty(c.newDcline), OrEmpty(d.newDcline));
  }

  lemma StorageKeyInjective(a: seq<NewStorage>, b: seq<NewStorage>)
    requires StorageKey(a) == StorageKey(b)
    ensures a == b
  {
  }
}

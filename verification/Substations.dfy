/** Substation bookkeeping when buses are added (powersimdata/input/transform_grid.py). */
module Substations {
  import opened Tables
  import opened GridModel
  import opened TransformSpec
  import opened Additions
  import opened GridTheorems

  predicate LiesAt(t: Table<Substation>, k: int, lat: real, lon: real) {
    k in t.rows && t.rows[k].lat == lat && t.rows[k].lon == lon
  }

  /** The bus `id` is mapped to the first substation at the coordinates of its entry, and to its interconnect. */
  ghost predicate Housed(h: Grid, id: int, e: NewBus, interconnect: string) {
    && id in h.bus2sub.rows && LiesAt(h.sub, h.bus2sub.rows[id].sub, e.lat, e.lon)
    && (forall k :: LiesAt(h.sub, k, e.lat, e.lon) ==> h.bus2sub.rows[id].sub <= k)
    && h.bus2sub.rows[id].interconnect == interconnect
  }

  ghost predicate IsNew(t: Table<Substation>, u: Table<Substation>, k: int) {
    k in u.rows && k !in t.rows
  }

  /** A new substation stands at the given place. */
  ghost predicate HasNew(t: Table<Substation>, u: Table<Substation>, lat: real, lon: real) {
    exists k :: IsNew(t, u, k) && LiesAt(u, k, lat, lon)
  }

  /** A new substation stands where some entry is and no base substation is. */
  ghost predicate Needed(t: Table<Substation>, es: seq<NewBus>, s: Substation) {
    && (exists i :: 0 <= i < |es| && es[i].lat == s.lat && es[i].lon == s.lon)
    && (forall k :: !LiesAt(t, k, s.lat, s.lon))
  }

  /** A substation with the coordinates and the interconnect of some entry. */
  ghost predicate BuiltFor(t: Table<Bus>, es: seq<NewBus>, s: Substation) {
    exists i :: 0 <= i < |es| && s == Substation(es[i].lat, es[i].lon, InterconnectOf(t, es[i].zone))
  }

  ghost predicate OneEach(t: Table<Substation>, u: Table<Substation>) {
    forall k, l :: IsNew(t, u, k) && IsNew(t, u, l) && LiesAt(u, l, u.rows[k].lat, u.rows[k].lon) ==> k == l
  }

  ghost predicate Bookkept(g: Grid, h: Grid, es: seq<NewBus>) {
    && Keeps(g.sub, h.sub) && Keeps(g.bus2sub, h.bus2sub)
    && (forall i :: 0 <= i < |es| ==> Housed(h, g.bus.NextId() + i, es[i], InterconnectOf(g.bus, es[i].zone)))
    && (forall k :: IsNew(g.sub, h.sub, k) ==> Needed(g.sub, es, h.sub.rows[k]) && BuiltFor(g.bus, es, h.sub.rows[k]))
    && OneEach(g.sub, h.sub)
  }

  /** A second new substation at one place would have been found. */
  lemma OnlyOne(t: Table<Substation>, u: Table<Substation>, v: Table<Substation>, k: int, l: int, e: NewBus)
    requires OneEach(t, u) && IsNew(t, v, k) && IsNew(t, v, l) && LiesAt(v, l, v.rows[k].lat, v.rows[k].lon)
    requires v == u || (&& (exists id, i :: v == u.Put(id, Substation(e.lat, e.lon, i)))
                        && (forall j :: !LiesAt(u, j, e.lat, e.lon)))
    ensures k == l
  {
    if v == u || (k in u.rows && l in u.rows && v.rows[k] == u.rows[k] && v.rows[l] == u.rows[l]) {
      assert IsNew(t, u, k) && IsNew(t, u, l) && LiesAt(u, l, u.rows[k].lat, u.rows[k].lon);
    } else {
      assert !LiesAt(u, k, e.lat, e.lon) && !LiesAt(u, l, e.lat, e.lon);
    }
  }

  lemma SubMissing(t: Table<Substation>, lat: real, lon: real)
    requires t.Valid() && SubAt(t, t.ids, lat, lon).None?
    ensures forall k :: !LiesAt(t, k, lat, lon)
  {
  }

  lemma StillNeeded(g: Grid, h: Grid, es: seq<NewBus>, e: NewBus)
    requires forall k :: IsNew(g.sub, h.sub, k) ==>
      Needed(g.sub, es, h.sub.rows[k]) && BuiltFor(g.bus, es, h.sub.rows[k])
    ensures forall k :: IsNew(g.sub, h.sub, k) ==>
      Needed(g.sub, es + [e], h.sub.rows[k]) && BuiltFor(g.bus, es + [e], h.sub.rows[k])
  {
    hide InterconnectOf;
    forall k | IsNew(g.sub, h.sub, k)
      ensures Needed(g.sub, es + [e], h.sub.rows[k]) && BuiltFor(g.bus, es + [e], h.sub.rows[k])
    {
      var s := h.sub.rows[k];
      var i :| 0 <= i < |es| && s == Substation(es[i].lat, es[i].lon, InterconnectOf(g.bus, es[i].zone));
      assert (es + [e])[i] == es[i];
    }
  }

  lemma NewlyNeeded(g: Grid, h: Grid, es: seq<NewBus>, e: NewBus, s: Substation)
    requires Keeps(g.sub, h.sub) && forall k :: !LiesAt(h.sub, k, e.lat, e.lon)
    requires s == Substation(e.lat, e.lon, InterconnectOf(g.bus, e.zone))
    ensures Needed(g.sub, es + [e], s) && BuiltFor(g.bus, es + [e], s)
  {
    assert (es + [e])[|es|] == e;
    forall k
      ensures !LiesAt(g.sub, k, s.lat, s.lon)
    {
      assert !LiesAt(h.sub, k, e.lat, e.lon);
    }
  }

  lemma FirstSub(t: Table<Substation>, lat: real, lon: real)
    requires t.Valid() && SubAt(t, t.ids, lat, lon).Some?
    ensures LiesAt(t, SubAt(t, t.ids, lat, lon).value, lat, lon)
    ensures forall k :: LiesAt(t, k, lat, lon) ==> SubAt(t, t.ids, lat, lon).value <= k
  {
  }

  lemma PutLies(t: Table<Substation>, id: int, s: Substation, lat: real, lon: real)
    ensures forall k :: LiesAt(t.Put(id, s), k, lat, lon) <==>
      if k == id then s.lat == lat && s.lon == lon else LiesAt(t, k, lat, lon)
  {
  }

  lemma NewlyHoused(h: Grid, id: int, e: NewBus, interconnect: string)
    requires h.sub.Valid()
    ensures Housed(Placed(h, id, e, interconnect), id, e, interconnect)
  {
    hide Placed, LiesAt, Table.Valid, Table.NextId;
    PlacedOld(h, id, e, interconnect);
    PlacedNew(h, id, e, interconnect);
    if SubAt(h.sub, h.sub.ids, e.lat, e.lon).Some? {
      FirstSub(h.sub, e.lat, e.lon);
    } else {
      SubMissing(h.sub, e.lat, e.lon);
      PutLies(h.sub, h.sub.NextId(), Substation(e.lat, e.lon, interconnect), e.lat, e.lon);
    }
  }

  lemma NextIsFree(t: Table<Substation>, lat: real, lon: real)
    requires t.Valid()
    ensures !LiesAt(t, t.NextId(), lat, lon)
  {
    OldIdsAreSmaller(t);
  }

  lemma StillHoused(h: Grid, id: int, e: NewBus, place: string, newId: int, newBus: NewBus, newPlace: string)
    requires Housed(h, id, e, place) && h.sub.Valid() && id != newId
    ensures Housed(Placed(h, newId, newBus, newPlace), id, e, place)
  {
    hide Placed, LiesAt, Table.Valid, Table.NextId;
    PlacedOld(h, newId, newBus, newPlace);
    PlacedNew(h, newId, newBus, newPlace);
    if SubAt(h.sub, h.sub.ids, newBus.lat, newBus.lon).None? {
      SubMissing(h.sub, newBus.lat, newBus.lon);
      PutLies(h.sub, h.sub.NextId(), Substation(newBus.lat, newBus.lon, newPlace), e.lat, e.lon);
      NextIsFree(h.sub, e.lat, e.lon);
      assert (newBus.lat, newBus.lon) != (e.lat, e.lon);
    }
  }

  /** Placing one more bus. */
  lemma PlacedKeeps(g: Grid, h: Grid, es: seq<NewBus>, e: NewBus, interconnect: string)
    requires Bookkept(g, h, es) && h.sub.Valid() && h.bus2sub.Valid() && h.bus.ids == h.bus2sub.ids
    requires h.bus.NextId() == g.bus.NextId() + |es| && interconnect == InterconnectOf(g.bus, e.zone)
    ensures Bookkept(g, Placed(h, h.bus.NextId(), e, interconnect), es + [e])
  {
    hide Placed, Needed, BuiltFor, Housed, InterconnectOf, Table.Valid, Table.NextId;
    var id, found := h.bus.NextId(), SubAt(h.sub, h.sub.ids, e.lat, e.lon);
    assert h.bus2sub.NextId() == id by {
      SameNext(h.bus, h.bus2sub);
    }
    OldIdsAreSmaller(h.bus2sub);
    PlacedOld(h, id, e, interconnect);
    PlacedNew(h, id, e, interconnect);
    var p := Placed(h, id, e, interconnect);
    StillNeeded(g, h, es, e);
    OldIdsAreSmaller(h.sub);
    if found.None? {
      SubMissing(h.sub, e.lat, e.lon);
    }
    NewlyHoused(h, id, e, interconnect);
    forall i | 0 <= i < |es + [e]|
      ensures Housed(p, g.bus.NextId() + i, (es + [e])[i], InterconnectOf(g.bus, (es + [e])[i].zone))
    {
      if i < |es| {
        StillHoused(h, g.bus.NextId() + i, es[i], InterconnectOf(g.bus, es[i].zone), id, e, interconnect);
      }
    }
    if found.None? {
      NewlyNeeded(g, h, es, e, p.sub.rows[h.sub.NextId()]);
    }
    forall k, l | && IsNew(g.sub, p.sub, k) && IsNew(g.sub, p.sub, l)
                  && LiesAt(p.sub, l, p.sub.rows[k].lat, p.sub.rows[k].lon)
      ensures k == l
    {
      OnlyOne(g.sub, h.sub, p.sub, k, l, e);
    }
  }

  lemma NothingAdded(g: Grid)
    ensures Bookkept(g, g, [])
  {
  }

  lemma SameHouse(h: Grid, t: Grid, id: int, e: NewBus, interconnect: string)
    requires Housed(h, id, e, interconnect) && t.sub == h.sub && t.bus2sub == h.bus2sub
    ensures Housed(t, id, e, interconnect)
  {
    hide LiesAt;
  }

  /** The books concern the substation tables only. */
  lemma SameBooks(g: Grid, z: Grid, h: Grid, t: Grid, es: seq<NewBus>)
    requires Bookkept(z, h, es) && t.sub == h.sub && t.bus2sub == h.bus2sub
    requires g.sub == z.sub && g.bus2sub == z.bus2sub && g.bus == z.bus
    ensures Bookkept(g, t, es)
  {
    hide Needed, BuiltFor, Housed, InterconnectOf, IsNew, OneEach, Table.NextId;
    forall i | 0 <= i < |es|
      ensures Housed(t, g.bus.NextId() + i, es[i], InterconnectOf(g.bus, es[i].zone))
    {
      SameHouse(h, t, g.bus.NextId() + i, es[i], InterconnectOf(g.bus, es[i].zone));
    }
  }

  lemma {:induction false} AddBusesBookkeeping(g: Grid, es: seq<NewBus>)
    requires WellFormed(g)
    ensures Bookkept(g, AddBuses(g, es), es)
  {
    hide Bookkept, Placed, WellFormed, NewBusRow;
    if es == [] {
      AddNoBuses(g);
      NothingAdded(g);
    } else {
      var front, e := es[..|es| - 1], es[|es| - 1];
      AddBusesBookkeeping(g, front);
      AddBusesTables(g, front);
      var h := AddBuses(g, front);
      PlacedKeeps(g, h, front, e, InterconnectOf(g.bus, e.zone));
      assert front + [e] == es;
      AddOneBus(g, front, e);
      var p := Placed(h, h.bus.NextId(), e, InterconnectOf(g.bus, e.zone));
      SameBooks(g, g, p, AddBuses(g, es), es);
    }
  }

  /** Nothing after the additions touches the substation tables. */
  lemma SubstationsLast(g: Grid, ct: Changes, geo: Geography)
    requires WellFormed(g) && SameIds(g)
    ensures var t, h := Transform(g, ct, geo), AddBuses(ByZone(g, ct), OrEmpty(ct.newBus));
      t.sub == h.sub && t.bus2sub == h.bus2sub
  {
    hide WellFormed, ByZone, Added, AddBuses, IdScaled, IdScaledBranch, IdScaledDcLine;
    AddedTables(g, ct, geo);
  }

  lemma NewPlaces(g: Grid, h: Grid, es: seq<NewBus>, lat: real, lon: real)
    requires Bookkept(g, h, es)
    ensures HasNew(g.sub, h.sub, lat, lon) <==> Needed(g.sub, es, Substation(lat, lon, ""))
  {
    var s := Substation(lat, lon, "");
    if k :| IsNew(g.sub, h.sub, k) && LiesAt(h.sub, k, lat, lon) {
      assert Needed(g.sub, es, h.sub.rows[k]);
    }
    if Needed(g.sub, es, s) {
      var i :| 0 <= i < |es| && es[i].lat == s.lat && es[i].lon == s.lon;
      assert Housed(h, g.bus.NextId() + i, es[i], InterconnectOf(g.bus, es[i].zone));
      var k := h.bus2sub.rows[g.bus.NextId() + i].sub;
      assert !LiesAt(g.sub, k, lat, lon);
    }
  }

  lemma OpenBooks(g: Grid, h: Grid, es: seq<NewBus>)
    requires Bookkept(g, h, es)
    ensures Keeps(g.sub, h.sub) && Keeps(g.bus2sub, h.bus2sub) && OneEach(g.sub, h.sub)
    ensures forall i :: 0 <= i < |es| ==> Housed(h, g.bus.NextId() + i, es[i], InterconnectOf(g.bus, es[i].zone))
    ensures forall k :: IsNew(g.sub, h.sub, k) ==> BuiltFor(g.bus, es, h.sub.rows[k])
    ensures forall lat, lon ::
      HasNew(g.sub, h.sub, lat, lon) <==> Needed(g.sub, es, Substation(lat, lon, ""))
  {
    forall lat, lon
      ensures HasNew(g.sub, h.sub, lat, lon) <==> Needed(g.sub, es, Substation(lat, lon, ""))
    {
      NewPlaces(g, h, es, lat, lon);
    }
  }

  /**
   * In the transformed grid every base substation and base assignment is untouched, each new bus is
   * assigned to the first substation at its own coordinates, and there is exactly one new substation at
   * each place where some new bus is and no base substation is, and none anywhere else. A new substation
   * has the interconnect of a new bus it was built for.
   */
  lemma SubstationBookkeeping(g: Grid, ct: Changes, geo: Geography)
    requires WellFormed(g) && SameIds(g)
    ensures var t, es := Transform(g, ct, geo), OrEmpty(ct.newBus);
      && t.bus2sub.ids == g.bus.ids + seq(|es|, i => g.bus.NextId() + i)
      && Keeps(g.sub, t.sub) && Keeps(g.bus2sub, t.bus2sub)
      && (forall i :: 0 <= i < |es| ==> Housed(t, g.bus.NextId() + i, es[i], InterconnectOf(g.bus, es[i].zone)))
      && (forall k :: IsNew(g.sub, t.sub, k) ==> BuiltFor(g.bus, es, t.sub.rows[k]))
      && OneEach(g.sub, t.sub)
      && forall lat, lon ::
           HasNew(g.sub, t.sub, lat, lon) <==> Needed(g.sub, es, Substation(lat, lon, ""))
  {
    hide WellFormed, ByZone, Added, AddBuses, Bookkept, Needed, BuiltFor, Housed;
    var z, t, es := ByZone(g, ct), Transform(g, ct, geo), OrEmpty(ct.newBus);
    AddedTables(g, ct, geo);
    SubstationsLast(g, ct, geo);
    AddBusesTables(z, es);
    AppendIds(g.bus, NewBusRows(g.bus, es));
    AddBusesBookkeeping(z, es);
    SameBooks(g, z, AddBuses(z, es), t, es);
    OpenBooks(g, t, es);
  }
}

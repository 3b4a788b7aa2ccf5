/** Splitting zone demand over buses in proportion to their Pd (powersimdata/input/input_data.py). */
module DemandSplit {
  import opened Reals
  import opened Tables
  import opened GridModel

  datatype SplitError = ZonesDiffer | InfiniteShare

  /** One hour of demand by zone, or by bus. */
  type Hour = map<int, real>

  predicate InZone(bus: Table<Bus>, k: int, z: int) {
    k in bus.rows && bus.rows[k].zone == z
  }

  /** Total Pd of the buses of a zone. */
  function ZonePd(bus: Table<Bus>, ids: seq<int>, z: int): real {
    if ids == [] then 0.0
    else (if InZone(bus, ids[0], z) then bus.rows[ids[0]].pd else 0.0) + ZonePd(bus, ids[1..], z)
  }

  /** A nonzero Pd in a zone whose Pd add up to nothing. */
  predicate Infinite(bus: Table<Bus>, k: int)
    requires k in bus.rows
  {
    bus.rows[k].pd != 0.0 && ZonePd(bus, bus.ids, bus.rows[k].zone) == 0.0
  }

  /** The entry of the share matrix: 0 outside the bus's own zone, and 0 for 0 over 0. */
  function Share(bus: Table<Bus>, k: int, z: int): real {
    if InZone(bus, k, z) && ZonePd(bus, bus.ids, z) != 0.0 then bus.rows[k].pd / ZonePd(bus, bus.ids, z) else 0.0
  }

  /** A row of demand times a column of shares. */
  function Dot(demand: Hour, zones: seq<int>, bus: Table<Bus>, k: int): real {
    if zones == [] then 0.0
    else
      (if zones[0] in demand then demand[zones[0]] * Share(bus, k, zones[0]) else 0.0)
      + Dot(demand, zones[1..], bus, k)
  }

  function SplitHour(demand: Hour, zones: seq<int>, bus: Table<Bus>): Hour {
    map k | k in bus.rows :: Dot(demand, zones, bus, k)
  }

  predicate SameZones(zones: seq<int>, bus: Table<Bus>) {
    && (forall z :: z in zones ==> exists k :: k in bus.rows && InZone(bus, k, z))
    && (forall k :: k in bus.rows ==> bus.rows[k].zone in zones)
  }

  function Distribute(zones: seq<int>, hours: seq<Hour>, bus: Table<Bus>): Result<seq<Hour>, SplitError> {
    if !SameZones(zones, bus) then Err(ZonesDiffer)
    else if exists k :: k in bus.rows && Infinite(bus, k) then Err(InfiniteShare)
    else Ok(seq(|hours|, h requires 0 <= h < |hours| => SplitHour(hours[h], zones, bus)))
  }

  ghost predicate Distinct(zones: seq<int>) {
    forall i, j :: 0 <= i < j < |zones| ==> zones[i] != zones[j]
  }

  lemma OtherZone(bus: Table<Bus>, k: int, z: int, x: real)
    requires k in bus.rows && bus.rows[k].zone != z
    ensures x * Share(bus, k, z) == 0.0
  {
  }

  /** Only the bus's own zone contributes to the product. */
  lemma {:induction false} DotIsOwnZone(demand: Hour, zones: seq<int>, bus: Table<Bus>, k: int)
    requires Distinct(zones) && k in bus.rows && forall z :: z in zones ==> z in demand
    ensures var z := bus.rows[k].zone;
      Dot(demand, zones, bus, k) == if z in zones then demand[z] * Share(bus, k, z) else 0.0
  {
    hide Share;
    if zones != [] {
      var z, own := zones[0], bus.rows[k].zone;
      assert zones == [z] + zones[1..];
      DotIsOwnZone(demand, zones[1..], bus, k);
      if z != own {
        OtherZone(bus, k, z, demand[z]);
      }
    }
  }

  /** The part of demand `d` that falls to a bus. */
  function Portion(d: real, pd: real, total: real): real
    requires total != 0.0
  {
    d * (pd / total)
  }

  /** What the buses of a zone get together. */
  function ZoneSum(bus: Table<Bus>, ids: seq<int>, z: int, got: Hour): real {
    if ids == [] then 0.0
    else (if InZone(bus, ids[0], z) && ids[0] in got then got[ids[0]] else 0.0) + ZoneSum(bus, ids[1..], z, got)
  }

  lemma OneShare(d: real, pd: real, total: real, mine: real, others: real, rest: real)
    requires total != 0.0 && mine == Portion(d, pd, total) && others * total == d * rest
    ensures (mine + others) * total == d * (pd + rest)
  {
  }

  lemma {:induction false} ZoneSumIsShare(bus: Table<Bus>, ids: seq<int>, z: int, got: Hour, d: real, total: real)
    requires total == ZonePd(bus, bus.ids, z) && total != 0.0
    requires forall k :: k in ids && InZone(bus, k, z) ==> k in got && got[k] == Portion(d, bus.rows[k].pd, total)
    ensures ZoneSum(bus, ids, z, got) * total == d * ZonePd(bus, ids, z)
  {
    hide Portion;
    if ids != [] {
      var k, rest := ids[0], ids[1..];
      assert k in ids;
      ZoneSumIsShare(bus, rest, z, got, d, total);
      if InZone(bus, k, z) {
        OneShare(d, bus.rows[k].pd, total, got[k], ZoneSum(bus, rest, z, got), ZonePd(bus, rest, z));
      } else {
        assert ZoneSum(bus, ids, z, got) == ZoneSum(bus, rest, z, got);
        assert ZonePd(bus, ids, z) == ZonePd(bus, rest, z);
      }
    }
  }

  lemma {:induction false} ZoneSumIsZero(bus: Table<Bus>, ids: seq<int>, z: int, got: Hour)
    requires forall k :: k in ids && InZone(bus, k, z) && k in got ==> got[k] == 0.0
    ensures ZoneSum(bus, ids, z, got) == 0.0
  {
    if ids != [] {
      assert ids[0] in ids;
      ZoneSumIsZero(bus, ids[1..], z, got);
    }
  }

  /** The hours a demand table needs: an entry for each of its zones. */
  ghost predicate Complete(zones: seq<int>, demand: Hour) {
    forall z :: z in zones ==> z in demand
  }

  lemma BusDemand(demand: Hour, zones: seq<int>, bus: Table<Bus>, k: int)
    requires Distinct(zones) && Complete(zones, demand) && k in bus.rows && bus.rows[k].zone in zones
    ensures k in SplitHour(demand, zones, bus)
    ensures var z := bus.rows[k].zone; var total := ZonePd(bus, bus.ids, z);
      && (total != 0.0 ==> SplitHour(demand, zones, bus)[k] == Portion(demand[z], bus.rows[k].pd, total))
      && (total == 0.0 ==> SplitHour(demand, zones, bus)[k] == 0.0)
  {
    hide Dot;
    DotIsOwnZone(demand, zones, bus, k);
  }

  lemma CancelFactor(x: real, y: real, t: real)
    requires x * t == y * t && t != 0.0
    ensures x == y
  {
  }

  /** The buses of a zone together get the zone's demand, or nothing where their Pd add up to nothing. */
  lemma ZoneConservation(demand: Hour, zones: seq<int>, bus: Table<Bus>, z: int)
    requires Distinct(zones) && Complete(zones, demand) && SameZones(zones, bus) && z in zones
    ensures ZoneSum(bus, bus.ids, z, SplitHour(demand, zones, bus)) ==
      if ZonePd(bus, bus.ids, z) != 0.0 then demand[z] else 0.0
  {
    hide Dot, Portion, SplitHour, ZonePd, ZoneSum;
    var got, total := SplitHour(demand, zones, bus), ZonePd(bus, bus.ids, z);
    forall k | k in bus.ids && InZone(bus, k, z)
      ensures k in got
      ensures total != 0.0 ==> got[k] == Portion(demand[z], bus.rows[k].pd, total)
      ensures total == 0.0 ==> got[k] == 0.0
    {
      BusDemand(demand, zones, bus, k);
    }
    if total != 0.0 {
      ZoneSumIsShare(bus, bus.ids, z, got, demand[z], total);
      CancelFactor(ZoneSum(bus, bus.ids, z, got), demand[z], total);
    } else {
      ZoneSumIsZero(bus, bus.ids, z, got);
    }
  }

  // ------------------------------------------------------------ all zones together

  function BusSum(ids: seq<int>, got: Hour): real {
    if ids == [] then 0.0 else (if ids[0] in got then got[ids[0]] else 0.0) + BusSum(ids[1..], got)
  }

  function ZoneSums(bus: Table<Bus>, ids: seq<int>, zones: seq<int>, got: Hour): real {
    if zones == [] then 0.0 else ZoneSum(bus, ids, zones[0], got) + ZoneSums(bus, ids, zones[1..], got)
  }

  function DemandSum(zones: seq<int>, demand: Hour): real {
    if zones == [] then 0.0 else (if zones[0] in demand then demand[zones[0]] else 0.0) + DemandSum(zones[1..], demand)
  }

  /** One bus adds its demand to exactly one zone. */
  lemma {:induction false} OneZone(bus: Table<Bus>, ids: seq<int>, zones: seq<int>, got: Hour)
    requires ids != [] && Distinct(zones) && ids[0] in bus.rows && ids[0] in got
    ensures ZoneSums(bus, ids, zones, got) ==
      ZoneSums(bus, ids[1..], zones, got) + if bus.rows[ids[0]].zone in zones then got[ids[0]] else 0.0
  {
    if zones != [] {
      assert zones == [zones[0]] + zones[1..];
      OneZone(bus, ids, zones[1..], got);
    }
  }

  lemma {:induction false} NoBuses(bus: Table<Bus>, zones: seq<int>, got: Hour)
    ensures ZoneSums(bus, [], zones, got) == 0.0
  {
    if zones != [] {
      NoBuses(bus, zones[1..], got);
    }
  }

  lemma {:induction false} BusesByZone(bus: Table<Bus>, ids: seq<int>, zones: seq<int>, got: Hour)
    requires Distinct(zones) && forall k :: k in ids ==> k in bus.rows && k in got && bus.rows[k].zone in zones
    ensures BusSum(ids, got) == ZoneSums(bus, ids, zones, got)
  {
    if ids == [] {
      NoBuses(bus, zones, got);
    } else {
      var k := ids[0];
      assert k in ids && k in bus.rows && k in got;
      OneZone(bus, ids, zones, got);
      BusesByZone(bus, ids[1..], zones, got);
    }
  }

  lemma {:induction false} ZonesAddUp(demand: Hour, zones: seq<int>, bus: Table<Bus>, some: seq<int>)
    requires Distinct(zones) && Complete(zones, demand) && SameZones(zones, bus)
    requires forall z :: z in some ==> z in zones && ZonePd(bus, bus.ids, z) != 0.0
    ensures ZoneSums(bus, bus.ids, some, SplitHour(demand, zones, bus)) == DemandSum(some, demand)
  {
    hide SplitHour;
    if some != [] {
      var z := some[0];
      assert z in some;
      ZoneConservation(demand, zones, bus, z);
      ZonesAddUp(demand, zones, bus, some[1..]);
    }
  }

  /** Every bus's demand in every hour, where the split succeeds. */
  lemma DistributedHour(zones: seq<int>, hours: seq<Hour>, bus: Table<Bus>, h: nat)
    requires Distribute(zones, hours, bus).Ok? && h < |hours|
    ensures SameZones(zones, bus) && |Distribute(zones, hours, bus).value| == |hours|
    ensures Distribute(zones, hours, bus).value[h] == SplitHour(hours[h], zones, bus)
  {
  }

  /**
   * Demand conservation: in every hour the buses of a zone get exactly the zone's demand if and only if
   * the zone's Pd do not add up to nothing or there is no demand to split.
   */
  lemma DemandIsConserved(zones: seq<int>, hours: seq<Hour>, bus: Table<Bus>, h: nat, z: int)
    requires Distribute(zones, hours, bus).Ok? && h < |hours|
    requires Distinct(zones) && Complete(zones, hours[h]) && z in zones
    ensures ZoneSum(bus, bus.ids, z, Distribute(zones, hours, bus).value[h]) == hours[h][z] <==>
            ZonePd(bus, bus.ids, z) != 0.0 || hours[h][z] == 0.0
  {
    hide Distribute, SplitHour;
    DistributedHour(zones, hours, bus, h);
    ZoneConservation(hours[h], zones, bus, z);
  }

  lemma PortionTimesTotal(d: real, pd: real, total: real)
    requires total != 0.0
    ensures Portion(d, pd, total) * total == d * pd
  {
    assert (pd / total) * total == pd;
    assert d * (pd / total) * total == d * ((pd / total) * total);
  }

  /** Cross-multiplied portions of one demand. */
  lemma PortionsCompare(d: real, p: real, q: real, total: real)
    requires total != 0.0
    ensures Portion(d, p, total) * q == Portion(d, q, total) * p
  {
    var x, y := p / total, q / total;
    assert x * total == p && y * total == q;
    assert d * x * (y * total) == d * y * (x * total);
  }

  /**
   * Within a zone the buses' demands are in proportion to their Pd; every bus has a demand, and none where
   * the zone's Pd add up to nothing.
   */
  lemma DemandIsProportional(zones: seq<int>, hours: seq<Hour>, bus: Table<Bus>, h: nat, j: int, k: int)
    requires Distribute(zones, hours, bus).Ok? && h < |hours| && Distinct(zones) && Complete(zones, hours[h])
    requires j in bus.rows && k in bus.rows && bus.rows[j].zone == bus.rows[k].zone
    ensures var out, z := Distribute(zones, hours, bus).value[h], bus.rows[k].zone;
      var total := ZonePd(bus, bus.ids, z);
      && out.Keys == bus.rows.Keys && z in hours[h]
      && out[j] * bus.rows[k].pd == out[k] * bus.rows[j].pd
      && out[k] * total == (if total == 0.0 then 0.0 else hours[h][z] * bus.rows[k].pd)
      && (total == 0.0 ==> out[k] == 0.0)
  {
    hide Distribute, Dot, Portion, ZonePd;
    DistributedHour(zones, hours, bus, h);
    var z := bus.rows[k].zone;
    var d, total := hours[h][z], ZonePd(bus, bus.ids, z);
    BusDemand(hours[h], zones, bus, j);
    BusDemand(hours[h], zones, bus, k);
    if total != 0.0 {
      PortionTimesTotal(d, bus.rows[k].pd, total);
      PortionsCompare(d, bus.rows[j].pd, bus.rows[k].pd, total);
    }
  }

  /** And where every zone has Pd to split by, all buses together get the demand of all zones. */
  lemma TotalIsConserved(zones: seq<int>, hours: seq<Hour>, bus: Table<Bus>, h: nat)
    requires Distribute(zones, hours, bus).Ok? && h < |hours|
    requires Distinct(zones) && Complete(zones, hours[h]) && bus.Valid()
    requires forall z :: z in zones ==> ZonePd(bus, bus.ids, z) != 0.0
    ensures BusSum(bus.ids, Distribute(zones, hours, bus).value[h]) == DemandSum(zones, hours[h])
  {
    hide Distribute, Dot;
    DistributedHour(zones, hours, bus, h);
    ZonesAddUp(hours[h], zones, bus, zones);
    BusesByZone(bus, bus.ids, zones, SplitHour(hours[h], zones, bus));
  }

  /** With Pd of one sign the split fails only when the zones differ. */
  lemma {:induction false} PositivePd(bus: Table<Bus>, ids: seq<int>, z: int)
    requires forall k :: k in bus.rows ==> bus.rows[k].pd >= 0.0
    ensures ZonePd(bus, ids, z) >= 0.0
    ensures forall k :: k in ids && InZone(bus, k, z) ==> bus.rows[k].pd <= ZonePd(bus, ids, z)
  {
    if ids != [] {
      PositivePd(bus, ids[1..], z);
    }
  }

  lemma SplitFailsIff(zones: seq<int>, hours: seq<Hour>, bus: Table<Bus>)
    requires bus.Valid() && forall k :: k in bus.rows ==> bus.rows[k].pd >= 0.0
    ensures Distribute(zones, hours, bus).Ok? <==> SameZones(zones, bus)
  {
    forall k | k in bus.rows
      ensures !Infinite(bus, k)
    {
      PositivePd(bus, bus.ids, bus.rows[k].zone);
      assert k in bus.ids;
    }
  }
}

/** The mimicked factors in terms of the two plant tables (powersimdata/design/mimic_grid.py). */
module MimicFactors {
  import opened Reals
  import opened Tables
  import opened GridModel
  import opened MimicGrid

  /** A plant of the group that the reference grid still has, with capacity on both sides. */
  predicate Remains(base: Table<Plant>, ref: Table<Plant>, r: string, z: int, k: int) {
    && InGroup(base, r, z, k) && k in ref.rows && base.rows[k].pmax != 0.0
    && ref.rows[k].pmax / base.rows[k].pmax > 0.0
  }

  lemma ScalingIs(base: Table<Plant>, ref: Table<Plant>, r: string, z: int, k: int)
    requires InGroup(base, r, z, k)
    ensures Scaling(base, ref, k) > 0.0 <==> Remains(base, ref, r, z, k)
    ensures Remains(base, ref, r, z, k) ==> Scaling(base, ref, k) == ref.rows[k].pmax / base.rows[k].pmax
  {
  }

  /** The plants of the group among `ids` that remain, each once. */
  ghost predicate Remainder(base: Table<Plant>, ref: Table<Plant>, ids: seq<int>, r: string, z: int, ks: seq<int>) {
    && (forall i, j :: 0 <= i < j < |ks| ==> ks[i] != ks[j])
    && (forall k :: k in ks <==> k in ids && Remains(base, ref, r, z, k))
  }

  function Ratios(base: Table<Plant>, ref: Table<Plant>, ks: seq<int>): (s: seq<real>)
    requires forall k :: k in ks ==> k in base.rows
    ensures |s| == |ks| && forall i :: 0 <= i < |ks| ==> s[i] == Scaling(base, ref, ks[i])
  {
    seq(|ks|, i requires 0 <= i < |ks| => assert ks[i] in ks; Scaling(base, ref, ks[i]))
  }

  lemma Inside(base: Table<Plant>, ref: Table<Plant>, ids: seq<int>, r: string, z: int, ks: seq<int>)
    requires Remainder(base, ref, ids, r, z, ks)
    ensures forall k :: k in ks ==> k in base.rows
  {
  }

  lemma TakenOut(base: Table<Plant>, ref: Table<Plant>, ks: seq<int>, i: nat)
    requires (forall k :: k in ks ==> k in base.rows) && i < |ks|
    ensures var others := ks[..i] + ks[i + 1..];
      && (forall k :: k in others ==> k in base.rows)
      && multiset(Ratios(base, ref, ks)) == multiset{Scaling(base, ref, ks[i])} + multiset(Ratios(base, ref, others))
  {
    hide Scaling;
    var others := ks[..i] + ks[i + 1..];
    forall k | k in others
      ensures k in ks
    {
    }
    var s, t := Ratios(base, ref, ks), Ratios(base, ref, others);
    assert s == s[..i] + [s[i]] + s[i + 1..];
    assert t == s[..i] + s[i + 1..];
  }

  lemma OthersRemain(base: Table<Plant>, ref: Table<Plant>, ids: seq<int>, r: string, z: int, ks: seq<int>, i: nat)
    requires ids != [] && ids[0] !in ids[1..] && Remainder(base, ref, ids, r, z, ks) && i < |ks| && ks[i] == ids[0]
    ensures Remainder(base, ref, ids[1..], r, z, ks[..i] + ks[i + 1..])
  {
    hide Remains;
    var others := ks[..i] + ks[i + 1..];
    assert ids == [ids[0]] + ids[1..];
    assert ks == ks[..i] + [ks[i]] + ks[i + 1..];
    forall a, b | 0 <= a < b < |others|
      ensures others[a] != others[b]
    {
      var c, d := if a < i then a else a + 1, if b < i then b else b + 1;
      assert others[a] == ks[c] && others[b] == ks[d];
    }
    forall k
      ensures k in others <==> k in ids[1..] && Remains(base, ref, r, z, k)
    {
      if k in others {
        var a :| 0 <= a < |others| && others[a] == k;
        var c := if a < i then a else a + 1;
        assert ks[c] == k && c != i;
        assert ks[c] != ks[i];
        assert k in ids && k != ids[0];
      }
      if k in ks && k != ids[0] {
        assert k in others;
      }
    }
  }

  lemma HasMember(ks: seq<int>)
    ensures ks == [] || exists k :: k in ks
  {
    if ks != [] {
      var k := ks[0];
      assert k in ks;
    }
  }

  lemma NobodyRemains(base: Table<Plant>, ref: Table<Plant>, r: string, z: int, ks: seq<int>)
    requires Remainder(base, ref, [], r, z, ks)
    ensures ks == []
  {
    HasMember(ks);
  }

  lemma RemainsInGroup(base: Table<Plant>, ref: Table<Plant>, r: string, z: int, k: int)
    requires Remains(base, ref, r, z, k)
    ensures InGroup(base, r, z, k)
  {
  }

  /** The scalings the median is taken of are the ratios of the plants that remain. */
  lemma {:induction false} PositivesAreRatios(
      base: Table<Plant>, ref: Table<Plant>, ids: seq<int>, r: string, z: int, ks: seq<int>)
    requires Ascending(ids) && Remainder(base, ref, ids, r, z, ks)
    ensures forall k :: k in ks ==> k in base.rows
    ensures multiset(Positives(base, ref, ids, r, z)) == multiset(Ratios(base, ref, ks))
    decreases |ids|
  {
    hide Scaling, Remains;
    Inside(base, ref, ids, r, z, ks);
    if ids == [] {
      NobodyRemains(base, ref, r, z, ks);
    } else {
      var k := ids[0];
      assert ids == [k] + ids[1..];
      if InGroup(base, r, z, k) {
        ScalingIs(base, ref, r, z, k);
      }
      if k in ks {
        assert InGroup(base, r, z, k) by {
          RemainsInGroup(base, ref, r, z, k);
        }
        var i :| 0 <= i < |ks| && ks[i] == k;
        OthersRemain(base, ref, ids, r, z, ks, i);
        TakenOut(base, ref, ks, i);
        PositivesAreRatios(base, ref, ids[1..], r, z, ks[..i] + ks[i + 1..]);
      } else {
        assert Remainder(base, ref, ids[1..], r, z, ks);
        PositivesAreRatios(base, ref, ids[1..], r, z, ks);
      }
    }
  }

  /** Reference capacity over base capacity. */
  function Ratio(base: Table<Plant>, ref: Table<Plant>, k: int): real
    requires k in base.rows && k in ref.rows && base.rows[k].pmax != 0.0
  {
    ref.rows[k].pmax / base.rows[k].pmax
  }

  /** The plants of the group that remain, each once, from the smallest ratio to the largest. */
  ghost predicate Ranked(base: Table<Plant>, ref: Table<Plant>, r: string, z: int, ks: seq<int>) {
    && Remainder(base, ref, base.ids, r, z, ks)
    && (forall i, j :: 0 <= i < j < |ks| && Remains(base, ref, r, z, ks[i]) && Remains(base, ref, r, z, ks[j]) ==>
          Ratio(base, ref, ks[i]) <= Ratio(base, ref, ks[j]))
  }

  lemma RankedMember(base: Table<Plant>, ref: Table<Plant>, r: string, z: int, ks: seq<int>, i: nat)
    requires Ranked(base, ref, r, z, ks) && i < |ks|
    ensures Remains(base, ref, r, z, ks[i]) && Scaling(base, ref, ks[i]) == Ratio(base, ref, ks[i])
  {
    hide Scaling;
    var k := ks[i];
    assert k in ks;
    ScalingIs(base, ref, r, z, k);
  }

  lemma RatiosAscend(base: Table<Plant>, ref: Table<Plant>, r: string, z: int, ks: seq<int>)
    requires Ranked(base, ref, r, z, ks) && forall k :: k in ks ==> k in base.rows
    ensures Ordered(Ratios(base, ref, ks))
  {
    hide Scaling, Remains;
    forall i, j | 0 <= i < j < |ks|
      ensures Ratios(base, ref, ks)[i] <= Ratios(base, ref, ks)[j]
    {
      RankedMember(base, ref, r, z, ks, i);
      RankedMember(base, ref, r, z, ks, j);
    }
  }

  /** The middle ratio, or the mean of the two middle ones. */
  ghost predicate IsMedian(base: Table<Plant>, ref: Table<Plant>, r: string, z: int, ks: seq<int>, m: real)
    requires Ranked(base, ref, r, z, ks) && ks != []
  {
    var h := |ks| / 2;
    RankedMember(base, ref, r, z, ks, h);
    if |ks| % 2 == 1 then m == Ratio(base, ref, ks[h])
    else
      RankedMember(base, ref, r, z, ks, h - 1);
      m == (Ratio(base, ref, ks[h - 1]) + Ratio(base, ref, ks[h])) / 2.0
  }

  lemma MedianOfGroup(base: Table<Plant>, ref: Table<Plant>, r: string, z: int, ks: seq<int>)
    requires base.Valid() && Ranked(base, ref, r, z, ks)
    ensures var s := Positives(base, ref, base.ids, r, z);
      (s == [] <==> ks == []) && (s != [] ==> IsMedian(base, ref, r, z, ks, Median(s)))
  {
    hide Scaling, Remains, Ordered, Median, Ratio;
    var s := Positives(base, ref, base.ids, r, z);
    PositivesAreRatios(base, ref, base.ids, r, z, ks);
    var t := Ratios(base, ref, ks);
    assert |s| == |multiset(s)| && |t| == |multiset(t)|;
    if s != [] {
      RatiosAscend(base, ref, r, z, ks);
      MedianOfOrdered(s, t);
      var h := |ks| / 2;
      RankedMember(base, ref, r, z, ks, h);
      if |ks| % 2 == 0 {
        RankedMember(base, ref, r, z, ks, h - 1);
      }
    }
  }

  /**
   * The zone factor of a group: 0 if none of its plants remains, else the median of the ratios of those
   * that do, unless that lies within eps of 1. No other zone factors are recorded.
   */
  lemma ZoneFactorIsMedian(
      base: Table<Plant>, ref: Table<Plant>, eps: real, m: map<string, Factors>, r: string, z: int, ks: seq<int>)
    requires base.Valid() && Mimics(base, ref, eps, m) && Ranked(base, ref, r, z, ks)
    ensures !GroupExists(base, r, z) ==> ZoneIn(m, r, z) == None
    ensures GroupExists(base, r, z) && ks == [] ==> ZoneIn(m, r, z) == Some(0.0)
    ensures GroupExists(base, r, z) && ks != [] ==>
      exists v | IsMedian(base, ref, r, z, ks, v) ::
        ZoneIn(m, r, z) == if 1.0 - eps <= v <= 1.0 + eps then None else Some(v)
  {
    hide Median, Positives, Ranked, IsMedian;
    MedianOfGroup(base, ref, r, z, ks);
    GroupEntry(base, ref, eps, r, z);
  }

  /** What a plant still needs beside its zone factor. */
  ghost predicate IsLeft(base: Table<Plant>, ref: Table<Plant>, k: int, zone: Option<real>, x: real)
    requires k in base.rows
  {
    var p := base.rows[k];
    if Remains(base, ref, p.resource, p.zone, k)
    then x * (if zone.Some? then zone.value else 1.0) == Ratio(base, ref, k)
    else x == 0.0
  }

  lemma QuotientIsLeft(s: real, zone: Option<real>)
    requires zone.Some? ==> zone.value != 0.0
    ensures s > 0.0 ==> Divided(s, zone) * (if zone.Some? then zone.value else 1.0) == s
    ensures s <= 0.0 ==> Divided(s, zone) == s
  {
  }

  lemma DividedIsLeft(base: Table<Plant>, ref: Table<Plant>, k: int, zone: Option<real>)
    requires k in base.rows && (zone.Some? ==> zone.value != 0.0)
    requires NonNegativeCapacity(base) && NonNegativeCapacity(ref)
    ensures IsLeft(base, ref, k, zone, Divided(Scaling(base, ref, k), zone))
  {
    hide Scaling, Divided;
    var p := base.rows[k];
    ScalingIs(base, ref, p.resource, p.zone, k);
    ScalingSign(base, ref, k);
    QuotientIsLeft(Scaling(base, ref, k), zone);
  }

  lemma SomeRemains(base: Table<Plant>, ref: Table<Plant>, r: string, z: int)
    requires base.Valid()
    ensures Positives(base, ref, base.ids, r, z) == [] <==> forall j :: !Remains(base, ref, r, z, j)
  {
    hide Scaling;
    forall j
      ensures Remains(base, ref, r, z, j) <==> j in base.ids && InGroup(base, r, z, j) && Scaling(base, ref, j) > 0.0
    {
      if InGroup(base, r, z, j) {
        ScalingIs(base, ref, r, z, j);
      }
    }
  }

  /**
   * The plant factor: none if no plant of the group remains, else what the zone factor leaves to do,
   * unless that lies within eps of 1. It is recorded under the plant's own resource only.
   */
  lemma PlantFactorIsLeft(base: Table<Plant>, ref: Table<Plant>, eps: real, m: map<string, Factors>, k: int)
    requires base.Valid() && Mimics(base, ref, eps, m) && k in base.rows
    requires NonNegativeCapacity(base) && NonNegativeCapacity(ref)
    ensures var p := base.rows[k];
      && (forall r :: r != p.resource ==> IdIn(m, r, k) == None)
      && ((forall j :: !Remains(base, ref, p.resource, p.zone, j)) ==> IdIn(m, p.resource, k) == None)
      && ((exists j :: Remains(base, ref, p.resource, p.zone, j)) ==>
            exists x | IsLeft(base, ref, k, ZoneIn(m, p.resource, p.zone), x) ::
              IdIn(m, p.resource, k) == if 1.0 - eps <= x <= 1.0 + eps then None else Some(x))
  {
    hide Median, Positives, Scaling, Remains, IsLeft, Divided, ZoneEntry;
    var p := base.rows[k];
    var s := Positives(base, ref, base.ids, p.resource, p.zone);
    GroupEntry(base, ref, eps, p.resource, p.zone);
    SomeRemains(base, ref, p.resource, p.zone);
    assert GroupExists(base, p.resource, p.zone) by {
      assert InGroup(base, p.resource, p.zone, k);
    }
    assert IdIn(m, p.resource, k) == PlantEntry(base, ref, eps, k);
    var zone := ZoneEntry(base, ref, eps, p.resource, p.zone);
    assert ZoneIn(m, p.resource, p.zone) == zone;
    if s != [] {
      DividedIsLeft(base, ref, k, zone);
    }
  }
}

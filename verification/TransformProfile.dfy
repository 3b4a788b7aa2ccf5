/** Hourly profiles of renewable plants, old and new (powersimdata/input/transform_profile.py). */
module TransformProfiles {
  import opened Reals
  import opened Tables
  import opened GridModel

  /** A data frame of hourly values with one column per plant. */
  datatype Profile = Profile(columns: seq<int>, data: map<int, seq<real>>)

  function ScaledColumn(column: seq<real>, f: real): (r: seq<real>)
    ensures |r| == |column| && forall h :: 0 <= h < |r| ==> r[h] == column[h] * f
  {
    seq(|column|, h requires 0 <= h < |column| => column[h] * f)
  }

  /** The ids whose plants have one of the given types, in order. */
  function OfTypes(t: Table<Plant>, ids: seq<int>, types: set<string>): (r: seq<int>)
    ensures forall k :: k in r <==> k in ids && k in t.rows && t.rows[k].resource in types
  {
    if ids == [] then []
    else if ids[0] in t.rows && t.rows[ids[0]].resource in types then [ids[0]] + OfTypes(t, ids[1..], types)
    else OfTypes(t, ids[1..], types)
  }

  lemma {:induction false} OfTypesConcat(t: Table<Plant>, a: seq<int>, b: seq<int>, types: set<string>)
    ensures OfTypes(t, a + b, types) == OfTypes(t, a, types) + OfTypes(t, b, types)
  {
    if a == [] {
      assert a + b == b;
    } else {
      assert (a + b)[1..] == a[1..] + b;
      OfTypesConcat(t, a[1..], b, types);
    }
  }

  lemma OfTypesNext(t: Table<Plant>, ids: seq<int>, k: int, types: set<string>)
    ensures OfTypes(t, ids + [k], types) ==
      if k in t.rows && t.rows[k].resource in types then OfTypes(t, ids, types) + [k] else OfTypes(t, ids, types)
  {
    OfTypesConcat(t, ids, [k], types);
    assert [k][1..] == [];
  }

  /** Whether entry `e` names the profile it borrows, and that is one of the columns at hand. */
  predicate HasNeighbor(e: NewPlant, columns: seq<int>) {
    e.neighbor.Some? && e.neighbor.value in columns
  }

  /** The ids of the plants that stand before the new ones. */
  function OldIds(t: Table<Plant>, n: nat): seq<int>
    requires n <= |t.ids|
  {
    t.ids[..|t.ids| - n]
  }

  /** The id of the i-th of `n` new plants: `index[-n + i]`. */
  function NewId(t: Table<Plant>, n: nat, i: nat): int
    requires i < n <= |t.ids|
  {
    t.ids[|t.ids| - n + i]
  }

  /** The i-th entry's column is its own neighbour's profile times its own Pmax. */
  ghost predicate Borrowed(t: Table<Plant>, es: seq<NewPlant>, raw: map<int, seq<real>>, p: Profile, i: nat)
    requires i < |es| <= |t.ids|
  {
    && NewId(t, |es|, i) in p.data && es[i].neighbor.Some? && es[i].neighbor.value in raw
    && p.data[NewId(t, |es|, i)] == ScaledColumn(raw[es[i].neighbor.value], es[i].pmax)
  }

  /** The new ids of the given types, in order of their entries. */
  function NewIds(t: Table<Plant>, n: nat, es: seq<NewPlant>, types: set<string>): (r: seq<int>)
    requires |es| <= n <= |t.ids|
    ensures forall k :: k in r ==> exists i :: 0 <= i < |es| && NewId(t, n, i) == k
  {
    if es == [] then []
    else
      var last := |es| - 1;
      var front := NewIds(t, n, es[..last], types);
      if es[last].resource in types then front + [NewId(t, n, last)] else front
  }

  function CountOf(es: seq<NewPlant>, types: set<string>): (n: nat)
    ensures n <= |es| && (n == 0 <==> forall i :: 0 <= i < |es| ==> es[i].resource !in types)
  {
    if es == [] then 0
    else CountOf(es[..|es| - 1], types) + if es[|es| - 1].resource in types then 1 else 0
  }

  /** Total number of new plants, and how many have a profile. */
  method NumberOfNewPlant(ct: Changes, profiled: set<string>) returns (n: nat, clean: nat)
    ensures n == |OrEmpty(ct.newPlant)| && clean == CountOf(OrEmpty(ct.newPlant), profiled)
  {
    n, clean := 0, 0;
    if ct.newPlant.Some? {
      var es := ct.newPlant.value;
      for i := 0 to |es|
        invariant n == i && clean == CountOf(es[..i], profiled)
      {
        assert es[..i + 1][..i] == es[..i];
        n := n + 1;
        if es[i].resource in profiled {
          clean := clean + 1;
        }
      }
      assert es[..|es|] == es;
    }
  }

  /**
   * What the profile of one group of resources is: None where a column is missing; else the old columns
   * scaled by Pmax followed by one borrowed column for each new plant of the group.
   */
  ghost predicate IsProfile(t: Table<Plant>, es: seq<NewPlant>, types: set<string>, raw: map<int, seq<real>>,
                            r: Option<Profile>)
    requires |es| <= |t.ids|
  {
    var olds := OfTypes(t, OldIds(t, |es|), types);
    && (r.Some? <==> && (forall k :: k in olds ==> k in raw)
                     && (forall i :: 0 <= i < |es| && es[i].resource in types ==> HasNeighbor(es[i], olds)))
    && (r.Some? ==> && r.value.columns == olds + NewIds(t, |es|, es, types)
                    && (forall k :: k in olds ==>
                          k in r.value.data && r.value.data[k] == ScaledColumn(raw[k], t.rows[k].pmax))
                    && (forall i :: 0 <= i < |es| && es[i].resource in types ==> Borrowed(t, es, raw, r.value, i)))
  }

  lemma {:induction false} NoneOfTypes(t: Table<Plant>, n: nat, es: seq<NewPlant>, types: set<string>)
    requires |es| <= n <= |t.ids| && forall i :: 0 <= i < |es| ==> es[i].resource !in types
    ensures NewIds(t, n, es, types) == []
  {
    if es != [] {
      NoneOfTypes(t, n, es[..|es| - 1], types);
    }
  }

  lemma OldAndNewDiffer(t: Table<Plant>, n: nat)
    requires t.Valid() && n <= |t.ids|
    ensures forall i :: 0 <= i < n ==> NewId(t, n, i) !in OldIds(t, n)
    ensures forall i, j :: 0 <= i < j < n ==> NewId(t, n, i) != NewId(t, n, j)
  {
  }

  method AddPlantProfile(t: Table<Plant>, es: seq<NewPlant>, types: set<string>, columns: seq<int>,
                         raw: map<int, seq<real>>)
    returns (r: Option<Profile>)
    requires t.Valid() && |es| <= |t.ids| && forall k :: k in columns ==> k in raw
    ensures r.Some? <==> forall i :: 0 <= i < |es| && es[i].resource in types ==> HasNeighbor(es[i], columns)
    ensures r.Some? ==>
      && r.value.columns == NewIds(t, |es|, es, types)
      && (forall k :: k in r.value.data <==> k in r.value.columns)
      && (forall i :: 0 <= i < |es| && es[i].resource in types ==> Borrowed(t, es, raw, r.value, i))
  {
    hide Table.Valid, ScaledColumn;
    OldAndNewDiffer(t, |es|);
    var ids: seq<int>, data: map<int, seq<real>> := [], map[];
    for i := 0 to |es|
      invariant ids == NewIds(t, |es|, es[..i], types)
      invariant forall k :: k in data <==> k in ids
      invariant forall j :: 0 <= j < i && es[j].resource in types ==>
        HasNeighbor(es[j], columns) && Borrowed(t, es, raw, Profile(ids, data), j)
    {
      assert es[..i + 1][..i] == es[..i];
      if es[i].resource in types {
        if !HasNeighbor(es[i], columns) {
          return None;
        }
        var id, neighbor := NewId(t, |es|, i), es[i].neighbor.value;
        assert neighbor in columns;
        ids := ids + [id];
        data := data[id := ScaledColumn(raw[neighbor], es[i].pmax)];
      }
    }
    assert es[..|es|] == es;
    return Some(Profile(ids, data));
  }

  /** Old and new columns side by side. */
  lemma Joined(t: Table<Plant>, es: seq<NewPlant>, types: set<string>, raw: map<int, seq<real>>,
               scaled: map<int, seq<real>>, added: Profile)
    requires t.Valid() && |es| <= |t.ids|
    requires var olds := OfTypes(t, OldIds(t, |es|), types);
      && (forall k :: k in scaled <==> k in olds)
      && (forall k :: k in olds ==> k in raw && scaled[k] == ScaledColumn(raw[k], t.rows[k].pmax))
      && (forall i :: 0 <= i < |es| && es[i].resource in types ==> HasNeighbor(es[i], olds))
    requires added.columns == NewIds(t, |es|, es, types) && (forall k :: k in added.data <==> k in added.columns)
    requires forall i :: 0 <= i < |es| && es[i].resource in types ==> Borrowed(t, es, raw, added, i)
    ensures var olds := OfTypes(t, OldIds(t, |es|), types);
      IsProfile(t, es, types, raw, Some(Profile(olds + added.columns, scaled + added.data)))
  {
    hide Table.Valid, ScaledColumn, OfTypes, NewIds, OldIds, NewId;
    OldAndNewDiffer(t, |es|);
    var olds := OfTypes(t, OldIds(t, |es|), types);
    forall k | k in olds
      ensures k !in added.data
    {
      assert k in OldIds(t, |es|);
    }
  }

  /** The profile of one group of resources for a transformed grid. */
  method RenewableProfile(t: Table<Plant>, ct: Changes, types: set<string>, profiled: set<string>,
                          raw: map<int, seq<real>>)
    returns (r: Option<Profile>)
    requires t.Valid() && |OrEmpty(ct.newPlant)| <= |t.ids| && types <= profiled
    ensures IsProfile(t, OrEmpty(ct.newPlant), types, raw, r)
  {
    hide Table.Valid, ScaledColumn, OfTypes, NewIds, OldIds, Borrowed, HasNeighbor;
    ghost var es := OrEmpty(ct.newPlant);
    var n, clean := NumberOfNewPlant(ct, profiled);
    var ids := OfTypes(t, OldIds(t, n), types);
    if exists k :: k in ids && k !in raw {
      return None;
    }
    var scaled := map k | k in ids :: ScaledColumn(raw[k], t.rows[k].pmax);
    if clean == 0 {
      NoneOfTypes(t, n, es, types);
      Joined(t, es, types, raw, scaled, Profile([], map[]));
      assert ids + [] == ids && scaled + map[] == scaled;
      return Some(Profile(ids, scaled));
    }
    var added := AddPlantProfile(t, ct.newPlant.value, types, ids, raw);
    if added.None? {
      return None;
    }
    Joined(t, es, types, raw, scaled, added.value);
    return Some(Profile(ids + added.value.columns, scaled + added.value.data));
  }
}

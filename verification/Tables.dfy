/** Data frames: an ordered index of ids plus one record per id. */
module Tables {

  ghost predicate Ascending(ids: seq<int>) {
    forall i, j :: 0 <= i < j < |ids| ==> ids[i] < ids[j]
  }

  function Reject(ids: seq<int>, drop: set<int>): seq<int> {
    if ids == [] then []
    else if ids[0] in drop then Reject(ids[1..], drop)
    else [ids[0]] + Reject(ids[1..], drop)
  }

  datatype Table<R> = Table(ids: seq<int>, rows: map<int, R>) {

    /** The index is strictly ascending and names exactly the stored rows. */
    ghost predicate Valid() {
      Ascending(ids) && forall k :: k in ids <==> k in rows
    }

    /** `index[-1] + 1` (0 on an empty index, where the source fails). */
    function NextId(): int {
      if ids == [] then 0 else ids[|ids| - 1] + 1
    }

    /** `pd.concat` of one row under an explicit id. */
    function Put(id: int, r: R): Table<R> {
      Table(ids + [id], rows[id := r])
    }

    /** Rows appended in order under consecutive ids starting at NextId. */
    function AppendAll(rs: seq<R>): (t: Table<R>) {
      if rs == [] then this
      else AppendAll(rs[..|rs| - 1]).Put(NextId() + |rs| - 1, rs[|rs| - 1])
    }

    /** `table.loc[~table.index.isin(drop)]` */
    function Without(drop: set<int>): Table<R> {
      Table(Reject(ids, drop), rows - drop)
    }
  }

  /** `index.max()` */
  function MaxOf(ids: seq<int>): (m: int)
    requires ids != []
    ensures m in ids && forall k :: k in ids ==> k <= m
  {
    if |ids| == 1 then ids[0]
    else
      var m := MaxOf(ids[1..]);
      assert ids == [ids[0]] + ids[1..];
      if m <= ids[0] then ids[0] else m
  }

  /** Every row of `t` is still in `u`, unchanged. */
  ghost predicate Keeps<R>(t: Table<R>, u: Table<R>) {
    forall k :: k in t.rows ==> k in u.rows && u.rows[k] == t.rows[k]
  }

  lemma SameNext<R, S>(t: Table<R>, u: Table<S>)
    requires t.ids == u.ids
    ensures t.NextId() == u.NextId()
  {
  }

  lemma MaxIsLast<R>(t: Table<R>)
    requires t.Valid() && t.ids != []
    ensures MaxOf(t.ids) + 1 == t.NextId()
  {
    var m := MaxOf(t.ids);
    assert t.ids[|t.ids| - 1] in t.ids;
    var i :| 0 <= i < |t.ids| && t.ids[i] == m;
  }

  lemma OldIdsAreSmaller<R>(t: Table<R>)
    requires t.Valid()
    ensures forall k :: k in t.rows ==> k < t.NextId()
  {
  }

  /** Appending one row at a time or all at once gives the same frame. */
  lemma AppendStep<R>(t: Table<R>, rs: seq<R>, r: R)
    ensures t.AppendAll(rs).Put(t.NextId() + |rs|, r) == t.AppendAll(rs + [r])
  {
  }

  /** The i-th appended row gets id NextId + i and the old index is a prefix of the new one. */
  lemma {:induction false} AppendIds<R>(t: Table<R>, rs: seq<R>)
    ensures t.AppendAll(rs).ids == t.ids + seq(|rs|, i => t.NextId() + i)
    ensures t.ids != [] ==> t.AppendAll(rs).NextId() == t.NextId() + |rs|
  {
    if rs != [] {
      AppendIds(t, rs[..|rs| - 1]);
    }
  }

  lemma AppendNone<R>(t: Table<R>)
    ensures t.AppendAll([]) == t
  {
  }

  /** One turn of a loop that appends `rs` row by row. */
  lemma AppendNth<R>(t: Table<R>, rs: seq<R>, i: nat)
    requires i < |rs|
    ensures t.AppendAll(rs[..i]).ids == [] <==> t.ids == [] && i == 0
    ensures t.ids != [] ==>
      t.AppendAll(rs[..i]).Put(t.AppendAll(rs[..i]).NextId(), rs[i]) == t.AppendAll(rs[..i + 1])
  {
    AppendIds(t, rs[..i]);
    AppendStep(t, rs[..i], rs[i]);
    assert rs[..i + 1] == rs[..i] + [rs[i]];
  }

  /** `u` holds the rows of `t` untouched and `rs` under the ids NextId, NextId + 1, ... */
  ghost predicate Extends<R>(t: Table<R>, u: Table<R>, rs: seq<R>) {
    && (forall k :: k in u.rows <==> k in t.rows || t.NextId() <= k < t.NextId() + |rs|)
    && (forall k :: k in t.rows ==> u.rows[k] == t.rows[k])
    && (forall k :: t.NextId() <= k < t.NextId() + |rs| ==> u.rows[k] == rs[k - t.NextId()])
  }

  lemma ExtendsNothing<R>(t: Table<R>)
    ensures Extends(t, t, [])
  {
  }

  lemma PutValid<R>(t: Table<R>, id: int, r: R)
    requires t.Valid() && forall k :: k in t.rows ==> k < id
    ensures t.Put(id, r).Valid()
  {
    var u := t.Put(id, r);
    forall i, j | 0 <= i < j < |u.ids|
      ensures u.ids[i] < u.ids[j]
    {
      assert u.ids[i] in t.ids;
    }
  }

  lemma ExtendsPut<R>(t: Table<R>, u: Table<R>, rs: seq<R>, r: R)
    requires u.Valid() && Extends(t, u, rs) && forall k :: k in t.rows ==> k < t.NextId()
    ensures u.Put(t.NextId() + |rs|, r).Valid() && Extends(t, u.Put(t.NextId() + |rs|, r), rs + [r])
  {
    PutValid(u, t.NextId() + |rs|, r);
  }

  lemma {:induction false} AppendRows<R>(t: Table<R>, rs: seq<R>)
    requires t.Valid()
    ensures t.AppendAll(rs).Valid() && Extends(t, t.AppendAll(rs), rs)
  {
    hide Table.Valid, Extends;
    OldIdsAreSmaller(t);
    ExtendsNothing(t);
    if rs != [] {
      var s := rs[..|rs| - 1];
      AppendRows(t, s);
      ExtendsPut(t, t.AppendAll(s), s, rs[|s|]);
      assert rs == s + [rs[|s|]];
    }
  }

  /** The i-th appended row, and an old one. */
  lemma AppendedRow<R>(t: Table<R>, rs: seq<R>, i: nat)
    requires t.Valid() && i < |rs|
    ensures t.NextId() + i in t.AppendAll(rs).rows && t.AppendAll(rs).rows[t.NextId() + i] == rs[i]
  {
    AppendRows(t, rs);
    assert t.AppendAll(rs).rows[t.NextId() + i] == rs[t.NextId() + i - t.NextId()];
  }

  lemma KeptRow<R>(t: Table<R>, rs: seq<R>, k: int)
    requires t.Valid() && k in t.rows
    ensures k in t.AppendAll(rs).rows && t.AppendAll(rs).rows[k] == t.rows[k]
  {
    AppendRows(t, rs);
  }

  /** An id stays in `u` exactly if it was in `t` and is not in `drop`; rows and order are kept. */
  ghost predicate Drops<R>(t: Table<R>, u: Table<R>, drop: set<int>) {
    && (forall k :: k in u.ids <==> k in t.ids && k !in drop)
    && (forall k :: k in u.rows <==> k in t.rows && k !in drop)
    && (forall k :: k in u.rows ==> u.rows[k] == t.rows[k])
    && (t.Valid() ==> u.Valid())
  }

  lemma {:induction false} RejectMembers(ids: seq<int>, drop: set<int>)
    ensures forall k :: k in Reject(ids, drop) <==> k in ids && k !in drop
  {
    if ids != [] {
      RejectMembers(ids[1..], drop);
      assert ids == [ids[0]] + ids[1..];
    }
  }

  lemma {:induction false} RejectAscends(ids: seq<int>, drop: set<int>)
    requires Ascending(ids)
    ensures Ascending(Reject(ids, drop))
  {
    if ids != [] {
      RejectAscends(ids[1..], drop);
      RejectMembers(ids[1..], drop);
      var r := Reject(ids[1..], drop);
      forall j | 0 <= j < |r|
        ensures ids[0] < r[j]
      {
        assert r[j] in r;
      }
    }
  }

  lemma WithoutDrops<R>(t: Table<R>, drop: set<int>)
    ensures Drops(t, t.Without(drop), drop)
  {
    RejectMembers(t.ids, drop);
    if t.Valid() {
      RejectAscends(t.ids, drop);
    }
  }
}

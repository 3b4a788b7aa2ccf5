/** The scenario and execute lists and the edits made to them. */
module ListEdits {
  import opened Reals

  datatype Row = Row(id: int, fields: string)

  type List = seq<Row>

  datatype Edit = Add(fields: string) | Delete(id: int) | SetStatus(id: int, status: string)

  predicate HasId(t: List, id: int) {
    exists i :: 0 <= i < |t| && t[i].id == id
  }

  ghost predicate UniqueIds(t: List) {
    forall i, j :: 0 <= i < j < |t| ==> t[i].id != t[j].id
  }

  /** Keeps the first row of every id. */
  function DropDuplicates(t: List): (r: List) {
    if t == [] then []
    else
      var last := t[|t| - 1];
      var front := DropDuplicates(t[..|t| - 1]);
      if HasId(front, last.id) then front else front + [last]
  }

  /** The server's list followed by the rows only the blob store has. */
  function Merge(orig: List, blob: List): List {
    DropDuplicates(orig + blob)
  }

  /** One more than the largest id, or 1 for an empty list. */
  function GenerateId(t: List): (id: int)
    ensures forall i :: 0 <= i < |t| ==> t[i].id < id
    ensures if t == [] then id == 1 else exists i :: 0 <= i < |t| && t[i].id + 1 == id
  {
    if t == [] then 1
    else
      var front := t[..|t| - 1];
      var rest, last := GenerateId(front), t[|t| - 1].id + 1;
      assert forall i :: 0 <= i < |t| - 1 ==> t[i] == front[i];
      assert t[|t| - 1].id + 1 == last;
      if |t| == 1 || rest < last then last else rest
  }

  function Keep(t: List, id: int): List {
    if t == [] then []
    else Keep(t[..|t| - 1], id) + (if t[|t| - 1].id == id then [] else [t[|t| - 1]])
  }

  function Update(t: List, row: Row): (r: List)
    ensures |r| == |t| && forall i :: 0 <= i < |t| ==> r[i] == if t[i].id == row.id then row else t[i]
  {
    seq(|t|, i requires 0 <= i < |t| => if t[i].id == row.id then row else t[i])
  }

  /** The edited table; None where the source raises because the id is unknown. */
  function Apply(e: Edit, t: List): Option<List> {
    match e
    case Add(fields) => Some(t + [Row(GenerateId(t), fields)])
    case Delete(id) => if HasId(t, id) then Some(Keep(t, id)) else None
    case SetStatus(id, status) =>
      Some(if HasId(t, id) then Update(t, Row(id, status)) else t + [Row(id, status)])
  }

  lemma HasIdAppend(t: List, r: Row, id: int)
    ensures HasId(t + [r], id) <==> HasId(t, id) || id == r.id
  {
    var u := t + [r];
    assert u[|t|] == r;
    if HasId(t, id) {
      var i :| 0 <= i < |t| && t[i].id == id;
      assert u[i].id == id;
    }
  }

  lemma {:induction false} DropDuplicatesFacts(t: List)
    ensures UniqueIds(DropDuplicates(t))
    ensures forall id :: HasId(DropDuplicates(t), id) <==> HasId(t, id)
    ensures forall r :: r in DropDuplicates(t) ==> r in t
  {
    if t != [] {
      var front, last := t[..|t| - 1], t[|t| - 1];
      DropDuplicatesFacts(front);
      var d := DropDuplicates(front);
      assert t == front + [last];
      assert HasId(t, last.id);
      forall id
        ensures HasId(t, id) <==> HasId(front, id) || id == last.id
      {
        HasIdAppend(front, last, id);
      }
      forall id
        ensures HasId(d + [last], id) <==> HasId(d, id) || id == last.id
      {
        HasIdAppend(d, last, id);
      }
    }
  }

  lemma {:induction false} UniqueIsKept(s: List)
    requires UniqueIds(s)
    ensures DropDuplicates(s) == s
  {
    if s != [] {
      var front, last := s[..|s| - 1], s[|s| - 1];
      UniqueIsKept(front);
      assert s == front + [last];
    }
  }

  /** Rows of a list without duplicates come through unchanged when rows are appended to it. */
  lemma {:induction false} DropDuplicatesPrefix(s: List, t: List)
    requires UniqueIds(s)
    ensures |DropDuplicates(s + t)| >= |s| && DropDuplicates(s + t)[..|s|] == s
  {
    hide HasId, UniqueIds;
    if t == [] {
      assert s + t == s;
      UniqueIsKept(s);
    } else {
      var u := s + t;
      assert u[..|u| - 1] == s + t[..|t| - 1];
      DropDuplicatesPrefix(s, t[..|t| - 1]);
    }
  }

  lemma {:induction false} KeepFacts(t: List, id: int)
    requires UniqueIds(t)
    ensures UniqueIds(Keep(t, id))
    ensures forall r :: r in Keep(t, id) <==> r in t && r.id != id
  {
    if t != [] {
      var front, last := t[..|t| - 1], t[|t| - 1];
      KeepFacts(front, id);
      assert t == front + [last];
      var k := Keep(front, id);
      forall i | 0 <= i < |k|
        ensures k[i].id != last.id
      {
        assert k[i] in front;
      }
    }
  }

  /** Every edit of a table with unique ids has unique ids; an added row gets an id larger than all. */
  lemma EditKeepsUniqueIds(e: Edit, t: List)
    requires UniqueIds(t) && Apply(e, t).Some?
    ensures UniqueIds(Apply(e, t).value)
    ensures e.Add? ==> forall r :: r in t ==> r.id < Apply(e, t).value[|t|].id
  {
    match e
    case Add(fields) =>
    case Delete(id) => KeepFacts(t, id);
    case SetStatus(id, status) =>
  }

  /** The ids an edit removes or rewrites. */
  ghost predicate Touches(e: Edit, id: int) {
    e == Delete(id) || (e.SetStatus? && e.id == id)
  }

  /** A row survives any edit that does not touch its id. */
  lemma EditKeepsRow(e: Edit, t: List, r: Row)
    requires UniqueIds(t) && Apply(e, t).Some? && r in t && !Touches(e, r.id)
    ensures r in Apply(e, t).value
  {
    match e
    case Add(fields) =>
    case Delete(id) => KeepFacts(t, id);
    case SetStatus(id, status) =>
      var i :| 0 <= i < |t| && t[i] == r;
      if HasId(t, id) {
        assert Update(t, Row(id, status))[i] == r;
      }
  }

  lemma MergeKeepsRow(orig: List, blob: List, r: Row)
    requires UniqueIds(orig) && r in orig
    ensures r in Merge(orig, blob)
  {
    DropDuplicatesPrefix(orig, blob);
    var i :| 0 <= i < |orig| && orig[i] == r;
    assert Merge(orig, blob)[..|orig|][i] == r;
  }

  lemma {:induction false} KeepOthers(t: List, id: int)
    requires forall i :: 0 <= i < |t| ==> t[i].id != id
    ensures Keep(t, id) == t
  {
    if t != [] {
      KeepOthers(t[..|t| - 1], id);
    }
  }

  /** With unique ids a deletion takes out one row and closes the gap. */
  lemma {:induction false} KeepCuts(t: List, i: nat)
    requires UniqueIds(t) && i < |t|
    ensures Keep(t, t[i].id) == t[..i] + t[i + 1..]
  {
    var n, id := |t| - 1, t[i].id;
    var front := t[..n];
    if i < n {
      KeepCuts(front, i);
      assert t[..i] + t[i + 1..] == front[..i] + front[i + 1..] + [t[n]];
    } else {
      KeepOthers(front, id);
      assert t[..i] + t[i + 1..] == front;
    }
  }

  /** The row under the id is replaced where it stands, or appended if there is none. */
  predicate Writes(t: List, u: List, row: Row) {
    && |t| <= |u|
    && (forall i :: 0 <= i < |t| ==> u[i] == if t[i].id == row.id then row else t[i])
    && (if HasId(t, row.id) then |u| == |t| else |u| == |t| + 1 && u[|t|] == row)
  }

  /** `fields` are appended under the id after the largest. */
  predicate Adds(t: List, u: List, fields: string) {
    && |u| == |t| + 1 && u[..|t|] == t && u[|t|].fields == fields
    && (t == [] ==> u[0].id == 1)
    && (forall i :: 0 <= i < |t| ==> t[i].id < u[|t|].id)
    && (t != [] ==> exists i :: 0 <= i < |t| && t[i].id + 1 == u[|t|].id)
  }

  /** The one row with this id goes, the others close up. */
  predicate CutsOut(t: List, u: List, id: int) {
    exists i :: 0 <= i < |t| && t[i].id == id && u == t[..i] + t[i + 1..]
  }

  /** What each edit does to the whole table, and that only deleting an unknown id fails. */
  lemma EditDoes(e: Edit, t: List)
    requires UniqueIds(t)
    ensures Apply(e, t).None? <==> e.Delete? && forall i :: 0 <= i < |t| ==> t[i].id != e.id
    ensures Apply(e, t).Some? ==>
      match e
      case Add(fields) => Adds(t, Apply(e, t).value, fields)
      case Delete(id) => CutsOut(t, Apply(e, t).value, id)
      case SetStatus(id, status) => Writes(t, Apply(e, t).value, Row(id, status))
  {
    if e.Delete? && HasId(t, e.id) {
      var i :| 0 <= i < |t| && t[i].id == e.id;
      KeepCuts(t, i);
    }
  }

  lemma MergeOneMore(t: List, last: Row)
    ensures DropDuplicates(t + [last]) == DropDuplicates(t) + if HasId(t, last.id) then [] else [last]
  {
    DropDuplicatesFacts(t);
    assert (t + [last])[..|t|] == t;
  }

  lemma MergedIds(orig: List, front: List, id: int)
    ensures HasId(orig + front, id) <==> HasId(orig, id) || HasId(front, id)
  {
    var u := orig + front;
    if i :| 0 <= i < |orig| && orig[i].id == id {
      assert u[i].id == id;
    }
    if i :| 0 <= i < |front| && front[i].id == id {
      assert u[|orig| + i].id == id;
    }
  }

  /** The merged list holds the server's rows and the blob store's rows of other ids. */
  lemma {:induction false} MergeHolds(orig: List, blob: List)
    requires UniqueIds(orig) && UniqueIds(blob)
    ensures forall r :: r in Merge(orig, blob) <==> r in orig || (r in blob && !HasId(orig, r.id))
    decreases |blob|
  {
    hide DropDuplicates;
    if blob == [] {
      assert orig + blob == orig;
      UniqueIsKept(orig);
    } else {
      var n := |blob| - 1;
      var front, last := blob[..n], blob[n];
      MergeHolds(orig, front);
      assert blob == front + [last];
      assert orig + blob == orig + front + [last];
      MergeOneMore(orig + front, last);
      MergedIds(orig, front, last.id);
      assert !HasId(front, last.id);
    }
  }
}

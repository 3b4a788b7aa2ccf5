/**
 * Each assumption of the no-lost-update theorem is needed: a run that breaks only that one
 * publishes a version that is not the publisher's edit of its predecessor.
 */
module ListCounterexamples {
  import opened Reals
  import opened ListEdits
  import opened ListProtocol

  const EMPTY := State([], None, map[], [[]], [])

  ghost predicate Injective(h: Digest) {
    forall x, y :: h(x) == h(y) ==> x == y
  }

  lemma {:induction false} RunOnward(h: Digest, s: State, done: seq<Step>, steps: seq<Step>)
    ensures Run(h, s, done + steps) == RunFrom(h, Run(h, s, done), steps)
    decreases |steps|
  {
    if steps == [] {
      assert done + steps == done;
    } else {
      assert (done + [steps[0]])[..|done|] == done;
      assert done + steps == done + [steps[0]] + steps[1..];
      RunOnward(h, s, done + [steps[0]], steps[1..]);
    }
  }

  lemma RunIsRunFrom(h: Digest, s: State, steps: seq<Step>)
    ensures Run(h, s, steps) == RunFrom(h, s, steps)
  {
    RunOnward(h, s, [], steps);
    assert [] + steps == steps;
  }

  lemma {:induction false} ExclusiveOnward(h: Digest, s: State, done: seq<Step>, steps: seq<Step>)
    requires Exclusive(h, s, done) && ExclusiveFrom(h, Run(h, s, done), steps)
    ensures Exclusive(h, s, done + steps)
    decreases |steps|
  {
    hide Next;
    if steps == [] {
      assert done + steps == done;
    } else {
      assert (done + [steps[0]])[..|done|] == done;
      assert done + steps == done + [steps[0]] + steps[1..];
      ExclusiveOnward(h, s, done + [steps[0]], steps[1..]);
    }
  }

  lemma WholeRunIsExclusive(h: Digest, s: State, steps: seq<Step>)
    requires ExclusiveFrom(h, s, steps)
    ensures Exclusive(h, s, steps)
  {
    ExclusiveOnward(h, s, [], steps);
    assert [] + steps == steps;
  }

  lemma {:induction false} ExclusiveConcat(h: Digest, s: State, a: seq<Step>, b: seq<Step>)
    requires ExclusiveFrom(h, s, a) && ExclusiveFrom(h, RunFrom(h, s, a), b)
    ensures ExclusiveFrom(h, s, a + b)
    decreases |a|
  {
    hide Next;
    if a == [] {
      assert a + b == b;
    } else {
      assert (a + b)[1..] == a[1..] + b;
      ExclusiveConcat(h, Next(h, s, a[0]), a[1..], b);
    }
  }

  lemma {:induction false} NoUploadsIsExclusive(h: Digest, s: State, steps: seq<Step>)
    requires forall i :: 0 <= i < |steps| ==> !steps[i].Upload?
    ensures ExclusiveFrom(h, s, steps)
    decreases |steps|
  {
    hide Next;
    if steps != [] {
      NoUploadsIsExclusive(h, Next(h, s, steps[0]), steps[1..]);
    }
  }

  lemma RunFirst(h: Digest, s: State, step: Step, rest: seq<Step>)
    ensures RunFrom(h, s, [step] + rest) == RunFrom(h, Next(h, s, step), rest)
  {
  }

  lemma {:induction false} RunConcat(h: Digest, s: State, a: seq<Step>, b: seq<Step>)
    ensures RunFrom(h, s, a + b) == RunFrom(h, RunFrom(h, s, a), b)
    decreases |a|
  {
    if a == [] {
      assert a + b == b;
    } else {
      assert (a + b)[1..] == a[1..] + b;
      RunConcat(h, Next(h, s, a[0]), a[1..], b);
    }
  }

  function Flatten(parts: seq<seq<Step>>): seq<Step> {
    if parts == [] then [] else parts[0] + Flatten(parts[1..])
  }

  lemma ChainEnd(h: Digest, s: State)
    ensures RunFrom(h, s, []) == s && ExclusiveFrom(h, s, [])
  {
  }

  /** Runs compose part by part. */
  lemma {:induction false} Chain(h: Digest, states: seq<State>, parts: seq<seq<Step>>)
    requires |states| == |parts| + 1
    requires forall i :: 0 <= i < |parts| ==> RunFrom(h, states[i], parts[i]) == states[i + 1]
    ensures RunFrom(h, states[0], Flatten(parts)) == states[|parts|]
    ensures (forall i :: 0 <= i < |parts| ==> ExclusiveFrom(h, states[i], parts[i])) ==>
      ExclusiveFrom(h, states[0], Flatten(parts))
  {
    hide RunFrom, ExclusiveFrom;
    if parts == [] {
      ChainEnd(h, states[0]);
    } else {
      var later, rest := states[1..], parts[1..];
      assert forall i :: 0 <= i < |rest| ==> later[i] == states[i + 1] && rest[i] == parts[i + 1];
      assert later[|rest|] == states[|parts|];
      Chain(h, later, rest);
      RunConcat(h, states[0], parts[0], Flatten(rest));
      if forall i :: 0 <= i < |parts| ==> ExclusiveFrom(h, states[i], parts[i]) {
        ExclusiveConcat(h, states[0], parts[0], Flatten(rest));
      }
    }
  }

  /** The steps of an operation after its checksum and download. */
  function Finish(c: int): seq<Step> {
    [EditTable(c), CheckTemp(c), Upload(c), Commit(c)]
  }

  function At(s: State, c: int, p: Phase, local: Option<List>): State {
    s.(clients := s.clients[c := Client(p, local)])
  }

  /** The steps up to the upload. */
  function Prepare(c: int): seq<Step> {
    [EditTable(c), CheckTemp(c), Upload(c)]
  }

  /** Uninterrupted, a client uploads its edit of the downloaded copy. */
  lemma Preparing(h: Digest, s: State, c: int, table: List)
    requires c in s.clients && s.clients[c].phase.Fetched? && s.temp.None?
    requires var p := s.clients[c].phase; Apply(p.ticket.edit, Merge(p.copy.seen, p.copy.blob)) == Some(table)
    ensures var p := s.clients[c].phase;
      RunFrom(h, s, Prepare(c)) == At(s, c, Uploaded(p.ticket, p.copy, table), Some(table)).(temp := Some(table))
    ensures ExclusiveFrom(h, s, Prepare(c))
  {
    hide Apply, Merge;
    var t, k, local := s.clients[c].phase.ticket, s.clients[c].phase.copy, s.clients[c].local;
    var s1, s2 := At(s, c, Edited(t, k, table), local), At(s, c, Cleared(t, k, table), local);
    var s3 := At(s, c, Uploaded(t, k, table), Some(table)).(temp := Some(table));
    assert Next(h, s, EditTable(c)) == s1;
    assert Next(h, s1, CheckTemp(c)) == s2;
    assert Next(h, s2, Upload(c)) == s3;
    var first, last := [EditTable(c), CheckTemp(c)], [Upload(c)];
    assert first == [EditTable(c)] + [CheckTemp(c)] && [CheckTemp(c)] == [CheckTemp(c)] + [] && last == last + [];
    RunFirst(h, s1, CheckTemp(c), []);
    RunFirst(h, s, EditTable(c), [CheckTemp(c)]);
    RunFirst(h, s2, Upload(c), []);
    RunConcat(h, s, first, last);
    NoUploadsIsExclusive(h, s, first);
    assert last[1..] == [];
    ExclusiveConcat(h, s, first, last);
    assert Prepare(c) == first + last;
  }

  /** And the commit publishes it if the digest still matches. */
  lemma Finishing(h: Digest, s: State, c: int, table: List)
    requires c in s.clients && s.clients[c].phase.Fetched? && s.temp.None?
    requires var p := s.clients[c].phase;
      Apply(p.ticket.edit, Merge(p.copy.seen, p.copy.blob)) == Some(table) && h(s.list) == p.ticket.sum
    ensures var p := s.clients[c].phase;
      RunFrom(h, s, Finish(c)) == At(s, c, Idle, Some(table)).(
        list := table, versions := s.versions + [table],
        log := s.log + [Publish(p.ticket, p.copy, s.list, table)])
    ensures ExclusiveFrom(h, s, Finish(c))
  {
    hide Apply, Merge, Run, ExclusiveFrom, RunFrom;
    Preparing(h, s, c, table);
    var last, s3 := [Commit(c)], RunFrom(h, s, Prepare(c));
    RunFirst(h, s3, Commit(c), []);
    ChainEnd(h, Next(h, s3, Commit(c)));
    assert last == last + [];
    RunConcat(h, s, Prepare(c), last);
    NoUploadsIsExclusive(h, s3, last);
    ExclusiveConcat(h, s, Prepare(c), last);
    assert Finish(c) == Prepare(c) + last;
  }

  /** Checksum and download. */
  lemma Starting(h: Digest, s: State, c: int, e: Edit, ok: bool)
    requires ClientOf(s, c).phase.Idle?
    ensures var local := if ok then Some(s.list) else ClientOf(s, c).local;
      RunFrom(h, s, [Begin(c, e), Fetch(c, ok, [])]) ==
        At(s, c, Fetched(Ticket(e, h(s.list), s.list, |s.log|),
                         Copy(if local.Some? then local.value else [], [], |s.log|, ok)), local)
  {
    var s1 := Next(h, s, Begin(c, e));
    RunFirst(h, s1, Fetch(c, ok, []), []);
    RunFirst(h, s, Begin(c, e), [Fetch(c, ok, [])]);
    assert [Begin(c, e), Fetch(c, ok, [])] == [Begin(c, e)] + [Fetch(c, ok, [])];
    assert [Fetch(c, ok, [])] == [Fetch(c, ok, [])] + [];
  }

  lemma MergeNothing(t: List)
    requires UniqueIds(t)
    ensures Merge(t, []) == t
  {
    UniqueIsKept(t);
    assert t + [] == t;
  }

  lemma NotAnEdit(log: seq<Publish>, i: nat)
    requires i < |log|
    requires Some(log[i].after) != Apply(log[i].ticket.edit, Merge(log[i].before, log[i].copy.blob))
    ensures !EditsOfPredecessors(log)
  {
  }

  lemma Adds(t: List, id: int, fields: string)
    requires UniqueIds(t) && id == GenerateId(t)
    ensures Apply(Add(fields), Merge(t, [])) == Some(t + [Row(id, fields)])
  {
    MergeNothing(t);
  }

  lemma AddsToEmpty(fields: string)
    ensures Apply(Add(fields), Merge([], [])) == Some([Row(1, fields)])
  {
    Adds([], 1, fields);
    assert [] + [Row(1, fields)] == [Row(1, fields)];
  }

  /** A download that fails without a local copy reads an empty list, and the commit erases the server's rows. */
  lemma FailedDownloadLosesRows(h: Digest) returns (s: State, steps: seq<Step>)
    ensures Initial(s) && s.list == [Row(1, "kept")] && Exclusive(h, s, steps)
    ensures var r := Run(h, s, steps);
      && |r.log| == 1 && r.list == [Row(1, "new")]
      && NoRecurrence(r.versions) && (Injective(h) ==> CollisionFree(h, r.versions))
      && !Downloads(r.log) && !EditsOfPredecessors(r.log)
  {
    hide Apply, Merge, Next, ExclusiveFrom, Exclusive;
    var list, table, e := [Row(1, "kept")], [Row(1, "new")], Add("new");
    var start := [Begin(1, e), Fetch(1, false, [])];
    s, steps := State(list, None, map[], [list], []), start + Finish(1);
    RunIsRunFrom(h, s, steps);
    RunConcat(h, s, start, Finish(1));
    Starting(h, s, 1, e, false);
    AddsToEmpty("new");
    Adds(list, GenerateId(list), "new");
    Finishing(h, RunFrom(h, s, start), 1, table);
    NoUploadsIsExclusive(h, s, start);
    ExclusiveConcat(h, s, start, Finish(1));
    WholeRunIsExclusive(h, s, steps);
    NotAnEdit(Run(h, s, steps).log, 0);
  }

  function Race(): seq<Step> {
    [EditTable(1), CheckTemp(1), EditTable(2), CheckTemp(2), Upload(1), Upload(2), Commit(1)]
  }

  /** A publish that is not its client's own edit betrays an upload over another. */
  lemma NotItsOwn(h: Digest, s: State, steps: seq<Step>, i: nat)
    requires Initial(s) && i < |Run(h, s, steps).log|
    requires var p := Run(h, s, steps).log[i]; Some(p.after) != Apply(p.ticket.edit, Merge(p.copy.seen, p.copy.blob))
    ensures !Exclusive(h, s, steps)
  {
    hide Run, Exclusive, Apply, Merge;
    if Exclusive(h, s, steps) {
      ExclusiveRunsAreOwned(h, s, steps);
    }
  }

  lemma RacingUploads(h: Digest, s: State, t1: Ticket, t2: Ticket, k: Copy, a: List, b: List)
    requires s.temp.None? && h(s.list) == t1.sum
    requires s.clients == map[1 := Client(Cleared(t1, k, a), Some([])), 2 := Client(Cleared(t2, k, b), Some([]))]
    ensures var r := Next(h, Next(h, Next(h, s, Upload(1)), Upload(2)), Commit(1));
      r.log == s.log + [Publish(t1, k, s.list, b)] && r.versions == s.versions + [b] && r.list == b
  {
  }

  lemma Four(h: Digest, s: State, x: seq<Step>)
    requires |x| >= 4
    ensures RunFrom(h, s, x) == RunFrom(h, Next(h, Next(h, Next(h, Next(h, s, x[0]), x[1]), x[2]), x[3]), x[4..])
  {
    hide Next, RunFrom;
    assert x == [x[0]] + x[1..] && x[1..] == [x[1]] + x[2..] && x[2..] == [x[2]] + x[3..] && x[3..] == [x[3]] + x[4..];
    RunFirst(h, s, x[0], x[1..]);
    RunFirst(h, Next(h, s, x[0]), x[1], x[2..]);
    RunFirst(h, Next(h, Next(h, s, x[0]), x[1]), x[2], x[3..]);
    RunFirst(h, Next(h, Next(h, Next(h, s, x[0]), x[1]), x[2]), x[3], x[4..]);
  }

  lemma Seven(h: Digest, s: State, x: seq<Step>)
    requires |x| == 7
    ensures RunFrom(h, s, x) ==
      Next(h, Next(h, Next(h, Next(h, Next(h, Next(h, Next(h, s, x[0]), x[1]), x[2]), x[3]), x[4]), x[5]), x[6])
  {
    hide Next, RunFrom;
    Four(h, s, x);
    var s4 := Next(h, Next(h, Next(h, Next(h, s, x[0]), x[1]), x[2]), x[3]);
    assert x[4..] == [x[4]] + x[5..] && x[5..] == [x[5]] + x[6..] && x[6..] == [x[6]] + [];
    RunFirst(h, s4, x[4], x[5..]);
    RunFirst(h, Next(h, s4, x[4]), x[5], x[6..]);
    RunFirst(h, Next(h, Next(h, s4, x[4]), x[5]), x[6], []);
    ChainEnd(h, Next(h, Next(h, Next(h, s4, x[4]), x[5]), x[6]));
  }

  /** Both clients hold an empty copy; both find no `.temp`; the second upload replaces the first. */
  lemma Racing(h: Digest, s: State, t1: Ticket, t2: Ticket, k: Copy, a: List, b: List)
    requires s.temp.None? && h(s.list) == t1.sum
    requires s.clients == map[1 := Client(Fetched(t1, k), Some([])), 2 := Client(Fetched(t2, k), Some([]))]
    requires Apply(t1.edit, Merge(k.seen, k.blob)) == Some(a) && Apply(t2.edit, Merge(k.seen, k.blob)) == Some(b)
    ensures RunFrom(h, s, Race()).log == s.log + [Publish(t1, k, s.list, b)]
    ensures RunFrom(h, s, Race()).versions == s.versions + [b] && RunFrom(h, s, Race()).list == b
  {
    hide Apply, Merge, RunFrom;
    var s1, s2 := At(s, 1, Edited(t1, k, a), Some([])), At(s, 1, Cleared(t1, k, a), Some([]));
    assert Next(h, s, EditTable(1)) == s1;
    assert Next(h, s1, CheckTemp(1)) == s2;
    var s3, s4 := At(s2, 2, Edited(t2, k, b), Some([])), At(s2, 2, Cleared(t2, k, b), Some([]));
    assert Next(h, s2, EditTable(2)) == s3;
    assert Next(h, s3, CheckTemp(2)) == s4;
    RacingUploads(h, s4, t1, t2, k, a, b);
    Seven(h, s, Race());
  }

  /**
   * Two clients may both find `.temp` absent and upload; the first to move then publishes the
   * other one's table, although downloads work, nothing recurs and the digest is collision-free.
   */
  lemma RacingUploadsSwapEdits(h: Digest) returns (s: State, steps: seq<Step>)
    ensures Initial(s)
    ensures var r := Run(h, s, steps);
      && |r.log| == 1 && r.log[0].ticket.edit == Add("mine") && r.list == [Row(1, "theirs")]
      && Downloads(r.log) && NoRecurrence(r.versions) && (Injective(h) ==> CollisionFree(h, r.versions))
      && !Exclusive(h, s, steps) && !EditsOfPredecessors(r.log)
  {
    hide Apply, Merge, Next, RunFrom;
    s := EMPTY;
    var a, b, k := [Row(1, "mine")], [Row(1, "theirs")], Copy([], [], 0, true);
    var first, second := [Begin(1, Add("mine")), Fetch(1, true, [])], [Begin(2, Add("theirs")), Fetch(2, true, [])];
    Starting(h, s, 1, Add("mine"), true);
    var s1 := RunFrom(h, s, first);
    Starting(h, s1, 2, Add("theirs"), true);
    var s2 := RunFrom(h, s1, second);
    AddsToEmpty("mine");
    AddsToEmpty("theirs");
    Racing(h, s2, Ticket(Add("mine"), h([]), [], 0), Ticket(Add("theirs"), h([]), [], 0), k, a, b);
    var s3 := RunFrom(h, s2, Race());
    steps := Flatten([first, second, Race()]);
    Chain(h, [s, s1, s2, s3], [first, second, Race()]);
    RunIsRunFrom(h, s, steps);
    NotAnEdit(s3.log, 0);
    NotItsOwn(h, s, steps, 0);
  }

  lemma NextAfter(rows: List)
    requires |rows| == 1
    ensures GenerateId(rows) == rows[0].id + 1
  {
  }

  /**
   * If two lists share a digest, a client may publish over the other one without noticing: both fetch
   * the empty list and finish one after the other, and the first one's row is lost.
   */
  lemma CollisionLosesRow(h: Digest) returns (s: State, steps: seq<Step>)
    requires h([]) == h([Row(1, "theirs")])
    ensures Initial(s) && Exclusive(h, s, steps)
    ensures var r := Run(h, s, steps);
      && |r.log| == 2 && r.log[0].after == [Row(1, "theirs")] && r.list == [Row(1, "mine")]
      && Downloads(r.log) && NoRecurrence(r.versions) && !CollisionFree(h, r.versions) && !EditsOfPredecessors(r.log)
  {
    hide Apply, Merge, Next, RunFrom, ExclusiveFrom, Run, Exclusive;
    s := EMPTY;
    var a, b := [Row(1, "mine")], [Row(1, "theirs")];
    var first, second := [Begin(1, Add("mine")), Fetch(1, true, [])], [Begin(2, Add("theirs")), Fetch(2, true, [])];
    Starting(h, s, 1, Add("mine"), true);
    var s1 := RunFrom(h, s, first);
    Starting(h, s1, 2, Add("theirs"), true);
    var s2 := RunFrom(h, s1, second);
    AddsToEmpty("mine");
    AddsToEmpty("theirs");
    Finishing(h, s2, 2, b);
    var s3 := RunFrom(h, s2, Finish(2));
    Finishing(h, s3, 1, a);
    var s4 := RunFrom(h, s3, Finish(1));
    NoUploadsIsExclusive(h, s, first);
    NoUploadsIsExclusive(h, s1, second);
    var parts := [first, second, Finish(2), Finish(1)];
    steps := Flatten(parts);
    Chain(h, [s, s1, s2, s3, s4], parts);
    RunIsRunFrom(h, s, steps);
    WholeRunIsExclusive(h, s, steps);
    NextAfter(b);
    Adds(b, 2, "mine");
    NotAnEdit(s4.log, 1);
    assert s4.versions[0] == [] && s4.versions[1] == b;
  }

  /** Client 1 takes its checksum of the empty list, client 2 adds a row, client 1 downloads that row. */
  function Opening(): seq<Step> {
    Flatten([[Begin(1, Add("new"))], [Begin(2, Add("gone")), Fetch(2, true, [])], Finish(2), [Fetch(1, true, [])]])
  }

  lemma BeginAlone(h: Digest, s: State, c: int, e: Edit)
    requires ClientOf(s, c).phase.Idle?
    ensures RunFrom(h, s, [Begin(c, e)]) ==
      At(s, c, Summed(Ticket(e, h(s.list), s.list, |s.log|)), ClientOf(s, c).local)
  {
  }

  lemma FetchAlone(h: Digest, s: State, c: int)
    requires c in s.clients && s.clients[c].phase.Summed?
    ensures RunFrom(h, s, [Fetch(c, true, [])]) ==
      At(s, c, Fetched(s.clients[c].phase.ticket, Copy(s.list, [], |s.log|, true)), Some(s.list))
  {
  }

  lemma Interrupted(h: Digest) returns (s2: State, s4: State, t: Publish)
    ensures RunFrom(h, EMPTY, Opening()) == s4 && ExclusiveFrom(h, EMPTY, Opening())
    ensures var rows := [Row(1, "gone")];
      && t.copy.current && s4.list == rows && s4.temp.None? && s4.versions == [[], rows] && s4.log == [t]
      && s4.clients == map[
        1 := Client(Fetched(Ticket(Add("new"), h([]), [], 0), Copy(rows, [], 1, true)), Some(rows)),
        2 := Client(Idle, Some(rows))]
  {
    hide Apply, Merge, Next, RunFrom, ExclusiveFrom;
    var rows, s := [Row(1, "gone")], EMPTY;
    var sum, add, get := [Begin(1, Add("new"))], [Begin(2, Add("gone")), Fetch(2, true, [])], [Fetch(1, true, [])];
    BeginAlone(h, s, 1, Add("new"));
    var s1 := RunFrom(h, s, sum);
    Starting(h, s1, 2, Add("gone"), true);
    AddsToEmpty("gone");
    s2 := RunFrom(h, s1, add);
    Finishing(h, s2, 2, rows);
    var s3 := RunFrom(h, s2, Finish(2));
    FetchAlone(h, s3, 1);
    s4 := RunFrom(h, s3, get);
    NoUploadsIsExclusive(h, s, sum);
    NoUploadsIsExclusive(h, s1, add);
    NoUploadsIsExclusive(h, s3, get);
    Chain(h, [s, s1, s2, s3, s4], [sum, add, Finish(2), get]);
    t := s4.log[0];
  }

  lemma DeletesOnly(rows: List)
    requires |rows| == 1
    ensures Apply(Delete(rows[0].id), Merge(rows, [])) == Some([])
  {
    MergeNothing(rows);
    assert HasId(rows, rows[0].id);
    var front := rows[..|rows| - 1];
    assert front == [];
    assert Keep(front, rows[0].id) == [];
    assert Keep(rows, rows[0].id) == [];
  }

  /**
   * If the list returns to an earlier content between a client's checksum and its commit, the client
   * may publish an edit of the content in between: here a deleted row comes back.
   */
  lemma RecurringContentRevivesRow(h: Digest) returns (s: State, steps: seq<Step>)
    ensures Initial(s) && Exclusive(h, s, steps)
    ensures var r := Run(h, s, steps);
      && |r.log| == 3 && r.log[1].ticket.edit == Delete(1) && r.log[1].after == []
      && r.list == [Row(1, "gone"), Row(2, "new")]
      && Downloads(r.log) && (Injective(h) ==> CollisionFree(h, r.versions))
      && !NoRecurrence(r.versions) && !EditsOfPredecessors(r.log)
  {
    hide Apply, Merge, Next, RunFrom, ExclusiveFrom, Run, Exclusive;
    var s2, s4, t := Interrupted(h);
    s := EMPTY;
    var rows := [Row(1, "gone")];
    var remove := [Begin(2, Delete(1)), Fetch(2, true, [])];
    Starting(h, s4, 2, Delete(1), true);
    var s5 := RunFrom(h, s4, remove);
    DeletesOnly(rows);
    Finishing(h, s5, 2, []);
    var s6 := RunFrom(h, s5, Finish(2));
    NextAfter(rows);
    Adds(rows, 2, "new");
    Finishing(h, s6, 1, rows + [Row(2, "new")]);
    var s7 := RunFrom(h, s6, Finish(1));
    NoUploadsIsExclusive(h, s4, remove);
    var parts := [Opening(), remove, Finish(2), Finish(1)];
    Chain(h, [s, s4, s5, s6, s7], parts);
    steps := Flatten(parts);
    RunIsRunFrom(h, s, steps);
    WholeRunIsExclusive(h, s, steps);
    AddsToEmpty("new");
    NotAnEdit(s7.log, 2);
    assert s7.versions[0] == s7.versions[2];
  }

  lemma CommitClearsNobody(h: Digest, s: State, c: int)
    requires NobodyCleared(s)
    ensures NobodyCleared(Next(h, s, Commit(c)))
  {
  }

  /**
   * A conflict is reachable: client 1 takes its checksum, client 2 publishes a row, client 1 downloads,
   * edits and uploads. Its commit then strands the file, and nothing can be published any more.
   */
  lemma ConflictHappens(h: Digest) returns (s: State, steps: seq<Step>)
    requires h([]) != h([Row(1, "gone")])
    ensures Initial(s) && Exclusive(h, s, steps)
    ensures var r := Run(h, s, steps);
      && Downloads(r.log) && NoRecurrence(r.versions) && ClientOf(r, 1).phase.Uploaded?
      && h(r.list) != ClientOf(r, 1).phase.ticket.sum
      && Stranded(Next(h, r, Commit(1))) && NobodyCleared(Next(h, r, Commit(1)))
  {
    hide Apply, Merge, Next, RunFrom, ExclusiveFrom, Run, Exclusive;
    var s2, s4, t := Interrupted(h);
    s := EMPTY;
    var rows := [Row(1, "gone")];
    NextAfter(rows);
    Adds(rows, 2, "new");
    Preparing(h, s4, 1, rows + [Row(2, "new")]);
    var s5 := RunFrom(h, s4, Prepare(1));
    Chain(h, [s, s4, s5], [Opening(), Prepare(1)]);
    steps := Flatten([Opening(), Prepare(1)]);
    RunIsRunFrom(h, s, steps);
    WholeRunIsExclusive(h, s, steps);
    ConflictStrands(h, s, steps, 1);
    CommitClearsNobody(h, Run(h, s, steps), 1);
  }
}

/**
 * Optimistic commit of a shared list (powersimdata/data_access/csv_store.py and data_access.py):
 * any number of clients checksum, download, edit, upload to `.temp`, then compare and move under
 * a lock. Every server access is one step and the steps of different clients interleave freely.
 */
module ListProtocol {
  import opened Reals
  import opened ListEdits

  /** What a client carries from its checksum on. `base` and `at` record what was checksummed, for the proofs. */
  datatype Ticket = Ticket(edit: Edit, sum: int, base: List, at: nat)

  /** What it downloaded: the list `seen` (when `seenAt` versions had been published) and the blob list. */
  datatype Copy = Copy(seen: List, blob: List, seenAt: nat, current: bool)

  datatype Phase =
    | Idle
    | Summed(ticket: Ticket)
    | Fetched(ticket: Ticket, copy: Copy)
    | Edited(ticket: Ticket, copy: Copy, table: List)
    | Cleared(ticket: Ticket, copy: Copy, table: List)
    | Uploaded(ticket: Ticket, copy: Copy, table: List)

  /** `local` is the client's local file, which survives from one operation to the next. */
  datatype Client = Client(phase: Phase, local: Option<List>)

  datatype Publish = Publish(ticket: Ticket, copy: Copy, before: List, after: List)

  /** `versions` lists every content the server file has had; `log` says who published each later one. */
  datatype State = State(list: List, temp: Option<List>, clients: map<int, Client>,
                         versions: seq<List>, log: seq<Publish>)

  datatype Step =
    | Begin(c: int, edit: Edit)
    | Fetch(c: int, ok: bool, blob: List)
    | EditTable(c: int)
    | CheckTemp(c: int)
    | Upload(c: int)
    | Commit(c: int)

  type Digest = List -> int

  function ClientOf(s: State, c: int): Client {
    if c in s.clients then s.clients[c] else Client(Idle, None)
  }

  function WithPhase(s: State, c: int, p: Phase): State {
    s.(clients := s.clients[c := Client(p, ClientOf(s, c).local)])
  }

  /** Compare and move under the lock. On a conflict the uploaded file stays behind. */
  function CommitTo(h: Digest, s: State, c: int, t: Ticket, k: Copy): State {
    var done := WithPhase(s, c, Idle);
    if h(s.list) == t.sum && s.temp.Some? then
      done.(list := s.temp.value, temp := None, versions := s.versions + [s.temp.value],
            log := s.log + [Publish(t, k, s.list, s.temp.value)])
    else done
  }

  /** One step of one client; a step its client is not ready for changes nothing. */
  function Next(h: Digest, s: State, step: Step): State {
    var me := ClientOf(s, step.c);
    match (step, me.phase)
    case (Begin(c, e), Idle) => WithPhase(s, c, Summed(Ticket(e, h(s.list), s.list, |s.log|)))
    case (Fetch(c, ok, blob), Summed(t)) =>
      var local := if ok then Some(s.list) else me.local;
      var seen := if local.Some? then local.value else [];
      s.(clients := s.clients[c := Client(Fetched(t, Copy(seen, blob, |s.log|, ok)), local)])
    case (EditTable(c), Fetched(t, k)) =>
      var edited := Apply(t.edit, Merge(k.seen, k.blob));
      WithPhase(s, c, if edited.Some? then Edited(t, k, edited.value) else Idle)
    case (CheckTemp(c), Edited(t, k, table)) =>
      WithPhase(s, c, if s.temp.None? then Cleared(t, k, table) else Idle)
    case (Upload(c), Cleared(t, k, table)) =>
      s.(temp := Some(table), clients := s.clients[c := Client(Uploaded(t, k, table), Some(table))])
    case (Commit(c), Uploaded(t, k, table)) => CommitTo(h, s, c, t, k)
    case (_, _) => s
  }

  function Run(h: Digest, s: State, steps: seq<Step>): State {
    if steps == [] then s else Next(h, Run(h, s, steps[..|steps| - 1]), steps[|steps| - 1])
  }

  ghost predicate Initial(s: State) {
    s.temp.None? && s.versions == [s.list] && s.log == [] && forall c :: c in s.clients ==> s.clients[c].phase.Idle?
  }

  ghost predicate Tracked(h: Digest, versions: seq<List>, p: Phase) {
    p.Idle? ||
    (&& p.ticket.sum == h(p.ticket.base)
     && p.ticket.at < |versions| && p.ticket.base == versions[p.ticket.at]
     && (!p.Summed? ==>
          && p.ticket.at <= p.copy.seenAt < |versions|
          && (p.copy.current ==> p.copy.seen == versions[p.copy.seenAt])
          && (!p.Fetched? ==> Apply(p.ticket.edit, Merge(p.copy.seen, p.copy.blob)) == Some(p.table))))
  }

  /** The i-th publish replaced version i, whose digest is the one its client took of version `at`. */
  ghost predicate Logged(h: Digest, versions: seq<List>, log: seq<Publish>, i: nat)
    requires i < |log| && |versions| == |log| + 1
  {
    var p := log[i];
    && p.before == versions[i] && p.after == versions[i + 1]
    && h(p.before) == p.ticket.sum == h(p.ticket.base)
    && p.ticket.at <= p.copy.seenAt <= i
    && p.ticket.base == versions[p.ticket.at]
    && (p.copy.current ==> p.copy.seen == versions[p.copy.seenAt])
  }

  /** Holds in every state of every run, whatever the hash, the downloads and the interleaving. */
  ghost predicate Inv(h: Digest, s: State) {
    && |s.versions| == |s.log| + 1
    && s.list == s.versions[|s.log|]
    && (forall c :: c in s.clients ==> Tracked(h, s.versions, s.clients[c].phase))
    && (s.temp.Some? ==> UniqueIds(s.temp.value))
    && (forall i :: 0 < i < |s.versions| ==> UniqueIds(s.versions[i]))
    && (forall i :: 0 <= i < |s.log| ==> Logged(h, s.versions, s.log, i))
  }

  lemma TableIsUnique(p: Phase)
    requires p.Edited? || p.Cleared? || p.Uploaded?
    requires Apply(p.ticket.edit, Merge(p.copy.seen, p.copy.blob)) == Some(p.table)
    ensures UniqueIds(p.table)
  {
    DropDuplicatesFacts(p.copy.seen + p.copy.blob);
    EditKeepsUniqueIds(p.ticket.edit, Merge(p.copy.seen, p.copy.blob));
  }

  /** A client may move to any phase that is consistent with the history. */
  lemma PhaseKeepsInv(h: Digest, s: State, c: int, p: Phase, local: Option<List>)
    requires Inv(h, s) && Tracked(h, s.versions, p)
    ensures Inv(h, s.(clients := s.clients[c := Client(p, local)]))
  {
  }

  lemma CommitKeepsInv(h: Digest, s: State, c: int)
    requires Inv(h, s) && ClientOf(s, c).phase.Uploaded?
    ensures Inv(h, CommitTo(h, s, c, ClientOf(s, c).phase.ticket, ClientOf(s, c).phase.copy))
  {
    hide Apply, Merge, UniqueIds;
    var p := ClientOf(s, c).phase;
    var s' := CommitTo(h, s, c, p.ticket, p.copy);
    assert Tracked(h, s.versions, p);
    PhaseKeepsInv(h, s, c, Idle, ClientOf(s, c).local);
    forall i | 0 <= i < |s'.log|
      ensures Logged(h, s'.versions, s'.log, i)
    {
      assert i < |s.log| ==> Logged(h, s.versions, s.log, i);
    }
  }

  lemma NextKeepsInv(h: Digest, s: State, step: Step)
    requires Inv(h, s)
    ensures Inv(h, Next(h, s, step))
  {
    hide Apply, Merge, UniqueIds;
    var me, s' := ClientOf(s, step.c), Next(h, s, step);
    assert Tracked(h, s.versions, me.phase);
    match (step, me.phase)
    case (Upload(c), Cleared(t, k, table)) =>
      TableIsUnique(me.phase);
      PhaseKeepsInv(h, s.(temp := Some(table)), c, Uploaded(t, k, table), Some(table));
    case (Commit(c), Uploaded(t, k, table)) => CommitKeepsInv(h, s, c);
    case (_, _) =>
      if s' != s {
        PhaseKeepsInv(h, s, step.c, ClientOf(s', step.c).phase, ClientOf(s', step.c).local);
      }
  }

  lemma {:induction false} RunKeepsInv(h: Digest, s: State, steps: seq<Step>)
    requires Initial(s)
    ensures Inv(h, Run(h, s, steps))
  {
    if steps != [] {
      RunKeepsInv(h, s, steps[..|steps| - 1]);
      NextKeepsInv(h, Run(h, s, steps[..|steps| - 1]), steps[|steps| - 1]);
    }
  }

  ghost predicate CollisionFree(h: Digest, versions: seq<List>) {
    forall i, j :: 0 <= i < |versions| && 0 <= j < |versions| && h(versions[i]) == h(versions[j]) ==>
      versions[i] == versions[j]
  }

  /**
   * Unconditional safety: in every run the list changes only to the contents of a compare-and-move
   * whose recorded digest matches the current list; with a collision-free digest the list is then
   * exactly what the client checksummed. Every published version has unique ids.
   */
  lemma PublishesOnlyIfUnchanged(h: Digest, s: State, steps: seq<Step>, i: nat)
    requires Initial(s) && i < |Run(h, s, steps).log|
    ensures var r := Run(h, s, steps);
      && r.log[i].ticket.sum == h(r.log[i].before)
      && |r.versions| == |r.log| + 1
      && r.log[i].before == r.versions[i] && r.log[i].after == r.versions[i + 1]
      && (CollisionFree(h, r.versions) ==> r.log[i].before == r.log[i].ticket.base)
      && UniqueIds(r.log[i].after)
  {
    RunKeepsInv(h, s, steps);
    assert Logged(h, Run(h, s, steps).versions, Run(h, s, steps).log, i);
  }

  /** Nobody's upload replaces a `.temp` file that is still there: checking and uploading act as one step. */
  ghost predicate Exclusive(h: Digest, s: State, steps: seq<Step>) {
    steps == [] ||
    (var before := Run(h, s, steps[..|steps| - 1]);
     && Exclusive(h, s, steps[..|steps| - 1])
     && (steps[|steps| - 1].Upload? && ClientOf(before, steps[|steps| - 1].c).phase.Cleared? ==> before.temp.None?))
  }

  /** The `.temp` file belongs to at most one client, and holds what that client uploaded. */
  ghost predicate Owned(s: State) {
    && (forall c :: c in s.clients && s.clients[c].phase.Uploaded? ==> s.temp == Some(s.clients[c].phase.table))
    && (forall c, d :: c in s.clients && d in s.clients ==>
          s.clients[c].phase.Uploaded? && s.clients[d].phase.Uploaded? ==> c == d)
  }

  /** The published file is the publisher's own edit of what it downloaded. */
  ghost predicate OwnEdits(log: seq<Publish>) {
    forall i :: 0 <= i < |log| ==>
      Some(log[i].after) == Apply(log[i].ticket.edit, Merge(log[i].copy.seen, log[i].copy.blob))
  }

  lemma NextKeepsOwned(h: Digest, s: State, step: Step)
    requires Inv(h, s) && Owned(s) && OwnEdits(s.log)
    requires step.Upload? && ClientOf(s, step.c).phase.Cleared? ==> s.temp.None?
    ensures Owned(Next(h, s, step)) && OwnEdits(Next(h, s, step).log)
  {
    hide Apply, Merge, UniqueIds, Logged;
    var me := ClientOf(s, step.c);
    assert Tracked(h, s.versions, me.phase);
  }

  lemma InitialIsOwned(s: State)
    requires Initial(s)
    ensures Owned(s) && OwnEdits(s.log)
  {
  }

  lemma {:induction false} ExclusiveRunsAreOwned(h: Digest, s: State, steps: seq<Step>)
    requires Initial(s) && Exclusive(h, s, steps)
    ensures Owned(Run(h, s, steps)) && OwnEdits(Run(h, s, steps).log)
  {
    hide Next, Owned, OwnEdits, Inv;
    if steps == [] {
      InitialIsOwned(s);
    } else {
      var front, last := steps[..|steps| - 1], steps[|steps| - 1];
      ExclusiveRunsAreOwned(h, s, front);
      RunKeepsInv(h, s, front);
      NextKeepsOwned(h, Run(h, s, front), last);
    }
  }

  /** Every download reaches the server. */
  ghost predicate Downloads(log: seq<Publish>) {
    forall i :: 0 <= i < |log| ==> log[i].copy.current
  }

  ghost predicate NoRecurrence(versions: seq<List>) {
    forall i, j :: 0 <= i < j < |versions| ==> versions[i] != versions[j]
  }

  /** Each published version is its client's edit of its immediate predecessor, merged with the blob list. */
  ghost predicate EditsOfPredecessors(log: seq<Publish>) {
    forall i :: 0 <= i < |log| ==>
      Some(log[i].after) == Apply(log[i].ticket.edit, Merge(log[i].before, log[i].copy.blob))
  }

  /** The downloaded copies behind the published versions. */
  function Copies(log: seq<Publish>): (r: seq<List>)
    ensures |r| == |log| && forall i :: 0 <= i < |r| ==> r[i] == log[i].copy.seen
  {
    seq(|log|, i requires 0 <= i < |log| => log[i].copy.seen)
  }

  /**
   * No lost update, under a check the client could make itself: if each publisher's downloaded copy
   * has the digest it took before downloading, and no two different versions or copies share a digest,
   * every version is an edit of its immediate predecessor.
   */
  lemma NoLostUpdate(h: Digest, s: State, steps: seq<Step>)
    requires Initial(s) && Exclusive(h, s, steps)
    requires var r := Run(h, s, steps); CollisionFree(h, r.versions + Copies(r.log))
    requires var log := Run(h, s, steps).log; forall i :: 0 <= i < |log| ==> h(log[i].copy.seen) == log[i].ticket.sum
    ensures EditsOfPredecessors(Run(h, s, steps).log)
  {
    hide Run, Initial, Exclusive, Apply, Merge;
    RunKeepsInv(h, s, steps);
    ExclusiveRunsAreOwned(h, s, steps);
    var r := Run(h, s, steps);
    var all := r.versions + Copies(r.log);
    forall i | 0 <= i < |r.log|
      ensures r.log[i].copy.seen == r.log[i].before
    {
      assert Logged(h, r.versions, r.log, i);
      assert all[i] == r.log[i].before && all[|r.versions| + i] == r.log[i].copy.seen;
    }
  }

  /** Successful downloads and contents that never recur make that check hold. */
  lemma FreshCopiesSuffice(h: Digest, s: State, steps: seq<Step>)
    requires Initial(s)
    requires var r := Run(h, s, steps); Downloads(r.log) && NoRecurrence(r.versions) && CollisionFree(h, r.versions)
    ensures var log := Run(h, s, steps).log; forall i :: 0 <= i < |log| ==>
      log[i].copy.seen == log[i].before && h(log[i].copy.seen) == log[i].ticket.sum
  {
    RunKeepsInv(h, s, steps);
    var r := Run(h, s, steps);
    forall i | 0 <= i < |r.log|
      ensures r.log[i].copy.seen == r.log[i].before && h(r.log[i].copy.seen) == r.log[i].ticket.sum
    {
      assert Logged(h, r.versions, r.log, i);
      var p := r.log[i];
      assert r.versions[p.ticket.at] == r.versions[i];
      assert p.ticket.at == i;
    }
  }

  /** The strong theorem: exclusive uploads, working downloads, no recurring content, no collision. */
  lemma EveryVersionEditsItsPredecessor(h: Digest, s: State, steps: seq<Step>)
    requires Initial(s) && Exclusive(h, s, steps)
    requires var r := Run(h, s, steps); Downloads(r.log) && NoRecurrence(r.versions) && CollisionFree(h, r.versions)
    ensures EditsOfPredecessors(Run(h, s, steps).log)
  {
    FreshCopiesSuffice(h, s, steps);
    ExclusiveRunsAreOwned(h, s, steps);
  }

  lemma RowSurvivesOne(p: Publish, r: Row)
    requires Some(p.after) == Apply(p.ticket.edit, Merge(p.before, p.copy.blob))
    requires UniqueIds(p.before) && r in p.before && !Touches(p.ticket.edit, r.id)
    ensures r in p.after
  {
    MergeKeepsRow(p.before, p.copy.blob, r);
    DropDuplicatesFacts(p.before + p.copy.blob);
    EditKeepsRow(p.ticket.edit, Merge(p.before, p.copy.blob), r);
  }

  /**
   * What that buys: once a row is in a published version, it is in every later version until a
   * publish deletes or rewrites that very id.
   */
  lemma {:induction false} RowsSurvive(h: Digest, s: State, steps: seq<Step>, i: nat, j: nat, r: Row)
    requires Initial(s) && EditsOfPredecessors(Run(h, s, steps).log)
    requires i < j < |Run(h, s, steps).log|
    requires r in Run(h, s, steps).log[i].after
    requires forall k :: i < k <= j ==> !Touches(Run(h, s, steps).log[k].ticket.edit, r.id)
    ensures r in Run(h, s, steps).log[j].after
    decreases j
  {
    hide Apply, Merge, UniqueIds, Run, Next;
    if i + 1 < j {
      RowsSurvive(h, s, steps, i, j - 1, r);
    }
    PublishesOnlyIfUnchanged(h, s, steps, j - 1);
    PublishesOnlyIfUnchanged(h, s, steps, j);
    RowSurvivesOne(Run(h, s, steps).log[j], r);
  }

  /** A `.temp` file nobody is about to move. */
  ghost predicate Stranded(s: State) {
    s.temp.Some? && forall c :: c in s.clients ==> !s.clients[c].phase.Uploaded?
  }

  /** A commit strands its uploaded file if and only if the digest has changed. */
  lemma ConflictStrands(h: Digest, s: State, steps: seq<Step>, c: int)
    requires Initial(s) && Exclusive(h, s, steps)
    requires ClientOf(Run(h, s, steps), c).phase.Uploaded?
    ensures Stranded(Next(h, Run(h, s, steps), Commit(c))) <==>
      h(Run(h, s, steps).list) != ClientOf(Run(h, s, steps), c).phase.ticket.sum
  {
    hide Run, Exclusive, OwnEdits;
    ExclusiveRunsAreOwned(h, s, steps);
  }

  /** Exclusive continuation of a state: every upload finds no `.temp` file. */
  ghost predicate ExclusiveFrom(h: Digest, s: State, steps: seq<Step>)
    decreases |steps|
  {
    steps == [] ||
    (&& (steps[0].Upload? && ClientOf(s, steps[0].c).phase.Cleared? ==> s.temp.None?)
     && ExclusiveFrom(h, Next(h, s, steps[0]), steps[1..]))
  }

  function RunFrom(h: Digest, s: State, steps: seq<Step>): State
    decreases |steps|
  {
    if steps == [] then s else RunFrom(h, Next(h, s, steps[0]), steps[1..])
  }

  /** No client has passed the check for a `.temp` file without uploading yet. */
  ghost predicate NobodyCleared(s: State) {
    forall c :: c in s.clients ==> !s.clients[c].phase.Cleared?
  }

  /**
   * After a conflict that finds no client between its check and its upload nothing is ever published
   * again, whatever the clients do: the leftover file blocks every later attempt.
   */
  lemma {:induction false} ConflictBlocksForever(h: Digest, s: State, steps: seq<Step>)
    requires Stranded(s) && NobodyCleared(s)
    ensures RunFrom(h, s, steps).list == s.list && RunFrom(h, s, steps).log == s.log
    ensures Stranded(RunFrom(h, s, steps)) && NobodyCleared(RunFrom(h, s, steps))
    decreases |steps|
  {
    if steps != [] {
      var s' := Next(h, s, steps[0]);
      assert Stranded(s') && NobodyCleared(s') && s'.list == s.list && s'.log == s.log;
      ConflictBlocksForever(h, s', steps[1..]);
    }
  }

  /** The same after any conflict, as long as no upload replaces the leftover file. */
  lemma {:induction false} ConflictBlocksExclusive(h: Digest, s: State, steps: seq<Step>)
    requires Stranded(s) && ExclusiveFrom(h, s, steps)
    ensures RunFrom(h, s, steps).list == s.list && RunFrom(h, s, steps).log == s.log
    ensures Stranded(RunFrom(h, s, steps))
    decreases |steps|
  {
    if steps != [] {
      var s' := Next(h, s, steps[0]);
      assert Stranded(s') && s'.list == s.list && s'.log == s.log;
      ConflictBlocksExclusive(h, s', steps[1..]);
    }
  }
}

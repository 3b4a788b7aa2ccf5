/** A client that nobody disturbs gets its edit published (powersimdata/data_access/csv_store.py and data_access.py). */
module ListProgress {
  import opened Reals
  import opened ListEdits
  import opened ListProtocol
  import opened ListCounterexamples

  /** All steps of one operation; `ok` says whether its download succeeds. */
  function Session(c: int, e: Edit, ok: bool, blob: List): seq<Step> {
    [Begin(c, e), Fetch(c, ok, blob)] + Finish(c)
  }

  /** The local file after the download: the server's list, or what was there before. */
  function LocalFile(s: State, c: int, ok: bool): Option<List> {
    if ok then Some(s.list) else ClientOf(s, c).local
  }

  function Rows(file: Option<List>): List {
    if file.Some? then file.value else []
  }

  /** The server's files and everybody else are as before, and `c` is done. */
  ghost predicate OnlyReturns(s: State, r: State, c: int, local: Option<List>) {
    && r == s.(clients := r.clients) && ClientOf(r, c) == Client(Idle, local)
    && forall d :: d != c ==> ClientOf(r, d) == ClientOf(s, d)
  }

  /** The list becomes `table`, which is logged as an edit of the list before it; nothing is left behind. */
  ghost predicate Publishes(s: State, r: State, c: int, e: Edit, table: List) {
    && r.list == table && r.temp.None? && r.versions == s.versions + [table]
    && |r.log| == |s.log| + 1 && r.log[..|s.log|] == s.log
    && r.log[|s.log|].ticket.edit == e && r.log[|s.log|].before == s.list && r.log[|s.log|].after == table
    && ClientOf(r, c) == Client(Idle, Some(table))
    && forall d :: d != c ==> ClientOf(r, d) == ClientOf(s, d)
  }

  lemma Opened(h: Digest, s: State, c: int, e: Edit, ok: bool, blob: List)
    requires ClientOf(s, c).phase.Idle?
    ensures var file := LocalFile(s, c, ok);
      RunFrom(h, s, [Begin(c, e), Fetch(c, ok, blob)]) ==
        At(s, c, Fetched(Ticket(e, h(s.list), s.list, |s.log|), Copy(Rows(file), blob, |s.log|, ok)), file)
  {
    var s1, last := Next(h, s, Begin(c, e)), [Fetch(c, ok, blob)];
    assert last == last + [] && [Begin(c, e), Fetch(c, ok, blob)] == [Begin(c, e)] + last;
    RunFirst(h, s1, Fetch(c, ok, blob), []);
    RunFirst(h, s, Begin(c, e), last);
  }

  /** An edit that fails, or that meets a leftover file, ends the operation without effect. */
  lemma GivesUp(h: Digest, s: State, c: int)
    requires c in s.clients && s.clients[c].phase.Fetched?
    requires var p := s.clients[c].phase; s.temp.Some? || Apply(p.ticket.edit, Merge(p.copy.seen, p.copy.blob)).None?
    ensures RunFrom(h, s, Finish(c)) == At(s, c, Idle, s.clients[c].local)
  {
    hide Apply, Merge;
    var t := At(s, c, Idle, s.clients[c].local);
    var s1 := Next(h, s, EditTable(c));
    Four(h, s, Finish(c));
    assert Next(h, s1, CheckTemp(c)) == t;
    assert Next(h, t, Upload(c)) == t && Next(h, t, Commit(c)) == t;
  }

  /**
   * Uninterrupted, an operation publishes its edit of the downloaded list (or of the local one where the
   * download fails), merged with the blob store's, if and only if the edit can be made and no uploaded
   * file was left behind; otherwise the server's files stay as they are.
   */
  lemma UndisturbedPublishes(h: Digest, s: State, c: int, e: Edit, ok: bool, blob: List)
    requires ClientOf(s, c).phase.Idle?
    ensures var r, file := RunFrom(h, s, Session(c, e, ok, blob)), LocalFile(s, c, ok);
      var edited := Apply(e, Merge(Rows(file), blob));
      && (s.temp.None? && edited.Some? ==> Publishes(s, r, c, e, edited.value))
      && (s.temp.Some? || edited.None? ==> OnlyReturns(s, r, c, file))
  {
    hide Apply, Merge, RunFrom;
    var opening := [Begin(c, e), Fetch(c, ok, blob)];
    var s2 := RunFrom(h, s, opening);
    Opened(h, s, c, e, ok, blob);
    RunConcat(h, s, opening, Finish(c));
    var edited := Apply(e, Merge(Rows(LocalFile(s, c, ok)), blob));
    if s.temp.None? && edited.Some? {
      Finishing(h, s2, c, edited.value);
    } else {
      GivesUp(h, s2, c);
    }
  }
}

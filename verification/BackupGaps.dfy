/** Two runs in which saving the journal boundary fails and a backup does not count once: one
    replays a record whose row is purged, one skips a record that was never rolled up. */
module BackupGaps {
  import opened Usage
  import opened Ledger
  import opened Wrappers
  import opened Journal
  import opened JournalSafety
  import opened JournalStore
  import opened Backup

  lemma {:induction false} NoRestartIsSafe(s: State, es: seq<Event>)
    requires IsRun(s, es) && forall e :: e in es ==> !e.Open? && !e.Load?
    ensures SafeRun(s, es)
    decreases |es|
  {
    if es != [] {
      assert es[0] in es;
      NoRestartIsSafe(Next(s, es[0]), es[1..]);
    }
  }

  /** From START, a run that ends with nothing lost was safe. */
  lemma {:induction false} SafeByEnd(es: seq<Event>)
    requires IsRun(START, es) && NothingLost(Run(START, es))
    ensures SafeRun(START, es)
  {
    LosesExactly(es);
  }

  // ---------------------------------------------------------------------------
  // Counted twice
  // ---------------------------------------------------------------------------

  /** The process dies after it announced the next generation and before it cut the file; it
      starts again, cannot save the boundary, and the janitor purges the row. */
  lemma {:induction false} StaleMark(a: CallLog) returns (es: seq<Event>)
    ensures IsRun(START, es)
    ensures var s := Run(START, es); var l := Line(Some(a), ROTATE_AFTER);
            && s.disk == Disk([l], 0, Some(ROTATE_AFTER)) && s.mark == Some(Mark(1, 0)) && s.db.rows == []
            && s.proc == Up(ROTATE_AFTER, ROTATE_AFTER, 1, [], Idle)
            && s.hist.bound == ROTATE_AFTER && s.hist.folded == NormalizeAll([a])
            && s.hist.issued == s.hist.journaled == {a.requestId}
  {
    es := AnnouncedOnly(a);
    OneLine(Line(Some(a), ROTATE_AFTER));
    RunSnoc(START, es, Open);
    es := es + [Open];
    RunSnoc(START, es, Load);
    es := es + [Load];
    RunSnoc(START, es, SaveFails);
    es := es + [SaveFails];
    var u := LedgerRuns.Cleanup(a.createdAt + 30 * DAY + 1, 30, {}, false);
    PurgedRow(a, a.createdAt + 1);
    RunSnoc(START, es, Upkeep(u));
    es := es + [Upkeep(u)];
  }

  lemma {:induction false} AnnouncedOnly(a: CallLog) returns (es: seq<Event>)
    ensures IsRun(START, es)
    ensures var s := Run(START, es); var l := Line(Some(a), ROTATE_AFTER);
            && s.disk == Disk([l], 0, Some(ROTATE_AFTER)) && s.mark == Some(Mark(1, 0)) && s.proc == Down
            && s.hist.bound == ROTATE_AFTER && s.db.rows == s.hist.folded == NormalizeAll([a])
            && s.hist.issued == s.hist.journaled == {a.requestId}
  {
    es := ReadyToRotate(a);
    RunSnoc(START, es, RotateMark);
    es := es + [RotateMark];
    RunSnoc(START, es, Crash(0));
    es := es + [Crash(0)];
    OneLine(Line(Some(a), ROTATE_AFTER));
  }

  lemma {:induction false} PurgedRow(a: CallLog, cutoff: int)
    requires a.createdAt < cutoff
    ensures KeepRows(NormalizeAll([a]), cutoff, {}) == []
  {
    NormalizeLaws(a);
    assert NormalizeAll([a]) == [Normalize(a)];
    assert [Normalize(a)][..0] == [];
  }

  /** A start with one line waiting reads and commits it. */
  lemma {:induction false} DrainsOne(up: State, a: CallLog) returns (es: seq<Event>)
    requires var l := Line(Some(a), ROTATE_AFTER);
             && up.disk.lines == [l] && up.proc == Up(ROTATE_AFTER, 0, 1, [], Idle) && up.db.rows == [] && up.hist.bound == 0
    ensures IsRun(up, es) && SafeRun(up, es) && Pending(Run(up, es)) == []
    ensures Run(up, es).hist.folded == up.hist.folded + NormalizeAll([a])
  {
    ReadsOne(up, a);
    CommitsOne(Run(up, [ReadBatch, Take]), a);
    RunSnoc(up, [ReadBatch, Take], Commit);
    es := [ReadBatch, Take] + [Commit];
    PassIsSafe(up, es);
  }

  lemma {:induction false} PassIsSafe(s: State, es: seq<Event>)
    requires es == [ReadBatch, Take] + [Commit] && IsRun(s, es)
    ensures SafeRun(s, es)
  {
    NoRestartIsSafe(s, es);
  }

  lemma {:induction false} ReadsOne(up: State, a: CallLog)
    requires var l := Line(Some(a), ROTATE_AFTER); up.disk.lines == [l] && up.proc == Up(ROTATE_AFTER, 0, 1, [], Idle)
    ensures IsRun(up, [ReadBatch, Take])
    ensures var t := Run(up, [ReadBatch, Take]);
            && t.disk == up.disk && t.db == up.db && t.hist == up.hist
            && t.proc == Up(ROTATE_AFTER, 0, 1, [], Taken([a], ROTATE_AFTER, 0, up.hist.journaled))
  {
    OneLine(Line(Some(a), ROTATE_AFTER));
    assert [a] + [] == [a];
    RunPair(up, ReadBatch, Take);
  }

  lemma {:induction false} CommitsOne(t: State, a: CallLog)
    requires t.disk.lines == [Line(Some(a), ROTATE_AFTER)] && t.db.rows == []
    requires t.proc.Up? && t.proc.phase.Taken? && t.proc.phase.batch == [a] && t.proc.phase.next == ROTATE_AFTER
    ensures Pending(Next(t, Commit)) == [] && Next(t, Commit).hist.folded == t.hist.folded + NormalizeAll([a])
  {
    OneLine(Line(Some(a), ROTATE_AFTER));
    OneFresh(a);
    assert Ids([]) == {};
  }

  /** The restored store replays its one record from the start and commits it. */
  lemma {:induction false} Replayed(r: State, a: CallLog) returns (es: seq<Event>)
    requires var l := Line(Some(a), ROTATE_AFTER);
             && r.disk == Disk([l], 0, Some(0)) && r.mark == Some(Mark(1, 0)) && r.db.rows == [] && r.proc == Down
             && r.hist.bound == 0
    ensures IsRun(r, es) && SafeRun(r, es) && Pending(Run(r, es)) == []
    ensures Run(r, es).hist.folded == r.hist.folded + NormalizeAll([a])
  {
    OneLine(Line(Some(a), ROTATE_AFTER));
    var o := Next(r, Open);
    var up := Next(Next(o, Load), Save);
    var drain := DrainsOne(up, a);
    NoneBetween(o.disk.lines, Shown(o), StartOffset(o));
    es := RESTART + drain;
    RunPair(r, Open, Load);
    RestartSteps(r);
    RunConcat(r, RESTART, drain);
    SafeAfterRestart(r, o, drain);
  }

  /** A backup taken then replays the whole journal, and the purged record is counted twice. */
  lemma {:induction false} ReplayedTwice(a: CallLog) returns (before: seq<Event>, c: Copy, after: seq<Event>)
    ensures IsRun(START, before) && SafeRun(START, before) && CopiedFrom(c, Run(START, before))
    ensures c.gen0 == Generation(Run(START, before).mark) && !Recorded(Run(START, before))
    ensures var r := Restored(c, Run(START, before));
            && IsRun(r, after) && SafeRun(r, after) && Pending(Run(r, after)) == []
            && a.requestId in IdSet(c.lines) && Bag(Run(r, after).hist.folded)[a.requestId] == 2
  {
    before := StaleMark(a);
    var l := Line(Some(a), ROTATE_AFTER);
    c := Copy([l], 0, 1);
    OneLine(l);
    OneNormal(a);
    SafeByEnd(before);
    after := Replayed(Restored(c, Run(START, before)), a);
    BagConcat(NormalizeAll([a]), NormalizeAll([a]));
  }

  lemma {:induction false} OneNormal(a: CallLog)
    ensures Bag(NormalizeAll([a])) == multiset{a.requestId}
  {
    NormalizeLaws(a);
    assert NormalizeAll([a]) == [Normalize(a)];
    BagOne(Normalize(a));
  }

  // ---------------------------------------------------------------------------
  // Skipped
  // ---------------------------------------------------------------------------

  /** The file cannot be cut and the old boundary cannot be put back. */
  lemma {:induction false} NotPutBack(a: CallLog) returns (es: seq<Event>)
    ensures IsRun(START, es)
    ensures var s := Run(START, es);
            && s.disk == Disk([Line(Some(a), ROTATE_AFTER)], 0, Some(ROTATE_AFTER)) && s.mark == Some(Mark(1, 0))
            && s.proc == Up(ROTATE_AFTER, ROTATE_AFTER, 0, [], Idle) && s.hist.bound == ROTATE_AFTER
            && s.db.rows == s.hist.folded == NormalizeAll([a]) && s.hist.issued == s.hist.journaled == {a.requestId}
  {
    es := ReadyToRotate(a);
    RunSnoc(START, es, RotateMark);
    es := es + [RotateMark];
    RunSnoc(START, es, PutBackFails);
    es := es + [PutBackFails];
  }

  predicate Different(a: CallLog, x: CallLog, y: CallLog) {
    a.requestId != x.requestId && a.requestId != y.requestId && x.requestId != y.requestId
  }

  function ThreeOf(a: CallLog, x: CallLog, y: CallLog): seq<Line> {
    [Line(Some(a), ROTATE_AFTER), Line(Some(x), 1), Line(Some(y), 1)]
  }

  /** Two more records arrive, the first just before the drain reads, the second just after. */
  lemma {:induction false} TwoMore(s: State, a: CallLog, x: CallLog, y: CallLog) returns (es: seq<Event>)
    requires Different(a, x, y)
    requires s.disk.lines == [Line(Some(a), ROTATE_AFTER)] && s.proc == Up(ROTATE_AFTER, ROTATE_AFTER, 0, [], Idle)
    requires s.hist.issued == s.hist.journaled == {a.requestId}
    ensures IsRun(s, es)
    ensures var t := Run(s, es);
            && t.disk.lines == ThreeOf(a, x, y)
            && t.mark == s.mark && t.db == s.db && t.hist.folded == s.hist.folded && t.hist.bound == s.hist.bound
            && t.proc == Up(ROTATE_AFTER + 2, ROTATE_AFTER, 0, [], Reading([x], ROTATE_AFTER + 1, {a.requestId, x.requestId}))
            && t.hist.journaled == {a.requestId, x.requestId, y.requestId}
  {
    var la, lx, ly := Line(Some(a), ROTATE_AFTER), Line(Some(x), 1), Line(Some(y), 1);
    assert [la] + [lx] == [la, lx] && [la, lx] + [ly] == [la, lx, ly];
    SecondLine(la, lx);
    RunPair(s, Append(lx), ReadBatch);
    RunSnoc(s, [Append(lx), ReadBatch], Append(ly));
    es := [Append(lx), ReadBatch] + [Append(ly)];
  }

  lemma {:induction false} SecondLine(la: Line, lx: Line)
    requires lx.rec.Some?
    ensures Tail([la, lx], la.len) == [lx] && ScanCount([lx], BATCH_MAX) == 1 && [lx][..1] == [lx]
    ensures Recs([lx]) == [lx.rec.value] && Size([lx]) == lx.len
  {
    assert [la, lx][1..] == [lx];
    OneLine(lx);
  }

  /** The commit of the first of them. */
  lemma {:induction false} FirstCommitted(s: State, a: CallLog, x: CallLog, asOf: set<Label>)
    requires s.proc == Up(ROTATE_AFTER + 2, ROTATE_AFTER, 0, [], Reading([x], ROTATE_AFTER + 1, asOf))
    requires s.db.rows == s.hist.folded == NormalizeAll([a]) && a.requestId != x.requestId
    ensures IsRun(s, [Take, Commit])
    ensures var t := Run(s, [Take, Commit]);
            && t.mark == Some(Mark(0, ROTATE_AFTER + 1)) && Bag(t.hist.folded) == multiset{a.requestId, x.requestId} && Recorded(t)
  {
    assert [x] + [] == [x];
    RunPair(s, Take, Commit);
    OneCommitted(s, a, x);
  }

  /** The first record is being read, the second waits behind it. */
  lemma {:induction false} BeforeCopy(a: CallLog, x: CallLog, y: CallLog) returns (es: seq<Event>)
    requires Different(a, x, y)
    ensures IsRun(START, es) && SafeRun(START, es)
    ensures var s := Run(START, es);
            && s.disk.lines == ThreeOf(a, x, y) && s.mark == Some(Mark(1, 0)) && s.db.rows == s.hist.folded == NormalizeAll([a])
            && s.proc == Up(ROTATE_AFTER + 2, ROTATE_AFTER, 0, [], Reading([x], ROTATE_AFTER + 1, {a.requestId, x.requestId}))
  {
    var first := NotPutBack(a);
    var more := TwoMore(Run(START, first), a, x, y);
    RunConcat(START, first, more);
    es := first + more;
    ThreeLines(a, x, y);
    OneNormal(a);
    SafeByEnd(es);
  }

  lemma {:induction false} RestoredPastAll(c: Copy, snap: State, a: CallLog, x: CallLog, y: CallLog)
    requires Different(a, x, y) && c.lines == ThreeOf(a, x, y) && c.gen0 == 1 && snap.mark == Some(Mark(0, ROTATE_AFTER + 1))
    requires Bag(snap.hist.folded) == multiset{a.requestId, x.requestId}
    ensures y.requestId in IdSet(c.lines) && Lost(Restored(c, snap), y.requestId)
  {
    ThreeLines(a, x, y);
    TailAtEnd(c.lines);
  }

  /** A commit of the first before the snapshot makes the generations differ, and the derived
      checkpoint takes the whole copy for rolled up: the second record is lost. */
  lemma {:induction false} SkippedByBackup(a: CallLog, x: CallLog, y: CallLog)
    returns (before: seq<Event>, c: Copy, during: seq<Event>)
    requires Different(a, x, y)
    ensures IsRun(START, before) && SafeRun(START, before) && CopiedFrom(c, Run(START, before))
    ensures c.gen0 == Generation(Run(START, before).mark) && !Recorded(Run(START, before))
    ensures IsRun(Run(START, before), during) && CrashFree(during) && Recorded(Run(Run(START, before), during))
    ensures y.requestId in IdSet(c.lines) && Lost(Restored(c, Run(Run(START, before), during)), y.requestId)
  {
    before := BeforeCopy(a, x, y);
    var s := Run(START, before);
    c := Copy(s.disk.lines, 0, 1);
    during := [Take, Commit];
    FirstCommitted(s, a, x, s.proc.phase.asOf);
    RestoredPastAll(c, Run(s, during), a, x, y);
  }

  lemma {:induction false} TwoLines(x: CallLog, y: CallLog)
    ensures var ls := [Line(Some(x), 1), Line(Some(y), 1)];
            Recs(ls) == [x, y] && Size(ls) == 2 && Bag([x, y]) == multiset{x.requestId, y.requestId}
  {
    var lx, ly := Line(Some(x), 1), Line(Some(y), 1);
    assert [lx] + [ly] == [lx, ly] && [x] + [y] == [x, y];
    OneLine(lx);
    OneLine(ly);
    RecsConcat([lx], [ly]);
    SizeConcat([lx], [ly]);
    BagOne(x);
    BagSnoc([x], y);
  }

  lemma {:induction false} ThreeLines(a: CallLog, x: CallLog, y: CallLog)
    ensures var ls := ThreeOf(a, x, y);
            && Recs(ls) == [a, x, y] && Size(ls) == ROTATE_AFTER + 2 && Recs(Tail(ls, ROTATE_AFTER)) == [x, y]
            && Bag([x, y]) == multiset{x.requestId, y.requestId} && IdSet(ls) == {a.requestId, x.requestId, y.requestId}
  {
    var la, rest := Line(Some(a), ROTATE_AFTER), [Line(Some(x), 1), Line(Some(y), 1)];
    assert [la] + rest == ThreeOf(a, x, y) && ThreeOf(a, x, y)[1..] == rest && [a] + [x, y] == [a, x, y];
    TwoLines(x, y);
    OneLine(la);
    RecsConcat([la], rest);
    SizeConcat([la], rest);
    ThreeIds(a, x, y);
  }

  lemma {:induction false} ThreeIds(a: CallLog, x: CallLog, y: CallLog)
    ensures Ids([a, x, y]) == {a.requestId, x.requestId, y.requestId}
  {
  }

  lemma {:induction false} OneCommitted(s: State, a: CallLog, x: CallLog)
    requires s.db.rows == s.hist.folded == NormalizeAll([a]) && a.requestId != x.requestId
    ensures Bag(s.hist.folded + NormalizeAll(Fresh([x], Ids(s.db.rows)))) == multiset{a.requestId, x.requestId}
  {
    OneNormal(a);
    OneNormal(x);
    BagMembers(s.hist.folded);
    BagOne(x);
    FreshAll([x], Ids(s.db.rows));
    BagConcat(s.hist.folded, NormalizeAll([x]));
  }
}

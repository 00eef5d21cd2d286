/** Backup and restore of the journal. The file is copied first and the database snapshotted
    later, while appends, commits and rotations go on; the replay point is derived from the
    snapshot. Restoring and draining counts every record that is complete in the copy exactly
    once if and only if the replay point skips none, and each record that is replayed although
    it is rolled up still has its row when it is. */
module Backup {
  import opened Usage
  import opened Ledger
  import opened Wrappers
  import opened Journal
  import opened JournalSafety
  import opened JournalStore

  /** Where replay starts in the copied journal; complete is the length of its complete lines,
      or nothing when no journal was copied. */
  function RestoredCheckpoint(complete: Option<nat>, mark: Option<Mark>, gen0: int): nat {
    if complete.None? || mark.None? then 0
    else if mark.value.gen != gen0 then complete.value
    else if mark.value.off < complete.value then mark.value.off else complete.value
  }

  /** The journal as copied under the rotation lock: whole lines of the file in order, the
      bytes of a line caught while it was being appended, and the generation the database
      recorded when the lock was taken. */
  datatype Copy = Copy(lines: seq<Line>, torn: nat, gen0: int)

  function Generation(mark: Option<Mark>): int { if mark.Some? then mark.value.gen else 0 }

  /** A copy that can be made of a running store: no rotation is under way. */
  predicate CopiedFrom(c: Copy, s: State) { Accepting(s.proc) && c.lines <= s.disk.lines }

  /** Rotation waits for the lock the copy is made under, and a crash ends the copying. */
  predicate EndsCopy(e: Event) {
    e.Crash? || e.CrashWriting? || e.RotateMark? || e.Truncate? || e.TruncateFails? || e.PutBackFails? || e.Reset?
  }

  predicate UnderLock(es: seq<Event>) { forall e :: e in es ==> !EndsCopy(e) }

  lemma {:induction false} LockStep(s: State, e: Event)
    requires Accepting(s.proc) && Enabled(s, e) && !EndsCopy(e)
    ensures Accepting(Next(s, e).proc) && Next(s, e).proc.gen == s.proc.gen
  {
  }

  lemma {:induction false} LockHeld(s: State, es: seq<Event>)
    requires Accepting(s.proc) && IsRun(s, es) && UnderLock(es)
    ensures Accepting(Run(s, es).proc) && Run(s, es).proc.gen == s.proc.gen
    decreases |es|
  {
    if es != [] {
      assert es[0] in es;
      LockStep(s, es[0]);
      LockHeld(Next(s, es[0]), es[1..]);
    }
  }

  /** The generation read when the lock is taken, if it was the store's own, is still that of
      the file when the copy is complete, whatever is appended and committed meanwhile. */
  lemma {:induction false} CopiedUnderLock(c: Copy, s: State, es: seq<Event>)
    requires Accepting(s.proc) && c.gen0 == Generation(s.mark) == s.proc.gen
    requires IsRun(s, es) && UnderLock(es) && c.lines <= Run(s, es).disk.lines
    ensures CopiedFrom(c, Run(s, es)) && c.gen0 == Run(s, es).proc.gen
  {
    LockHeld(s, es);
  }

  /** The stopped store that a restore leaves: the copy, the derived checkpoint, the snapshot. */
  function Restored(c: Copy, s: State): State {
    var ck := RestoredCheckpoint(Some(Size(c.lines)), s.mark, c.gen0);
    State(Disk(c.lines, c.torn, Some(ck)), s.db, s.mark, Down,
          s.hist.(bound := ck, journaled := IdSet(c.lines), ckptNew := true, markNew := false))
  }

  /** The request ids of the records that are complete in the copy. */
  function IdSet(ls: seq<Line>): set<Label> { Ids(Recs(ls)) }

  /** The archive under construction; what each step writes is what the store holds then. */
  class Archive {
    var copy: Copy
    var db: Db
    var mark: Option<Mark>
    var ckpt: nat

    constructor ()
    {
      copy, db, mark, ckpt := Copy([], 0, 0), Db([], map[], None), None, 0;
    }

    /** The journal and its generation, under the rotation lock. */
    method CopyJournal(store: Store, count: nat, torn: nat)
      requires Accepting(store.View().proc) && count <= |store.lines|
      modifies this`copy
      ensures copy == Copy(store.lines[..count], torn, Generation(store.mark)) && CopiedFrom(copy, store.View())
    {
      var gen0 := 0;
      if store.mark.Some? { gen0 := store.mark.value.gen; }
      copy := Copy(store.lines[..count], torn, gen0);
    }

    method SnapshotDatabase(store: Store)
      modifies this`db, this`mark
      ensures db == store.tables.View() && mark == store.mark
    {
      db, mark := Db(store.tables.rows, store.tables.rollup, store.tables.purged), store.mark;
    }

    method DeriveCheckpoint()
      modifies this`ckpt
      ensures ckpt == RestoredCheckpoint(Some(Size(copy.lines)), mark, copy.gen0)
    {
      var complete := Size(copy.lines);
      if mark.None? {
        ckpt := 0;
      } else if mark.value.gen != copy.gen0 {
        ckpt := complete;
      } else {
        ckpt := Min(mark.value.off, complete);
      }
    }
  }

  // ---------------------------------------------------------------------------
  // What holds between the copy and the snapshot
  // ---------------------------------------------------------------------------

  /** No two records in the file carry the same id, and every one of them was journaled. */
  ghost predicate Distinct(s: State) {
    && (forall id :: Bag(Recs(s.disk.lines))[id] <= 1)
    && (forall id :: id in Bag(Recs(s.disk.lines)) ==> id in s.hist.journaled)
    && s.hist.journaled <= s.hist.issued
  }

  /** The copy against the live store: until the file is cut it extends the copy; after that
      everything in the copy is rolled up. */
  ghost predicate Tracks(c: Copy, s: State, cut: bool) {
    && s.proc.Up? && !s.proc.phase.Opened? && !s.proc.phase.Rewriting? && !s.proc.phase.Loaded?
    && (!cut ==> c.lines <= s.disk.lines)
    && (cut ==> RolledUp(c, s))
    && IdSet(c.lines) <= s.hist.journaled && forall id :: Bag(Recs(c.lines))[id] <= 1
  }

  ghost predicate RolledUp(c: Copy, s: State) {
    forall id :: id in IdSet(c.lines) ==> id in Bag(s.hist.folded)
  }

  predicate CrashFree(es: seq<Event>) { forall e :: e in es ==> !e.Crash? && !e.CrashWriting? }

  /** Whether rotation cut the file on the way. */
  predicate Cuts(es: seq<Event>) { exists e :: e in es && e.Truncate? }

  lemma {:induction false} IdsAreBag(logs: seq<CallLog>)
    ensures forall id :: id in Ids(logs) <==> id in Bag(logs)
  {
    if logs != [] {
      IdsAreBag(logs[..|logs| - 1]);
      IdsSnoc(logs, |logs| - 1);
      assert logs[..|logs|] == logs;
    }
  }

  lemma {:induction false} QuietLines(s: State, e: Event)
    requires Enabled(s, e) && !e.Append?
    ensures var t := Next(s, e);
            (t.disk.lines == s.disk.lines || t.disk.lines == [])
            && t.hist.journaled == s.hist.journaled && s.hist.issued <= t.hist.issued
  {
  }

  lemma {:induction false} AppendDistinct(s: State, l: Line)
    requires Distinct(s) && Enabled(s, Append(l))
    ensures Distinct(Next(s, Append(l)))
  {
    RecsConcat(s.disk.lines, [l]);
    assert [l][1..] == [];
    if l.rec.Some? {
      assert Recs([l]) == [l.rec.value];
      BagSnoc(Recs(s.disk.lines), l.rec.value);
    } else {
      assert Recs(s.disk.lines) + [] == Recs(s.disk.lines);
    }
  }

  lemma {:induction false} DistinctStep(s: State, e: Event)
    requires Distinct(s) && Enabled(s, e)
    ensures Distinct(Next(s, e))
  {
    if e.Append? { AppendDistinct(s, e.line); } else { QuietLines(s, e); }
  }

  lemma {:induction false} DistinctRun(s: State, es: seq<Event>)
    requires Distinct(s) && IsRun(s, es)
    ensures Distinct(Run(s, es))
    decreases |es|
  {
    if es != [] {
      DistinctStep(s, es[0]);
      DistinctRun(Next(s, es[0]), es[1..]);
    }
  }

  /** Folding only ever adds. */
  lemma {:induction false} FoldedGrows(s: State, e: Event)
    requires Enabled(s, e)
    ensures Bag(s.hist.folded) <= Bag(Next(s, e).hist.folded)
  {
    if e.Commit? {
      BagConcat(s.hist.folded, NormalizeAll(Fresh(s.proc.phase.batch, Ids(s.db.rows))));
    } else if e.Upkeep? {
      UpkeepKeepsIds(s, e.e);
    } else {
      SameFolded(s, e);
    }
  }

  lemma {:induction false} SameFolded(s: State, e: Event)
    requires Enabled(s, e) && !e.Commit? && !e.Upkeep?
    ensures Next(s, e).hist.folded == s.hist.folded
  {
  }

  lemma {:induction false} FoldedGrowsRun(s: State, es: seq<Event>)
    requires IsRun(s, es)
    ensures Bag(s.hist.folded) <= Bag(Run(s, es).hist.folded)
    decreases |es|
  {
    if es != [] {
      FoldedGrows(s, es[0]);
      FoldedGrowsRun(Next(s, es[0]), es[1..]);
    }
  }

  /** Past its start a process that does not crash stays so, and keeps the lines of its file
      until it cuts them. */
  lemma {:induction false} RunningLines(s: State, e: Event)
    requires Enabled(s, e) && !e.Crash? && !e.CrashWriting?
    requires s.proc.Up? && !s.proc.phase.Opened? && !s.proc.phase.Rewriting? && !s.proc.phase.Loaded?
    ensures var t := Next(s, e);
            && t.proc.Up? && !t.proc.phase.Opened? && !t.proc.phase.Rewriting? && !t.proc.phase.Loaded?
            && (!e.Truncate? ==> s.disk.lines <= t.disk.lines) && s.hist.journaled <= t.hist.journaled
  {
  }

  lemma {:induction false} TracksStep(c: Copy, s: State, cut: bool, e: Event)
    requires FileInv(s) && NothingLost(s) && Tracks(c, s, cut) && Enabled(s, e) && !e.Crash? && !e.CrashWriting?
    ensures Tracks(c, Next(s, e), cut || e.Truncate?)
  {
    FoldedGrows(s, e);
    RunningLines(s, e);
    if e.Truncate? { TailAtEnd(s.disk.lines); }
  }

  lemma {:induction false} TracksRun(c: Copy, s: State, cut: bool, es: seq<Event>)
    requires Inv(s) && Single(s) && NothingLost(s) && Tracks(c, s, cut) && IsRun(s, es) && CrashFree(es)
    ensures var t := Run(s, es); Inv(t) && Single(t) && NothingLost(t) && Tracks(c, t, cut || Cuts(es))
    decreases |es|
  {
    if es != [] {
      var e, rest := es[0], es[1..];
      assert es == [e] + rest && e in es;
      Running(c, s, cut, e);
      TracksRun(c, Next(s, e), cut || e.Truncate?, rest);
    }
  }

  lemma {:induction false} Running(c: Copy, s: State, cut: bool, e: Event)
    requires Inv(s) && Single(s) && NothingLost(s) && Tracks(c, s, cut) && Enabled(s, e) && !e.Crash? && !e.CrashWriting?
    ensures var t := Next(s, e); Inv(t) && Single(t) && NothingLost(t) && Tracks(c, t, cut || e.Truncate?)
  {
    SingleStep(s, e);
    TracksStep(c, s, cut, e);
  }

  lemma {:induction false} CopyTracks(c: Copy, s: State)
    requires Distinct(s) && CopiedFrom(c, s)
    ensures Tracks(c, s, false)
  {
    PrefixIds(c.lines, s.disk.lines);
  }

  lemma {:induction false} PrefixIds(a: seq<Line>, b: seq<Line>)
    requires a <= b
    ensures Bag(Recs(a)) <= Bag(Recs(b)) && forall id :: id in IdSet(a) <==> id in Bag(Recs(a))
  {
    assert b == a + b[|a|..];
    RecsConcat(a, b[|a|..]);
    BagConcat(Recs(a), Recs(b[|a|..]));
    IdsAreBag(Recs(a));
  }

  // ---------------------------------------------------------------------------
  // Where replay should start
  // ---------------------------------------------------------------------------

  lemma {:induction false} TailPrefix(a: seq<Line>, b: seq<Line>, off: nat)
    requires off <= Size(a)
    ensures Tail(a + b, off) == Tail(a, off) + b
    ensures Boundary(a + b, off) ==> Boundary(a, off)
  {
    if off != 0 && a != [] {
      FirstOf(a, b);
      if off >= a[0].len {
        TailPrefix(a[1..], b, off - a[0].len);
      } else {
        Assoc([Line(None, a[0].len - off)], a[1..], b);
      }
    }
  }

  lemma {:induction false} FirstOf(a: seq<Line>, b: seq<Line>)
    requires a != []
    ensures (a + b)[0] == a[0] && (a + b)[1..] == a[1..] + b
  {
  }

  /** Once the copy's records are counted, records appended after it are other records. */
  lemma {:induction false} LaterIsOther(lines: seq<Line>, more: seq<Line>)
    requires forall id :: Bag(Recs(lines + more))[id] <= 1
    ensures forall id :: id in IdSet(lines) ==> id !in Bag(Recs(more))
  {
    RecsConcat(lines, more);
    BagConcat(Recs(lines), Recs(more));
    IdsAreBag(Recs(lines));
    forall id | id in IdSet(lines) ensures id !in Bag(Recs(more)) {
      assert Bag(Recs(lines + more))[id] == Bag(Recs(lines))[id] + Bag(Recs(more))[id];
    }
  }

  /** The boundary lies in the copy: what waits in the file is what waits in the copy and
      what was appended after it. */
  lemma {:induction false} BoundaryInCopy(lines: seq<Line>, more: seq<Line>, bound: nat)
    requires bound <= Size(lines)
    ensures Bag(Recs(Tail(lines + more, bound))) == Bag(Recs(Tail(lines, bound))) + Bag(Recs(more))
  {
    TailPrefix(lines, more, bound);
    RecsConcat(Tail(lines, bound), more);
    BagConcat(Recs(Tail(lines, bound)), Recs(more));
  }

  /** The boundary lies past the copy: only records appended after it wait. */
  lemma {:induction false} BoundaryPastCopy(lines: seq<Line>, more: seq<Line>, bound: nat)
    requires Size(lines) <= bound <= Size(lines + more)
    ensures Bag(Recs(Tail(lines + more, bound))) <= Bag(Recs(more)) && Recs(Tail(lines, Size(lines))) == []
  {
    TailPrefix(lines, more, Size(lines));
    TailAtEnd(lines);
    assert [] + more == more;
    TailLater(lines + more, Size(lines), bound);
    SuffixBag(Recs(more), Recs(Tail(lines + more, bound)));
  }

  /** Same file: nothing waits in the copy that does not wait in the file, and what of the
      copy waits in the file waits in the copy. */
  lemma {:induction false} SameFile(lines: seq<Line>, more: seq<Line>, bound: nat)
    requires bound <= Size(lines + more)
    requires forall id :: Bag(Recs(lines + more))[id] <= 1
    ensures var ck := if bound < Size(lines) then bound else Size(lines);
            Bag(Recs(Tail(lines, ck))) <= Bag(Recs(Tail(lines + more, bound)))
            && (forall id :: id in IdSet(lines) && id in Bag(Recs(Tail(lines + more, bound))) ==> id in Bag(Recs(Tail(lines, ck))))
  {
    LaterIsOther(lines, more);
    if bound < Size(lines) {
      BoundaryInCopy(lines, more, bound);
    } else {
      BoundaryPastCopy(lines, more, bound);
    }
  }

  /** How far the copy is rolled up when the snapshot is taken. */
  function TrueStart(c: Copy, s: State, cut: bool): nat {
    if cut || s.hist.bound >= Size(c.lines) then Size(c.lines) else s.hist.bound
  }

  /** What of the copy is not rolled up waits from there on, and nothing else does. */
  lemma {:induction false} TrueStartIs(c: Copy, s: State, cut: bool)
    requires FileInv(s) && Single(s) && NothingLost(s) && Distinct(s) && Tracks(c, s, cut)
    ensures var p := Recs(Tail(c.lines, TrueStart(c, s, cut)));
            Apart(s.hist.folded, p) && Delivered(IdSet(c.lines), s.hist.folded, p)
  {
    if cut {
      TailAtEnd(c.lines);
    } else {
      var more := s.disk.lines[|c.lines|..];
      assert s.disk.lines == c.lines + more;
      SameFile(c.lines, more, s.hist.bound);
    }
  }

  /** The derived checkpoint leaves out a record of the copy that is not rolled up. */
  predicate Skips(c: Copy, s: State, cut: bool) {
    RecordBetween(c.lines, TrueStart(c, s, cut), RestoredCheckpoint(Some(Size(c.lines)), s.mark, c.gen0))
  }

  /** The derived checkpoint replays a record of the copy that is rolled up. */
  predicate Replays(c: Copy, s: State, cut: bool) {
    RecordBetween(c.lines, RestoredCheckpoint(Some(Size(c.lines)), s.mark, c.gen0), TrueStart(c, s, cut))
  }

  // ---------------------------------------------------------------------------
  // The restored store
  // ---------------------------------------------------------------------------

  lemma {:induction false} RecsInFile(ls: seq<Line>, off: nat)
    requires off <= Size(ls)
    ensures Bag(Recs(Tail(ls, off))) <= Bag(Recs(ls)) && forall id :: id in Bag(Recs(ls)) <==> id in IdSet(ls)
  {
    TailLater(ls, 0, off);
    SuffixBag(Recs(ls), Recs(Tail(ls, off)));
    IdsAreBag(Recs(ls));
  }

  /** The restored store satisfies what every store does. */
  lemma {:induction false} RestoredInv(c: Copy, s: State, cut: bool)
    requires Inv(s) && Tracks(c, s, cut)
    ensures Inv(Restored(c, s))
  {
    CopyOnce(c, s, cut, Restored(c, s).hist.bound);
  }

  /** A checkpoint past the true one. */
  lemma {:induction false} AheadExact(lines: seq<Line>, from: nat, ck: nat, f: seq<CallLog>, issued: set<Label>)
    requires from <= ck <= Size(lines) && Once(f, Recs(Tail(lines, from)), [], issued, IdSet(lines))
    requires Apart(f, Recs(Tail(lines, from))) && Delivered(IdSet(lines), f, Recs(Tail(lines, from)))
    ensures Delivered(IdSet(lines), f, Recs(Tail(lines, ck))) <==> !RecordBetween(lines, from, ck)
    ensures Apart(f, Recs(Tail(lines, ck)))
  {
    BetweenIs(lines, from, ck);
    TailLater(lines, from, ck);
    SuffixBag(Recs(Tail(lines, from)), Recs(Tail(lines, ck)));
    DroppedFront(f, Recs(Tail(lines, from)), [], Recs(Tail(lines, ck)), issued, IdSet(lines));
  }

  /** A checkpoint before the true one. */
  lemma {:induction false} BehindExact(lines: seq<Line>, from: nat, ck: nat, f: seq<CallLog>)
    requires ck <= from <= Size(lines)
    requires Apart(f, Recs(Tail(lines, from))) && Delivered(IdSet(lines), f, Recs(Tail(lines, from)))
    ensures Delivered(IdSet(lines), f, Recs(Tail(lines, ck))) && !RecordBetween(lines, from, ck)
    ensures !RecordBetween(lines, ck, from) ==> Apart(f, Recs(Tail(lines, ck)))
  {
    NoneBetween(lines, from, ck);
    BetweenIs(lines, ck, from);
    TailLater(lines, ck, from);
    SuffixBag(Recs(Tail(lines, ck)), Recs(Tail(lines, from)));
  }

  /** It has lost a record of the copy exactly when the derived checkpoint skips one, and
      replays none that is rolled up unless one lies past the derived checkpoint. */
  lemma {:induction false} RestoredExact(c: Copy, s: State, cut: bool)
    requires Inv(s) && Single(s) && NothingLost(s) && Distinct(s) && Tracks(c, s, cut)
    ensures NothingLost(Restored(c, s)) <==> !Skips(c, s, cut)
    ensures !Replays(c, s, cut) ==> Single(Restored(c, s))
  {
    var ck, from := Restored(c, s).hist.bound, TrueStart(c, s, cut);
    TrueStartIs(c, s, cut);
    if from <= ck {
      CopyOnce(c, s, cut, from);
      AheadExact(c.lines, from, ck, s.hist.folded, s.hist.issued);
    } else {
      BehindExact(c.lines, from, ck, s.hist.folded);
    }
  }

  lemma {:induction false} CopyOnce(c: Copy, s: State, cut: bool, off: nat)
    requires Counting(s) && Tracks(c, s, cut) && off <= Size(c.lines)
    ensures Once(s.hist.folded, Recs(Tail(c.lines, off)), [], s.hist.issued, IdSet(c.lines))
  {
    RecsInFile(c.lines, off);
  }

  /** Restarting on the restored files accepts the derived checkpoint, never the snapshot's
      own boundary: that is not past it, or not inside the copy. */
  lemma {:induction false} RestoredStart(c: Copy, s: State)
    requires c.torn < TAIL_WINDOW
    ensures var r := Restored(c, s); StartOffset(Next(r, Open)) == r.hist.bound == Next(r, Open).hist.bound
  {
    if s.mark.Some? && Boundary(c.lines, s.mark.value.off) { BoundaryInFile(c.lines, s.mark.value.off); }
  }

  /** The restart on the restored files, up to the first moment it accepts requests. */
  const RESTART: seq<Event> := [Open, Load, Save]

  lemma {:induction false} RestartSteps(r: State)
    requires r.proc.Down? && IsRun(r, [Open, Load]) && Enabled(Run(r, [Open, Load]), Save)
    ensures IsRun(r, RESTART) && Run(r, RESTART) == Next(Run(r, [Open, Load]), Save)
  {
    RunSnoc(r, [Open, Load], Save);
    assert [Open, Load] + [Save] == RESTART;
  }

  /** A restart that records the boundary, followed by a run whose crashes avoid the two
      windows, meets the condition at every restart. */
  lemma {:induction false} RestartIsSafe(c: Copy, s: State, after: seq<Event>)
    requires Inv(Restored(c, s)) && c.torn < TAIL_WINDOW
    ensures IsRun(Restored(c, s), RESTART)
    ensures var t := Run(Restored(c, s), RESTART);
            IsRun(t, after) && HarmlessRun(t, after) ==> IsRun(Restored(c, s), RESTART + after) && SafeRun(Restored(c, s), RESTART + after)
  {
    var r := Restored(c, s);
    var o := Next(r, Open);
    RestoredStart(c, s);
    StepFile(r, Open);
    ShownIs(o);
    NoneBetween(o.disk.lines, Shown(o), StartOffset(o));
    RunPair(r, Open, Load);
    RestartSteps(r);
    var t := Run(r, RESTART);
    FileRun(r, RESTART);
    if IsRun(t, after) && HarmlessRun(t, after) {
      RunConcat(r, RESTART, after);
      HarmlessIsSafe(t, after);
      SafeAfterRestart(r, o, after);
    }
  }

  lemma {:induction false} SafeAfterRestart(r: State, o: State, after: seq<Event>)
    requires r.proc.Down? && o == Next(r, Open) && IsRun(r, RESTART + after)
    requires Safe(r, Open) && Enabled(o, Load) && Safe(o, Load) && Enabled(Next(o, Load), Save)
    requires IsRun(Next(Next(o, Load), Save), after) && SafeRun(Next(Next(o, Load), Save), after)
    ensures SafeRun(r, RESTART + after)
  {
    var es := RESTART + after;
    assert es[1..][0] == Load && es[1..][1..][0] == Save && es[1..][1..][1..] == after;
  }

  // ---------------------------------------------------------------------------
  // Exactly when a backup counts once
  // ---------------------------------------------------------------------------

  lemma {:induction false} JournaledGrows(s: State, es: seq<Event>)
    requires IsRun(s, es)
    ensures s.hist.journaled <= Run(s, es).hist.journaled
    decreases |es|
  {
    if es != [] { JournaledGrows(Next(s, es[0]), es[1..]); }
  }

  /** Only records of the copy can be replayed although they are rolled up. */
  ghost predicate ReplaysOnly(s: State, ids: set<Label>) {
    forall id :: id in Bag(s.hist.folded) && id in Bag(Pending(s)) ==> id in ids
  }

  lemma {:induction false} ReplaysOnlyStep(s: State, e: Event, ids: set<Label>)
    requires Inv(s) && Enabled(s, e) && Covered(s, e) && ReplaysOnly(s, ids)
    ensures ReplaysOnly(Next(s, e), ids)
  {
    if e.Open? {
      OpenPending(s);
    } else if e.Load? {
      LoadPending(s);
      SuffixBag(Pending(s), Pending(Next(s, Load)));
    } else if e.Commit? {
      CommitReplaysOnly(s, ids);
    } else if Neutral(e) {
      NeutralPending(s, e);
      NeutralHistory(s, e);
    } else {
      ArrivalReplaysOnly(s, e, ids);
    }
  }

  lemma {:induction false} CommitReplaysOnly(s: State, ids: set<Label>)
    requires Inv(s) && Enabled(s, Commit) && Covered(s, Commit) && ReplaysOnly(s, ids)
    ensures ReplaysOnly(Next(s, Commit), ids)
  {
    CommitHistory(s);
    var part, rest, over, keep := CommitParts(s);
    BagConcat(part, rest);
    BagConcat(over, keep);
    BagConcat(part, over);
    forall id | id in Bag(rest) ensures id in Bag(Pending(s)) && id !in Bag(part + over) {
      assert Bag(part + rest)[id] + Bag(over + keep)[id] <= 1;
    }
  }

  lemma {:induction false} ArrivalReplaysOnly(s: State, e: Event, ids: set<Label>)
    requires Inv(s) && Enabled(s, e) && (e.Append? || e.WriteFails? || e.Upkeep?) && ReplaysOnly(s, ids)
    ensures ReplaysOnly(Next(s, e), ids)
  {
    match e {
      case Append(l) =>
        PendingAppend(s.disk.lines, l, s.hist.bound);
        if l.rec.Some? { BagSnoc(Pending(s), l.rec.value); } else { assert Pending(Next(s, e)) == Pending(s); }
      case WriteFails(rec) => WriteFailsPending(s, rec);
      case Upkeep(u) => UpkeepKeepsIds(s, u);
    }
  }

  /** A commit that finds the row of a replayed record gone counts a record of the copy twice,
      for good. */
  lemma {:induction false} UncoveredRun(s: State, es: seq<Event>, ids: set<Label>) returns (id: Label)
    requires Inv(s) && IsRun(s, es) && !CoveredRun(s, es) && ReplaysOnly(s, ids)
    ensures id in ids && Bag(Run(s, es).hist.folded)[id] >= 2
    decreases |es|
  {
    var t := Next(s, es[0]);
    if Covered(s, es[0]) {
      ReplaysOnlyStep(s, es[0], ids);
      StepKeeps(s, es[0]);
      id := UncoveredRun(t, es[1..], ids);
    } else {
      id := UncoveredTwice(s);
      FoldedGrowsRun(t, es[1..]);
    }
  }

  /** What a restored store, drained after any safe run, has counted of the copy. */
  lemma {:induction false} DrainedCounts(c: Copy, r: State, after: seq<Event>)
    requires Inv(r) && r.hist.journaled == IdSet(c.lines) && ReplaysOnly(r, IdSet(c.lines))
    requires IsRun(r, after) && SafeRun(r, after) && Pending(Run(r, after)) == []
    ensures var t := Run(r, after);
            && (CoveredRun(r, after) ==> Accounted(t))
            && ((forall id :: id in IdSet(c.lines) ==> Bag(t.hist.folded)[id] == 1) <==> NothingLost(r) && CoveredRun(r, after))
  {
    var t := Run(r, after);
    JournaledGrows(r, after);
    if !CoveredRun(r, after) {
      var id := UncoveredRun(r, after, IdSet(c.lines));
    } else {
      CoveredRunKeeps(r, after);
      BookedAccounted(t);
      if NothingLost(r) {
        SafeRunKeeps(r, after);
        forall id | id in IdSet(c.lines) ensures Bag(t.hist.folded)[id] == 1 { assert id in t.hist.journaled; }
      } else {
        var id :| id in r.hist.journaled && id !in Bag(r.hist.folded) && id !in Bag(Pending(r));
        StaysLostRun(r, after, id);
      }
    }
  }

  lemma {:induction false} CoveredRunKeeps(s: State, es: seq<Event>)
    requires Inv(s) && IsRun(s, es) && CoveredRun(s, es)
    ensures Inv(Run(s, es))
    decreases |es|
  {
    if es != [] {
      StepKeeps(s, es[0]);
      CoveredRunKeeps(Next(s, es[0]), es[1..]);
    }
  }

  lemma {:induction false} RestoredReplaysOnly(c: Copy, s: State)
    ensures ReplaysOnly(Restored(c, s), IdSet(c.lines))
  {
    RecsInFile(c.lines, Restored(c, s).hist.bound);
  }

  /** Whatever happened before the copy, between the copy and the snapshot (appends, commits,
      rotations, failed writes of the boundary, upkeep) and after the restore, once the restored
      journal is drained every record complete in the copy is rolled up exactly once if and only
      if the derived checkpoint skips none and each record that is replayed although it is
      rolled up still has its row when its batch is committed. */
  lemma {:induction false} BackupCountsOnce(before: seq<Event>, c: Copy, during: seq<Event>, after: seq<Event>)
    requires IsRun(START, before) && SafeRun(START, before) && CopiedFrom(c, Run(START, before))
    requires IsRun(Run(START, before), during) && CrashFree(during)
    requires var r := Restored(c, Run(Run(START, before), during));
             IsRun(r, after) && SafeRun(r, after) && Pending(Run(r, after)) == []
    ensures var snap := Run(Run(START, before), during); var r := Restored(c, snap); var t := Run(r, after);
            && (CoveredRun(r, after) ==> Accounted(t))
            && ((forall id :: id in IdSet(c.lines) ==> Bag(t.hist.folded)[id] == 1)
                <==> !Skips(c, snap, Cuts(during)) && CoveredRun(r, after))
  {
    var snap := Run(Run(START, before), during);
    SnapshotSound(before, c, during);
    RestoredInv(c, snap, Cuts(during));
    RestoredExact(c, snap, Cuts(during));
    RestoredReplaysOnly(c, snap);
    DrainedCounts(c, Restored(c, snap), after);
  }

  lemma {:induction false} SnapshotSound(before: seq<Event>, c: Copy, during: seq<Event>)
    requires IsRun(START, before) && SafeRun(START, before) && CopiedFrom(c, Run(START, before))
    requires IsRun(Run(START, before), during) && CrashFree(during)
    ensures var snap := Run(Run(START, before), during);
            Inv(snap) && Single(snap) && NothingLost(snap) && Distinct(snap) && Tracks(c, snap, Cuts(during))
  {
    var live := Run(START, before);
    StartInv();
    RunKeeps(START, before);
    SafeFrom(START, before);
    DistinctRun(START, before);
    CopyTracks(c, live);
    TracksRun(c, live, false, during);
    DistinctRun(live, during);
  }

  // ---------------------------------------------------------------------------
  // Boundaries that were recorded
  // ---------------------------------------------------------------------------

  /** The database records the boundary of the running store, or the next generation that its
      rotation has announced. */
  predicate Recorded(s: State) {
    s.proc.Up? && (s.mark == Some(Mark(s.proc.gen, s.hist.bound)) || s.proc.phase.Rotating?)
  }

  /** The generation counts the cuts. */
  predicate GenTracks(g: int, s: State, cut: bool) { s.proc.Up? && (if cut then s.proc.gen > g else s.proc.gen == g) }

  lemma {:induction false} GenTracksStep(g: int, s: State, cut: bool, e: Event)
    requires GenTracks(g, s, cut) && Enabled(s, e) && !e.Crash? && !e.CrashWriting?
    requires !s.proc.phase.Opened? && !s.proc.phase.Rewriting? && !s.proc.phase.Loaded?
    ensures GenTracks(g, Next(s, e), cut || e.Truncate?)
  {
  }

  lemma {:induction false} GenTracksRun(g: int, s: State, cut: bool, es: seq<Event>)
    requires GenTracks(g, s, cut) && IsRun(s, es) && CrashFree(es)
    requires !s.proc.phase.Opened? && !s.proc.phase.Rewriting? && !s.proc.phase.Loaded?
    ensures GenTracks(g, Run(s, es), cut || Cuts(es))
    decreases |es|
  {
    if es != [] {
      assert es == [es[0]] + es[1..] && es[0] in es;
      GenTracksStep(g, s, cut, es[0]);
      RunningLines(s, es[0]);
      GenTracksRun(g, Next(s, es[0]), cut || es[0].Truncate?, es[1..]);
    }
  }

  /** When the copy carries the store's own generation and the snapshot's boundary is recorded,
      the derived checkpoint is how far the copy is rolled up. */
  lemma {:induction false} RecordedIsExact(c: Copy, s: State, cut: bool)
    requires FileInv(s) && Tracks(c, s, cut) && GenTracks(c.gen0, s, cut) && Recorded(s)
    ensures RestoredCheckpoint(Some(Size(c.lines)), s.mark, c.gen0) == TrueStart(c, s, cut)
    ensures !Skips(c, s, cut) && !Replays(c, s, cut)
  {
    if !cut {
      assert s.disk.lines == c.lines + s.disk.lines[|c.lines|..];
      SizeConcat(c.lines, s.disk.lines[|c.lines|..]);
    }
    NoneBetween(c.lines, TrueStart(c, s, cut), TrueStart(c, s, cut));
  }

  /** Then the backup counts every record once, whatever rows are purged afterwards. */
  lemma {:induction false} RecordedCountsOnce(before: seq<Event>, c: Copy, during: seq<Event>, after: seq<Event>)
    requires IsRun(START, before) && SafeRun(START, before) && CopiedFrom(c, Run(START, before))
    requires IsRun(Run(START, before), during) && CrashFree(during)
    requires c.gen0 == Run(START, before).proc.gen && Recorded(Run(Run(START, before), during))
    requires var r := Restored(c, Run(Run(START, before), during));
             IsRun(r, after) && SafeRun(r, after) && Pending(Run(r, after)) == []
    ensures var t := Run(Restored(c, Run(Run(START, before), during)), after);
            Accounted(t) && forall id :: id in IdSet(c.lines) ==> Bag(t.hist.folded)[id] == 1
  {
    var live := Run(START, before);
    var snap := Run(live, during);
    SnapshotSound(before, c, during);
    GenTracksRun(c.gen0, live, false, during);
    RecordedIsExact(c, snap, Cuts(during));
    RestoredInv(c, snap, Cuts(during));
    RestoredExact(c, snap, Cuts(during));
    SingleCoveredRun(Restored(c, snap), after);
    BackupCountsOnce(before, c, during, after);
  }

  /** Unless saving the boundary fails, at start or after a rotation that could not cut the
      file, it is recorded whenever requests are accepted. */
  predicate SavesAll(es: seq<Event>) { forall e :: e in es ==> !e.SaveFails? && !e.PutBackFails? }

  predicate RecordedWhenRunning(s: State) {
    s.proc.Up? && !s.proc.phase.Opened? && !s.proc.phase.Rewriting? && !s.proc.phase.Loaded? ==> Recorded(s)
  }

  lemma {:induction false} RecordedStep(s: State, e: Event)
    requires FileInv(s) && RecordedWhenRunning(s) && Enabled(s, e) && !e.SaveFails? && !e.PutBackFails?
    ensures RecordedWhenRunning(Next(s, e))
  {
  }

  lemma {:induction false} RecordedRun(s: State, es: seq<Event>)
    requires FileInv(s) && RecordedWhenRunning(s) && IsRun(s, es) && SavesAll(es)
    ensures RecordedWhenRunning(Run(s, es))
    decreases |es|
  {
    if es != [] {
      assert es[0] in es;
      StepFile(s, es[0]);
      RecordedStep(s, es[0]);
      RecordedRun(Next(s, es[0]), es[1..]);
    }
  }

  /** So a run in which every such write succeeds meets the condition at any copy and snapshot. */
  lemma {:induction false} SavedIsRecorded(before: seq<Event>, c: Copy, during: seq<Event>)
    requires IsRun(START, before) && SafeRun(START, before) && CopiedFrom(c, Run(START, before))
    requires IsRun(Run(START, before), during) && CrashFree(during) && SavesAll(before) && SavesAll(during)
    requires c.gen0 == Generation(Run(START, before).mark)
    ensures c.gen0 == Run(START, before).proc.gen && Recorded(Run(Run(START, before), during))
  {
    StartInv();
    RecordedRun(START, before);
    FileRun(START, before);
    RecordedRun(Run(START, before), during);
    SnapshotSound(before, c, during);
  }

  /** Without a recorded boundary, or with one behind, everything is replayed and nothing
      skipped: the restore then relies on deduplication by request id. */
  lemma {:induction false} BehindReplays(c: Copy, s: State, cut: bool)
    requires s.mark.None? || (s.mark.value.gen == c.gen0 && s.mark.value.off <= TrueStart(c, s, cut))
    ensures !Skips(c, s, cut)
  {
    NoneBetween(c.lines, TrueStart(c, s, cut), RestoredCheckpoint(Some(Size(c.lines)), s.mark, c.gen0));
  }

  /** A restored journal opens without losing a record of the copy exactly when its torn bytes
      leave a newline in the opening window or nothing is left to replay. */
  lemma {:induction false} TornCopyLoses(c: Copy, s: State, cut: bool)
    requires Inv(s) && Single(s) && NothingLost(s) && Distinct(s) && Tracks(c, s, cut)
    requires !Skips(c, s, cut) && !Replays(c, s, cut)
    ensures NothingLost(Next(Restored(c, s), Open)) <==> c.torn < TAIL_WINDOW || Pending(Restored(c, s)) == []
  {
    RestoredInv(c, s, cut);
    RestoredExact(c, s, cut);
    OpenLoses(Restored(c, s));
  }
}

/** What every run of the journal keeps: each record is rolled up at most once, whatever
    crashes and whatever writes fail, and stays counted whatever is purged, trimmed, rebuilt or
    stamped; a record is lost exactly at two kinds of restart step; a drain that ends cleanly
    has rolled up everything journaled before it read. */
module JournalSafety {
  import opened Usage
  import opened Ledger
  import opened Wrappers
  import opened RollupLaws
  import opened Journal

  /** How often each request id occurs. */
  function Bag(logs: seq<CallLog>): multiset<Label> {
    if logs == [] then multiset{} else Bag(logs[..|logs| - 1]) + multiset{logs[|logs| - 1].requestId}
  }

  lemma {:induction false} BagConcat(a: seq<CallLog>, b: seq<CallLog>)
    ensures Bag(a + b) == Bag(a) + Bag(b)
  {
    if b == [] {
      assert a + b == a;
    } else {
      assert (a + b)[..|a + b| - 1] == a + b[..|b| - 1];
      BagConcat(a, b[..|b| - 1]);
    }
  }

  lemma {:induction false} BagMembers(a: seq<CallLog>)
    ensures forall l :: l in a ==> l.requestId in Bag(a)
    ensures forall id :: id in Bag(a) ==> exists l :: l in a && l.requestId == id
  {
    if a != [] {
      var init, last := a[..|a| - 1], a[|a| - 1];
      BagMembers(init);
      assert a == init + [last];
    }
  }

  lemma {:induction false} BagNormalized(a: seq<CallLog>)
    ensures Bag(NormalizeAll(a)) == Bag(a)
  {
    if a != [] {
      var init, last := a[..|a| - 1], a[|a| - 1];
      BagNormalized(init);
      NormalizeLaws(last);
      BagConcat(NormalizeAll(init), [Normalize(last)]);
      BagOne(Normalize(last));
    }
  }

  lemma {:induction false} BagOne(l: CallLog)
    ensures Bag([l]) == multiset{l.requestId}
  {
    assert [l][..|[l]| - 1] == [];
  }

  lemma {:induction false} BagOccurs(a: seq<CallLog>, i: nat, j: nat)
    requires i < j < |a| && a[i].requestId == a[j].requestId
    ensures Bag(a)[a[i].requestId] >= 2
  {
    var init := a[..|a| - 1];
    if j == |a| - 1 {
      BagMembers(init);
      assert init[i] in init;
    } else {
      BagOccurs(init, i, j);
    }
  }

  lemma {:induction false} FreshDistinct(batch: seq<CallLog>, known: set<Label>)
    requires forall i, j :: 0 <= i < j < |batch| ==> batch[i].requestId != batch[j].requestId
    requires forall i :: 0 <= i < |batch| ==> batch[i].requestId !in known
    ensures Fresh(batch, known) == batch
  {
    if batch != [] {
      FreshDistinct(batch[..|batch| - 1], known);
    }
  }

  /** A batch of distinct, unknown ids loses nothing to deduplication. */
  lemma {:induction false} FreshAll(batch: seq<CallLog>, known: set<Label>)
    requires forall id :: Bag(batch)[id] <= 1
    requires forall id :: id in Bag(batch) ==> id !in known
    ensures Fresh(batch, known) == batch
  {
    forall i, j | 0 <= i < j < |batch| ensures batch[i].requestId != batch[j].requestId {
      if batch[i].requestId == batch[j].requestId { BagOccurs(batch, i, j); }
    }
    BagMembers(batch);
    FreshDistinct(batch, known);
  }

  lemma {:induction false} FreshBag(batch: seq<CallLog>, known: set<Label>)
    requires forall id :: Bag(batch)[id] <= 1
    ensures forall id :: Bag(Fresh(batch, known))[id] == if id in known then 0 else Bag(batch)[id]
  {
    if batch != [] {
      var init, l := batch[..|batch| - 1], batch[|batch| - 1];
      assert Bag(batch) == Bag(init) + multiset{l.requestId};
      forall id ensures Bag(init)[id] <= Bag(batch)[id] {}
      FreshBag(init, known);
      FreshBagLast(init, l, known);
    }
  }

  lemma {:induction false} FreshBagLast(init: seq<CallLog>, l: CallLog, known: set<Label>)
    requires Bag(init)[l.requestId] == 0
    ensures l.requestId !in Ids(init)
    ensures Bag(Fresh(init, known) + [l]) == Bag(Fresh(init, known)) + multiset{l.requestId}
  {
    BagMembers(init);
    BagSnoc(Fresh(init, known), l);
  }

  // ---------------------------------------------------------------------------
  // The invariant of every run
  // ---------------------------------------------------------------------------

  /** The records in the file that are not rolled up. */
  function Pending(s: State): seq<CallLog> { Recs(Tail(s.disk.lines, s.hist.bound)) }

  /** The records held in memory only that are not rolled up. */
  function OverflowPending(s: State): seq<CallLog> {
    if s.proc.Down? then []
    else if s.proc.phase.Committed? && s.proc.phase.took <= |s.proc.overflow| then s.proc.overflow[s.proc.phase.took..]
    else s.proc.overflow
  }

  /** A stored boundary that belongs to the current file gives back how far it is rolled up. */
  predicate Recoverable(s: State) {
    || s.hist.bound == 0
    || (s.hist.ckptNew && s.disk.ckpt == Some(s.hist.bound))
    || (s.hist.markNew && s.mark.Some? && s.mark.value.off == s.hist.bound && Boundary(s.disk.lines, s.hist.bound))
  }

  /** No stored boundary that belongs to the current file is ahead of what is rolled up. */
  predicate Current(s: State) {
    && (s.hist.ckptNew && s.disk.ckpt.Some? ==> s.disk.ckpt.value <= s.hist.bound)
    && (s.hist.markNew && s.mark.Some? ==> s.mark.value.off <= s.hist.bound)
  }

  predicate CkptStored(s: State)
    requires s.proc.Up?
  {
    s.proc.ckpt == 0 || (s.hist.ckptNew && s.disk.ckpt == Some(s.proc.ckpt))
  }

  predicate Steady(s: State)
    requires s.proc.Up?
  {
    s.hist.bound == s.proc.ckpt && CkptStored(s)
  }

  /** The records read, and the offset they were read up to. */
  predicate ReadOk(s: State, part: seq<CallLog>, next: nat)
    requires s.proc.Up?
  {
    && s.proc.ckpt <= next <= s.proc.size
    && Pending(s) == part + Recs(Tail(s.disk.lines, next))
    && Boundary(s.disk.lines, next)
  }

  predicate PhaseOk(s: State)
    requires s.proc.Up?
  {
    match s.proc.phase
    case Opened => s.proc.overflow == [] && s.proc.ckpt == FileStart(s.disk) && Recoverable(s)
    case Rewriting =>
      && s.proc.overflow == [] && s.hist.bound == s.proc.ckpt && s.hist.markNew
      && s.mark.Some? && s.mark.value.off == s.hist.bound && Boundary(s.disk.lines, s.hist.bound)
    case Loaded => s.proc.overflow == [] && Steady(s)
    case Idle => Steady(s)
    case Reading(batch, next, _) => Steady(s) && |batch| <= BATCH_MAX && ReadOk(s, batch, next)
    case Taken(batch, next, took, _) =>
      && Steady(s) && took <= |batch| && took <= |s.proc.overflow|
      && batch[|batch| - took..] == s.proc.overflow[..took]
      && ReadOk(s, batch[..|batch| - took], next)
    case Committed(next, took) =>
      && took <= |s.proc.overflow| && s.hist.bound == next
      && s.mark == Some(Mark(s.proc.gen, next)) && s.hist.markNew
      && Boundary(s.disk.lines, next)
    case Rotating =>
      && s.hist.bound == s.proc.ckpt == s.proc.size > 0 && CkptStored(s)
      && s.mark == Some(Mark(s.proc.gen + 1, 0))
    case Truncated =>
      && s.disk.lines == [] && s.hist.bound == s.proc.ckpt == 0 && s.mark == Some(Mark(s.proc.gen, 0))
  }

  /** No id is rolled up twice, none waits twice, every id was issued, what waits in the file
      was journaled, and what waits in memory only was neither journaled nor rolled up. */
  ghost predicate Once(folded: seq<CallLog>, pending: seq<CallLog>, overflow: seq<CallLog>, issued: set<Label>, journaled: set<Label>) {
    && (forall id :: Bag(folded)[id] <= 1 && Bag(pending)[id] + Bag(overflow)[id] <= 1)
    && (forall id :: id in Bag(folded) || id in Bag(pending) || id in Bag(overflow) ==> id in issued)
    && (forall id :: id in Bag(pending) ==> id in journaled)
    && (forall id :: id in Bag(overflow) ==> id !in journaled && id !in Bag(folded))
    && journaled <= issued
  }

  /** Nothing that waits in the file is rolled up already. */
  ghost predicate Apart(folded: seq<CallLog>, pending: seq<CallLog>) { forall id :: id in Bag(folded) ==> id !in Bag(pending) }

  ghost predicate Single(s: State) { Apart(s.hist.folded, Pending(s)) }

  /** A record of a batch that is rolled up already still has its row, by which the commit
      knows it. */
  ghost predicate Covers(folded: seq<CallLog>, batch: seq<CallLog>, known: set<Label>) {
    forall id :: id in Bag(batch) && id in Bag(folded) ==> id in known
  }

  ghost predicate Covered(s: State, e: Event)
    requires Enabled(s, e)
  {
    e.Commit? ==> Covers(s.hist.folded, s.proc.phase.batch, Ids(s.db.rows))
  }

  ghost predicate Counting(s: State) {
    Once(s.hist.folded, Pending(s), OverflowPending(s), s.hist.issued, s.hist.journaled)
  }

  /** The tables keep to what was rolled up, as every run of them does. */
  ghost predicate Booked(s: State) { LedgerRuns.Inv(Books(s)) }

  /** Every stored row is a log that was rolled up. */
  ghost predicate Known(db: Db, folded: seq<CallLog>) { forall l :: l in db.rows ==> l.requestId in Bag(folded) }

  lemma {:induction false} BookedKnown(s: State)
    requires Booked(s)
    ensures Known(s.db, s.hist.folded)
  {
    LedgerRuns.StoredMembers(s.hist.folded, s.hist.stored);
    BagMembers(s.hist.folded);
  }

  predicate FileInv(s: State) {
    && s.hist.bound <= Size(s.disk.lines) && Current(s)
    && (s.proc.Down? ==> Recoverable(s))
    && (s.proc.Up? ==> s.proc.size == Size(s.disk.lines) && s.disk.torn == 0 && s.proc.ckpt <= s.proc.size && PhaseOk(s))
  }

  ghost predicate Inv(s: State) {
    Counting(s) && Booked(s) && FileInv(s)
  }

  /** Nothing journaled has gone missing: it is rolled up or still waiting in the file. */
  ghost predicate NothingLost(s: State) {
    Delivered(s.hist.journaled, s.hist.folded, Pending(s))
  }

  ghost predicate Delivered(journaled: set<Label>, folded: seq<CallLog>, pending: seq<CallLog>) {
    forall id :: id in journaled ==> id in Bag(folded) || id in Bag(pending)
  }

  // ---------------------------------------------------------------------------
  // Counting, apart from the machine
  // ---------------------------------------------------------------------------

  lemma {:induction false} OnceLess(f: seq<CallLog>, p: seq<CallLog>, o: seq<CallLog>, p2: seq<CallLog>, o2: seq<CallLog>, issued: set<Label>, journaled: set<Label>)
    requires Once(f, p, o, issued, journaled)
    requires Bag(p2) <= Bag(p) && Bag(o2) <= Bag(o)
    ensures Once(f, p2, o2, issued, journaled)
    ensures Apart(f, p) ==> Apart(f, p2)
  {
    forall id ensures Bag(p2)[id] <= Bag(p)[id] && Bag(o2)[id] <= Bag(o)[id] {}
  }

  lemma {:induction false} OnceJournaled(f: seq<CallLog>, p: seq<CallLog>, o: seq<CallLog>, l: CallLog, issued: set<Label>, journaled: set<Label>)
    requires Once(f, p, o, issued, journaled) && l.requestId !in issued
    ensures Once(f, p + [l], o, issued + {l.requestId}, journaled + {l.requestId})
  {
    BagSnoc(p, l);
  }

  lemma {:induction false} ApartJournaled(f: seq<CallLog>, p: seq<CallLog>, l: CallLog, journaled: set<Label>)
    requires l.requestId !in Bag(f)
    ensures Apart(f, p) ==> Apart(f, p + [l])
    ensures Delivered(journaled, f, p) ==> Delivered(journaled + {l.requestId}, f, p + [l])
  {
    BagSnoc(p, l);
  }

  lemma {:induction false} OnceInMemory(f: seq<CallLog>, p: seq<CallLog>, o: seq<CallLog>, l: CallLog, issued: set<Label>, journaled: set<Label>)
    requires Once(f, p, o, issued, journaled) && l.requestId !in issued
    ensures Once(f, p, o + [l], issued + {l.requestId}, journaled)
    ensures Once(f, p, o, issued + {l.requestId}, journaled)
  {
    BagSnoc(o, l);
  }

  lemma {:induction false} BagSnoc(a: seq<CallLog>, l: CallLog)
    ensures Bag(a + [l]) == Bag(a) + multiset{l.requestId}
  {
    assert (a + [l])[..|a + [l]| - 1] == a;
  }

  /** What a commit adds to the rolled-up logs: the records of the batch not rolled up yet, as
      long as the others still have their rows. */
  lemma {:induction false} CommitAdds(f: seq<CallLog>, batch: seq<CallLog>, db: Db)
    requires (forall id :: Bag(f)[id] <= 1 && Bag(batch)[id] <= 1) && Known(db, f)
    requires Covers(f, batch, Ids(db.rows))
    ensures var g := f + NormalizeAll(Fresh(batch, Ids(db.rows)));
            forall id :: Bag(g)[id] == Bag(f)[id] + (if id in Bag(f) then 0 else Bag(batch)[id])
  {
    var added := Fresh(batch, Ids(db.rows));
    FreshBag(batch, Ids(db.rows));
    BagNormalized(added);
    BagConcat(f, NormalizeAll(added));
    forall id ensures id in Ids(db.rows) ==> id in Bag(f) {}
  }

  /** A batch made of records from the file and records from memory moves to the counted side. */
  lemma {:induction false} OnceCommitted(f: seq<CallLog>, g: seq<CallLog>, part: seq<CallLog>, rest: seq<CallLog>, over: seq<CallLog>,
                      keep: seq<CallLog>, issued: set<Label>, journaled: set<Label>)
    requires Once(f, part + rest, over + keep, issued, journaled)
    requires forall id :: Bag(g)[id] == Bag(f)[id] + (if id in Bag(f) then 0 else Bag(part + over)[id])
    ensures Once(g, rest, keep, issued, journaled) && (Apart(f, part + rest) ==> Apart(g, rest))
    ensures Delivered(journaled, f, part + rest) ==> Delivered(journaled, g, rest)
  {
    BagConcat(part, rest);
    BagConcat(over, keep);
    BagConcat(part, over);
    forall id
      ensures Bag(g)[id] <= 1 && Bag(rest)[id] + Bag(keep)[id] <= 1
      ensures id in Bag(g) <==> id in Bag(f) || id in Bag(part) || id in Bag(over)
      ensures id in Bag(part) || id in Bag(over) ==> id !in Bag(rest) && id !in Bag(keep)
    {
      assert Bag(part + rest)[id] + Bag(over + keep)[id] <= 1;
    }
  }

  /** At commit time deduplication never fires: every record of the batch is new. */
  lemma {:induction false} CommitIsAllFresh(f: seq<CallLog>, part: seq<CallLog>, rest: seq<CallLog>, over: seq<CallLog>, keep: seq<CallLog>,
                         issued: set<Label>, journaled: set<Label>, db: Db)
    requires Once(f, part + rest, over + keep, issued, journaled) && Apart(f, part + rest) && Known(db, f)
    ensures Fresh(part + over, Ids(db.rows)) == part + over && Covers(f, part + over, Ids(db.rows))
  {
    BagConcat(part, rest);
    BagConcat(over, keep);
    BagConcat(part, over);
    forall id ensures Bag(part + over)[id] <= 1 && (id in Bag(part + over) ==> id !in Ids(db.rows)) {
      assert Bag(part)[id] + Bag(over)[id] <= 1;
    }
    FreshAll(part + over, Ids(db.rows));
  }

  lemma {:induction false} SuffixBag(a: seq<CallLog>, b: seq<CallLog>)
    requires EndsWith(a, b)
    ensures Bag(a) == Bag(a[..|a| - |b|]) + Bag(b)
  {
    assert a == a[..|a| - |b|] + b;
    BagConcat(a[..|a| - |b|], b);
  }

  /** Dropping the front of what waits loses nothing exactly when the front is empty. */
  lemma {:induction false} DroppedFront(f: seq<CallLog>, p: seq<CallLog>, o: seq<CallLog>, p2: seq<CallLog>, issued: set<Label>, journaled: set<Label>)
    requires Once(f, p, o, issued, journaled) && Apart(f, p) && Delivered(journaled, f, p) && EndsWith(p, p2)
    ensures Delivered(journaled, f, p2) <==> p2 == p
  {
    SuffixBag(p, p2);
    var cut := |p| - |p2|;
    if cut > 0 {
      var id := p[0].requestId;
      BagMembers(p[..cut]);
      assert p[0] in p[..cut];
      assert Bag(p)[id] == Bag(p[..cut])[id] + Bag(p2)[id];
      assert Bag(p)[id] <= 1;
      assert id in journaled && id !in Bag(f) && id !in Bag(p2);
    } else {
      assert p[0..] == p;
    }
  }

  // ---------------------------------------------------------------------------
  // The file side of every step
  // ---------------------------------------------------------------------------

  /** One read splits what waits into the batch and what is left, on a line boundary. */
  lemma {:induction false} ScanSplits(ls: seq<Line>, off: nat)
    requires off <= Size(ls)
    ensures var t := Tail(ls, off); var k := ScanCount(t, BATCH_MAX); var next := off + Size(t[..k]);
            && next <= Size(ls) && Recs(t) == Recs(t[..k]) + Recs(Tail(ls, next)) && |Recs(t[..k])| <= BATCH_MAX
            && Boundary(ls, next)
  {
    var t := Tail(ls, off);
    var k := ScanCount(t, BATCH_MAX);
    TailAdvance(ls, off, k);
    ScanExhausts(t, BATCH_MAX);
    assert t == t[..k] + t[k..];
    RecsConcat(t[..k], t[k..]);
    if k == 0 {
      assert t[..0] == [] && t == [];
      EmptyTailIsEnd(ls, off);
    }
  }

  lemma {:induction false} ReadBatchFile(s: State)
    requires FileInv(s) && Enabled(s, ReadBatch)
    ensures FileInv(Next(s, ReadBatch))
  {
    ScanSplits(s.disk.lines, s.proc.ckpt);
    var t := Next(s, ReadBatch);
    assert ReadOk(t, t.proc.phase.batch, t.proc.phase.next);
  }

  lemma {:induction false} TakeFile(s: State)
    requires FileInv(s) && Enabled(s, Take)
    ensures FileInv(Next(s, Take))
  {
    var p, q := s.proc.phase, Next(s, Take).proc.phase;
    assert q.batch[..|q.batch| - q.took] == p.batch;
    assert q.batch[|q.batch| - q.took..] == s.proc.overflow[..q.took];
  }

  lemma {:induction false} StartFile(s: State, e: Event)
    requires FileInv(s) && Enabled(s, e) && (e.Open? || e.Rewrite? || e.Save? || e.SaveFails?)
    ensures FileInv(Next(s, e))
  {
  }

  lemma {:induction false} CrashFile(s: State, e: Event)
    requires FileInv(s) && Enabled(s, e) && (e.Crash? || e.CrashWriting?)
    ensures FileInv(Next(s, e))
  {
  }

  predicate Rotates(e: Event) { e.RotateMark? || e.Truncate? || e.TruncateFails? || e.PutBackFails? || e.Reset? }

  lemma {:induction false} RotateFile(s: State, e: Event)
    requires FileInv(s) && Enabled(s, e) && Rotates(e)
    ensures FileInv(Next(s, e))
  {
  }

  lemma {:induction false} PassFile(s: State, e: Event)
    requires FileInv(s) && Enabled(s, e) && (e.CommitFails? || e.Rest? || e.Finish?)
    ensures FileInv(Next(s, e))
  {
  }

  lemma {:induction false} CommitFile(s: State)
    requires FileInv(s) && Enabled(s, Commit)
    ensures FileInv(Next(s, Commit))
  {
    var p := s.proc.phase;
    assert ReadOk(s, p.batch[..|p.batch| - p.took], p.next);
  }

  lemma {:induction false} SameFile(s: State, t: State)
    requires FileInv(s) && t.disk == s.disk && t.mark == s.mark && t.proc == s.proc && t.hist.bound == s.hist.bound
    requires t.hist.ckptNew == s.hist.ckptNew && t.hist.markNew == s.hist.markNew
    ensures FileInv(t)
  {
  }

  lemma {:induction false} AppendReadOk(s: State, l: Line, part: seq<CallLog>, next: nat)
    requires Enabled(s, Append(l)) && s.hist.bound <= Size(s.disk.lines) == s.proc.size && ReadOk(s, part, next)
    ensures ReadOk(Next(s, Append(l)), part, next)
  {
    PendingAppend(s.disk.lines, l, s.hist.bound);
    PendingAppend(s.disk.lines, l, next);
    TailAppend(s.disk.lines, l, next);
  }

  lemma {:induction false} PendingAppend(ls: seq<Line>, l: Line, off: nat)
    requires off <= Size(ls)
    ensures Recs(Tail(ls + [l], off)) == Recs(Tail(ls, off)) + (if l.rec.Some? then [l.rec.value] else [])
  {
    TailAppend(ls, l, off);
    RecsConcat(Tail(ls, off), [l]);
    assert [l][1..] == [];
  }

  lemma {:induction false} AppendSize(ls: seq<Line>, l: Line)
    ensures Size(ls + [l]) == Size(ls) + l.len
  {
    SizeConcat(ls, [l]);
    assert [l][1..] == [];
  }

  lemma {:induction false} AppendFile(s: State, l: Line)
    requires FileInv(s) && Enabled(s, Append(l))
    ensures FileInv(Next(s, Append(l)))
  {
    AppendSize(s.disk.lines, l);
    AppendPhase(s, l);
  }

  lemma {:induction false} AppendPhase(s: State, l: Line)
    requires FileInv(s) && Enabled(s, Append(l))
    ensures PhaseOk(Next(s, Append(l)))
  {
    if s.proc.phase.Reading? || s.proc.phase.Taken? {
      AppendWhileReading(s, l);
    } else if s.proc.phase.Committed? {
      TailAppend(s.disk.lines, l, s.proc.phase.next);
    }
  }

  lemma {:induction false} AppendWhileReading(s: State, l: Line)
    requires FileInv(s) && Enabled(s, Append(l)) && (s.proc.phase.Reading? || s.proc.phase.Taken?)
    ensures PhaseOk(Next(s, Append(l)))
  {
    var p := s.proc.phase;
    AppendReadOk(s, l, if p.Reading? then p.batch else p.batch[..|p.batch| - p.took], p.next);
  }

  lemma {:induction false} WriteFailsFile(s: State, rec: CallLog)
    requires FileInv(s) && Enabled(s, WriteFails(rec))
    ensures FileInv(Next(s, WriteFails(rec)))
  {
    var t, p := Next(s, WriteFails(rec)), s.proc.phase;
    if p.Reading? || p.Taken? {
      assert ReadOk(t, if p.Reading? then p.batch else p.batch[..|p.batch| - p.took], p.next);
      assert p.Taken? ==> t.proc.overflow[..p.took] == s.proc.overflow[..p.took];
    }
  }

  /** The offset New starts from: the file checkpoint, or the database boundary when that is
      ahead and on a line boundary. */
  function StartOffset(s: State): nat {
    if MarkWins(s, FileStart(s.disk)) then s.mark.value.off else FileStart(s.disk)
  }

  lemma {:induction false} LoadFile(s: State)
    requires FileInv(s) && Enabled(s, Load)
    ensures FileInv(Next(s, Load))
    ensures s.hist.bound <= StartOffset(s) <= Size(s.disk.lines)
    ensures Next(s, Load).proc.ckpt == Next(s, Load).hist.bound == StartOffset(s)
  {
    if MarkWins(s, FileStart(s.disk)) { BoundaryInFile(s.disk.lines, s.mark.value.off); }
  }

  lemma {:induction false} DrainFile(s: State, e: Event)
    requires FileInv(s) && Enabled(s, e)
    requires e.ReadBatch? || e.Take? || e.Commit? || e.CommitFails? || e.Rest? || e.Finish?
    ensures FileInv(Next(s, e))
  {
    if e.ReadBatch? {
      ReadBatchFile(s);
    } else if e.Take? {
      TakeFile(s);
    } else if e.Commit? {
      CommitFile(s);
    } else {
      PassFile(s, e);
    }
  }

  lemma {:induction false} ArrivalFile(s: State, e: Event)
    requires FileInv(s) && Enabled(s, e) && (e.Append? || e.WriteFails? || e.Upkeep?)
    ensures FileInv(Next(s, e))
  {
    match e {
      case Append(l) => AppendFile(s, l);
      case WriteFails(rec) => WriteFailsFile(s, rec);
      case Upkeep(u) => SameFile(s, DoUpkeep(s, u));
    }
  }

  lemma {:induction false} StepFile(s: State, e: Event)
    requires FileInv(s) && Enabled(s, e)
    ensures FileInv(Next(s, e))
  {
    if e.Load? {
      LoadFile(s);
    } else if e.Open? || e.Rewrite? || e.Save? || e.SaveFails? {
      StartFile(s, e);
    } else if Rotates(e) {
      RotateFile(s, e);
    } else if e.Crash? || e.CrashWriting? {
      CrashFile(s, e);
    } else if e.Append? || e.WriteFails? || e.Upkeep? {
      ArrivalFile(s, e);
    } else {
      DrainFile(s, e);
    }
  }

  // ---------------------------------------------------------------------------
  // The counting side of every step
  // ---------------------------------------------------------------------------

  /** Steps after which the same records wait, or fewer of those held in memory only. */
  predicate Neutral(e: Event) {
    !e.Open? && !e.Load? && !e.Append? && !e.WriteFails? && !e.Commit? && !e.Upkeep?
  }

  lemma {:induction false} NeutralHistory(s: State, e: Event)
    requires Enabled(s, e) && Neutral(e)
    ensures var t := Next(s, e);
            && t.hist.folded == s.hist.folded && t.hist.issued == s.hist.issued && t.hist.journaled == s.hist.journaled
            && (!e.Truncate? ==> t.disk.lines == s.disk.lines && t.hist.bound == s.hist.bound)
  {
  }

  lemma {:induction false} NeutralOverflow(s: State, e: Event)
    requires Enabled(s, e) && Neutral(e)
    ensures OverflowPending(Next(s, e)) == OverflowPending(s) || OverflowPending(Next(s, e)) == []
  {
  }

  /** Rotation cuts a file that is all rolled up. */
  lemma {:induction false} TruncatePending(s: State)
    requires FileInv(s) && Enabled(s, Truncate)
    ensures Pending(s) == [] && Pending(Next(s, Truncate)) == []
  {
    TailAtEnd(s.disk.lines);
  }

  lemma {:induction false} NeutralPending(s: State, e: Event)
    requires FileInv(s) && Enabled(s, e) && Neutral(e)
    ensures Pending(Next(s, e)) == Pending(s)
  {
    if e.Truncate? { TruncatePending(s); } else { NeutralHistory(s, e); }
  }

  lemma {:induction false} NeutralCounting(s: State, e: Event)
    requires FileInv(s) && Counting(s) && Enabled(s, e) && Neutral(e)
    ensures Counting(Next(s, e)) && (NothingLost(s) ==> NothingLost(Next(s, e))) && (Single(s) ==> Single(Next(s, e)))
  {
    NeutralPending(s, e);
    NeutralHistory(s, e);
    NeutralOverflow(s, e);
    var t := Next(s, e);
    OnceLess(s.hist.folded, Pending(s), OverflowPending(s), Pending(t), OverflowPending(t), s.hist.issued, s.hist.journaled);
  }

  lemma {:induction false} AppendCounting(s: State, l: Line)
    requires FileInv(s) && Counting(s) && Enabled(s, Append(l))
    ensures Counting(Next(s, Append(l))) && (NothingLost(s) ==> NothingLost(Next(s, Append(l))))
    ensures Single(s) ==> Single(Next(s, Append(l)))
  {
    AppendPending(s, l);
    if l.rec.Some? {
      OnceJournaled(s.hist.folded, Pending(s), OverflowPending(s), l.rec.value, s.hist.issued, s.hist.journaled);
      ApartJournaled(s.hist.folded, Pending(s), l.rec.value, s.hist.journaled);
    }
  }

  lemma {:induction false} AppendPending(s: State, l: Line)
    requires FileInv(s) && Enabled(s, Append(l))
    ensures var t := Next(s, Append(l)); var ids := if l.rec.Some? then {l.rec.value.requestId} else {};
            && OverflowPending(t) == OverflowPending(s) && t.hist.folded == s.hist.folded
            && Pending(t) == (if l.rec.Some? then Pending(s) + [l.rec.value] else Pending(s))
            && t.hist.issued == s.hist.issued + ids && t.hist.journaled == s.hist.journaled + ids
  {
    PendingAppend(s.disk.lines, l, s.hist.bound);
  }

  lemma {:induction false} WriteFailsPending(s: State, rec: CallLog)
    requires FileInv(s) && Enabled(s, WriteFails(rec))
    ensures var t := Next(s, WriteFails(rec));
            t.hist == s.hist.(issued := s.hist.issued + {rec.requestId}) && Pending(t) == Pending(s)
            && (OverflowPending(t) == OverflowPending(s) + [rec] || OverflowPending(t) == OverflowPending(s))
  {
  }

  lemma {:induction false} WriteFailsCounting(s: State, rec: CallLog)
    requires FileInv(s) && Counting(s) && Enabled(s, WriteFails(rec))
    ensures Counting(Next(s, WriteFails(rec))) && (NothingLost(s) ==> NothingLost(Next(s, WriteFails(rec))))
    ensures Single(s) ==> Single(Next(s, WriteFails(rec)))
  {
    WriteFailsPending(s, rec);
    OnceInMemory(s.hist.folded, Pending(s), OverflowPending(s), rec, s.hist.issued, s.hist.journaled);
  }

  /** A committed batch, split into what came from the file and what came from memory. */
  lemma {:induction false} CommitParts(s: State) returns (part: seq<CallLog>, rest: seq<CallLog>, over: seq<CallLog>, keep: seq<CallLog>)
    requires FileInv(s) && Enabled(s, Commit)
    ensures s.proc.phase.batch == part + over && Pending(s) == part + rest && OverflowPending(s) == over + keep
    ensures Pending(Next(s, Commit)) == rest && OverflowPending(Next(s, Commit)) == keep
  {
    var p := s.proc.phase;
    part, over := p.batch[..|p.batch| - p.took], p.batch[|p.batch| - p.took..];
    rest, keep := Recs(Tail(s.disk.lines, p.next)), s.proc.overflow[p.took..];
    assert ReadOk(s, part, p.next);
  }

  lemma {:induction false} BatchIds(s: State)
    requires FileInv(s) && Counting(s) && Enabled(s, Commit)
    ensures forall id :: Bag(s.proc.phase.batch)[id] <= 1
    ensures forall id :: id in Bag(s.proc.phase.batch) ==> id in Bag(Pending(s)) || id in Bag(OverflowPending(s))
  {
    var part, rest, over, keep := CommitParts(s);
    BagConcat(part, rest);
    BagConcat(over, keep);
    BagConcat(part, over);
    assert forall id :: Bag(part)[id] + Bag(rest)[id] + Bag(over)[id] + Bag(keep)[id] <= 1;
  }

  /** Before anything is replayed twice, deduplication has nothing to do at a commit. */
  lemma {:induction false} SingleCovered(s: State, e: Event)
    requires Inv(s) && Single(s) && Enabled(s, e)
    ensures Covered(s, e)
  {
    if e.Commit? { BatchIds(s); }
  }

  lemma {:induction false} CommitHistory(s: State)
    requires Inv(s) && Enabled(s, Commit) && Covered(s, Commit)
    ensures var t := Next(s, Commit);
            && t.hist.issued == s.hist.issued && t.hist.journaled == s.hist.journaled
            && forall id :: Bag(t.hist.folded)[id] == Bag(s.hist.folded)[id]
                 + (if id in Bag(s.hist.folded) then 0 else Bag(s.proc.phase.batch)[id])
  {
    BatchIds(s);
    BookedKnown(s);
    CommitAdds(s.hist.folded, s.proc.phase.batch, s.db);
  }

  lemma {:induction false} CommitCounting(s: State)
    requires Inv(s) && Enabled(s, Commit) && Covered(s, Commit)
    ensures Counting(Next(s, Commit)) && (NothingLost(s) ==> NothingLost(Next(s, Commit)))
    ensures Single(s) ==> Single(Next(s, Commit))
  {
    CommitHistory(s);
    var part, rest, over, keep := CommitParts(s);
    OnceCommitted(s.hist.folded, Next(s, Commit).hist.folded, part, rest, over, keep, s.hist.issued, s.hist.journaled);
  }

  lemma {:induction false} AddedAgain(f: seq<CallLog>, batch: seq<CallLog>, known: set<Label>, id: Label)
    requires (forall x :: Bag(batch)[x] <= 1) && id in Bag(f) && id in Bag(batch) && id !in known
    ensures Bag(f + NormalizeAll(Fresh(batch, known)))[id] >= 2
  {
    FreshBag(batch, known);
    BagNormalized(Fresh(batch, known));
    BagConcat(f, NormalizeAll(Fresh(batch, known)));
  }

  /** Without its row a record that is rolled up already is rolled up again. */
  lemma {:induction false} UncoveredTwice(s: State) returns (id: Label)
    requires Inv(s) && Enabled(s, Commit) && !Covered(s, Commit)
    ensures id in Bag(s.hist.folded) && id in Bag(Pending(s)) && Bag(Next(s, Commit).hist.folded)[id] >= 2
  {
    id :| id in Bag(s.proc.phase.batch) && id in Bag(s.hist.folded) && id !in Ids(s.db.rows);
    BatchIds(s);
    AddedAgain(s.hist.folded, s.proc.phase.batch, Ids(s.db.rows), id);
  }

  lemma {:induction false} BagReplaced(a: seq<CallLog>, j: nat, l: CallLog)
    requires j < |a| && l.requestId == a[j].requestId
    ensures Bag(a[j := l]) == Bag(a)
  {
    var init := a[..|a| - 1];
    if j < |a| - 1 {
      BagReplaced(init, j, l);
      assert a[j := l][..|a| - 1] == init[j := l];
    } else {
      assert a[j := l][..|a| - 1] == init;
    }
  }

  /** Upkeep of the tables rolls up nothing and forgets nothing rolled up. */
  lemma {:induction false} UpkeepKeepsIds(s: State, u: LedgerRuns.Event)
    requires Enabled(s, Upkeep(u))
    ensures var t := Next(s, Upkeep(u));
            && Bag(t.hist.folded) == Bag(s.hist.folded) && Pending(t) == Pending(s) && OverflowPending(t) == OverflowPending(s)
            && t.hist.issued == s.hist.issued && t.hist.journaled == s.hist.journaled
  {
    UpkeepBag(Books(s), u);
  }

  lemma {:induction false} UpkeepBag(b: LedgerRuns.State, u: LedgerRuns.Event)
    requires !u.Commit?
    ensures Bag(LedgerRuns.Next(b, u).history) == Bag(b.history)
  {
    if u.Stamp? && LedgerRuns.Aligned(b) && u.i < |b.db.rows| && NeedsStamp(b.db.rows[u.i]) {
      var j := LedgerRuns.Place(b.history, b.stored, u.i);
      BagReplaced(b.history, j, LedgerRuns.StampedLog(b.history[j], u.unsure));
    }
  }

  lemma {:induction false} UpkeepCounting(s: State, u: LedgerRuns.Event)
    requires Counting(s) && Enabled(s, Upkeep(u))
    ensures Counting(Next(s, Upkeep(u))) && (NothingLost(s) ==> NothingLost(Next(s, Upkeep(u))))
    ensures Single(s) ==> Single(Next(s, Upkeep(u)))
  {
    UpkeepKeepsIds(s, u);
  }

  lemma {:induction false} OpenPending(s: State)
    requires FileInv(s) && Enabled(s, Open)
    ensures var t := Next(s, Open);
            OverflowPending(t) == [] && OverflowPending(s) == []
            && Pending(t) == (if s.disk.torn < TAIL_WINDOW then Pending(s) else [])
  {
    if s.disk.lines == [] { assert Tail([], s.hist.bound) == []; }
  }

  lemma {:induction false} OpenCounting(s: State)
    requires FileInv(s) && Counting(s) && Enabled(s, Open)
    ensures Counting(Next(s, Open)) && (Single(s) ==> Single(Next(s, Open)))
  {
    OpenPending(s);
    OnceLess(s.hist.folded, Pending(s), [], Pending(Next(s, Open)), [], s.hist.issued, s.hist.journaled);
  }

  /** Opening loses nothing exactly when the torn bytes leave a newline in the last window
      of the file, or there was nothing left to roll up. */
  lemma {:induction false} OpenLoses(s: State)
    requires Inv(s) && Single(s) && Enabled(s, Open) && NothingLost(s)
    ensures NothingLost(Next(s, Open)) <==> s.disk.torn < TAIL_WINDOW || Pending(s) == []
  {
    OpenPending(s);
    assert Pending(s)[|Pending(s)|..] == [];
    DroppedFront(s.hist.folded, Pending(s), [], Pending(Next(s, Open)), s.hist.issued, s.hist.journaled);
  }

  lemma {:induction false} LoadHistory(s: State)
    requires Enabled(s, Load) && s.proc.ckpt == FileStart(s.disk)
    ensures var t := Next(s, Load);
            && t.disk.lines == s.disk.lines && t.hist.bound == StartOffset(s)
            && t.hist.folded == s.hist.folded && t.hist.issued == s.hist.issued && t.hist.journaled == s.hist.journaled
            && OverflowPending(t) == OverflowPending(s)
  {
  }

  lemma {:induction false} LoadPending(s: State)
    requires FileInv(s) && Enabled(s, Load)
    ensures var t := Next(s, Load);
            && EndsWith(Pending(s), Pending(t)) && OverflowPending(t) == OverflowPending(s)
            && Pending(t) == Recs(Tail(s.disk.lines, StartOffset(s))) && t.hist.bound == StartOffset(s)
            && t.hist.folded == s.hist.folded && t.hist.issued == s.hist.issued && t.hist.journaled == s.hist.journaled
  {
    LoadFile(s);
    LoadHistory(s);
    TailLater(s.disk.lines, s.hist.bound, StartOffset(s));
  }

  lemma {:induction false} OnceSuffix(f: seq<CallLog>, p: seq<CallLog>, o: seq<CallLog>, p2: seq<CallLog>, issued: set<Label>, journaled: set<Label>)
    requires Once(f, p, o, issued, journaled) && EndsWith(p, p2)
    ensures Once(f, p2, o, issued, journaled) && (Apart(f, p) ==> Apart(f, p2))
  {
    SuffixBag(p, p2);
    OnceLess(f, p, o, p2, o, issued, journaled);
  }

  lemma {:induction false} LoadCounting(s: State)
    requires FileInv(s) && Counting(s) && Enabled(s, Load)
    ensures Counting(Next(s, Load)) && (Single(s) ==> Single(Next(s, Load)))
  {
    LoadPending(s);
    OnceSuffix(s.hist.folded, Pending(s), OverflowPending(s), Pending(Next(s, Load)), s.hist.issued, s.hist.journaled);
  }

  /** How far the file is rolled up, as the stored boundaries that belong to it show: those
      written, or accepted by a start, since the file was last cut. */
  function Shown(s: State): nat {
    var ck := if s.hist.ckptNew then FileStart(s.disk) else 0;
    var mk := if s.hist.markNew && s.mark.Some? && Boundary(s.disk.lines, s.mark.value.off) then s.mark.value.off else 0;
    if ck >= mk then ck else mk
  }

  /** They show it exactly, and what a start accepts is never behind it; it is ahead only by a
      boundary left from before the file was last cut. */
  lemma {:induction false} ShownIs(s: State)
    requires FileInv(s) && Enabled(s, Load)
    ensures Shown(s) == s.hist.bound <= StartOffset(s)
    ensures Shown(s) < StartOffset(s) ==> if MarkWins(s, FileStart(s.disk)) then !s.hist.markNew else !s.hist.ckptNew
  {
    LoadFile(s);
  }

  /** The condition of the reconciling step: no line that decodes starts between what the
      boundaries that belong to the file show and the offset accepted. */
  predicate SkipsNone(s: State) { !RecordBetween(s.disk.lines, Shown(s), StartOffset(s)) }

  lemma {:induction false} SkipsNoneIs(s: State)
    requires FileInv(s) && Enabled(s, Load)
    ensures SkipsNone(s) <==> Pending(Next(s, Load)) == Pending(s)
  {
    ShownIs(s);
    LoadPending(s);
    LoadFile(s);
    BetweenIs(s.disk.lines, s.hist.bound, StartOffset(s));
  }

  /** Reconciling the two stored boundaries loses a record exactly when it skips one. */
  lemma {:induction false} LoadLoses(s: State)
    requires Inv(s) && Single(s) && Enabled(s, Load) && NothingLost(s)
    ensures NothingLost(Next(s, Load)) <==> SkipsNone(s)
  {
    LoadPending(s);
    SkipsNoneIs(s);
    DroppedFront(s.hist.folded, Pending(s), OverflowPending(s), Pending(Next(s, Load)), s.hist.issued, s.hist.journaled);
  }

  // ---------------------------------------------------------------------------
  // All runs
  // ---------------------------------------------------------------------------

  lemma {:induction false} ArrivalCounting(s: State, e: Event)
    requires FileInv(s) && Counting(s) && Enabled(s, e) && (e.Append? || e.WriteFails? || e.Upkeep?)
    ensures Counting(Next(s, e)) && (Single(s) ==> Single(Next(s, e))) && (NothingLost(s) ==> NothingLost(Next(s, e)))
  {
    match e {
      case Append(l) => AppendCounting(s, l);
      case WriteFails(rec) => WriteFailsCounting(s, rec);
      case Upkeep(u) => UpkeepCounting(s, u);
    }
  }

  lemma {:induction false} StepCounting(s: State, e: Event)
    requires Inv(s) && Enabled(s, e) && Covered(s, e)
    ensures Counting(Next(s, e)) && (Single(s) ==> Single(Next(s, e)))
    ensures !e.Open? && !e.Load? && NothingLost(s) ==> NothingLost(Next(s, e))
  {
    if e.Open? {
      OpenCounting(s);
    } else if e.Load? {
      LoadCounting(s);
    } else if e.Commit? {
      CommitCounting(s);
    } else if Neutral(e) {
      NeutralCounting(s, e);
    } else {
      ArrivalCounting(s, e);
    }
  }

  lemma {:induction false} StepBooked(s: State, e: Event)
    requires Inv(s) && Enabled(s, e)
    ensures Booked(Next(s, e))
  {
    match e {
      case Commit => LedgerRuns.StepKeeps(Books(s), LedgerRuns.Commit(s.proc.phase.batch));
      case Upkeep(u) => LedgerRuns.StepKeeps(Books(s), u);
      case _ =>
    }
  }

  /** Every step keeps the invariant, and only the two restart steps can lose a record. */
  lemma {:induction false} StepKeeps(s: State, e: Event)
    requires Inv(s) && Enabled(s, e) && Covered(s, e)
    ensures Inv(Next(s, e)) && (Single(s) ==> Single(Next(s, e)))
    ensures !e.Open? && !e.Load? && NothingLost(s) ==> NothingLost(Next(s, e))
  {
    StepFile(s, e);
    StepCounting(s, e);
    StepBooked(s, e);
  }

  lemma {:induction false} SingleStep(s: State, e: Event)
    requires Inv(s) && Single(s) && Enabled(s, e)
    ensures Covered(s, e) && Inv(Next(s, e)) && Single(Next(s, e))
    ensures !e.Open? && !e.Load? && NothingLost(s) ==> NothingLost(Next(s, e))
  {
    SingleCovered(s, e);
    StepKeeps(s, e);
  }

  lemma {:induction false} RunKeeps(s: State, es: seq<Event>)
    requires Inv(s) && Single(s) && IsRun(s, es)
    ensures Inv(Run(s, es)) && Single(Run(s, es))
    decreases |es|
  {
    if es != [] {
      SingleStep(s, es[0]);
      RunKeeps(Next(s, es[0]), es[1..]);
    }
  }

  lemma {:induction false} FileRun(s: State, es: seq<Event>)
    requires FileInv(s) && IsRun(s, es)
    ensures FileInv(Run(s, es))
    decreases |es|
  {
    if es != [] {
      StepFile(s, es[0]);
      FileRun(Next(s, es[0]), es[1..]);
    }
  }

  lemma {:induction false} StartInv()
    ensures Inv(START) && Single(START) && NothingLost(START)
  {
    LedgerRuns.StartInv();
  }

  /** The rollup of every hour not trimmed is the aggregate of what was rolled up in it, the
      whole rollup when nothing was trimmed; and no rebuild would change it. */
  ghost predicate Accounted(s: State) {
    && (forall h :: LedgerRuns.Untrimmed(s.hist.trimmed, h) ==> Slice(s.db.rollup, h) == Rows(HourLogs(s.hist.folded, h)))
    && (s.hist.trimmed.None? ==> s.db.rollup == Rows(s.hist.folded))
    && (forall from, to, days, now :: Rebuilt(s.db, from, to, days, now) == s.db)
  }

  lemma {:induction false} BookedAccounted(s: State)
    requires Booked(s)
    ensures Accounted(s)
  {
    if s.hist.trimmed.None? {
      forall h ensures Slice(s.db.rollup, h) == Slice(Rows(s.hist.folded), h) {
        assert LedgerRuns.Untrimmed(s.hist.trimmed, h);
        RowsByHour(s.hist.folded, h);
      }
      SameSlices(s.db.rollup, Rows(s.hist.folded));
    }
    forall from, to, days, now ensures Rebuilt(s.db, from, to, days, now) == s.db {
      LedgerRuns.RebuildChangesNothing(Books(s), from, to, days, now);
    }
  }

  /** Over every run, with crashes anywhere, failed writes of the boundary, torn appends, stale
      checkpoints, purges, trims, rebuilds and un-bookings, no request is rolled up twice, and the
      rollup is exactly the aggregate of the requests rolled up. */
  lemma {:induction false} AtMostOnce(es: seq<Event>)
    requires IsRun(START, es)
    ensures var s := Run(START, es);
            (forall id :: Bag(s.hist.folded)[id] <= 1) && Accounted(s)
  {
    StartInv();
    RunKeeps(START, es);
    BookedAccounted(Run(START, es));
  }

  // ---------------------------------------------------------------------------
  // Exactly when a run loses a record
  // ---------------------------------------------------------------------------

  /** A record neither rolled up nor waiting in the file any more. */
  ghost predicate Lost(s: State, id: Label) {
    id in s.hist.journaled && id !in Bag(s.hist.folded) && id !in Bag(Pending(s))
  }

  lemma {:induction false} NotAdded(f: seq<CallLog>, batch: seq<CallLog>, known: set<Label>, id: Label)
    requires (forall x :: Bag(batch)[x] <= 1) && id !in Bag(f) && id !in Bag(batch)
    ensures id !in Bag(f + NormalizeAll(Fresh(batch, known)))
  {
    FreshBag(batch, known);
    BagNormalized(Fresh(batch, known));
    BagConcat(f, NormalizeAll(Fresh(batch, known)));
  }

  lemma {:induction false} CommitStaysLost(s: State, id: Label)
    requires Inv(s) && Enabled(s, Commit) && Lost(s, id)
    ensures Lost(Next(s, Commit), id)
  {
    BatchIds(s);
    assert id !in Bag(OverflowPending(s));
    NotAdded(s.hist.folded, s.proc.phase.batch, Ids(s.db.rows), id);
    CommitPending(s);
  }

  lemma {:induction false} CommitPending(s: State)
    requires FileInv(s) && Enabled(s, Commit)
    ensures Next(s, Commit).hist.journaled == s.hist.journaled && Bag(Pending(Next(s, Commit))) <= Bag(Pending(s))
  {
    var part, rest, over, keep := CommitParts(s);
    BagConcat(part, rest);
  }

  lemma {:induction false} AppendStaysLost(s: State, l: Line, id: Label)
    requires Inv(s) && Enabled(s, Append(l)) && Lost(s, id)
    ensures Lost(Next(s, Append(l)), id)
  {
    PendingAppend(s.disk.lines, l, s.hist.bound);
    if l.rec.Some? {
      BagSnoc(Pending(s), l.rec.value);
    } else {
      assert Pending(Next(s, Append(l))) == Pending(s);
    }
  }

  lemma {:induction false} RestartStaysLost(s: State, e: Event, id: Label)
    requires Inv(s) && Enabled(s, e) && (e.Open? || e.Load?) && Lost(s, id)
    ensures Lost(Next(s, e), id)
  {
    if e.Open? {
      OpenPending(s);
    } else {
      LoadPending(s);
      SuffixBag(Pending(s), Pending(Next(s, Load)));
    }
  }

  lemma {:induction false} NeutralStaysLost(s: State, e: Event, id: Label)
    requires FileInv(s) && Enabled(s, e) && Neutral(e) && Lost(s, id)
    ensures Lost(Next(s, e), id)
  {
    NeutralPending(s, e);
    NeutralHistory(s, e);
  }

  lemma {:induction false} ArrivalStaysLost(s: State, e: Event, id: Label)
    requires Inv(s) && Enabled(s, e) && (e.Append? || e.WriteFails? || e.Upkeep?) && Lost(s, id)
    ensures Lost(Next(s, e), id)
  {
    match e {
      case Append(l) => AppendStaysLost(s, l, id);
      case WriteFails(rec) => WriteFailsPending(s, rec);
      case Upkeep(u) => UpkeepKeepsIds(s, u);
    }
  }

  /** A lost record stays lost: nothing held in memory only was ever journaled. */
  lemma {:induction false} StaysLost(s: State, e: Event, id: Label)
    requires Inv(s) && Enabled(s, e) && Lost(s, id)
    ensures Lost(Next(s, e), id)
  {
    if e.Open? || e.Load? {
      RestartStaysLost(s, e, id);
    } else if e.Commit? {
      CommitStaysLost(s, id);
    } else if Neutral(e) {
      NeutralStaysLost(s, e, id);
    } else {
      ArrivalStaysLost(s, e, id);
    }
  }

  /** Along a run every record that is rolled up already and replayed still has its row when
      its batch is committed. */
  ghost predicate CoveredRun(s: State, es: seq<Event>)
    requires IsRun(s, es)
    decreases |es|
  {
    es == [] || (Covered(s, es[0]) && CoveredRun(Next(s, es[0]), es[1..]))
  }

  lemma {:induction false} SingleCoveredRun(s: State, es: seq<Event>)
    requires Inv(s) && Single(s) && IsRun(s, es)
    ensures CoveredRun(s, es)
    decreases |es|
  {
    if es != [] {
      SingleStep(s, es[0]);
      SingleCoveredRun(Next(s, es[0]), es[1..]);
    }
  }

  lemma {:induction false} StaysLostRun(s: State, es: seq<Event>, id: Label)
    requires Inv(s) && IsRun(s, es) && CoveredRun(s, es) && Lost(s, id)
    ensures Lost(Run(s, es), id)
    decreases |es|
  {
    if es != [] {
      StaysLost(s, es[0], id);
      StepKeeps(s, es[0]);
      StaysLostRun(Next(s, es[0]), es[1..], id);
    }
  }

  /** The condition of a restart step: torn bytes do not fill the opening window, or nothing
      waited; reconciling skips no record. */
  predicate Safe(s: State, e: Event) {
    && (e.Open? ==> s.disk.torn < TAIL_WINDOW || Pending(s) == [])
    && (e.Load? ==> SkipsNone(s))
  }

  predicate SafeRun(s: State, es: seq<Event>)
    requires IsRun(s, es)
    decreases |es|
  {
    es == [] || (Safe(s, es[0]) && SafeRun(Next(s, es[0]), es[1..]))
  }

  lemma {:induction false} SafeStep(s: State, e: Event)
    requires Inv(s) && Single(s) && NothingLost(s) && Enabled(s, e)
    ensures NothingLost(Next(s, e)) <==> Safe(s, e)
  {
    SingleStep(s, e);
    if e.Open? { OpenLoses(s); }
    if e.Load? { LoadLoses(s); }
  }

  lemma {:induction false} SafeFrom(s: State, es: seq<Event>)
    requires Inv(s) && Single(s) && NothingLost(s) && IsRun(s, es)
    ensures NothingLost(Run(s, es)) <==> SafeRun(s, es)
    decreases |es|
  {
    if es != [] {
      var t := Next(s, es[0]);
      SafeStep(s, es[0]);
      SingleStep(s, es[0]);
      if Safe(s, es[0]) {
        SafeFrom(t, es[1..]);
      } else {
        var id :| id in t.hist.journaled && id !in Bag(t.hist.folded) && id !in Bag(Pending(t));
        SingleCoveredRun(t, es[1..]);
        StaysLostRun(t, es[1..], id);
      }
    }
  }

  /** A safe step loses nothing, whatever is replayed. */
  lemma {:induction false} SafeKeeps(s: State, e: Event)
    requires Inv(s) && NothingLost(s) && Enabled(s, e) && Covered(s, e) && Safe(s, e)
    ensures Inv(Next(s, e)) && NothingLost(Next(s, e))
  {
    StepKeeps(s, e);
    if e.Open? { OpenPending(s); }
    if e.Load? {
      SkipsNoneIs(s);
      LoadPending(s);
    }
  }

  lemma {:induction false} SafeRunKeeps(s: State, es: seq<Event>)
    requires Inv(s) && NothingLost(s) && IsRun(s, es) && CoveredRun(s, es) && SafeRun(s, es)
    ensures Inv(Run(s, es)) && NothingLost(Run(s, es))
    decreases |es|
  {
    if es != [] {
      SafeKeeps(s, es[0]);
      SafeRunKeeps(Next(s, es[0]), es[1..]);
    }
  }

  /** A run has lost no journaled record if and only if each opening and each reconciling step
      in it met its condition. */
  lemma {:induction false} LosesExactly(es: seq<Event>)
    requires IsRun(START, es)
    ensures NothingLost(Run(START, es)) <==> SafeRun(START, es)
  {
    StartInv();
    SafeFrom(START, es);
  }

  // ---------------------------------------------------------------------------
  // Runs that lose nothing
  // ---------------------------------------------------------------------------

  /** No stored boundary is ahead of what is rolled up. Between cutting the file and
      rewriting the file checkpoint, rotation itself breaks this. */
  predicate Honest(s: State) {
    && ((s.proc.Up? && s.proc.phase.Truncated?) || s.disk.ckpt.None? || s.disk.ckpt.value <= s.hist.bound)
    && (s.mark.None? || s.mark.value.off <= s.hist.bound)
    && (s.disk.torn < TAIL_WINDOW || s.disk.lines == [])
  }

  /** The two crash windows: between cutting the file and resetting its checkpoint, and in
      the middle of appending a line so long that its torn bytes hide the last newline. */
  predicate Harmless(s: State, e: Event) {
    e.Crash? ==> !(s.proc.Up? && s.proc.phase.Truncated?) && (e.torn < TAIL_WINDOW || s.disk.lines == [])
  }

  predicate HarmlessRun(s: State, es: seq<Event>)
    requires IsRun(s, es)
    decreases |es|
  {
    es == [] || (Harmless(s, es[0]) && HarmlessRun(Next(s, es[0]), es[1..]))
  }

  lemma {:induction false} HonestStart(s: State)
    requires FileInv(s) && Honest(s) && Enabled(s, Load)
    ensures StartOffset(s) == s.hist.bound
  {
  }

  lemma {:induction false} HonestStep(s: State, e: Event)
    requires FileInv(s) && Honest(s) && Enabled(s, e) && Harmless(s, e)
    ensures Honest(Next(s, e))
  {
    if e.Load? { HonestStart(s); }
  }

  /** Runs whose crashes avoid the two windows meet the condition at every restart. */
  lemma {:induction false} HarmlessIsSafe(s: State, es: seq<Event>)
    requires FileInv(s) && Honest(s) && IsRun(s, es) && HarmlessRun(s, es)
    ensures SafeRun(s, es) && Honest(Run(s, es))
    decreases |es|
  {
    if es != [] {
      HarmlessStep(s, es[0]);
      StepFile(s, es[0]);
      HonestStep(s, es[0]);
      HarmlessIsSafe(Next(s, es[0]), es[1..]);
    }
  }

  lemma {:induction false} HarmlessStep(s: State, e: Event)
    requires FileInv(s) && Honest(s) && Enabled(s, e) && Harmless(s, e)
    ensures Safe(s, e)
  {
    if e.Open? && s.disk.lines == [] { assert Tail([], s.hist.bound) == []; }
    if e.Load? {
      HonestStart(s);
      ShownIs(s);
      NoneBetween(s.disk.lines, Shown(s), StartOffset(s));
    }
  }

  /** Every fully journaled record is rolled up exactly once or still waits in the file to
      be, over every run whose crashes avoid the two windows. */
  lemma {:induction false} ExactlyOnce(es: seq<Event>)
    requires IsRun(START, es) && HarmlessRun(START, es)
    ensures var s := Run(START, es);
            forall id :: id in s.hist.journaled ==> Bag(s.hist.folded)[id] + Bag(Pending(s))[id] == 1
  {
    StartInv();
    HarmlessIsSafe(START, es);
    SafeFrom(START, es);
    RunKeeps(START, es);
  }

  // ---------------------------------------------------------------------------
  // Drains
  // ---------------------------------------------------------------------------

  /** Unless the read filled its batch, everything journaled by then is in the batch or
      already rolled up. */
  ghost predicate ReadAll(s: State) {
    s.proc.Up? ==>
      match s.proc.phase
      case Reading(batch, _, asOf) => |batch| < BATCH_MAX ==> Delivered(asOf, s.hist.folded, batch)
      case Taken(batch, _, took, asOf) =>
        took <= |batch| && |batch| - took < BATCH_MAX ==> Delivered(asOf, s.hist.folded, batch[..|batch| - took])
      case _ => true
  }

  lemma {:induction false} ReadBatchReadsAll(s: State)
    requires FileInv(s) && NothingLost(s) && Enabled(s, ReadBatch)
    ensures ReadAll(Next(s, ReadBatch))
  {
    var tail := Tail(s.disk.lines, s.proc.ckpt);
    var k := ScanCount(tail, BATCH_MAX);
    ScanExhausts(tail, BATCH_MAX);
    if k == |tail| { assert tail[..k] == tail; }
  }

  lemma {:induction false} TakeReadsAll(s: State)
    requires FileInv(s) && ReadAll(s) && Enabled(s, Take)
    ensures ReadAll(Next(s, Take))
  {
    var q := Next(s, Take).proc.phase;
    assert q.batch[..|q.batch| - q.took] == s.proc.phase.batch;
  }

  lemma {:induction false} SameReads(s: State, t: State)
    requires ReadAll(s) && Bag(t.hist.folded) == Bag(s.hist.folded)
    requires t.proc.Up? ==> s.proc.Up? && t.proc.phase == s.proc.phase
    ensures ReadAll(t)
  {
  }

  lemma {:induction false} ReadOver(s: State, e: Event)
    requires Enabled(s, e) && !e.ReadBatch? && !e.Take? && !e.Append? && !e.WriteFails? && !e.Upkeep?
    ensures var p := Next(s, e).proc; p.Up? ==> !p.phase.Reading? && !p.phase.Taken?
  {
  }

  lemma {:induction false} ReadAllSame(s: State, e: Event)
    requires ReadAll(s) && Enabled(s, e) && (e.Append? || e.WriteFails? || e.Upkeep?)
    ensures ReadAll(Next(s, e))
  {
    match e {
      case Append(l) => SameReads(s, DoAppend(s, l));
      case WriteFails(rec) => SameReads(s, DoWriteFails(s, rec));
      case Upkeep(u) =>
        UpkeepKeepsIds(s, u);
        SameReads(s, DoUpkeep(s, u));
    }
  }

  lemma {:induction false} ReadAllStep(s: State, e: Event)
    requires FileInv(s) && ReadAll(s) && NothingLost(s) && Enabled(s, e)
    ensures ReadAll(Next(s, e))
  {
    if e.ReadBatch? {
      ReadBatchReadsAll(s);
    } else if e.Take? {
      TakeReadsAll(s);
    } else if e.Append? || e.WriteFails? || e.Upkeep? {
      ReadAllSame(s, e);
    } else {
      ReadOver(s, e);
    }
  }

  lemma {:induction false} ReadAllRun(s: State, es: seq<Event>)
    requires Inv(s) && Single(s) && NothingLost(s) && ReadAll(s) && IsRun(s, es) && SafeRun(s, es)
    ensures ReadAll(Run(s, es))
    decreases |es|
  {
    if es != [] {
      SafeStep(s, es[0]);
      SingleStep(s, es[0]);
      ReadAllStep(s, es[0]);
      ReadAllRun(Next(s, es[0]), es[1..]);
    }
  }

  lemma {:induction false} EmptyBatchIsComplete(s: State)
    requires FileInv(s) && Counting(s) && ReadAll(s) && Enabled(s, Rest)
    ensures forall id :: id in s.proc.phase.asOf ==> Bag(s.hist.folded)[id] == 1
  {
    assert s.proc.phase.batch[..0] == [];
    assert Delivered(s.proc.phase.asOf, s.hist.folded, []);
    forall id | id in s.proc.phase.asOf ensures Bag(s.hist.folded)[id] == 1 {
      assert id in Bag(s.hist.folded);
    }
  }

  /** A drain pass returns without error only after an empty batch; by then everything that
      was journaled when the pass read the file is rolled up, whatever was appended since. */
  lemma {:induction false} CleanDrainIsComplete(es: seq<Event>)
    requires IsRun(START, es) && SafeRun(START, es) && Enabled(Run(START, es), Rest)
    ensures var s := Run(START, es);
            forall id :: id in s.proc.phase.asOf ==> Bag(s.hist.folded)[id] == 1
  {
    StartInv();
    RunKeeps(START, es);
    ReadAllRun(START, es);
    EmptyBatchIsComplete(Run(START, es));
  }

  // ---------------------------------------------------------------------------
  // The stale checkpoint
  // ---------------------------------------------------------------------------

  lemma {:induction false} RunSnoc(s: State, es: seq<Event>, e: Event)
    requires IsRun(s, es) && Enabled(Run(s, es), e)
    ensures IsRun(s, es + [e]) && Run(s, es + [e]) == Next(Run(s, es), e)
  {
    assert [e][1..] == [];
    RunConcat(s, es, [e]);
  }

  lemma {:induction false} FirstRecord(a: CallLog) returns (es: seq<Event>)
    ensures IsRun(START, es)
    ensures Run(START, es) == State(Disk([Line(Some(a), ROTATE_AFTER)], 0, None), Db([], map[], None), Some(Mark(0, 0)),
                                    Up(ROTATE_AFTER, 0, 0, [], Idle), History(0, [], [], None, {a.requestId}, {a.requestId}, true, true))
  {
    var l := Line(Some(a), ROTATE_AFTER);
    es := [];
    RunSnoc(START, es, Open);
    es := es + [Open];
    RunSnoc(START, es, Load);
    es := es + [Load];
    RunSnoc(START, es, Save);
    es := es + [Save];
    var s := Run(START, es);
    assert s == START.(mark := Some(Mark(0, 0)), proc := Up(0, 0, 0, [], Idle));
    RunSnoc(START, es, Append(l));
    es := es + [Append(l)];
    assert [] + [l] == [l];
  }

  lemma {:induction false} FirstTaken(a: CallLog) returns (es: seq<Event>)
    ensures IsRun(START, es)
    ensures Run(START, es) == State(Disk([Line(Some(a), ROTATE_AFTER)], 0, None), Db([], map[], None), Some(Mark(0, 0)),
                                    Up(ROTATE_AFTER, 0, 0, [], Taken([a], ROTATE_AFTER, 0, {a.requestId})),
                                    History(0, [], [], None, {a.requestId}, {a.requestId}, true, true))
  {
    es := FirstRecord(a);
    OneLine(Line(Some(a), ROTATE_AFTER));
    RunSnoc(START, es, ReadBatch);
    es := es + [ReadBatch];
    RunSnoc(START, es, Take);
    es := es + [Take];
    assert [a] + [] == [a];
  }

  /** One record fills the journal to the rotation size and is rolled up. */
  lemma {:induction false} FilledGeneration(a: CallLog) returns (es: seq<Event>)
    ensures IsRun(START, es)
    ensures var s := Run(START, es); var l := Line(Some(a), ROTATE_AFTER);
            s.disk == Disk([l], 0, Some(ROTATE_AFTER)) && s.mark == Some(Mark(0, ROTATE_AFTER))
            && s.proc == Up(ROTATE_AFTER, ROTATE_AFTER, 0, [], Idle)
            && s.hist.bound == ROTATE_AFTER && s.db.rows == s.hist.folded == NormalizeAll([a])
            && s.hist.issued == s.hist.journaled == {a.requestId}
  {
    es := FirstTaken(a);
    OneFresh(a);
    assert Ids([]) == {};
    RunSnoc(START, es, Commit);
    es := es + [Commit];
    assert [] + NormalizeAll([a]) == NormalizeAll([a]);
    RunSnoc(START, es, Finish);
    es := es + [Finish];
  }

  lemma {:induction false} OneLine(l: Line)
    requires l.rec.Some?
    ensures Tail([l], 0) == [l] && ScanCount([l], BATCH_MAX) == 1 && [l][..1] == [l]
    ensures Recs([l]) == [l.rec.value] && Size([l]) == l.len && Tail([l], l.len) == []
  {
    assert [l][1..] == [];
  }

  lemma {:induction false} OneFresh(a: CallLog)
    ensures Fresh([a], {}) == [a]
  {
    assert [a][..|[a]| - 1] == [];
    assert [] + [a] == [a];
  }

  /** A pass over the rolled-up file takes nothing, so rotation may start. */
  lemma {:induction false} ReadyToRotate(a: CallLog) returns (es: seq<Event>)
    ensures IsRun(START, es)
    ensures var s := Run(START, es); var l := Line(Some(a), ROTATE_AFTER);
            s.disk == Disk([l], 0, Some(ROTATE_AFTER))
            && s.proc == Up(ROTATE_AFTER, ROTATE_AFTER, 0, [], Taken([], ROTATE_AFTER, 0, {a.requestId}))
            && s.hist.bound == ROTATE_AFTER && s.db.rows == s.hist.folded == NormalizeAll([a])
            && s.hist.issued == s.hist.journaled == {a.requestId}
  {
    es := FilledGeneration(a);
    OneLine(Line(Some(a), ROTATE_AFTER));
    RunSnoc(START, es, ReadBatch);
    es := es + [ReadBatch];
    assert Run(START, es).proc.phase == Reading([], ROTATE_AFTER, {a.requestId});
    RunSnoc(START, es, Take);
    es := es + [Take];
    assert Run(START, es).proc.phase.batch == [];
  }

  /** Rotation cuts the file and the process dies before the file checkpoint is reset. */
  lemma {:induction false} InterruptedRotation(a: CallLog) returns (es: seq<Event>)
    ensures IsRun(START, es)
    ensures var s := Run(START, es);
            s.disk == Disk([], 0, Some(ROTATE_AFTER)) && s.mark == Some(Mark(1, 0)) && s.proc == Down
            && s.hist.bound == 0 && s.hist.folded == NormalizeAll([a])
            && s.hist.issued == s.hist.journaled == {a.requestId}
  {
    es := ReadyToRotate(a);
    RunSnoc(START, es, RotateMark);
    es := es + [RotateMark];
    RunSnoc(START, es, Truncate);
    es := es + [Truncate];
    RunSnoc(START, es, Crash(0));
    es := es + [Crash(0)];
  }

  lemma {:induction false} NextGeneration(a: CallLog) returns (es: seq<Event>)
    ensures IsRun(START, es)
    ensures var s := Run(START, es);
            && s.disk == Disk([], 0, Some(ROTATE_AFTER)) && s.mark == Some(Mark(1, 0)) && s.proc == Up(0, 0, 1, [], Idle)
            && s.hist.folded == NormalizeAll([a]) && s.hist.issued == {a.requestId}
  {
    es := InterruptedRotation(a);
    RunSnoc(START, es, Open);
    es := es + [Open];
    RunSnoc(START, es, Load);
    es := es + [Load];
    RunSnoc(START, es, Save);
    es := es + [Save];
  }

  /** The next start cannot commit, and the new generation grows to the old size. */
  lemma {:induction false} GrownAgain(a: CallLog, b: CallLog) returns (es: seq<Event>)
    requires a.requestId != b.requestId
    ensures IsRun(START, es)
    ensures var s := Run(START, es);
            && s.disk == Disk([Line(Some(b), ROTATE_AFTER)], 0, Some(ROTATE_AFTER)) && s.mark == Some(Mark(1, 0)) && s.proc == Down
            && s.hist.folded == NormalizeAll([a]) && b.requestId in s.hist.journaled
  {
    es := NextGeneration(a);
    var l := Line(Some(b), ROTATE_AFTER);
    RunSnoc(START, es, Append(l));
    es := es + [Append(l)];
    assert [] + [l] == [l];
    RunSnoc(START, es, Crash(0));
    es := es + [Crash(0)];
  }

  /** The window is real: when the database stays unavailable after such a crash, the next
      generation can grow to the old size uncommitted, and the following restart accepts
      the old generation's file checkpoint and never rolls those records up. */
  lemma {:induction false} StaleCheckpoint(a: CallLog, b: CallLog) returns (es: seq<Event>)
    requires a.requestId != b.requestId
    ensures IsRun(START, es) && !SafeRun(START, es) && !HarmlessRun(START, es)
    ensures var s := Run(START, es);
            s.proc.Up? && s.proc.phase.Idle? && b.requestId in s.hist.journaled
            && b.requestId !in Bag(s.hist.folded) && Pending(s) == [] && s.proc.ckpt == s.proc.size
  {
    es := GrownAgain(a, b);
    OneLine(Line(Some(b), ROTATE_AFTER));
    RunSnoc(START, es, Open);
    es := es + [Open];
    RunSnoc(START, es, Load);
    es := es + [Load];
    RunSnoc(START, es, Save);
    es := es + [Save];
    BagOne(Normalize(a));
    NormalizeLaws(a);
    assert NormalizeAll([a]) == [Normalize(a)];
    assert Lost(Run(START, es), b.requestId);
    LosesExactly(es);
    StartInv();
    if HarmlessRun(START, es) { HarmlessIsSafe(START, es); }
  }
}

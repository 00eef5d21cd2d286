/** The store of the original: the fields its methods update in place, each method proved
    to be exactly the machine step it performs, so that everything proved about runs of the
    machine holds of the store between any two of its durable writes. */
module JournalStore {
  import opened Usage
  import opened Ledger
  import opened Wrappers
  import opened Journal
  import opened JournalSafety

  /** How one turn of the drain loop ends. */
  datatype Outcome = More | Drained | Refused

  class Store {
    // The journal file, its checkpoint file, and the boundary row in the database.
    var lines: seq<Line>
    var torn: nat
    var ckptFile: Option<nat>
    var mark: Option<Mark>
    const tables: Database

    // Memory.
    var running: bool
    var size: nat
    var ckpt: nat
    var gen: int
    var overflow: seq<CallLog>

    // Where the current call stands, and what no field stores.
    ghost var phase: Phase
    ghost var hist: History

    ghost function View(): State
      reads this, tables
    {
      State(Disk(lines, torn, ckptFile), tables.View(), mark,
            if running then Up(size, ckpt, gen, overflow, phase) else Down, hist)
    }

    constructor ()
      ensures View() == START && fresh(tables)
    {
      lines, torn, ckptFile, mark := [], 0, None, None;
      tables := new Database();
      running, size, ckpt, gen, overflow := false, 0, 0, 0, [];
      phase, hist := Opened, START.hist;
    }

    method DropTorn()
      modifies this`lines, this`torn, this`size
      ensures lines == Recovered(old(lines), old(torn)) && torn == 0 && size == Size(lines)
    {
      if torn > 0 && torn >= TAIL_WINDOW { lines := []; }
      torn := 0;
      size := Size(lines);
    }

    /** Opens the journal: torn bytes are dropped, the file checkpoint is read. */
    method OpenJournal()
      requires Enabled(View(), Open)
      modifies this
      ensures View() == Next(old(View()), Open)
    {
      ghost var next := DoOpen(View());
      DropTorn();
      ckpt := 0;
      if ckptFile.Some? && ckptFile.value <= size { ckpt := ckptFile.value; }
      gen, overflow, running := 0, [], true;
      phase, hist := Opened, next.hist;
    }

    /** The larger of the two boundaries becomes the checkpoint, when the database's lies on a
        line boundary of the file. */
    method ChooseBoundary() returns (chosen: bool)
      requires Enabled(View(), Load)
      modifies this
      ensures View() == Next(old(View()), Load) && (chosen <==> phase.Rewriting?)
    {
      gen := if mark.Some? then mark.value.gen else 0;
      chosen := mark.Some? && mark.value.off > ckpt && Boundary(lines, mark.value.off);
      if chosen {
        ckpt := mark.value.off;
        phase := Rewriting;
        hist := hist.(bound := ckpt, markNew := true);
      } else {
        phase := Loaded;
        hist := hist.(bound := ckpt, ckptNew := hist.ckptNew || (ckptFile.Some? && ckptFile.value <= Size(lines)));
      }
    }

    method RewriteCheckpoint()
      requires Enabled(View(), Rewrite)
      modifies this
      ensures View() == Next(old(View()), Rewrite)
    {
      ckptFile := Some(ckpt);
      phase := Loaded;
      hist := hist.(ckptNew := true);
    }

    method LoadBoundary() returns (ghost steps: seq<Event>)
      requires Enabled(View(), Load)
      modifies this
      ensures IsRun(old(View()), steps) && View() == Run(old(View()), steps) && (steps == [Load] || steps == [Load, Rewrite])
      ensures running && phase.Loaded?
    {
      ghost var s := View();
      var chosen := ChooseBoundary();
      steps := Extend(s, [], Load);
      if chosen {
        RewriteCheckpoint();
        steps := Extend(s, steps, Rewrite);
      }
    }

    /** The boundary goes into the database; a failure is only logged. */
    method SaveBoundary(saved: bool)
      requires Enabled(View(), Save)
      modifies this
      ensures View() == Next(old(View()), if saved then Save else SaveFails)
    {
      if saved {
        mark := Some(Mark(gen, ckpt));
        hist := hist.(markNew := true);
      }
      phase := Idle;
    }

    /** Appends one line; when the write fails the record stays in memory, if there is room. */
    method Record(l: Line, writable: bool)
      requires writable ==> Enabled(View(), Append(l))
      requires !writable ==> l.rec.Some? && Enabled(View(), WriteFails(l.rec.value))
      modifies this
      ensures View() == Next(old(View()), if writable then Append(l) else WriteFails(l.rec.value))
    {
      if writable {
        lines := lines + [l];
        size := size + l.len;
      } else if |overflow| < OVERFLOW_MAX {
        overflow := overflow + [l.rec.value];
      }
      ghost var ids := if l.rec.Some? then {l.rec.value.requestId} else {};
      hist := hist.(issued := hist.issued + ids, journaled := if writable then hist.journaled + ids else hist.journaled);
    }

    /** Reads up to BATCH_MAX records from the checkpoint on, skipping lines that do not decode. */
    method ReadBatch() returns (batch: seq<CallLog>, next: nat)
      requires Enabled(View(), Journal.ReadBatch)
      modifies this`phase
      ensures View() == Next(old(View()), Journal.ReadBatch)
      ensures phase == Reading(batch, next, hist.journaled)
    {
      var rest := Tail(lines, ckpt);
      ghost var t := rest;
      batch, next := [], ckpt;
      ghost var k := 0;
      assert t[..0] == [] && t[0..] == t;
      while |batch| < BATCH_MAX && rest != []
        invariant ReadSoFar(t, k, rest, batch) && next == ckpt + Size(t[..k])
        decreases |rest|
      {
        var line := rest[0];
        ReadOn(t, k, rest, batch);
        next := next + line.len;
        if line.rec.Some? { batch := batch + [line.rec.value]; }
        rest := rest[1..];
        k := k + 1;
      }
      phase := Reading(batch, next, hist.journaled);
    }

    /** Tops the batch up with records held in memory; they stay there until the commit. */
    method TakeOverflow(batch: seq<CallLog>, next: nat) returns (full: seq<CallLog>, took: nat)
      requires Enabled(View(), Take) && phase == Reading(batch, next, phase.asOf)
      modifies this`phase
      ensures View() == Next(old(View()), Take)
      ensures phase == Taken(full, next, took, old(phase).asOf)
    {
      full, took := batch, 0;
      if |batch| < BATCH_MAX && |overflow| > 0 {
        took := Min(BATCH_MAX - |batch|, |overflow|);
        full := full + overflow[..took];
      } else {
        assert batch + overflow[..0] == batch;
      }
      phase := Taken(full, next, took, phase.asOf);
    }

    /** The batch and the boundary it reaches go into the database in one transaction. */
    method CommitAt(batch: seq<CallLog>, next: nat, took: nat)
      requires Enabled(View(), Journal.Commit) && phase == Taken(batch, next, took, phase.asOf)
      modifies this`mark, this`phase, this`hist, tables
      ensures View() == Next(old(View()), Journal.Commit)
    {
      Transact(batch, next, took);
    }

    method Transact(batch: seq<CallLog>, next: nat, took: nat)
      requires running && phase.Taken? && phase == Taken(batch, next, took, phase.asOf)
      modifies this`mark, this`phase, this`hist, tables
      ensures View() == DoCommit(old(View()))
    {
      ghost var s := View();
      mark := Some(Mark(gen, next));
      tables.Commit(batch);
      phase, hist := Committed(next, took), DoCommit(s).hist;
    }

    method CommitRefused()
      requires Enabled(View(), Journal.CommitFails)
      modifies this`phase
      ensures View() == Next(old(View()), Journal.CommitFails)
    {
      phase := Idle;
    }

    method FinishBatch(next: nat, took: nat)
      requires Enabled(View(), Finish) && phase == Committed(next, took)
      modifies this`overflow, this`ckpt, this`ckptFile, this`phase, this`hist
      ensures View() == Next(old(View()), Finish)
    {
      overflow := overflow[took..];
      ckpt := next;
      ckptFile := Some(next);
      phase := Idle;
      hist := hist.(ckptNew := true);
    }

    method Rest()
      requires Enabled(View(), Journal.Rest)
      modifies this`phase
      ensures View() == Next(old(View()), Journal.Rest)
    {
      phase := Idle;
    }

    method AnnounceRotation()
      requires Enabled(View(), RotateMark)
      modifies this
      ensures View() == Next(old(View()), RotateMark)
    {
      mark := Some(Mark(gen + 1, 0));
      phase := Rotating;
      hist := hist.(markNew := true);
    }

    method CutFile()
      requires Enabled(View(), Truncate)
      modifies this
      ensures View() == Next(old(View()), Truncate)
    {
      EmptyFile();
      phase := Truncated;
    }

    method EmptyFile()
      requires running
      modifies this
      ensures View() == old(View()).(disk := Disk([], old(torn), old(ckptFile)), proc := Up(0, 0, old(gen) + 1, old(overflow), old(phase)),
                                     hist := old(hist).(bound := 0, ckptNew := false))
      ensures running && phase == old(phase)
    {
      lines := [];
      gen, size, ckpt := gen + 1, 0, 0;
      hist := hist.(bound := 0, ckptNew := false);
    }

    method PutBoundaryBack(saved: bool)
      requires Enabled(View(), TruncateFails)
      modifies this
      ensures View() == Next(old(View()), if saved then TruncateFails else PutBackFails)
    {
      if saved {
        mark := Some(Mark(gen, size));
        hist := hist.(markNew := true);
      }
      phase := Idle;
    }

    method ResetCheckpoint()
      requires Enabled(View(), Reset)
      modifies this
      ensures View() == Next(old(View()), Reset)
    {
      ckptFile := Some(0);
      phase := Idle;
      hist := hist.(ckptNew := true);
    }

    /** Cuts a fully committed journal that has grown past the limit: new generation first,
        then the file, then the file checkpoint. The database may refuse the new generation, the
        file may refuse the cut, and the database may then refuse to take the old one back. */
    method MaybeRotate(savable: bool, cuttable: bool, restorable: bool) returns (ghost steps: seq<Event>)
      requires Enabled(View(), Journal.Rest)
      modifies this
      ensures IsRun(old(View()), steps) && View() == Run(old(View()), steps)
      ensures running && phase.Idle? && overflow == old(overflow)
      ensures steps == [Journal.Rest] || RotationSteps(steps)
    {
      ghost var s := View();
      steps := [];
      if size < ROTATE_AFTER || ckpt != size || !savable {
        Rest();
        steps := Extend(s, steps, Journal.Rest);
        return;
      }
      steps := Rotate(cuttable, restorable);
    }

    method Rotate(cuttable: bool, restorable: bool) returns (ghost steps: seq<Event>)
      requires Enabled(View(), RotateMark)
      modifies this
      ensures IsRun(old(View()), steps) && View() == Run(old(View()), steps)
      ensures running && phase.Idle? && overflow == old(overflow) && RotationSteps(steps)
    {
      ghost var s := View();
      AnnounceRotation();
      steps := Extend(s, [], RotateMark);
      ghost var rest := CutOrPutBack(cuttable, restorable);
      RunConcat(s, steps, rest);
      steps := steps + rest;
    }

    method CutOrPutBack(cuttable: bool, restorable: bool) returns (ghost steps: seq<Event>)
      requires Enabled(View(), Truncate)
      modifies this
      ensures IsRun(old(View()), steps) && View() == Run(old(View()), steps)
      ensures running && phase.Idle? && overflow == old(overflow)
      ensures steps == [TruncateFails] || steps == [PutBackFails] || steps == [Truncate, Reset]
    {
      if cuttable {
        steps := CutAndReset();
      } else {
        ghost var s := View();
        PutBoundaryBack(restorable);
        steps := Extend(s, [], if restorable then TruncateFails else PutBackFails);
      }
    }

    method CutAndReset() returns (ghost steps: seq<Event>)
      requires Enabled(View(), Truncate)
      modifies this
      ensures steps == [Truncate, Reset] && IsRun(old(View()), steps) && View() == Run(old(View()), steps)
      ensures running && phase.Idle? && overflow == old(overflow)
    {
      ghost var s := View();
      CutFile();
      ResetCheckpoint();
      steps := [Truncate, Reset];
      RunPair(s, Truncate, Reset);
    }

    method FillBatch() returns (full: seq<CallLog>, next: nat, took: nat, ghost steps: seq<Event>)
      requires Enabled(View(), Journal.ReadBatch)
      modifies this`phase
      ensures steps == [Journal.ReadBatch, Take] && IsRun(old(View()), steps) && View() == Run(old(View()), steps)
      ensures View() == Next(Next(old(View()), Journal.ReadBatch), Take)
      ensures phase.Taken? && phase == Taken(full, next, took, phase.asOf)
    {
      ghost var s := View();
      var batch;
      batch, next := ReadBatch();
      full, took := TakeOverflow(batch, next);
      steps := [Journal.ReadBatch, Take];
      RunPair(s, Journal.ReadBatch, Take);
    }

    method StoreBatch(batch: seq<CallLog>, next: nat, took: nat) returns (ghost steps: seq<Event>)
      requires Enabled(View(), Journal.Commit) && FileInv(View()) && phase == Taken(batch, next, took, phase.asOf)
      modifies this, tables
      ensures steps == [Journal.Commit, Finish] && IsRun(old(View()), steps) && View() == Run(old(View()), steps)
      ensures running && phase.Idle?
    {
      ghost var s := View();
      CommitAt(batch, next, took);
      FinishBatch(next, took);
      steps := [Journal.Commit, Finish];
      RunPair(s, Journal.Commit, Finish);
    }

    /** The transaction goes through, or the database refuses it. */
    method Submit(batch: seq<CallLog>, next: nat, took: nat, accept: bool) returns (ghost steps: seq<Event>)
      requires Enabled(View(), Journal.Commit) && FileInv(View()) && phase == Taken(batch, next, took, phase.asOf)
      modifies this, tables
      ensures IsRun(old(View()), steps) && View() == Run(old(View()), steps)
      ensures running && phase.Idle?
    {
      if accept {
        steps := StoreBatch(batch, next, took);
      } else {
        ghost var s := View();
        CommitRefused();
        steps := Extend(s, [], Journal.CommitFails);
      }
    }

    /** A pass that found nothing to commit may end with a rotation. */
    method EndPass(savable: bool, cuttable: bool, restorable: bool) returns (ghost steps: seq<Event>)
      requires Enabled(View(), Journal.Rest) && Pending(View()) == [] && overflow == []
      modifies this
      ensures IsRun(old(View()), steps) && View() == Run(old(View()), steps)
      ensures running && phase.Idle? && Pending(View()) == [] && overflow == []
    {
      ghost var s := View();
      steps := MaybeRotate(savable, cuttable, restorable);
      RotationKeepsEmpty(s, steps);
    }

    /** One turn of the drain loop: a batch is committed, or there is none and the journal may
        be rotated, or the database refuses. */
    method Turn(accept: bool, savable: bool, cuttable: bool, restorable: bool) returns (outcome: Outcome, ghost steps: seq<Event>)
      requires running && phase.Idle? && FileInv(View())
      modifies this, tables
      ensures IsRun(old(View()), steps) && View() == Run(old(View()), steps)
      ensures running && phase.Idle?
      ensures outcome == Drained ==> Pending(View()) == [] && overflow == []
      ensures outcome == Refused ==> !accept
      ensures outcome == More ==> accept
    {
      ghost var s := View();
      var full, next, took, filled := FillBatch();
      FileRun(s, filled);
      if |full| == 0 { EmptyPassIsDone(s); }
      ghost var rest;
      outcome, rest := Settle(full, next, took, accept, savable, cuttable, restorable);
      steps := filled + rest;
      RunConcat(s, filled, rest);
    }

    /** What is done with a batch, or with none. */
    method Settle(full: seq<CallLog>, next: nat, took: nat, accept: bool, savable: bool, cuttable: bool, restorable: bool)
      returns (outcome: Outcome, ghost steps: seq<Event>)
      requires running && phase.Taken? && phase == Taken(full, next, took, phase.asOf) && FileInv(View())
      requires full == [] ==> Pending(View()) == [] && overflow == []
      modifies this, tables
      ensures IsRun(old(View()), steps) && View() == Run(old(View()), steps)
      ensures running && phase.Idle?
      ensures outcome == if full == [] then Drained else if accept then More else Refused
      ensures full == [] ==> Pending(View()) == [] && overflow == []
    {
      if |full| == 0 {
        steps := EndPass(savable, cuttable, restorable);
        outcome := Drained;
      } else {
        steps := Submit(full, next, took, accept);
        outcome := if accept then More else Refused;
      }
    }

    /** Batches are committed until one comes back empty or the database refuses. accepted is
        how many commits the database will take. A drain that returns ok has left nothing
        uncommitted, in the file or in memory. */
    method Drain(accepted: nat, savable: bool, cuttable: bool, restorable: bool) returns (ok: bool, ghost steps: seq<Event>)
      requires running && phase.Idle? && FileInv(View())
      modifies this, tables
      ensures IsRun(old(View()), steps) && View() == Run(old(View()), steps)
      ensures running && phase.Idle?
      ensures ok ==> Pending(View()) == [] && overflow == []
    {
      ghost var s := View();
      steps := [];
      for left := accepted downto 0
        invariant running && phase.Idle? && FileInv(s)
        invariant IsRun(s, steps) && View() == Run(s, steps)
      {
        FileRun(s, steps);
        var outcome, turn := Turn(true, savable, cuttable, restorable);
        RunConcat(s, steps, turn);
        steps := steps + turn;
        if outcome == Drained { return true, steps; }
      }
      FileRun(s, steps);
      var outcome, turn := Turn(false, savable, cuttable, restorable);
      RunConcat(s, steps, turn);
      ok, steps := outcome == Drained, steps + turn;
    }

    /** The janitor's round over the tables, while the journal goes on. */
    method Cleanup(now: int, days: int, survivors: set<Label>, trim: bool)
      modifies this`hist, tables
      ensures View() == Next(old(View()), Upkeep(LedgerRuns.Cleanup(now, days, survivors, trim)))
    {
      ghost var b := LedgerRuns.Next(Books(View()), LedgerRuns.Cleanup(now, days, survivors, trim));
      tables.Cleanup(now, days, survivors, trim);
      hist := hist.(folded := b.history, stored := b.stored, trimmed := b.trimmed);
    }

    /** A rebuild that an administrator asks for. */
    method Rebuild(from: int, to: int, days: int, now: int) returns (ok: bool)
      modifies tables
      ensures View() == Next(old(View()), Upkeep(LedgerRuns.Rebuild(from, to, days, now)))
    {
      ok := tables.Rebuild(from, to, days, now);
    }

    /** Opens the journal and reconciles the two boundaries, up to where records are accepted. */
    method Reconcile(saved: bool) returns (ghost steps: seq<Event>)
      requires !running
      modifies this
      ensures IsRun(old(View()), steps) && View() == Run(old(View()), steps)
      ensures running && phase.Idle?
      ensures steps == [Open, Load, Saving(saved)] || steps == [Open, Load, Rewrite, Saving(saved)]
    {
      ghost var s := View();
      OpenJournal();
      steps := Extend(s, [], Open);
      ghost var load := LoadBoundary();
      RunConcat(s, steps, load);
      steps := steps + load;
      SaveBoundary(saved);
      steps := Extend(s, steps, Saving(saved));
    }

    /** Starting up: open, reconcile the two boundaries, and commit the tail the last process
        left, before anything else. That the boundary could not be saved is only logged. */
    method Start(saved: bool, accepted: nat, savable: bool, cuttable: bool, restorable: bool)
      returns (ok: bool, ghost steps: seq<Event>)
      requires !running && FileInv(View())
      modifies this, tables
      ensures IsRun(old(View()), steps) && View() == Run(old(View()), steps)
      ensures running && phase.Idle? && (ok ==> Pending(View()) == [])
    {
      ghost var s := View();
      steps := Reconcile(saved);
      FileRun(s, steps);
      ghost var drain;
      ok, drain := Drain(accepted, savable, cuttable, restorable);
      RunConcat(s, steps, drain);
      steps := steps + drain;
    }
  }

  function Saving(saved: bool): Event { if saved then Save else SaveFails }

  predicate RotationSteps(steps: seq<Event>) {
    steps == [RotateMark, TruncateFails] || steps == [RotateMark, PutBackFails] || steps == [RotateMark, Truncate, Reset]
  }

  ghost function Extend(s: State, es: seq<Event>, e: Event): (r: seq<Event>)
    requires IsRun(s, es) && Enabled(Run(s, es), e)
    ensures IsRun(s, r) && Run(s, r) == Next(Run(s, es), e)
  {
    RunSnoc(s, es, e);
    es + [e]
  }

  lemma {:induction false} RunPair(s: State, a: Event, b: Event)
    requires Enabled(s, a) && Enabled(Next(s, a), b)
    ensures IsRun(s, [a, b]) && Run(s, [a, b]) == Next(Next(s, a), b)
  {
    assert [] + [a] == [a] && [a] + [b] == [a, b];
    RunSnoc(s, [], a);
    RunSnoc(s, [a], b);
  }

  lemma {:induction false} LineRead(t: seq<Line>, k: nat)
    requires k < |t|
    ensures Recs(t[..k + 1]) == Recs(t[..k]) + (if t[k].rec.Some? then [t[k].rec.value] else [])
    ensures Size(t[..k + 1]) == Size(t[..k]) + t[k].len
  {
    assert t[..k + 1] == t[..k] + [t[k]];
    RecsConcat(t[..k], [t[k]]);
    SizeConcat(t[..k], [t[k]]);
    assert [t[k]][1..] == [];
  }

  /** After k lines of a read. */
  ghost predicate ReadSoFar(t: seq<Line>, k: nat, rest: seq<Line>, batch: seq<CallLog>) {
    && k <= |t| && rest == t[k..] && batch == Recs(t[..k]) && |batch| <= BATCH_MAX
    && ScanCount(t, BATCH_MAX) == k + ScanCount(rest, BATCH_MAX - |batch|)
  }

  lemma {:induction false} ReadOn(t: seq<Line>, k: nat, rest: seq<Line>, batch: seq<CallLog>)
    requires ReadSoFar(t, k, rest, batch) && |batch| < BATCH_MAX && rest != []
    ensures ReadSoFar(t, k + 1, rest[1..], batch + (if rest[0].rec.Some? then [rest[0].rec.value] else []))
    ensures Size(t[..k + 1]) == Size(t[..k]) + rest[0].len
  {
    LineRead(t, k);
    ScanNext(t, k, BATCH_MAX - |batch|);
    assert rest[1..] == t[k + 1..];
  }

  lemma {:induction false} ScanNext(t: seq<Line>, k: nat, room: nat)
    requires k < |t| && room > 0
    ensures ScanCount(t[k..], room) == 1 + ScanCount(t[k + 1..], if t[k].rec.Some? then room - 1 else room)
  {
    assert t[k..][1..] == t[k + 1..] && t[k..][0] == t[k];
  }

  /** A pass that reads no record from an idle state has nothing left to read, and took
      nothing from memory because nothing was there. */
  lemma {:induction false} EmptyPassIsDone(s: State)
    requires FileInv(s) && Enabled(s, Journal.ReadBatch)
    requires var r := Next(s, Journal.ReadBatch); Next(r, Take).proc.phase.batch == []
    ensures s.proc.overflow == [] && Pending(Next(Next(s, Journal.ReadBatch), Take)) == []
  {
    var t := Tail(s.disk.lines, s.proc.ckpt);
    ScanExhausts(t, BATCH_MAX);
    assert t[..|t|] == t;
  }

  lemma {:induction false} RotationKeepsEmpty(s: State, steps: seq<Event>)
    requires s.proc.Up? && s.proc.phase.Taken? && Pending(s) == [] && IsRun(s, steps)
    requires steps == [Journal.Rest] || RotationSteps(steps)
    ensures Pending(Run(s, steps)) == []
  {
    if steps == [Journal.Rest] {
      assert steps[1..] == [];
    } else if steps == [RotateMark, Truncate, Reset] {
      CutKeepsEmpty(s);
    } else {
      RunPair(s, RotateMark, steps[1]);
    }
  }

  lemma {:induction false} CutKeepsEmpty(s: State)
    requires s.proc.Up? && s.proc.phase.Taken? && IsRun(s, [RotateMark, Truncate, Reset])
    ensures Pending(Run(s, [RotateMark, Truncate, Reset])) == []
  {
    RunPair(s, RotateMark, Truncate);
    RunSnoc(s, [RotateMark, Truncate], Reset);
    assert [RotateMark, Truncate] + [Reset] == [RotateMark, Truncate, Reset];
  }
}

/** The metering journal as a machine: what is in memory, what is on disk, what is in the
    database, the database's own upkeep, and a crash that can come between any two steps.

    The journal file is a sequence of lines, each with its length in bytes, followed by the
    torn bytes of an append a crash interrupted. All offsets are byte offsets. */
module Journal {
  import opened Usage
  import opened Ledger
  import opened Wrappers
  import LedgerRuns

  const ROTATE_AFTER: nat := 33554432
  const BATCH_MAX: nat := 500
  const OVERFLOW_MAX: nat := 32768
  const TAIL_WINDOW: nat := 1048576

  type Length = n: int | n >= 1 witness 1

  /** A line that does not decode to a log with a request id has no record. */
  datatype Line = Line(rec: Option<CallLog>, len: Length)

  datatype Disk = Disk(lines: seq<Line>, torn: nat, ckpt: Option<nat>)

  /** The journal boundary the database records: "<generation>:<offset>". */
  datatype Mark = Mark(gen: int, off: nat)

  /** Where the process stands between two durable steps. asOf is the set of request ids
      the journal held when the current drain pass read it. */
  datatype Phase =
    | Opened
    | Rewriting
    | Loaded
    | Idle
    | Reading(batch: seq<CallLog>, next: nat, asOf: set<Label>)
    | Taken(batch: seq<CallLog>, next: nat, took: nat, asOf: set<Label>)
    | Committed(next: nat, took: nat)
    | Rotating
    | Truncated

  datatype Proc = Down | Up(size: nat, ckpt: nat, gen: int, overflow: seq<CallLog>, phase: Phase)

  /** What no component stores: the offset up to which the current file is rolled up, every
      log rolled up so far in order, which of those are still stored, how far the rollup is
      trimmed, the ids ever issued, the ids ever fully journaled, and of each of the two stored
      boundaries whether it was written, or accepted by a start, since the file was last cut. */
  datatype History = History(bound: nat, folded: seq<CallLog>, stored: seq<bool>, trimmed: Option<int>,
                             issued: set<Label>, journaled: set<Label>, ckptNew: bool, markNew: bool)

  datatype State = State(disk: Disk, db: Db, mark: Option<Mark>, proc: Proc, hist: History)

  const START: State := State(Disk([], 0, None), Db([], map[], None), None, Down, History(0, [], [], None, {}, {}, true, true))

  /** The metering tables with their history. */
  function Books(s: State): LedgerRuns.State { LedgerRuns.State(s.db, s.hist.folded, s.hist.stored, s.hist.trimmed) }

  /** SaveFails and PutBackFails leave the boundary in the database as it was. Upkeep is a
      cleanup, a rebuild or the stamping of a row, at any time. CrashWriting comes while the
      checkpoint file is rewritten and leaves it empty. */
  datatype Event =
    | Open
    | Load
    | Rewrite
    | Save
    | SaveFails
    | Append(line: Line)
    | WriteFails(rec: CallLog)
    | ReadBatch
    | Take
    | Commit
    | CommitFails
    | Finish
    | Rest
    | RotateMark
    | Truncate
    | TruncateFails
    | PutBackFails
    | Reset
    | Upkeep(e: LedgerRuns.Event)
    | Crash(torn: nat)
    | CrashWriting

  // ---------------------------------------------------------------------------
  // The file
  // ---------------------------------------------------------------------------

  function Size(ls: seq<Line>): nat {
    if ls == [] then 0 else ls[0].len + Size(ls[1..])
  }

  /** The records of the lines that decode, in order. */
  function Recs(ls: seq<Line>): seq<CallLog> {
    if ls == [] then [] else (if ls[0].rec.Some? then [ls[0].rec.value] else []) + Recs(ls[1..])
  }

  /** What a reader positioned at a byte offset sees. Inside a line it sees the rest of that
      line, which does not decode. */
  function Tail(ls: seq<Line>, off: nat): seq<Line> {
    if off == 0 || ls == [] then ls
    else if off >= ls[0].len then Tail(ls[1..], off - ls[0].len)
    else [Line(None, ls[0].len - off)] + ls[1..]
  }

  /** Offset 0, or just after a newline. */
  predicate Boundary(ls: seq<Line>, off: nat) {
    off == 0 || (ls != [] && off >= ls[0].len && Boundary(ls[1..], off - ls[0].len))
  }

  /** Opening drops torn bytes by looking for a newline in the last TAIL_WINDOW bytes only;
      when it finds none the whole file is cut to nothing. */
  function Recovered(ls: seq<Line>, torn: nat): seq<Line> {
    if torn < TAIL_WINDOW then ls else []
  }

  /** How many lines one read consumes: it stops at the end or once the batch is full. */
  function ScanCount(t: seq<Line>, room: nat): (k: nat)
    ensures k <= |t|
  {
    if t == [] || room == 0 then 0
    else 1 + ScanCount(t[1..], if t[0].rec.Some? then room - 1 else room)
  }

  function Min(a: int, b: int): int { if a <= b then a else b }

  // ---------------------------------------------------------------------------
  // Steps
  // ---------------------------------------------------------------------------

  /** Opening accepts any file checkpoint that is not past the end. */
  predicate Accepted(d: Disk) { d.ckpt.Some? && d.ckpt.value <= Size(d.lines) }

  function FileStart(d: Disk): nat { if Accepted(d) then d.ckpt.value else 0 }

  /** Whether the database boundary overrides the file checkpoint. */
  predicate MarkWins(s: State, ck: nat) {
    s.mark.Some? && s.mark.value.off > ck && Boundary(s.disk.lines, s.mark.value.off)
  }

  /** Appends go through a lock that rotation holds, and start once New has returned. */
  predicate Accepting(p: Proc) {
    p.Up? && !p.phase.Opened? && !p.phase.Rewriting? && !p.phase.Loaded? && !p.phase.Rotating? && !p.phase.Truncated?
  }

  /** The checkpoint file is about to be rewritten. */
  predicate Writing(s: State) {
    s.proc.Up? && (s.proc.phase.Rewriting? || s.proc.phase.Committed? || s.proc.phase.Truncated?)
  }

  predicate Enabled(s: State, e: Event) {
    match e
    case Open => s.proc.Down?
    case Load => s.proc.Up? && s.proc.phase.Opened?
    case Rewrite => s.proc.Up? && s.proc.phase.Rewriting?
    case Save => s.proc.Up? && s.proc.phase.Loaded?
    case SaveFails => s.proc.Up? && s.proc.phase.Loaded?
    case Append(l) => Accepting(s.proc) && (l.rec.Some? ==> l.rec.value.requestId !in s.hist.issued)
    case WriteFails(rec) => Accepting(s.proc) && rec.requestId !in s.hist.issued
    case ReadBatch => s.proc.Up? && s.proc.phase.Idle?
    case Take => s.proc.Up? && s.proc.phase.Reading?
    case Commit => s.proc.Up? && s.proc.phase.Taken? && s.proc.phase.batch != []
    case CommitFails => s.proc.Up? && s.proc.phase.Taken? && s.proc.phase.batch != []
    case Finish => s.proc.Up? && s.proc.phase.Committed? && s.proc.phase.took <= |s.proc.overflow|
    case Rest => s.proc.Up? && s.proc.phase.Taken? && s.proc.phase.batch == []
    case RotateMark => s.proc.Up? && s.proc.phase.Taken? && s.proc.phase.batch == []
                       && s.proc.size >= ROTATE_AFTER && s.proc.ckpt == s.proc.size
    case Truncate => s.proc.Up? && s.proc.phase.Rotating?
    case TruncateFails => s.proc.Up? && s.proc.phase.Rotating?
    case PutBackFails => s.proc.Up? && s.proc.phase.Rotating?
    case Reset => s.proc.Up? && s.proc.phase.Truncated?
    case Upkeep(u) => !u.Commit?
    case Crash(torn) => s.proc.Up? && (torn > 0 ==> Accepting(s.proc))
    case CrashWriting => Writing(s)
  }

  function DoOpen(s: State): State {
    var lines := Recovered(s.disk.lines, s.disk.torn);
    var d := Disk(lines, 0, s.disk.ckpt);
    s.(disk := d, proc := Up(Size(lines), FileStart(d), 0, [], Opened),
       hist := if lines == s.disk.lines then s.hist else s.hist.(bound := 0, ckptNew := false, markNew := false))
  }

  function DoLoad(s: State): State
    requires s.proc.Up?
  {
    var gen := if s.mark.Some? then s.mark.value.gen else 0;
    if MarkWins(s, s.proc.ckpt) then
      var off := s.mark.value.off;
      s.(proc := s.proc.(gen := gen, ckpt := off, phase := Rewriting), hist := s.hist.(bound := off, markNew := true))
    else
      s.(proc := s.proc.(gen := gen, phase := Loaded),
         hist := s.hist.(bound := s.proc.ckpt, ckptNew := s.hist.ckptNew || Accepted(s.disk)))
  }

  function DoAppend(s: State, l: Line): State
    requires s.proc.Up?
  {
    var ids := if l.rec.Some? then {l.rec.value.requestId} else {};
    s.(disk := s.disk.(lines := s.disk.lines + [l]), proc := s.proc.(size := s.proc.size + l.len),
       hist := s.hist.(issued := s.hist.issued + ids, journaled := s.hist.journaled + ids))
  }

  function DoWriteFails(s: State, rec: CallLog): State
    requires s.proc.Up?
  {
    s.(proc := s.proc.(overflow := if |s.proc.overflow| < OVERFLOW_MAX then s.proc.overflow + [rec] else s.proc.overflow),
       hist := s.hist.(issued := s.hist.issued + {rec.requestId}))
  }

  function DoReadBatch(s: State): State
    requires s.proc.Up?
  {
    var t := Tail(s.disk.lines, s.proc.ckpt);
    var k := ScanCount(t, BATCH_MAX);
    s.(proc := s.proc.(phase := Reading(Recs(t[..k]), s.proc.ckpt + Size(t[..k]), s.hist.journaled)))
  }

  function DoTake(s: State): State
    requires s.proc.Up? && s.proc.phase.Reading?
  {
    var p := s.proc.phase;
    var took := if |p.batch| < BATCH_MAX then Min(BATCH_MAX - |p.batch|, |s.proc.overflow|) else 0;
    s.(proc := s.proc.(phase := Taken(p.batch + s.proc.overflow[..took], p.next, took, p.asOf)))
  }

  function DoCommit(s: State): State
    requires s.proc.Up? && s.proc.phase.Taken?
  {
    var p := s.proc.phase;
    var added := NormalizeAll(Fresh(p.batch, Ids(s.db.rows)));
    s.(mark := Some(Mark(s.proc.gen, p.next)), db := Ledger.Committed(s.db, p.batch),
       proc := s.proc.(phase := Committed(p.next, p.took)),
       hist := s.hist.(bound := p.next, markNew := true, folded := s.hist.folded + added,
                       stored := s.hist.stored + LedgerRuns.Marks(|added|)))
  }

  function DoUpkeep(s: State, u: LedgerRuns.Event): State {
    var b := LedgerRuns.Next(Books(s), u);
    s.(db := b.db, hist := s.hist.(folded := b.history, stored := b.stored, trimmed := b.trimmed))
  }

  function DoFinish(s: State): State
    requires s.proc.Up? && s.proc.phase.Committed? && s.proc.phase.took <= |s.proc.overflow|
  {
    var p := s.proc.phase;
    s.(proc := s.proc.(overflow := s.proc.overflow[p.took..], ckpt := p.next, phase := Idle),
       disk := s.disk.(ckpt := Some(p.next)), hist := s.hist.(ckptNew := true))
  }

  function Next(s: State, e: Event): State
    requires Enabled(s, e)
  {
    match e
    case Open => DoOpen(s)
    case Load => DoLoad(s)
    case Rewrite =>
      s.(disk := s.disk.(ckpt := Some(s.proc.ckpt)), proc := s.proc.(phase := Loaded), hist := s.hist.(ckptNew := true))
    case Save =>
      s.(mark := Some(Mark(s.proc.gen, s.proc.ckpt)), proc := s.proc.(phase := Idle), hist := s.hist.(markNew := true))
    case SaveFails => s.(proc := s.proc.(phase := Idle))
    case Append(l) => DoAppend(s, l)
    case WriteFails(rec) => DoWriteFails(s, rec)
    case ReadBatch => DoReadBatch(s)
    case Take => DoTake(s)
    case Commit => DoCommit(s)
    case CommitFails => s.(proc := s.proc.(phase := Idle))
    case Finish => DoFinish(s)
    case Rest => s.(proc := s.proc.(phase := Idle))
    case RotateMark =>
      s.(mark := Some(Mark(s.proc.gen + 1, 0)), proc := s.proc.(phase := Rotating), hist := s.hist.(markNew := true))
    case Truncate =>
      s.(disk := s.disk.(lines := []), proc := s.proc.(size := 0, ckpt := 0, gen := s.proc.gen + 1, phase := Truncated),
         hist := s.hist.(bound := 0, ckptNew := false))
    case TruncateFails =>
      s.(mark := Some(Mark(s.proc.gen, s.proc.size)), proc := s.proc.(phase := Idle), hist := s.hist.(markNew := true))
    case PutBackFails => s.(proc := s.proc.(phase := Idle))
    case Reset => s.(disk := s.disk.(ckpt := Some(0)), proc := s.proc.(phase := Idle), hist := s.hist.(ckptNew := true))
    case Upkeep(u) => DoUpkeep(s, u)
    case Crash(torn) => s.(disk := s.disk.(torn := torn), proc := Down)
    case CrashWriting => s.(disk := s.disk.(ckpt := None), proc := Down)
  }

  /** A run: a sequence of events each enabled when it happens. */
  predicate IsRun(s: State, es: seq<Event>)
    decreases |es|
  {
    es == [] || (Enabled(s, es[0]) && IsRun(Next(s, es[0]), es[1..]))
  }

  function Run(s: State, es: seq<Event>): State
    requires IsRun(s, es)
    decreases |es|
  {
    if es == [] then s else Run(Next(s, es[0]), es[1..])
  }

  lemma {:induction false} RunConcat(s: State, a: seq<Event>, b: seq<Event>)
    requires IsRun(s, a) && IsRun(Run(s, a), b)
    ensures IsRun(s, a + b) && Run(s, a + b) == Run(Run(s, a), b)
    decreases |a|
  {
    if a == [] {
      assert a + b == b;
    } else {
      assert (a + b)[1..] == a[1..] + b;
      RunConcat(Next(s, a[0]), a[1..], b);
    }
  }

  // ---------------------------------------------------------------------------
  // Facts about the file
  // ---------------------------------------------------------------------------

  lemma {:induction false} SizeConcat(a: seq<Line>, b: seq<Line>)
    ensures Size(a + b) == Size(a) + Size(b)
  {
    if a == [] { assert a + b == b; } else { assert (a + b)[1..] == a[1..] + b; SizeConcat(a[1..], b); }
  }

  lemma {:induction false} RecsConcat(a: seq<Line>, b: seq<Line>)
    ensures Recs(a + b) == Recs(a) + Recs(b)
  {
    if a == [] {
      assert a + b == b;
    } else {
      assert (a + b)[1..] == a[1..] + b && (a + b)[0] == a[0];
      RecsConcat(a[1..], b);
      var first := if a[0].rec.Some? then [a[0].rec.value] else [];
      assert first + (Recs(a[1..]) + Recs(b)) == (first + Recs(a[1..])) + Recs(b);
    }
  }

  lemma {:induction false} TailAppend(ls: seq<Line>, l: Line, off: nat)
    requires off <= Size(ls)
    ensures Tail(ls + [l], off) == Tail(ls, off) + [l]
    ensures Boundary(ls, off) ==> Boundary(ls + [l], off)
  {
    if off != 0 && ls != [] {
      assert (ls + [l])[1..] == ls[1..] + [l];
      if off >= ls[0].len { TailAppend(ls[1..], l, off - ls[0].len); }
    }
  }

  /** Consuming k lines of what a reader sees moves it past exactly those lines, onto a
      line boundary. */
  lemma {:induction false} TailAdvance(ls: seq<Line>, off: nat, k: nat)
    requires off <= Size(ls) && k <= |Tail(ls, off)|
    ensures var t := Tail(ls, off); var next := off + Size(t[..k]);
            next <= Size(ls) && Tail(ls, next) == t[k..] && (k > 0 ==> Boundary(ls, next))
  {
    var t := Tail(ls, off);
    if k == 0 {
      assert t[..0] == [];
    } else if off == 0 {
      assert t == ls && t[..k][1..] == t[1..][..k - 1];
      if k == 1 { assert t[..1][1..] == []; }
      TailAdvance(ls[1..], 0, k - 1);
      assert ls[1..][k - 1..] == ls[k..];
    } else if off >= ls[0].len {
      TailAdvance(ls[1..], off - ls[0].len, k);
    } else {
      assert t[..k] == [t[0]] + ls[1..][..k - 1];
      assert t[..k][1..] == ls[1..][..k - 1];
      TailAdvance(ls[1..], 0, k - 1);
      assert t[k..] == ls[1..][k - 1..];
    }
  }

  lemma {:induction false} BoundaryInFile(ls: seq<Line>, off: nat)
    requires Boundary(ls, off)
    ensures off <= Size(ls)
  {
    if off != 0 { BoundaryInFile(ls[1..], off - ls[0].len); }
  }

  predicate EndsWith(a: seq<CallLog>, b: seq<CallLog>) { |b| <= |a| && a[|a| - |b|..] == b }

  /** Reading on from a later offset sees a suffix of the records. */
  lemma {:induction false} TailLater(ls: seq<Line>, a: nat, b: nat)
    requires a <= b <= Size(ls)
    ensures EndsWith(Recs(Tail(ls, a)), Recs(Tail(ls, b)))
  {
    if b != a {
      if b >= ls[0].len {
        TailLater(ls[1..], if a >= ls[0].len then a - ls[0].len else 0, b - ls[0].len);
      }
      if a < ls[0].len {
        assert Tail(ls, a)[1..] == ls[1..];
        EndsWithMore(Tail(ls, a)[0], ls[1..], Recs(Tail(ls, b)));
      }
    }
  }

  lemma {:induction false} EndsWithMore(l: Line, rest: seq<Line>, b: seq<CallLog>)
    ensures EndsWith(Recs(rest), b) ==> EndsWith(Recs([l] + rest), b)
  {
    assert ([l] + rest)[1..] == rest;
    if l.rec.None? { assert Recs([l] + rest) == [] + Recs(rest); }
  }

  /** Nothing left to read means the reader is at the end, which is a line boundary. */
  lemma {:induction false} EmptyTailIsEnd(ls: seq<Line>, off: nat)
    requires off <= Size(ls) && Tail(ls, off) == []
    ensures off == Size(ls) && Boundary(ls, off)
  {
    if ls != [] && off >= ls[0].len { EmptyTailIsEnd(ls[1..], off - ls[0].len); }
  }

  /** A line that decodes starts at or after a, and before b. */
  predicate RecordBetween(ls: seq<Line>, a: int, b: int) {
    ls != [] && ((a <= 0 < b && ls[0].rec.Some?) || RecordBetween(ls[1..], a - ls[0].len, b - ls[0].len))
  }

  lemma {:induction false} NoneBetween(ls: seq<Line>, a: int, b: int)
    requires b <= 0 || b <= a
    ensures !RecordBetween(ls, a, b)
  {
    if ls != [] { NoneBetween(ls[1..], a - ls[0].len, b - ls[0].len); }
  }

  function AtLeastZero(n: int): nat { if n < 0 then 0 else n }

  /** Two offsets see the same records exactly when no line that decodes starts between them. */
  lemma {:induction false} BetweenIs(ls: seq<Line>, a: int, b: int)
    requires a <= b <= Size(ls)
    ensures Recs(Tail(ls, AtLeastZero(a))) == Recs(Tail(ls, AtLeastZero(b))) <==> !RecordBetween(ls, a, b)
    decreases |ls|
  {
    if b <= 0 || ls == [] {
      NoneBetween(ls, a, b);
    } else {
      BetweenIs(ls[1..], a - ls[0].len, b - ls[0].len);
      if a > 0 {
        PastFirst(ls, a);
        PastFirst(ls, b);
      } else {
        FromStart(ls, b);
      }
    }
  }

  lemma {:induction false} FromStart(ls: seq<Line>, b: nat)
    requires ls != [] && 0 < b <= Size(ls)
    ensures ls[0].rec.None? ==> Recs(ls) == Recs(ls[1..]) && Recs(Tail(ls, b)) == Recs(Tail(ls[1..], AtLeastZero(b - ls[0].len)))
    ensures ls[0].rec.Some? ==> Recs(ls) != Recs(Tail(ls, b))
  {
    PastFirst(ls, b);
    if ls[0].rec.Some? {
      TailLater(ls[1..], 0, AtLeastZero(b - ls[0].len));
      assert |Recs(ls)| == 1 + |Recs(ls[1..])|;
    } else {
      assert Recs(ls) == [] + Recs(ls[1..]);
    }
  }

  lemma {:induction false} PastFirst(ls: seq<Line>, off: nat)
    requires ls != [] && off > 0
    ensures Recs(Tail(ls, off)) == Recs(Tail(ls[1..], AtLeastZero(off - ls[0].len)))
  {
    if off < ls[0].len {
      var t := Tail(ls, off);
      assert t[1..] == ls[1..] && t[0].rec.None?;
      assert Recs(t) == [] + Recs(ls[1..]);
    }
  }

  lemma {:induction false} TailAtEnd(ls: seq<Line>)
    ensures Tail(ls, Size(ls)) == []
  {
    if ls != [] { TailAtEnd(ls[1..]); }
  }

  /** A read that does not fill its batch has read everything there is. */
  lemma {:induction false} ScanExhausts(t: seq<Line>, room: nat)
    ensures var k := ScanCount(t, room);
            |Recs(t[..k])| <= room && (|Recs(t[..k])| < room ==> k == |t|)
  {
    var k := ScanCount(t, room);
    if k == 0 {
      assert t[..0] == [];
    } else {
      assert t[..k][1..] == t[1..][..k - 1] && t[..k][0] == t[0];
      ScanExhausts(t[1..], if t[0].rec.Some? then room - 1 else room);
    }
  }
}

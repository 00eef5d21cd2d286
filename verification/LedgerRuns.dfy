/** Sums per hour, and the hours on which two sides differ. */
module HourSums {
  import opened Wrappers

  datatype HourSum = HourSum(requests: int, tokens: int, cost: int, unverified: int)

  const NOTHING: HourSum := HourSum(0, 0, 0, 0)

  function SumAt(m: map<int, HourSum>, h: int): HourSum { if h in m then m[h] else NOTHING }

  /** The keys of one side whose sums differ from the other side's, absent sums being zero. */
  method Differing(left: map<int, HourSum>, right: map<int, HourSum>) returns (out: set<int>)
    ensures forall h :: h in out <==> h in left && left[h] != SumAt(right, h)
  {
    out := {};
    var rest := left.Keys;
    while rest != {}
      invariant rest <= left.Keys
      invariant forall h :: h in out <==> h in left && h !in rest && left[h] != SumAt(right, h)
    {
      var h := Pick(rest);
      if left[h] != SumAt(right, h) { out := out + {h}; }
      rest := rest - {h};
    }
  }
}

/** Runs of the metering database: commits, cleanups under changing retention, rebuilds and
    the stamping and un-booking of rows in any order, and what every run keeps. */
module LedgerRuns {
  import opened Usage
  import opened RollupLaws
  import opened Ledger
  import opened HourSums
  import opened Wrappers

  /** Stamp is one row of the migration's loop; the whole loop is a run of them. */
  datatype Event =
    | Commit(batch: seq<CallLog>)
    | Cleanup(now: int, days: int, survivors: set<Label>, trim: bool)
    | Rebuild(from: int, to: int, days: int, rebuiltAt: int)
    | Stamp(i: nat, unsure: bool)

  /** The database with the history it no longer holds: every log ever rolled up, as it was
      stamped since, which of them are still stored, and how far the year-old rollup rows
      have been trimmed. */
  datatype State = State(db: Db, history: seq<CallLog>, stored: seq<bool>, trimmed: Option<int>)

  const START: State := State(Db([], map[], None), [], [], None)

  function Later(cur: Option<int>, t: int): Option<int> {
    if cur.Some? && cur.value >= t then cur else Some(t)
  }

  /** The logs of the history that are still stored, in order. */
  function Stored(history: seq<CallLog>, stored: seq<bool>): seq<CallLog> {
    if history == [] || |history| != |stored| then []
    else
      var n := |history| - 1;
      Stored(history[..n], stored[..n]) + (if stored[n] then [history[n]] else [])
  }

  /** What a cleanup leaves stored. */
  function Swept(history: seq<CallLog>, stored: seq<bool>, cutoff: int, survivors: set<Label>): (r: seq<bool>)
    ensures |r| == |stored|
    ensures |history| == |stored| ==>
      forall j :: 0 <= j < |r| ==> (r[j] <==> stored[j] && (history[j].createdAt >= cutoff || history[j].requestId in survivors))
  {
    if history == [] || |history| != |stored| then stored
    else
      var n := |history| - 1;
      var l := history[n];
      Swept(history[..n], stored[..n], cutoff, survivors) + [stored[n] && (l.createdAt >= cutoff || l.requestId in survivors)]
  }

  /** Where in the history the i-th stored row is. */
  function Place(history: seq<CallLog>, stored: seq<bool>, i: nat): (j: nat)
    requires i < |Stored(history, stored)|
    ensures j < |history| == |stored| && stored[j]
  {
    var n := |history| - 1;
    if i < |Stored(history[..n], stored[..n])| then Place(history[..n], stored[..n], i) else n
  }

  function Marks(n: nat): (r: seq<bool>)
    ensures |r| == n && forall j :: 0 <= j < n ==> r[j]
  {
    seq(n, _ => true)
  }

  /** The table holds the stored logs of the history; it always does. */
  predicate Aligned(s: State) { |s.history| == |s.stored| && s.db.rows == Stored(s.history, s.stored) }

  /** The row's occurrence in the history is stamped along with the row. */
  function StampedLog(l: CallLog, unsure: bool): CallLog { if unsure then Settled(l) else Stamped(l, Usd) }

  function Next(s: State, e: Event): State {
    match e
    case Commit(batch) =>
      var added := NormalizeAll(Fresh(batch, Ids(s.db.rows)));
      State(Committed(s.db, batch), s.history + added, s.stored + Marks(|added|), s.trimmed)
    case Cleanup(now, days, survivors, trim) =>
      State(Cleaned(s.db, now, days, survivors, trim), s.history, Swept(s.history, s.stored, Cutoff(now, days), survivors),
            if trim then Later(s.trimmed, Cutoff(now, days) - 365 * DAY) else s.trimmed)
    case Rebuild(from, to, days, now) =>
      State(Rebuilt(s.db, from, to, days, now), s.history, s.stored, s.trimmed)
    case Stamp(i, unsure) =>
      if Aligned(s) && i < |s.db.rows| && NeedsStamp(s.db.rows[i]) then
        var j := Place(s.history, s.stored, i);
        State(StampedRow(s.db, i, unsure), s.history[j := StampedLog(s.history[j], unsure)], s.stored, s.trimmed)
      else s
  }

  /** A run from a state with the invariant, which every step keeps. */
  ghost function Run(s: State, es: seq<Event>): (t: State)
    requires Inv(s)
    ensures Inv(t)
  {
    if es == [] then s
    else
      var before := Run(s, es[..|es| - 1]);
      StepKeeps(before, es[|es| - 1]);
      Next(before, es[|es| - 1])
  }

  /** The hours a rebuild may touch: the ones after the hour of the purge boundary. */
  predicate Rebuildable(purged: Option<int>, h: int) { purged.None? || h >= HourOf(purged.value + HOUR) }

  predicate Untrimmed(trimmed: Option<int>, h: int) { trimmed.None? || h * HOUR >= trimmed.value }

  ghost predicate Normal(logs: seq<CallLog>) { forall l :: l in logs ==> Normalize(l) == l }

  /** No log of an hour a rebuild may touch has been purged. */
  ghost predicate Complete(history: seq<CallLog>, stored: seq<bool>, purged: Option<int>)
    requires |history| == |stored|
  {
    forall j :: 0 <= j < |history| && !stored[j] ==> !Rebuildable(purged, HourOf(history[j].createdAt))
  }

  /** The rollup of every hour not trimmed is the aggregate of what was counted in it. */
  ghost predicate Faithful(rollup: Rollup, history: seq<CallLog>, trimmed: Option<int>) {
    forall h :: Untrimmed(trimmed, h) ==> Slice(rollup, h) == Rows(HourLogs(history, h))
  }

  predicate Ordered(purged: Option<int>, trimmed: Option<int>) {
    && (purged.Some? ==> purged.value % SECOND == 0)
    && (trimmed.Some? ==> purged.Some? && trimmed.value <= purged.value)
  }

  ghost predicate Inv(s: State) {
    && Aligned(s) && Normal(s.db.rows)
    && Complete(s.history, s.stored, s.db.purged)
    && Faithful(s.db.rollup, s.history, s.trimmed)
    && Ordered(s.db.purged, s.trimmed)
  }

  // ---------------------------------------------------------------------------
  // The stored rows within the history
  // ---------------------------------------------------------------------------

  lemma {:induction false} StoredSnoc(history: seq<CallLog>, stored: seq<bool>, l: CallLog, k: bool)
    requires |history| == |stored|
    ensures Stored(history + [l], stored + [k]) == Stored(history, stored) + (if k then [l] else [])
  {
    assert (history + [l])[..|history|] == history && (stored + [k])[..|stored|] == stored;
  }

  lemma {:induction false} StoredAdded(history: seq<CallLog>, stored: seq<bool>, added: seq<CallLog>)
    requires |history| == |stored|
    ensures Stored(history + added, stored + Marks(|added|)) == Stored(history, stored) + added
  {
    if added == [] {
      assert history + added == history && stored + Marks(0) == stored;
    } else {
      var n := |added| - 1;
      StoredAdded(history, stored, added[..n]);
      StoredSnoc(history + added[..n], stored + Marks(n), added[n], true);
      assert history + added == (history + added[..n]) + [added[n]];
      assert stored + Marks(|added|) == (stored + Marks(n)) + [true];
    }
  }

  lemma {:induction false} StoredSwept(history: seq<CallLog>, stored: seq<bool>, cutoff: int, survivors: set<Label>)
    requires |history| == |stored|
    ensures Stored(history, Swept(history, stored, cutoff, survivors)) == KeepRows(Stored(history, stored), cutoff, survivors)
  {
    if history != [] {
      var n := |history| - 1;
      StoredSwept(history[..n], stored[..n], cutoff, survivors);
      var kept := Swept(history, stored, cutoff, survivors);
      assert kept[..n] == Swept(history[..n], stored[..n], cutoff, survivors);
      var rows, before := Stored(history, stored), Stored(history[..n], stored[..n]);
      if stored[n] {
        assert rows[..|rows| - 1] == before && rows[|rows| - 1] == history[n];
      } else {
        assert rows == before;
        assert Stored(history, kept) == Stored(history[..n], kept[..n]);
      }
    }
  }

  lemma {:induction false} PlaceIs(history: seq<CallLog>, stored: seq<bool>, i: nat, l: CallLog)
    requires |history| == |stored| && i < |Stored(history, stored)|
    ensures var j := Place(history, stored, i);
            history[j] == Stored(history, stored)[i] && Stored(history[j := l], stored) == Stored(history, stored)[i := l]
  {
    var n := |history| - 1;
    var j := Place(history, stored, i);
    if i < |Stored(history[..n], stored[..n])| {
      PlaceIs(history[..n], stored[..n], i, l);
      assert history[j := l][..n] == history[..n][j := l];
    } else {
      assert history[j := l][..n] == history[..n];
    }
  }

  lemma {:induction false} StoredMembers(history: seq<CallLog>, stored: seq<bool>)
    requires |history| == |stored|
    ensures forall l :: l in Stored(history, stored) ==> l in history
    ensures forall j :: 0 <= j < |history| && stored[j] ==> history[j] in Stored(history, stored)
  {
    if history != [] {
      var n := |history| - 1;
      StoredMembers(history[..n], stored[..n]);
      assert history == history[..n] + [history[n]];
      forall j | 0 <= j < |history| && stored[j] ensures history[j] in Stored(history, stored) {
        if j < n { assert history[..n][j] == history[j] && stored[..n][j]; }
      }
    }
  }

  /** When all logs of an hour are stored the table holds them in the order they came. */
  lemma {:induction false} StoredHour(history: seq<CallLog>, stored: seq<bool>, h: int)
    requires |history| == |stored| && forall j :: 0 <= j < |history| && !stored[j] ==> HourOf(history[j].createdAt) != h
    ensures HourLogs(Stored(history, stored), h) == HourLogs(history, h)
  {
    if history != [] {
      var n := |history| - 1;
      StoredHour(history[..n], stored[..n], h);
      var before := Stored(history[..n], stored[..n]);
      if stored[n] { HourLogsSnoc(before, history[n], h); } else { assert Stored(history, stored) == before; }
    }
  }

  /** In an hour a rebuild may touch nothing is missing. */
  lemma {:induction false} CompleteHour(s: State, h: int)
    requires Aligned(s) && Complete(s.history, s.stored, s.db.purged) && Rebuildable(s.db.purged, h)
    ensures HourLogs(s.db.rows, h) == HourLogs(s.history, h)
  {
    StoredHour(s.history, s.stored, h);
  }

  // ---------------------------------------------------------------------------
  // Each step keeps the invariant
  // ---------------------------------------------------------------------------

  lemma {:induction false} NormalAll(logs: seq<CallLog>)
    ensures Normal(NormalizeAll(logs))
  {
    if logs != [] {
      NormalAll(logs[..|logs| - 1]);
      NormalizeLaws(logs[|logs| - 1]);
    }
  }

  lemma {:induction false} CommitKeeps(s: State, batch: seq<CallLog>)
    requires Inv(s)
    ensures Inv(Next(s, Commit(batch)))
  {
    var added := NormalizeAll(Fresh(batch, Ids(s.db.rows)));
    NormalAll(Fresh(batch, Ids(s.db.rows)));
    StoredAdded(s.history, s.stored, added);
    CommitFaithful(s.db.rollup, s.history, s.trimmed, added);
  }

  lemma {:induction false} CommitFaithful(rollup: Rollup, history: seq<CallLog>, trimmed: Option<int>, added: seq<CallLog>)
    requires Faithful(rollup, history, trimmed)
    ensures Faithful(Merge(rollup, Rows(added)), history + added, trimmed)
  {
    forall h | Untrimmed(trimmed, h) ensures Slice(Merge(rollup, Rows(added)), h) == Rows(HourLogs(history + added, h)) {
      CommitSlice(rollup, history, added, h);
    }
  }

  lemma {:induction false} CommitSlice(m: Rollup, history: seq<CallLog>, added: seq<CallLog>, h: int)
    requires Slice(m, h) == Rows(HourLogs(history, h))
    ensures Slice(Merge(m, Rows(added)), h) == Rows(HourLogs(history + added, h))
  {
    SliceMerge(m, Rows(added), h);
    RowsByHour(added, h);
    RowsHomomorphism(HourLogs(history, h), HourLogs(added, h));
    HourLogsConcat(history, added, h);
  }

  lemma {:induction false} HourBounds(t: int, h: int)
    ensures HourOf(t) == h ==> h * HOUR <= t < (h + 1) * HOUR
  {
  }

  lemma {:induction false} KeptMembers(rows: seq<CallLog>, cutoff: int, survivors: set<Label>)
    ensures forall l :: l in KeepRows(rows, cutoff, survivors) ==> l in rows
  {
    if rows != [] {
      KeptMembers(rows[..|rows| - 1], cutoff, survivors);
      assert rows == rows[..|rows| - 1] + [rows[|rows| - 1]];
    }
  }

  /** Whatever the boundary was, an hour that stays rebuildable lies wholly after the cutoff. */
  lemma {:induction false} BoundaryCoversCutoff(cur: Option<int>, cutoff: int, h: int)
    requires Rebuildable(SetPurged(cur, cutoff), h)
    ensures h * HOUR >= cutoff && Rebuildable(cur, h)
  {
    var p := SetPurged(cur, cutoff).value;
    SecondInHour(cutoff);
    if cur.Some? && cutoff > cur.value { HourMonotone(cur.value, cutoff); }
    if cur.Some? && cutoff <= cur.value { HourMonotone(cutoff, cur.value); }
    HourBounds(cutoff, HourOf(cutoff));
    assert HourOf(p + HOUR) == HourOf(p) + 1;
  }

  lemma {:induction false} SecondInHour(t: int)
    ensures HourOf(FloorSecond(t)) == HourOf(t) && FloorSecond(t) <= t < FloorSecond(t) + SECOND
  {
    var s, h := t / SECOND, t / HOUR;
    assert HOUR == 3600 * SECOND;
    assert h * HOUR <= t < h * HOUR + HOUR;
    assert s * SECOND <= t < s * SECOND + SECOND;
    assert h * 3600 <= s < h * 3600 + 3600;
    assert h * HOUR <= s * SECOND < h * HOUR + HOUR;
    QuotientIs(s * SECOND, h);
  }

  lemma {:induction false} QuotientIs(t: int, h: int)
    requires h * HOUR <= t < h * HOUR + HOUR
    ensures t / HOUR == h
  {
  }

  lemma {:induction false} HourMonotone(a: int, b: int)
    requires a <= b
    ensures HourOf(a) <= HourOf(b)
  {
  }

  lemma {:induction false} CleanupComplete(history: seq<CallLog>, stored: seq<bool>, purged: Option<int>, cutoff: int, survivors: set<Label>)
    requires |history| == |stored| && Complete(history, stored, purged)
    ensures Complete(history, Swept(history, stored, cutoff, survivors), SetPurged(purged, cutoff))
  {
    var kept, p := Swept(history, stored, cutoff, survivors), SetPurged(purged, cutoff);
    forall j | 0 <= j < |history| && !kept[j] ensures !Rebuildable(p, HourOf(history[j].createdAt)) {
      var h := HourOf(history[j].createdAt);
      HourBounds(history[j].createdAt, h);
      if Rebuildable(p, h) { BoundaryCoversCutoff(purged, cutoff, h); }
    }
  }

  lemma {:induction false} TrimFaithful(rollup: Rollup, history: seq<CallLog>, trimmed: Option<int>, before: int)
    requires Faithful(rollup, history, trimmed)
    ensures Faithful(TrimRollup(rollup, before), history, Later(trimmed, before))
  {
    forall h | Untrimmed(Later(trimmed, before), h) ensures Slice(TrimRollup(rollup, before), h) == Rows(HourLogs(history, h)) {
      TrimSlice(rollup, before, h);
    }
  }

  lemma {:induction false} CleanupOrdered(purged: Option<int>, trimmed: Option<int>, cutoff: int)
    requires Ordered(purged, trimmed)
    ensures Ordered(SetPurged(purged, cutoff), trimmed)
    ensures Ordered(SetPurged(purged, cutoff), Later(trimmed, cutoff - 365 * DAY))
  {
    SecondInHour(cutoff);
    if purged.Some? && cutoff > purged.value { FloorAbove(purged.value, cutoff); }
  }

  lemma {:induction false} CleanupKeeps(s: State, now: int, days: int, survivors: set<Label>, trim: bool)
    requires Inv(s)
    ensures Inv(Next(s, Cleanup(now, days, survivors, trim)))
  {
    var cutoff := Cutoff(now, days);
    KeptMembers(s.db.rows, cutoff, survivors);
    StoredSwept(s.history, s.stored, cutoff, survivors);
    CleanupComplete(s.history, s.stored, s.db.purged, cutoff, survivors);
    TrimFaithful(s.db.rollup, s.history, s.trimmed, cutoff - 365 * DAY);
    CleanupOrdered(s.db.purged, s.trimmed, cutoff);
  }

  lemma {:induction false} TrimSlice(m: Rollup, before: int, h: int)
    ensures h * HOUR >= before ==> Slice(TrimRollup(m, before), h) == Slice(m, h)
  {
  }

  lemma {:induction false} NormalRangeIsSame(rows: seq<CallLog>, f: int, t: int)
    requires Normal(rows)
    ensures NormalizedIn(rows, f, t) == rows
  {
    forall i | 0 <= i < |rows| ensures NormalizedIn(rows, f, t)[i] == rows[i] {
      assert rows[i] in rows;
    }
  }

  lemma {:induction false} RefillSame(m: Rollup, rows: seq<CallLog>, f: int, t: int)
    requires forall h :: f <= h < t ==> Slice(m, h) == Rows(HourLogs(rows, h))
    ensures RefilledTo(OutsideHours(m, f, t), rows, f, t) == m
  {
    var r := Rows(rows);
    forall k
      ensures k in RefilledTo(OutsideHours(m, f, t), rows, f, t) <==> k in m
      ensures k in m ==> RefilledTo(OutsideHours(m, f, t), rows, f, t)[k] == m[k]
    {
      RowsByHour(rows, k.hour);
      assert k in m <==> k in Slice(m, k.hour);
      assert k in r <==> k in Slice(r, k.hour);
      if k in m && f <= k.hour < t { assert m[k] == Slice(m, k.hour)[k] == Slice(r, k.hour)[k] == r[k]; }
    }
  }

  /** In every state a run reaches, a rebuild, allowed or refused, leaves the database
      exactly as it was: the live rollup already is what the raw logs aggregate to, and
      hours with purged logs are out of a rebuild's reach. */
  lemma {:induction false} RebuildChangesNothing(s: State, from: int, to: int, days: int, now: int)
    requires Inv(s)
    ensures Rebuilt(s.db, from, to, days, now) == s.db
  {
    if BoundaryAllows(s.db.purged, from) {
      RangeChangesNothing(s, HourOf(from), HourOf(to) + 1);
    }
  }

  lemma {:induction false} RangeChangesNothing(s: State, f: int, t: int)
    requires Inv(s) && Rebuildable(s.db.purged, f)
    ensures RebuiltRange(s.db, f, t) == s.db
  {
    NormalRangeIsSame(s.db.rows, f, t);
    forall h | f <= h < t ensures Slice(s.db.rollup, h) == Rows(HourLogs(s.db.rows, h)) {
      RebuildableIsUntrimmed(s, h);
      CompleteHour(s, h);
    }
    RefillSame(s.db.rollup, s.db.rows, f, t);
  }

  lemma {:induction false} RebuildableIsUntrimmed(s: State, h: int)
    requires Inv(s) && Rebuildable(s.db.purged, h)
    ensures Untrimmed(s.trimmed, h)
  {
    if s.trimmed.Some? {
      HourBounds(s.db.purged.value, HourOf(s.db.purged.value));
      assert HourOf(s.db.purged.value + HOUR) == HourOf(s.db.purged.value) + 1;
    }
  }

  // ---------------------------------------------------------------------------
  // Stamping and un-booking
  // ---------------------------------------------------------------------------

  lemma {:induction false} SliceUnbook(m: Rollup, rows: Rollup, h: int)
    ensures Slice(UnbookRows(m, rows), h) == UnbookRows(Slice(m, h), Slice(rows, h))
  {
  }

  lemma {:induction false} HourLogsOne(l: CallLog, h: int)
    ensures HourLogs([l], h) == if HourOf(l.createdAt) == h then [l] else []
  {
    HourLogsSnoc([], l, h);
    assert [] + [l] == [l];
  }

  lemma {:induction false} HourLogsAround(a: seq<CallLog>, l: CallLog, b: seq<CallLog>, h: int)
    ensures HourLogs(a + [l] + b, h) == HourLogs(a, h) + (if HourOf(l.createdAt) == h then [l] else []) + HourLogs(b, h)
  {
    HourLogsConcat(a + [l], b, h);
    HourLogsConcat(a, [l], h);
    HourLogsOne(l, h);
  }

  /** Un-booking changes the hour of the row only, and there leaves what the logs aggregate to
      with the row unverified. */
  lemma {:induction false} UnbookHour(m: Rollup, a: seq<CallLog>, l: CallLog, b: seq<CallLog>, h: int)
    requires l.money.ledger != Unverified && Slice(m, h) == Rows(HourLogs(a + [l] + b, h))
    ensures Slice(UnbookRows(m, Rows([Stamped(l, Unstamped)])), h) == Rows(HourLogs(a + [Settled(l)] + b, h))
  {
    var v := Stamped(l, Unstamped);
    SliceUnbook(m, Rows([v]), h);
    RowsByHour([v], h);
    HourLogsOne(v, h);
    HourLogsAround(a, l, b, h);
    HourLogsAround(a, Settled(l), b, h);
    if HourOf(l.createdAt) == h {
      UnbookIsNeverBooked(HourLogs(a, h), l, HourLogs(b, h));
    } else {
      assert Rows([]) == map[];
      assert UnbookRows(Slice(m, h), map[]) == Slice(m, h);
    }
  }

  lemma {:induction false} StampHour(a: seq<CallLog>, l: CallLog, b: seq<CallLog>, h: int)
    requires l.money.ledger != Unverified
    ensures Rows(HourLogs(a + [Stamped(l, Usd)] + b, h)) == Rows(HourLogs(a + [l] + b, h))
  {
    HourLogsAround(a, l, b, h);
    HourLogsAround(a, Stamped(l, Usd), b, h);
    if HourOf(l.createdAt) == h {
      StampIrrelevant(l, Usd);
      MoveToFront(HourLogs(a, h), l, HourLogs(b, h));
      MoveToFront(HourLogs(a, h), Stamped(l, Usd), HourLogs(b, h));
    }
  }

  /** The normaliser looks at usage and attempts only. */
  lemma {:induction false} StampedNormal(rows: seq<CallLog>, i: nat, unsure: bool)
    requires Normal(rows) && i < |rows|
    ensures Normal(rows[i := StampedLog(rows[i], unsure)])
  {
    var x := StampedLog(rows[i], unsure);
    assert rows[i] in rows;
    assert Normalize(x) == x;
  }

  lemma {:induction false} StampFaithful(rollup: Rollup, history: seq<CallLog>, trimmed: Option<int>, j: nat, unsure: bool)
    requires Faithful(rollup, history, trimmed) && j < |history| && history[j].money.ledger != Unverified
    ensures var l := history[j];
            Faithful(if unsure then UnbookRows(rollup, Rows([Stamped(l, Unstamped)])) else rollup,
                     history[j := StampedLog(l, unsure)], trimmed)
  {
    var l, a, b := history[j], history[..j], history[j + 1..];
    assert history == a + [l] + b && history[j := StampedLog(l, unsure)] == a + [StampedLog(l, unsure)] + b;
    forall h | Untrimmed(trimmed, h)
      ensures unsure ==> Slice(UnbookRows(rollup, Rows([Stamped(l, Unstamped)])), h) == Rows(HourLogs(a + [Settled(l)] + b, h))
      ensures !unsure ==> Slice(rollup, h) == Rows(HourLogs(a + [Stamped(l, Usd)] + b, h))
    {
      if unsure { UnbookHour(rollup, a, l, b, h); } else { StampHour(a, l, b, h); }
    }
  }

  lemma {:induction false} StampKeeps(s: State, i: nat, unsure: bool)
    requires Inv(s)
    ensures Inv(Next(s, Stamp(i, unsure)))
  {
    if i < |s.db.rows| && NeedsStamp(s.db.rows[i]) {
      var j := Place(s.history, s.stored, i);
      PlaceIs(s.history, s.stored, i, StampedLog(s.history[j], unsure));
      StampedNormal(s.db.rows, i, unsure);
      StampFaithful(s.db.rollup, s.history, s.trimmed, j, unsure);
    }
  }

  lemma {:induction false} StepKeeps(s: State, e: Event)
    requires Inv(s)
    ensures Inv(Next(s, e))
  {
    match e {
      case Commit(batch) => CommitKeeps(s, batch);
      case Cleanup(now, days, survivors, trim) => CleanupKeeps(s, now, days, survivors, trim);
      case Rebuild(from, to, days, now) => RebuildChangesNothing(s, from, to, days, now);
      case Stamp(i, unsure) => StampKeeps(s, i, unsure);
    }
  }

  lemma {:induction false} StartInv()
    ensures Inv(START)
  {
    assert Rows([]) == map[];
  }

  lemma {:induction false} RunSnoc(s: State, es: seq<Event>, e: Event)
    requires Inv(s)
    ensures Run(s, es + [e]) == Next(Run(s, es), e)
  {
    assert (es + [e])[..|es + [e]| - 1] == es;
  }

  /** The state a run reaches from an empty database. */
  ghost function Reached(es: seq<Event>): (s: State)
    ensures Inv(s)
  {
    StartInv();
    Run(START, es)
  }

  /** Over every run the rollup of an hour not yet trimmed is the aggregate of all logs ever
      counted in it, as they are stamped now; the hours a rebuild may touch have all their
      logs stored; and a rebuild changes nothing. */
  lemma {:induction false} RunKeeps(es: seq<Event>)
    ensures var s := Reached(es);
            && (forall h :: Untrimmed(s.trimmed, h) ==> Slice(s.db.rollup, h) == Rows(HourLogs(s.history, h)))
            && (forall h :: Rebuildable(s.db.purged, h) ==> HourLogs(s.db.rows, h) == HourLogs(s.history, h))
            && (forall from, to, days, now :: Rebuilt(s.db, from, to, days, now) == s.db)
  {
    var s := Reached(es);
    forall h | Rebuildable(s.db.purged, h) ensures HourLogs(s.db.rows, h) == HourLogs(s.history, h) { CompleteHour(s, h); }
    forall from, to, days, now ensures Rebuilt(s.db, from, to, days, now) == s.db { RebuildChangesNothing(s, from, to, days, now); }
  }

  /** The migration's loop is such a run, whichever rows it finds unsure. */
  lemma {:induction false} MigrationIsRun(s: State, n: nat, unsure: CallLog -> bool) returns (es: seq<Event>)
    requires Inv(s) && n <= |s.db.rows|
    ensures Run(s, es).db == Migrated(s.db, n, unsure)
  {
    if n == 0 {
      es := [];
    } else {
      es := MigrationIsRun(s, n - 1, unsure);
      var d := Run(s, es).db;
      assert d.rows[n - 1] == d.rows[n - 1..][0] == s.db.rows[n - 1..][0];
      if NeedsStamp(s.db.rows[n - 1]) {
        RunSnoc(s, es, Stamp(n - 1, unsure(s.db.rows[n - 1])));
        es := es + [Stamp(n - 1, unsure(s.db.rows[n - 1]))];
      }
    }
  }

  /** After the migration no row is left without a stamp, and a second one changes nothing. */
  lemma {:induction false} MigratedOnce(db: Db, n: nat, unsure: CallLog -> bool)
    requires n <= |db.rows|
    ensures var d := Migrated(db, n, unsure);
            (forall i :: 0 <= i < n ==> !NeedsStamp(d.rows[i])) && Migrated(d, n, unsure) == d
  {
    if n > 0 {
      MigratedOnce(db, n - 1, unsure);
      var d := Migrated(db, n - 1, unsure);
      assert d.rows[n - 1] == d.rows[n - 1..][0] == db.rows[n - 1..][0];
    }
    MigratedSkips(Migrated(db, n, unsure), 0, n, unsure);
  }

  // ---------------------------------------------------------------------------
  // What runs guarantee
  // ---------------------------------------------------------------------------

  /** The purge boundary never moves back. */
  lemma {:induction false} BoundaryAdvances(s: State, e: Event)
    requires Inv(s) && s.db.purged.Some?
    ensures Next(s, e).db.purged.Some? && Next(s, e).db.purged.value >= s.db.purged.value
  {
    if e.Cleanup? {
      var cutoff := Cutoff(e.now, e.days);
      if cutoff > s.db.purged.value { FloorAbove(s.db.purged.value, cutoff); }
    }
  }

  lemma {:induction false} FloorAbove(p: int, t: int)
    requires p % SECOND == 0 && t > p
    ensures FloorSecond(t) >= p
  {
    assert p == p / SECOND * SECOND;
    assert t / SECOND >= p / SECOND;
  }

  /** Over any run, extending it can only advance the boundary. */
  lemma {:induction false} BoundaryNeverMovesBack(es: seq<Event>, more: seq<Event>)
    requires Reached(es).db.purged.Some?
    ensures Reached(es + more).db.purged.Some?
    ensures Reached(es + more).db.purged.value >= Reached(es).db.purged.value
    decreases |more|
  {
    if more == [] {
      assert es + more == es;
    } else {
      var init, e := more[..|more| - 1], more[|more| - 1];
      assert (es + more)[..|es + more| - 1] == es + init;
      BoundaryNeverMovesBack(es, init);
      BoundaryAdvances(Reached(es + init), e);
    }
  }

  /** A raw log that is gone lies in an hour no rebuild is allowed to touch. */
  lemma {:induction false} PurgedHoursAreClosed(es: seq<Event>, l: CallLog, from: int)
    requires var s := Reached(es); l in s.history && l !in s.db.rows && BoundaryAllows(s.db.purged, from)
    ensures HourOf(l.createdAt) < HourOf(from)
  {
    var s := Reached(es);
    StoredMembers(s.history, s.stored);
    var j :| 0 <= j < |s.history| && s.history[j] == l;
    assert !Rebuildable(s.db.purged, HourOf(l.createdAt));
  }

  /** Over any run and any batching, the rollup of an hour whose logs are still complete is
      what a rebuild aggregates from the raw logs of that hour. */
  lemma {:induction false} LiveRollupIsRebuilt(es: seq<Event>, h: int)
    requires Rebuildable(Reached(es).db.purged, h)
    ensures var db := Reached(es).db; Slice(db.rollup, h) == Rows(HourLogs(db.rows, h))
  {
    CompleteHour(Reached(es), h);
    RebuildableIsUntrimmed(Reached(es), h);
  }

  /** On any database, legacy rows included, rebuilding a range twice is rebuilding it once. */
  lemma {:induction false} RebuildTwice(db: Db, f: int, t: int)
    ensures RebuiltRange(RebuiltRange(db, f, t), f, t) == RebuiltRange(db, f, t)
  {
    var once := RebuiltRange(db, f, t);
    forall i | 0 <= i < |db.rows| ensures NormalizedIn(once.rows, f, t)[i] == once.rows[i] {
      NormalizeLaws(db.rows[i]);
    }
    assert NormalizedIn(once.rows, f, t) == once.rows;
    RefillTwice(db.rollup, once.rows, f, t);
  }

  lemma {:induction false} RefillTwice(m: Rollup, rows: seq<CallLog>, f: int, t: int)
    ensures var once := RefilledTo(OutsideHours(m, f, t), rows, f, t);
            RefilledTo(OutsideHours(once, f, t), rows, f, t) == once
  {
  }

  // ---------------------------------------------------------------------------
  // Reconciliation
  // ---------------------------------------------------------------------------

  function PlusLog(x: HourSum, l: CallLog): HourSum {
    HourSum(x.requests + 1, x.tokens + l.use.total,
            x.cost + (if l.money.ledger == Unverified then 0 else l.money.cost),
            x.unverified + (if l.money.ledger == Unverified then 1 else 0))
  }

  /** The raw side of the comparison: the logs of one hour, summed. */
  function LogSum(logs: seq<CallLog>): HourSum {
    if logs == [] then NOTHING else PlusLog(LogSum(logs[..|logs| - 1]), logs[|logs| - 1])
  }

  /** The rollup side: SUM(...) over the rows of one hour. */
  ghost function RowSum(m: Rollup): HourSum {
    HourSum(Total(m, FRequests), Total(m, FTokens), Total(m, FCost), Total(m, FUnverified))
  }

  ghost predicate Mismatched(db: Db, h: int) { RowSum(Slice(db.rollup, h)) != LogSum(HourLogs(db.rows, h)) }

  predicate Covered(l: CallLog) { TokensCovered(l) && CostCovered(l) }

  lemma {:induction false} ShareOf(l: CallLog)
    ensures var c := if l.money.ledger == Unverified then 0 else l.money.cost;
            && Expected(l, FTokens) >= l.use.total && Expected(l, FCost) >= c
            && (Expected(l, FTokens) == l.use.total && Expected(l, FCost) == c <==> Covered(l))
  {
  }

  lemma {:induction false} SumsCompare(logs: seq<CallLog>)
    ensures ExpectedSum(logs, FRequests) == LogSum(logs).requests
    ensures ExpectedSum(logs, FUnverified) == LogSum(logs).unverified
    ensures ExpectedSum(logs, FTokens) >= LogSum(logs).tokens
    ensures ExpectedSum(logs, FCost) >= LogSum(logs).cost
    ensures (ExpectedSum(logs, FTokens) == LogSum(logs).tokens && ExpectedSum(logs, FCost) == LogSum(logs).cost)
            <==> forall l :: l in logs ==> Covered(l)
  {
    if logs != [] {
      var init, l := logs[..|logs| - 1], logs[|logs| - 1];
      SumsCompare(init);
      ShareOf(l);
      AllCoveredSnoc(init, l);
      assert logs == init + [l];
    }
  }

  lemma {:induction false} AllCoveredSnoc(init: seq<CallLog>, l: CallLog)
    ensures (forall x :: x in init + [l] ==> Covered(x)) <==> (forall x :: x in init ==> Covered(x)) && Covered(l)
  {
  }

  lemma {:induction false} LogSumRequests(logs: seq<CallLog>)
    ensures LogSum(logs).requests == |logs|
  {
    if logs != [] { LogSumRequests(logs[..|logs| - 1]); }
  }

  /** No run of commits, cleanups, rebuilds and un-bookings loses counted usage of an hour
      younger than the yearly trim: its rows sum to one request for every log ever counted in
      it, and to no less than the tokens and the verified cost of those logs. */
  lemma {:induction false} CountedUsageSurvives(es: seq<Event>, h: int)
    requires Untrimmed(Reached(es).trimmed, h)
    ensures var rows, logs := Slice(Reached(es).db.rollup, h), HourLogs(Reached(es).history, h);
            && Total(rows, FRequests) == |logs| && Total(rows, FUnverified) == LogSum(logs).unverified
            && Total(rows, FTokens) >= LogSum(logs).tokens && Total(rows, FCost) >= LogSum(logs).cost
  {
    var logs := HourLogs(Reached(es).history, h);
    RowsSum(logs, FRequests);
    RowsSum(logs, FTokens);
    RowsSum(logs, FCost);
    RowsSum(logs, FUnverified);
    SumsCompare(logs);
    LogSumRequests(logs);
  }

  lemma {:induction false} HourReconciles(db: Db, h: int)
    requires Slice(db.rollup, h) == Rows(HourLogs(db.rows, h))
    ensures !Mismatched(db, h) <==> forall l :: l in HourLogs(db.rows, h) ==> Covered(l)
  {
    var logs := HourLogs(db.rows, h);
    RowsSum(logs, FRequests);
    RowsSum(logs, FTokens);
    RowsSum(logs, FCost);
    RowsSum(logs, FUnverified);
    SumsCompare(logs);
  }

  /** Over any run, reconciling an hour whose raw logs are complete reports nothing exactly
      when every log of the hour claims at least what its attempts report. */
  lemma {:induction false} ReconcileIsEmpty(es: seq<Event>, h: int)
    requires Rebuildable(Reached(es).db.purged, h)
    ensures var db := Reached(es).db; !Mismatched(db, h) <==> forall l :: l in HourLogs(db.rows, h) ==> Covered(l)
  {
    LiveRollupIsRebuilt(es, h);
    HourReconciles(Reached(es).db, h);
  }

  ghost predicate Bucket(byHour: map<int, HourSum>, rows: seq<CallLog>, f: int, t: int, h: int) {
    BucketOf(byHour, HourLogs(rows, h), f, t, h)
  }

  ghost predicate BucketOf(byHour: map<int, HourSum>, logs: seq<CallLog>, f: int, t: int, h: int) {
    && (h in byHour <==> f <= h <= t && logs != [])
    && (h in byHour ==> byHour[h] == LogSum(logs))
  }

  function Bucketed(byHour: map<int, HourSum>, l: CallLog, f: int, t: int): map<int, HourSum> {
    var g := HourOf(l.createdAt);
    if f <= g <= t then byHour[g := PlusLog(SumAt(byHour, g), l)] else byHour
  }

  lemma {:induction false} BucketStep(byHour: map<int, HourSum>, rows: seq<CallLog>, l: CallLog, f: int, t: int, h: int)
    requires Bucket(byHour, rows, f, t, h)
    ensures Bucket(Bucketed(byHour, l, f, t), rows + [l], f, t, h)
  {
    HourLogsSnoc(rows, l, h);
    OneBucket(byHour, HourLogs(rows, h), l, HourLogs(rows + [l], h), f, t, h);
  }

  lemma {:induction false} OneBucket(byHour: map<int, HourSum>, logs: seq<CallLog>, l: CallLog, more: seq<CallLog>, f: int, t: int, h: int)
    requires BucketOf(byHour, logs, f, t, h) && more == logs + (if HourOf(l.createdAt) == h then [l] else [])
    ensures BucketOf(Bucketed(byHour, l, f, t), more, f, t, h)
  {
    if h == HourOf(l.createdAt) { LogSumSnoc(logs, l); } else { assert more == logs; }
  }

  /** Bucketing the raw logs of a window by hour. */
  method BucketLogs(rows: seq<CallLog>, f: int, t: int) returns (byHour: map<int, HourSum>)
    ensures forall h :: Bucket(byHour, rows, f, t, h)
  {
    byHour := map[];
    for i := 0 to |rows|
      invariant forall h :: Bucket(byHour, rows[..i], f, t, h)
    {
      var l := rows[i];
      ghost var before := byHour;
      var g := HourOf(l.createdAt);
      if f <= g <= t { byHour := byHour[g := PlusLog(if g in byHour then byHour[g] else NOTHING, l)]; }
      assert rows[..i + 1] == rows[..i] + [l];
      ghost var more := rows[..i + 1];
      forall h ensures Bucket(byHour, more, f, t, h) { BucketStep(before, rows[..i], l, f, t, h); }
    }
    assert rows[..|rows|] == rows;
  }

  /** The comparison of the original: raw logs bucketed by hour against the sums of one
      grouped query over the rollup; every hour that differs is reported. */
  method Reconcile(db: Db, from: int, to: int, rollSums: map<int, HourSum>) returns (out: set<int>)
    requires forall h :: h in rollSums <==> HourOf(from) <= h <= HourOf(to) && Slice(db.rollup, h) != map[]
    requires forall h :: h in rollSums ==> rollSums[h] == RowSum(Slice(db.rollup, h))
    ensures forall h :: h in out <==> HourOf(from) <= h <= HourOf(to) && Mismatched(db, h)
  {
    var byHour := BucketLogs(db.rows, HourOf(from), HourOf(to));
    var a := Differing(byHour, rollSums);
    var b := Differing(map h | h in rollSums && h !in byHour :: rollSums[h], byHour);
    out := a + b;
    forall h ensures h in out <==> HourOf(from) <= h <= HourOf(to) && Mismatched(db, h) {
      assert Bucket(byHour, db.rows, HourOf(from), HourOf(to), h);
      EmptyRollup(db, h);
    }
  }

  lemma {:induction false} LogSumSnoc(logs: seq<CallLog>, l: CallLog)
    ensures LogSum(logs + [l]) == PlusLog(LogSum(logs), l)
  {
    assert (logs + [l])[..|logs + [l]| - 1] == logs;
  }

  lemma {:induction false} EmptyRollup(db: Db, h: int)
    ensures Slice(db.rollup, h) == map[] ==> RowSum(Slice(db.rollup, h)) == NOTHING
  {
  }
}

/** The metering tables: committing batches with deduplication, purging raw logs behind a
    persisted boundary, rebuilding the rollup from what is left, and stamping the rows of an
    earlier version, un-booking those whose currency cannot be established. */
module Ledger {
  import opened Usage
  import opened RollupLaws
  import opened Wrappers

  const SECOND: int := 1_000_000_000
  const DAY: int := 24 * HOUR

  datatype Db = Db(rows: seq<CallLog>, rollup: Rollup, purged: Option<int>)

  // ---------------------------------------------------------------------------
  // Commit
  // ---------------------------------------------------------------------------

  function Ids(logs: seq<CallLog>): set<Label> { set l | l in logs :: l.requestId }

  /** The records of a batch that are neither stored yet nor repeated within it. */
  function Fresh(batch: seq<CallLog>, known: set<Label>): seq<CallLog> {
    if batch == [] then []
    else
      var init, l := batch[..|batch| - 1], batch[|batch| - 1];
      if l.requestId in known || l.requestId in Ids(init) then Fresh(init, known) else Fresh(init, known) + [l]
  }

  function NormalizeAll(logs: seq<CallLog>): (r: seq<CallLog>)
    ensures |r| == |logs|
  {
    if logs == [] then [] else NormalizeAll(logs[..|logs| - 1]) + [Normalize(logs[|logs| - 1])]
  }

  function Committed(db: Db, batch: seq<CallLog>): Db {
    var added := NormalizeAll(Fresh(batch, Ids(db.rows)));
    db.(rows := db.rows + added, rollup := Merge(db.rollup, Rows(added)))
  }

  // ---------------------------------------------------------------------------
  // Purge
  // ---------------------------------------------------------------------------

  function FloorSecond(t: int): int { t / SECOND * SECOND }

  /** The boundary is stored with whole seconds and never moves backwards. */
  function SetPurged(cur: Option<int>, t: int): Option<int> {
    if cur.Some? && t <= cur.value then cur else Some(FloorSecond(t))
  }

  function RetentionDays(days: int): int { if days <= 0 then 30 else days }

  function Cutoff(now: int, days: int): int { now - RetentionDays(days) * DAY }

  /** Deleting in bounded batches can stop early, so some old rows may survive a round. */
  function KeepRows(rows: seq<CallLog>, cutoff: int, survivors: set<Label>): seq<CallLog> {
    if rows == [] then []
    else
      var init, l := rows[..|rows| - 1], rows[|rows| - 1];
      KeepRows(init, cutoff, survivors) + (if l.createdAt >= cutoff || l.requestId in survivors then [l] else [])
  }

  function TrimRollup(m: Rollup, before: int): Rollup { map k | k in m && k.hour * HOUR >= before :: m[k] }

  /** One cleanup round. A crash after the boundary write is a round that deletes less. */
  function Cleaned(db: Db, now: int, days: int, survivors: set<Label>, trim: bool): Db {
    var cutoff := Cutoff(now, days);
    Db(KeepRows(db.rows, cutoff, survivors),
       if trim then TrimRollup(db.rollup, cutoff - 365 * DAY) else db.rollup,
       SetPurged(db.purged, cutoff))
  }

  // ---------------------------------------------------------------------------
  // Rebuild
  // ---------------------------------------------------------------------------

  predicate RebuildAllowed(from: int, days: int, now: int) {
    HourOf(from) >= HourOf(now - RetentionDays(days) * DAY + HOUR)
  }

  predicate BoundaryAllows(purged: Option<int>, from: int) {
    purged.None? || HourOf(from) >= HourOf(purged.value + HOUR)
  }

  function NormalizedIn(rows: seq<CallLog>, f: int, t: int): (r: seq<CallLog>)
    ensures |r| == |rows|
    ensures forall i :: 0 <= i < |rows| ==> r[i] == if f <= HourOf(rows[i].createdAt) < t then Normalize(rows[i]) else rows[i]
  {
    if rows == [] then []
    else
      var l := rows[|rows| - 1];
      NormalizedIn(rows[..|rows| - 1], f, t) + [if f <= HourOf(l.createdAt) < t then Normalize(l) else l]
  }

  function OutsideHours(m: Rollup, f: int, t: int): Rollup { map k | k in m && !(f <= k.hour < t) :: m[k] }

  function InsideHours(m: Rollup, f: int, t: int): Rollup { map k | k in m && f <= k.hour < t :: m[k] }

  /** Legacy rows of the range are corrected, the range's rollup rows are deleted, and the
      rows the corrected logs aggregate to take their place. */
  function RebuiltRange(db: Db, f: int, t: int): Db {
    var rows := NormalizedIn(db.rows, f, t);
    db.(rows := rows, rollup := RefilledTo(OutsideHours(db.rollup, f, t), rows, f, t))
  }

  /** A rebuild of the whole hours from..to, refused when raw logs may be missing. */
  function Rebuilt(db: Db, from: int, to: int, days: int, now: int): Db {
    if !RebuildAllowed(from, days, now) || !BoundaryAllows(db.purged, from) then db
    else RebuiltRange(db, HourOf(from), HourOf(to) + 1)
  }

  // ---------------------------------------------------------------------------
  // Stamping rows without a ledger stamp
  // ---------------------------------------------------------------------------

  const PAGE: nat := 500

  predicate NeedsStamp(l: CallLog) { l.money.ledger == Unstamped }

  /** One row: stamped as holding USD, or taken back out of the rollup and stamped unverified. */
  function StampedRow(db: Db, i: nat, unsure: bool): Db
    requires i < |db.rows|
  {
    var l := db.rows[i];
    if unsure then db.(rows := db.rows[i := Settled(l)], rollup := UnbookRows(db.rollup, Rows([Stamped(l, Unstamped)])))
    else db.(rows := db.rows[i := Stamped(l, Usd)])
  }

  /** The first n rows classified and, where they had no stamp, stamped. */
  function Migrated(db: Db, n: nat, unsure: CallLog -> bool): (r: Db)
    requires n <= |db.rows|
    ensures |r.rows| == |db.rows| && r.rows[n..] == db.rows[n..] && r.purged == db.purged
  {
    if n == 0 then db
    else
      var d := Migrated(db, n - 1, unsure);
      assert d.rows[n - 1] == d.rows[n - 1..][0] == db.rows[n - 1..][0] == db.rows[n - 1];
      if NeedsStamp(db.rows[n - 1]) then StampedRow(d, n - 1, unsure(db.rows[n - 1])) else d
  }

  /** Rows that have a stamp are passed over. */
  lemma {:induction false} MigratedSkips(db: Db, from: nat, to: nat, unsure: CallLog -> bool)
    requires from <= to <= |db.rows| && forall i :: from <= i < to ==> !NeedsStamp(db.rows[i])
    ensures Migrated(db, to, unsure) == Migrated(db, from, unsure)
  {
    if from < to { MigratedSkips(db, from, to - 1, unsure); }
  }

  lemma {:induction false} MigratedStep(db: Db, from: nat, i: nat, unsure: CallLog -> bool)
    requires from <= i < |db.rows| && NeedsStamp(db.rows[i]) && forall j :: from <= j < i ==> !NeedsStamp(db.rows[j])
    ensures var d := Migrated(db, from, unsure);
            d.rows[i] == db.rows[i] && Migrated(db, i + 1, unsure) == StampedRow(d, i, unsure(d.rows[i]))
  {
    MigratedSkips(db, from, i, unsure);
    var d := Migrated(db, i, unsure);
    assert d.rows[i] == d.rows[i..][0] == db.rows[i..][0];
  }

  /** Where the rows after the j-th of a page begin. */
  function PageStart(page: seq<nat>, from: nat, j: nat): nat
    requires j <= |page|
  {
    if j == 0 then from else page[j - 1] + 1
  }

  /** No row between two of a page needs a stamp; those on the page do. */
  ghost predicate PageStep(rows: seq<CallLog>, from: nat, page: seq<nat>, end: nat, j: nat)
    requires j <= |page|
  {
    var lo, hi := PageStart(page, from, j), if j < |page| then page[j] else end;
    && lo <= hi <= |rows| && (forall i :: lo <= i < hi ==> !NeedsStamp(rows[i]))
    && (j < |page| ==> hi < |rows| && NeedsStamp(rows[hi]))
  }

  /** The indexes a page lists: the next rows without a stamp, in order, none left out. */
  ghost predicate IsPage(rows: seq<CallLog>, from: nat, page: seq<nat>, end: nat) {
    forall j :: 0 <= j <= |page| ==> PageStep(rows, from, page, end, j)
  }

  lemma {:induction false} PageGrows(rows: seq<CallLog>, from: nat, page: seq<nat>, end: nat)
    requires IsPage(rows, from, page, end) && end < |rows|
    ensures IsPage(rows, from, if NeedsStamp(rows[end]) then page + [end] else page, end + 1)
  {
    var more, next := if NeedsStamp(rows[end]) then page + [end] else page, end + 1;
    forall j | 0 <= j <= |more| ensures PageStep(rows, from, more, next, j) {
      assert j <= |page| ==> PageStep(rows, from, page, end, j);
    }
  }

  lemma {:induction false} SamePage(a: seq<CallLog>, b: seq<CallLog>, from: nat, page: seq<nat>, end: nat)
    requires IsPage(a, from, page, end) && |a| == |b| && from <= |a| && a[from..] == b[from..]
    ensures IsPage(b, from, page, end)
  {
    forall i | from <= i < |a| ensures a[i] == b[i] { assert a[i] == a[from..][i - from] == b[from..][i - from]; }
    PageFrom(a, from, page, end, |page|);
    forall j | 0 <= j <= |page| ensures PageStep(b, from, page, end, j) {
      assert PageStep(a, from, page, end, j);
      PageFrom(a, from, page, end, j);
    }
  }

  lemma {:induction false} PageFrom(rows: seq<CallLog>, from: nat, page: seq<nat>, end: nat, j: nat)
    requires IsPage(rows, from, page, end) && j <= |page|
    ensures from <= PageStart(page, from, j)
  {
    if j > 0 {
      PageFrom(rows, from, page, end, j - 1);
      assert PageStep(rows, from, page, end, j - 1);
    }
  }

  lemma {:induction false} PageStepAt(rows: seq<CallLog>, from: nat, page: seq<nat>, end: nat, j: nat)
    requires IsPage(rows, from, page, end) && j <= |page|
    ensures PageStep(rows, from, page, end, j)
  {
  }

  lemma {:induction false} PageDone(db: Db, from: nat, page: seq<nat>, end: nat, done: nat, unsure: CallLog -> bool)
    requires IsPage(db.rows, from, page, end) && done == PageStart(page, from, |page|) && done <= |db.rows| && end <= |db.rows|
    ensures Migrated(db, end, unsure) == Migrated(db, done, unsure)
  {
    PageStepAt(db.rows, from, page, end, |page|);
    MigratedSkips(db, done, end, unsure);
  }

  /** The query for the next page, in the order of the row ids. */
  method NextPage(rows: seq<CallLog>, from: nat) returns (page: seq<nat>, end: nat)
    requires from <= |rows|
    ensures IsPage(rows, from, page, end) && end <= |rows| && |page| <= PAGE && (|page| < PAGE ==> end == |rows|)
    ensures from < |rows| ==> from < end
  {
    page, end := [], from;
    while end < |rows| && |page| < PAGE
      invariant IsPage(rows, from, page, end) && from <= end <= |rows| && |page| <= PAGE
      invariant page == [] || from < end
    {
      PageGrows(rows, from, page, end);
      if NeedsStamp(rows[end]) { page := page + [end]; }
      end := end + 1;
    }
  }

  class Database {
    var rows: seq<CallLog>
    var rollup: Rollup
    var purged: Option<int>

    constructor ()
      ensures View() == Db([], map[], None)
    {
      rows, rollup, purged := [], map[], None;
    }

    function View(): Db
      reads this
    {
      Db(rows, rollup, purged)
    }

    /** One transaction: drop known and repeated request ids, normalise, insert, roll up. */
    method Commit(batch: seq<CallLog>)
      modifies this
      ensures View() == Committed(old(View()), batch)
    {
      ghost var known := Ids(rows);
      var skip := Ids(rows);
      var seen: set<Label> := {};
      var added: seq<CallLog> := [];
      for i := 0 to |batch|
        invariant rows == old(rows) && rollup == old(rollup) && purged == old(purged)
        invariant added == Fresh(batch[..i], known)
        invariant seen + skip == Ids(batch[..i]) + skip
      {
        var l := batch[i];
        assert batch[..i + 1][..i] == batch[..i];
        assert Ids(batch[..i + 1]) == Ids(batch[..i]) + {l.requestId} by { IdsSnoc(batch, i); }
        if l.requestId !in skip && l.requestId !in seen {
          seen := seen + {l.requestId};
          added := added + [l];
        }
      }
      assert batch[..|batch|] == batch;
      if |added| == 0 {
        assert Rows([]) == map[];
        assert Merge(rollup, map[]) == rollup;
        assert rows + [] == rows;
        return;
      }
      var ready := NormalizeEach(added);
      var delta := Aggregate(ready);
      rows := rows + ready;
      rollup := ApplyRollup(rollup, delta);
    }

    method SetPurgedBefore(t: int)
      modifies this`purged
      ensures purged == SetPurged(old(purged), t)
    {
      if purged.Some? && t <= purged.value { return; }
      purged := Some(FloorSecond(t));
    }

    /** One cleanup round: the boundary is persisted before anything is deleted. */
    method Cleanup(now: int, days: int, survivors: set<Label>, trim: bool)
      modifies this
      ensures View() == Cleaned(old(View()), now, days, survivors, trim)
    {
      var cutoff := Cutoff(now, days);
      SetPurgedBefore(cutoff);
      rows := KeepRows(rows, cutoff, survivors);
      if trim { rollup := TrimRollup(rollup, cutoff - 365 * DAY); }
    }

    method Rebuild(from: int, to: int, days: int, now: int) returns (ok: bool)
      modifies this
      ensures View() == Rebuilt(old(View()), from, to, days, now)
      ensures ok == (RebuildAllowed(from, days, now) && BoundaryAllows(old(purged), from))
    {
      if !RebuildAllowed(from, days, now) { return false; }
      if !BoundaryAllows(purged, from) { return false; }
      ok := true;
      var f, t := HourOf(from), HourOf(to) + 1;
      RebuildHours(f, t);
    }

    /** Stamps one row and, when it is unverified, takes its amounts out of the rollup. */
    method StampRow(i: nat, unsure: bool)
      requires i < |rows|
      modifies this`rows, this`rollup
      ensures View() == StampedRow(old(View()), i, unsure)
    {
      var l := rows[i];
      if unsure {
        rollup := UnbookUnverified(rollup, l, false, x => x);
        rows := rows[i := Settled(l)];
      } else {
        rows := rows[i := Stamped(l, Usd)];
      }
    }

    method StampNext(i: nat, ghost before: Db, ghost from: nat, unsure: CallLog -> bool)
      requires from <= i < |before.rows| && View() == Migrated(before, from, unsure)
      requires NeedsStamp(before.rows[i]) && forall j :: from <= j < i ==> !NeedsStamp(before.rows[j])
      modifies this`rows, this`rollup
      ensures View() == Migrated(before, i + 1, unsure)
    {
      MigratedStep(before, from, i, unsure);
      StampRow(i, unsure(rows[i]));
    }

    /** The rows of one page; those between them have a stamp. */
    method StampPage(page: seq<nat>, ghost before: Db, ghost from: nat, ghost end: nat, unsure: CallLog -> bool)
      requires from <= |before.rows| && end <= |before.rows| && IsPage(before.rows, from, page, end)
      requires View() == Migrated(before, from, unsure)
      modifies this`rows, this`rollup
      ensures View() == Migrated(before, end, unsure)
    {
      ghost var done := from;
      for j := 0 to |page|
        invariant done == PageStart(page, from, j) && done <= |before.rows| && View() == Migrated(before, done, unsure)
      {
        done := StampOn(page, j, before, from, end, done, unsure);
      }
      PageDone(before, from, page, end, done, unsure);
    }

    method StampOn(page: seq<nat>, j: nat, ghost before: Db, ghost from: nat, ghost end: nat, ghost done: nat, unsure: CallLog -> bool)
      returns (ghost next: nat)
      requires j < |page| && IsPage(before.rows, from, page, end) && done == PageStart(page, from, j) && done <= |before.rows|
      requires View() == Migrated(before, done, unsure)
      modifies this`rows, this`rollup
      ensures next == PageStart(page, from, j + 1) && next <= |before.rows| && View() == Migrated(before, next, unsure)
    {
      PageStepAt(before.rows, from, page, end, j);
      StampNext(page[j], before, done, unsure);
      next := page[j] + 1;
    }

    /** The migration's loop over all rows without a stamp, page by page. */
    method StampRows(unsure: CallLog -> bool)
      modifies this`rows, this`rollup
      ensures View() == Migrated(old(View()), |old(rows)|, unsure)
    {
      ghost var before := View();
      var last: nat := 0;
      while last < |rows|
        invariant last <= |before.rows| && View() == Migrated(before, last, unsure)
      {
        var page, end := NextPage(rows, last);
        SamePage(rows, before.rows, last, page, end);
        StampPage(page, before, last, end, unsure);
        last := end;
      }
    }

    method RebuildHours(f: int, t: int)
      modifies this`rows, this`rollup
      ensures View() == RebuiltRange(old(View()), f, t)
    {
      rows, rollup := RefillHours(rows, OutsideHours(rollup, f, t), f, t);
    }
  }

  /** The hour loop of a rebuild, inside its transaction: each hour's logs are corrected and
      the rows they aggregate are inserted. Nothing is inserted for an hour without logs. */
  method RefillHours(rows0: seq<CallLog>, kept: Rollup, f: int, t: int) returns (rows: seq<CallLog>, rollup: Rollup)
    ensures rows == NormalizedIn(rows0, f, t)
    ensures rollup == RefilledTo(kept, rows, f, t)
  {
    rows, rollup := rows0, kept;
    if t <= f {
      EmptyRange(rows0, kept, f, t);
      return;
    }
    EmptyRange(rows0, kept, f, f);
    var h := f;
    while h < t
      invariant f <= h <= t
      invariant rows == NormalizedIn(rows0, f, h)
      invariant rollup == RefilledTo(kept, rows, f, h)
    {
      HourStep(rows0, kept, f, h);
      var logs := HourLogs(rows, h);
      rows := NormalizedIn(rows, h, h + 1);
      rollup := InsertHour(rollup, logs);
      h := h + 1;
    }
  }

  method InsertHour(table: Rollup, logs: seq<CallLog>) returns (out: Rollup)
    ensures out == table + Rows(NormalizeAll(logs))
  {
    if |logs| == 0 {
      assert Rows([]) == map[];
      return table;
    }
    var ready := NormalizeEach(logs);
    var agg := Aggregate(ready);
    out := table + agg;
  }

  method NormalizeEach(logs: seq<CallLog>) returns (out: seq<CallLog>)
    ensures out == NormalizeAll(logs)
  {
    out := [];
    for i := 0 to |logs|
      invariant out == NormalizeAll(logs[..i])
    {
      assert logs[..i + 1][..i] == logs[..i];
      var l, _ := NormalizeLegacyUsage(logs[i]);
      out := out + [l];
    }
    assert logs[..|logs|] == logs;
  }

  lemma {:induction false} HourStep(rows0: seq<CallLog>, kept: Rollup, f: int, h: int)
    requires f <= h
    ensures var before, after := NormalizedIn(rows0, f, h), NormalizedIn(rows0, f, h + 1);
            after == NormalizedIn(before, h, h + 1)
            && RefilledTo(kept, after, f, h + 1) == RefilledTo(kept, before, f, h) + Rows(NormalizeAll(HourLogs(before, h)))
  {
    var before, after := NormalizedIn(rows0, f, h), NormalizedIn(rows0, f, h + 1);
    NormalizeHourByHour(rows0, f, h);
    HourLogsNormalized(before, h);
    InsideStep(before, after, f, h);
    PlusAssoc(kept, InsideHours(Rows(before), f, h), Rows(HourLogs(after, h)));
  }

  lemma {:induction false} PlusAssoc(a: Rollup, b: Rollup, c: Rollup)
    ensures a + (b + c) == (a + b) + c
  {
  }

  lemma {:induction false} InsideStep(before: seq<CallLog>, after: seq<CallLog>, f: int, h: int)
    requires f <= h && after == NormalizedIn(before, h, h + 1)
    ensures InsideHours(Rows(after), f, h + 1) == InsideHours(Rows(before), f, h) + Rows(HourLogs(after, h))
  {
    var a, b := Rows(after), Rows(before);
    RowsByHour(after, h);
    forall g | f <= g < h ensures Slice(a, g) == Slice(b, g) {
      OtherHoursKept(before, h, h + 1, g);
      RowsByHour(after, g);
      RowsByHour(before, g);
    }
    InsideFromSlices(a, b, f, h);
  }

  lemma {:induction false} InsideFromSlices(a: Rollup, b: Rollup, f: int, h: int)
    requires f <= h && forall g :: f <= g < h ==> Slice(a, g) == Slice(b, g)
    ensures InsideHours(a, f, h + 1) == InsideHours(b, f, h) + Slice(a, h)
  {
    forall k
      ensures k in InsideHours(a, f, h + 1) <==> k in InsideHours(b, f, h) + Slice(a, h)
      ensures k in InsideHours(a, f, h + 1) ==> a[k] == (InsideHours(b, f, h) + Slice(a, h))[k]
    {
      assert k in a <==> k in Slice(a, k.hour);
      assert k in b <==> k in Slice(b, k.hour);
      if f <= k.hour < h && k in a { assert Slice(a, k.hour)[k] == Slice(b, k.hour)[k]; }
    }
  }

  lemma {:induction false} IdsSnoc(batch: seq<CallLog>, i: nat)
    requires i < |batch|
    ensures Ids(batch[..i + 1]) == Ids(batch[..i]) + {batch[i].requestId}
  {
    assert batch[..i + 1] == batch[..i] + [batch[i]];
  }

  function RefilledTo(kept: Rollup, rows: seq<CallLog>, f: int, t: int): Rollup { kept + InsideHours(Rows(rows), f, t) }

  lemma {:induction false} EmptyRange(rows: seq<CallLog>, kept: Rollup, f: int, t: int)
    requires t <= f
    ensures NormalizedIn(rows, f, t) == rows && RefilledTo(kept, rows, f, t) == kept
  {
    assert InsideHours(Rows(rows), f, t) == map[];
  }

  lemma {:induction false} NormalizeHourByHour(rows: seq<CallLog>, f: int, h: int)
    requires f <= h
    ensures NormalizedIn(NormalizedIn(rows, f, h), h, h + 1) == NormalizedIn(rows, f, h + 1)
  {
    NormalizedHours(rows, f, h);
  }

  lemma {:induction false} NormalizedHours(rows: seq<CallLog>, f: int, t: int)
    ensures forall i :: 0 <= i < |rows| ==> NormalizedIn(rows, f, t)[i].createdAt == rows[i].createdAt
  {
    forall i | 0 <= i < |rows| ensures NormalizedIn(rows, f, t)[i].createdAt == rows[i].createdAt { NormalizeLaws(rows[i]); }
  }

  lemma {:induction false} HourLogsNormalized(rows: seq<CallLog>, h: int)
    ensures HourLogs(NormalizedIn(rows, h, h + 1), h) == NormalizeAll(HourLogs(rows, h))
  {
    if rows != [] {
      var init, l := rows[..|rows| - 1], rows[|rows| - 1];
      HourLogsNormalized(init, h);
      NormalizeLaws(l);
      var out := NormalizedIn(rows, h, h + 1);
      assert out[..|rows| - 1] == NormalizedIn(init, h, h + 1);
      if HourOf(l.createdAt) == h {
        assert HourLogs(rows, h) == HourLogs(init, h) + [l];
        assert NormalizeAll(HourLogs(rows, h)) == NormalizeAll(HourLogs(init, h)) + [Normalize(l)];
      } else {
        assert HourLogs(rows, h) == HourLogs(init, h);
      }
    }
  }

  lemma {:induction false} OtherHoursKept(rows: seq<CallLog>, f: int, t: int, h: int)
    requires !(f <= h < t)
    ensures HourLogs(NormalizedIn(rows, f, t), h) == HourLogs(rows, h)
  {
    if rows != [] {
      var init, l := rows[..|rows| - 1], rows[|rows| - 1];
      OtherHoursKept(init, f, t, h);
      NormalizeLaws(l);
      assert NormalizedIn(rows, f, t)[..|rows| - 1] == NormalizedIn(init, f, t);
    }
  }
}

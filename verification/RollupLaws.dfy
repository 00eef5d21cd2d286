/** Laws of the rollup that the database operations rest on: rows do not depend on the
    order of the logs, an hour's rows depend on that hour's logs only, and taking a
    request's cost back out is the same as never having booked it. */
module RollupLaws {
  import opened Usage

  lemma {:induction false} AddComm(a: Counters, b: Counters)
    ensures Add(a, b) == Add(b, a)
  {
  }

  lemma {:induction false} MergeComm(a: Rollup, b: Rollup)
    ensures Merge(a, b) == Merge(b, a)
  {
    forall k | k in a && k in b ensures Add(a[k], b[k]) == Add(b[k], a[k]) { AddComm(a[k], b[k]); }
  }

  lemma {:induction false} MergeAssoc(a: Rollup, b: Rollup, c: Rollup)
    ensures Merge(Merge(a, b), c) == Merge(a, Merge(b, c))
  {
    forall k | k in a && k in b && k in c
      ensures Add(Add(a[k], b[k]), c[k]) == Add(a[k], Add(b[k], c[k]))
    {
      AddAssoc(a[k], b[k], c[k]);
    }
  }

  /** A log can be moved to the front of a batch. */
  lemma {:induction false} MoveToFront(a: seq<CallLog>, l: CallLog, b: seq<CallLog>)
    ensures Rows(a + [l] + b) == Merge(Rows([l]), Rows(a + b))
  {
    RowsHomomorphism(a + [l], b);
    RowsHomomorphism(a, [l]);
    RowsHomomorphism(a, b);
    MergeComm(Rows(a), Rows([l]));
    MergeAssoc(Rows([l]), Rows(a), Rows(b));
  }

  lemma {:induction false} RowsTakeOut(b: seq<CallLog>, i: nat)
    requires i < |b|
    ensures Rows(b) == Merge(Rows([b[i]]), Rows(Without(b, i)))
  {
    assert b == b[..i] + [b[i]] + b[i + 1..];
    MoveToFront(b[..i], b[i], b[i + 1..]);
  }

  function Without<T>(b: seq<T>, i: nat): seq<T>
    requires i < |b|
  {
    b[..i] + b[i + 1..]
  }

  lemma {:induction false} WithoutMultiset<T>(b: seq<T>, i: nat)
    requires i < |b|
    ensures multiset(Without(b, i)) == multiset(b) - multiset{b[i]}
  {
    assert b == b[..i] + ([b[i]] + b[i + 1..]);
  }

  /** The rows of a batch do not depend on the order a query returned the logs in. */
  lemma {:induction false} RowsPermutation(a: seq<CallLog>, b: seq<CallLog>)
    requires multiset(a) == multiset(b)
    ensures Rows(a) == Rows(b)
    decreases |a|
  {
    if a == [] {
      assert |multiset(b)| == 0;
    } else {
      assert a[0] in multiset(b);
      var i :| 0 <= i < |b| && b[i] == a[0];
      WithoutMultiset(a, 0);
      WithoutMultiset(b, i);
      RowsPermutation(Without(a, 0), Without(b, i));
      RowsTakeOut(a, 0);
      RowsTakeOut(b, i);
    }
  }

  // ---------------------------------------------------------------------------
  // Hours
  // ---------------------------------------------------------------------------

  function Slice(m: Rollup, h: int): Rollup { map k | k in m && k.hour == h :: m[k] }

  /** The logs of one hour, in order. */
  function HourLogs(logs: seq<CallLog>, h: int): seq<CallLog> {
    if logs == [] then []
    else HourLogs(logs[..|logs| - 1], h) + (if HourOf(logs[|logs| - 1].createdAt) == h then [logs[|logs| - 1]] else [])
  }

  lemma {:induction false} HourLogsSnoc(logs: seq<CallLog>, l: CallLog, h: int)
    ensures HourLogs(logs + [l], h) == HourLogs(logs, h) + (if HourOf(l.createdAt) == h then [l] else [])
  {
    assert (logs + [l])[..|logs + [l]| - 1] == logs;
  }

  lemma {:induction false} HourLogsConcat(a: seq<CallLog>, b: seq<CallLog>, h: int)
    ensures HourLogs(a + b, h) == HourLogs(a, h) + HourLogs(b, h)
  {
    if b == [] {
      assert a + b == a;
    } else {
      var init, l := b[..|b| - 1], b[|b| - 1];
      assert a + b == (a + init) + [l];
      HourLogsConcat(a, init, h);
      HourLogsSnoc(a + init, l, h);
    }
  }

  ghost predicate AllIn(es: seq<Entry>, h: int) { forall e :: e in es ==> e.key.hour == h }

  lemma {:induction false} AttemptEntriesIn(l: CallLog, attempts: seq<Attempt>)
    ensures AllIn(AttemptEntries(l, attempts), HourOf(l.createdAt))
  {
    if attempts != [] {
      AttemptEntriesIn(l, attempts[..|attempts| - 1]);
    }
  }

  lemma {:induction false} EntriesIn(l: CallLog)
    ensures AllIn(Entries(l), HourOf(l.createdAt))
  {
    AttemptEntriesIn(l, AttemptList(l));
  }

  lemma {:induction false} SliceBook(m: Rollup, es: seq<Entry>, h: int, g: int)
    requires AllIn(es, g)
    ensures Slice(Book(m, es), h) == if g == h then Book(Slice(m, h), es) else Slice(m, h)
    decreases |es|
  {
    if es != [] {
      var init := es[..|es| - 1];
      assert es[|es| - 1] in es;
      SliceBook(m, init, h, g);
      SliceBump(Book(m, init), es[|es| - 1].key, es[|es| - 1].delta, h);
    }
  }

  lemma {:induction false} SliceBump(m: Rollup, k: DimKey, d: Counters, h: int)
    ensures Slice(Bump(m, k, d), h) == if k.hour == h then Bump(Slice(m, h), k, d) else Slice(m, h)
  {
  }

  lemma {:induction false} RowsSnoc(logs: seq<CallLog>, l: CallLog)
    ensures Rows(logs + [l]) == Book(Rows(logs), Entries(l))
  {
    EntriesOfSnoc(logs, l);
    BookConcat(map[], EntriesOf(logs), Entries(l));
  }

  /** An hour's rows are the rows of that hour's logs. */
  lemma {:induction false} RowsByHour(logs: seq<CallLog>, h: int)
    ensures Slice(Rows(logs), h) == Rows(HourLogs(logs, h))
  {
    if logs == [] {
      assert EntriesOf([]) == [];
    } else {
      var init, l := logs[..|logs| - 1], logs[|logs| - 1];
      assert logs == init + [l];
      RowsByHour(init, h);
      RowsSnoc(init, l);
      EntriesIn(l);
      SliceBook(Rows(init), Entries(l), h, HourOf(l.createdAt));
      if HourOf(l.createdAt) == h {
        RowsSnoc(HourLogs(init, h), l);
      } else {
        assert HourLogs(logs, h) == HourLogs(init, h);
      }
    }
  }

  lemma {:induction false} SliceMerge(a: Rollup, b: Rollup, h: int)
    ensures Slice(Merge(a, b), h) == Merge(Slice(a, h), Slice(b, h))
  {
  }

  /** A rollup is its hours. */
  lemma {:induction false} SameSlices(a: Rollup, b: Rollup)
    requires forall h :: Slice(a, h) == Slice(b, h)
    ensures a == b
  {
    forall k
      ensures k in a <==> k in b
      ensures k in a && k in b ==> a[k] == b[k]
    {
      assert k in a <==> k in Slice(a, k.hour);
      assert k in b <==> k in Slice(b, k.hour);
      if k in a { assert Slice(a, k.hour)[k] == a[k]; }
      if k in b { assert Slice(b, k.hour)[k] == b[k]; }
    }
  }

  // ---------------------------------------------------------------------------
  // Sums over many logs
  // ---------------------------------------------------------------------------

  function ExpectedSum(logs: seq<CallLog>, f: Field): int {
    if logs == [] then 0 else ExpectedSum(logs[..|logs| - 1], f) + Expected(logs[|logs| - 1], f)
  }

  lemma {:induction false} RowsSum(logs: seq<CallLog>, f: Field)
    ensures Total(Rows(logs), f) == ExpectedSum(logs, f)
  {
    if logs == [] {
      assert EntriesOf([]) == [];
    } else {
      var init, l := logs[..|logs| - 1], logs[|logs| - 1];
      assert logs == init + [l];
      RowsSum(init, f);
      EntriesOfSnoc(init, l);
      TotalBook(EntriesOf(init) + Entries(l), f);
      TotalBook(EntriesOf(init), f);
      SumDeltasConcat(EntriesOf(init), Entries(l), f);
      BookedIs(l, f);
    }
  }

  // ---------------------------------------------------------------------------
  // Un-booking
  // ---------------------------------------------------------------------------

  /** A row with its cost removed and its requests counted as unverified. */
  function Uncosted(c: Counters): Counters { c.(cost := 0, unverified := c.unverified + c.requests) }

  lemma {:induction false} UncostedAdd(a: Counters, b: Counters)
    ensures Uncosted(Add(a, b)) == Add(Uncosted(a), Uncosted(b))
  {
  }

  function UncostedRows(m: Rollup): Rollup { map k | k in m :: Uncosted(m[k]) }

  function UncostedEntry(e: Entry): Entry { e.(delta := Uncosted(e.delta)) }

  function UncostedEntries(es: seq<Entry>): seq<Entry> {
    if es == [] then [] else UncostedEntries(es[..|es| - 1]) + [UncostedEntry(es[|es| - 1])]
  }

  lemma {:induction false} UncostedEntriesSnoc(es: seq<Entry>, e: Entry)
    ensures UncostedEntries(es + [e]) == UncostedEntries(es) + [UncostedEntry(e)]
  {
    assert (es + [e])[..|es + [e]| - 1] == es;
  }

  lemma {:induction false} BookUncosted(es: seq<Entry>)
    ensures Book(map[], UncostedEntries(es)) == UncostedRows(Book(map[], es))
    decreases |es|
  {
    if es != [] {
      var init, last := es[..|es| - 1], es[|es| - 1];
      BookUncosted(init);
      BookSnoc(map[], UncostedEntries(init), UncostedEntry(last));
      UncostedBump(Book(map[], init), last.key, last.delta);
    }
  }

  lemma {:induction false} UncostedBump(m: Rollup, k: DimKey, d: Counters)
    ensures Bump(UncostedRows(m), k, Uncosted(d)) == UncostedRows(Bump(m, k, d))
  {
    if k in m { UncostedAdd(m[k], d); }
  }

  function Stamped(l: CallLog, s: Ledger): CallLog { l.(money := l.money.(ledger := s)) }

  /** A row whose amounts are left as written and never counted again. */
  function Settled(l: CallLog): CallLog { l.(money := l.money.(ledger := Unverified, known := false)) }

  lemma {:induction false} AttemptEntriesUncosted(l: CallLog, attempts: seq<Attempt>)
    requires l.money.ledger != Unverified
    ensures AttemptEntries(Settled(l), attempts) == UncostedEntries(AttemptEntries(l, attempts))
  {
    if attempts != [] {
      var init, a := attempts[..|attempts| - 1], attempts[|attempts| - 1];
      AttemptEntriesUncosted(l, init);
      UncostedEntriesSnoc(AttemptEntries(l, init), AttemptEntry(l, a));
    }
  }

  lemma {:induction false} RequestUncosted(l: CallLog)
    requires l.money.ledger != Unverified
    ensures RequestDelta(Settled(l)) == Uncosted(RequestDelta(l))
  {
  }

  lemma {:induction false} RemainderUncosted(l: CallLog, v: CallLog)
    requires v.attempts == l.attempts && v.use == l.use && v.money.ledger == Unverified
    ensures RemainderDelta(v) == Uncosted(RemainderDelta(l))
  {
    var list, r, s := AttemptList(l), RemainderDelta(l), RemainderDelta(v);
    assert AttemptList(v) == list;
    assert s.prompt == r.prompt && s.completion == r.completion;
    assert s.total == r.total;
  }

  lemma {:induction false} EntriesUncosted(l: CallLog)
    requires l.money.ledger != Unverified
    ensures Entries(Settled(l)) == UncostedEntries(Entries(l))
  {
    var u := KeyFor(l, l.dims.account, l.dims.provider);
    var v := Settled(l);
    var es := AttemptEntries(l, AttemptList(l));
    AttemptEntriesUncosted(l, AttemptList(l));
    UncostedEntriesSnoc([Entry(u, RequestDelta(l))] + es, Entry(u, RemainderDelta(l)));
    UncostedFront(Entry(u, RequestDelta(l)), es);
    RequestUncosted(l);
    RemainderUncosted(l, v);
  }

  lemma {:induction false} UncostedFront(e: Entry, es: seq<Entry>)
    ensures UncostedEntries([e] + es) == [UncostedEntry(e)] + UncostedEntries(es)
  {
    if es == [] {
      assert [e] + es == [] + [e];
      UncostedEntriesSnoc([], e);
    } else {
      var init, last := es[..|es| - 1], es[|es| - 1];
      assert [e] + es == ([e] + init) + [last];
      UncostedFront(e, init);
      UncostedEntriesSnoc([e] + init, last);
    }
  }

  lemma {:induction false} RowsUncosted(l: CallLog)
    requires l.money.ledger != Unverified
    ensures Rows([Settled(l)]) == UncostedRows(Rows([l]))
  {
    EntriesUncosted(l);
    BookUncosted(Entries(l));
    RowsSnoc([], l);
    RowsSnoc([], Settled(l));
    assert [] + [l] == [l] && [] + [Settled(l)] == [Settled(l)];
    assert Rows([]) == map[];
  }

  /** The UPDATE of one row: cost out, requests counted as unverified. */
  function Unbooked(c: Counters, u: Counters): Counters {
    c.(cost := c.cost - u.cost, unverified := c.unverified + u.requests)
  }

  function UnbookRows(m: Rollup, rows: Rollup): Rollup {
    map k | k in m :: if k in rows then Unbooked(m[k], rows[k]) else m[k]
  }

  // What was booked for a row of a database from 1.0.12: its attempts scaled onto the request
  // amount. scale stands for the product with the factor, however it is rounded.

  function AllCosts(attempts: seq<Attempt>): int {
    if attempts == [] then 0 else AllCosts(attempts[..|attempts| - 1]) + attempts[|attempts| - 1].cost
  }

  predicate AnyCost(attempts: seq<Attempt>) { exists a :: a in attempts && a.cost != 0 }

  function ScaledAttempts(attempts: seq<Attempt>, scale: int -> int): seq<Attempt> {
    if attempts == [] then []
    else
      var a := attempts[|attempts| - 1];
      ScaledAttempts(attempts[..|attempts| - 1], scale) + [if a.cost == 0 then a else a.(cost := scale(a.cost))]
  }

  function AsBooked(l: CallLog, toRequest: bool, scale: int -> int): CallLog {
    var attempts := AttemptList(l);
    if toRequest && AnyCost(attempts) && AllCosts(attempts) > 0 && l.money.cost > 0
    then l.(attempts := Parsed(ScaledAttempts(attempts, scale)))
    else l
  }

  method AttemptsCostSum(attempts: seq<Attempt>) returns (sum: int, priced: bool)
    ensures sum == AllCosts(attempts) && priced == AnyCost(attempts)
  {
    sum, priced := 0, false;
    for i := 0 to |attempts|
      invariant sum == AllCosts(attempts[..i]) && priced == AnyCost(attempts[..i])
    {
      assert attempts[..i + 1] == attempts[..i] + [attempts[i]] && attempts[..i + 1][..i] == attempts[..i];
      if attempts[i].cost != 0 {
        assert attempts[i] in attempts[..i + 1];
        sum, priced := sum + attempts[i].cost, true;
      }
    }
    assert attempts[..|attempts|] == attempts;
  }

  method ScaleAttempts(attempts: seq<Attempt>, scale: int -> int) returns (out: seq<Attempt>)
    ensures out == ScaledAttempts(attempts, scale)
  {
    out := [];
    for i := 0 to |attempts|
      invariant out == ScaledAttempts(attempts[..i], scale)
    {
      assert attempts[..i + 1][..i] == attempts[..i];
      var a := attempts[i];
      out := out + [if a.cost == 0 then a else a.(cost := scale(a.cost))];
    }
    assert attempts[..|attempts|] == attempts;
  }

  /** Takes a row's own booking back out of the rollup. The aggregation that says what was
      booked must see the amounts, so it runs on the row without its stamp. */
  method UnbookUnverified(table: Rollup, l: CallLog, toRequest: bool, scale: int -> int) returns (out: Rollup)
    ensures out == UnbookRows(table, Rows([Stamped(AsBooked(l, toRequest, scale), Unstamped)]))
  {
    var booked := l;
    if toRequest {
      var sum, priced := AttemptsCostSum(AttemptList(l));
      if priced && sum > 0 && l.money.cost > 0 {
        var scaled := ScaleAttempts(AttemptList(l), scale);
        booked := l.(attempts := Parsed(scaled));
      }
    }
    var rows := Aggregate([Stamped(booked, Unstamped)]);
    out := TakeOut(table, rows);
  }

  /** The UPDATE loop over the aggregated rows; rows the table does not have stay missing. */
  method TakeOut(table: Rollup, rows: Rollup) returns (out: Rollup)
    ensures out == UnbookRows(table, rows)
  {
    out := table;
    var rest := rows.Keys;
    while rest != {}
      invariant rest <= rows.Keys && out.Keys == table.Keys
      invariant forall k :: k in table && (k !in rows || k in rest) ==> out[k] == table[k]
      invariant forall k :: k in table && k in rows && k !in rest ==> out[k] == Unbooked(table[k], rows[k])
    {
      var k :| k in rest;
      var u := rows[k];
      if (u.cost != 0 || u.requests != 0) && k in out {
        out := out[k := Unbooked(out[k], u)];
      }
      rest := rest - {k};
    }
  }

  lemma {:induction false} UnbookedAt(r: Counters, u: Counters)
    requires u.unverified == 0
    ensures Unbooked(Add(u, r), u) == Add(Uncosted(u), r)
    ensures Unbooked(u, u) == Uncosted(u)
  {
  }

  lemma {:induction false} VerifiedRows(es: seq<Entry>)
    requires forall e :: e in es ==> e.delta.unverified == 0
    ensures forall k :: k in Book(map[], es) ==> Book(map[], es)[k].unverified == 0
    decreases |es|
  {
    if es != [] {
      VerifiedRows(es[..|es| - 1]);
      assert es[|es| - 1] in es;
    }
  }

  lemma {:induction false} VerifiedAttempts(l: CallLog, attempts: seq<Attempt>)
    ensures forall e :: e in AttemptEntries(l, attempts) ==> e.delta.unverified == 0
  {
    if attempts != [] { VerifiedAttempts(l, attempts[..|attempts| - 1]); }
  }

  /** Un-booking a row and stamping it unverified leaves exactly the rollup of the same
      logs with that row unverified from the start. */
  lemma {:induction false} UnbookIsNeverBooked(a: seq<CallLog>, l: CallLog, b: seq<CallLog>)
    requires l.money.ledger != Unverified
    ensures UnbookRows(Rows(a + [l] + b), Rows([Stamped(l, Unstamped)])) == Rows(a + [Settled(l)] + b)
  {
    StampIrrelevant(l, Unstamped);
    MoveToFront(a, l, b);
    MoveToFront(a, Settled(l), b);
    RowsUncosted(l);
    VerifiedAttempts(l, AttemptList(l));
    RowsSnoc([], l);
    assert [] + [l] == [l] && Rows([]) == map[];
    VerifiedRows(Entries(l));
    UnbookMerge(Rows([l]), Rows(a + b));
  }

  /** The same of a row booked with its attempts scaled onto the request amount: the row
      itself keeps its own amounts, and once unverified they are nowhere in the rollup. */
  lemma {:induction false} UnbookScaled(a: seq<CallLog>, l: CallLog, b: seq<CallLog>, toRequest: bool, scale: int -> int)
    requires l.money.ledger != Unverified
    ensures var booked := AsBooked(l, toRequest, scale);
            UnbookRows(Rows(a + [booked] + b), Rows([Stamped(booked, Unstamped)])) == Rows(a + [Settled(l)] + b)
  {
    var booked := AsBooked(l, toRequest, scale);
    UnbookIsNeverBooked(a, booked, b);
    SettledIgnoresCosts(l, scale);
    MoveToFront(a, Settled(l), b);
    MoveToFront(a, Settled(booked), b);
  }

  lemma {:induction false} ScaledSums(attempts: seq<Attempt>, scale: int -> int)
    ensures var out := ScaledAttempts(attempts, scale);
            PromptSum(out) == PromptSum(attempts) && CompletionSum(out) == CompletionSum(attempts)
  {
    if attempts != [] { ScaledSums(attempts[..|attempts| - 1], scale); }
  }

  lemma {:induction false} ScaledEntries(v: CallLog, w: CallLog, attempts: seq<Attempt>, scale: int -> int)
    requires v.money.ledger == w.money.ledger == Unverified && v.dims == w.dims && v.createdAt == w.createdAt
    ensures AttemptEntries(w, ScaledAttempts(attempts, scale)) == AttemptEntries(v, attempts)
  {
    if attempts != [] { ScaledEntries(v, w, attempts[..|attempts| - 1], scale); }
  }

  lemma {:induction false} SettledIgnoresCosts(l: CallLog, scale: int -> int)
    ensures Rows([Settled(l.(attempts := Parsed(ScaledAttempts(AttemptList(l), scale))))]) == Rows([Settled(l)])
  {
    var v, w := Settled(l), Settled(l.(attempts := Parsed(ScaledAttempts(AttemptList(l), scale))));
    ScaledSums(AttemptList(l), scale);
    ScaledEntries(v, w, AttemptList(l), scale);
    assert RemainderDelta(w) == RemainderDelta(v) && RequestDelta(w) == RequestDelta(v);
    assert Entries(w) == Entries(v);
    RowsSnoc([], v);
    RowsSnoc([], w);
    assert [] + [v] == [v] && [] + [w] == [w];
  }

  lemma {:induction false} UnbookMerge(u: Rollup, r: Rollup)
    requires forall k :: k in u ==> u[k].unverified == 0
    ensures UnbookRows(Merge(u, r), u) == Merge(UncostedRows(u), r)
  {
    forall k | k in u
      ensures Unbooked(u[k], u[k]) == Uncosted(u[k])
      ensures k in r ==> Unbooked(Add(u[k], r[k]), u[k]) == Add(Uncosted(u[k]), r[k])
    {
      UnbookedAt(if k in r then r[k] else ZERO, u[k]);
    }
  }

  /** Whether a booked row is stamped USD or not at all, the same amounts are booked. */
  lemma {:induction false} StampIrrelevant(l: CallLog, stamp: Ledger)
    requires l.money.ledger != Unverified && stamp != Unverified
    ensures Rows([Stamped(l, stamp)]) == Rows([l])
  {
    var v := Stamped(l, stamp);
    AttemptStamp(l, v, AttemptList(l));
    assert RemainderDelta(v).prompt == RemainderDelta(l).prompt && RemainderDelta(v).completion == RemainderDelta(l).completion;
    assert RemainderDelta(v).total == RemainderDelta(l).total;
    assert Entries(v) == Entries(l);
    RowsSnoc([], l);
    RowsSnoc([], v);
    assert [] + [l] == [l] && [] + [v] == [v];
  }

  lemma {:induction false} AttemptStamp(l: CallLog, v: CallLog, attempts: seq<Attempt>)
    requires l.money.ledger != Unverified && v.money.ledger != Unverified
    requires v.dims == l.dims && v.createdAt == l.createdAt
    ensures AttemptEntries(v, attempts) == AttemptEntries(l, attempts)
  {
    if attempts != [] { AttemptStamp(l, v, attempts[..|attempts| - 1]); }
  }
}

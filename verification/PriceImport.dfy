/** Importing a price list: the table is indexed by key with duplicates collapsed, every
    catalog row is planned against it, and applying the plan writes what was planned. */
module PriceImport {

  /** Provider and pattern, trimmed and lower-cased. */
  type Key = string

  datatype Prices = Prices(input: real, output: real, cached: real, write: real)

  /** A row of the price table; currencies are compared without regard to case. */
  datatype Row = Row(id: nat, key: Key, prices: Prices, currency: string, edited: bool, builtin: bool, source: string)

  datatype Entry = Entry(key: Key, prices: Prices, currency: string)

  datatype Options = Options(overwriteEdited: bool, overwriteCurrency: bool)

  datatype Action = New | Keep | Same | Update

  // ---------------------------------------------------------------------------
  // Duplicates
  // ---------------------------------------------------------------------------

  /** Edited before untouched, manual before built-in, older before newer. */
  predicate Beats(a: Row, b: Row) {
    if a.edited != b.edited then a.edited
    else if a.builtin != b.builtin then !a.builtin
    else a.id < b.id
  }

  function Prefer(a: Row, b: Row): Row { if Beats(a, b) then a else b }

  function Index(rows: seq<Row>): map<Key, Row> {
    if rows == [] then map[] else
      var m, r := Index(rows[..|rows| - 1]), rows[|rows| - 1];
      m[r.key := if r.key in m then Prefer(m[r.key], r) else r]
  }

  /** The ids that lose against a row of the same key. */
  function Losers(rows: seq<Row>): seq<nat> {
    if rows == [] then [] else
      var m, r := Index(rows[..|rows| - 1]), rows[|rows| - 1];
      Losers(rows[..|rows| - 1]) + (if r.key !in m then [] else if Prefer(m[r.key], r) == m[r.key] then [r.id] else [m[r.key].id])
  }

  method IndexPrices(rows: seq<Row>) returns (byKey: map<Key, Row>, drop: seq<nat>)
    ensures byKey == Index(rows) && drop == Losers(rows)
  {
    byKey, drop := map[], [];
    for i := 0 to |rows|
      invariant byKey == Index(rows[..i]) && drop == Losers(rows[..i])
    {
      assert rows[..i + 1][..i] == rows[..i];
      var r := rows[i];
      if r.key !in byKey {
        byKey := byKey[r.key := r];
        continue;
      }
      var cur := byKey[r.key];
      if Prefer(cur, r) == cur {
        drop := drop + [r.id];
        assert byKey == byKey[r.key := cur];
      } else {
        drop := drop + [cur.id];
        byKey := byKey[r.key := r];
      }
    }
    assert rows[..|rows|] == rows;
  }

  ghost predicate DistinctIds(rows: seq<Row>) { forall i, j :: 0 <= i < j < |rows| ==> rows[i].id != rows[j].id }

  /** The row of its key that beats every other one. */
  ghost predicate Best(rows: seq<Row>, r: Row) {
    r in rows && forall o :: o in rows && o.key == r.key && o != r ==> Beats(r, o)
  }

  lemma {:induction false} IndexKeys(rows: seq<Row>)
    ensures forall k :: k in Index(rows) ==> Index(rows)[k].key == k && Index(rows)[k] in rows
    ensures forall r :: r in rows ==> r.key in Index(rows)
  {
    if rows != [] {
      assert rows == rows[..|rows| - 1] + [rows[|rows| - 1]];
      IndexKeys(rows[..|rows| - 1]);
    }
  }

  lemma {:induction false} LastIsApart(rows: seq<Row>)
    requires DistinctIds(rows) && rows != []
    ensures DistinctIds(rows[..|rows| - 1])
    ensures forall o :: o in rows[..|rows| - 1] ==> o.id != rows[|rows| - 1].id
  {
    forall o | o in rows[..|rows| - 1] ensures o.id != rows[|rows| - 1].id {
      var i :| 0 <= i < |rows| - 1 && rows[..|rows| - 1][i] == o;
      assert rows[i] == o;
    }
  }

  lemma {:induction false} BeatsIsTotal(a: Row, b: Row)
    requires a.id != b.id
    ensures Beats(a, b) <==> !Beats(b, a)
  {
  }

  /** The winner against one more row is the best of all. */
  lemma {:induction false} BestOfMore(init: seq<Row>, last: Row, w: Row)
    requires Best(init, w) && last.key == w.key && forall o :: o in init ==> o.id != last.id
    ensures Best(init + [last], Prefer(w, last))
  {
    BeatsIsTotal(w, last);
    forall o | o in init + [last] && o.key == w.key && o != Prefer(w, last) ensures Beats(Prefer(w, last), o) {
      if o in init && o != w { assert Beats(w, o); }
    }
  }

  lemma {:induction false} IndexIsBest(rows: seq<Row>)
    requires DistinctIds(rows)
    ensures forall k :: k in Index(rows) ==> Best(rows, Index(rows)[k])
  {
    if rows != [] {
      var init, last := rows[..|rows| - 1], rows[|rows| - 1];
      assert rows == init + [last];
      LastIsApart(rows);
      IndexIsBest(init);
      IndexKeys(init);
      forall k | k in Index(rows) ensures Best(rows, Index(rows)[k]) {
        if k == last.key && k in Index(init) { BestOfMore(init, last, Index(init)[k]); }
      }
    }
  }

  lemma {:induction false} BestIsOne(rows: seq<Row>, a: Row, b: Row)
    requires Best(rows, a) && Best(rows, b) && a.key == b.key
    ensures a == b
  {
  }

  lemma {:induction false} SameSurvivors(a: seq<Row>, b: seq<Row>)
    requires multiset(a) == multiset(b) && DistinctIds(a) && DistinctIds(b)
    ensures forall k :: k in Index(a) ==> k in Index(b) && Index(a)[k] == Index(b)[k]
  {
    IndexIsBest(a);
    IndexIsBest(b);
    IndexKeys(a);
    IndexKeys(b);
    forall r ensures r in a <==> r in b { assert r in multiset(a) <==> r in multiset(b); }
    forall k | k in Index(a) ensures k in Index(b) && Index(a)[k] == Index(b)[k] {
      assert Index(a)[k] in b;
      assert Best(b, Index(a)[k]);
      BestIsOne(b, Index(a)[k], Index(b)[k]);
    }
  }

  /** Whatever order the table is scanned in, the same row of each key survives. */
  lemma {:induction false} ScanOrderDoesNotMatter(a: seq<Row>, b: seq<Row>)
    requires multiset(a) == multiset(b) && DistinctIds(a) && DistinctIds(b)
    ensures Index(a) == Index(b)
  {
    SameSurvivors(a, b);
    SameSurvivors(b, a);
  }

  predicate Survives(rows: seq<Row>, r: Row) { r.key in Index(rows) && Index(rows)[r.key] == r }

  lemma {:induction false} SurvivesSnoc(init: seq<Row>, last: Row, r: Row)
    requires r in init && r.id != last.id
    ensures Survives(init + [last], r) <==> Survives(init, r) && (r.key == last.key ==> Prefer(r, last) == r)
  {
    assert (init + [last])[..|init|] == init;
    IndexKeys(init);
  }

  lemma {:induction false} OneOfId(rows: seq<Row>, o: Row, p: Row)
    requires DistinctIds(rows) && o in rows && p in rows && o.id == p.id
    ensures o == p
  {
    var i :| 0 <= i < |rows| && rows[i] == o;
    var j :| 0 <= j < |rows| && rows[j] == p;
  }

  lemma {:induction false} LosersSnoc(init: seq<Row>, last: Row)
    ensures var m := Index(init);
            Losers(init + [last]) ==
              Losers(init) + (if last.key !in m then [] else if Prefer(m[last.key], last) == m[last.key] then [last.id] else [m[last.key].id])
  {
    assert (init + [last])[..|init|] == init;
  }

  /** The losers are exactly the rows that do not survive. */
  lemma {:induction false} LosersAre(rows: seq<Row>)
    requires DistinctIds(rows)
    ensures forall r :: r in rows ==> (r.id in Losers(rows) <==> !Survives(rows, r))
    ensures forall id :: id in Losers(rows) ==> exists r :: r in rows && r.id == id
  {
    if rows != [] {
      var init, last := rows[..|rows| - 1], rows[|rows| - 1];
      assert rows == init + [last];
      LastIsApart(rows);
      LosersAre(init);
      LosersSnoc(init, last);
      IndexKeys(init);
      forall r | r in rows ensures r.id in Losers(rows) <==> !Survives(rows, r) {
        LoserStep(init, last, r);
      }
    }
  }

  lemma {:induction false} LoserStep(init: seq<Row>, last: Row, r: Row)
    requires DistinctIds(init + [last]) && (r in init || r == last)
    requires forall o :: o in init ==> o.id != last.id && (o.id in Losers(init) <==> !Survives(init, o))
    requires forall id :: id in Losers(init) ==> exists o :: o in init && o.id == id
    ensures r.id in Losers(init + [last]) <==> !Survives(init + [last], r)
  {
    LosersSnoc(init, last);
    IndexKeys(init);
    assert (init + [last])[..|init|] == init;
    if r in init {
      SurvivesSnoc(init, last, r);
      if last.key in Index(init) {
        var w := Index(init)[last.key];
        if w.id == r.id {
          assert DistinctIds(init) by { LastIsApart(init + [last]); }
          OneOfId(init, w, r);
        }
      }
    }
  }

  lemma {:induction false} LosersCount(rows: seq<Row>)
    ensures |Losers(rows)| + |Index(rows)| == |rows|
  {
    if rows != [] {
      var init, last := rows[..|rows| - 1], rows[|rows| - 1];
      LosersCount(init);
      if last.key in Index(init) { assert Index(rows).Keys == Index(init).Keys; } else {
        assert Index(rows).Keys == Index(init).Keys + {last.key};
      }
      assert |Index(rows)| == |Index(rows).Keys| && |Index(init)| == |Index(init).Keys|;
    }
  }

  // ---------------------------------------------------------------------------
  // The plan
  // ---------------------------------------------------------------------------

  predicate Manual(r: Row) { r.edited || (!r.builtin && r.source == "") }

  function Decide(cur: Row, e: Entry, opts: Options): Action {
    if Manual(cur) && !opts.overwriteEdited then Keep
    else if cur.currency != e.currency && !opts.overwriteCurrency then Keep
    else if cur.prices == e.prices && cur.currency == e.currency then Same
    else Update
  }

  function Classify(m: map<Key, Row>, e: Entry, opts: Options): Action {
    if e.key in m then Decide(m[e.key], e, opts) else New
  }

  function Count(m: map<Key, Row>, cat: seq<Entry>, opts: Options, a: Action): nat {
    if cat == [] then 0 else
      Count(m, cat[..|cat| - 1], opts, a) + (if Classify(m, cat[|cat| - 1], opts) == a then 1 else 0)
  }

  datatype Plan = Plan(news: nat, updated: nat, same: nat, kept: nat, duplicates: nat)

  function PlanOf(rows: seq<Row>, cat: seq<Entry>, opts: Options): Plan {
    var m := Index(rows);
    Plan(Count(m, cat, opts, New), Count(m, cat, opts, Update), Count(m, cat, opts, Same), Count(m, cat, opts, Keep), |Losers(rows)|)
  }

  /** Every catalog row is counted once, and the duplicates are the rows beyond one a key. */
  method PlanImport(rows: seq<Row>, cat: seq<Entry>, opts: Options) returns (p: Plan)
    ensures p == PlanOf(rows, cat, opts)
    ensures p.news + p.updated + p.same + p.kept == |cat|
    ensures p.duplicates == |rows| - |Index(rows)|
  {
    var byKey, drop := IndexPrices(rows);
    LosersCount(rows);
    var news, updated, same, kept := 0, 0, 0, 0;
    for i := 0 to |cat|
      invariant news == Count(byKey, cat[..i], opts, New) && updated == Count(byKey, cat[..i], opts, Update)
      invariant same == Count(byKey, cat[..i], opts, Same) && kept == Count(byKey, cat[..i], opts, Keep)
      invariant news + updated + same + kept == i
    {
      assert cat[..i + 1][..i] == cat[..i];
      var e := cat[i];
      if e.key !in byKey {
        news := news + 1;
        continue;
      }
      match Decide(byKey[e.key], e, opts) {
        case Keep => kept := kept + 1;
        case Same => same := same + 1;
        case _ => updated := updated + 1;
      }
    }
    assert cat[..|cat|] == cat;
    p := Plan(news, updated, same, kept, |drop|);
  }

  // ---------------------------------------------------------------------------
  // Applying it
  // ---------------------------------------------------------------------------

  function NewRow(e: Entry, id: nat, source: string): Row { Row(id, e.key, e.prices, e.currency, false, false, source) }

  function Rewritten(r: Row, e: Entry, source: string): Row {
    r.(prices := e.prices, currency := e.currency, edited := false, source := source)
  }

  /** The rows whose ids are not dropped. */
  function Without(rows: seq<Row>, drop: seq<nat>): seq<Row> {
    if rows == [] then [] else
      Without(rows[..|rows| - 1], drop) + (if rows[|rows| - 1].id in drop then [] else [rows[|rows| - 1]])
  }

  function Rewrite(rows: seq<Row>, id: nat, e: Entry, source: string): seq<Row> {
    if rows == [] then [] else
      var r := rows[|rows| - 1];
      Rewrite(rows[..|rows| - 1], id, e, source) + [if r.id == id then Rewritten(r, e, source) else r]
  }

  /** One catalog row: created, written over the row of its key, or left. m is the index it
      is looked up in, next the id the database gives out next. */
  function WriteOne(t: (seq<Row>, nat), m: map<Key, Row>, e: Entry, opts: Options, source: string): (seq<Row>, nat) {
    if e.key !in m then (t.0 + [NewRow(e, t.1, source)], t.1 + 1)
    else if Decide(m[e.key], e, opts) == Update then (Rewrite(t.0, m[e.key].id, e, source), t.1)
    else t
  }

  /** The table after the catalog rows are written one by one. */
  function Applied(t: (seq<Row>, nat), m: map<Key, Row>, cat: seq<Entry>, opts: Options, source: string): (seq<Row>, nat) {
    if cat == [] then t
    else WriteOne(Applied(t, m, cat[..|cat| - 1], opts, source), m, cat[|cat| - 1], opts, source)
  }

  class PriceTable {
    var rows: seq<Row>
    var nextId: nat

    ghost predicate Valid()
      reads this
    {
      DistinctIds(rows) && forall r :: r in rows ==> r.id < nextId
    }

    constructor ()
      ensures Valid() && rows == []
    {
      rows, nextId := [], 1;
    }

    method Delete(drop: seq<nat>)
      modifies this`rows
      ensures rows == Without(old(rows), drop)
    {
      var kept: seq<Row> := [];
      for i := 0 to |rows|
        invariant rows == old(rows) && kept == Without(rows[..i], drop)
      {
        assert rows[..i + 1][..i] == rows[..i];
        if rows[i].id !in drop { kept := kept + [rows[i]]; }
      }
      assert rows[..|rows|] == rows;
      rows := kept;
    }

    method UpdateRow(id: nat, e: Entry, source: string)
      modifies this`rows
      ensures rows == Rewrite(old(rows), id, e, source)
    {
      var done: seq<Row> := [];
      for i := 0 to |rows|
        invariant rows == old(rows) && done == Rewrite(rows[..i], id, e, source)
      {
        assert rows[..i + 1][..i] == rows[..i];
        done := done + [if rows[i].id == id then Rewritten(rows[i], e, source) else rows[i]];
      }
      assert rows[..|rows|] == rows;
      rows := done;
    }

    method WriteEntry(byKey: map<Key, Row>, e: Entry, opts: Options, source: string)
      modifies this
      ensures (rows, nextId) == WriteOne((old(rows), old(nextId)), byKey, e, opts, source)
    {
      if e.key !in byKey {
        rows := rows + [NewRow(e, nextId, source)];
        nextId := nextId + 1;
        return;
      }
      if Decide(byKey[e.key], e, opts) != Update { return; }
      UpdateRow(byKey[e.key].id, e, source);
    }

    method WriteCatalog(byKey: map<Key, Row>, cat: seq<Entry>, opts: Options, source: string)
      modifies this
      ensures (rows, nextId) == Applied((old(rows), old(nextId)), byKey, cat, opts, source)
    {
      for i := 0 to |cat|
        invariant (rows, nextId) == Applied((old(rows), old(nextId)), byKey, cat[..i], opts, source)
      {
        assert cat[..i + 1][..i] == cat[..i];
        WriteEntry(byKey, cat[i], opts, source);
      }
      assert cat[..|cat|] == cat;
    }

    /** One transaction: the plan is made again, duplicates go, the catalog is written. */
    method Apply(cat: seq<Entry>, opts: Options, source: string) returns (p: Plan)
      modifies this
      ensures p == PlanOf(old(rows), cat, opts)
      ensures var kept := Without(old(rows), Losers(old(rows)));
              (rows, nextId) == Applied((kept, old(nextId)), Index(kept), cat, opts, source)
    {
      p := PlanImport(rows, cat, opts);
      var _, drop := IndexPrices(rows);
      if |drop| > 0 { Delete(drop); } else { NothingDropped(rows, drop); }
      var byKey, _ := IndexPrices(rows);
      WriteCatalog(byKey, cat, opts, source);
    }
  }

  lemma {:induction false} NothingDropped(rows: seq<Row>, drop: seq<nat>)
    requires drop == []
    ensures Without(rows, drop) == rows
  {
    if rows != [] { NothingDropped(rows[..|rows| - 1], drop); }
  }

  // ---------------------------------------------------------------------------
  // What applying writes
  // ---------------------------------------------------------------------------

  ghost predicate DistinctKeys(rows: seq<Row>) { forall i, j :: 0 <= i < j < |rows| ==> rows[i].key != rows[j].key }

  ghost predicate DistinctEntries(cat: seq<Entry>) { forall i, j :: 0 <= i < j < |cat| ==> cat[i].key != cat[j].key }

  /** A table with one row a key, ids below the next one. */
  ghost predicate Clean(rows: seq<Row>, next: nat) {
    DistinctKeys(rows) && DistinctIds(rows) && forall r :: r in rows ==> r.id < next
  }

  lemma {:induction false} CleanIndex(rows: seq<Row>)
    requires DistinctKeys(rows)
    ensures forall r :: r in rows ==> r.key in Index(rows) && Index(rows)[r.key] == r
    ensures Losers(rows) == []
  {
    if rows != [] {
      var init, last := rows[..|rows| - 1], rows[|rows| - 1];
      assert rows == init + [last];
      CleanIndex(init);
      IndexKeys(init);
      forall r | r in init ensures r.key != last.key {
        var i :| 0 <= i < |init| && init[i] == r;
        assert rows[i] == r;
      }
    }
  }

  /** Deleting the losers leaves the survivors, one a key, and the index as it was. */
  lemma {:induction false} SurvivorsClean(rows: seq<Row>, next: nat)
    requires DistinctIds(rows) && forall r :: r in rows ==> r.id < next
    ensures var kept := Without(rows, Losers(rows)); Clean(kept, next) && Index(kept) == Index(rows)
  {
    var kept := Without(rows, Losers(rows));
    LosersAre(rows);
    WithoutAre(rows, Losers(rows));
    IndexKeys(rows);
    forall i, j | 0 <= i < j < |kept| ensures kept[i].key != kept[j].key {
      assert kept[i] in kept && kept[j] in kept;
      assert Survives(rows, kept[i]) && Survives(rows, kept[j]);
    }
    CleanIndex(kept);
    IndexKeys(kept);
    forall k | k in Index(rows) ensures k in Index(kept) && Index(kept)[k] == Index(rows)[k] {
      assert Index(rows)[k] in kept;
    }
    forall k | k in Index(kept) ensures k in Index(rows) { assert Index(kept)[k] in rows; }
  }

  lemma {:induction false} WithoutAre(rows: seq<Row>, drop: seq<nat>)
    requires DistinctIds(rows)
    ensures forall r :: r in Without(rows, drop) <==> r in rows && r.id !in drop
    ensures DistinctIds(Without(rows, drop))
  {
    if rows != [] {
      var init, last := rows[..|rows| - 1], rows[|rows| - 1];
      assert rows == init + [last];
      LastIsApart(rows);
      WithoutAre(init, drop);
      var k := Without(init, drop);
      forall i | 0 <= i < |k| ensures k[i].id != last.id { assert k[i] in k; }
    }
  }

  // ---------------------------------------------------------------------------
  // What the index says afterwards
  // ---------------------------------------------------------------------------

  /** The index after the catalog is written, by key. */
  function Written(m: map<Key, Row>, cat: seq<Entry>, opts: Options, source: string, next: nat): (map<Key, Row>, nat) {
    if cat == [] then (m, next)
    else
      WrittenOne(Written(m, cat[..|cat| - 1], opts, source, next), m, cat[|cat| - 1], opts, source)
  }

  predicate Mentions(cat: seq<Entry>, k: Key) { exists e :: e in cat && e.key == k }

  lemma {:induction false} FreshKey(cat: seq<Entry>)
    requires DistinctEntries(cat) && cat != []
    ensures !Mentions(cat[..|cat| - 1], cat[|cat| - 1].key) && DistinctEntries(cat[..|cat| - 1])
  {
    var init, last := cat[..|cat| - 1], cat[|cat| - 1];
    forall e | e in init ensures e.key != last.key {
      var i :| 0 <= i < |init| && init[i] == e;
      assert cat[i] == e;
    }
  }

  /** Keys the catalog does not mention are left alone. */
  lemma {:induction false} WrittenElsewhere(m: map<Key, Row>, cat: seq<Entry>, opts: Options, source: string, next: nat, k: Key)
    requires !Mentions(cat, k)
    ensures var w := Written(m, cat, opts, source, next).0; (k in w <==> k in m) && (k in m ==> w[k] == m[k])
  {
    if cat != [] {
      var init, last := cat[..|cat| - 1], cat[|cat| - 1];
      assert cat == init + [last];
      assert forall e :: e in init ==> e in cat;
      WrittenElsewhere(m, init, opts, source, next, k);
    }
  }

  /** What becomes of the row a catalog entry is about. */
  ghost predicate Outcome(w: map<Key, Row>, m: map<Key, Row>, e: Entry, opts: Options, source: string) {
    e.key in w &&
    match Classify(m, e, opts)
    case New => w[e.key] == NewRow(e, w[e.key].id, source)
    case Update => e.key in m && w[e.key] == Rewritten(m[e.key], e, source) && w[e.key] != m[e.key]
    case _ => e.key in m && w[e.key] == m[e.key]
  }

  lemma {:induction false} WrittenOutcomes(m: map<Key, Row>, cat: seq<Entry>, opts: Options, source: string, next: nat)
    requires DistinctEntries(cat)
    ensures forall e :: e in cat ==> Outcome(Written(m, cat, opts, source, next).0, m, e, opts, source)
  {
    if cat != [] {
      var init, last := cat[..|cat| - 1], cat[|cat| - 1];
      assert cat == init + [last];
      FreshKey(cat);
      WrittenOutcomes(m, init, opts, source, next);
      WrittenElsewhere(m, init, opts, source, next, last.key);
      var w := Written(m, cat, opts, source, next).0;
      forall e | e in init ensures Outcome(w, m, e, opts, source) {
        assert Outcome(Written(m, init, opts, source, next).0, m, e, opts, source);
        assert Mentions(init, e.key);
        assert e.key != last.key;
      }
    }
  }

  /** Planned again, an entry just dealt with is neither new nor an update. */
  lemma {:induction false} OutcomeSettles(w: map<Key, Row>, m: map<Key, Row>, e: Entry, opts: Options, source: string)
    requires Outcome(w, m, e, opts, source)
    ensures Classify(w, e, opts) == Keep || Classify(w, e, opts) == Same
  {
  }

  lemma {:induction false} CountNone(m: map<Key, Row>, cat: seq<Entry>, opts: Options, a: Action)
    requires forall e :: e in cat ==> Classify(m, e, opts) != a
    ensures Count(m, cat, opts, a) == 0
  {
    if cat != [] {
      assert cat == cat[..|cat| - 1] + [cat[|cat| - 1]];
      CountNone(m, cat[..|cat| - 1], opts, a);
    }
  }

  // ---------------------------------------------------------------------------
  // The table is what the index says
  // ---------------------------------------------------------------------------

  lemma {:induction false} CreatedClean(rows: seq<Row>, next: nat, r: Row)
    requires Clean(rows, next) && r.id == next && r.key !in Index(rows)
    ensures Clean(rows + [r], next + 1) && Index(rows + [r]) == Index(rows)[r.key := r]
  {
    IndexKeys(rows);
    assert Index(rows + [r]) == Index(rows)[r.key := r] by { assert (rows + [r])[..|rows|] == rows; }
    forall i | 0 <= i < |rows| ensures rows[i].key != r.key && rows[i].id != r.id && rows[i].id < next { assert rows[i] in rows; }
  }

  lemma {:induction false} RewriteAt(rows: seq<Row>, id: nat, e: Entry, source: string)
    ensures |Rewrite(rows, id, e, source)| == |rows|
    ensures forall i :: 0 <= i < |rows| ==>
              Rewrite(rows, id, e, source)[i] == if rows[i].id == id then Rewritten(rows[i], e, source) else rows[i]
  {
    if rows != [] { RewriteAt(rows[..|rows| - 1], id, e, source); }
  }

  lemma {:induction false} RewriteIsUpdate(rows: seq<Row>, i: nat, e: Entry, source: string)
    requires DistinctIds(rows) && i < |rows|
    ensures Rewrite(rows, rows[i].id, e, source) == rows[i := Rewritten(rows[i], e, source)]
  {
    RewriteAt(rows, rows[i].id, e, source);
  }

  lemma {:induction false} LastKeyIsNew(rows: seq<Row>)
    requires DistinctKeys(rows) && rows != []
    ensures DistinctKeys(rows[..|rows| - 1]) && rows[|rows| - 1].key !in Index(rows[..|rows| - 1])
    ensures Index(rows) == Index(rows[..|rows| - 1])[rows[|rows| - 1].key := rows[|rows| - 1]]
  {
    var init, last := rows[..|rows| - 1], rows[|rows| - 1];
    IndexKeys(init);
    forall r | r in init ensures r.key != last.key {
      var j :| 0 <= j < |init| && init[j] == r;
      assert rows[j].key != last.key;
    }
  }

  /** Replacing a row by one of the same key replaces it in the index. */
  lemma {:induction false} IndexUpdate(rows: seq<Row>, i: nat, r: Row)
    requires DistinctKeys(rows) && i < |rows| && r.key == rows[i].key
    ensures DistinctKeys(rows[i := r]) && Index(rows[i := r]) == Index(rows)[r.key := r]
  {
    var t := rows[i := r];
    var init, last := rows[..|rows| - 1], rows[|rows| - 1];
    assert DistinctKeys(t);
    LastKeyIsNew(rows);
    LastKeyIsNew(t);
    if i == |rows| - 1 {
      assert t[..|t| - 1] == init;
      assert Index(init)[last.key := last][r.key := r] == Index(init)[r.key := r];
    } else {
      assert t[..|t| - 1] == init[i := r];
      IndexUpdate(init, i, r);
      assert last.key != r.key;
      assert Index(init)[r.key := r][last.key := last] == Index(init)[last.key := last][r.key := r];
    }
  }

  lemma {:induction false} RewrittenClean(rows: seq<Row>, next: nat, cur: Row, e: Entry, source: string)
    requires Clean(rows, next) && cur in rows && cur.key == e.key
    ensures var t := Rewrite(rows, cur.id, e, source);
            Clean(t, next) && |t| == |rows| && Index(t) == Index(rows)[e.key := Rewritten(cur, e, source)]
  {
    var i :| 0 <= i < |rows| && rows[i] == cur;
    RewriteIsUpdate(rows, i, e, source);
    IndexUpdate(rows, i, Rewritten(cur, e, source));
    var t := rows[i := Rewritten(cur, e, source)];
    forall r | r in t ensures r.id < next {
      var j :| 0 <= j < |t| && t[j] == r;
      assert rows[j] in rows;
    }
  }

  /** What one catalog row does to the index. */
  function WrittenOne(w: (map<Key, Row>, nat), m: map<Key, Row>, e: Entry, opts: Options, source: string): (map<Key, Row>, nat) {
    if e.key !in m then (w.0[e.key := NewRow(e, w.1, source)], w.1 + 1)
    else if Decide(m[e.key], e, opts) == Update then (w.0[e.key := Rewritten(m[e.key], e, source)], w.1)
    else w
  }

  lemma {:induction false} WriteOneIs(t: (seq<Row>, nat), m: map<Key, Row>, e: Entry, opts: Options, source: string)
    requires Clean(t.0, t.1) && (e.key in Index(t.0) <==> e.key in m) && (e.key in m ==> Index(t.0)[e.key] == m[e.key])
    ensures var u := WriteOne(t, m, e, opts, source);
            && Clean(u.0, u.1) && (Index(u.0), u.1) == WrittenOne((Index(t.0), t.1), m, e, opts, source)
            && |u.0| == |t.0| + (if Classify(m, e, opts) == New then 1 else 0)
  {
    IndexKeys(t.0);
    if e.key !in m {
      CreatedClean(t.0, t.1, NewRow(e, t.1, source));
    } else if Decide(m[e.key], e, opts) == Update {
      RewrittenClean(t.0, t.1, m[e.key], e, source);
    }
  }

  lemma {:induction false} AppliedIsWritten(rows: seq<Row>, m: map<Key, Row>, cat: seq<Entry>, opts: Options, source: string, next: nat)
    requires Clean(rows, next) && m == Index(rows) && DistinctEntries(cat)
    ensures var t := Applied((rows, next), m, cat, opts, source);
            && Clean(t.0, t.1) && (Index(t.0), t.1) == Written(m, cat, opts, source, next)
            && |t.0| == |rows| + Count(m, cat, opts, New)
  {
    if cat != [] {
      var init, last := cat[..|cat| - 1], cat[|cat| - 1];
      FreshKey(cat);
      AppliedIsWritten(rows, m, init, opts, source, next);
      WrittenElsewhere(m, init, opts, source, next, last.key);
      WriteOneIs(Applied((rows, next), m, init, opts, source), m, last, opts, source);
    }
  }

  /** Applying a catalog of distinct keys to any table, duplicates included: what is left has
      one row a key; every entry has the outcome its plan says, every other key keeps its
      surviving row; as many rows are new as planned; and planning again finds nothing new,
      nothing to update and no duplicates. */
  lemma {:induction false} ApplyWritesThePlan(rows: seq<Row>, cat: seq<Entry>, opts: Options, source: string, next: nat)
    requires DistinctIds(rows) && (forall r :: r in rows ==> r.id < next) && DistinctEntries(cat)
    ensures var kept := Without(rows, Losers(rows));
            var t := Applied((kept, next), Index(kept), cat, opts, source).0;
            && DistinctKeys(t) && |t| == |Index(rows)| + PlanOf(rows, cat, opts).news
            && (forall e :: e in cat ==> Outcome(Index(t), Index(rows), e, opts, source))
            && (forall k :: !Mentions(cat, k) ==> (k in Index(t) <==> k in Index(rows)) && (k in Index(rows) ==> Index(t)[k] == Index(rows)[k]))
            && PlanOf(t, cat, opts).news == 0 && PlanOf(t, cat, opts).updated == 0 && PlanOf(t, cat, opts).duplicates == 0
  {
    var kept := Without(rows, Losers(rows));
    SurvivorsClean(rows, next);
    var m := Index(kept);
    AppliedIsWritten(kept, m, cat, opts, source, next);
    CleanIndex(kept);
    LosersCount(kept);
    var t := Applied((kept, next), m, cat, opts, source).0;
    WrittenOutcomes(m, cat, opts, source, next);
    forall k | !Mentions(cat, k)
      ensures (k in Index(t) <==> k in Index(rows)) && (k in Index(rows) ==> Index(t)[k] == Index(rows)[k])
    {
      WrittenElsewhere(m, cat, opts, source, next, k);
    }
    forall e | e in cat ensures Classify(Index(t), e, opts) != New && Classify(Index(t), e, opts) != Update {
      OutcomeSettles(Index(t), m, e, opts, source);
    }
    CountNone(Index(t), cat, opts, New);
    CountNone(Index(t), cat, opts, Update);
    CleanIndex(t);
  }
}

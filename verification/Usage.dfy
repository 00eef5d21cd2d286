/** Call logs, the usage folded out of their attempt records, and the hourly rollup
    rows that Aggregate derives from them.

    Times are nanoseconds since the Unix epoch. Attempts arrive as JSON text in the
    original; here they are already parsed, with a constructor for text that does not
    parse. */
module Usage {
  import opened Wrappers

  const HOUR: int := 3_600_000_000_000

  /** Names (request ids, providers, models, API types) are only ever compared. */
  type Label = nat

  datatype Status = Confirmed | Partial | Unknown | Unused | Unlabelled

  datatype Ledger = Usd | Unverified | Unstamped

  datatype Attempt = Attempt(account: nat, provider: Label, model: Label, status: Status,
                             prompt: int, completion: int, cached: int, cacheWrite: int,
                             cost: int, costKnown: bool)

  datatype Attempts = Absent | Malformed | Parsed(list: seq<Attempt>)

  /** Who asked for what, and which account answered. */
  datatype Dims = Dims(user: nat, group: nat, apiKey: nat, account: nat, provider: Label,
                       requestModel: Label, modelGroup: Label, apiType: Label)

  datatype TokenUse = TokenUse(status: Status, known: bool, corrected: bool,
                               prompt: int, completion: int, total: int, cached: int, cacheWrite: int)

  datatype Money = Money(cost: int, known: bool, ledger: Ledger)

  datatype CallLog = CallLog(requestId: Label, createdAt: int, dims: Dims, success: bool, latency: int,
                             use: TokenUse, money: Money, attempts: Attempts)

  datatype DimKey = DimKey(hour: int, user: nat, group: nat, apiKey: nat, account: nat,
                           provider: Label, requestModel: Label, modelGroup: Label, apiType: Label)

  datatype Counters = Counters(requests: int, attempts: int, success: int, failed: int,
                               prompt: int, completion: int, total: int, cached: int,
                               unknown: int, latency: int, cost: int, unverified: int)

  const ZERO: Counters := Counters(0, 0, 0, 0, 0, 0, 0, 0, 0, 0, 0, 0)

  type Rollup = map<DimKey, Counters>

  datatype Entry = Entry(key: DimKey, delta: Counters)

  function Add(a: Counters, b: Counters): Counters {
    Counters(a.requests + b.requests, a.attempts + b.attempts, a.success + b.success, a.failed + b.failed,
             a.prompt + b.prompt, a.completion + b.completion, a.total + b.total, a.cached + b.cached,
             a.unknown + b.unknown, a.latency + b.latency, a.cost + b.cost, a.unverified + b.unverified)
  }

  function Max(a: int, b: int): int { if a >= b then a else b }

  /** The start of the hour, counted in hours. */
  function HourOf(t: int): int { t / HOUR }

  function AttemptList(l: CallLog): seq<Attempt> {
    if l.attempts.Parsed? then l.attempts.list else []
  }

  predicate Counted(a: Attempt) { a.status == Confirmed || a.status == Partial }

  // ---------------------------------------------------------------------------
  // The rollup as a sum of entries
  // ---------------------------------------------------------------------------

  function KeyFor(l: CallLog, account: nat, provider: Label): DimKey {
    DimKey(HourOf(l.createdAt), l.dims.user, l.dims.group, l.dims.apiKey, account, provider,
           l.dims.requestModel, l.dims.modelGroup, l.dims.apiType)
  }

  /** Add to the row of a key, creating it the first time. */
  function Bump(m: Rollup, k: DimKey, d: Counters): Rollup {
    if k in m then m[k := Add(m[k], d)] else m[k := d]
  }

  function BookEntry(m: Rollup, e: Entry): Rollup { Bump(m, e.key, e.delta) }

  function Book(m: Rollup, es: seq<Entry>): Rollup
    decreases |es|
  {
    if es == [] then m else Bump(Book(m, es[..|es| - 1]), es[|es| - 1].key, es[|es| - 1].delta)
  }

  /** What one request adds to the row of the account that answered, before any attempt is looked at. */
  function RequestDelta(l: CallLog): Counters {
    ZERO.(requests := 1, success := if l.success then 1 else 0, failed := if l.success then 0 else 1,
          cached := l.use.cached, latency := l.latency,
          unknown := if l.use.status == Partial || l.use.status == Unknown then 1 else 0,
          unverified := if l.money.ledger == Unverified then 1 else 0)
  }

  /** What one attempt adds to the row of the account it ran on. */
  function AttemptDelta(a: Attempt, costOk: bool): Counters {
    ZERO.(attempts := 1,
          prompt := if Counted(a) then a.prompt else 0,
          completion := if Counted(a) then a.completion else 0,
          total := if Counted(a) then a.prompt + a.completion else 0,
          cost := if Counted(a) && costOk then a.cost else 0)
  }

  function AttemptEntry(l: CallLog, a: Attempt): Entry {
    Entry(KeyFor(l, a.account, a.provider), AttemptDelta(a, l.money.ledger != Unverified))
  }

  function AttemptEntries(l: CallLog, attempts: seq<Attempt>): seq<Entry> {
    if attempts == [] then [] else AttemptEntries(l, attempts[..|attempts| - 1]) + [AttemptEntry(l, attempts[|attempts| - 1])]
  }

  function PromptSum(attempts: seq<Attempt>): int {
    if attempts == [] then 0 else
      var a := attempts[|attempts| - 1];
      PromptSum(attempts[..|attempts| - 1]) + (if Counted(a) then a.prompt else 0)
  }

  function CompletionSum(attempts: seq<Attempt>): int {
    if attempts == [] then 0 else
      var a := attempts[|attempts| - 1];
      CompletionSum(attempts[..|attempts| - 1]) + (if Counted(a) then a.completion else 0)
  }

  function CostSum(attempts: seq<Attempt>): int {
    if attempts == [] then 0 else
      var a := attempts[|attempts| - 1];
      CostSum(attempts[..|attempts| - 1]) + (if Counted(a) then a.cost else 0)
  }

  /** What the request knows beyond its attempts; it stays on the answering account. */
  function RemainderDelta(l: CallLog): Counters {
    var attempts := AttemptList(l);
    var ap, ac := PromptSum(attempts), CompletionSum(attempts);
    var rp, rc := Max(l.use.prompt - ap, 0), Max(l.use.completion - ac, 0);
    ZERO.(prompt := rp, completion := rc,
          total := rp + rc + Max(l.use.total - (ap + ac) - rp - rc, 0),
          cost := if l.money.ledger == Unverified then 0 else Max(l.money.cost - CostSum(attempts), 0))
  }

  function Entries(l: CallLog): seq<Entry> {
    var u := KeyFor(l, l.dims.account, l.dims.provider);
    [Entry(u, RequestDelta(l))] + AttemptEntries(l, AttemptList(l)) + [Entry(u, RemainderDelta(l))]
  }

  function EntriesOf(batch: seq<CallLog>): seq<Entry> {
    if batch == [] then [] else EntriesOf(batch[..|batch| - 1]) + Entries(batch[|batch| - 1])
  }

  /** The rollup rows of a batch. */
  function Rows(batch: seq<CallLog>): Rollup { Book(map[], EntriesOf(batch)) }

  /** Folding a log batch into hourly rows, as the loops of the original do it. */
  method Aggregate(batch: seq<CallLog>) returns (agg: Rollup)
    ensures agg == Rows(batch)
  {
    agg := map[];
    for i := 0 to |batch|
      invariant agg == Rows(batch[..i])
    {
      var l := batch[i];
      var u := KeyFor(l, l.dims.account, l.dims.provider);
      agg := Bump(agg, u, RequestDelta(l));
      var ap, ac, acost;
      agg, ap, ac, acost := BookAttempts(agg, l, AttemptList(l));
      var rest := Remainder(l, ap, ac, acost);
      agg := Bump(agg, u, rest);
      EntriesStep(batch, i);
    }
    assert batch[..|batch|] == batch;
  }

  /** The inner loop: each attempt is booked on its own account, and the tokens and cost
      it accounts for are summed. */
  method BookAttempts(start: Rollup, l: CallLog, attempts: seq<Attempt>)
    returns (agg: Rollup, ap: int, ac: int, acost: int)
    ensures agg == Book(start, AttemptEntries(l, attempts))
    ensures ap == PromptSum(attempts) && ac == CompletionSum(attempts)
    ensures acost == if l.money.ledger == Unverified then 0 else CostSum(attempts)
  {
    agg, ap, ac, acost := start, 0, 0, 0;
    ghost var booked := [];
    for j := 0 to |attempts|
      invariant booked == AttemptEntries(l, attempts[..j])
      invariant agg == Book(start, booked)
      invariant ap == PromptSum(attempts[..j]) && ac == CompletionSum(attempts[..j])
      invariant acost == if l.money.ledger == Unverified then 0 else CostSum(attempts[..j])
    {
      var a := attempts[j];
      AttemptStep(l, attempts, j);
      BookSnoc(start, booked, AttemptEntry(l, a));
      SumsStep(attempts, j);
      booked := booked + [AttemptEntry(l, a)];
      agg := BookEntry(agg, AttemptEntry(l, a));
      ap, ac, acost := AddCounted(l, a, ap, ac, acost);
    }
    assert attempts[..|attempts|] == attempts;
  }

  /** Only attempts whose usage is known or partly known count, and no cost of an
      unverified log does. */
  method AddCounted(l: CallLog, a: Attempt, p: int, c: int, cost: int) returns (ap: int, ac: int, acost: int)
    ensures ap == p + (if Counted(a) then a.prompt else 0)
    ensures ac == c + (if Counted(a) then a.completion else 0)
    ensures acost == cost + (if Counted(a) && l.money.ledger != Unverified then a.cost else 0)
  {
    ap, ac, acost := p, c, cost;
    if Counted(a) {
      ap, ac := ap + a.prompt, ac + a.completion;
      if l.money.ledger != Unverified { acost := acost + a.cost; }
    }
  }

  /** What stays on the answering account once the attempts are booked. */
  method Remainder(l: CallLog, ap: int, ac: int, acost: int) returns (rest: Counters)
    requires ap == PromptSum(AttemptList(l)) && ac == CompletionSum(AttemptList(l))
    requires acost == if l.money.ledger == Unverified then 0 else CostSum(AttemptList(l))
    ensures rest == RemainderDelta(l)
  {
    var rp, rc := Max(l.use.prompt - ap, 0), Max(l.use.completion - ac, 0);
    var rt := Max(l.use.total - (ap + ac) - rp - rc, 0);
    rest := ZERO.(prompt := rp, completion := rc, total := rp + rc + rt);
    var rcost := l.money.cost - acost;
    if l.money.ledger != Unverified && rcost > 0 { rest := rest.(cost := rcost); }
  }

  lemma {:induction false} SumsStep(attempts: seq<Attempt>, j: nat)
    requires j < |attempts|
    ensures var a, before, after := attempts[j], attempts[..j], attempts[..j + 1];
            && PromptSum(after) == PromptSum(before) + (if Counted(a) then a.prompt else 0)
            && CompletionSum(after) == CompletionSum(before) + (if Counted(a) then a.completion else 0)
            && CostSum(after) == CostSum(before) + (if Counted(a) then a.cost else 0)
  {
    assert attempts[..j + 1][..j] == attempts[..j];
  }

  lemma {:induction false} AttemptStep(l: CallLog, attempts: seq<Attempt>, j: nat)
    requires j < |attempts|
    ensures AttemptEntries(l, attempts[..j + 1]) == AttemptEntries(l, attempts[..j]) + [AttemptEntry(l, attempts[j])]
  {
    assert attempts[..j + 1][..j] == attempts[..j];
  }

  lemma {:induction false} BookSnoc(m: Rollup, es: seq<Entry>, e: Entry)
    ensures Book(m, es + [e]) == BookEntry(Book(m, es), e)
  {
    assert (es + [e])[..|es + [e]| - 1] == es;
  }

  lemma {:induction false} EntriesStep(batch: seq<CallLog>, i: nat)
    requires i < |batch|
    ensures var l := batch[i]; var u := KeyFor(l, l.dims.account, l.dims.provider);
            Rows(batch[..i + 1]) ==
            Bump(Book(Bump(Rows(batch[..i]), u, RequestDelta(l)), AttemptEntries(l, AttemptList(l))), u, RemainderDelta(l))
  {
    var l := batch[i];
    var first := Entry(KeyFor(l, l.dims.account, l.dims.provider), RequestDelta(l));
    var rest := Entry(KeyFor(l, l.dims.account, l.dims.provider), RemainderDelta(l));
    var es := AttemptEntries(l, AttemptList(l));
    assert batch[..i + 1] == batch[..i] + [l];
    EntriesOfSnoc(batch[..i], l);
    BookParts(map[], EntriesOf(batch[..i]), first, es, rest);
  }

  lemma {:induction false} BookParts(m: Rollup, before: seq<Entry>, first: Entry, es: seq<Entry>, rest: Entry)
    ensures Book(m, before + ([first] + es + [rest])) ==
            Bump(Book(Bump(Book(m, before), first.key, first.delta), es), rest.key, rest.delta)
  {
    assert before + ([first] + es + [rest]) == ((before + [first]) + es) + [rest];
    BookSnoc(m, (before + [first]) + es, rest);
    BookConcat(m, before + [first], es);
    BookSnoc(m, before, first);
  }

  lemma {:induction false} BookConcat(m: Rollup, a: seq<Entry>, b: seq<Entry>)
    ensures Book(m, a + b) == Book(Book(m, a), b)
    decreases |b|
  {
    if b == [] {
      assert a + b == a;
    } else {
      var init := b[..|b| - 1];
      assert a + b == (a + init) + [b[|b| - 1]];
      BookConcat(m, a, init);
      BookSnoc(m, a + init, b[|b| - 1]);
    }
  }

  // ---------------------------------------------------------------------------
  // Concatenating batches is adding rows
  // ---------------------------------------------------------------------------

  /** Row-wise sum: what the upsert of one set of rows into another leaves. */
  function Merge(a: Rollup, b: Rollup): Rollup {
    map k | k in a.Keys + b.Keys :: if k in a && k in b then Add(a[k], b[k]) else if k in a then a[k] else b[k]
  }

  lemma {:induction false} BookIsMerge(m: Rollup, es: seq<Entry>)
    ensures Book(m, es) == Merge(m, Book(map[], es))
  {
    if es == [] {
      assert Merge(m, map[]) == m;
    } else {
      var init, last := es[..|es| - 1], es[|es| - 1];
      BookIsMerge(m, init);
      MergeBump(m, Book(map[], init), last.key, last.delta);
    }
  }

  lemma {:induction false} MergeBump(m: Rollup, n: Rollup, k: DimKey, d: Counters)
    ensures Bump(Merge(m, n), k, d) == Merge(m, Bump(n, k, d))
  {
    if k in m && k in n {
      AddAssoc(m[k], n[k], d);
    }
  }

  lemma {:induction false} EntriesOfConcat(a: seq<CallLog>, b: seq<CallLog>)
    ensures EntriesOf(a + b) == EntriesOf(a) + EntriesOf(b)
  {
    if b == [] {
      assert a + b == a;
    } else {
      var init, last := b[..|b| - 1], b[|b| - 1];
      assert a + b == (a + init) + [last] && b == init + [last];
      EntriesOfConcat(a, init);
      EntriesOfSnoc(a + init, last);
      EntriesOfSnoc(init, last);
      Assoc(EntriesOf(a), EntriesOf(init), Entries(last));
    }
  }

  lemma {:induction false} EntriesOfSnoc(a: seq<CallLog>, l: CallLog)
    ensures EntriesOf(a + [l]) == EntriesOf(a) + Entries(l)
  {
    assert (a + [l])[..|a + [l]| - 1] == a;
  }

  lemma {:induction false} AddAssoc(a: Counters, b: Counters, c: Counters)
    ensures Add(Add(a, b), c) == Add(a, Add(b, c))
  {
  }

  /** Aggregate turns concatenation of batches into row-wise addition. */
  lemma {:induction false} RowsHomomorphism(a: seq<CallLog>, b: seq<CallLog>)
    ensures Rows(a + b) == Merge(Rows(a), Rows(b))
  {
    EntriesOfConcat(a, b);
    BookConcat(map[], EntriesOf(a), EntriesOf(b));
    BookIsMerge(Rows(a), EntriesOf(b));
  }

  /** The upsert loop of the original: every aggregated row is added to the stored row
      of the same key, or inserted. The row order is the unspecified order of a map. */
  method ApplyRollup(table: Rollup, rows: Rollup) returns (out: Rollup)
    ensures out == Merge(table, rows)
  {
    out := table;
    var rest := rows.Keys;
    while rest != {}
      invariant rest <= rows.Keys
      invariant out.Keys == table.Keys + (rows.Keys - rest)
      invariant forall k :: k in rest && k in table ==> out[k] == table[k]
      invariant forall k :: k in out && k !in rest ==> out[k] == Merge(table, rows)[k]
    {
      var k :| k in rest;
      if k in out {
        out := out[k := Add(out[k], rows[k])];
      } else {
        out := out[k := rows[k]];
      }
      rest := rest - {k};
    }
  }

  // ---------------------------------------------------------------------------
  // Conservation: what a log's rows add up to
  // ---------------------------------------------------------------------------

  /** The counters the reports and the reconciliation sum over rows. */
  datatype Field = FRequests | FAttempts | FCached | FTokens | FCost | FUnverified

  function Get(c: Counters, f: Field): int {
    match f
    case FRequests => c.requests
    case FAttempts => c.attempts
    case FCached => c.cached
    case FTokens => c.total
    case FCost => c.cost
    case FUnverified => c.unverified
  }

  /** SUM(field) over a set of rows. */
  ghost function Total(m: Rollup, f: Field): int {
    if m == map[] then 0
    else var k :| k in m; Get(m[k], f) + Total(m - {k}, f)
  }

  lemma {:induction false} TotalPick(m: Rollup, k: DimKey, f: Field)
    requires k in m
    ensures Total(m, f) == Get(m[k], f) + Total(m - {k}, f)
    decreases |m|
  {
    var p :| p in m && Total(m, f) == Get(m[p], f) + Total(m - {p}, f);
    if p != k {
      TotalPick(m - {p}, k, f);
      TotalPick(m - {k}, p, f);
      assert m - {p} - {k} == m - {k} - {p};
    }
  }

  lemma {:induction false} TotalBump(m: Rollup, k: DimKey, d: Counters, f: Field)
    ensures Total(Bump(m, k, d), f) == Total(m, f) + Get(d, f)
  {
    var n := Bump(m, k, d);
    TotalPick(n, k, f);
    assert n - {k} == m - {k};
    if k in m { TotalPick(m, k, f); } else { assert m - {k} == m; }
  }

  function SumDeltas(es: seq<Entry>, f: Field): int {
    if es == [] then 0 else SumDeltas(es[..|es| - 1], f) + Get(es[|es| - 1].delta, f)
  }

  lemma {:induction false} SumDeltasSnoc(es: seq<Entry>, e: Entry, f: Field)
    ensures SumDeltas(es + [e], f) == SumDeltas(es, f) + Get(e.delta, f)
  {
    assert (es + [e])[..|es + [e]| - 1] == es;
  }

  lemma {:induction false} SumDeltasConcat(a: seq<Entry>, b: seq<Entry>, f: Field)
    ensures SumDeltas(a + b, f) == SumDeltas(a, f) + SumDeltas(b, f)
  {
    if b == [] {
      assert a + b == a;
    } else {
      var init, last := b[..|b| - 1], b[|b| - 1];
      assert a + b == (a + init) + [last];
      SumDeltasConcat(a, init, f);
      SumDeltasSnoc(a + init, last, f);
    }
  }

  lemma {:induction false} TotalBook(es: seq<Entry>, f: Field)
    ensures Total(Book(map[], es), f) == SumDeltas(es, f)
  {
    if es != [] {
      var init, last := es[..|es| - 1], es[|es| - 1];
      TotalBook(init, f);
      TotalBump(Book(map[], init), last.key, last.delta, f);
    }
  }

  /** A field summed over everything one log books. */
  function Booked(l: CallLog, f: Field): int { SumDeltas(Entries(l), f) }

  function AttemptShare(l: CallLog, attempts: seq<Attempt>, f: Field): int {
    match f
    case FAttempts => |attempts|
    case FTokens => PromptSum(attempts) + CompletionSum(attempts)
    case FCost => if l.money.ledger == Unverified then 0 else CostSum(attempts)
    case _ => 0
  }

  lemma {:induction false} AttemptDeltas(l: CallLog, attempts: seq<Attempt>, f: Field)
    ensures SumDeltas(AttemptEntries(l, attempts), f) == AttemptShare(l, attempts, f)
  {
    if attempts != [] {
      var init := attempts[..|attempts| - 1];
      AttemptDeltas(l, init, f);
      SumDeltasSnoc(AttemptEntries(l, init), AttemptEntry(l, attempts[|attempts| - 1]), f);
    }
  }

  lemma {:induction false} BookedSum(l: CallLog, f: Field)
    ensures Booked(l, f) == Get(RequestDelta(l), f) + AttemptShare(l, AttemptList(l), f) + Get(RemainderDelta(l), f)
  {
    var u := KeyFor(l, l.dims.account, l.dims.provider);
    var first, es, rest := Entry(u, RequestDelta(l)), AttemptEntries(l, AttemptList(l)), Entry(u, RemainderDelta(l));
    SumDeltasSnoc([first] + es, rest, f);
    SumDeltasConcat([first], es, f);
    SumDeltasSnoc([], first, f);
    assert [] + [first] == [first];
    AttemptDeltas(l, AttemptList(l), f);
  }

  /** The closed form of what a log books: tokens and money are booked as the larger of
      what the request says and what its attempts say. */
  function Expected(l: CallLog, f: Field): int {
    var attempts := AttemptList(l);
    match f
    case FRequests => 1
    case FAttempts => |attempts|
    case FCached => l.use.cached
    case FTokens => Max(l.use.total, Max(l.use.prompt, PromptSum(attempts)) + Max(l.use.completion, CompletionSum(attempts)))
    case FCost => if l.money.ledger == Unverified then 0 else Max(l.money.cost, CostSum(attempts))
    case FUnverified => if l.money.ledger == Unverified then 1 else 0
  }

  lemma {:induction false} BookedIs(l: CallLog, f: Field)
    ensures Booked(l, f) == Expected(l, f)
  {
    BookedSum(l, f);
  }

  /** The total a log claims covers what it and its attempts report. */
  predicate TokensCovered(l: CallLog) {
    l.use.total >= Max(l.use.prompt, PromptSum(AttemptList(l))) + Max(l.use.completion, CompletionSum(AttemptList(l)))
  }

  predicate CostCovered(l: CallLog) {
    l.money.ledger == Unverified || l.money.cost >= CostSum(AttemptList(l))
  }

  lemma {:induction false} RowsTotal(l: CallLog, f: Field)
    ensures Total(Rows([l]), f) == Expected(l, f)
  {
    EntriesOfSnoc([], l);
    assert [] + [l] == [l];
    assert EntriesOf([]) == [];
    assert [] + Entries(l) == Entries(l);
    TotalBook(Entries(l), f);
    BookedIs(l, f);
  }

  /** The rows of one log sum to one request, all its attempts and its cached tokens,
      whatever accounts the attempts ran on; to its total tokens exactly when the total
      covers prompt and completion on both sides; and to its cost exactly when the cost
      covers the attempts (an unverified cost is never summed). The comment beside the
      original's token arithmetic claims the token equality without the condition. */
  lemma {:induction false} RowsConserve(l: CallLog)
    ensures Total(Rows([l]), FRequests) == 1
    ensures Total(Rows([l]), FAttempts) == |AttemptList(l)|
    ensures Total(Rows([l]), FCached) == l.use.cached
    ensures Total(Rows([l]), FTokens) == l.use.total <==> TokensCovered(l)
    ensures Total(Rows([l]), FTokens) >= l.use.total
    ensures l.money.ledger != Unverified ==> (Total(Rows([l]), FCost) == l.money.cost <==> CostCovered(l))
    ensures l.money.ledger == Unverified ==> Total(Rows([l]), FCost) == 0
  {
    RowsTotal(l, FRequests);
    RowsTotal(l, FAttempts);
    RowsTotal(l, FCached);
    RowsTotal(l, FTokens);
    RowsTotal(l, FCost);
  }

  /** A legacy log the coverage condition excludes: the attempts saw ten prompt tokens,
      the request ten completion tokens. It is left alone by the normaliser and its rows
      carry twenty tokens for a log of ten. */
  lemma {:induction false} UncoveredLog(l: CallLog, a: Attempt)
    requires a.status == Confirmed && a.prompt == 10 && a.completion == 0
    requires l.attempts == Parsed([a]) && l.use.status == Confirmed
    requires l.use.prompt == 0 && l.use.completion == 10 && l.use.total == 10
    ensures Normalize(l) == l && Total(Rows([l]), FTokens) == 20
  {
    OneAttempt(a);
    RowsTotal(l, FTokens);
  }

  lemma {:induction false} OneAttempt(a: Attempt)
    ensures PromptSum([a]) == if Counted(a) then a.prompt else 0
    ensures CompletionSum([a]) == if Counted(a) then a.completion else 0
    ensures forall s :: HasStatus([a], s) <==> a.status == s
  {
    SumsStep([a], 0);
    assert [a][..1] == [a];
    assert [a][..|[a]| - 1] == [];
  }

  // ---------------------------------------------------------------------------
  // The two folds of attempt usage: the gateway's and the legacy normaliser's
  // ---------------------------------------------------------------------------

  predicate HasStatus(attempts: seq<Attempt>, s: Status) {
    attempts != [] && (attempts[|attempts| - 1].status == s || HasStatus(attempts[..|attempts| - 1], s))
  }

  /** The status of a request: undeterminable beats cut short beats complete. */
  function FoldStatus(attempts: seq<Attempt>): Status {
    if HasStatus(attempts, Unknown) then Unknown
    else if HasStatus(attempts, Partial) then Partial
    else if HasStatus(attempts, Confirmed) then Confirmed
    else Unused
  }

  /** The gateway's fold of attempt usage into the request. */
  method UsageFromAttempts(attempts: seq<Attempt>) returns (status: Status, prompt: int, completion: int)
    ensures status == FoldStatus(attempts)
    ensures prompt == PromptSum(attempts) && completion == CompletionSum(attempts)
  {
    prompt, completion := 0, 0;
    var hasUnknown, hasPartial, hasConfirmed := false, false, false;
    for i := 0 to |attempts|
      invariant prompt == PromptSum(attempts[..i]) && completion == CompletionSum(attempts[..i])
      invariant hasUnknown == HasStatus(attempts[..i], Unknown)
      invariant hasPartial == HasStatus(attempts[..i], Partial)
      invariant hasConfirmed == HasStatus(attempts[..i], Confirmed)
    {
      var a := attempts[i];
      assert attempts[..i + 1][..i] == attempts[..i];
      match a.status {
        case Confirmed =>
          hasConfirmed := true;
          prompt, completion := prompt + a.prompt, completion + a.completion;
        case Partial =>
          hasPartial := true;
          prompt, completion := prompt + a.prompt, completion + a.completion;
        case Unknown =>
          hasUnknown := true;
        case _ =>
      }
    }
    assert attempts[..|attempts|] == attempts;
    status := if hasUnknown then Unknown else if hasPartial then Partial else if hasConfirmed then Confirmed else Unused;
  }

  predicate Evidence(attempts: seq<Attempt>) {
    attempts != [] && (attempts[|attempts| - 1].status != Unlabelled || Evidence(attempts[..|attempts| - 1]))
  }

  /** What the legacy normaliser leaves of a log. */
  function Normalize(l: CallLog): CallLog {
    if !l.attempts.Parsed? || !Evidence(l.attempts.list) then l
    else
      var attempts := l.attempts.list;
      var p, c, status := PromptSum(attempts), CompletionSum(attempts), FoldStatus(attempts);
      if p + c == l.use.prompt + l.use.completion && status == l.use.status then l
      else if p + c < l.use.prompt + l.use.completion then l
      else l.(use := l.use.(status := status, known := status == Confirmed, corrected := true, prompt := p, completion := c,
                         total := p + c + Max(l.use.total - l.use.prompt - l.use.completion, 0)))
  }

  /** The normaliser's own pass over the attempts. */
  method ScanAttempts(attempts: seq<Attempt>) returns (evidence: bool, status: Status, p: int, c: int)
    ensures evidence == Evidence(attempts)
    ensures status == FoldStatus(attempts)
    ensures p == PromptSum(attempts) && c == CompletionSum(attempts)
  {
    var hasUnknown, hasPartial, hasConfirmed := false, false, false;
    evidence, p, c := false, 0, 0;
    for i := 0 to |attempts|
      invariant p == PromptSum(attempts[..i]) && c == CompletionSum(attempts[..i])
      invariant hasUnknown == HasStatus(attempts[..i], Unknown)
      invariant hasPartial == HasStatus(attempts[..i], Partial)
      invariant hasConfirmed == HasStatus(attempts[..i], Confirmed)
      invariant evidence == Evidence(attempts[..i])
    {
      var a := attempts[i];
      assert attempts[..i + 1][..i] == attempts[..i];
      match a.status {
        case Confirmed =>
          hasConfirmed, evidence := true, true;
          p, c := p + a.prompt, c + a.completion;
        case Partial =>
          hasPartial, evidence := true, true;
          p, c := p + a.prompt, c + a.completion;
        case Unknown =>
          hasUnknown, evidence := true, true;
        case Unused =>
          evidence := true;
        case Unlabelled =>
      }
    }
    assert attempts[..|attempts|] == attempts;
    status := if hasUnknown then Unknown else if hasPartial then Partial else if hasConfirmed then Confirmed else Unused;
  }

  /** The log is rewritten only when the request and its attempts disagree, and never
      when that would drop tokens. */
  method NormalizeLegacyUsage(l: CallLog) returns (out: CallLog, changed: bool)
    ensures out == Normalize(l)
    ensures changed ==> out.use.corrected
    ensures !changed ==> out == l
  {
    out, changed := l, false;
    if !l.attempts.Parsed? { return; }
    var evidence, status, p, c := ScanAttempts(l.attempts.list);
    if !evidence { return; }
    if p + c == l.use.prompt + l.use.completion && status == l.use.status { return; }
    if p + c < l.use.prompt + l.use.completion { return; }
    var extra := Max(l.use.total - l.use.prompt - l.use.completion, 0);
    out := l.(use := l.use.(prompt := p, completion := c, total := p + c + extra, status := status,
                         known := status == Confirmed, corrected := true));
    changed := true;
  }

  /** Normalising twice is normalising once, on every log; it never lowers the tokens of
      a log whose total covers its own prompt and completion, and a corrected log is
      always covered, so its rows sum to its total. */
  lemma {:induction false} NormalizeLaws(l: CallLog)
    ensures Normalize(Normalize(l)) == Normalize(l)
    ensures l.use.total >= l.use.prompt + l.use.completion ==> Normalize(l).use.total >= l.use.total
    ensures Normalize(l) != l ==> TokensCovered(Normalize(l))
    ensures Normalize(l).requestId == l.requestId && Normalize(l).createdAt == l.createdAt
    ensures Normalize(l).dims == l.dims && Normalize(l).money == l.money && Normalize(l).attempts == l.attempts
  {
  }
}

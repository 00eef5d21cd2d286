/** How the gateway closes a request: usage folded from its attempts, each attempt priced,
    the log filled in. */
module Metering {
  import opened Usage

  /** The price table: what an attempt costs in micros, and whether it has a price. */
  type PriceTable = Attempt -> (int, bool)

  function LastUsed(attempts: seq<Attempt>): (i: int)
    ensures -1 <= i < |attempts|
  {
    if attempts == [] then -1
    else if attempts[|attempts| - 1].prompt + attempts[|attempts| - 1].completion > 0 then |attempts| - 1
    else LastUsed(attempts[..|attempts| - 1])
  }

  /** One attempt after pricing. Cached tokens belong to the last attempt with usage. */
  function PriceOne(a: Attempt, isLast: bool, cached: int, cacheWrite: int, price: PriceTable): Attempt {
    if a.prompt + a.completion == 0 then a
    else
      var b := a.(cached := if isLast then cached else a.cached, cacheWrite := if isLast then cacheWrite else a.cacheWrite);
      b.(cost := price(b).0, costKnown := price(b).1)
  }

  function Priced(attempts: seq<Attempt>, last: int, cached: int, cacheWrite: int, price: PriceTable): (r: seq<Attempt>)
    ensures |r| == |attempts|
  {
    if attempts == [] then []
    else
      var i := |attempts| - 1;
      Priced(attempts[..i], last, cached, cacheWrite, price) + [PriceOne(attempts[i], i == last, cached, cacheWrite, price)]
  }

  /** The priced total: every attempt that consumed tokens, whatever its status. */
  function PricedSum(attempts: seq<Attempt>): int {
    if attempts == [] then 0 else PricedSum(attempts[..|attempts| - 1]) + SumShare(attempts[|attempts| - 1])
  }

  function SumShare(a: Attempt): int { if a.prompt + a.completion == 0 then 0 else a.cost }

  /** A request's cost is known only if every attempt was determinate and had a price. */
  function PricedKnown(attempts: seq<Attempt>): bool {
    if attempts == [] then true else PricedKnown(attempts[..|attempts| - 1]) && KnownShare(attempts[|attempts| - 1])
  }

  function KnownShare(a: Attempt): bool {
    a.status != Unknown && a.status != Partial && (a.prompt + a.completion == 0 || a.costKnown)
  }

  lemma {:induction false} SumsTo(before: seq<Attempt>, after: seq<Attempt>, i: nat)
    requires i < |before| == |after| && after[..i] == before[..i]
    ensures PricedSum(after[..i + 1]) == PricedSum(before[..i] + [after[i]])
    ensures PricedKnown(after[..i + 1]) == PricedKnown(before[..i] + [after[i]])
  {
    assert after[..i + 1] == before[..i] + [after[i]];
  }

  lemma {:induction false} SumsSnoc(attempts: seq<Attempt>, a: Attempt)
    ensures PricedSum(attempts + [a]) == PricedSum(attempts) + SumShare(a)
    ensures PricedKnown(attempts + [a]) == (PricedKnown(attempts) && KnownShare(a))
  {
    assert (attempts + [a])[..|attempts + [a]| - 1] == attempts;
  }

  function FoldedUse(u: TokenUse, attempts: seq<Attempt>): TokenUse {
    u.(status := FoldStatus(attempts), known := FoldStatus(attempts) == Confirmed,
       prompt := PromptSum(attempts), completion := CompletionSum(attempts), total := PromptSum(attempts) + CompletionSum(attempts))
  }

  /** The attempts after pricing. */
  function PricedAttempts(u: TokenUse, attempts: seq<Attempt>, pricer: bool, price: PriceTable): seq<Attempt> {
    if !pricer || LastUsed(attempts) < 0 then attempts else Priced(attempts, LastUsed(attempts), u.cached, u.cacheWrite, price)
  }

  /** The request's money after pricing. */
  function PricedMoney(m: Money, u: TokenUse, attempts: seq<Attempt>, pricer: bool, price: PriceTable): Money {
    if !pricer || LastUsed(attempts) < 0 then m
    else
      var out := Priced(attempts, LastUsed(attempts), u.cached, u.cacheWrite, price);
      Money(PricedSum(out), PricedKnown(out), Usd)
  }

  /** The log the gateway records for a request. */
  function Finished(l: CallLog, attempts: seq<Attempt>, pricer: bool, price: PriceTable): CallLog {
    l.(use := FoldedUse(l.use, attempts), money := PricedMoney(l.money, l.use, attempts, pricer, price),
       attempts := if attempts == [] then l.attempts else Parsed(PricedAttempts(l.use, attempts, pricer, price)))
  }

  class Request {
    var attempts: seq<Attempt>
    var log: CallLog

    /** Prices the attempts in place and folds their sum into the log. */
    method PriceAttempts(pricer: bool, price: PriceTable)
      modifies this
      ensures attempts == PricedAttempts(old(log).use, old(attempts), pricer, price)
      ensures log == old(log).(money := PricedMoney(old(log).money, old(log).use, old(attempts), pricer, price))
    {
      if !pricer { return; }
      var last := FindLast(attempts);
      if last < 0 { return; }
      var known, total := PriceAll(last, price);
      log := log.(money := Money(total, known, Usd));
    }

    method PriceAll(last: int, price: PriceTable) returns (known: bool, total: int)
      modifies this`attempts
      ensures attempts == Priced(old(attempts), last, log.use.cached, log.use.cacheWrite, price)
      ensures total == PricedSum(attempts) && known == PricedKnown(attempts)
    {
      ghost var before, use := attempts, log.use;
      known, total := true, 0;
      for i := 0 to |attempts|
        invariant PricedUpTo(attempts, before, i, last, use.cached, use.cacheWrite, price)
        invariant total == PricedSum(attempts[..i]) && known == PricedKnown(attempts[..i])
      {
        ghost var now := attempts;
        PriceAttempt(i, last, price);
        PricedStep(now, before, i, last, use.cached, use.cacheWrite, price);
        SumsTo(now, attempts, i);
        SumsSnoc(now[..i], attempts[i]);
        known, total := AddPriced(attempts[i], known, total);
      }
      assert attempts[..|before|] == attempts && before[..|before|] == before;
    }

    method AddPriced(a: Attempt, known0: bool, total0: int) returns (known: bool, total: int)
      ensures total == total0 + SumShare(a) && known == (known0 && KnownShare(a))
    {
      known, total := known0, total0;
      if a.status == Unknown || a.status == Partial { known := false; }
      if a.prompt + a.completion != 0 {
        if !a.costKnown { known := false; }
        total := total + a.cost;
      }
    }

    method PriceAttempt(i: nat, last: int, price: PriceTable)
      requires i < |attempts|
      modifies this`attempts
      ensures attempts == old(attempts)[i := PriceOne(old(attempts)[i], i == last, log.use.cached, log.use.cacheWrite, price)]
    {
      var a := attempts[i];
      if a.prompt + a.completion == 0 { return; }
      if i == last { a := a.(cached := log.use.cached, cacheWrite := log.use.cacheWrite); }
      var (micros, ok) := price(a);
      attempts := attempts[i := a.(cost := micros, costKnown := ok)];
    }

    method FindLast(attempts: seq<Attempt>) returns (last: int)
      ensures last == LastUsed(attempts)
    {
      last := -1;
      for i := 0 to |attempts|
        invariant last == LastUsed(attempts[..i])
      {
        assert attempts[..i + 1][..i] == attempts[..i];
        if attempts[i].prompt + attempts[i].completion > 0 { last := i; }
      }
      assert attempts[..|attempts|] == attempts;
    }

    /** Closes the request. */
    method Finish(pricer: bool, price: PriceTable)
      modifies this
      ensures log == Finished(old(log), old(attempts), pricer, price)
    {
      var status, p, c := UsageFromAttempts(attempts);
      var use := log.use.(status := status, prompt := p, completion := c);
      log := log.(use := use.(total := use.prompt + use.completion, known := use.status == Confirmed));
      PriceAttempts(pricer, price);
      if |attempts| > 0 { log := log.(attempts := Parsed(attempts)); }
    }
  }

  /** The first i attempts are priced, the rest untouched. */
  ghost predicate PricedUpTo(now: seq<Attempt>, before: seq<Attempt>, i: nat, last: int, cached: int, cacheWrite: int, price: PriceTable) {
    |now| == |before| && i <= |before| && now[i..] == before[i..]
    && now[..i] == Priced(before[..i], last, cached, cacheWrite, price)
  }

  lemma {:induction false} PricedStep(now: seq<Attempt>, before: seq<Attempt>, i: nat, last: int, cached: int, cacheWrite: int, price: PriceTable)
    requires PricedUpTo(now, before, i, last, cached, cacheWrite, price) && i < |before|
    ensures PricedUpTo(now[i := PriceOne(now[i], i == last, cached, cacheWrite, price)], before, i + 1, last, cached, cacheWrite, price)
  {
    var x := PriceOne(now[i], i == last, cached, cacheWrite, price);
    PricedSnoc(before, i, last, cached, cacheWrite, price);
    assert now[i] == now[i..][0] == before[i..][0] == before[i];
    assert now[i := x][..i + 1] == now[..i] + [x];
    assert now[i := x][i + 1..] == now[i..][1..] == before[i..][1..] == before[i + 1..];
  }

  lemma {:induction false} PricedSnoc(attempts: seq<Attempt>, i: nat, last: int, cached: int, cacheWrite: int, price: PriceTable)
    requires i < |attempts|
    ensures Priced(attempts[..i + 1], last, cached, cacheWrite, price)
         == Priced(attempts[..i], last, cached, cacheWrite, price) + [PriceOne(attempts[i], i == last, cached, cacheWrite, price)]
  {
    assert attempts[..i + 1][..i] == attempts[..i];
  }

  lemma {:induction false} PricingKeepsUsage(attempts: seq<Attempt>, last: int, cached: int, cacheWrite: int, price: PriceTable)
    ensures var out := Priced(attempts, last, cached, cacheWrite, price);
            PromptSum(out) == PromptSum(attempts) && CompletionSum(out) == CompletionSum(attempts)
            && FoldStatus(out) == FoldStatus(attempts) && Evidence(out) == Evidence(attempts)
            && (forall s :: HasStatus(out, s) == HasStatus(attempts, s))
  {
    if attempts != [] {
      var i := |attempts| - 1;
      PricingKeepsUsage(attempts[..i], last, cached, cacheWrite, price);
      var out := Priced(attempts, last, cached, cacheWrite, price);
      assert out[..i] == Priced(attempts[..i], last, cached, cacheWrite, price);
    }
  }

  /** No price is negative. */
  ghost predicate Nonnegative(price: PriceTable) { forall a :: price(a).0 >= 0 }

  lemma {:induction false} PricedCovers(attempts: seq<Attempt>, last: int, cached: int, cacheWrite: int, price: PriceTable)
    requires Nonnegative(price)
    requires forall a :: a in attempts ==> a.cost == 0
    ensures var out := Priced(attempts, last, cached, cacheWrite, price);
            PricedSum(out) >= CostSum(out)
  {
    if attempts != [] {
      var i := |attempts| - 1;
      PricedCovers(attempts[..i], last, cached, cacheWrite, price);
      var out := Priced(attempts, last, cached, cacheWrite, price);
      assert out[..i] == Priced(attempts[..i], last, cached, cacheWrite, price);
      assert attempts[i] in attempts;
    }
  }

  lemma {:induction false} UnpricedCostsNothing(attempts: seq<Attempt>)
    requires forall a :: a in attempts ==> a.cost == 0
    ensures CostSum(attempts) == 0
  {
    if attempts != [] {
      UnpricedCostsNothing(attempts[..|attempts| - 1]);
      assert attempts[|attempts| - 1] in attempts;
    }
  }

  /** A request before it is closed: nothing priced, no attempts written. */
  ghost predicate Open(l: CallLog, attempts: seq<Attempt>) {
    l.money.cost == 0 && l.money.ledger == Unstamped && l.attempts == Absent && forall a :: a in attempts ==> a.cost == 0
  }

  /** Every log the gateway closes satisfies both coverage conditions, and the legacy
      normaliser leaves it alone because the two folds of attempt usage agree. */
  lemma {:induction false} FinishedIsCovered(l: CallLog, attempts: seq<Attempt>, pricer: bool, price: PriceTable)
    requires Nonnegative(price) && Open(l, attempts)
    ensures var f := Finished(l, attempts, pricer, price);
            TokensCovered(f) && CostCovered(f) && Normalize(f) == f && f.money.ledger != Unverified
            && AttemptList(f) == PricedAttempts(l.use, attempts, pricer, price)
  {
    if pricer && LastUsed(attempts) >= 0 {
      PricingKeepsUsage(attempts, LastUsed(attempts), l.use.cached, l.use.cacheWrite, price);
      PricedCovers(attempts, LastUsed(attempts), l.use.cached, l.use.cacheWrite, price);
    } else {
      UnpricedCostsNothing(attempts);
    }
  }

  /** Tokens and money of a closed request are conserved by the rollup: its rows sum to
      its total tokens, its cost, one request and all its attempts. */
  lemma {:induction false} FinishedConserves(l: CallLog, attempts: seq<Attempt>, pricer: bool, price: PriceTable)
    requires Nonnegative(price) && Open(l, attempts)
    ensures var f := Finished(l, attempts, pricer, price); var rows := Rows([f]);
            Total(rows, FTokens) == f.use.total && Total(rows, FCost) == f.money.cost
            && Total(rows, FRequests) == 1 && Total(rows, FAttempts) == |attempts|
  {
    FinishedIsCovered(l, attempts, pricer, price);
    RowsConserve(Finished(l, attempts, pricer, price));
  }
}

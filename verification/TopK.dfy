/** Smart routing by similarity: the K best samples are kept in a heap while the index is
    scanned, and the label is decided from them. Whatever order the index is in, the samples
    kept are the first K of the full ranking. */
module TopK {
  import opened Wrappers

  /** A sample as the query sees it: score is the similarity, compatible says that its vector
      has the query's dimension. */
  datatype Sample = Sample(id: nat, tag: string, threshold: real, compatible: bool, score: real)

  datatype Settings = Settings(topK: int, threshold: real, gap: real)

  const DEFAULT_TOP_K := 5
  const DEFAULT_THRESHOLD := 0.72
  const SIMPLE := "simple"

  // ---------------------------------------------------------------------------
  // The ranking
  // ---------------------------------------------------------------------------

  predicate Better(a: Sample, b: Sample) { a.score > b.score || (a.score == b.score && a.id < b.id) }

  /** The full ranking: no sample ranks better than one before it. */
  ghost predicate Ranked(s: seq<Sample>) { forall i, j :: 0 <= i < j < |s| ==> !Better(s[j], s[i]) }

  function Compatible(idx: seq<Sample>): seq<Sample> {
    if idx == [] then [] else
      Compatible(idx[..|idx| - 1]) + (if idx[|idx| - 1].compatible then [idx[|idx| - 1]] else [])
  }

  /** Split into the samples kept and the others, none of which ranks better. */
  ghost predicate Best(kept: seq<Sample>, dropped: seq<Sample>, all: seq<Sample>) {
    multiset(all) == multiset(kept) + multiset(dropped)
    && forall x, d :: x in kept && d in dropped ==> !Better(d, x)
  }

  // ---------------------------------------------------------------------------
  // The heap
  // ---------------------------------------------------------------------------

  function Parent(i: nat): nat
    requires i > 0
  {
    (i - 1) / 2
  }

  /** Parent and child are in order: the worse one is above. */
  predicate InOrder(h: seq<Sample>, i: nat)
    requires 0 < i < |h|
  {
    !Better(h[Parent(i)], h[i])
  }

  ghost predicate IsHeap(h: seq<Sample>) { forall i :: 0 < i < |h| ==> InOrder(h, i) }

  /** A heap but for node i against its parent. */
  ghost predicate HeapButUp(h: seq<Sample>, i: nat) {
    && (forall j :: 0 < j < |h| && j != i ==> InOrder(h, j))
    && (forall j :: 0 < j < |h| && i > 0 && i < |h| && Parent(j) == i ==> !Better(h[Parent(i)], h[j]))
  }

  /** A heap but for node i against its children. */
  ghost predicate HeapButDown(h: seq<Sample>, i: nat) {
    && (forall j :: 0 < j < |h| && Parent(j) != i ==> InOrder(h, j))
    && (forall j :: 0 < j < |h| && i > 0 && i < |h| && Parent(j) == i ==> !Better(h[Parent(i)], h[j]))
  }

  function Swapped(h: seq<Sample>, i: nat, j: nat): seq<Sample>
    requires i < |h| && j < |h|
  {
    h[i := h[j]][j := h[i]]
  }

  lemma {:induction false} SwapKeeps(h: seq<Sample>, i: nat, j: nat)
    requires i < |h| && j < |h|
    ensures multiset(Swapped(h, i, j)) == multiset(h)
  {
  }

  lemma {:induction false} RootIsWorst(h: seq<Sample>, i: nat)
    requires IsHeap(h) && i < |h|
    ensures !Better(h[0], h[i])
  {
    if i > 0 {
      RootIsWorst(h, Parent(i));
      assert InOrder(h, i);
    }
  }

  lemma {:induction false} SiftedUp(h: seq<Sample>, i: nat)
    requires 0 < i < |h| && HeapButUp(h, i) && Better(h[Parent(i)], h[i])
    ensures HeapButUp(Swapped(h, i, Parent(i)), Parent(i))
  {
    var p := Parent(i);
    var g := Swapped(h, i, p);
    forall j | 0 < j < |g| && j != p ensures InOrder(g, j) {
      if j != i { assert InOrder(h, j); }
    }
    forall j | 0 < j < |g| && p > 0 && Parent(j) == p ensures !Better(g[Parent(p)], g[j]) {
      assert InOrder(h, p);
      if j != i { assert InOrder(h, j); }
    }
  }

  lemma {:induction false} SiftedDown(h: seq<Sample>, i: nat, m: nat)
    requires i < |h| && HeapButDown(h, i) && 0 < m < |h| && Parent(m) == i && Better(h[i], h[m])
    requires forall j :: 0 < j < |h| && Parent(j) == i ==> !Better(h[m], h[j])
    ensures HeapButDown(Swapped(h, i, m), m)
  {
    var g := Swapped(h, i, m);
    forall j | 0 < j < |g| && Parent(j) != m ensures InOrder(g, j) {
      if Parent(j) != i { assert InOrder(h, j); }
    }
    forall j | 0 < j < |g| && Parent(j) == m ensures !Better(g[Parent(m)], g[j]) {
      assert InOrder(h, j);
    }
  }

  class Heap {
    var h: seq<Sample>

    constructor ()
      ensures h == []
    {
      h := [];
    }

    method Up(from: nat)
      requires from < |h| && HeapButUp(h, from)
      modifies this
      ensures IsHeap(h) && multiset(h) == multiset(old(h)) && |h| == |old(h)|
    {
      var i: nat := from;
      while i > 0
        invariant i < |h| == |old(h)| && HeapButUp(h, i) && multiset(h) == multiset(old(h))
      {
        var p := (i - 1) / 2;
        if !Better(h[p], h[i]) {
          assert InOrder(h, i);
          return;
        }
        SiftedUp(h, i);
        SwapKeeps(h, i, p);
        h := h[i := h[p]][p := h[i]];
        i := p;
      }
    }

    method Down(from: nat)
      requires from < |h| && HeapButDown(h, from)
      modifies this
      ensures IsHeap(h) && multiset(h) == multiset(old(h)) && |h| == |old(h)|
    {
      var i := from;
      while true
        invariant i < |h| == |old(h)| && HeapButDown(h, i) && multiset(h) == multiset(old(h))
        decreases |h| - i
      {
        var l, r, m := 2 * i + 1, 2 * i + 2, i;
        if l < |h| && Better(h[m], h[l]) { m := l; }
        if r < |h| && Better(h[m], h[r]) { m := r; }
        forall j | 0 < j < |h| && Parent(j) == i ensures j == l || j == r {}
        if m == i {
          forall j | 0 < j < |h| ensures InOrder(h, j) {}
          return;
        }
        SiftedDown(h, i, m);
        SwapKeeps(h, i, m);
        h := h[i := h[m]][m := h[i]];
        i := m;
      }
    }

    method Push(c: Sample)
      requires IsHeap(h)
      modifies this
      ensures IsHeap(h) && multiset(h) == multiset(old(h)) + multiset{c} && |h| == |old(h)| + 1
    {
      ghost var before := h;
      h := h + [c];
      forall j | 0 < j < |h| && j != |h| - 1 ensures InOrder(h, j) { assert InOrder(before, j); }
      Up(|h| - 1);
    }

    method ReplaceRoot(c: Sample)
      requires IsHeap(h) && |h| > 0
      modifies this
      ensures IsHeap(h) && multiset(h) == multiset(old(h)) - multiset{old(h)[0]} + multiset{c} && |h| == |old(h)|
    {
      ghost var before := h;
      h := h[0 := c];
      forall j | 0 < j < |h| && Parent(j) != 0 ensures InOrder(h, j) { assert InOrder(before, j); }
      Down(0);
    }
  }

  // ---------------------------------------------------------------------------
  // Selection
  // ---------------------------------------------------------------------------

  lemma {:induction false} KeepMore(kept: seq<Sample>, dropped: seq<Sample>, all: seq<Sample>, c: Sample, kept2: seq<Sample>)
    requires Best(kept, [], all) && multiset(kept2) == multiset(kept) + multiset{c}
    ensures Best(kept2, [], all + [c])
  {
  }

  /** The root is the worst kept, so a candidate that is not better than it is dropped, and
      one that is takes its place. */
  lemma {:induction false} DropCandidate(kept: seq<Sample>, dropped: seq<Sample>, all: seq<Sample>, c: Sample)
    requires Best(kept, dropped, all) && IsHeap(kept) && kept != [] && !Better(c, kept[0])
    ensures Best(kept, dropped + [c], all + [c])
  {
    forall x, d | x in kept && d in dropped + [c] ensures !Better(d, x) {
      var i :| 0 <= i < |kept| && kept[i] == x;
      RootIsWorst(kept, i);
    }
  }

  lemma {:induction false} DropRoot(kept: seq<Sample>, dropped: seq<Sample>, all: seq<Sample>, c: Sample, kept2: seq<Sample>)
    requires Best(kept, dropped, all) && IsHeap(kept) && kept != [] && Better(c, kept[0])
    requires multiset(kept2) == multiset(kept) - multiset{kept[0]} + multiset{c}
    ensures Best(kept2, dropped + [kept[0]], all + [c])
  {
    var root := kept[0];
    assert root in multiset(kept);
    assert forall d :: d in dropped ==> !Better(d, root);
    forall x, d | x in kept2 && d in dropped + [root] ensures !Better(d, x) {
      assert x in multiset(kept2);
      if x == c {
        assert !Better(d, root) && Better(c, root);
      } else {
        assert x in multiset(kept);
        var i :| 0 <= i < |kept| && kept[i] == x;
        RootIsWorst(kept, i);
      }
    }
  }

  /** One candidate: kept while there is room or when it beats the worst kept. */
  method Offer(heap: Heap, k: nat, c: Sample, ghost dropped: seq<Sample>, ghost all: seq<Sample>) returns (ghost more: seq<Sample>)
    requires k > 0 && IsHeap(heap.h) && Best(heap.h, dropped, all)
    requires |heap.h| <= k && (|heap.h| < k ==> dropped == [])
    modifies heap
    ensures IsHeap(heap.h) && Best(heap.h, more, all + [c])
    ensures |heap.h| <= k && (|heap.h| < k ==> more == [])
  {
    ghost var before := heap.h;
    if |heap.h| < k {
      heap.Push(c);
      KeepMore(before, dropped, all, c, heap.h);
      return [];
    }
    if Better(c, heap.h[0]) {
      heap.ReplaceRoot(c);
      DropRoot(before, dropped, all, c, heap.h);
      return dropped + [before[0]];
    }
    DropCandidate(before, dropped, all, c);
    return dropped + [c];
  }

  /** The K best of the compatible samples, as a heap. */
  method Select(idx: seq<Sample>, k: nat) returns (kept: seq<Sample>, ghost dropped: seq<Sample>)
    requires k > 0
    ensures Best(kept, dropped, Compatible(idx))
    ensures |kept| <= k && (|kept| < k ==> dropped == [])
  {
    var heap := new Heap();
    dropped := [];
    for i := 0 to |idx|
      invariant IsHeap(heap.h) && |heap.h| <= k && (|heap.h| < k ==> dropped == [])
      invariant Best(heap.h, dropped, Compatible(idx[..i]))
    {
      assert idx[..i + 1][..i] == idx[..i];
      if idx[i].compatible { dropped := Offer(heap, k, idx[i], dropped, Compatible(idx[..i])); }
    }
    assert idx[..|idx|] == idx;
    kept := heap.h;
  }

  /** A sample put into its place in a ranking. */
  function Insert(s: seq<Sample>, c: Sample): seq<Sample> {
    if s == [] || !Better(c, s[|s| - 1]) then s + [c] else Insert(s[..|s| - 1], c) + [s[|s| - 1]]
  }

  function Sort(s: seq<Sample>): seq<Sample> {
    if s == [] then [] else Insert(Sort(s[..|s| - 1]), s[|s| - 1])
  }

  lemma {:induction false} InsertBag(s: seq<Sample>, c: Sample)
    ensures multiset(Insert(s, c)) == multiset(s) + multiset{c}
    ensures forall x :: x in Insert(s, c) <==> x in s || x == c
  {
    if s != [] && Better(c, s[|s| - 1]) {
      assert s == s[..|s| - 1] + [s[|s| - 1]];
      InsertBag(s[..|s| - 1], c);
    }
  }

  lemma {:induction false} InsertRanks(s: seq<Sample>, c: Sample)
    requires Ranked(s)
    ensures Ranked(Insert(s, c))
  {
    if s != [] && Better(c, s[|s| - 1]) {
      var init, last := s[..|s| - 1], s[|s| - 1];
      InsertRanks(init, c);
      InsertBag(init, c);
      var r := Insert(init, c);
      forall i | 0 <= i < |r| ensures !Better(last, r[i]) {
        assert r[i] in r;
        if r[i] in init {
          var j :| 0 <= j < |init| && init[j] == r[i];
          assert !Better(s[|s| - 1], s[j]);
        }
      }
    }
  }

  lemma {:induction false} SortRanks(s: seq<Sample>)
    ensures Ranked(Sort(s)) && multiset(Sort(s)) == multiset(s)
  {
    if s != [] {
      assert s == s[..|s| - 1] + [s[|s| - 1]];
      SortRanks(s[..|s| - 1]);
      InsertRanks(Sort(s[..|s| - 1]), s[|s| - 1]);
      InsertBag(Sort(s[..|s| - 1]), s[|s| - 1]);
    }
  }

  ghost predicate DistinctIds(s: seq<Sample>) {
    forall i, j :: 0 <= i < j < |s| ==> s[i].id != s[j].id
  }

  lemma {:induction false} SameBest(a: seq<Sample>, b: seq<Sample>)
    requires Ranked(a) && Ranked(b) && multiset(a) == multiset(b) && DistinctIds(a) && a != [] && b != []
    ensures a[|a| - 1] == b[|b| - 1]
  {
    var x, y := a[|a| - 1], b[|b| - 1];
    assert x in multiset(b) && y in multiset(a);
    var i :| 0 <= i < |b| && b[i] == x;
    var j :| 0 <= j < |a| && a[j] == y;
    assert !Better(x, y) && !Better(y, x);
  }

  lemma {:induction false} Cancel(m: multiset<Sample>, n: multiset<Sample>, x: Sample)
    requires m + multiset{x} == n + multiset{x}
    ensures m == n
  {
    forall y ensures m[y] == n[y] { assert (m + multiset{x})[y] == (n + multiset{x})[y]; }
  }

  /** With distinct ids there is only one ranking of the same samples. */
  lemma {:induction false} RankingIsUnique(a: seq<Sample>, b: seq<Sample>)
    requires Ranked(a) && Ranked(b) && multiset(a) == multiset(b) && DistinctIds(a)
    ensures a == b
    decreases |a|
  {
    SameSize(a, b);
    if a != [] {
      SameBest(a, b);
      var x := a[|a| - 1];
      assert a == a[..|a| - 1] + [x] && b == b[..|b| - 1] + [x];
      assert multiset(a) == multiset(a[..|a| - 1]) + multiset{x} && multiset(b) == multiset(b[..|b| - 1]) + multiset{x};
      Cancel(multiset(a[..|a| - 1]), multiset(b[..|b| - 1]), x);
      RankingIsUnique(a[..|a| - 1], b[..|b| - 1]);
    }
  }

  lemma {:induction false} SortMembers(s: seq<Sample>)
    ensures forall x :: x in Sort(s) <==> x in s
  {
    SortRanks(s);
    forall x ensures x in Sort(s) <==> x in s { assert x in multiset(Sort(s)) <==> x in multiset(s); }
  }

  /** The kept ranked before the dropped is one ranking. */
  lemma {:induction false} KeptThenDropped(kept: seq<Sample>, dropped: seq<Sample>, all: seq<Sample>)
    requires Best(kept, dropped, all)
    ensures Ranked(Sort(kept) + Sort(dropped))
  {
    SortRanks(kept);
    SortRanks(dropped);
    SortMembers(kept);
    SortMembers(dropped);
    var a, b := Sort(kept), Sort(dropped);
    forall i, j | 0 <= i < j < |a + b| ensures !Better((a + b)[j], (a + b)[i]) {
      if i < |a| <= j { assert a[i] in kept && b[j - |a|] in dropped; }
    }
  }

  /** The kept samples, sorted, are the first K of the full ranking. */
  lemma {:induction false} KeptIsPrefix(kept: seq<Sample>, dropped: seq<Sample>, all: seq<Sample>)
    requires Best(kept, dropped, all) && DistinctIds(all)
    ensures |kept| <= |Sort(all)| && Sort(kept) == Sort(all)[..|kept|]
  {
    SortRanks(kept);
    SortRanks(dropped);
    SortRanks(all);
    KeptThenDropped(kept, dropped, all);
    SameSize(kept, Sort(kept));
    var one := Sort(kept) + Sort(dropped);
    assert multiset(one) == multiset(all);
    DistinctSorted(all, Sort(all));
    RankingIsUnique(Sort(all), one);
  }

  lemma {:induction false} SameSize(a: seq<Sample>, b: seq<Sample>)
    requires multiset(a) == multiset(b)
    ensures |a| == |b|
  {
    assert |multiset(a)| == |a| && |multiset(b)| == |b|;
  }

  /** Distinct ids stay distinct under reordering. */
  lemma {:induction false} DistinctSorted(a: seq<Sample>, b: seq<Sample>)
    requires multiset(a) == multiset(b) && DistinctIds(a)
    ensures DistinctIds(b)
  {
    forall i, j | 0 <= i < j < |b| ensures b[i].id != b[j].id {
      if b[i].id == b[j].id {
        assert b[i] in multiset(a) && b[j] in multiset(a);
        assert b[i] in a && b[j] in a;
        assert b[i] == b[j];
        Twice(b, i, j);
        OnceOnly(a, b[i]);
      }
    }
  }

  lemma {:induction false} Twice(b: seq<Sample>, i: nat, j: nat)
    requires i < j < |b| && b[i] == b[j]
    ensures multiset(b)[b[i]] >= 2
  {
    assert b == b[..j] + [b[j]] + b[j + 1..];
    assert b[i] in b[..j];
    assert multiset(b) == multiset(b[..j]) + multiset{b[j]} + multiset(b[j + 1..]);
  }

  lemma {:induction false} OnceOnly(a: seq<Sample>, x: Sample)
    requires DistinctIds(a)
    ensures multiset(a)[x] <= 1
  {
    if a != [] {
      var init, last := a[..|a| - 1], a[|a| - 1];
      assert a == init + [last];
      OnceOnly(init, x);
      if x == last { assert x !in init; }
    }
  }

  // ---------------------------------------------------------------------------
  // The decision
  // ---------------------------------------------------------------------------

  datatype Decision = Undecided | Decided(tag: string, confidence: real)

  function Limit(t: real, s: Settings): real {
    if t > 0.0 then t else if s.threshold > 0.0 then s.threshold else DEFAULT_THRESHOLD
  }

  /** The best score among samples of other labels, or -1. */
  function Second(all: seq<Sample>, tag: string): real {
    if all == [] then -1.0 else
      var s, rest := all[|all| - 1], Second(all[..|all| - 1], tag);
      if s.tag != tag && s.score > rest then s.score else rest
  }

  function Decide(all: seq<Sample>, s: Settings): Decision {
    if all == [] || all[0].score < Limit(all[0].threshold, s) then Undecided
    else
      var second := Second(all, all[0].tag);
      Decided(if second >= 0.0 && all[0].score - second < s.gap then SIMPLE else all[0].tag, all[0].score)
  }

  /** The best score of each label so far. */
  ghost predicate LabelMax(best: map<string, real>, all: seq<Sample>) {
    && (forall s :: s in all ==> s.tag in best && s.score <= best[s.tag])
    && (forall l :: l in best ==> exists s :: s in all && s.tag == l && s.score == best[l])
  }

  lemma {:induction false} SecondIs(all: seq<Sample>, tag: string)
    ensures forall s :: s in all && s.tag != tag ==> s.score <= Second(all, tag)
    ensures Second(all, tag) == -1.0 || exists s :: s in all && s.tag != tag && s.score == Second(all, tag)
    ensures Second(all, tag) >= -1.0
  {
    if all != [] {
      var init, last := all[..|all| - 1], all[|all| - 1];
      assert all == init + [last];
      SecondIs(init, tag);
    }
  }

  /** The second score is read off the map of label maxima, in whatever order it is walked. */
  method SecondScore(all: seq<Sample>, tag: string) returns (second: real)
    ensures second == Second(all, tag)
  {
    var best: map<string, real> := map[];
    for i := 0 to |all|
      invariant LabelMax(best, all[..i])
    {
      var s := all[i];
      assert all[..i + 1] == all[..i] + [s];
      ghost var before := best;
      if s.tag !in best || s.score > best[s.tag] { best := best[s.tag := s.score]; }
      forall l | l in best ensures exists t :: t in all[..i + 1] && t.tag == l && t.score == best[l] {
        if l in before && best[l] == before[l] {
          var t :| t in all[..i] && t.tag == l && t.score == before[l];
          assert t in all[..i + 1];
        } else {
          assert s in all[..i + 1];
        }
      }
    }
    assert all[..|all|] == all;
    second := -1.0;
    var left := best.Keys;
    while left != {}
      invariant left <= best.Keys && second >= -1.0
      invariant forall l :: l in best && l !in left && l != tag ==> best[l] <= second
      invariant second == -1.0 || exists l :: l in best && l != tag && best[l] == second
      decreases left
    {
      var l := Pick(left);
      if l != tag && best[l] > second { second := best[l]; }
      left := left - {l};
    }
    SecondIs(all, tag);
  }

  /** The first K of the full ranking. */
  function FirstK(all: seq<Sample>, sr: Settings): seq<Sample> {
    var k := if sr.topK <= 0 then DEFAULT_TOP_K else sr.topK;
    if k < |Sort(all)| then Sort(all)[..k] else Sort(all)
  }

  lemma {:induction false} KeptIsFirstK(kept: seq<Sample>, dropped: seq<Sample>, all: seq<Sample>, sr: Settings)
    requires Best(kept, dropped, all) && DistinctIds(all)
    requires var k := if sr.topK <= 0 then DEFAULT_TOP_K else sr.topK; |kept| <= k && (|kept| < k ==> dropped == [])
    ensures Sort(kept) == FirstK(all, sr)
  {
    KeptIsPrefix(kept, dropped, all);
    SortRanks(kept);
    SortRanks(all);
    SameSize(kept, Sort(kept));
    SameSize(all, Sort(all));
    SameSize(all, kept + dropped);
  }

  /** The whole decision. */
  method ClassifyByVector(idx: seq<Sample>, sr: Settings) returns (top: seq<Sample>, d: Decision)
    requires DistinctIds(Compatible(idx))
    ensures top == FirstK(Compatible(idx), sr) && d == Decide(top, sr)
  {
    var k := sr.topK;
    if k <= 0 { k := DEFAULT_TOP_K; }
    var kept, dropped := Select(idx, k);
    KeptIsFirstK(kept, dropped, Compatible(idx), sr);
    top := Sort(kept);
    d := DecideTop(top, sr);
  }

  method DecideTop(top: seq<Sample>, sr: Settings) returns (d: Decision)
    ensures d == Decide(top, sr)
  {
    if |top| == 0 { return Undecided; }
    var best := top[0];
    var threshold := sr.threshold;
    if best.threshold > 0.0 { threshold := best.threshold; }
    if threshold <= 0.0 { threshold := DEFAULT_THRESHOLD; }
    if best.score < threshold { return Undecided; }
    var second := SecondScore(top, best.tag);
    var tag := best.tag;
    if second >= 0.0 && best.score - second < sr.gap { tag := SIMPLE; }
    return Decided(tag, best.score);
  }

  /** Two indexes with the same samples, in any order, give the same list and so the same
      decision. */
  lemma {:induction false} OrderDoesNotMatter(idx: seq<Sample>, jdx: seq<Sample>, sr: Settings)
    requires multiset(Compatible(idx)) == multiset(Compatible(jdx)) && DistinctIds(Compatible(idx))
    ensures FirstK(Compatible(idx), sr) == FirstK(Compatible(jdx), sr)
  {
    SortRanks(Compatible(idx));
    SortRanks(Compatible(jdx));
    DistinctSorted(Compatible(idx), Sort(Compatible(idx)));
    RankingIsUnique(Sort(Compatible(idx)), Sort(Compatible(jdx)));
  }

  /** A decision against the best label needs a runner-up of another label within the gap. */
  lemma {:induction false} DecisionIs(all: seq<Sample>, sr: Settings)
    requires Ranked(all) && Decide(all, sr).Decided?
    ensures var d := Decide(all, sr);
            && d.confidence == all[0].score && (forall s :: s in all ==> s.score <= d.confidence)
            && d.tag == (if exists s :: s in all && s.tag != all[0].tag && s.score >= 0.0 && all[0].score - s.score < sr.gap
                         then SIMPLE else all[0].tag)
  {
    SecondIs(all, all[0].tag);
    forall s | s in all ensures s.score <= all[0].score {
      var i :| 0 <= i < |all| && all[i] == s;
    }
  }
}

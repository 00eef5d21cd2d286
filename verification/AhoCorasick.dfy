/** The keyword matcher: a trie with failure links and flattened outputs, searched in one
    pass, against the plain meaning of "this pattern occurs in the text". */
module AhoCorasick {
  import opened Wrappers

  newtype Byte = b: int | 0 <= b < 256

  type Str = seq<Byte>

  datatype Node = Node(next: map<Byte, nat>, fail: nat, out: seq<nat>)

  // ---------------------------------------------------------------------------
  // Words
  // ---------------------------------------------------------------------------

  predicate SuffixOf(s: Str, w: Str) { |s| <= |w| && w[|w| - |s|..] == s }

  /** The pattern ends at position e of the text. */
  predicate EndsAt(p: Str, text: Str, e: nat) { |p| <= e <= |text| && text[e - |p|..e] == p }

  predicate Occurs(p: Str, text: Str) { exists e :: 0 <= e <= |text| && EndsAt(p, text, e) }

  /** The longest suffix of a word that is among the given words, or the empty word. */
  function Longest(words: seq<Str>, w: Str): (s: Str)
    ensures |s| <= |w|
  {
    if w == [] || w in words then w else Longest(words, w[1..])
  }

  lemma {:induction false} LongestIsSuffix(words: seq<Str>, w: Str)
    ensures SuffixOf(Longest(words, w), w) && (Longest(words, w) == [] || Longest(words, w) in words)
  {
    if w != [] && w !in words {
      LongestIsSuffix(words, w[1..]);
      var s := Longest(words, w[1..]);
      assert w[|w| - |s|..] == w[1..][|w[1..]| - |s|..];
    }
  }

  lemma {:induction false} LongestIsLongest(words: seq<Str>, w: Str, s: Str)
    requires s in words && SuffixOf(s, w)
    ensures SuffixOf(s, Longest(words, w))
  {
    if w != [] && w !in words {
      assert s != w;
      assert w[1..][|w[1..]| - |s|..] == s;
      LongestIsLongest(words, w[1..], s);
    }
  }

  predicate PrefixClosed(words: seq<Str>) {
    forall w :: w in words && w != [] ==> w[..|w| - 1] in words
  }

  /** One more byte only needs the longest suffix found so far. */
  lemma {:induction false} LongestStep(words: seq<Str>, w: Str, b: Byte)
    requires PrefixClosed(words)
    ensures Longest(words, w + [b]) == Longest(words, Longest(words, w) + [b])
  {
    if w != [] && w !in words {
      assert (w + [b])[..|w + [b]| - 1] == w;
      assert w + [b] !in words;
      assert (w + [b])[1..] == w[1..] + [b];
      LongestStep(words, w[1..], b);
    }
  }

  // ---------------------------------------------------------------------------
  // The trie
  // ---------------------------------------------------------------------------

  /** Node c stands for the word strs[c]; par[c] is the node it hangs from. */
  ghost predicate Trie(nodes: seq<Node>, strs: seq<Str>, par: seq<nat>) {
    && |nodes| == |strs| == |par| > 0 && strs[0] == []
    && (forall i, j :: 0 <= i < j < |strs| ==> strs[i] != strs[j])
    && (forall i, b :: 0 <= i < |nodes| && b in nodes[i].next ==> Child(nodes, strs, i, b))
    && (forall c :: 0 < c < |nodes| ==> HasParent(nodes, strs, par, c))
  }

  predicate Child(nodes: seq<Node>, strs: seq<Str>, i: nat, b: Byte)
    requires i < |nodes| == |strs| && b in nodes[i].next
  {
    var c := nodes[i].next[b];
    i < c < |nodes| && strs[c] == strs[i] + [b]
  }

  predicate HasParent(nodes: seq<Node>, strs: seq<Str>, par: seq<nat>, c: nat)
    requires 0 < c < |nodes| == |strs| == |par|
  {
    && par[c] < c && strs[c] != []
    && strs[par[c]] == strs[c][..|strs[c]| - 1]
    && Last(strs[c]) in nodes[par[c]].next && nodes[par[c]].next[Last(strs[c])] == c
  }

  function Last(w: Str): Byte
    requires w != []
  {
    w[|w| - 1]
  }

  lemma {:induction false} TrieIsPrefixClosed(nodes: seq<Node>, strs: seq<Str>, par: seq<nat>)
    requires Trie(nodes, strs, par)
    ensures PrefixClosed(strs) && [] in strs
  {
    assert strs[0] in strs;
    forall w | w in strs && w != [] ensures w[..|w| - 1] in strs {
      var c :| 0 <= c < |strs| && strs[c] == w;
      assert HasParent(nodes, strs, par, c);
      assert strs[par[c]] in strs;
    }
  }

  /** A word is below node i exactly when the node has the edge. */
  lemma {:induction false} EdgeIffWord(nodes: seq<Node>, strs: seq<Str>, par: seq<nat>, i: nat, b: Byte)
    requires Trie(nodes, strs, par) && i < |nodes|
    ensures b in nodes[i].next <==> strs[i] + [b] in strs
    ensures b in nodes[i].next ==> nodes[i].next[b] < |nodes| && strs[nodes[i].next[b]] == strs[i] + [b]
  {
    if b in nodes[i].next {
      assert Child(nodes, strs, i, b);
      assert strs[nodes[i].next[b]] in strs;
    }
    if strs[i] + [b] in strs {
      var c :| 0 <= c < |strs| && strs[c] == strs[i] + [b];
      assert HasParent(nodes, strs, par, c);
      assert strs[c][..|strs[c]| - 1] == strs[i];
    }
  }

  /** The trie with one more node, hanging from cur by b. */
  function Grown(nodes: seq<Node>, cur: nat, b: Byte): seq<Node>
    requires cur < |nodes|
  {
    nodes[cur := nodes[cur].(next := nodes[cur].next[b := |nodes|])] + [Node(map[], 0, [])]
  }

  lemma {:induction false} GrownIsTrie(nodes: seq<Node>, strs: seq<Str>, par: seq<nat>, cur: nat, b: Byte)
    requires Trie(nodes, strs, par) && cur < |nodes| && b !in nodes[cur].next
    ensures Trie(Grown(nodes, cur, b), strs + [strs[cur] + [b]], par + [cur])
  {
    var nodes2, strs2, par2 := Grown(nodes, cur, b), strs + [strs[cur] + [b]], par + [cur];
    EdgeIffWord(nodes, strs, par, cur, b);
    forall i, c | 0 <= i < |nodes2| && c in nodes2[i].next ensures Child(nodes2, strs2, i, c) {
      if i < |nodes| && c in nodes[i].next { assert Child(nodes, strs, i, c); }
    }
    forall c | 0 < c < |nodes2| ensures HasParent(nodes2, strs2, par2, c) {
      if c < |nodes| { assert HasParent(nodes, strs, par, c); }
    }
  }

  /** Only edges matter to the trie. */
  predicate SameEdges(a: seq<Node>, b: seq<Node>) {
    |a| == |b| && forall i :: 0 <= i < |a| ==> a[i].next == b[i].next
  }

  lemma {:induction false} TrieFrame(a: seq<Node>, b: seq<Node>, strs: seq<Str>, par: seq<nat>)
    requires Trie(a, strs, par) && SameEdges(a, b)
    ensures Trie(b, strs, par)
  {
    forall i, x | 0 <= i < |b| && x in b[i].next ensures Child(b, strs, i, x) { assert Child(a, strs, i, x); }
    forall c | 0 < c < |b| ensures HasParent(b, strs, par, c) { assert HasParent(a, strs, par, c); }
  }

  // ---------------------------------------------------------------------------
  // Outputs
  // ---------------------------------------------------------------------------

  /** The non-empty patterns among the first n that are exactly this word, in order. */
  function Own(pats: seq<Str>, n: nat, w: Str): seq<nat>
    requires n <= |pats|
  {
    if n == 0 || w == [] then [] else Own(pats, n - 1, w) + (if pats[n - 1] == w then [n - 1] else [])
  }

  /** The patterns ending at a node: its own, then those of its longest proper suffix. */
  function Outputs(words: seq<Str>, pats: seq<Str>, w: Str): seq<nat>
    decreases |w|
  {
    if w == [] then [] else Own(pats, |pats|, w) + Outputs(words, pats, Longest(words, w[1..]))
  }

  /** Longer patterns first, equal ones by index. */
  predicate Before(pats: seq<Str>, p: nat, q: nat) {
    p < |pats| && q < |pats| && (|pats[p]| > |pats[q]| || (|pats[p]| == |pats[q]| && p < q))
  }

  ghost predicate Ordered(pats: seq<Str>, out: seq<nat>) {
    forall i, j :: 0 <= i < j < |out| ==> Before(pats, out[i], out[j])
  }

  lemma {:induction false} OrderedConcat(pats: seq<Str>, a: seq<nat>, b: seq<nat>)
    requires Ordered(pats, a) && Ordered(pats, b)
    requires forall p, q :: p in a && q in b ==> Before(pats, p, q)
    ensures Ordered(pats, a + b)
  {
    forall i, j | 0 <= i < j < |a + b| ensures Before(pats, (a + b)[i], (a + b)[j]) {
      if i < |a| <= j { assert a[i] in a && b[j - |a|] in b; }
    }
  }

  lemma {:induction false} OwnAre(pats: seq<Str>, n: nat, w: Str)
    requires n <= |pats| && w != []
    ensures forall p :: p in Own(pats, n, w) <==> 0 <= p < n && pats[p] == w
    ensures Ordered(pats, Own(pats, n, w))
  {
    if n > 0 {
      OwnAre(pats, n - 1, w);
      OrderedConcat(pats, Own(pats, n - 1, w), if pats[n - 1] == w then [n - 1] else []);
    }
  }

  /** A node's outputs are exactly the non-empty patterns that its word ends with. */
  lemma {:induction false} OutputsAre(words: seq<Str>, pats: seq<Str>, w: Str)
    requires forall p :: p in pats ==> p in words
    ensures forall p :: p in Outputs(words, pats, w) <==> 0 <= p < |pats| && pats[p] != [] && SuffixOf(pats[p], w)
    ensures Ordered(pats, Outputs(words, pats, w))
    decreases |w|
  {
    if w != [] {
      var s := Longest(words, w[1..]);
      var own, rest := Own(pats, |pats|, w), Outputs(words, pats, s);
      OwnAre(pats, |pats|, w);
      OutputsAre(words, pats, s);
      OrderedConcat(pats, own, rest);
      forall p ensures p in own + rest <==> 0 <= p < |pats| && pats[p] != [] && SuffixOf(pats[p], w) {
        if 0 <= p < |pats| { ShorterSuffix(words, w, pats[p]); }
      }
    }
  }

  lemma {:induction false} ShorterSuffix(words: seq<Str>, w: Str, p: Str)
    requires p in words && w != []
    ensures SuffixOf(p, w) <==> p == w || SuffixOf(p, Longest(words, w[1..]))
  {
    var s := Longest(words, w[1..]);
    LongestIsSuffix(words, w[1..]);
    assert s == w[|w| - |s|..];
    if SuffixOf(p, w) && p != w {
      assert w[1..][|w[1..]| - |p|..] == p;
      LongestIsLongest(words, w[1..], p);
    }
  }

  /** A finished node: its failure link is the longest proper suffix in the trie, its outputs
      are flattened. */
  ghost predicate Linked(nodes: seq<Node>, strs: seq<Str>, pats: seq<Str>, c: nat)
    requires c < |nodes| == |strs|
  {
    && nodes[c].fail < |nodes|
    && strs[nodes[c].fail] == (if strs[c] == [] then [] else Longest(strs, strs[c][1..]))
    && nodes[c].out == Outputs(strs, pats, strs[c])
  }

  // ---------------------------------------------------------------------------
  // Walking failure links
  // ---------------------------------------------------------------------------

  /** When one more byte leaves the given words, the longest suffix is found from the longest
      proper suffix of what was read before it. */
  lemma {:induction false} MissingWord(words: seq<Str>, u: Str, b: Byte)
    requires PrefixClosed(words) && u + [b] !in words
    ensures u == [] ==> Longest(words, u + [b]) == []
    ensures u != [] ==> Longest(words, u + [b]) == Longest(words, Longest(words, u[1..]) + [b])
  {
    if u == [] {
      assert (u + [b])[1..] == [];
    } else {
      assert (u + [b])[1..] == u[1..] + [b];
      LongestStep(words, u[1..], b);
    }
  }

  /** From a finished node, a missing edge sends the search to the longest proper suffix:
      what can be reached with one more byte stays the same. */
  lemma {:induction false} FailKeeps(nodes: seq<Node>, strs: seq<Str>, par: seq<nat>, pats: seq<Str>, f: nat, b: Byte)
    requires Trie(nodes, strs, par) && 0 < f < |nodes| && b !in nodes[f].next && Linked(nodes, strs, pats, f)
    ensures |strs[nodes[f].fail]| < |strs[f]|
    ensures Longest(strs, strs[nodes[f].fail] + [b]) == Longest(strs, strs[f] + [b])
  {
    EdgeIffWord(nodes, strs, par, f, b);
    TrieIsPrefixClosed(nodes, strs, par);
    assert strs[f] != [] by { assert HasParent(nodes, strs, par, f); }
    MissingWord(strs, strs[f], b);
  }

  lemma {:induction false} RootMisses(nodes: seq<Node>, strs: seq<Str>, par: seq<nat>, b: Byte)
    requires Trie(nodes, strs, par) && b !in nodes[0].next
    ensures Longest(strs, strs[0] + [b]) == [] == strs[0]
  {
    EdgeIffWord(nodes, strs, par, 0, b);
    TrieIsPrefixClosed(nodes, strs, par);
    MissingWord(strs, [], b);
  }

  lemma {:induction false} StartWord(words: seq<Str>, u: Str, b: Byte)
    requires PrefixClosed(words) && u != []
    ensures Longest(words, (u + [b])[1..]) == Longest(words, Longest(words, u[1..]) + [b]) && |Longest(words, u[1..])| < |u|
  {
    assert (u + [b])[1..] == u[1..] + [b];
    LongestStep(words, u[1..], b);
  }

  /** The parent's failure link is where the walk for a child starts. */
  lemma {:induction false} FailStarts(nodes: seq<Node>, strs: seq<Str>, par: seq<nat>, pats: seq<Str>, cur: nat, b: Byte)
    requires Trie(nodes, strs, par) && 0 < cur < |nodes| && b in nodes[cur].next && Linked(nodes, strs, pats, cur)
    ensures var child := nodes[cur].next[b];
            && child < |nodes| && strs[child] == strs[cur] + [b] && |strs[nodes[cur].fail]| < |strs[cur]|
            && Longest(strs, strs[nodes[cur].fail] + [b]) == Longest(strs, strs[child][1..])
  {
    EdgeIffWord(nodes, strs, par, cur, b);
    TrieIsPrefixClosed(nodes, strs, par);
    assert strs[cur] != [] by { assert HasParent(nodes, strs, par, cur); }
    StartWord(strs, strs[cur], b);
  }

  lemma {:induction false} EdgeTaken(nodes: seq<Node>, strs: seq<Str>, par: seq<nat>, f: nat, b: Byte)
    requires Trie(nodes, strs, par) && f < |nodes| && b in nodes[f].next
    ensures nodes[f].next[b] < |nodes| && strs[nodes[f].next[b]] == strs[f] + [b] == Longest(strs, strs[f] + [b])
  {
    EdgeIffWord(nodes, strs, par, f, b);
  }

  // ---------------------------------------------------------------------------
  // Planting the patterns
  // ---------------------------------------------------------------------------

  /** The first n patterns are in the trie, listed at the node they end at. */
  ghost predicate Planted(nodes: seq<Node>, strs: seq<Str>, pats: seq<Str>, n: nat) {
    && n <= |pats| && |nodes| == |strs| > 0 && strs[0] == []
    && (forall c :: 0 <= c < |nodes| ==> nodes[c].fail == 0 && nodes[c].out == Own(pats, n, strs[c]))
    && (forall p :: 0 <= p < n ==> pats[p] in strs)
  }

  lemma {:induction false} SkipEmpty(nodes: seq<Node>, strs: seq<Str>, pats: seq<Str>, n: nat)
    requires Planted(nodes, strs, pats, n) && n < |pats| && pats[n] == []
    ensures Planted(nodes, strs, pats, n + 1)
  {
    assert strs[0] in strs;
  }

  lemma {:induction false} OwnNone(pats: seq<Str>, n: nat, w: Str)
    requires n <= |pats| && forall p :: 0 <= p < n ==> pats[p] != w
    ensures Own(pats, n, w) == []
  {
    if n > 0 { OwnNone(pats, n - 1, w); }
  }

  lemma {:induction false} GrownIsPlanted(nodes: seq<Node>, strs: seq<Str>, par: seq<nat>, pats: seq<Str>, n: nat, cur: nat, b: Byte)
    requires Trie(nodes, strs, par) && Planted(nodes, strs, pats, n) && cur < |nodes| && b !in nodes[cur].next
    ensures Planted(Grown(nodes, cur, b), strs + [strs[cur] + [b]], pats, n)
  {
    EdgeIffWord(nodes, strs, par, cur, b);
    OwnNone(pats, n, strs[cur] + [b]);
  }

  lemma {:induction false} PlantedAt(nodes: seq<Node>, strs: seq<Str>, par: seq<nat>, pats: seq<Str>, n: nat, cur: nat)
    requires Trie(nodes, strs, par) && Planted(nodes, strs, pats, n) && n < |pats| && cur < |nodes| && strs[cur] == pats[n] != []
    ensures var after := nodes[cur := nodes[cur].(out := nodes[cur].out + [n])];
            Trie(after, strs, par) && Planted(after, strs, pats, n + 1)
  {
    var after := nodes[cur := nodes[cur].(out := nodes[cur].out + [n])];
    TrieFrame(nodes, after, strs, par);
    assert strs[cur] in strs;
    forall c | 0 <= c < |after| ensures after[c].fail == 0 && after[c].out == Own(pats, n + 1, strs[c]) {
      if c != cur { assert strs[c] != strs[cur]; }
    }
  }

  /** Appends the outputs not seen before. */
  method Collect(ghost pats: seq<Str>, ghost text: Str, ghost i: nat, out: seq<nat>, had: seq<nat>, known: set<nat>, ghost hadEnds: seq<nat>)
    returns (found: seq<nat>, seen: set<nat>, ghost ends: seq<nat>)
    requires i < |text| && FoundIn(pats, text, i, had) && FirstEnds(pats, text, had, hadEnds)
    requires forall e :: e in hadEnds ==> e <= i
    requires forall p :: p in known <==> p in had
    requires forall p :: p in out <==> 0 <= p < |pats| && pats[p] != [] && EndsAt(pats[p], text, i + 1)
    requires Ordered(pats, out)
    ensures FoundIn(pats, text, i + 1, found) && FirstEnds(pats, text, found, ends)
    ensures forall e :: e in ends ==> e <= i + 1
    ensures forall p :: p in seen <==> p in found
  {
    seen := known;
    var more: seq<nat> := [];
    found := had;
    assert had + more == had;
    for j := 0 to |out|
      invariant found == had + more
      invariant forall p :: p in more <==> p in out[..j] && p !in had
      invariant Ordered(pats, more)
      invariant forall p :: p in seen <==> p in found
    {
      var p := out[j];
      assert out[..j + 1] == out[..j] + [p];
      if p !in seen {
        LaterOutput(pats, out, j);
        OrderedConcat(pats, more, [p]);
        seen := seen + {p};
        more := more + [p];
        found := found + [p];
      }
    }
    assert out[..|out|] == out;
    ends := hadEnds + seq(|more|, _ => i + 1);
    FoundMore(pats, text, i, had, hadEnds, more, seq(|more|, _ => i + 1), out);
  }

  class Matcher {
    var nodes: seq<Node>
    ghost var strs: seq<Str>
    ghost var par: seq<nat>

    ghost predicate Built(pats: seq<Str>)
      reads this
    {
      && Trie(nodes, strs, par)
      && (forall p :: p in pats ==> p in strs)
      && (forall c :: 0 <= c < |nodes| ==> Linked(nodes, strs, pats, c))
      && (|nodes| == 1 ==> forall p :: p in pats ==> p == [])
    }

    constructor (pats: seq<Str>)
      ensures Built(pats)
    {
      nodes, strs, par := [Node(map[], 0, [])], [[]], [0];
      new;
      for i := 0 to |pats|
        invariant Trie(nodes, strs, par) && Planted(nodes, strs, pats, i)
      {
        if pats[i] != [] { Insert(pats, i); } else { SkipEmpty(nodes, strs, pats, i); }
      }
      Link(pats);
    }

    /** Adds one pattern to the trie. */
    method Insert(pats: seq<Str>, i: nat)
      requires i < |pats| && pats[i] != []
      requires Trie(nodes, strs, par) && Planted(nodes, strs, pats, i)
      modifies this
      ensures Trie(nodes, strs, par) && Planted(nodes, strs, pats, i + 1)
    {
      var p := pats[i];
      var cur: nat := 0;
      for j := 0 to |p|
        invariant cur < |nodes| && Trie(nodes, strs, par) && Planted(nodes, strs, pats, i)
        invariant strs[cur] == p[..j]
      {
        var b := p[j];
        assert p[..j + 1] == p[..j] + [b];
        var nxt := |nodes|;
        if b in nodes[cur].next {
          nxt := nodes[cur].next[b];
          EdgeTaken(nodes, strs, par, cur, b);
        } else {
          GrownIsTrie(nodes, strs, par, cur, b);
          GrownIsPlanted(nodes, strs, par, pats, i, cur, b);
          ghost var before := nodes;
          nodes := nodes + [Node(map[], 0, [])];
          nodes := nodes[cur := nodes[cur].(next := nodes[cur].next[b := nxt])];
          assert nodes == Grown(before, cur, b);
          strs, par := strs + [strs[cur] + [b]], par + [cur];
        }
        cur := nxt;
      }
      assert p[..|p|] == p;
      PlantedAt(nodes, strs, par, pats, i, cur);
      nodes := nodes[cur := nodes[cur].(out := nodes[cur].out + [i])];
    }

    /** The root's children fail to the root. */
    method LinkRoot(pats: seq<Str>) returns (queue: seq<nat>)
      requires Trie(nodes, strs, par) && Planted(nodes, strs, pats, |pats|)
      modifies this`nodes
      ensures Trie(nodes, strs, par) && Progress(nodes, strs, par, pats, queue, BelowRoot(|nodes|), 0, {})
    {
      ghost var waiting := BelowRoot(|nodes|);
      queue := [];
      var left := nodes[0].next.Keys;
      ProgressStart(nodes, strs, par, pats, waiting);
      while left != {}
        invariant Trie(nodes, strs, par) && left <= nodes[0].next.Keys
        invariant Progress(nodes, strs, par, pats, queue, waiting, 0, left)
        decreases left
      {
        var b := Pick(left);
        var child := nodes[0].next[b];
        RootChildDone(nodes, strs, par, pats, queue, waiting, left, b);
        nodes := nodes[child := nodes[child].(fail := 0)];
        queue := queue + [child];
        left := left - {b};
      }
    }

    /** The children of one node taken from the queue. */
    method LinkChildren(pats: seq<Str>, cur: nat, queue: seq<nat>, ghost waiting: set<nat>) returns (longer: seq<nat>)
      requires Trie(nodes, strs, par) && 0 < cur < |nodes|
      requires Progress(nodes, strs, par, pats, queue, waiting, cur, nodes[cur].next.Keys)
      modifies this`nodes
      ensures Trie(nodes, strs, par) && |nodes| == |old(nodes)|
      ensures Progress(nodes, strs, par, pats, longer, waiting, cur, {})
    {
      longer := queue;
      var left := nodes[cur].next.Keys;
      while left != {}
        invariant Trie(nodes, strs, par) && |nodes| == |old(nodes)| && left <= nodes[cur].next.Keys
        invariant Progress(nodes, strs, par, pats, longer, waiting, cur, left)
        decreases left
      {
        var b := Pick(left);
        LinkChild(pats, cur, b, longer, waiting, left);
        longer := longer + [nodes[cur].next[b]];
        left := left - {b};
      }
    }

    /** Breadth first over the trie, giving every node its failure link and outputs. */
    method Link(pats: seq<Str>)
      requires Trie(nodes, strs, par) && Planted(nodes, strs, pats, |pats|)
      modifies this`nodes
      ensures Built(pats)
    {
      var queue := LinkRoot(pats);
      ghost var waiting := BelowRoot(|nodes|);
      ghost var at: nat := 0;
      while |queue| > 0
        invariant Trie(nodes, strs, par) && Progress(nodes, strs, par, pats, queue, waiting, at, {})
        decreases waiting
      {
        var cur := queue[0];
        ProgressPop(nodes, strs, par, pats, queue, waiting, at);
        waiting := waiting - {cur};
        queue := LinkChildren(pats, cur, queue[1..], waiting);
        at := cur;
      }
      ProgressDone(nodes, strs, par, pats, waiting, at);
    }

    /** One child: its failure link is found from its parent's, and the outputs there are
        appended to its own. */
    method LinkChild(pats: seq<Str>, cur: nat, b: Byte, ghost queue: seq<nat>, ghost waiting: set<nat>, ghost left: set<Byte>)
      requires Trie(nodes, strs, par) && 0 < cur < |nodes| && b in left && left <= nodes[cur].next.Keys
      requires Progress(nodes, strs, par, pats, queue, waiting, cur, left)
      modifies this`nodes
      ensures Trie(nodes, strs, par) && SameEdges(old(nodes), nodes)
      ensures Progress(nodes, strs, par, pats, queue + [nodes[cur].next[b]], waiting, cur, left - {b})
    {
      var child := nodes[cur].next[b];
      ghost var before := nodes;
      ChildReady(nodes, strs, par, pats, queue, waiting, cur, left, b);
      var f := FailOf(cur, b, child, pats);
      nodes := nodes[child := nodes[child].(fail := f)];
      var fo := nodes[f].out;
      if |fo| > 0 { nodes := nodes[child := nodes[child].(out := nodes[child].out + fo)]; }
      assert nodes[child].out == before[child].out + fo;
      assert nodes == before[child := Node(before[child].next, f, before[child].out + fo)];
      ChildDone(before, nodes, strs, par, pats, queue, waiting, cur, left, b, f);
    }

    /** The walk over failure links that finds a child's own. */
    method FailOf(cur: nat, b: Byte, child: nat, ghost pats: seq<Str>) returns (f: nat)
      requires Trie(nodes, strs, par) && 0 < cur < |nodes| && b in nodes[cur].next && child == nodes[cur].next[b] < |nodes|
      requires forall c {:trigger Linked(nodes, strs, pats, c)} :: 0 <= c < |nodes| && |strs[c]| <= |strs[cur]| ==> Linked(nodes, strs, pats, c)
      ensures f < |nodes| && strs[child] != [] && strs[f] == Longest(strs, strs[child][1..]) && f != child && Linked(nodes, strs, pats, f)
    {
      f := nodes[cur].fail;
      assert Linked(nodes, strs, pats, cur);
      FailStarts(nodes, strs, par, pats, cur, b);
      while true
        invariant f < |nodes| && |strs[f]| < |strs[cur]|
        invariant Longest(strs, strs[f] + [b]) == Longest(strs, strs[child][1..])
        decreases |strs[f]|
      {
        if b in nodes[f].next && nodes[f].next[b] != child {
          EdgeTaken(nodes, strs, par, f, b);
          f := nodes[f].next[b];
          return;
        }
        if b in nodes[f].next { EdgeTaken(nodes, strs, par, f, b); }
        if f == 0 {
          RootMisses(nodes, strs, par, b);
          return;
        }
        FailKeeps(nodes, strs, par, pats, f, b);
        f := nodes[f].fail;
      }
    }

    /** The indexes of the patterns in the text, each once, by where it first ends; of those
        ending together the longer first. ends says where. */
    method Match(text: Str, ghost pats: seq<Str>) returns (found: seq<nat>, ghost ends: seq<nat>)
      requires Built(pats)
      ensures forall p :: p in found <==> 0 <= p < |pats| && pats[p] != [] && Occurs(pats[p], text)
      ensures FirstEnds(pats, text, found, ends)
    {
      found, ends := [], [];
      if |nodes| <= 1 {
        forall p | 0 <= p < |pats| ensures pats[p] == [] { assert pats[p] in pats; }
        return;
      }
      var cur := 0;
      var seen: set<nat> := {};
      assert text[..0] == [];
      FoundNothing(pats, text);
      for i := 0 to |text|
        invariant cur < |nodes| && strs[cur] == Longest(strs, text[..i])
        invariant FoundIn(pats, text, i, found) && FirstEnds(pats, text, found, ends)
        invariant forall e :: e in ends ==> e <= i
        invariant forall p :: p in seen <==> p in found
      {
        cur := ReadByte(text, i, cur, pats);
        found, seen, ends := Collect(pats, text, i, nodes[cur].out, found, seen, ends);
      }
      assert text[..|text|] == text;
      FoundAll(pats, text, found);
    }

    /** After one more byte the node's outputs are the patterns that end there. */
    method ReadByte(text: Str, i: nat, from: nat, ghost pats: seq<Str>) returns (cur: nat)
      requires Built(pats) && i < |text| && from < |nodes| && strs[from] == Longest(strs, text[..i])
      ensures cur < |nodes| && strs[cur] == Longest(strs, text[..i + 1])
      ensures Ordered(pats, nodes[cur].out)
      ensures forall p :: p in nodes[cur].out <==> 0 <= p < |pats| && pats[p] != [] && EndsAt(pats[p], text, i + 1)
    {
      ByteRead(nodes, strs, par, text, i);
      cur := Step(from, text[i], pats);
      assert Linked(nodes, strs, pats, cur);
      OutputsHere(strs, pats, text, i + 1, nodes[cur].out);
    }

    /** Follow failure links until there is an edge for the byte. */
    method Step(from: nat, b: Byte, ghost pats: seq<Str>) returns (cur: nat)
      requires Trie(nodes, strs, par) && from < |nodes|
      requires forall c :: 0 <= c < |nodes| ==> Linked(nodes, strs, pats, c)
      ensures cur < |nodes| && strs[cur] == Longest(strs, strs[from] + [b])
    {
      cur := from;
      while true
        invariant cur < |nodes| && Longest(strs, strs[cur] + [b]) == Longest(strs, strs[from] + [b])
        decreases |strs[cur]|
      {
        if b in nodes[cur].next {
          EdgeTaken(nodes, strs, par, cur, b);
          cur := nodes[cur].next[b];
          return;
        }
        if cur == 0 {
          RootMisses(nodes, strs, par, b);
          return;
        }
        FailKeeps(nodes, strs, par, pats, cur, b);
        cur := nodes[cur].fail;
      }
    }
  }

  // ---------------------------------------------------------------------------
  // How far linking has got
  // ---------------------------------------------------------------------------

  /** A node is linked once it was queued; waiting holds the nodes not yet taken from the queue. */
  predicate Queued(c: nat, queue: seq<nat>, waiting: set<nat>) { c !in waiting || c in queue }

  function BelowRoot(n: nat): (s: set<nat>)
    ensures forall c :: c in s <==> 0 < c < n
  {
    if n <= 1 then {} else BelowRoot(n - 1) + {n - 1}
  }

  /** Nodes are queued exactly when their parent's turn came, except for the letters of the
      current node still to do; the queue holds the current depth, then the next. */
  ghost predicate Progress(nodes: seq<Node>, strs: seq<Str>, par: seq<nat>, pats: seq<Str>,
                           queue: seq<nat>, waiting: set<nat>, cur: nat, left: set<Byte>)
    requires Trie(nodes, strs, par)
  {
    && cur < |nodes|
    && QueueOk(strs, queue, waiting, cur)
    && ParentsOk(strs, par, queue, waiting, cur, left)
    && NodesOk(nodes, strs, pats, queue, waiting)
    && (forall p :: p in pats ==> p in strs)
  }

  ghost predicate QueueOk(strs: seq<Str>, queue: seq<nat>, waiting: set<nat>, cur: nat)
    requires cur < |strs|
  {
    && cur !in waiting && (forall c :: c in waiting ==> 0 < c < |strs|)
    && (forall i :: 0 <= i < |queue| ==> queue[i] in waiting && queue[i] < |strs|)
    && (forall i, j :: 0 <= i < j < |queue| ==> queue[i] != queue[j] && |strs[queue[i]]| <= |strs[queue[j]]|)
    && (forall i :: 0 <= i < |queue| ==> |strs[cur]| <= |strs[queue[i]]| <= |strs[cur]| + 1)
  }

  ghost predicate ParentsOk(strs: seq<Str>, par: seq<nat>, queue: seq<nat>, waiting: set<nat>, cur: nat, left: set<Byte>)
    requires |strs| == |par|
  {
    forall c :: 0 < c < |strs| ==> (Queued(c, queue, waiting) <==> ParentDone(strs, par, waiting, cur, left, c))
  }

  predicate ParentDone(strs: seq<Str>, par: seq<nat>, waiting: set<nat>, cur: nat, left: set<Byte>, c: nat)
    requires c < |strs| == |par|
  {
    par[c] !in waiting && !(par[c] == cur && strs[c] != [] && Last(strs[c]) in left)
  }

  ghost predicate NodesOk(nodes: seq<Node>, strs: seq<Str>, pats: seq<Str>, queue: seq<nat>, waiting: set<nat>)
    requires |nodes| == |strs|
  {
    forall c :: 0 <= c < |nodes| ==> NodeOk(nodes, strs, pats, c, Queued(c, queue, waiting))
  }

  ghost predicate NodeOk(nodes: seq<Node>, strs: seq<Str>, pats: seq<Str>, c: nat, queued: bool)
    requires c < |nodes| == |strs|
  {
    if queued then Linked(nodes, strs, pats, c) else nodes[c].out == Own(pats, |pats|, strs[c])
  }

  lemma {:induction false} ProgressStart(nodes: seq<Node>, strs: seq<Str>, par: seq<nat>, pats: seq<Str>, waiting: set<nat>)
    requires Trie(nodes, strs, par) && Planted(nodes, strs, pats, |pats|) && waiting == BelowRoot(|nodes|)
    ensures Progress(nodes, strs, par, pats, [], waiting, 0, nodes[0].next.Keys)
  {
    forall c | 0 < c < |nodes|
      ensures Queued(c, [], waiting) <==> ParentDone(strs, par, waiting, 0, nodes[0].next.Keys, c)
    {
      assert HasParent(nodes, strs, par, c);
    }
    forall p | p in pats ensures p in strs {
      var i :| 0 <= i < |pats| && pats[i] == p;
    }
  }

  lemma {:induction false} UnlinkedChild(nodes: seq<Node>, strs: seq<Str>, par: seq<nat>, pats: seq<Str>, queue: seq<nat>, waiting: set<nat>,
                      cur: nat, left: set<Byte>, b: Byte)
    requires Trie(nodes, strs, par) && Progress(nodes, strs, par, pats, queue, waiting, cur, left)
    requires b in left && left <= nodes[cur].next.Keys
    ensures var child := nodes[cur].next[b];
            0 < child < |nodes| && strs[child] == strs[cur] + [b] && par[child] == cur && !Queued(child, queue, waiting)
  {
    var child := nodes[cur].next[b];
    assert Child(nodes, strs, cur, b);
    assert HasParent(nodes, strs, par, child);
    assert strs[child][..|strs[child]| - 1] == strs[cur];
    assert par[child] == cur;
  }

  /** A node not yet queued is deeper than the current one: its nearest queued ancestor is at
      least as deep, or is the current node itself. */
  lemma {:induction false} UnqueuedIsDeeper(nodes: seq<Node>, strs: seq<Str>, par: seq<nat>, pats: seq<Str>, queue: seq<nat>,
                                            waiting: set<nat>, cur: nat, left: set<Byte>, c: nat)
    requires Trie(nodes, strs, par) && Progress(nodes, strs, par, pats, queue, waiting, cur, left)
    requires c < |nodes| && !Queued(c, queue, waiting)
    ensures |strs[c]| > |strs[cur]|
  {
    assert HasParent(nodes, strs, par, c);
    if par[c] in waiting {
      if par[c] in queue {
        var i :| 0 <= i < |queue| && queue[i] == par[c];
      } else {
        UnqueuedIsDeeper(nodes, strs, par, pats, queue, waiting, cur, left, par[c]);
      }
    }
  }

  lemma {:induction false} ShallowLinked(nodes: seq<Node>, strs: seq<Str>, par: seq<nat>, pats: seq<Str>, queue: seq<nat>, waiting: set<nat>,
                      cur: nat, left: set<Byte>)
    requires Trie(nodes, strs, par) && Progress(nodes, strs, par, pats, queue, waiting, cur, left)
    ensures forall c {:trigger Linked(nodes, strs, pats, c)} :: 0 <= c < |nodes| && |strs[c]| <= |strs[cur]| ==> Linked(nodes, strs, pats, c)
  {
    forall c | 0 <= c < |nodes| && |strs[c]| <= |strs[cur]| ensures Linked(nodes, strs, pats, c) {
      assert NodeOk(nodes, strs, pats, c, Queued(c, queue, waiting));
      if !Queued(c, queue, waiting) { UnqueuedIsDeeper(nodes, strs, par, pats, queue, waiting, cur, left, c); }
    }
  }

  lemma {:induction false} QueuePush(strs: seq<Str>, queue: seq<nat>, waiting: set<nat>, cur: nat, child: nat)
    requires cur < |strs| && QueueOk(strs, queue, waiting, cur)
    requires 0 < child < |strs| && !Queued(child, queue, waiting) && |strs[child]| == |strs[cur]| + 1
    ensures QueueOk(strs, queue + [child], waiting, cur)
  {
  }

  lemma {:induction false} ParentsPush(nodes: seq<Node>, strs: seq<Str>, par: seq<nat>, queue: seq<nat>, waiting: set<nat>, cur: nat, left: set<Byte>, b: Byte)
    requires Trie(nodes, strs, par) && cur < |nodes| && b in nodes[cur].next && cur !in waiting
    requires ParentsOk(strs, par, queue, waiting, cur, left)
    requires var child := nodes[cur].next[b];
             0 < child < |nodes| && par[child] == cur && strs[child] == strs[cur] + [b]
    ensures ParentsOk(strs, par, queue + [nodes[cur].next[b]], waiting, cur, left - {b})
  {
    var child := nodes[cur].next[b];
    forall c | 0 < c < |strs|
      ensures Queued(c, queue + [child], waiting) <==> ParentDone(strs, par, waiting, cur, left - {b}, c)
    {
      assert HasParent(nodes, strs, par, c);
      assert Queued(c, queue + [child], waiting) <==> Queued(c, queue, waiting) || c == child;
    }
  }

  lemma {:induction false} NodesPush(before: seq<Node>, after: seq<Node>, strs: seq<Str>, pats: seq<Str>, queue: seq<nat>, waiting: set<nat>, child: nat)
    requires |before| == |after| == |strs| && NodesOk(before, strs, pats, queue, waiting)
    requires child < |after| && Linked(after, strs, pats, child)
    requires forall c :: 0 <= c < |after| && c != child ==> after[c] == before[c]
    ensures NodesOk(after, strs, pats, queue + [child], waiting)
  {
    forall c | 0 <= c < |after| ensures NodeOk(after, strs, pats, c, Queued(c, queue + [child], waiting)) {
      assert NodeOk(before, strs, pats, c, Queued(c, queue, waiting));
    }
  }

  lemma {:induction false} ProgressPush(before: seq<Node>, after: seq<Node>, strs: seq<Str>, par: seq<nat>, pats: seq<Str>, queue: seq<nat>,
                     waiting: set<nat>, cur: nat, left: set<Byte>, b: Byte)
    requires Trie(before, strs, par) && Progress(before, strs, par, pats, queue, waiting, cur, left)
    requires b in left && left <= before[cur].next.Keys && SameEdges(before, after)
    requires var child := before[cur].next[b];
             child < |after| && Linked(after, strs, pats, child) && forall c :: 0 <= c < |after| && c != child ==> after[c] == before[c]
    ensures Trie(after, strs, par)
    ensures Progress(after, strs, par, pats, queue + [before[cur].next[b]], waiting, cur, left - {b})
  {
    var child := before[cur].next[b];
    TrieFrame(before, after, strs, par);
    UnlinkedChild(before, strs, par, pats, queue, waiting, cur, left, b);
    QueuePush(strs, queue, waiting, cur, child);
    ParentsPush(before, strs, par, queue, waiting, cur, left, b);
    NodesPush(before, after, strs, pats, queue, waiting, child);
  }

  /** The link found and the outputs there make the child a finished node. */
  lemma {:induction false} ChildLinked(before: seq<Node>, after: seq<Node>, strs: seq<Str>, pats: seq<Str>, child: nat, f: nat)
    requires |before| == |after| == |strs| && child < |strs| && f < |strs| && strs[child] != []
    requires strs[f] == Longest(strs, strs[child][1..]) && Linked(before, strs, pats, f)
    requires before[child].out == Own(pats, |pats|, strs[child])
    requires after[child].fail == f && after[child].out == before[child].out + before[f].out
    ensures Linked(after, strs, pats, child)
  {
  }

  lemma {:induction false} ChildReady(nodes: seq<Node>, strs: seq<Str>, par: seq<nat>, pats: seq<Str>, queue: seq<nat>, waiting: set<nat>,
                   cur: nat, left: set<Byte>, b: Byte)
    requires Trie(nodes, strs, par) && Progress(nodes, strs, par, pats, queue, waiting, cur, left)
    requires b in left && left <= nodes[cur].next.Keys
    ensures nodes[cur].next[b] < |nodes|
    ensures forall c {:trigger Linked(nodes, strs, pats, c)} :: 0 <= c < |nodes| && |strs[c]| <= |strs[cur]| ==> Linked(nodes, strs, pats, c)
  {
    UnlinkedChild(nodes, strs, par, pats, queue, waiting, cur, left, b);
    ShallowLinked(nodes, strs, par, pats, queue, waiting, cur, left);
  }

  /** Changing a node's link and outputs leaves every edge as it was. */
  lemma {:induction false} EdgesKept(before: seq<Node>, child: nat, fail: nat, out: seq<nat>)
    requires child < |before|
    ensures SameEdges(before, before[child := Node(before[child].next, fail, out)])
  {
  }

  lemma {:induction false} ChildDone(before: seq<Node>, after: seq<Node>, strs: seq<Str>, par: seq<nat>, pats: seq<Str>, queue: seq<nat>,
                  waiting: set<nat>, cur: nat, left: set<Byte>, b: Byte, f: nat)
    requires Trie(before, strs, par) && Progress(before, strs, par, pats, queue, waiting, cur, left)
    requires b in left && left <= before[cur].next.Keys
    requires var child := before[cur].next[b];
             && child < |before| && f < |before| && strs[child] != []
             && strs[f] == Longest(strs, strs[child][1..]) && Linked(before, strs, pats, f)
             && after == before[child := Node(before[child].next, f, before[child].out + before[f].out)]
    ensures Trie(after, strs, par) && SameEdges(before, after)
    ensures Progress(after, strs, par, pats, queue + [before[cur].next[b]], waiting, cur, left - {b})
  {
    var child := before[cur].next[b];
    UnlinkedChild(before, strs, par, pats, queue, waiting, cur, left, b);
    assert NodeOk(before, strs, pats, child, Queued(child, queue, waiting));
    ChildLinked(before, after, strs, pats, child, f);
    EdgesKept(before, child, f, before[child].out + before[f].out);
    ProgressPush(before, after, strs, par, pats, queue, waiting, cur, left, b);
  }

  lemma {:induction false} RootChildDone(nodes: seq<Node>, strs: seq<Str>, par: seq<nat>, pats: seq<Str>, queue: seq<nat>, waiting: set<nat>, left: set<Byte>, b: Byte)
    requires Trie(nodes, strs, par) && Progress(nodes, strs, par, pats, queue, waiting, 0, left)
    requires b in left && left <= nodes[0].next.Keys
    ensures var child := nodes[0].next[b];
            child < |nodes| && var after := nodes[child := nodes[child].(fail := 0)];
            Trie(after, strs, par) && SameEdges(nodes, after)
            && Progress(after, strs, par, pats, queue + [child], waiting, 0, left - {b})
  {
    var child := nodes[0].next[b];
    UnlinkedChild(nodes, strs, par, pats, queue, waiting, 0, left, b);
    assert NodeOk(nodes, strs, pats, child, Queued(child, queue, waiting));
    var after := nodes[child := nodes[child].(fail := 0)];
    assert after == nodes[child := Node(nodes[child].next, 0, nodes[child].out)];
    EdgesKept(nodes, child, 0, nodes[child].out);
    assert strs[child][1..] == [];
    ProgressPush(nodes, after, strs, par, pats, queue, waiting, 0, left, b);
  }

  lemma {:induction false} ProgressPop(nodes: seq<Node>, strs: seq<Str>, par: seq<nat>, pats: seq<Str>, queue: seq<nat>, waiting: set<nat>, at: nat)
    requires Trie(nodes, strs, par) && Progress(nodes, strs, par, pats, queue, waiting, at, {}) && queue != []
    ensures queue[0] in waiting && 0 < queue[0] < |nodes|
    ensures Progress(nodes, strs, par, pats, queue[1..], waiting - {queue[0]}, queue[0], nodes[queue[0]].next.Keys)
  {
    var cur, rest, waiting2 := queue[0], queue[1..], waiting - {queue[0]};
    assert queue == [cur] + rest;
    forall c | 0 < c < |nodes|
      ensures Queued(c, rest, waiting2) <==> Queued(c, queue, waiting)
      ensures Queued(c, rest, waiting2) <==> ParentDone(strs, par, waiting2, cur, nodes[cur].next.Keys, c)
    {
      assert HasParent(nodes, strs, par, c);
      assert Queued(c, queue, waiting) <==> ParentDone(strs, par, waiting, at, {}, c);
    }
    assert Queued(0, rest, waiting2) && Queued(0, queue, waiting);
    forall c | 0 <= c < |nodes| ensures NodeOk(nodes, strs, pats, c, Queued(c, rest, waiting2)) {
      assert NodeOk(nodes, strs, pats, c, Queued(c, queue, waiting));
    }
  }

  lemma {:induction false} NothingWaits(nodes: seq<Node>, strs: seq<Str>, par: seq<nat>, pats: seq<Str>, waiting: set<nat>, at: nat, c: nat)
    requires Trie(nodes, strs, par) && Progress(nodes, strs, par, pats, [], waiting, at, {}) && c < |nodes|
    ensures c !in waiting
  {
    if c > 0 {
      assert HasParent(nodes, strs, par, c);
      NothingWaits(nodes, strs, par, pats, waiting, at, par[c]);
      assert Queued(c, [], waiting);
    }
  }

  lemma {:induction false} ProgressDone(nodes: seq<Node>, strs: seq<Str>, par: seq<nat>, pats: seq<Str>, waiting: set<nat>, at: nat)
    requires Trie(nodes, strs, par) && Progress(nodes, strs, par, pats, [], waiting, at, {})
    ensures forall c :: 0 <= c < |nodes| ==> Linked(nodes, strs, pats, c)
    ensures |nodes| == 1 ==> forall p :: p in pats ==> p == []
  {
    forall c | 0 <= c < |nodes| ensures Linked(nodes, strs, pats, c) {
      NothingWaits(nodes, strs, par, pats, waiting, at, c);
      assert NodeOk(nodes, strs, pats, c, Queued(c, [], waiting));
    }
  }

  // ---------------------------------------------------------------------------
  // What has been found
  // ---------------------------------------------------------------------------

  /** Each index once, with the position where its pattern first ends, in that order. */
  ghost predicate FirstEnds(pats: seq<Str>, text: Str, found: seq<nat>, ends: seq<nat>) {
    && |found| == |ends|
    && (forall k :: 0 <= k < |found| ==> IsFirstEnd(pats, text, found[k], ends[k]))
    && (forall k, l :: 0 <= k < l < |found| ==>
          ends[k] < ends[l] || (ends[k] == ends[l] && Before(pats, found[k], found[l])))
  }

  ghost predicate IsFirstEnd(pats: seq<Str>, text: Str, p: nat, e: nat) {
    p < |pats| && EndsAt(pats[p], text, e) && forall d :: 0 <= d < e ==> !EndsAt(pats[p], text, d)
  }

  /** The patterns ending at or before position i are the ones found. */
  ghost predicate FoundIn(pats: seq<Str>, text: Str, i: nat, found: seq<nat>) {
    forall p :: p in found <==> 0 <= p < |pats| && pats[p] != [] && exists e :: 0 <= e <= i && EndsAt(pats[p], text, e)
  }

  lemma {:induction false} FoundNothing(pats: seq<Str>, text: Str)
    ensures FoundIn(pats, text, 0, [])
  {
  }

  lemma {:induction false} FoundAll(pats: seq<Str>, text: Str, found: seq<nat>)
    requires FoundIn(pats, text, |text|, found)
    ensures forall p :: p in found <==> 0 <= p < |pats| && pats[p] != [] && Occurs(pats[p], text)
  {
    forall p | 0 <= p < |pats| ensures Occurs(pats[p], text) <==> exists e :: 0 <= e <= |text| && EndsAt(pats[p], text, e) {}
  }

  lemma {:induction false} ByteRead(nodes: seq<Node>, strs: seq<Str>, par: seq<nat>, text: Str, i: nat)
    requires Trie(nodes, strs, par) && i < |text|
    ensures Longest(strs, text[..i + 1]) == Longest(strs, Longest(strs, text[..i]) + [text[i]])
  {
    assert text[..i + 1] == text[..i] + [text[i]];
    TrieIsPrefixClosed(nodes, strs, par);
    LongestStep(strs, text[..i], text[i]);
  }

  lemma {:induction false} SuffixEnds(words: seq<Str>, text: Str, i: nat, p: Str)
    requires i <= |text| && p in words
    ensures SuffixOf(p, Longest(words, text[..i])) <==> EndsAt(p, text, i)
  {
    var s := Longest(words, text[..i]);
    LongestIsSuffix(words, text[..i]);
    assert s == text[i - |s|..i];
    if EndsAt(p, text, i) {
      assert text[..i][i - |p|..] == p;
      LongestIsLongest(words, text[..i], p);
    }
    if SuffixOf(p, s) { assert s[|s| - |p|..] == text[i - |p|..i]; }
  }

  /** The outputs of the node reached are the patterns that end at this position. */
  lemma {:induction false} OutputsHere(words: seq<Str>, pats: seq<Str>, text: Str, i: nat, out: seq<nat>)
    requires i <= |text| && forall p :: p in pats ==> p in words
    requires out == Outputs(words, pats, Longest(words, text[..i]))
    ensures forall p :: p in out <==> 0 <= p < |pats| && pats[p] != [] && EndsAt(pats[p], text, i)
    ensures Ordered(pats, out)
  {
    OutputsAre(words, pats, Longest(words, text[..i]));
    forall p | 0 <= p < |pats| ensures SuffixOf(pats[p], Longest(words, text[..i])) <==> EndsAt(pats[p], text, i) {
      SuffixEnds(words, text, i, pats[p]);
    }
  }

  lemma {:induction false} LaterOutput(pats: seq<Str>, out: seq<nat>, j: nat)
    requires Ordered(pats, out) && j < |out|
    ensures forall p :: p in out[..j] ==> Before(pats, p, out[j])
  {
  }

  lemma {:induction false} FoundMore(pats: seq<Str>, text: Str, i: nat, had: seq<nat>, hadEnds: seq<nat>, more: seq<nat>, moreEnds: seq<nat>, out: seq<nat>)
    requires i < |text| && FoundIn(pats, text, i, had) && FirstEnds(pats, text, had, hadEnds)
    requires forall e :: e in hadEnds ==> e <= i
    requires forall p :: p in out <==> 0 <= p < |pats| && pats[p] != [] && EndsAt(pats[p], text, i + 1)
    requires forall p :: p in more <==> p in out && p !in had
    requires Ordered(pats, more) && |moreEnds| == |more| && forall k :: 0 <= k < |more| ==> moreEnds[k] == i + 1
    ensures FoundIn(pats, text, i + 1, had + more) && FirstEnds(pats, text, had + more, hadEnds + moreEnds)
    ensures forall e :: e in hadEnds + moreEnds ==> e <= i + 1
  {
    var found, ends := had + more, hadEnds + moreEnds;
    forall k | 0 <= k < |found| ensures IsFirstEnd(pats, text, found[k], ends[k]) {
      if k >= |had| { assert more[k - |had|] in more; }
    }
    forall k, l | 0 <= k < l < |found|
      ensures ends[k] < ends[l] || (ends[k] == ends[l] && Before(pats, found[k], found[l]))
    {
      if k < |had| <= l { assert hadEnds[k] in hadEnds; }
    }
  }
}

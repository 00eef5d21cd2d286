/** Building sample vectors while samples are edited, deleted and claimed by other builds:
    a build claims its rows, reads them, embeds their texts, and writes a vector back only
    where the row still holds that text and that claim. The audit samples of the compliance
    engine follow the same protocol. */
module VectorBuild {
  import opened Wrappers

  type Id = nat
  type Text = string

  /** A stored vector, by the text it embeds, the model identity it is stamped with, and the
      build that wrote it. */
  datatype Vector = Vector(of: Text, stamp: nat, author: nat)

  datatype Row = Row(text: Text, token: nat, vector: Option<Vector>)

  datatype State = State(rows: map<Id, Row>, tokens: nat)

  /** An edit decides whether the text changed against the text it read: the current one when
      read and write are one step, an older one otherwise. */
  datatype Event =
    | Claim(ids: Option<set<Id>>)
    | Write(id: Id, text: Text, token: nat, stamp: nat)
    | Edit(id: Id, seen: Option<Text>, text: Text)
    | Create(id: Id, text: Text)
    | Delete(id: Id)

  function Selected(s: State, ids: Option<set<Id>>): set<Id> {
    set id | id in s.rows && (ids.Some? ==> id in ids.value)
  }

  predicate Lands(s: State, id: Id, text: Text, token: nat) {
    id in s.rows && s.rows[id].text == text && s.rows[id].token == token
  }

  function Edited(r: Row, seen: Text, text: Text): Row {
    if text != seen then r.(text := text, vector := None) else r.(text := text)
  }

  function Next(s: State, e: Event): State {
    match e
    case Claim(ids) =>
      State(map id | id in s.rows :: if id in Selected(s, ids) then s.rows[id].(token := s.tokens + 1) else s.rows[id], s.tokens + 1)
    case Write(id, text, token, stamp) =>
      if Lands(s, id, text, token) then s.(rows := s.rows[id := s.rows[id].(vector := Some(Vector(text, stamp, token)))]) else s
    case Edit(id, seen, text) =>
      if id in s.rows then
        s.(rows := s.rows[id := Edited(s.rows[id], if seen.Some? then seen.value else s.rows[id].text, text)])
      else s
    case Create(id, text) => if id in s.rows then s else s.(rows := s.rows[id := Row(text, 0, None)])
    case Delete(id) => s.(rows := s.rows - {id})
  }

  function Run(s: State, es: seq<Event>): State {
    if es == [] then s else Next(Run(s, es[..|es| - 1]), es[|es| - 1])
  }

  // ---------------------------------------------------------------------------
  // Vectors fit their texts
  // ---------------------------------------------------------------------------

  predicate Fits(r: Row) { r.vector.Some? ==> r.vector.value.of == r.text }

  ghost predicate Inv(s: State) {
    forall id :: id in s.rows ==>
      Fits(s.rows[id]) && s.rows[id].token <= s.tokens
      && (s.rows[id].vector.Some? ==> s.rows[id].vector.value.author <= s.rows[id].token)
  }

  /** Exactly the edits that leave a fitting row fitting: the editor sees the text change, or
      it does not change, or there is no vector to lose. */
  predicate SafeEdit(r: Row, seen: Text, text: Text) { text != seen || text == r.text || r.vector.None? }

  lemma {:induction false} EditExact(r: Row, seen: Text, text: Text)
    requires Fits(r)
    ensures Fits(Edited(r, seen, text)) <==> SafeEdit(r, seen, text)
  {
  }

  predicate Safe(s: State, e: Event) {
    e.Edit? && e.id in s.rows ==> SafeEdit(s.rows[e.id], if e.seen.Some? then e.seen.value else s.rows[e.id].text, e.text)
  }

  /** Every event keeps the vectors fitting, an edit exactly when it is safe; edits that read
      and write in one step always are. */
  lemma {:induction false} StepKeeps(s: State, e: Event)
    requires Inv(s)
    ensures Inv(Next(s, e)) <==> Safe(s, e)
    ensures e.Edit? && e.seen.None? ==> Safe(s, e)
  {
    if e.Edit? && e.id in s.rows {
      EditExact(s.rows[e.id], if e.seen.Some? then e.seen.value else s.rows[e.id].text, e.text);
      assert e.id in Next(s, e).rows;
    }
  }

  predicate Atomic(es: seq<Event>) { forall e :: e in es ==> (e.Edit? ==> e.seen.None?) }

  /** Over any interleaving of builds, edits in one step, creations and deletions, a stored
      vector embeds the row's current text. */
  lemma {:induction false} AlwaysFits(s: State, es: seq<Event>)
    requires Inv(s) && Atomic(es)
    ensures Inv(Run(s, es))
  {
    if es != [] {
      var init, last := es[..|es| - 1], es[|es| - 1];
      assert es == init + [last];
      AlwaysFits(s, init);
      StepKeeps(Run(s, init), last);
    }
  }

  /** The edit handlers read the row first and write it later. Two edits and a build between
      them can leave a vector of a text the row no longer holds. */
  lemma {:induction false} StaleEdit() returns (es: seq<Event>)
    ensures var r := Run(State(map[], 0), es).rows;
            0 in r && r[0].text == "a" && r[0].vector == Some(Vector("b", 7, 1))
  {
    // One edit has read "a" and wants "a"; another sets "b", which is built; the first writes.
    es := [Create(0, "a"), Edit(0, None, "b"), Claim(None), Write(0, "b", 1, 7), Edit(0, Some("a"), "a")];
    var s0 := State(map[], 0);
    var s1 := Next(s0, es[0]);
    var s2 := Next(s1, es[1]);
    var s3 := Next(s2, es[2]);
    var s4 := Next(s3, es[3]);
    assert es[..5] == es && es[..5][..4] == es[..4] && es[..4][..3] == es[..3] && es[..3][..2] == es[..2] && es[..2][..1] == es[..1];
    assert es[..1][..0] == [];
    assert Run(s0, es[..1]) == s1;
    assert Run(s0, es[..2]) == s2;
    assert Run(s0, es[..3]) == s3;
    assert s3.rows[0] == Row("b", 1, None);
    assert Run(s0, es[..4]) == s4;
    assert Run(s0, es) == Next(s4, es[4]);
  }

  // ---------------------------------------------------------------------------
  // A later claim wins
  // ---------------------------------------------------------------------------

  predicate Keeps(es: seq<Event>, id: Id) { forall e :: e in es ==> !(e.Delete? && e.id == id) }

  /** Whatever else runs, once a row is claimed no earlier build writes it again: its vector
      stays, goes, or comes from that claim or a later one. */
  lemma {:induction false} LaterClaimWins(s: State, es: seq<Event>, id: Id)
    requires id in s.rows && s.rows[id].token <= s.tokens && Keeps(es, id)
    ensures var t := Run(s, es);
            && id in t.rows && s.rows[id].token <= t.rows[id].token <= t.tokens && s.tokens <= t.tokens
            && (t.rows[id].vector == s.rows[id].vector || t.rows[id].vector.None? || t.rows[id].vector.value.author >= s.rows[id].token)
  {
    if es != [] {
      var init, last := es[..|es| - 1], es[|es| - 1];
      assert es == init + [last];
      LaterClaimWins(s, init, id);
      ClaimHolds(Run(s, init), last, id);
    }
  }

  /** One step leaves a row's vector, takes it away, or writes it for the claim on the row. */
  lemma {:induction false} ClaimHolds(s: State, e: Event, id: Id)
    requires id in s.rows && s.rows[id].token <= s.tokens && !(e.Delete? && e.id == id)
    ensures var t := Next(s, e);
            && id in t.rows && s.rows[id].token <= t.rows[id].token <= t.tokens
            && (t.rows[id].vector == s.rows[id].vector || t.rows[id].vector.None? || t.rows[id].vector.value.author >= s.rows[id].token)
  {
  }

  // ---------------------------------------------------------------------------
  // The build
  // ---------------------------------------------------------------------------

  /** What the embedding service answers to one batch: an error, or vectors, some of which
      may be empty, stamped with the identity that made them. */
  datatype Answer = Refuses | Vectors(usable: seq<bool>, stamp: nat)

  datatype Outcome = ClaimFailed | ReadFailed | EmbedFailed | Finished

  /** The rows that carry a build's token. */
  function Mine(s: State, token: nat): set<Id> { set id | id in s.rows && s.rows[id].token == token }

  predicate AllAtomic(env: seq<seq<Event>>) { forall es :: es in env ==> Atomic(es) }

  type Claimed = (Id, Text)

  function At<T>(env: seq<seq<T>>, i: nat): seq<T> { if i < |env| then env[i] else [] }

  /** Others run, then one vector is written back if it is usable; did it land? */
  function RowRun(s: State, row: Claimed, usable: bool, token: nat, stamp: nat, es: seq<Event>): (State, bool) {
    var t := Run(s, es);
    if usable then (Next(t, Write(row.0, row.1, token, stamp)), Lands(t, row.0, row.1, token)) else (t, false)
  }

  /** A batch row by row, and how many vectors landed. */
  function BatchRun(s: State, batch: seq<Claimed>, usable: seq<bool>, token: nat, stamp: nat, env: seq<seq<Event>>): (State, nat)
    requires |usable| == |batch|
  {
    if batch == [] then (s, 0)
    else
      var n := |batch| - 1;
      var before := BatchRun(s, batch[..n], usable[..n], token, stamp, env);
      var r := RowRun(before.0, batch[n], usable[n], token, stamp, At(env, n));
      (r.0, before.1 + if r.1 then 1 else 0)
  }

  /** Where a batch of sixteen rows starts. */
  function StartOf(batch: nat): nat { 16 * batch }

  function EndOf(rows: seq<Claimed>, batch: nat): nat {
    if StartOf(batch + 1) < |rows| then StartOf(batch + 1) else |rows|
  }

  function BatchAt(rows: seq<Claimed>, batch: nat): seq<Claimed>
    requires StartOf(batch) <= |rows|
  {
    rows[StartOf(batch)..EndOf(rows, batch)]
  }

  /** The batch exists and was answered with as many vectors as it has rows. */
  predicate Answered(rows: seq<Claimed>, answers: seq<Answer>, batch: nat) {
    && batch < |answers| && StartOf(batch) < |rows|
    && answers[batch].Vectors? && |answers[batch].usable| == |BatchAt(rows, batch)|
  }

  predicate AllAnswered(rows: seq<Claimed>, answers: seq<Answer>, n: nat) { forall b :: 0 <= b < n ==> Answered(rows, answers, b) }

  /** The first n batches; env holds, per batch, what others do before each of its writes. */
  function BatchesRun(s: State, rows: seq<Claimed>, token: nat, answers: seq<Answer>, env: seq<seq<seq<Event>>>, n: nat): (State, nat)
    requires AllAnswered(rows, answers, n)
  {
    if n == 0 then (s, 0)
    else
      assert Answered(rows, answers, n - 1);
      var before := BatchesRun(s, rows, token, answers, env, n - 1);
      var r := BatchRun(before.0, BatchAt(rows, n - 1), answers[n - 1].usable, token, answers[n - 1].stamp, At(env, n - 1));
      (r.0, before.1 + r.1)
  }

  lemma {:induction false} BatchKeeps(s: State, batch: seq<Claimed>, usable: seq<bool>, token: nat, stamp: nat, env: seq<seq<Event>>)
    requires |usable| == |batch| && Inv(s) && AllAtomic(env)
    ensures Inv(BatchRun(s, batch, usable, token, stamp, env).0) && BatchRun(s, batch, usable, token, stamp, env).1 <= |batch|
  {
    if batch != [] {
      var n := |batch| - 1;
      BatchKeeps(s, batch[..n], usable[..n], token, stamp, env);
      var before := BatchRun(s, batch[..n], usable[..n], token, stamp, env).0;
      AlwaysFits(before, At(env, n));
      StepKeeps(Run(before, At(env, n)), Write(batch[n].0, batch[n].1, token, stamp));
    }
  }

  /** A build keeps every stored vector an embedding of its row's current text, whatever
      others do meanwhile in single steps. */
  lemma {:induction false} BuildKeeps(s: State, rows: seq<Claimed>, token: nat, answers: seq<Answer>, env: seq<seq<seq<Event>>>, n: nat)
    requires AllAnswered(rows, answers, n)
    requires Inv(s) && forall e :: e in env ==> AllAtomic(e)
    ensures Inv(BatchesRun(s, rows, token, answers, env, n).0)
  {
    if n > 0 {
      BuildKeeps(s, rows, token, answers, env, n - 1);
      var before := BatchesRun(s, rows, token, answers, env, n - 1).0;
      assert Answered(rows, answers, n - 1);
      BatchKeeps(before, BatchAt(rows, n - 1), answers[n - 1].usable, token, answers[n - 1].stamp, At(env, n - 1));
    }
  }

  /** No one else gives a row this build's token. */
  lemma {:induction false} MineShrinks(s: State, es: seq<Event>, token: nat)
    requires 0 < token <= s.tokens
    ensures Mine(Run(s, es), token) <= Mine(s, token) && token <= Run(s, es).tokens
  {
    if es != [] {
      var init, last := es[..|es| - 1], es[|es| - 1];
      MineShrinks(s, init, token);
      var t := Run(s, init);
      forall id | id in Mine(Next(t, last), token) ensures id in Mine(t, token) {}
    }
  }

  lemma {:induction false} SubsetSize(a: set<Id>, b: set<Id>)
    requires a <= b
    ensures |a| <= |b|
  {
    assert b == a + (b - a) && a !! (b - a);
  }

  /** The rows that carry the token, each once, with their texts. */
  ghost predicate IsRead(s: State, token: nat, read: seq<Claimed>) {
    && (forall i :: 0 <= i < |read| ==> read[i].0 in Mine(s, token) && s.rows[read[i].0].text == read[i].1)
    && (forall i, j :: 0 <= i < j < |read| ==> read[i].0 != read[j].0)
    && |read| == |Mine(s, token)|
  }

  class Samples {
    var rows: map<Id, Row>
    var tokens: nat

    function View(): State
      reads this
    {
      State(rows, tokens)
    }

    constructor ()
      ensures View() == State(map[], 0)
    {
      rows, tokens := map[], 0;
    }

    /** What others do between two steps of a build. */
    method Others(es: seq<Event>)
      modifies this
      ensures View() == Run(old(View()), es)
    {
      for i := 0 to |es|
        invariant View() == Run(old(View()), es[..i])
      {
        assert es[..i + 1][..i] == es[..i];
        var t := Next(View(), es[i]);
        rows, tokens := t.rows, t.tokens;
      }
      assert es[..|es|] == es;
    }

    /** One update puts the token onto every selected row. */
    method ClaimRows(ids: Option<set<Id>>) returns (token: nat, claimed: nat)
      modifies this
      ensures View() == Next(old(View()), Claim(ids)) && token == tokens == old(tokens) + 1
      ensures claimed == |Selected(old(View()), ids)| && Mine(View(), token) <= Selected(old(View()), ids) + Mine(old(View()), token)
    {
      var chosen := Selected(View(), ids);
      tokens := tokens + 1;
      rows := map id | id in rows :: if id in chosen then rows[id].(token := tokens) else rows[id];
      return tokens, |chosen|;
    }

    /** The rows that carry the token, each once. */
    method ReadClaimed(token: nat) returns (read: seq<Claimed>)
      ensures IsRead(View(), token, read)
    {
      read := [];
      var left := Mine(View(), token);
      while left != {}
        invariant left <= Mine(View(), token) && |read| + |left| == |Mine(View(), token)|
        invariant forall i :: 0 <= i < |read| ==> read[i].0 in Mine(View(), token) - left && rows[read[i].0].text == read[i].1
        invariant forall i, j :: 0 <= i < j < |read| ==> read[i].0 != read[j].0
        decreases left
      {
        var id := Pick(left);
        read := read + [(id, rows[id].text)];
        left := left - {id};
      }
    }

    /** The vector lands only where the row still holds the text and the claim. */
    method WriteBack(id: Id, text: Text, token: nat, stamp: nat) returns (landed: bool)
      modifies this
      ensures View() == Next(old(View()), Write(id, text, token, stamp)) && landed == Lands(old(View()), id, text, token)
    {
      landed := id in rows && rows[id].text == text && rows[id].token == token;
      if landed { rows := rows[id := rows[id].(vector := Some(Vector(text, stamp, token)))]; }
    }

    /** One batch: every vector is written back or counted as failed. */
    method WriteBatch(batch: seq<Claimed>, usable: seq<bool>, token: nat, stamp: nat, env: seq<seq<Event>>)
      returns (built: nat, failed: nat)
      requires |usable| == |batch|
      modifies this
      ensures built + failed == |batch|
      ensures (View(), built) == BatchRun(old(View()), batch, usable, token, stamp, env)
    {
      built, failed := 0, 0;
      for j := 0 to |batch|
        invariant built + failed == j
        invariant (View(), built) == BatchRun(old(View()), batch[..j], usable[..j], token, stamp, env)
      {
        assert batch[..j + 1][..j] == batch[..j] && usable[..j + 1][..j] == usable[..j];
        Others(At(env, j));
        if !usable[j] {
          failed := failed + 1;
          continue;
        }
        var landed := WriteBack(batch[j].0, batch[j].1, token, stamp);
        if landed { built := built + 1; } else { failed := failed + 1; }
      }
      assert batch[..|batch|] == batch && usable[..|usable|] == usable;
    }

    /** Batch after batch until all are sent or one is not answered as it should be. */
    method SendBatches(found: seq<Claimed>, token: nat, answers: seq<Answer>, env: seq<seq<seq<Event>>>)
      returns (built: nat, failed: nat, batches: nat)
      modifies this
      ensures AllAnswered(found, answers, batches)
      ensures (View(), built) == BatchesRun(old(View()), found, token, answers, env, batches)
      ensures built + failed == if StartOf(batches) < |found| then StartOf(batches) else |found|
      ensures StartOf(batches) < |found| ==> !Answered(found, answers, batches)
    {
      ghost var before := View();
      built, failed, batches := 0, 0, 0;
      while StartOf(batches) < |found|
        invariant AllAnswered(found, answers, batches)
        invariant (View(), built) == BatchesRun(before, found, token, answers, env, batches)
        invariant built + failed == if StartOf(batches) < |found| then StartOf(batches) else |found|
        decreases |found| - StartOf(batches)
      {
        if !Answered(found, answers, batches) { return; }
        var b, x := SendNext(found, token, answers, env, batches, before, built);
        built, failed, batches := built + b, failed + x, batches + 1;
      }
    }

    /** The n-th batch, after those before it. */
    method SendNext(found: seq<Claimed>, token: nat, answers: seq<Answer>, env: seq<seq<seq<Event>>>, n: nat, ghost start: State, ghost built: nat)
      returns (b: nat, x: nat)
      requires AllAnswered(found, answers, n) && Answered(found, answers, n)
      requires (View(), built) == BatchesRun(start, found, token, answers, env, n)
      modifies this
      ensures AllAnswered(found, answers, n + 1) && b + x == |BatchAt(found, n)|
      ensures (View(), built + b) == BatchesRun(start, found, token, answers, env, n + 1)
    {
      var a := answers[n];
      b, x := WriteBatch(BatchAt(found, n), a.usable, token, a.stamp, At(env, n));
    }

    /** The whole build. On every way out the rows claimed are either built or failed, and
        the rows counted as built are those whose vector landed. early is what others do
        between the claim and the read, env what they do before each write. */
    method BuildVectors(ids: Option<set<Id>>, claimable: bool, readable: bool, answers: seq<Answer>,
                        early: seq<Event>, env: seq<seq<seq<Event>>>)
      returns (built: nat, failed: nat, outcome: Outcome, ghost found: seq<Claimed>, ghost batches: nat)
      requires forall id :: id in rows ==> rows[id].token <= tokens
      modifies this
      ensures built + failed == if claimable then |Selected(old(View()), ids)| else 0
      ensures outcome == ClaimFailed <==> !claimable
      ensures outcome == ReadFailed <==> claimable && !readable
      ensures outcome == ClaimFailed ==> View() == old(View()) && built == 0
      ensures outcome == ReadFailed ==> View() == Run(Next(old(View()), Claim(ids)), early) && built == 0
      ensures outcome in {EmbedFailed, Finished} ==>
                && IsRead(Run(Next(old(View()), Claim(ids)), early), old(tokens) + 1, found)
                && AllAnswered(found, answers, batches)
                && (View(), built) == BatchesRun(Run(Next(old(View()), Claim(ids)), early), found, old(tokens) + 1, answers, env, batches)
                && (outcome == Finished <==> StartOf(batches) >= |found|)
      ensures Inv(old(View())) && Atomic(early) && (forall e :: e in env ==> AllAtomic(e)) ==> Inv(View())
    {
      built, failed, found, batches := 0, 0, [], 0;
      if !claimable { return 0, 0, ClaimFailed, [], 0; }
      ghost var before := View();
      var token, claimed := ClaimRows(ids);
      Others(early);
      ghost var start := View();
      ClaimFits(before, ids, early);
      if !readable {
        failed := Settled(claimed, 0, 0);
        return 0, failed, ReadFailed, [], 0;
      }
      var read := ReadClaimed(token);
      ClaimCovers(before, ids, early, token);
      var lost := claimed - |read|;
      if lost > 0 { failed := lost; }
      var b, x, sent := SendBatches(read, token, answers, env);
      built, failed := b, failed + x;
      BuildFits(start, read, token, answers, env, sent);
      found, batches, outcome := read, sent, Finished;
      if StartOf(sent) < |read| {
        failed := failed + |BatchAt(read, sent)|;
        outcome := EmbedFailed;
      }
      failed := Settled(claimed, built, failed);
    }

    /** What runs on every exit: rows claimed and never sent are failed too. */
    static method Settled(claimed: nat, built: nat, failed: nat) returns (total: nat)
      requires built + failed <= claimed
      ensures built + total == claimed
    {
      var remaining := claimed - built - failed;
      total := failed;
      if remaining > 0 { total := total + remaining; }
    }
  }

  lemma {:induction false} ClaimFits(s: State, ids: Option<set<Id>>, early: seq<Event>)
    ensures Inv(s) && Atomic(early) ==> Inv(Run(Next(s, Claim(ids)), early))
  {
    if Inv(s) && Atomic(early) {
      StepKeeps(s, Claim(ids));
      AlwaysFits(Next(s, Claim(ids)), early);
    }
  }

  lemma {:induction false} BuildFits(s: State, rows: seq<Claimed>, token: nat, answers: seq<Answer>, env: seq<seq<seq<Event>>>, n: nat)
    requires AllAnswered(rows, answers, n)
    ensures Inv(s) && (forall e :: e in env ==> AllAtomic(e)) ==> Inv(BatchesRun(s, rows, token, answers, env, n).0)
  {
    if Inv(s) && forall e :: e in env ==> AllAtomic(e) { BuildKeeps(s, rows, token, answers, env, n); }
  }

  /** A build finds at most the rows it claimed. */
  lemma {:induction false} ClaimCovers(s: State, ids: Option<set<Id>>, early: seq<Event>, token: nat)
    requires token == s.tokens + 1 && forall id :: id in s.rows ==> s.rows[id].token <= s.tokens
    ensures |Mine(Run(Next(s, Claim(ids)), early), token)| <= |Selected(s, ids)|
  {
    var claimed := Next(s, Claim(ids));
    MineShrinks(claimed, early, token);
    assert Mine(claimed, token) <= Selected(s, ids);
    SubsetSize(Mine(Run(claimed, early), token), Selected(s, ids));
  }
}

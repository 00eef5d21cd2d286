/** Swapping a staged restore into place: a sequence of renames that can be cut short
    anywhere, run again any number of times, and must never lose either the old data or the
    staged data. */
module Restore {
  import opened Wrappers

  datatype Rel = DbDir | JournalDir | SecurityDir

  /** A directory has an identity of its own; complete says that it holds the file without
      which the gateway must not start. */
  datatype Dir = Dir(inode: nat, complete: bool)

  type Name = (nat, nat)
  type Tree = map<Rel, Dir>

  /** The live directories, the staged ones, every pre-restore directory, the pending marker
      and the name recorded for this restore's pre-restore directory. */
  datatype Fs = Fs(live: Tree, staged: Tree, asides: map<Name, Tree>, marker: bool, rec: Option<Name>)

  /** What the restore started from. */
  datatype Origin = Origin(previous: Tree, staged: Tree, asides: map<Name, Tree>)

  datatype Outcome = NotPending | Stopped | Incomplete | Applied

  const ORDER: seq<Rel> := [DbDir, JournalDir, SecurityDir]
  const LONGEST_RUN: nat := 12

  /** The database and the credential key are in place. */
  predicate Complete(t: Tree) {
    DbDir in t && t[DbDir].complete && SecurityDir in t && t[SecurityDir].complete
  }

  /** Staging publishes all three directories, none of them a live one. */
  ghost predicate Staging(o: Origin) {
    && (forall rel: Rel :: rel in o.staged)
    && (forall a, b: Rel :: a in o.previous && b in o.staged ==> o.previous[a].inode != o.staged[b].inode)
  }

  /** This restore's pre-restore directory; empty until something is moved there. */
  function Aside(fs: Fs, n: Option<Name>): Tree {
    if n.Some? && n.value in fs.asides then fs.asides[n.value] else map[]
  }

  /** Where the old and the staged directory of one name are. */
  ghost predicate Placed(fs: Fs, o: Origin, aside: Tree, rel: Rel) {
    && (rel in fs.staged ==>
          rel in o.staged && fs.staged[rel] == o.staged[rel] &&
          if rel in o.previous then
            if rel in fs.live then fs.live[rel] == o.previous[rel] && rel !in aside else rel in aside && aside[rel] == o.previous[rel]
          else rel !in fs.live && rel !in aside)
    && (rel !in fs.staged ==>
          && rel in o.staged && rel in fs.live && fs.live[rel] == o.staged[rel]
          && (rel in aside <==> rel in o.previous) && (rel in o.previous ==> aside[rel] == o.previous[rel]))
  }

  /** What every state between two file-system operations satisfies. n is the name of the
      pre-restore directory once it is recorded. */
  ghost predicate Inv(fs: Fs, o: Origin, n: Option<Name>) {
    && (forall rel :: Placed(fs, o, Aside(fs, n), rel))
    && (fs.marker ==> fs.rec == n)
    && (!fs.marker ==> fs.staged == map[] && Complete(o.staged))
    && (n.Some? ==> n.value !in o.asides && fs.asides - {n.value} == o.asides)
    && (n.None? ==> fs.asides == o.asides && fs.staged == o.staged)
    && (n.Some? && n.value in fs.asides ==> o.previous != map[])
  }

  /** The staged data is live, one pre-restore directory holds all the old data, if there was
      any, and nothing is left to install. */
  ghost predicate Ended(fs: Fs, o: Origin, n: Name) {
    && fs.live == o.staged && fs.staged == map[] && !fs.marker
    && Aside(fs, Some(n)) == o.previous && (n in fs.asides ==> o.previous != map[])
    && n !in o.asides && fs.asides - {n} == o.asides
  }

  /** The restore is finished: it has ended and the staging area is gone. */
  ghost predicate Done(fs: Fs, o: Origin, n: Name) { Ended(fs, o, n) && fs.rec.None? }

  /** The same directories with one of them under another name. */
  function Renamed(m: map<Name, Tree>, a: Name, b: Name): map<Name, Tree> {
    if a in m then (m - {a})[b := m[a]] else m
  }

  /** While the swap is under way, each old directory is in exactly one of the two places it
      may be in, and so is each staged one; and the marker outlives every directory not yet
      installed. */
  lemma {:induction false} OnePlaceEach(fs: Fs, o: Origin, n: Option<Name>, rel: Rel)
    requires Staging(o) && Inv(fs, o, n)
    ensures rel in o.previous ==>
      ((rel in fs.live && fs.live[rel] == o.previous[rel]) <==> !(rel in Aside(fs, n) && Aside(fs, n)[rel] == o.previous[rel]))
    ensures (rel in fs.staged && fs.staged[rel] == o.staged[rel]) <==> !(rel in fs.live && fs.live[rel] == o.staged[rel])
    ensures rel in fs.staged ==> fs.marker
  {
    assert Placed(fs, o, Aside(fs, n), rel);
    assert rel in o.staged;
  }

  /** Where a restore ends is determined by what it started from, but for the name recorded
      for the pre-restore directory. */
  lemma {:induction false} EndsAlike(a: Fs, b: Fs, o: Origin, n: Name, m: Name)
    requires Ended(a, o, n) && Ended(b, o, m)
    ensures b.(rec := a.rec) == a.(asides := Renamed(a.asides, n, m))
  {
    if n in a.asides {
      assert m in b.asides;
      assert a.asides - {n} == b.asides - {m};
      assert b.asides == (b.asides - {m})[m := o.previous];
    } else {
      assert m !in b.asides;
      assert a.asides - {n} == a.asides && b.asides - {m} == b.asides;
    }
  }

  /** Once the marker is gone the restore has ended. */
  lemma {:induction false} UnmarkedIsEnded(fs: Fs, o: Origin, n: Option<Name>)
    requires Staging(o) && Inv(fs, o, n) && !fs.marker
    ensures n.Some? && Ended(fs, o, n.value)
  {
    assert DbDir in o.staged;
    AllInstalled(fs, o, n);
  }

  // ---------------------------------------------------------------------------
  // One file-system operation at a time
  // ---------------------------------------------------------------------------

  /** Recording a name no directory has. */
  lemma {:induction false} FreshAside(before: Fs, after: Fs, o: Origin, name: Name)
    requires Inv(before, o, None) && before.marker && name !in before.asides
    requires after == before.(rec := Some(name))
    ensures Inv(after, o, Some(name))
  {
    assert after.asides - {name} == o.asides;
    forall rel ensures Placed(after, o, Aside(after, Some(name)), rel) {
      assert Placed(before, o, Aside(before, None), rel);
    }
  }

  lemma {:induction false} MadeAside(before: Fs, after: Fs, o: Origin, keep: Name, rel: Rel)
    requires Inv(before, o, Some(keep)) && rel in before.staged && rel in before.live
    requires after == before.(asides := if keep in before.asides then before.asides else before.asides[keep := map[]])
    ensures Inv(after, o, Some(keep)) && keep in after.asides
  {
    assert after.asides - {keep} == before.asides - {keep};
    assert Placed(before, o, Aside(before, Some(keep)), rel);
    forall r ensures Placed(after, o, Aside(after, Some(keep)), r) {
      assert Placed(before, o, Aside(before, Some(keep)), r);
    }
  }

  lemma {:induction false} MovedAside(before: Fs, after: Fs, o: Origin, keep: Name, rel: Rel)
    requires Inv(before, o, Some(keep)) && rel in before.staged && rel in before.live && keep in before.asides
    requires after == before.(live := before.live - {rel}, asides := before.asides[keep := before.asides[keep][rel := before.live[rel]]])
    ensures Inv(after, o, Some(keep))
  {
    assert after.asides - {keep} == before.asides - {keep};
    forall r ensures Placed(after, o, Aside(after, Some(keep)), r) {
      assert Placed(before, o, Aside(before, Some(keep)), r);
    }
  }

  lemma {:induction false} Installed(before: Fs, after: Fs, o: Origin, keep: Name, rel: Rel)
    requires Inv(before, o, Some(keep)) && before.marker && rel in before.staged && rel !in before.live
    requires after == before.(live := before.live[rel := before.staged[rel]], staged := before.staged - {rel})
    ensures Inv(after, o, Some(keep))
  {
    forall r ensures Placed(after, o, Aside(after, Some(keep)), r) {
      assert Placed(before, o, Aside(before, Some(keep)), r);
    }
  }

  lemma {:induction false} AllInstalled(fs: Fs, o: Origin, n: Option<Name>)
    requires Staging(o) && Inv(fs, o, n) && forall j :: 0 <= j < |ORDER| ==> ORDER[j] !in fs.staged
    ensures fs.staged == map[] && fs.live == o.staged && Aside(fs, n) == o.previous
  {
    forall rel: Rel ensures rel !in fs.staged && rel in fs.live && rel in o.staged && fs.live[rel] == o.staged[rel] {
      assert ORDER[if rel == DbDir then 0 else if rel == JournalDir then 1 else 2] == rel;
      assert Placed(fs, o, Aside(fs, n), rel);
    }
    forall rel ensures rel in Aside(fs, n) <==> rel in o.previous
               ensures rel in o.previous ==> rel in Aside(fs, n) && Aside(fs, n)[rel] == o.previous[rel] {
      assert Placed(fs, o, Aside(fs, n), rel);
    }
  }

  /** Removing the marker, and what is left of the staging area after it, moves nothing. */
  lemma {:induction false} Unmarked(before: Fs, after: Fs, o: Origin, n: Option<Name>)
    requires Inv(before, o, n) && before.staged == map[] && Complete(o.staged)
    requires after.live == before.live && after.asides == before.asides && after.staged == map[] && !after.marker
    requires n.Some?
    ensures Inv(after, o, n)
  {
    forall rel ensures Placed(after, o, Aside(after, n), rel) {
      assert Placed(before, o, Aside(before, n), rel);
    }
  }

  class DataDir {
    var live: Tree
    var staged: Tree
    var asides: map<Name, Tree>
    var marker: bool
    var rec: Option<Name>

    function View(): Fs
      reads this
    {
      Fs(live, staged, asides, marker, rec)
    }

    /** A data directory with no restore under way. */
    constructor (current: Tree, earlier: map<Name, Tree>)
      ensures View() == Fs(current, map[], earlier, false, None)
    {
      live, staged, asides, marker, rec := current, map[], earlier, false, None;
    }

    /** Publishing a validated archive: refused while a restore is pending; what a finished one
        left of its staging area is dropped first. */
    method Stage(archive: Tree) returns (ok: bool)
      requires Staging(Origin(live, archive, asides))
      modifies this`staged, this`marker, this`rec
      ensures ok == !old(marker) && (!ok ==> View() == old(View()))
      ensures ok ==> View() == Fs(live, archive, asides, true, None)
      ensures ok ==> Inv(View(), Origin(live, archive, asides), None)
    {
      if marker { return false; }
      staged, rec := map[], None;
      staged, marker := archive, true;
      return true;
    }

    /** The time, with a number appended while some directory has that name. */
    method FreeName(clock: nat) returns (name: Name)
      ensures name !in asides && name.0 == clock
    {
      name := (clock, 0);
      ghost var tried: set<Name> := {};
      while name in asides
        invariant name.0 == clock && tried <= asides.Keys
        invariant forall t :: t in tried ==> t.0 == clock && t.1 < name.1
        decreases |asides.Keys - tried|
      {
        assert name !in tried;
        tried := tried + {name};
        name := (clock, name.1 + 1);
      }
    }

    /** The recorded name, or a new one that no directory has yet. */
    method AsideDir(clock: nat, budget: nat, ghost o: Origin, ghost n: Option<Name>) returns (name: Name, left: nat, alive: bool)
      requires Inv(View(), o, n) && marker
      modifies this`rec
      ensures alive ==> Inv(View(), o, Some(name)) && rec == Some(name) && left + 1 >= budget
      ensures !alive ==> budget == 0 && View() == old(View())
      ensures n.Some? && alive ==> n == Some(name)
    {
      left, alive := budget, true;
      if rec.Some? { return rec.value, left, true; }
      name := FreeName(clock);
      if left == 0 { return name, left, false; }
      left := left - 1;
      rec := Some(name);
      FreshAside(old(View()), View(), o, name);
    }

    /** One directory: the live one is moved aside, then the staged one is moved in, unless an
        earlier run has done so. */
    method Swap(rel: Rel, keep: Name, budget: nat, ghost o: Origin) returns (left: nat, alive: bool)
      requires Inv(View(), o, Some(keep)) && marker
      modifies this
      ensures Inv(View(), o, Some(keep)) && marker && rec == old(rec)
      ensures alive ==> rel !in staged && left + 3 >= budget
      ensures !alive ==> budget < 3
      ensures staged.Keys <= old(staged).Keys
    {
      left, alive := budget, true;
      assert Placed(View(), o, Aside(View(), Some(keep)), rel);
      if rel !in staged { return; }
      if rel in live {
        if left == 0 { return left, false; }
        left := left - 1;
        ghost var before := View();
        if keep !in asides { asides := asides[keep := map[]]; }
        MadeAside(before, View(), o, keep, rel);
        if left == 0 { return left, false; }
        left := left - 1;
        before := View();
        asides := asides[keep := asides[keep][rel := live[rel]]];
        live := live - {rel};
        MovedAside(before, View(), o, keep, rel);
      }
      if left == 0 { return left, false; }
      left := left - 1;
      ghost var before := View();
      live := live[rel := staged[rel]];
      staged := staged - {rel};
      Installed(before, View(), o, keep, rel);
    }

    /** budget is how many file-system operations take effect before the process dies, or
        before one of them fails. */
    method ApplyPending(clock: nat, budget: nat, ghost o: Origin, ghost n: Option<Name>)
      returns (outcome: Outcome, ghost m: Option<Name>)
      requires Staging(o) && Inv(View(), o, n)
      modifies this
      ensures Inv(View(), o, m) && (n.Some? ==> m == n)
      ensures outcome == NotPending <==> !old(marker)
      ensures outcome == NotPending ==> View() == old(View())
      ensures outcome == Stopped ==> budget < LONGEST_RUN
      ensures outcome == Incomplete ==> !Complete(o.staged) && marker && live == o.staged
      ensures outcome == Applied ==> m.Some? && Done(View(), o, m.value)
    {
      m := n;
      if !marker { return NotPending, n; }
      var keep: Name, left: nat, alive: bool := AsideDir(clock, budget, o, n);
      if !alive { return Stopped, n; }
      m := Some(keep);
      for i := 0 to |ORDER|
        invariant Inv(View(), o, m) && marker && rec == m
        invariant left + 1 + 3 * i >= budget
        invariant forall j :: 0 <= j < i ==> ORDER[j] !in staged
      {
        left, alive := Swap(ORDER[i], keep, left, o);
        if !alive { return Stopped, m; }
      }
      AllInstalled(View(), o, m);
      if DbDir !in live || !live[DbDir].complete || SecurityDir !in live || !live[SecurityDir].complete { return Incomplete, m; }
      if left == 0 { return Stopped, m; }
      left := left - 1;
      ghost var before := View();
      marker := false;
      Unmarked(before, View(), o, m);
      if left == 0 { return Stopped, m; }
      staged, rec := map[], None;
      Unmarked(before, View(), o, m);
      return Applied, m;
    }

    /** Any number of starts, each with a run cut short wherever it is. Once one of them is
        long enough, an archive that holds the required files is live; until then nothing is
        lost. */
    method Starts(clock: nat, budgets: seq<nat>, ghost o: Origin) returns (ghost m: Option<Name>)
      requires Staging(o) && Inv(View(), o, None)
      modifies this
      ensures Inv(View(), o, m)
      ensures Complete(o.staged) && LongEnough(budgets) ==> m.Some? && Ended(View(), o, m.value)
      ensures !Complete(o.staged) ==> marker
    {
      m := None;
      for i := 0 to |budgets|
        invariant Inv(View(), o, m)
        invariant Complete(o.staged) && (exists j :: 0 <= j < i && budgets[j] >= LONGEST_RUN) ==> !marker
      {
        var outcome;
        outcome, m := ApplyPending(clock + i, budgets[i], o, m);
      }
      if !marker { UnmarkedIsEnded(View(), o, m); }
    }
  }

  predicate LongEnough(budgets: seq<nat>) { exists i :: 0 <= i < |budgets| && budgets[i] >= LONGEST_RUN }

  /** However often and wherever two restores of the same archive over the same data are cut
      short, at whatever times, they end alike: a resumed one where an uninterrupted one does. */
  method SameEnd(current: Tree, archive: Tree, earlier: map<Name, Tree>, clockA: nat, budgetsA: seq<nat>, clockB: nat, budgetsB: seq<nat>)
    returns (a: DataDir, b: DataDir, ghost n: Name, ghost m: Name)
    requires Staging(Origin(current, archive, earlier)) && Complete(archive) && LongEnough(budgetsA) && LongEnough(budgetsB)
    ensures a.live == archive && b.View().(rec := a.rec) == a.View().(asides := Renamed(a.asides, n, m))
  {
    ghost var o := Origin(current, archive, earlier);
    a := new DataDir(current, earlier);
    b := new DataDir(current, earlier);
    var _ := a.Stage(archive);
    var _ := b.Stage(archive);
    ghost var p := a.Starts(clockA, budgetsA, o);
    ghost var q := b.Starts(clockB, budgetsB, o);
    n, m := p.value, q.value;
    EndsAlike(a.View(), b.View(), o, n, m);
  }
}

/** Requests and tokens per minute, counted in a ring of sixty one-second slots that are reset
    when they are next used. The ring must agree with the full log of what was counted. */
module RateWindow {
  import opened Wrappers

  const SLOTS := 60
  const MAX_IDLE_MS := 600000

  /** What was counted, and when, in milliseconds. */
  datatype Entry = Entry(ms: nat, reqs: int, toks: int)

  datatype Ring = Ring(reqs: seq<int>, toks: seq<int>, stamps: seq<int>, seen: nat)

  predicate Sized(r: Ring) { |r.reqs| == SLOTS && |r.toks| == SLOTS && |r.stamps| == SLOTS }

  function EmptyRing(now: nat): Ring {
    Ring(seq(SLOTS, _ => 0), seq(SLOTS, _ => 0), seq(SLOTS, _ => 0), now)
  }

  function Second(ms: nat): nat { ms / 1000 }

  // ---------------------------------------------------------------------------
  // The log
  // ---------------------------------------------------------------------------

  /** Requests when k holds, tokens otherwise. */
  function Amount(e: Entry, k: bool): int { if k then e.reqs else e.toks }

  /** What was counted in the seconds from lo up to, not including, hi. */
  function Total(log: seq<Entry>, lo: int, hi: int, k: bool): int {
    if log == [] then 0 else
      var e := log[|log| - 1];
      Total(log[..|log| - 1], lo, hi, k) + (if lo <= Second(e.ms) < hi then Amount(e, k) else 0)
  }

  lemma {:induction false} TotalSnoc(log: seq<Entry>, e: Entry, lo: int, hi: int, k: bool)
    ensures Total(log + [e], lo, hi, k) == Total(log, lo, hi, k) + (if lo <= Second(e.ms) < hi then Amount(e, k) else 0)
  {
    assert (log + [e])[..|log|] == log;
  }

  lemma {:induction false} TotalNone(log: seq<Entry>, lo: int, hi: int, k: bool)
    requires forall e :: e in log ==> !(lo <= Second(e.ms) < hi)
    ensures Total(log, lo, hi, k) == 0
  {
    if log != [] {
      assert log == log[..|log| - 1] + [log[|log| - 1]];
      TotalNone(log[..|log| - 1], lo, hi, k);
    }
  }

  // ---------------------------------------------------------------------------
  // The ring
  // ---------------------------------------------------------------------------

  function Slots(r: Ring, k: bool): seq<int> { if k then r.reqs else r.toks }

  /** The slot of a second, emptied when it still stands for an earlier one. */
  function Touched(r: Ring, sec: nat): Ring
    requires Sized(r)
  {
    var i := sec % SLOTS;
    if r.stamps[i] != sec then Ring(r.reqs[i := 0], r.toks[i := 0], r.stamps[i := sec], r.seen) else r
  }

  function Booked(r: Ring, sec: nat, reqs: int, toks: int): Ring
    requires Sized(r)
  {
    var i := sec % SLOTS;
    var t := Touched(r, sec);
    t.(reqs := t.reqs[i := t.reqs[i] + reqs], toks := t.toks[i := t.toks[i] + toks])
  }

  /** The sum over slots lo up to, not including, hi that stand for the last minute. */
  function SlotSum(r: Ring, now: nat, lo: nat, hi: nat, k: bool): int
    requires Sized(r) && lo <= hi <= SLOTS
  {
    if lo == hi then 0 else
      SlotSum(r, now, lo, hi - 1, k) + (if r.stamps[hi - 1] >= now - 59 then Slots(r, k)[hi - 1] else 0)
  }

  /** What a slot holds was counted in the second it stands for. It is all of that while the
      second can still be summed up whole; a slot never used holds nothing. */
  predicate SlotOk(r: Ring, log: seq<Entry>, last: nat, i: nat, k: bool)
    requires Sized(r) && i < SLOTS
  {
    var t := r.stamps[i];
    && 0 <= t <= last
    && 0 <= Slots(r, k)[i] <= Total(log, t, t + 1, k)
    && (t % SLOTS != i ==> Slots(r, k)[i] == 0)
    && (t % SLOTS == i && t >= last - 59 ==> Slots(r, k)[i] == Total(log, t, t + 1, k))
  }

  /** Nothing was counted in a second that no slot stands for. */
  predicate SecondOk(r: Ring, log: seq<Entry>, t: nat, k: bool)
    requires Sized(r)
  {
    r.stamps[t % SLOTS] != t ==> Total(log, t, t + 1, k) == 0
  }

  predicate NonNegative(log: seq<Entry>) { forall e :: e in log ==> e.reqs >= 0 && e.toks >= 0 }

  predicate NoneAfter(log: seq<Entry>, last: nat) { forall e :: e in log ==> Second(e.ms) <= last }

  /** The ring agrees with the log on the latest second counted and the 59 before it. */
  ghost predicate Agrees(r: Ring, log: seq<Entry>, last: nat) {
    && Sized(r) && NonNegative(log) && NoneAfter(log, last)
    && (forall i, k :: 0 <= i < SLOTS ==> SlotOk(r, log, last, i, k))
    && (forall t: nat, k :: last - 59 <= t <= last ==> SecondOk(r, log, t, k))
  }

  function Later(a: nat, b: nat): nat { if a >= b then a else b }

  /** What was counted from second lo up to hi in the first m places of the ring. */
  function ByPlace(log: seq<Entry>, lo: int, hi: int, m: nat, k: bool): int {
    if log == [] then 0 else
      var e := log[|log| - 1];
      ByPlace(log[..|log| - 1], lo, hi, m, k) + (if lo <= Second(e.ms) < hi && Second(e.ms) % SLOTS < m then Amount(e, k) else 0)
  }

  lemma {:induction false} AllPlaces(log: seq<Entry>, lo: int, hi: int, k: bool)
    ensures ByPlace(log, lo, hi, SLOTS, k) == Total(log, lo, hi, k) && ByPlace(log, lo, hi, 0, k) == 0
  {
    if log != [] { AllPlaces(log[..|log| - 1], lo, hi, k); }
  }

  /** One more place holds at least what any one of its seconds does, and no more in a minute. */
  lemma {:induction false} OnePlaceMore(log: seq<Entry>, lo: int, hi: int, t: int, k: bool)
    requires NonNegative(log) && lo <= t < hi
    ensures var m := t % SLOTS;
            && ByPlace(log, lo, hi, m + 1, k) >= ByPlace(log, lo, hi, m, k) + Total(log, t, t + 1, k)
            && (hi - lo <= SLOTS ==> ByPlace(log, lo, hi, m + 1, k) == ByPlace(log, lo, hi, m, k) + Total(log, t, t + 1, k))
  {
    if log != [] {
      var init, e := log[..|log| - 1], log[|log| - 1];
      assert log == init + [e] && e in log;
      OnePlaceMore(init, lo, hi, t, k);
      if hi - lo <= SLOTS && lo <= Second(e.ms) < hi && Second(e.ms) % SLOTS == t % SLOTS { SamePlace(Second(e.ms), t); }
    }
  }

  lemma {:induction false} PlacesGrow(log: seq<Entry>, lo: int, hi: int, m: nat, k: bool)
    requires NonNegative(log)
    ensures ByPlace(log, lo, hi, m + 1, k) >= ByPlace(log, lo, hi, m, k)
  {
    if log != [] {
      assert log == log[..|log| - 1] + [log[|log| - 1]];
      PlacesGrow(log[..|log| - 1], lo, hi, m, k);
    }
  }

  /** Two seconds less than a minute apart that share a place are the same. */
  lemma {:induction false} SamePlace(a: int, b: int)
    requires -SLOTS < a - b < SLOTS && a % SLOTS == b % SLOTS
    ensures a == b
  {
  }

  lemma {:induction false} SecondAt(top: nat, m: nat) returns (t: int)
    requires m < SLOTS
    ensures top - 59 <= t <= top && t % SLOTS == m
  {
    t := top - (top - m) % SLOTS;
  }

  /** A second of the last minute is summed up whole, even by a call whose own time is earlier
      than the latest one counted. */
  lemma {:induction false} Stands(r: Ring, log: seq<Entry>, last: nat, now: nat, t: int, k: bool)
    requires Agrees(r, log, last) && last - 59 <= now && Later(last, now) - 59 <= t <= Later(last, now)
    ensures var i := t % SLOTS;
            (if r.stamps[i] >= now - 59 then Slots(r, k)[i] else 0) >= Total(log, t, t + 1, k)
  {
    assert SlotOk(r, log, last, t % SLOTS, k);
    if t > last || t < 0 { TotalNone(log, t, t + 1, k); } else { assert SecondOk(r, log, t, k); }
  }

  lemma {:induction false} SumAtLeast(r: Ring, log: seq<Entry>, last: nat, now: nat, m: nat, k: bool)
    requires Agrees(r, log, last) && last - 59 <= now && m <= SLOTS
    ensures var top := Later(last, now); SlotSum(r, now, 0, m, k) >= ByPlace(log, top - 59, top + 1, m, k)
  {
    var top: int := Later(last, now);
    if m == 0 {
      AllPlaces(log, top - 59, top + 1, k);
    } else {
      SumAtLeast(r, log, last, now, m - 1, k);
      var t := SecondAt(top, m - 1);
      OnePlaceMore(log, top - 59, top + 1, t, k);
      Stands(r, log, last, now, t, k);
    }
  }

  lemma {:induction false} SumAtMost(r: Ring, log: seq<Entry>, last: nat, now: nat, m: nat, k: bool)
    requires Agrees(r, log, last) && last - 59 <= now && m <= SLOTS
    ensures SlotSum(r, now, 0, m, k) <= ByPlace(log, now - 59, Later(last, now) + 1, m, k)
  {
    var hi := Later(last, now) + 1;
    if m == 0 {
      AllPlaces(log, now - 59, hi, k);
    } else {
      SumAtMost(r, log, last, now, m - 1, k);
      assert SlotOk(r, log, last, m - 1, k);
      var t := r.stamps[m - 1];
      if t >= now - 59 && t % SLOTS == m - 1 {
        OnePlaceMore(log, now - 59, hi, t, k);
      } else {
        PlacesGrow(log, now - 59, hi, m - 1, k);
      }
    }
  }

  /** What the ring sums up, against the full log. A call whose time is the latest so far sums
      up the current second and the 59 before it, exactly. One that is behind sums up at least
      the 60 seconds up to the latest one; of the seconds before those, which it should count
      too, it sums up what later ones have not displaced. */
  lemma {:induction false} SumIsTotal(r: Ring, log: seq<Entry>, last: nat, now: nat, k: bool)
    requires Agrees(r, log, last) && last - 59 <= now
    ensures var top := Later(last, now);
            Total(log, top - 59, top + 1, k) <= SlotSum(r, now, 0, SLOTS, k) <= Total(log, now - 59, top + 1, k)
  {
    var top: int := Later(last, now);
    SumAtLeast(r, log, last, now, SLOTS, k);
    SumAtMost(r, log, last, now, SLOTS, k);
    AllPlaces(log, top - 59, top + 1, k);
    AllPlaces(log, now - 59, top + 1, k);
  }

  lemma {:induction false} OtherSlot(r: Ring, log: seq<Entry>, last: nat, e: Entry, i: nat, k: bool)
    requires Agrees(r, log, last) && last - 59 <= Second(e.ms) && i < SLOTS && i != Second(e.ms) % SLOTS
    requires e.reqs >= 0 && e.toks >= 0
    ensures SlotOk(Booked(r, Second(e.ms), e.reqs, e.toks), log + [e], Later(last, Second(e.ms)), i, k)
  {
    assert SlotOk(r, log, last, i, k);
    TotalSnoc(log, e, r.stamps[i], r.stamps[i] + 1, k);
  }

  lemma {:induction false} OwnSlot(r: Ring, log: seq<Entry>, last: nat, e: Entry, k: bool)
    requires Agrees(r, log, last) && last - 59 <= Second(e.ms) && e.reqs >= 0 && e.toks >= 0
    ensures SlotOk(Booked(r, Second(e.ms), e.reqs, e.toks), log + [e], Later(last, Second(e.ms)), Second(e.ms) % SLOTS, k)
  {
    var sec := Second(e.ms);
    assert SlotOk(r, log, last, sec % SLOTS, k);
    TotalSnoc(log, e, sec, sec + 1, k);
    if sec > last { TotalNone(log, sec, sec + 1, k); } else { assert SecondOk(r, log, sec, k); }
  }

  lemma {:induction false} EmptySecond(r: Ring, log: seq<Entry>, last: nat, e: Entry, t: nat, k: bool)
    requires Agrees(r, log, last) && last - 59 <= Second(e.ms)
    requires Later(last, Second(e.ms)) - 59 <= t <= Later(last, Second(e.ms))
    ensures SecondOk(Booked(r, Second(e.ms), e.reqs, e.toks), log + [e], t, k)
  {
    var sec := Second(e.ms);
    TotalSnoc(log, e, t, t + 1, k);
    if t % SLOTS == sec % SLOTS { SamePlace(t, sec); }
    if t > last { TotalNone(log, t, t + 1, k); } else { assert SecondOk(r, log, t, k); }
  }

  /** Counting keeps the ring in agreement with the log, in any order of the times as long as
      none is a minute behind: a slot is then never taken back by an earlier second. */
  lemma {:induction false} BookedAgrees(r: Ring, log: seq<Entry>, last: nat, e: Entry)
    requires Agrees(r, log, last) && last - 59 <= Second(e.ms) && e.reqs >= 0 && e.toks >= 0
    ensures Agrees(Booked(r, Second(e.ms), e.reqs, e.toks), log + [e], Later(last, Second(e.ms)))
  {
    var sec := Second(e.ms);
    var b, top := Booked(r, sec, e.reqs, e.toks), Later(last, sec);
    forall i, k | 0 <= i < SLOTS ensures SlotOk(b, log + [e], top, i, k) {
      if i == sec % SLOTS { OwnSlot(r, log, last, e, k); } else { OtherSlot(r, log, last, e, i, k); }
    }
    forall t: nat, k | top - 59 <= t <= top ensures SecondOk(b, log + [e], t, k) {
      EmptySecond(r, log, last, e, t, k);
    }
  }

  /** As time goes by without counting the ring still agrees. */
  lemma {:induction false} LaterAgrees(r: Ring, log: seq<Entry>, last: nat, now: nat)
    requires Agrees(r, log, last) && last <= now
    ensures Agrees(r, log, now)
  {
    forall i, k | 0 <= i < SLOTS ensures SlotOk(r, log, now, i, k) { assert SlotOk(r, log, last, i, k); }
    forall t: nat, k | now - 59 <= t <= now ensures SecondOk(r, log, t, k) {
      if t > last { TotalNone(log, t, t + 1, k); } else { assert SecondOk(r, log, t, k); }
    }
  }

  /** A new ring agrees with a log in which nothing is recent. */
  lemma {:induction false} EmptyAgrees(log: seq<Entry>, seen: nat, now: nat)
    requires NonNegative(log) && forall e :: e in log ==> Second(e.ms) < now - 59
    ensures Agrees(EmptyRing(seen), log, now)
  {
    var r := EmptyRing(seen);
    forall i, k | 0 <= i < SLOTS ensures SlotOk(r, log, now, i, k) {
      TotalNonNegative(log, 0, 1, k);
      if now - 59 <= 0 { TotalNone(log, 0, 1, k); }
    }
    forall t: nat, k | now - 59 <= t <= now ensures SecondOk(r, log, t, k) {
      TotalNone(log, t, t + 1, k);
    }
  }

  lemma {:induction false} TotalNonNegative(log: seq<Entry>, lo: int, hi: int, k: bool)
    requires NonNegative(log)
    ensures Total(log, lo, hi, k) >= 0
  {
    if log != [] {
      assert log == log[..|log| - 1] + [log[|log| - 1]];
      TotalNonNegative(log[..|log| - 1], lo, hi, k);
    }
  }

  // ---------------------------------------------------------------------------
  // The limiter
  // ---------------------------------------------------------------------------

  datatype Verdict = Admitted | TooManyRequests | TooManyTokens

  datatype Call = Admit(id: string, rpm: int, tpm: int) | AddTokens(id: string, n: int) | Prune

  /** The rings in memory, the full log of every subject, and the time of the last call. */
  datatype State = State(rings: map<string, Ring>, logs: map<string, seq<Entry>>, last: nat)

  function LogOf(s: State, id: string): seq<Entry> { if id in s.logs then s.logs[id] else [] }

  function RingOf(rings: map<string, Ring>, id: string, now: nat): Ring {
    if id in rings then rings[id].(seen := now) else EmptyRing(now)
  }

  function Judge(r: Ring, rpm: int, tpm: int, now: nat): Verdict
    requires Sized(r)
  {
    if rpm > 0 && SlotSum(r, Second(now), 0, SLOTS, true) >= rpm then TooManyRequests
    else if tpm > 0 && SlotSum(r, Second(now), 0, SLOTS, false) >= tpm then TooManyTokens
    else Admitted
  }

  predicate AllSized(rings: map<string, Ring>) { forall id :: id in rings ==> Sized(rings[id]) }

  function Idle(r: Ring, now: nat): bool { r.seen < now - MAX_IDLE_MS }

  /** What one call leaves of the rings, and what it counted. */
  function Served(rings: map<string, Ring>, c: Call, now: nat): (map<string, Ring>, Option<Entry>)
    requires AllSized(rings)
  {
    match c
    case Admit(id, rpm, tpm) =>
      if rpm <= 0 && tpm <= 0 then (rings, None)
      else
        var r := RingOf(rings, id, now);
        if Judge(r, rpm, tpm, now) == Admitted then (rings[id := Booked(r, Second(now), 1, 0)], Some(Entry(now, 1, 0)))
        else (rings[id := r], None)
    case AddTokens(id, n) =>
      if n <= 0 then (rings, None) else (rings[id := Booked(RingOf(rings, id, now), Second(now), 0, n)], Some(Entry(now, 0, n)))
    case Prune => (map id | id in rings && !Idle(rings[id], now) :: rings[id], None)
  }

  function Subject(c: Call): string { if c.Prune? then "" else c.id }

  /** last is the latest time a call has read so far; a later caller may hold an earlier one. */
  function Next(s: State, c: Call, now: nat): State
    requires AllSized(s.rings)
  {
    var r := Served(s.rings, c, now);
    State(r.0, if r.1.Some? then s.logs[Subject(c) := LogOf(s, Subject(c)) + [r.1.value]] else s.logs, Later(s.last, now))
  }

  /** The clock is read before the lock is taken, so times reach the ring out of order; here
      by less than a minute. */
  predicate InReach(last: nat, now: nat) { Second(last) - 59 <= Second(now) }

  /** Every subject's ring agrees with its log; a subject without one has nothing recent. */
  ghost predicate Inv(s: State) {
    && AllSized(s.rings)
    && forall id :: SubjectOk(s.rings, LogOf(s, id), id, s.last)
  }

  ghost predicate SubjectOk(rings: map<string, Ring>, log: seq<Entry>, id: string, last: nat) {
    && NonNegative(log) && (forall e :: e in log ==> e.ms <= last)
    && if id in rings
       then Agrees(rings[id], log, Second(last)) && rings[id].seen <= last && NoneAfter(log, Second(rings[id].seen) + 59)
       else forall e :: e in log ==> Second(e.ms) < Second(last) - 59
  }

  lemma {:induction false} TouchedSubject(rings: map<string, Ring>, log: seq<Entry>, id: string, last: nat, now: nat)
    requires SubjectOk(rings, log, id, last) && InReach(last, now)
    ensures Agrees(RingOf(rings, id, now), log, Second(Later(last, now)))
    ensures NoneAfter(log, Second(now) + 59)
  {
    var top := Later(last, now);
    if id in rings {
      LaterAgrees(rings[id], log, Second(last), Second(top));
      assert Agrees(rings[id].(seen := now), log, Second(top)) by { SeenDoesNotMatter(rings[id], log, Second(top), now); }
    } else {
      EmptyAgrees(log, now, Second(top));
    }
  }

  lemma {:induction false} SeenDoesNotMatter(r: Ring, log: seq<Entry>, last: nat, now: nat)
    requires Agrees(r, log, last)
    ensures Agrees(r.(seen := now), log, last)
  {
    forall i, k | 0 <= i < SLOTS ensures SlotOk(r.(seen := now), log, last, i, k) { assert SlotOk(r, log, last, i, k); }
    forall t: nat, k | last - 59 <= t <= last ensures SecondOk(r.(seen := now), log, t, k) { assert SecondOk(r, log, t, k); }
  }

  lemma {:induction false} CountedSubject(rings: map<string, Ring>, log: seq<Entry>, id: string, last: nat, now: nat, reqs: nat, toks: nat)
    requires SubjectOk(rings, log, id, last) && InReach(last, now)
    ensures var b := Booked(RingOf(rings, id, now), Second(now), reqs, toks);
            Sized(b) && SubjectOk(rings[id := b], log + [Entry(now, reqs, toks)], id, Later(last, now))
  {
    TouchedSubject(rings, log, id, last, now);
    BookedAgrees(RingOf(rings, id, now), log, Second(Later(last, now)), Entry(now, reqs, toks));
  }

  lemma {:induction false} UncountedSubject(rings: map<string, Ring>, log: seq<Entry>, id: string, last: nat, now: nat)
    requires SubjectOk(rings, log, id, last) && InReach(last, now)
    ensures Sized(RingOf(rings, id, now)) && SubjectOk(rings[id := RingOf(rings, id, now)], log, id, Later(last, now))
    ensures SubjectOk(rings, log, id, Later(last, now))
  {
    TouchedSubject(rings, log, id, last, now);
    if id in rings { LaterAgrees(rings[id], log, Second(last), Second(Later(last, now))); }
  }

  /** Dropping a subject idle for ten minutes forgets nothing a window can still see. */
  lemma {:induction false} PrunedSubject(rings: map<string, Ring>, log: seq<Entry>, id: string, last: nat, now: nat)
    requires SubjectOk(rings, log, id, last) && InReach(last, now)
    ensures SubjectOk(map x | x in rings && !Idle(rings[x], now) :: rings[x], log, id, Later(last, now))
  {
    UncountedSubject(rings, log, id, last, now);
  }

  lemma {:induction false} SubjectFrame(a: map<string, Ring>, b: map<string, Ring>, log: seq<Entry>, id: string, now: nat)
    requires SubjectOk(a, log, id, now) && (id in a <==> id in b) && (id in a ==> a[id] == b[id])
    ensures SubjectOk(b, log, id, now)
  {
  }

  /** Every call keeps the rings in agreement with the logs, pruning included, also a call
      that read the clock before another one that entered first. */
  lemma {:induction false} InvStep(s: State, c: Call, now: nat)
    requires Inv(s) && InReach(s.last, now)
    ensures Inv(Next(s, c, now))
  {
    var t := Next(s, c, now);
    forall id ensures SubjectOk(t.rings, LogOf(t, id), id, t.last) {
      var log := LogOf(s, id);
      assert SubjectOk(s.rings, log, id, s.last);
      UncountedSubject(s.rings, log, id, s.last, now);
      if c.Prune? {
        PrunedSubject(s.rings, log, id, s.last, now);
      } else if id != c.id {
        SubjectFrame(s.rings, t.rings, log, id, t.last);
      } else if c.Admit? {
        CountedSubject(s.rings, log, id, s.last, now, 1, 0);
      } else if c.n > 0 {
        CountedSubject(s.rings, log, id, s.last, now, 0, c.n);
      }
    }
    NextSized(s, c, now);
  }

  lemma {:induction false} NextSized(s: State, c: Call, now: nat)
    requires Inv(s)
    ensures AllSized(Next(s, c, now).rings)
  {
  }

  /** The verdict against the full log: refused when the 60 seconds up to the latest time
      read hold too much, and only when they do so together with those before them that are
      still in the caller's own minute. For a caller with the latest time both are one. */
  lemma {:induction false} VerdictIs(s: State, id: string, rpm: int, tpm: int, now: nat)
    requires Inv(s) && InReach(s.last, now)
    ensures var r := RingOf(s.rings, id, now); var log := LogOf(s, id);
            var sec, top := Second(now), Second(Later(s.last, now));
            && Sized(r)
            && (Judge(r, rpm, tpm, now) != TooManyRequests ==> rpm > 0 ==> Total(log, top - 59, top + 1, true) < rpm)
            && (Judge(r, rpm, tpm, now) == TooManyRequests ==> rpm > 0 && Total(log, sec - 59, top + 1, true) >= rpm)
            && (Judge(r, rpm, tpm, now) == Admitted ==> tpm > 0 ==> Total(log, top - 59, top + 1, false) < tpm)
            && (Judge(r, rpm, tpm, now) == TooManyTokens ==> tpm > 0 && Total(log, sec - 59, top + 1, false) >= tpm)
  {
    var top := Second(Later(s.last, now));
    assert SubjectOk(s.rings, LogOf(s, id), id, s.last);
    TouchedSubject(s.rings, LogOf(s, id), id, s.last, now);
    SumIsTotal(RingOf(s.rings, id, now), LogOf(s, id), top, Second(now), true);
    SumIsTotal(RingOf(s.rings, id, now), LogOf(s, id), top, Second(now), false);
  }

  // ---------------------------------------------------------------------------
  // Whole runs
  // ---------------------------------------------------------------------------

  /** A call and the time it read; calls are listed in the order they take the lock. */
  datatype Timed = Timed(call: Call, at: nat)

  const EMPTY := State(map[], map[], 0)

  function Latest(calls: seq<Timed>): nat {
    if calls == [] then 0 else Later(Latest(calls[..|calls| - 1]), calls[|calls| - 1].at)
  }

  /** Every call's second is at most d behind the latest one before it. A clock that does not
      run back gives d = 0 when callers take the lock in the order they read it. */
  predicate Behind(calls: seq<Timed>, d: nat) {
    calls == [] ||
      (Behind(calls[..|calls| - 1], d) && Second(Latest(calls[..|calls| - 1])) - d <= Second(calls[|calls| - 1].at))
  }

  ghost function Run(calls: seq<Timed>): (s: State)
    ensures AllSized(s.rings)
  {
    if calls == [] then EMPTY else
      var t := calls[|calls| - 1];
      ServedSized(Run(calls[..|calls| - 1]).rings, t.call, t.at);
      Next(Run(calls[..|calls| - 1]), t.call, t.at)
  }

  lemma {:induction false} RunSnoc(calls: seq<Timed>, t: Timed)
    ensures Run(calls + [t]) == Next(Run(calls), t.call, t.at) && Latest(calls + [t]) == Later(Latest(calls), t.at)
    ensures forall d :: Behind(calls + [t], d) <==> Behind(calls, d) && Second(Latest(calls)) - d <= Second(t.at)
  {
    assert (calls + [t])[..|calls + [t]| - 1] == calls;
  }

  lemma {:induction false} ServedSized(rings: map<string, Ring>, c: Call, now: nat)
    requires AllSized(rings)
    ensures AllSized(Served(rings, c, now).0)
  {
  }

  lemma {:induction false} RunInv(calls: seq<Timed>, d: nat)
    requires Behind(calls, d) && d <= 59
    ensures Inv(Run(calls)) && Run(calls).last == Latest(calls)
  {
    if calls != [] {
      RunInv(calls[..|calls| - 1], d);
      InvStep(Run(calls[..|calls| - 1]), calls[|calls| - 1].call, calls[|calls| - 1].at);
    }
  }

  /** The requests in the n seconds up to t. */
  function Span(log: seq<Entry>, t: int, n: int): int { Total(log, t - n + 1, t + 1, true) }

  ghost predicate Limited(log: seq<Entry>, rpm: int, n: int) { forall t: int :: Span(log, t, n) <= rpm }

  /** Seconds that lie within others, as far as anything was counted, hold no more. */
  lemma {:induction false} SpanWithin(log: seq<Entry>, lo: int, hi: int, from: int, to: int)
    requires from <= lo && NonNegative(log) && forall e :: e in log ==> Second(e.ms) < to
    ensures Total(log, lo, hi, true) <= Total(log, from, to, true)
  {
    if log != [] {
      assert log == log[..|log| - 1] + [log[|log| - 1]];
      SpanWithin(log[..|log| - 1], lo, hi, from, to);
    }
  }

  /** One more request, admitted at most d seconds behind the latest second, keeps every 60 - d
      seconds within a limit that the minute up to the latest second has not reached. */
  lemma {:induction false} AdmittedKeepsLimit(log: seq<Entry>, e: Entry, rpm: int, d: nat, top: nat)
    requires Limited(log, rpm, 60 - d) && e.reqs == 1 && NonNegative(log) && NoneAfter(log, top)
    requires top - d <= Second(e.ms) <= top && Span(log, top, 60) < rpm
    ensures Limited(log + [e], rpm, 60 - d)
  {
    var n := 60 - d;
    forall t: int ensures Span(log + [e], t, n) <= rpm {
      TotalSnoc(log, e, t - 59 + d, t + 1, true);
      assert Span(log, t, n) <= rpm;
      if t - 59 + d <= Second(e.ms) <= t { SpanWithin(log, t - 59 + d, t + 1, top - 59, top + 1); }
    }
  }

  lemma {:induction false} TokensKeepLimit(log: seq<Entry>, e: Entry, rpm: int, n: int)
    requires Limited(log, rpm, n) && e.reqs == 0
    ensures Limited(log + [e], rpm, n)
  {
    forall t: int ensures Span(log + [e], t, n) <= rpm {
      TotalSnoc(log, e, t - n + 1, t + 1, true);
      assert Span(log, t, n) <= rpm;
    }
  }

  /** The requests per minute asked of one subject never change. */
  predicate Constant(calls: seq<Timed>, id: string, rpm: int) {
    forall t :: t in calls && t.call.Admit? && t.call.id == id ==> t.call.rpm == rpm
  }

  /** Under a constant limit, with calls at most d seconds behind one another, no 60 - d
      consecutive seconds hold more requests than the limit allows, whatever else is called,
      other subjects, tokens and pruning included. */
  lemma {:induction false} NeverMoreThanLimit(calls: seq<Timed>, id: string, rpm: int, d: nat)
    requires Behind(calls, d) && Constant(calls, id, rpm) && rpm > 0
    ensures Limited(LogOf(Run(calls), id), rpm, 60 - d)
  {
    if calls == [] || d > 59 {
      var log, n := LogOf(Run(calls), id), 60 - d;
      forall t: int ensures Span(log, t, n) <= rpm { TotalNone(log, t - n + 1, t + 1, true); }
    } else {
      var init, t := calls[..|calls| - 1], calls[|calls| - 1];
      assert calls == init + [t];
      NeverMoreThanLimit(init, id, rpm, d);
      RunInv(init, d);
      LimitStep(Run(init), t.call, t.at, id, rpm, d);
    }
  }

  lemma {:induction false} AdmitKeepsLimit(s: State, tpm: int, now: nat, id: string, rpm: int, d: nat)
    requires Inv(s) && d <= 59 && Second(s.last) - d <= Second(now) && rpm > 0
    requires Limited(LogOf(s, id), rpm, 60 - d)
    ensures Limited(LogOf(Next(s, Admit(id, rpm, tpm), now), id), rpm, 60 - d)
  {
    assert SubjectOk(s.rings, LogOf(s, id), id, s.last);
    VerdictIs(s, id, rpm, tpm, now);
    if Judge(RingOf(s.rings, id, now), rpm, tpm, now) == Admitted {
      AdmittedKeepsLimit(LogOf(s, id), Entry(now, 1, 0), rpm, d, Second(Later(s.last, now)));
    }
  }

  lemma {:induction false} LimitStep(s: State, c: Call, now: nat, id: string, rpm: int, d: nat)
    requires Inv(s) && d <= 59 && Second(s.last) - d <= Second(now) && rpm > 0
    requires Limited(LogOf(s, id), rpm, 60 - d) && (c.Admit? && c.id == id ==> c.rpm == rpm)
    ensures Limited(LogOf(Next(s, c, now), id), rpm, 60 - d)
  {
    if c.Admit? && c.id == id {
      AdmitKeepsLimit(s, c.tpm, now, id, rpm, d);
    } else {
      OtherKeepsLimit(s, c, now, id, rpm, 60 - d);
    }
  }

  lemma {:induction false} OtherKeepsLimit(s: State, c: Call, now: nat, id: string, rpm: int, n: int)
    requires AllSized(s.rings) && Limited(LogOf(s, id), rpm, n) && !(c.Admit? && c.id == id)
    ensures Limited(LogOf(Next(s, c, now), id), rpm, n)
  {
    if c.AddTokens? && c.id == id && c.n > 0 { TokensKeepLimit(LogOf(s, id), Entry(now, 0, c.n), rpm, n); }
  }

  // ---------------------------------------------------------------------------
  // Windows in real time
  // ---------------------------------------------------------------------------

  /** Requests counted from one instant up to and including another so many milliseconds on. */
  function Within(log: seq<Entry>, from: nat, ms: nat): int {
    if log == [] then 0 else
      var e := log[|log| - 1];
      Within(log[..|log| - 1], from, ms) + (if from <= e.ms <= from + ms then e.reqs else 0)
  }

  lemma {:induction false} WithinSnoc(log: seq<Entry>, e: Entry, from: nat, ms: nat)
    ensures Within(log + [e], from, ms) == Within(log, from, ms) + (if from <= e.ms <= from + ms then e.reqs else 0)
  {
    assert (log + [e])[..|log|] == log;
  }

  lemma {:induction false} WithinSeconds(log: seq<Entry>, from: nat, ms: nat, n: nat)
    requires ms <= 1000 * n && NonNegative(log)
    ensures Within(log, from, ms) <= Total(log, Second(from), Second(from) + n + 1, true)
  {
    if log != [] {
      assert log == log[..|log| - 1] + [log[|log| - 1]];
      WithinSeconds(log[..|log| - 1], from, ms, n);
    }
  }

  /** Any 59 - d seconds of real time hold at most the limit. */
  lemma {:induction false} RealTime(calls: seq<Timed>, id: string, rpm: int, d: nat, from: nat, ms: nat)
    requires Behind(calls, d) && Constant(calls, id, rpm) && rpm > 0 && ms <= 1000 * (59 - d)
    ensures Within(LogOf(Run(calls), id), from, ms) <= rpm
  {
    NeverMoreThanLimit(calls, id, rpm, d);
    RunInv(calls, d);
    var log := LogOf(Run(calls), id);
    assert SubjectOk(Run(calls).rings, log, id, Run(calls).last);
    WithinSeconds(log, from, ms, 59 - d);
    assert Span(log, Second(from) + 59 - d, 60 - d) <= rpm;
  }

  // ---------------------------------------------------------------------------
  // Neither bound can be improved
  // ---------------------------------------------------------------------------

  /** Requests are counted in the slot of second 41 only, which second 101 shares. */
  predicate OneSlot(r: Ring) { Sized(r) && forall i :: 0 <= i < SLOTS && i != 41 ==> r.reqs[i] == 0 }

  lemma {:induction false} OneSlotSum(r: Ring, sec: nat, m: nat)
    requires OneSlot(r) && m <= SLOTS
    ensures SlotSum(r, sec, 0, m, true) == if m > 41 && r.stamps[41] >= sec - 59 then r.reqs[41] else 0
  {
    if m > 0 { OneSlotSum(r, sec, m - 1); }
  }

  /** Subject k asking for one more request while its ring sums up to less than the limit. */
  lemma {:induction false} OneMore(calls: seq<Timed>, rpm: int, at: nat) returns (more: seq<Timed>)
    requires var r := RingOf(Run(calls).rings, "k", at);
             OneSlot(r) && rpm > 0 && (r.stamps[41] >= Second(at) - 59 ==> r.reqs[41] < rpm)
    requires Constant(calls, "k", rpm)
    ensures more == calls + [Timed(Admit("k", rpm, 0), at)] && Constant(more, "k", rpm)
    ensures LogOf(Run(more), "k") == LogOf(Run(calls), "k") + [Entry(at, 1, 0)]
    ensures Run(more).rings == Run(calls).rings["k" := Booked(RingOf(Run(calls).rings, "k", at), Second(at), 1, 0)]
    ensures Latest(more) == Later(Latest(calls), at)
    ensures forall d :: Behind(more, d) <==> Behind(calls, d) && Second(Latest(calls)) - d <= Second(at)
  {
    var t := Timed(Admit("k", rpm, 0), at);
    more := calls + [t];
    RunSnoc(calls, t);
    OneSlotSum(RingOf(Run(calls).rings, "k", at), Second(at), SLOTS);
  }

  /** Subject k's ring has n requests in its one slot, last used for second t. */
  ghost predicate Loaded(rings: map<string, Ring>, n: nat, t: int) {
    forall at :: var r := RingOf(rings, "k", at); OneSlot(r) && r.reqs[41] == n && r.stamps[41] == t
  }

  /** n requests from second 41 on, all of them in it and within ms of its last millisecond. */
  ghost predicate Burst(log: seq<Entry>, n: nat, ms: nat) {
    Within(log, 41999, ms) == n && forall hi :: hi > 41 ==> Total(log, 41, hi, true) == n
  }

  lemma {:induction false} LoadedMore(rings: map<string, Ring>, n: nat, t: int)
    requires Loaded(rings, n, t) && t <= 41 && (t != 41 ==> n == 0)
    ensures Loaded(rings["k" := Booked(RingOf(rings, "k", 41999), 41, 1, 0)], n + 1, 41)
  {
    assert OneSlot(RingOf(rings, "k", 41999));
  }

  lemma {:induction false} BurstMore(log: seq<Entry>, n: nat, ms: nat)
    requires Burst(log, n, ms)
    ensures Burst(log + [Entry(41999, 1, 0)], n + 1, ms)
  {
    var e := Entry(41999, 1, 0);
    WithinSnoc(log, e, 41999, ms);
    forall hi | hi > 41 ensures Total(log + [e], 41, hi, true) == n + 1 { TotalSnoc(log, e, 41, hi, true); }
  }

  /** One more request in second 41. */
  lemma {:induction false} OneBurst(calls: seq<Timed>, n: nat, t: int, rpm: int) returns (more: seq<Timed>)
    requires n < rpm && Loaded(Run(calls).rings, n, t) && t <= 41 && (t != 41 ==> n == 0)
    requires Behind(calls, 0) && Constant(calls, "k", rpm) && Latest(calls) <= 41999
    ensures more == calls + [Timed(Admit("k", rpm, 0), 41999)]
    ensures Behind(more, 0) && Constant(more, "k", rpm) && Latest(more) == 41999
    ensures LogOf(Run(more), "k") == LogOf(Run(calls), "k") + [Entry(41999, 1, 0)] && Loaded(Run(more).rings, n + 1, 41)
  {
    assert OneSlot(RingOf(Run(calls).rings, "k", 41999));
    more := OneMore(calls, rpm, 41999);
    LoadedMore(Run(calls).rings, n, t);
  }

  /** As many requests as the limit allows, all in second 41. */
  lemma {:induction false} BurstRun(n: nat, rpm: int, ms: nat) returns (calls: seq<Timed>)
    requires n <= rpm && rpm > 0
    ensures Behind(calls, 0) && Constant(calls, "k", rpm) && Latest(calls) <= 41999
    ensures Burst(LogOf(Run(calls), "k"), n, ms) && Loaded(Run(calls).rings, n, if n == 0 then 0 else 41)
  {
    if n == 0 {
      calls := [];
    } else {
      var init := BurstRun(n - 1, rpm, ms);
      calls := OneBurst(init, n - 1, if n == 1 then 0 else 41, rpm);
      BurstMore(LogOf(Run(init), "k"), n - 1, ms);
    }
  }

  lemma {:induction false} LoadedTaken(rings: map<string, Ring>, n: nat)
    requires Loaded(rings, n, 41)
    ensures Loaded(rings["k" := Booked(RingOf(rings, "k", 101000), 101, 0, 1)], 0, 101)
  {
    assert OneSlot(RingOf(rings, "k", 101000));
  }

  /** The burst, then tokens that take its slot for second 101. */
  lemma {:induction false} Displaced(rpm: nat, ms: nat) returns (calls: seq<Timed>)
    requires rpm > 0
    ensures Behind(calls, 0) && Constant(calls, "k", rpm) && Latest(calls) == 101000
    ensures Burst(LogOf(Run(calls), "k"), rpm, ms) && Loaded(Run(calls).rings, 0, 101)
  {
    var burst := BurstRun(rpm, rpm, ms);
    var t := Timed(AddTokens("k", 1), 101000);
    calls := burst + [t];
    RunSnoc(burst, t);
    var log, e := LogOf(Run(burst), "k"), Entry(101000, 0, 1);
    assert LogOf(Run(calls), "k") == log + [e];
    WithinSnoc(log, e, 41999, ms);
    forall hi | hi > 41 ensures Total(log + [e], 41, hi, true) == rpm { TotalSnoc(log, e, 41, hi, true); }
    LoadedTaken(Run(burst).rings, rpm);
  }

  /** One second more, or one millisecond more of real time, can hold a request above any
      limit: tokens booked in second 101 take the slot of the burst in second 41, and a
      caller up to d seconds behind does not see the burst any more. A whole minute behind,
      a single second can. */
  lemma {:induction false} BestPossible(rpm: int, d: nat, ms: nat) returns (calls: seq<Timed>)
    requires rpm > 0 && d <= 60 && ms > 1000 * (59 - d)
    ensures Behind(calls, d) && Constant(calls, "k", rpm)
    ensures Span(LogOf(Run(calls), "k"), 101 - d, 61 - d) == rpm + 1
    ensures d < 60 ==> Within(LogOf(Run(calls), "k"), 41999, ms) == rpm + 1
  {
    var before := Displaced(rpm, ms);
    var at := 1000 * (101 - d);
    assert OneSlot(RingOf(Run(before).rings, "k", at));
    calls := OneMore(before, rpm, at);
    BehindMore(before, d);
    var log := LogOf(Run(before), "k");
    TotalSnoc(log, Entry(at, 1, 0), 41, 102 - d, true);
    WithinSnoc(log, Entry(at, 1, 0), 41999, ms);
  }

  lemma {:induction false} BehindMore(calls: seq<Timed>, d: nat)
    requires Behind(calls, 0)
    ensures Behind(calls, d)
  {
    if calls != [] { BehindMore(calls[..|calls| - 1], d); }
  }

  const EARLY := Timed(Admit("k", 2, 0), 41999)

  lemma {:induction false} TwoEarly() returns (calls: seq<Timed>)
    ensures calls == [EARLY, EARLY] && Behind(calls, 0) && Constant(calls, "k", 2) && Latest(calls) == 41999
    ensures LogOf(Run(calls), "k") == [] + [Entry(41999, 1, 0)] + [Entry(41999, 1, 0)]
    ensures Loaded(Run(calls).rings, 2, 41)
  {
    assert Loaded(Run([]).rings, 0, 0);
    var one := OneBurst([], 0, 0, 2);
    calls := OneBurst(one, 1, 41, 2);
  }

  /** Under a limit of two, with a clock that never runs back: a caller that read 100.999 s
      takes the lock after one that read 101.000 s, and 60 consecutive seconds, and 59.000
      seconds of real time, hold three requests. */
  lemma {:induction false} OutOfOrder() returns (calls: seq<Timed>)
    ensures calls == [EARLY, EARLY, Timed(Admit("k", 2, 0), 101000), Timed(Admit("k", 2, 0), 100999)]
    ensures Behind(calls, 1) && Constant(calls, "k", 2)
    ensures Span(LogOf(Run(calls), "k"), 100, 60) == 3 && Within(LogOf(Run(calls), "k"), 41999, 59000) == 3
  {
    var two := TwoEarly();
    assert OneSlot(RingOf(Run(two).rings, "k", 101000));
    var three := OneMore(two, 2, 101000);
    assert RingOf(Run(three).rings, "k", 100999).reqs[41] == 1;
    calls := OneMore(three, 2, 100999);
    BehindMore(two, 1);
    ThreeCounted(LogOf(Run(calls), "k"));
  }

  lemma {:induction false} ThreeCounted(log: seq<Entry>)
    requires log == [] + [Entry(41999, 1, 0)] + [Entry(41999, 1, 0)] + [Entry(101000, 1, 0)] + [Entry(100999, 1, 0)]
    ensures Span(log, 100, 60) == 3 && Within(log, 41999, 59000) == 3
  {
    var first := [] + [Entry(41999, 1, 0)];
    CountOne([], Entry(41999, 1, 0));
    CountOne(first, Entry(41999, 1, 0));
    CountOne(first + [Entry(41999, 1, 0)], Entry(101000, 1, 0));
    CountOne(first + [Entry(41999, 1, 0)] + [Entry(101000, 1, 0)], Entry(100999, 1, 0));
  }

  lemma {:induction false} CountOne(log: seq<Entry>, e: Entry)
    ensures Span(log + [e], 100, 60) == Span(log, 100, 60) + (if 41 <= Second(e.ms) <= 100 then e.reqs else 0)
    ensures Within(log + [e], 41999, 59000) == Within(log, 41999, 59000) + (if 41999 <= e.ms <= 100999 then e.reqs else 0)
  {
    TotalSnoc(log, e, 41, 101, true);
    WithinSnoc(log, e, 41999, 59000);
  }

  // ---------------------------------------------------------------------------
  // The limiter's own objects
  // ---------------------------------------------------------------------------

  /** One subject's window; the three arrays are overwritten in place. */
  class Window {
    const reqs: array<int>
    const toks: array<int>
    const stamps: array<int>
    var seen: nat

    ghost predicate Valid() {
      && reqs.Length == toks.Length == stamps.Length == SLOTS
      && reqs != toks && reqs != stamps && toks != stamps
    }

    ghost function Repr(): set<object> { {this, reqs, toks, stamps} }

    ghost function View(): Ring
      reads Repr()
    {
      Ring(reqs[..], toks[..], stamps[..], seen)
    }

    constructor (now: nat)
      ensures Valid() && fresh(Repr()) && View() == EmptyRing(now)
    {
      reqs, toks, stamps := new int[SLOTS](_ => 0), new int[SLOTS](_ => 0), new int[SLOTS](_ => 0);
      seen := now;
      new;
      assert reqs[..] == seq(SLOTS, _ => 0) && toks[..] == seq(SLOTS, _ => 0) && stamps[..] == seq(SLOTS, _ => 0);
    }

    /** The slot of the current second, emptied when it is stale. */
    method Slot(now: nat) returns (i: nat)
      requires Valid()
      modifies reqs, toks, stamps
      ensures i == Second(now) % SLOTS && View() == Touched(old(View()), Second(now))
    {
      var sec := now / 1000;
      i := sec % SLOTS;
      if stamps[i] != sec {
        stamps[i] := sec;
        reqs[i], toks[i] := 0, 0;
      }
    }

    method Sums(now: nat) returns (rs: int, ts: int)
      requires Valid()
      ensures rs == SlotSum(View(), Second(now), 0, SLOTS, true) && ts == SlotSum(View(), Second(now), 0, SLOTS, false)
    {
      rs, ts := 0, 0;
      var min := now / 1000 - 59;
      for i := 0 to SLOTS
        invariant rs == SlotSum(View(), Second(now), 0, i, true) && ts == SlotSum(View(), Second(now), 0, i, false)
      {
        if stamps[i] >= min {
          rs := rs + reqs[i];
          ts := ts + toks[i];
        }
      }
    }

    method Count(now: nat, r: int, t: int)
      requires Valid()
      modifies reqs, toks, stamps
      ensures View() == Booked(old(View()), Second(now), r, t)
    {
      var i := Slot(now);
      reqs[i] := reqs[i] + r;
      toks[i] := toks[i] + t;
    }
  }

  lemma {:induction false} AdmitServes(rings: map<string, Ring>, id: string, rpm: int, tpm: int, now: nat)
    requires AllSized(rings) && (rpm > 0 || tpm > 0)
    ensures var r := RingOf(rings, id, now);
            Served(rings, Admit(id, rpm, tpm), now).0 ==
              if Judge(r, rpm, tpm, now) == Admitted then rings[id := r][id := Booked(r, Second(now), 1, 0)] else rings[id := r]
  {
    var r := RingOf(rings, id, now);
    assert rings[id := r][id := Booked(r, Second(now), 1, 0)] == rings[id := Booked(r, Second(now), 1, 0)];
  }

  lemma {:induction false} AddServes(rings: map<string, Ring>, id: string, n: int, now: nat)
    requires AllSized(rings) && n > 0
    ensures var r := RingOf(rings, id, now);
            Served(rings, AddTokens(id, n), now).0 == rings[id := r][id := Booked(r, Second(now), 0, n)]
  {
    var r := RingOf(rings, id, now);
    assert rings[id := r][id := Booked(r, Second(now), 0, n)] == rings[id := Booked(r, Second(now), 0, n)];
  }

  /** All subjects' windows. */
  class RateLimiter {
    var m: map<string, Window>

    ghost function Windows(): set<object>
      reads this
    {
      set id, o | id in m && o in m[id].Repr() :: o
    }

    /** The windows are whole and share nothing. */
    ghost predicate Valid()
      reads this
    {
      && (forall id :: id in m ==> m[id].Valid() && this !in m[id].Repr())
      && (forall a, b :: a in m && b in m && a != b ==> m[a].Repr() !! m[b].Repr())
    }

    ghost function View(): (r: map<string, Ring>)
      requires Valid()
      reads this, Windows()
      ensures AllSized(r)
    {
      map id | id in m :: m[id].View()
    }

    constructor ()
      ensures Valid() && View() == map[]
    {
      m := map[];
    }

    /** A change to one window leaves the rest of the others' objects alone. */
    twostate lemma RestStays(id: string)
      requires old(Valid()) && id in old(m)
      requires forall o: object :: o in old(Windows()) && o !in old(m)[id].Repr() ==> unchanged(o)
      ensures forall a :: a in old(m) && a != id ==> old(m)[a].View() == old(m[a].View())
    {
      forall a | a in old(m) && a != id ensures old(m)[a].View() == old(m[a].View()) {
        assert old(m)[a].Repr() !! old(m)[id].Repr();
        forall o: object | o in old(m)[a].Repr() ensures unchanged(o) { assert o in old(Windows()); }
      }
    }

    /** A change to one window leaves the others as they were. */
    twostate lemma OthersStay(id: string)
      requires old(Valid()) && id in old(m) && m == old(m)
      requires forall o: object :: o in old(Windows()) && o !in m[id].Repr() ==> unchanged(o)
      ensures Valid() && View() == old(View())[id := m[id].View()]
    {
      StaysValid();
      RestStays(id);
    }

    twostate lemma StaysValid()
      requires old(Valid()) && m == old(m)
      ensures Valid()
    {
    }

    twostate lemma OldStay()
      requires old(Valid())
      requires forall o: object :: o in old(Windows()) ==> unchanged(o)
      ensures forall a :: a in old(m) ==> old(m)[a].View() == old(m[a].View())
    {
      forall a | a in old(m) ensures old(m)[a].View() == old(m[a].View()) {
        forall o: object | o in old(m)[a].Repr() ensures unchanged(o) { assert o in old(Windows()); }
      }
    }

    /** A new window shares nothing with the old ones. */
    twostate lemma AddedApart(id: string)
      requires old(Valid()) && id !in old(m) && id in m && m == old(m)[id := m[id]]
      requires m[id].Valid() && fresh(m[id].Repr()) && this !in m[id].Repr()
      ensures Valid()
    {
      forall a, o: object | a in old(m) && o in m[a].Repr() ensures o !in m[id].Repr() { assert o in old(Windows()); }
    }

    twostate lemma AddedFresh(id: string)
      requires id !in old(m) && id in m && m == old(m)[id := m[id]] && fresh(m[id].Repr())
      ensures fresh(Windows() - old(Windows()))
    {
      forall a, o: object | a in old(m) && o in old(m)[a].Repr() ensures o in old(Windows()) {}
      forall o: object | o in Windows() - old(Windows()) ensures fresh(o) {
        var a :| a in m && o in m[a].Repr();
        assert a == id;
      }
    }

    twostate lemma AddedView(id: string)
      requires old(Valid()) && Valid() && id !in old(m) && id in m && m == old(m)[id := m[id]]
      requires forall o: object :: o in old(Windows()) ==> unchanged(o)
      ensures View() == old(View())[id := m[id].View()]
    {
      OldStay();
    }

    /** A new window beside the others. */
    twostate lemma Added(id: string)
      requires old(Valid()) && id !in old(m) && id in m && m == old(m)[id := m[id]]
      requires m[id].Valid() && fresh(m[id].Repr()) && this !in m[id].Repr()
      requires forall o: object :: o in old(Windows()) ==> unchanged(o)
      ensures Valid() && View() == old(View())[id := m[id].View()] && fresh(Windows() - old(Windows()))
    {
      AddedApart(id);
      AddedFresh(id);
      AddedView(id);
    }

    method Create(id: string, now: nat)
      requires Valid() && id !in m
      modifies this`m
      ensures Valid() && id in m && View() == old(View())[id := EmptyRing(now)] && fresh(Windows() - old(Windows()))
    {
      var w := new Window(now);
      m := m[id := w];
      Added(id);
    }

    method Touch(id: string, now: nat)
      requires Valid() && id in m
      modifies m[id]
      ensures Valid() && m == old(m) && View() == old(View())[id := old(View())[id].(seen := now)]
    {
      m[id].seen := now;
      OthersStay(id);
    }

    method CountIn(id: string, now: nat, reqs: int, toks: int)
      requires Valid() && id in m
      modifies m[id].Repr()
      ensures Valid() && m == old(m) && View() == old(View())[id := Booked(old(View())[id], Second(now), reqs, toks)]
    {
      m[id].Count(now, reqs, toks);
      OthersStay(id);
    }

    /** The subject's window, made when it is missing. */
    method Of(id: string, now: nat) returns (ghost r: Ring)
      requires Valid()
      modifies this, Windows()
      ensures Valid() && id in m && fresh(Windows() - old(Windows()))
      ensures r == RingOf(old(View()), id, now) && View() == old(View())[id := r]
    {
      r := RingOf(View(), id, now);
      if id !in m { Create(id, now); }
      Touch(id, now);
    }

    /** Which limit the subject's sums have reached, if any. */
    method Check(id: string, rpm: int, tpm: int, now: nat) returns (v: Verdict)
      requires Valid() && id in m
      ensures Valid() && m == old(m) && View() == old(View()) && v == Judge(View()[id], rpm, tpm, now)
    {
      var reqs, toks := m[id].Sums(now);
      if rpm > 0 && reqs >= rpm { return TooManyRequests; }
      if tpm > 0 && toks >= tpm { return TooManyTokens; }
      return Admitted;
    }

    /** The verdict on a subject, whose window is made when it is missing. */
    method Decide(id: string, rpm: int, tpm: int, now: nat) returns (v: Verdict, ghost r: Ring)
      requires Valid()
      modifies this, Windows()
      ensures Valid() && id in m && fresh(Windows() - old(Windows()))
      ensures r == RingOf(old(View()), id, now) && View() == old(View())[id := r]
      ensures v == Judge(r, rpm, tpm, now)
    {
      r := Of(id, now);
      v := Check(id, rpm, tpm, now);
    }

    /** Refuses over the limits, counts a request otherwise. */
    method Admit(id: string, rpm: int, tpm: int, now: nat) returns (v: Verdict)
      requires Valid()
      modifies this, Windows()
      ensures Valid() && View() == Served(old(View()), Call.Admit(id, rpm, tpm), now).0
      ensures v == if rpm <= 0 && tpm <= 0 then Admitted else Judge(RingOf(old(View()), id, now), rpm, tpm, now)
    {
      if rpm <= 0 && tpm <= 0 { return Admitted; }
      AdmitServes(View(), id, rpm, tpm, now);
      ghost var r;
      v, r := Decide(id, rpm, tpm, now);
      if v == Admitted {
        assert forall o: object :: o in m[id].Repr() ==> o in Windows();
        CountIn(id, now, 1, 0);
      }
    }

    method AddTokens(id: string, n: int, now: nat)
      requires Valid()
      modifies this, Windows()
      ensures Valid() && View() == Served(old(View()), Call.AddTokens(id, n), now).0
    {
      if n <= 0 { return; }
      ghost var before := View();
      ghost var r := Of(id, now);
      AddServes(before, id, n, now);
      assert forall o: object :: o in m[id].Repr() ==> o in Windows();
      CountIn(id, now, 0, n);
    }

    /** Drops subjects idle for too long. */
    method Prune(now: nat)
      requires Valid()
      modifies this`m
      ensures Valid() && View() == Served(old(View()), Call.Prune, now).0
    {
      var cut := now - MAX_IDLE_MS;
      m := map id | id in m && !(m[id].seen < cut) :: m[id];
      Pruned(now);
    }

    /** Fewer windows, each as it was. */
    twostate lemma Pruned(now: nat)
      requires old(Valid()) && m == map id | id in old(m) && !(old(m[id].seen) < now - MAX_IDLE_MS) :: old(m)[id]
      requires forall id :: id in old(m) ==> old(m)[id].View() == old(m[id].View())
      ensures Valid() && View() == Served(old(View()), Call.Prune, now).0
    {
    }
  }
}

/** The global concurrency gate: callers that hold a slot, callers in the queue asleep or
    awake, and the wake-ups that are owed after the lock is let go. No free slot may be left
    with every waiter asleep. */
module Gate {
  type Caller = nat

  /** One critical section at a time; signals and broadcasts come after the lock is released. */
  datatype State = State(holders: set<Caller>, asleep: set<Caller>, awake: set<Caller>,
                         inflight: int, waiting: int, limit: int, queue: int, signals: nat, broadcasts: nat)

  function Start(limit: int, queue: int): State { State({}, {}, {}, 0, 0, limit, queue, 0, 0) }

  datatype Step =
    | Acquire(c: Caller, expired: bool)
    | Recheck(c: Caller, expired: bool)
    | Release(c: Caller)
    | Signal(c: Caller)
    | Configure(limit: int, queue: int)
    | Broadcast
    | TimerFires

  predicate HasRoom(s: State) { s.limit <= 0 || s.inflight < s.limit }

  predicate QueueFull(s: State) { s.queue > 0 && s.waiting >= s.queue }

  predicate Enabled(s: State, e: Step) {
    match e
    case Acquire(c, _) => c !in s.holders + s.asleep + s.awake
    case Recheck(c, _) => c in s.awake
    case Release(c) => c in s.holders
    case Signal(c) => s.signals > 0 && (s.asleep != {} ==> c in s.asleep)
    case Configure(_, _) => true
    case Broadcast => s.broadcasts > 0
    case TimerFires => true
  }

  function Next(s: State, e: Step): State {
    match e
    case Acquire(c, expired) =>
      if HasRoom(s) then s.(holders := s.holders + {c}, inflight := s.inflight + 1)
      else if QueueFull(s) || expired then s
      else s.(asleep := s.asleep + {c}, waiting := s.waiting + 1)
    case Recheck(c, expired) =>
      if HasRoom(s) then
        s.(awake := s.awake - {c}, holders := s.holders + {c}, waiting := s.waiting - 1, inflight := s.inflight + 1)
      else if expired then s.(awake := s.awake - {c}, waiting := s.waiting - 1)
      else s.(awake := s.awake - {c}, asleep := s.asleep + {c})
    case Release(c) => s.(holders := s.holders - {c}, inflight := s.inflight - 1, signals := s.signals + 1)
    case Signal(c) =>
      var t := s.(signals := if s.signals > 0 then s.signals - 1 else 0);
      if s.asleep == {} then t else t.(asleep := s.asleep - {c}, awake := s.awake + {c})
    case Configure(limit, queue) => s.(limit := limit, queue := queue, broadcasts := s.broadcasts + 1)
    case Broadcast => s.(broadcasts := if s.broadcasts > 0 then s.broadcasts - 1 else 0, awake := s.awake + s.asleep, asleep := {})
    case TimerFires => s.(awake := s.awake + s.asleep, asleep := {})
  }

  predicate IsRun(s: State, es: seq<Step>)
    decreases |es|
  {
    es == [] || (Enabled(s, es[0]) && IsRun(Next(s, es[0]), es[1..]))
  }

  function Run(s: State, es: seq<Step>): State
    decreases |es|
  {
    if es == [] then s else Run(Next(s, es[0]), es[1..])
  }

  // ---------------------------------------------------------------------------
  // The gate as its callers use it, one critical section a method
  // ---------------------------------------------------------------------------

  datatype Verdict = Granted | Busy | TimedOut | Waits

  class Lock {
    var inflight: int
    var waiting: int
    var limit: int
    var queue: int
    ghost var holders: set<Caller>
    ghost var asleep: set<Caller>
    ghost var awake: set<Caller>
    ghost var signals: nat
    ghost var broadcasts: nat

    ghost function View(): State
      reads this
    {
      State(holders, asleep, awake, inflight, waiting, limit, queue, signals, broadcasts)
    }

    constructor (limit: int, queue: int)
      ensures View() == Start(limit, queue)
    {
      this.limit, this.queue, inflight, waiting := limit, queue, 0, 0;
      holders, asleep, awake, signals, broadcasts := {}, {}, {}, 0, 0;
    }

    /** Entering: a slot, a refusal, or a place in the queue. */
    method Enter(ghost c: Caller, expired: bool) returns (v: Verdict)
      requires Enabled(View(), Acquire(c, expired))
      modifies this
      ensures View() == Next(old(View()), Acquire(c, expired))
      ensures v == Granted <==> c in holders
      ensures v == Waits <==> c in asleep
      ensures v == Busy <==> !old(HasRoom(View())) && old(QueueFull(View()))
    {
      if limit <= 0 || inflight < limit {
        inflight := inflight + 1;
        holders := holders + {c};
        return Granted;
      }
      if queue > 0 && waiting >= queue { return Busy; }
      waiting := waiting + 1;
      if expired {
        waiting := waiting - 1;
        return TimedOut;
      }
      asleep := asleep + {c};
      return Waits;
    }

    /** One turn of the wait loop after a wake-up. */
    method Again(ghost c: Caller, expired: bool) returns (v: Verdict)
      requires Enabled(View(), Recheck(c, expired)) && c !in holders && c !in asleep
      modifies this
      ensures View() == Next(old(View()), Recheck(c, expired))
      ensures v == Granted <==> c in holders
      ensures v == Waits <==> c in asleep
    {
      awake := awake - {c};
      if limit <= 0 || inflight < limit {
        waiting, inflight := waiting - 1, inflight + 1;
        holders := holders + {c};
        return Granted;
      }
      if expired {
        waiting := waiting - 1;
        return TimedOut;
      }
      asleep := asleep + {c};
      return Waits;
    }

    method Leave(ghost c: Caller)
      requires Enabled(View(), Release(c))
      modifies this
      ensures View() == Next(old(View()), Release(c))
    {
      inflight := inflight - 1;
      holders, signals := holders - {c}, signals + 1;
    }

    method Reconfigure(limit: int, queue: int)
      modifies this
      ensures View() == Next(old(View()), Configure(limit, queue))
    {
      this.limit, this.queue := limit, queue;
      broadcasts := broadcasts + 1;
    }
  }

  // ---------------------------------------------------------------------------
  // Counts and owed wake-ups
  // ---------------------------------------------------------------------------

  /** The gate as numbers only. */
  datatype Nums = Nums(holders: int, asleep: int, awake: int, inflight: int, waiting: int, limit: int, queue: int,
                       signals: int, broadcasts: int)

  function Count(s: State): Nums {
    Nums(|s.holders|, |s.asleep|, |s.awake|, s.inflight, s.waiting, s.limit, s.queue, s.signals, s.broadcasts)
  }

  predicate Room(n: Nums) { n.limit <= 0 || n.inflight < n.limit }

  predicate Possible(n: Nums, e: Step) {
    && (e.Recheck? ==> n.awake > 0) && (e.Release? ==> n.holders > 0) && (e.Signal? ==> n.signals > 0)
    && (e.Broadcast? ==> n.broadcasts > 0)
  }

  function NextNums(n: Nums, e: Step): Nums {
    match e
    case Acquire(_, expired) =>
      if Room(n) then n.(holders := n.holders + 1, inflight := n.inflight + 1)
      else if (n.queue > 0 && n.waiting >= n.queue) || expired then n
      else n.(asleep := n.asleep + 1, waiting := n.waiting + 1)
    case Recheck(_, expired) =>
      if Room(n) then
        n.(awake := n.awake - 1, holders := n.holders + 1, waiting := n.waiting - 1, inflight := n.inflight + 1)
      else if expired then n.(awake := n.awake - 1, waiting := n.waiting - 1)
      else n.(awake := n.awake - 1, asleep := n.asleep + 1)
    case Release(_) => n.(holders := n.holders - 1, inflight := n.inflight - 1, signals := n.signals + 1)
    case Signal(_) =>
      var m := n.(signals := if n.signals > 0 then n.signals - 1 else 0);
      if n.asleep == 0 then m else m.(asleep := n.asleep - 1, awake := n.awake + 1)
    case Configure(limit, queue) => n.(limit := limit, queue := queue, broadcasts := n.broadcasts + 1)
    case Broadcast => n.(broadcasts := if n.broadcasts > 0 then n.broadcasts - 1 else 0, awake := n.awake + n.asleep, asleep := 0)
    case TimerFires => n.(awake := n.awake + n.asleep, asleep := 0)
  }

  ghost predicate Disjoint(s: State) { s.holders !! s.asleep && s.holders !! s.awake && s.asleep !! s.awake }

  /** The counters are the numbers of callers that hold a slot and that queue. */
  predicate CountsRight(n: Nums) {
    && n.inflight == n.holders && n.waiting == n.asleep + n.awake
    && n.asleep >= 0 && n.awake >= 0 && n.signals >= 0 && n.broadcasts >= 0
  }

  /** How many of the waiting callers there is room for. */
  function ServableOf(n: Nums): int {
    if n.limit <= 0 || n.limit - n.inflight >= n.waiting then n.waiting
    else if n.limit <= n.inflight then 0
    else n.limit - n.inflight
  }

  /** Waiters awake or owed a wake-up cover every slot a waiter could take. */
  predicate Owed(n: Nums) { n.broadcasts > 0 || n.awake + n.signals >= ServableOf(n) }

  ghost predicate Counted(s: State) { Disjoint(s) && CountsRight(Count(s)) }

  function Servable(s: State): int { ServableOf(Count(s)) }

  ghost predicate Inv(s: State) { Counted(s) && Owed(Count(s)) }

  lemma {:induction false} NumsKeep(n: Nums, e: Step)
    requires CountsRight(n) && Possible(n, e)
    ensures CountsRight(NextNums(n, e)) && (Owed(n) ==> Owed(NextNums(n, e)))
  {
  }

  lemma {:induction false} MoveSize<T>(from: set<T>, to: set<T>, x: T)
    requires x in from && x !in to
    ensures |from - {x}| == |from| - 1 && |to + {x}| == |to| + 1
  {
  }

  lemma {:induction false} AcquireCounts(s: State, e: Step)
    requires Enabled(s, e) && e.Acquire?
    ensures Count(Next(s, e)) == NextNums(Count(s), e)
  {
    assert |s.holders + {e.c}| == |s.holders| + 1 && |s.asleep + {e.c}| == |s.asleep| + 1;
  }

  lemma {:induction false} ReleaseCounts(s: State, e: Step)
    requires Enabled(s, e) && e.Release?
    ensures Count(Next(s, e)) == NextNums(Count(s), e) && Possible(Count(s), e)
  {
    MoveSize(s.holders, {}, e.c);
  }

  lemma {:induction false} RecheckCounts(s: State, e: Step)
    requires Disjoint(s) && Enabled(s, e) && e.Recheck?
    ensures Count(Next(s, e)) == NextNums(Count(s), e) && Possible(Count(s), e)
  {
    if HasRoom(s) { MoveSize(s.awake, s.holders, e.c); } else { MoveSize(s.awake, s.asleep, e.c); }
  }

  lemma {:induction false} SignalCounts(s: State, e: Step)
    requires Disjoint(s) && Enabled(s, e) && e.Signal?
    ensures Count(Next(s, e)) == NextNums(Count(s), e)
  {
    if s.asleep != {} { MoveSize(s.asleep, s.awake, e.c); }
  }

  lemma {:induction false} WakeAllCounts(s: State, e: Step)
    requires Disjoint(s) && Enabled(s, e) && (e.Broadcast? || e.TimerFires?)
    ensures Count(Next(s, e)) == NextNums(Count(s), e)
  {
    assert |s.awake + s.asleep| == |s.awake| + |s.asleep|;
  }

  /** The numbers move by themselves. */
  lemma {:induction false} StepCounts(s: State, e: Step)
    requires Disjoint(s) && Enabled(s, e)
    ensures Count(Next(s, e)) == NextNums(Count(s), e) && Possible(Count(s), e)
  {
    if e.Recheck? {
      RecheckCounts(s, e);
    } else if e.Signal? {
      SignalCounts(s, e);
    } else if e.Release? {
      ReleaseCounts(s, e);
    } else if e.Broadcast? || e.TimerFires? {
      WakeAllCounts(s, e);
    } else if e.Acquire? {
      AcquireCounts(s, e);
    }
  }

  lemma {:induction false} DisjointStep(s: State, e: Step)
    requires Disjoint(s) && Enabled(s, e)
    ensures Disjoint(Next(s, e))
  {
  }

  lemma {:induction false} InvStep(s: State, e: Step)
    requires Inv(s) && Enabled(s, e)
    ensures Inv(Next(s, e))
  {
    DisjointStep(s, e);
    StepCounts(s, e);
    NumsKeep(Count(s), e);
  }

  /** In every interleaving of entering, barging, leaving, timing out and reconfiguring. */
  lemma {:induction false} RunKeeps(s: State, es: seq<Step>)
    requires Inv(s) && IsRun(s, es)
    ensures Inv(Run(s, es))
    decreases |es|
  {
    if es != [] {
      InvStep(s, es[0]);
      RunKeeps(Next(s, es[0]), es[1..]);
    }
  }

  /** No slot is left free with every waiter asleep and no wake-up on its way. */
  lemma {:induction false} NoLostWakeup(limit: int, queue: int, es: seq<Step>)
    requires IsRun(Start(limit, queue), es)
    ensures var s := Run(Start(limit, queue), es);
            && s.inflight == |s.holders| && s.waiting == |s.asleep| + |s.awake|
            && (s.awake == {} && s.signals == 0 && s.broadcasts == 0 && s.asleep != {} ==> !HasRoom(s))
  {
    RunKeeps(Start(limit, queue), es);
  }

  // ---------------------------------------------------------------------------
  // The limits
  // ---------------------------------------------------------------------------

  predicate Unconfigured(es: seq<Step>) { forall e :: e in es ==> !e.Configure? }

  /** Under a constant limit no more callers hold a slot than it allows, and no more queue
      than the queue is long. */
  lemma {:induction false} LimitsHold(s: State, es: seq<Step>)
    requires Inv(s) && IsRun(s, es) && Unconfigured(es)
    requires (s.limit > 0 ==> s.inflight <= s.limit) && (s.queue > 0 ==> s.waiting <= s.queue)
    ensures var t := Run(s, es);
            (s.limit > 0 ==> |t.holders| <= s.limit) && (s.queue > 0 ==> |t.asleep| + |t.awake| <= s.queue)
    decreases |es|
  {
    if es != [] {
      assert es[0] in es;
      InvStep(s, es[0]);
      StepCounts(s, es[0]);
      LimitsHold(Next(s, es[0]), es[1..]);
    }
  }

  // ---------------------------------------------------------------------------
  // Progress
  // ---------------------------------------------------------------------------

  /** Steps the gate owes by itself; nobody enters, leaves or gives up. */
  predicate Settling(e: Step) {
    e.Signal? || e.Broadcast? || (e.Recheck? && !e.expired)
  }

  /** A broadcast may wake every waiter, each to look once more. */
  function Rounds(k: int, waiting: int): int { if k <= 0 then 0 else waiting + 2 + Rounds(k - 1, waiting) }

  /** What the gate still owes: every settling step makes it smaller. */
  function DebtOf(n: Nums): int { Rounds(n.broadcasts, n.waiting) + 2 * n.signals + n.awake }

  function Debt(s: State): int { DebtOf(Count(s)) }

  /** Settling steps pay off what is owed, admit callers only while there is room, and lose
      nobody. */
  lemma {:induction false} SettlingNums(n: Nums, e: Step)
    requires CountsRight(n) && Possible(n, e) && Settling(e)
    ensures var m := NextNums(n, e);
            0 <= DebtOf(m) < DebtOf(n) && m.inflight + ServableOf(m) == n.inflight + ServableOf(n)
  {
    var m := NextNums(n, e);
    RoundsMonotone(m.broadcasts, m.waiting, n.waiting);
  }

  lemma {:induction false} RoundsMonotone(k: int, m: int, n: int)
    requires 0 <= m <= n
    ensures 0 <= Rounds(k, m) <= Rounds(k, n)
  {
    if k > 0 { RoundsMonotone(k - 1, m, n); }
  }

  lemma {:induction false} SettlingStep(s: State, e: Step)
    requires Inv(s) && Enabled(s, e) && Settling(e)
    ensures var t := Next(s, e);
            Inv(t) && 0 <= Debt(t) < Debt(s) && t.inflight + Servable(t) == s.inflight + Servable(s)
  {
    InvStep(s, e);
    StepCounts(s, e);
    SettlingNums(Count(s), e);
  }

  predicate Settled(s: State) { s.awake == {} && s.signals == 0 && s.broadcasts == 0 }

  lemma {:induction false} NothingOwed(s: State)
    requires Inv(s) && Settled(s)
    ensures Servable(s) == 0
  {
    assert |s.awake| == 0;
  }

  lemma {:induction false} DebtIsNatural(s: State)
    requires Counted(s)
    ensures Debt(s) >= 0
  {
    RoundsMonotone(s.broadcasts, s.waiting, s.waiting);
  }

  /** Every run of settling steps is no longer than what was owed, and when nothing is owed any
      more the waiters there was room for hold a slot: as many as fit, no more and no fewer. */
  lemma {:induction false} SettlesServed(s: State, es: seq<Step>)
    requires Inv(s) && IsRun(s, es) && forall e :: e in es ==> Settling(e)
    ensures |es| <= Debt(s)
    ensures Settled(Run(s, es)) ==> Run(s, es).inflight == s.inflight + Servable(s)
    decreases |es|
  {
    if es != [] {
      assert es[0] in es;
      SettlingStep(s, es[0]);
      SettlesServed(Next(s, es[0]), es[1..]);
    } else {
      DebtIsNatural(s);
      if Settled(s) { NothingOwed(s); }
    }
  }
}

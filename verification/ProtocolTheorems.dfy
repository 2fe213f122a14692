/** What the thread protocol guarantees for every number of threads, every number of
    barrier calls in each of them, and every schedule. */
module ProtocolTheorems {
  import opened Basics
  import opened Counters
  import opened ThreadManager
  import opened Sums
  import opened ThreadProtocol
  import opened ProtocolInvariant

  ghost predicate Reachable(c: Config, s: State): (r: bool)
    ensures r ==> c.Valid() && Shaped(c, s)
  {
    c.Valid() && exists es :: Leads(c, Initial(c), es, s)
  }

  lemma ReachableIsInv(c: Config, s: State)
    requires Reachable(c, s)
    ensures Inv(c, s)
  {
    var es :| Leads(c, Initial(c), es, s);
    InitialInv(c);
    ReachableInv(c, Initial(c), es, s);
  }

  /** Everybody has returned. */
  predicate AllOver(s: State) {
    |s.threads| > 0 && s.threads[0].pc.Finished? && OthersDone(s)
  }

  // ---- Barrier safety ----

  /** CHECK_LT(entered_, running_threads_) never fires. */
  lemma CheckHolds(c: Config, s: State, t: nat)
    requires Reachable(c, s) && t < c.N() && s.threads[t].pc.WaitEnter?
    ensures s.shared.barrier.entered < s.shared.barrier.running
  {
    ReachableIsInv(c, s);
    EnteredBelowRunning(s, t);
  }

  /** Lockstep: a thread that still counts has entered exactly the completed phases, and one
      more if and only if it is inside the open one; entered_ counts the latter threads. */
  lemma BarrierLockstep(c: Config, s: State)
    requires Reachable(c, s)
    ensures forall t :: 0 <= t < c.N() && Running(s.threads[t].pc) ==>
      Entries(c.waits[t], s.threads[t]) == s.shared.barrier.phase +
        (if InPhase(s.threads[t].pc, s.shared.barrier.phase) then 1 else 0)
    ensures s.shared.barrier.entered == Total(EnteredBits(s.threads, s.shared.barrier.phase))
    ensures 0 <= s.shared.barrier.entered <= s.shared.barrier.running
  {
    ReachableIsInv(c, s);
    forall t | 0 <= t < c.N() && Running(s.threads[t].pc)
      ensures Entries(c.waits[t], s.threads[t]) == s.shared.barrier.phase +
        (if InPhase(s.threads[t].pc, s.shared.barrier.phase) then 1 else 0)
    {
      assert ThreadOK(c, s, t);
    }
    var e := EnteredBits(s.threads, s.shared.barrier.phase);
    var zeros := seq(|e|, i => 0);
    TotalZero(zeros);
    TotalSlack(zeros, e, 0);
    TotalSlack(e, RunningBits(s.threads), 0);
  }

  /** No call for phase p is on its way out before every thread that still counts has
      entered phase p. */
  lemma NobodyLeavesEarly(c: Config, s: State, t: nat, u: nat)
    requires Reachable(c, s) && t < c.N() && u < c.N()
    requires s.threads[t].pc.WaitUnlock? || s.threads[t].pc.WaitNotify?
    requires Running(s.threads[u].pc)
    ensures Entries(c.waits[u], s.threads[u]) > s.threads[t].pc.phase
  {
    ReachableIsInv(c, s);
    assert ThreadOK(c, s, t) && ThreadOK(c, s, u);
  }

  // ---- No lost wakeup ----

  /** Asleep on a condition that holds. */
  predicate Overdue(s: State, t: nat)
    requires t < |s.threads|
  {
    match s.threads[t].pc
    case WaitSleep(phase) => s.shared.barrier.Open(phase)
    case JoinSleep => s.shared.alive == 0
    case _ => false
  }

  /** Thread u is about to notify those who sleep at p, and will not find a reason not to. */
  predicate Wakes(s: State, u: nat, p: PC)
    requires u < |s.threads|
  {
    var q := s.threads[u].pc;
    match p
    case WaitSleep(phase) =>
      || WillNotifyOld(q)
      || (phase == s.shared.barrier.phase && (q.WaitFinish? || (q.RemoveNotify? && s.shared.barrier.entered != 0)))
    case JoinSleep => WillNotifyEnd(q)
    case _ => false
  }

  /** How many steps of its own it takes. */
  function StepsToWake(q: PC): nat {
    match q
    case WaitFinish(_) => 3
    case WaitUnlock(_, _) => 2
    case WaitNotify(_) => 1
    case RemoveNotify => 1
    case EndLock => 2
    case EndNotify => 1
    case _ => 0
  }

  /** No lost wakeup, although `wait` notifies after releasing the lock, `removeThread` only if
      somebody is inside, and the last thread drops alive_threads_ before taking end_cond_mutex_:
      whoever sleeps on a condition that holds has a thread that is about to notify it. */
  lemma NoLostWakeup(c: Config, s: State, t: nat)
    requires Reachable(c, s) && t < c.N() && Overdue(s, t)
    ensures exists u :: 0 <= u < c.N() && Wakes(s, u, s.threads[t].pc)
  {
    ReachableIsInv(c, s);
    if s.threads[t].pc.WaitSleep? {
      var phase := s.threads[t].pc.phase;
      assert Pending(s, phase) && ThreadOK(c, s, t);
      var u :| 0 <= u < c.N() && (WillNotifyOld(s.threads[u].pc) ||
        (phase == s.shared.barrier.phase && WillNotifyOpen(s.threads[u].pc)));
      if phase == s.shared.barrier.phase {
        InPhaseCounted(s, t);
      }
      assert Wakes(s, u, s.threads[t].pc);
    } else {
      assert PendingEnd(s);
      var u :| 0 <= u < c.N() && WillNotifyEnd(s.threads[u].pc);
      assert Wakes(s, u, s.threads[t].pc);
    }
  }

  /** A notifier's own step, seen by a sleeper m. */
  lemma WakerActs(u: nat, l: Local, s: Shared, share: Stats, m: Local)
    requires WillNotifyOld(l.pc) || WillNotifyOpen(l.pc) || WillNotifyEnd(l.pc)
    requires m.pc.WaitSleep? ==>
      WillNotifyOld(l.pc) || (WillNotifyOpen(l.pc) && (l.pc.RemoveNotify? ==> s.barrier.entered != 0))
    requires m.pc.JoinSleep? ==> WillNotifyEnd(l.pc)
    requires m.pc.WaitSleep? || m.pc.JoinSleep?
    ensures var o := Act(u, l, s, share);
      || Woken(m, o.signal).pc != m.pc
      || (StepsToWake(o.me.pc) < StepsToWake(l.pc) &&
          if m.pc.WaitSleep? then WillNotifyOld(o.me.pc) else WillNotifyEnd(o.me.pc))
  {
  }

  /** Such a thread can run, unless the mutex of the countdown is taken, and its step wakes the
      sleeper or brings it nearer to doing so. */
  lemma WakerAdvances(c: Config, s: State, u: nat, t: nat)
    requires Inv(c, s) && u < c.N() && t < c.N() && Wakes(s, u, s.threads[t].pc)
    ensures Enabled(c, s, u) || (s.threads[u].pc.EndLock? && s.shared.endLock != -1)
    ensures Enabled(c, s, u) ==>
      var s' := Step(c, s, u);
      || s'.threads[t].pc != s.threads[t].pc
      || (Wakes(s', u, s.threads[t].pc) && StepsToWake(s'.threads[u].pc) < StepsToWake(s.threads[u].pc))
  {
    var l, m := s.threads[u], s.threads[t];
    WakerActs(u, l, s.shared, c.shares[u], m);
    if Enabled(c, s, u) {
      var s', o := Step(c, s, u), Act(u, l, s.shared, c.shares[u]);
      assert s'.threads[u] == o.me && s'.threads[t] == Woken(m, o.signal);
    }
  }

  /** Whatever else happens leaves it where it is. */
  lemma WakerStays(c: Config, s: State, e: Event, u: nat, t: nat)
    requires Inv(c, s) && u < c.N() && t < c.N() && Wakes(s, u, s.threads[t].pc)
    requires e != Run(u) && Possible(c, s, e)
    ensures var s' := Next(c, s, e); Wakes(s', u, s.threads[t].pc) && s'.threads[u].pc == s.threads[u].pc
  {
    match e {
      case Run(v) =>
        assert ThreadOK(c, s, u) && ThreadOK(c, s, v);
        WakerIsLeft(v, s.threads[v], s.shared, c.shares[v], u, s.threads[u]);
      case Spurious(v) =>
    }
  }

  lemma WakerIsLeft(v: nat, l: Local, s: Shared, share: Stats, u: nat, m: Local)
    requires u != v && Owns(v, l.pc, s) && Owns(u, m.pc, s)
    requires WillNotifyOld(m.pc) || WillNotifyOpen(m.pc) || WillNotifyEnd(m.pc)
    ensures var o := Act(v, l, s, share);
      && Woken(m, o.signal) == m
      && (WillNotifyOpen(m.pc) ==>
            o.shared.barrier.phase == s.barrier.phase && o.shared.barrier.entered == s.barrier.entered)
  {
  }

  /** The sleeper at p leaves it at some point of the schedule. */
  predicate IsWoken(c: Config, s: State, es: seq<Event>, t: nat, p: PC)
    requires Shaped(c, s) && t < c.N()
    decreases es
  {
    s.threads[t].pc != p ||
    (es != [] && Possible(c, s, es[0]) && IsWoken(c, Next(c, s, es[0]), es[1..], t, p))
  }

  function Turns(es: seq<Event>, u: nat): nat {
    if es == [] then 0 else (if es[0] == Run(u) then 1 else 0) + Turns(es[1..], u)
  }

  /** In every schedule that gives the notifying thread the few steps it needs, the sleeper is
      woken, whatever the other threads do in between. */
  lemma {:induction false} WokenInTime(c: Config, s: State, es: seq<Event>, s': State, u: nat, t: nat)
    requires Inv(c, s) && Leads(c, s, es, s') && u < c.N() && t < c.N()
    requires Wakes(s, u, s.threads[t].pc) && Turns(es, u) >= StepsToWake(s.threads[u].pc)
    ensures IsWoken(c, s, es, t, s.threads[t].pc)
    decreases es
  {
    var p := s.threads[t].pc;
    assert es != [];
    var next := Next(c, s, es[0]);
    if es[0] == Run(u) {
      WakerAdvances(c, s, u, t);
      StepKeeps(c, s, u);
    } else {
      WakerStays(c, s, es[0], u, t);
      match es[0] {
        case Run(v) => StepKeeps(c, s, v);
        case Spurious(v) => StirKeeps(c, s, v);
      }
    }
    if next.threads[t].pc == p {
      WokenInTime(c, next, es[1..], s', u, t);
    }
  }

  // ---- No deadlock ----

  /** A thread that holds a mutex can always go on. */
  lemma HolderRuns(c: Config, s: State, t: nat)
    requires Inv(c, s) && t < c.N()
    requires s.shared.lock == t || s.shared.benchLock == t || s.shared.endLock == t
    ensures Enabled(c, s, t)
  {
    assert ThreadOK(c, s, t);
  }

  /** Asleep on a predicate, finished, or joining others: the only ways not to run. */
  predicate Idle(p: PC) {
    p.WaitSleep? || p.JoinSleep? || p.JoinThreads? || p.Done? || p.Finished?
  }

  lemma StuckMeansIdle(c: Config, s: State)
    requires Inv(c, s) && forall t :: 0 <= t < c.N() ==> !Enabled(c, s, t)
    ensures s.shared.lock == s.shared.benchLock == s.shared.endLock == -1
    ensures forall t :: 0 <= t < c.N() ==> Idle(s.threads[t].pc)
  {
    assert OwnersExist(c, s.shared);
    if s.shared.lock != -1 {
      HolderRuns(c, s, s.shared.lock);
    }
    if s.shared.benchLock != -1 {
      HolderRuns(c, s, s.shared.benchLock);
    }
    if s.shared.endLock != -1 {
      HolderRuns(c, s, s.shared.endLock);
    }
    forall t | 0 <= t < c.N()
      ensures Idle(s.threads[t].pc)
    {
      assert !Enabled(c, s, t);
    }
  }

  /** If nobody can run, nobody is asleep in the barrier. */
  lemma StuckMeansNoSleeper(c: Config, s: State, t: nat)
    requires Inv(c, s) && (forall u :: 0 <= u < c.N() ==> Idle(s.threads[u].pc))
    requires t < c.N()
    ensures !s.threads[t].pc.WaitSleep?
  {
    if s.threads[t].pc.WaitSleep? {
      assert ThreadOK(c, s, t);
      var phase := s.shared.barrier.phase;
      if s.threads[t].pc.phase == phase {
        forall u | 0 <= u < c.N() && Running(s.threads[u].pc)
          ensures InPhase(s.threads[u].pc, phase)
        {
          assert ThreadOK(c, s, u);
          assert Idle(s.threads[u].pc);
          NoPendingIfIdle(s, s.threads[u].pc.phase);
        }
        assert EnteredBits(s.threads, phase) == RunningBits(s.threads);
      }
      NoPendingIfIdle(s, s.threads[t].pc.phase);
    }
  }

  lemma NoPendingIfIdle(s: State, phase: nat)
    requires forall u :: 0 <= u < |s.threads| ==> Idle(s.threads[u].pc)
    ensures !Pending(s, phase) && !PendingEnd(s)
  {
  }

  lemma StuckThreadIsDone(c: Config, s: State, t: nat)
    requires Inv(c, s) && (forall u :: 0 <= u < c.N() ==> Idle(s.threads[u].pc)) && 1 <= t < c.N()
    ensures s.threads[t].pc.Done?
  {
    StuckMeansNoSleeper(c, s, t);
    assert ThreadOK(c, s, t);
  }

  /** If nobody can run, all is over. */
  lemma StuckMeansOver(c: Config, s: State)
    requires Inv(c, s) && forall t :: 0 <= t < c.N() ==> !Enabled(c, s, t)
    ensures AllOver(s)
  {
    StuckMeansIdle(c, s);
    forall t | 1 <= t < c.N()
      ensures s.threads[t].pc.Done?
    {
      StuckThreadIsDone(c, s, t);
    }
    StuckMeansNoSleeper(c, s, 0);
    assert ThreadOK(c, s, 0) && OthersDone(s);
    assert !Enabled(c, s, 0);
    if s.threads[0].pc.JoinSleep? {
      TotalZero(AliveBits(s.threads));
      NoPendingIfIdle(s, 0);
    }
  }

  /** Deadlock freedom: while somebody has not returned, somebody can take a step, and no
      spurious wakeup is needed for it. */
  lemma NoDeadlock(c: Config, s: State)
    requires Reachable(c, s) && !AllOver(s)
    ensures exists t :: 0 <= t < c.N() && Enabled(c, s, t)
  {
    ReachableIsInv(c, s);
    if forall t :: 0 <= t < c.N() ==> !Enabled(c, s, t) {
      StuckMeansOver(c, s);
    }
  }

  // ---- Every schedule is finite ----

  /** The most a `notify_all` can set back the others. */
  function SetBack(n: nat): nat {
    3 * n + 1
  }

  function Rank(p: PC, b: nat): nat {
    match p
    case Done => 0
    case Finished => 0
    case Destroy => 1
    case ReadUnlock => 2
    case ReadResults => 3
    case ReadLock => 4
    case JoinThreads => 5
    case JoinUnlock => 6
    case JoinSleep => 7
    case JoinBlock => 8
    case JoinTest => 9
    case JoinRelock => 10
    case JoinLock => 11
    case EndUnlock => 12
    case EndNotify => 13 + b
    case EndLock => 14 + b
    case AliveCount => 15 + b
    case RemoveUnlock => 16 + b
    case RemoveNotify => 17 + 2 * b
    case RemoveCount => 18 + 2 * b
    case RemoveLock => 19 + 2 * b
    case MergeUnlock => 20 + 2 * b
    case MergeAdd => 21 + 2 * b
    case MergeLock => 22 + 2 * b
    case WaitEnter => 22 + 2 * b
    case WaitLock => 23 + 2 * b
    case SkipLock => 23 + 2 * b
    case SkipSet => 22 + 2 * b
    case SkipUnlock => 25 + 2 * b
    case Body => 24 + 2 * b
    case WaitUnlock(_, last) => if last then 26 + 3 * b else 25 + 2 * b
    case WaitNotify(_) => 25 + 3 * b
    case WaitFinish(_) => 27 + 3 * b
    case WaitSleep(_) => 28 + 3 * b
    case WaitTest(_) => 29 + 3 * b
    case WaitRelock(_) => 30 + 3 * b
  }

  /** What n more barrier calls cost. */
  function Calls(n: nat, b: nat): nat {
    if n == 0 then 0 else 8 + b + Calls(n - 1, b)
  }

  lemma {:induction false} CallsTimes(n: nat, b: nat)
    ensures Calls(n, b) == (8 + b) * n
  {
    if n > 0 {
      CallsTimes(n - 1, b);
      assert (8 + b) * n == (8 + b) * (n - 1) + (8 + b);
    }
  }

  /** What a thread can still spend. */
  function Budget(l: Local, b: nat): nat {
    Rank(l.pc, b) + Calls(l.todo, b) + 4 * |l.errors|
  }

  function Budgets(ls: seq<Local>, b: nat): seq<int> {
    seq(|ls|, i requires 0 <= i < |ls| => Budget(ls[i], b))
  }

  function Potential(s: State): int {
    Total(Budgets(s.threads, SetBack(|s.threads|)))
  }

  lemma OwnStepSpends(t: nat, l: Local, s: Shared, share: Stats, b: nat)
    requires !l.pc.WaitSleep? && !l.pc.JoinSleep? && !l.pc.Done? && !l.pc.Finished?
    requires l.pc.WaitEnter? ==> l.todo > 0
    requires l.pc.SkipSet? ==> l.errors != []
    ensures Spends(l, Act(t, l, s, share), b)
  {
    if InWait(l.pc) {
      WaitStepSpends(t, l, s, b);
    } else if InLeave(l.pc) {
      LeaveStepSpends(t, l, s, share, b);
    }
  }

  /** A step costs one, and b more when it notifies. */
  predicate Spends(l: Local, o: Outcome, b: nat) {
    Budget(o.me, b) + (if o.signal == Quiet then 0 else b) < Budget(l, b)
  }

  lemma WaitStepSpends(t: nat, l: Local, s: Shared, b: nat)
    requires InWait(l.pc) && !l.pc.WaitSleep? && (l.pc.WaitEnter? ==> l.todo > 0)
    ensures Spends(l, WaitStep(t, l, s), b)
  {
  }

  lemma LeaveStepSpends(t: nat, l: Local, s: Shared, share: Stats, b: nat)
    requires InLeave(l.pc) && (l.pc.SkipSet? ==> l.errors != [])
    ensures Spends(l, LeaveStep(t, l, s, share), b)
  {
  }

  lemma WokenSetBack(l: Local, signal: Signal, b: nat)
    ensures Budget(Woken(l, signal), b) <= Budget(l, b) + if signal == Quiet then 0 else 3
  {
  }

  lemma StepSpends(c: Config, s: State, t: nat)
    requires Inv(c, s) && Enabled(c, s, t)
    ensures Potential(Step(c, s, t)) < Potential(s)
  {
    var s', l, b := Step(c, s, t), s.threads[t], SetBack(c.N());
    var before, after := Budgets(s.threads, b), Budgets(s'.threads, b);
    var o := Act(t, l, s.shared, c.shares[t]);
    var slack := if o.signal == Quiet then 0 else 3;
    assert ThreadOK(c, s, t);
    OwnStepSpends(t, l, s.shared, c.shares[t], b);
    TotalUpdate(before, t, after[t]);
    forall i | 0 <= i < c.N() && i != t
      ensures after[i] <= before[i] + slack
    {
      WokenSetBack(s.threads[i], o.signal, b);
    }
    TotalSlack(after, before[t := after[t]], slack);
  }

  lemma BudgetsUpdate(ls: seq<Local>, t: nat, l: Local, b: nat)
    requires t < |ls|
    ensures Total(Budgets(ls[t := l], b)) == Total(Budgets(ls, b)) - Budget(ls[t], b) + Budget(l, b)
  {
    assert Budgets(ls[t := l], b) == Budgets(ls, b)[t := Budget(l, b)];
    TotalUpdate(Budgets(ls, b), t, Budget(l, b));
  }

  lemma StirSpends(c: Config, s: State, t: nat)
    requires Shaped(c, s) && CanStir(c, s, t)
    ensures Potential(Stir(c, s, t)) <= Potential(s) + 3
  {
    var l, b := s.threads[t], SetBack(c.N());
    var l' := Woken(l, if l.pc.WaitSleep? then WakePhase else WakeEnd);
    WokenSetBack(l, if l.pc.WaitSleep? then WakePhase else WakeEnd, b);
    BudgetsUpdate(s.threads, t, l', b);
  }

  function Runs(es: seq<Event>): nat {
    if es == [] then 0 else (if es[0].Run? then 1 else 0) + Runs(es[1..])
  }

  function Spurs(es: seq<Event>): nat {
    if es == [] then 0 else (if es[0].Spurious? then 1 else 0) + Spurs(es[1..])
  }

  lemma {:induction false} ScheduleSpends(c: Config, s: State, es: seq<Event>, s': State)
    requires Inv(c, s) && Leads(c, s, es, s')
    ensures Runs(es) + Potential(s') <= Potential(s) + 3 * Spurs(es)
    decreases es
  {
    if es != [] {
      match es[0] {
        case Run(t) =>
          StepSpends(c, s, t);
          StepKeeps(c, s, t);
        case Spurious(t) =>
          StirSpends(c, s, t);
          StirKeeps(c, s, t);
      }
      ScheduleSpends(c, Next(c, s, es[0]), es[1..], s');
    }
  }

  function ErrorCounts(c: Config): seq<int> {
    seq(|c.errors|, i requires 0 <= i < |c.errors| => |c.errors[i]|)
  }

  /** How many steps N threads can take in all. */
  function StepBound(c: Config): int {
    c.N() * (26 + 6 * c.N()) + (9 + 3 * c.N()) * Total(c.waits) + 4 * Total(ErrorCounts(c))
  }

  lemma InitialPotential(c: Config)
    requires c.Valid()
    ensures Potential(Initial(c)) == StepBound(c)
  {
    var b := SetBack(c.N());
    var calls, errors := Affine(c.waits, 24 + 2 * b, 8 + b), Affine(ErrorCounts(c), 0, 4);
    TotalAffine(c.waits, 24 + 2 * b, 8 + b);
    TotalAffine(ErrorCounts(c), 0, 4);
    forall i | 0 <= i < c.N()
      ensures Budgets(Initial(c).threads, b)[i] == calls[i] + errors[i]
    {
      CallsTimes(c.waits[i], b);
    }
    TotalPlus(calls, errors, Budgets(Initial(c).threads, b));
  }

  lemma PotentialIsNonNegative(s: State)
    ensures Potential(s) >= 0
  {
    TotalNonNegative(Budgets(s.threads, SetBack(|s.threads|)));
  }

  /** Termination without any fairness assumption: whatever the scheduler does, the threads
      take at most StepBound steps, plus three for every spurious wakeup. */
  lemma EveryScheduleEnds(c: Config, es: seq<Event>, s: State)
    requires c.Valid() && Leads(c, Initial(c), es, s)
    ensures Runs(es) <= StepBound(c) + 3 * Spurs(es)
  {
    InitialInv(c);
    ScheduleSpends(c, Initial(c), es, s);
    InitialPotential(c);
    PotentialIsNonNegative(s);
  }

  // ---- What the run delivers ----

  /** When the main thread tears the manager down, no other thread can touch it any more,
      and all three mutexes are free. */
  lemma TeardownIsSafe(c: Config, s: State)
    requires Reachable(c, s) && (s.threads[0].pc.Destroy? || s.threads[0].pc.Finished?)
    ensures forall t :: 1 <= t < c.N() ==> s.threads[t].pc.Done?
    ensures s.shared.lock == s.shared.benchLock == s.shared.endLock == -1
  {
    ReachableIsInv(c, s);
    assert OwnersExist(c, s.shared);
    forall t | 0 <= t < c.N()
      ensures !Owner(s.shared, t)
    {
      assert ThreadOK(c, s, t);
    }
    assert s.shared.lock != -1 ==> Owner(s.shared, s.shared.lock);
    assert s.shared.benchLock != -1 ==> Owner(s.shared, s.shared.benchLock);
    assert s.shared.endLock != -1 ==> Owner(s.shared, s.shared.endLock);
  }

  predicate Owner(s: Shared, t: int) {
    s.lock == t || s.benchLock == t || s.endLock == t
  }

  /** When the main thread has finished, every share is in the record that it has read. */
  lemma AllDelivered(c: Config, s: State)
    requires Inv(c, s) && s.threads[0].pc.Finished?
    ensures s.shared.report == s.shared.results
    ensures Delivered(c, s.threads) == seq(c.N(), i requires 0 <= i < c.N() => TallyOf(c.shares[i]))
  {
    assert ThreadOK(c, s, 0);
    forall i | 0 <= i < c.N()
      ensures Merged(s.threads[i].pc)
    {
    }
  }

  /** Conservation: in every interleaving the main thread reports the sum of what all threads
      measured, counter by counter, and each counter keeps the flags a thread gave it. */
  lemma ReportIsTheSum(c: Config, s: State)
    requires Reachable(c, s) && s.threads[0].pc.Finished?
    ensures TallyOf(s.shared.report) == SumOf(seq(c.N(), i requires 0 <= i < c.N() => TallyOf(c.shares[i])))
    ensures forall k :: k in s.shared.report.counters ==> GivenBySome(c, k, s.shared.report.counters[k])
  {
    ReachableIsInv(c, s);
    AllDelivered(c, s);
    forall k | k in s.shared.report.counters
      ensures GivenBySome(c, k, s.shared.report.counters[k])
    {
      assert FlagsFrom(c, s, k);
    }
  }

  ghost predicate GivenBySome(c: Config, k: string, r: Counter)
    requires c.Valid()
  {
    exists t | 0 <= t < c.N() ::
      k in c.shares[t].counters &&
      c.shares[t].counters[k].flags == r.flags && c.shares[t].counters[k].oneK == r.oneK
  }

  lemma AllIsReported(c: Config, s: State, t: nat)
    requires Inv(c, s) && s.threads[0].pc.Finished? && t < c.N()
    ensures s.threads[t].errors == []
  {
    assert ThreadOK(c, s, t);
    assert t == 0 || s.threads[t].pc.Done?;
  }

  lemma FinishedFailure(c: Config, s: State)
    requires Inv(c, s) && s.threads[0].pc.Finished?
    ensures s.shared.failureRead == s.shared.failure
    ensures forall t :: 0 <= t < c.N() ==> (HasReported(c, s, t) <==> c.errors[t] != [])
  {
    assert ThreadOK(c, s, 0);
    forall t | 0 <= t < c.N()
      ensures HasReported(c, s, t) <==> c.errors[t] != []
    {
      AllIsReported(c, s, t);
    }
  }

  /** The main thread sees an error if and only if some thread reported one, and then the first
      that some thread reported. */
  lemma ErrorIsReported(c: Config, s: State)
    requires Reachable(c, s) && s.threads[0].pc.Finished?
    ensures s.shared.failureRead.None? <==> forall t :: 0 <= t < c.N() ==> c.errors[t] == []
    ensures s.shared.failureRead.Some? ==>
      exists t :: 0 <= t < c.N() && c.errors[t] != [] && c.errors[t][0].message == s.shared.failureRead.value
  {
    ReachableIsInv(c, s);
    FinishedFailure(c, s);
    if s.shared.failure.Some? {
      var t :| 0 <= t < c.N() && HasReported(c, s, t) && c.errors[t][0].message == s.shared.failure.value;
      assert c.errors[t] != [];
    } else {
      forall t | 0 <= t < c.N()
        ensures c.errors[t] == []
      {
        assert !HasReported(c, s, t);
      }
    }
  }

  /** Of all errors the first to be recorded stays, whatever happens next. */
  lemma {:induction false} FirstErrorStays(c: Config, s: State, es: seq<Event>, s': State)
    requires Inv(c, s) && Leads(c, s, es, s') && s.shared.failure.Some?
    ensures s'.shared.failure == s.shared.failure
    decreases es
  {
    if es != [] {
      match es[0] {
        case Run(t) =>
          FailureKept(c, s, t);
          StepKeeps(c, s, t);
        case Spurious(t) => StirKeeps(c, s, t);
      }
      FirstErrorStays(c, Next(c, s, es[0]), es[1..], s');
    }
  }

  /** Once all is over, every thread has returned from all its barrier calls, as many phases
      are complete as the busiest thread made calls, and of the calls for one phase exactly
      one, that of the recorded winner, returned true. */
  lemma OneWinnerPerPhase(c: Config, s: State)
    requires Reachable(c, s) && AllOver(s)
    ensures forall t :: 0 <= t < c.N() ==> |s.threads[t].returned| == c.waits[t] <= s.shared.barrier.phase
    ensures |s.shared.winner| == s.shared.barrier.phase
    ensures forall k :: 0 <= k < s.shared.barrier.phase ==>
      s.shared.winner[k] < c.N() && k < c.waits[s.shared.winner[k]]
    ensures forall t, k :: 0 <= t < c.N() && 0 <= k < c.waits[t] ==>
      (s.threads[t].returned[k] <==> s.shared.winner[k] == t)
  {
    ReachableIsInv(c, s);
    forall t | 0 <= t < c.N()
      ensures |s.threads[t].returned| == c.waits[t] <= s.shared.barrier.phase
      ensures forall k :: 0 <= k < c.waits[t] ==> (s.threads[t].returned[k] <==> s.shared.winner[k] == t)
    {
      assert ThreadOK(c, s, t);
    }
  }

  function Trues(r: seq<bool>): nat {
    if r == [] then 0 else Trues(r[..|r| - 1]) + if r[|r| - 1] then 1 else 0
  }

  lemma TruesSnoc(r: seq<bool>, b: bool)
    ensures Trues(r + [b]) == Trues(r) + if b then 1 else 0
  {
    assert (r + [b])[..|r|] == r;
  }

  /** The phases that a thread has won: those it has been told of, and one on its way out. */
  function Wins(l: Local): nat {
    Trues(l.returned) + if WillNotifyOld(l.pc) then 1 else 0
  }

  function AllWins(ls: seq<Local>): seq<int> {
    seq(|ls|, i requires 0 <= i < |ls| => Wins(ls[i]))
  }

  lemma OwnStepWinsOnce(t: nat, l: Local, s: Shared, share: Stats)
    requires !l.pc.WaitSleep?
    ensures var o := Act(t, l, s, share); Wins(o.me) - Wins(l) == o.shared.barrier.phase - s.barrier.phase
  {
    if InWait(l.pc) {
      WaitStepWins(t, l, s);
    } else {
      QuietStepWins(t, l, s, share);
    }
  }

  lemma WaitStepWins(t: nat, l: Local, s: Shared)
    requires InWait(l.pc)
    ensures var o := WaitStep(t, l, s); Wins(o.me) - Wins(l) == o.shared.barrier.phase - s.barrier.phase
  {
    TruesSnoc(l.returned, true);
    TruesSnoc(l.returned, false);
  }

  lemma QuietStepWins(t: nat, l: Local, s: Shared, share: Stats)
    requires !InWait(l.pc)
    ensures var o := Act(t, l, s, share);
      o.me.returned == l.returned && !WillNotifyOld(o.me.pc) && o.shared.barrier.phase == s.barrier.phase
  {
  }

  lemma EventWins(c: Config, s: State, e: Event)
    requires Shaped(c, s) && Possible(c, s, e)
    ensures var s' := Next(c, s, e);
      Total(AllWins(s'.threads)) - Total(AllWins(s.threads)) == s'.shared.barrier.phase - s.shared.barrier.phase
  {
    var s' := Next(c, s, e);
    match e {
      case Run(t) => OwnStepWinsOnce(t, s.threads[t], s.shared, c.shares[t]);
      case Spurious(t) =>
    }
    CountMove(AllWins(s.threads), AllWins(s'.threads), e.thread);
  }

  lemma {:induction false} WinsAlong(c: Config, s: State, es: seq<Event>, s': State)
    requires Shaped(c, s) && Leads(c, s, es, s')
    ensures Total(AllWins(s'.threads)) - Total(AllWins(s.threads)) == s'.shared.barrier.phase - s.shared.barrier.phase
    decreases es
  {
    if es != [] {
      EventWins(c, s, es[0]);
      WinsAlong(c, Next(c, s, es[0]), es[1..], s');
    }
  }

  /** At any time as many phases are complete as calls have returned true or are about to. */
  lemma PhasesAreWins(c: Config, s: State)
    requires Reachable(c, s)
    ensures s.shared.barrier.phase == Total(AllWins(s.threads))
  {
    var es :| Leads(c, Initial(c), es, s);
    WinsAlong(c, Initial(c), es, s);
    TotalZero(AllWins(Initial(c).threads));
  }

  /** A schedule that cannot go on has brought everybody home with the right report. */
  lemma EveryMaximalRunSucceeds(c: Config, es: seq<Event>, s: State)
    requires c.Valid() && Leads(c, Initial(c), es, s)
    requires forall t :: 0 <= t < c.N() ==> !Enabled(c, s, t)
    ensures AllOver(s)
    ensures TallyOf(s.shared.report) == SumOf(seq(c.N(), i requires 0 <= i < c.N() => TallyOf(c.shares[i])))
    ensures forall t :: 0 <= t < c.N() ==> |s.threads[t].returned| == c.waits[t]
  {
    assert Reachable(c, s);
    if !AllOver(s) {
      NoDeadlock(c, s);
    }
    ReportIsTheSum(c, s);
    OneWinnerPerPhase(c, s);
  }
}

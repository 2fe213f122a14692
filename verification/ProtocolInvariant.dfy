/** What every step of the thread protocol keeps. */
module ProtocolInvariant {
  import opened Basics
  import opened Counters
  import opened ThreadManager
  import opened Sums
  import opened ThreadProtocol

  // ---- Which threads count for what ----

  /** Still counted in `running_threads_`. */
  predicate Running(p: PC) {
    InWait(p) || p.Body? || InSkip(p) || p.MergeLock? || p.MergeAdd? || p.MergeUnlock? || p.RemoveLock? ||
    p.RemoveCount?
  }

  /** Counted in `entered_`: inside createBarrier for the phase that is still open. */
  predicate InPhase(p: PC, phase: nat) {
    ((p.WaitTest? || p.WaitSleep? || p.WaitRelock?) && p.phase == phase) || p.WaitFinish?
  }

  /** Still counted in `alive_threads_`. */
  predicate Alive(p: PC) {
    Running(p) || p.RemoveNotify? || p.RemoveUnlock? || p.AliveCount?
  }

  /** The thread's share is in the shared record. */
  predicate Merged(p: PC) {
    !InWait(p) && !p.Body? && !InSkip(p) && !p.MergeLock? && !p.MergeAdd?
  }

  predicate HoldsLock(p: PC) {
    p.WaitEnter? || p.WaitTest? || p.WaitFinish? || p.WaitUnlock? ||
    p.RemoveCount? || p.RemoveNotify? || p.RemoveUnlock?
  }

  predicate HoldsBench(p: PC) {
    p.SkipSet? || p.SkipUnlock? || p.MergeAdd? || p.MergeUnlock? || p.ReadResults? || p.ReadUnlock?
  }

  predicate HoldsEnd(p: PC) {
    p.EndNotify? || p.EndUnlock? || p.JoinTest? || p.JoinBlock? || p.JoinUnlock?
  }

  /** Past line 134 of the current barrier call. */
  predicate HasEntered(p: PC) {
    p.WaitTest? || p.WaitSleep? || p.WaitRelock? || p.WaitFinish? || p.WaitUnlock? || p.WaitNotify?
  }

  predicate AfterJoin(p: PC) {
    p.ReadLock? || p.ReadResults? || p.ReadUnlock? || p.Destroy? || p.Finished?
  }

  predicate AfterJoinTest(p: PC) {
    p.JoinUnlock? || p.JoinThreads? || AfterJoin(p)
  }

  predicate AfterRead(p: PC) {
    p.ReadUnlock? || p.Destroy? || p.Finished?
  }

  predicate MainOnly(p: PC) {
    p.JoinLock? || p.JoinTest? || p.JoinBlock? || p.JoinSleep? || p.JoinRelock? || AfterJoinTest(p)
  }

  /** Has a `notify_all` of a completed phase still to do. */
  predicate WillNotifyOld(p: PC) {
    (p.WaitUnlock? && p.last) || p.WaitNotify?
  }

  /** Is about to complete the open phase, or to notify after lowering the thread count. */
  predicate WillNotifyOpen(p: PC) {
    p.WaitFinish? || p.RemoveNotify?
  }

  predicate WillNotifyEnd(p: PC) {
    p.EndLock? || p.EndNotify?
  }

  function Bit(b: bool): int {
    if b then 1 else 0
  }

  function EnteredBits(ls: seq<Local>, phase: nat): seq<int> {
    seq(|ls|, i requires 0 <= i < |ls| => Bit(InPhase(ls[i].pc, phase)))
  }

  function RunningBits(ls: seq<Local>): seq<int> {
    seq(|ls|, i requires 0 <= i < |ls| => Bit(Running(ls[i].pc)))
  }

  function AliveBits(ls: seq<Local>): seq<int> {
    seq(|ls|, i requires 0 <= i < |ls| => Bit(Alive(ls[i].pc)))
  }

  function Delivered(c: Config, ls: seq<Local>): seq<Tally>
    requires |ls| == |c.shares|
  {
    seq(|ls|, i requires 0 <= i < |ls| => if Merged(ls[i].pc) then TallyOf(c.shares[i]) else ZeroTally)
  }

  // ---- What holds of each thread ----

  predicate Owns(t: nat, p: PC, s: Shared) {
    && (HoldsLock(p) <==> s.lock == t)
    && (HoldsBench(p) <==> s.benchLock == t)
    && (HoldsEnd(p) <==> s.endLock == t)
  }

  /** How many phases a thread that makes `waits` barrier calls has entered. */
  function Entries(waits: nat, l: Local): int {
    waits as int - l.todo
  }

  /** Lockstep: a running thread has entered as many phases as are complete, one more if it
      is in the open phase; and its calls so far were for phases 0, 1, 2, ... */
  predicate Lockstep(waits: nat, l: Local, b: BarrierData) {
    && l.todo <= waits
    && (l.pc.WaitLock? || l.pc.WaitEnter? ==> l.todo > 0)
    && (!InWait(l.pc) && !l.pc.Body? && !InSkip(l.pc) ==> l.todo == 0)
    && (Running(l.pc) ==> Entries(waits, l) == b.phase + Bit(InPhase(l.pc, b.phase)))
    && Entries(waits, l) <= b.phase + Bit(InPhase(l.pc, b.phase))
    && Entries(waits, l) == |l.returned| + Bit(HasEntered(l.pc))
    && (HasEntered(l.pc) ==> l.pc.phase == |l.returned|)
    && (l.pc.WaitFinish? ==> b.entered == b.running)
  }

  /** Exactly the thread recorded as winner of a phase gets `true` from its call. */
  predicate Verdicts(t: nat, l: Local, winner: seq<nat>) {
    && |l.returned| <= |winner|
    && (forall k :: 0 <= k < |l.returned| ==> (l.returned[k] <==> winner[k] == t))
    && (l.pc.WaitUnlock? ==> l.pc.phase < |winner| && (l.pc.last <==> winner[l.pc.phase] == t))
    && (l.pc.WaitNotify? ==> l.pc.phase < |winner| && winner[l.pc.phase] == t)
    && (l.pc.WaitTest? || l.pc.WaitSleep? || l.pc.WaitRelock? ==>
          l.pc.phase < |winner| ==> winner[l.pc.phase] != t)
  }

  /** Thread 0 alone joins the others; what it knows once it has. */
  predicate Role(t: nat, p: PC, s: Shared) {
    && (t != 0 ==> !MainOnly(p))
    && (t == 0 ==> !p.Done?)
    && (AfterJoinTest(p) ==> s.alive == 0)
    && (AfterRead(p) ==> s.report == s.results && s.failureRead == s.failure)
  }

  /** The winner of phase k has returned from it, or is about to. */
  predicate HasWon(l: Local, k: nat) {
    k < |l.returned| || l.pc == WaitUnlock(k, true) || l.pc == WaitNotify(k)
  }

  /** A thread reports its errors in order, all of them before it delivers its share. */
  predicate Reporting(all: seq<Failure>, l: Local) {
    && |l.errors| <= |all| && l.errors == all[|all| - |l.errors|..]
    && (l.pc.SkipLock? || l.pc.SkipSet? ==> l.errors != [])
    && (!InWait(l.pc) && !l.pc.Body? && !InSkip(l.pc) ==> l.errors == [])
  }

  // ---- One step, seen by the thread that takes it and by another one ----

  lemma OwnStepReporting(t: nat, l: Local, s: Shared, share: Stats, all: seq<Failure>)
    requires Reporting(all, l)
    ensures var o := Act(t, l, s, share); Reporting(all, o.me)
  {
    if l.errors != [] {
      assert all[|all| - |l.errors|..][1..] == all[|all| - |l.errors| + 1..];
    }
  }

  /** A mutex that the thread wants is free. */
  predicate MayStep(l: Local, s: Shared) {
    && (l.pc.WaitLock? || l.pc.WaitRelock? || l.pc.RemoveLock? ==> s.lock == -1)
    && (l.pc.SkipLock? || l.pc.MergeLock? || l.pc.ReadLock? ==> s.benchLock == -1)
    && (l.pc.EndLock? || l.pc.JoinLock? || l.pc.JoinRelock? ==> s.endLock == -1)
  }

  lemma OwnStepOwns(t: nat, l: Local, s: Shared, share: Stats)
    requires Owns(t, l.pc, s)
    ensures var o := Act(t, l, s, share); Owns(t, o.me.pc, o.shared)
  {
  }

  lemma OtherStepOwns(t: nat, l: Local, s: Shared, share: Stats, i: nat, m: Local)
    requires i != t && Owns(t, l.pc, s) && Owns(i, m.pc, s) && MayStep(l, s)
    ensures var o := Act(t, l, s, share); Owns(i, Woken(m, o.signal).pc, o.shared)
  {
  }

  lemma OwnStepLockstep(t: nat, l: Local, s: Shared, share: Stats, waits: nat)
    requires Lockstep(waits, l, s.barrier)
    requires Running(l.pc) && !InPhase(l.pc, s.barrier.phase) ==> s.barrier.entered < s.barrier.running
    ensures var o := Act(t, l, s, share); Lockstep(waits, o.me, o.shared.barrier)
  {
    if InWait(l.pc) {
      WaitStepLockstep(t, l, s, waits);
    }
  }

  lemma WaitStepLockstep(t: nat, l: Local, s: Shared, waits: nat)
    requires InWait(l.pc) && Lockstep(waits, l, s.barrier)
    requires Running(l.pc) && !InPhase(l.pc, s.barrier.phase) ==> s.barrier.entered < s.barrier.running
    ensures var o := WaitStep(t, l, s); Lockstep(waits, o.me, o.shared.barrier)
  {
  }

  lemma OtherStepLockstep(t: nat, l: Local, s: Shared, share: Stats, i: nat, m: Local, waits: nat)
    requires i != t && Owns(t, l.pc, s) && Owns(i, m.pc, s)
    requires Lockstep(waits, m, s.barrier)
    requires l.pc.WaitFinish? && Running(m.pc) ==> InPhase(m.pc, s.barrier.phase)
    ensures var o := Act(t, l, s, share); Lockstep(waits, Woken(m, o.signal), o.shared.barrier)
  {
  }

  lemma OwnStepVerdicts(t: nat, l: Local, s: Shared, share: Stats, waits: nat)
    requires Lockstep(waits, l, s.barrier) && |s.winner| == s.barrier.phase && Verdicts(t, l, s.winner)
    ensures var o := Act(t, l, s, share); Verdicts(t, o.me, o.shared.winner)
  {
    if InWait(l.pc) {
      WaitStepVerdicts(t, l, s, waits);
    }
  }

  lemma WaitStepVerdicts(t: nat, l: Local, s: Shared, waits: nat)
    requires InWait(l.pc)
    requires Lockstep(waits, l, s.barrier) && |s.winner| == s.barrier.phase && Verdicts(t, l, s.winner)
    ensures var o := WaitStep(t, l, s); Verdicts(t, o.me, o.shared.winner)
  {
  }

  lemma OtherStepVerdicts(t: nat, l: Local, s: Shared, share: Stats, i: nat, m: Local, waits: nat)
    requires i != t && Owns(t, l.pc, s) && Owns(i, m.pc, s)
    requires Lockstep(waits, m, s.barrier) && |s.winner| == s.barrier.phase && Verdicts(i, m, s.winner)
    ensures var o := Act(t, l, s, share); Verdicts(i, Woken(m, o.signal), o.shared.winner)
  {
  }

  lemma OwnStepRole(t: nat, l: Local, s: Shared, share: Stats)
    requires Role(t, l.pc, s)
    requires Alive(l.pc) ==> s.alive > 0
    ensures var o := Act(t, l, s, share); Role(t, o.me.pc, o.shared)
  {
  }

  lemma OtherStepRole(t: nat, l: Local, s: Shared, share: Stats, i: nat, m: Local)
    requires i != t && Role(t, l.pc, s) && Role(i, m.pc, s)
    requires Alive(l.pc) ==> s.alive > 0
    ensures var o := Act(t, l, s, share); Role(i, Woken(m, o.signal).pc, o.shared)
  {
  }

  /** All that holds of one thread. */
  predicate LocalOK(t: nat, l: Local, s: Shared, waits: nat, all: seq<Failure>) {
    Owns(t, l.pc, s) && Lockstep(waits, l, s.barrier) && Verdicts(t, l, s.winner) && Role(t, l.pc, s) &&
    Reporting(all, l)
  }

  lemma OwnStepOK(t: nat, l: Local, s: Shared, share: Stats, waits: nat, all: seq<Failure>)
    requires LocalOK(t, l, s, waits, all) && |s.winner| == s.barrier.phase
    requires Alive(l.pc) ==> s.alive > 0
    requires Running(l.pc) && !InPhase(l.pc, s.barrier.phase) ==> s.barrier.entered < s.barrier.running
    ensures var o := Act(t, l, s, share); LocalOK(t, o.me, o.shared, waits, all)
  {
    OwnStepOwns(t, l, s, share);
    OwnStepLockstep(t, l, s, share, waits);
    OwnStepVerdicts(t, l, s, share, waits);
    OwnStepRole(t, l, s, share);
    OwnStepReporting(t, l, s, share, all);
  }

  lemma OtherStepOK(t: nat, l: Local, s: Shared, share: Stats, i: nat, m: Local, waits: nat, all: seq<Failure>)
    requires i != t && Owns(t, l.pc, s) && Role(t, l.pc, s) && MayStep(l, s)
    requires LocalOK(i, m, s, waits, all) && |s.winner| == s.barrier.phase
    requires Alive(l.pc) ==> s.alive > 0
    requires l.pc.WaitFinish? && Running(m.pc) ==> InPhase(m.pc, s.barrier.phase)
    ensures var o := Act(t, l, s, share); LocalOK(i, Woken(m, o.signal), o.shared, waits, all)
  {
    OtherStepOwns(t, l, s, share, i, m);
    OtherStepLockstep(t, l, s, share, i, m, waits);
    OtherStepVerdicts(t, l, s, share, i, m, waits);
    OtherStepRole(t, l, s, share, i, m);
    WokenReporting(m, Act(t, l, s, share).signal, all);
  }

  lemma WokenReporting(m: Local, signal: Signal, all: seq<Failure>)
    requires Reporting(all, m)
    ensures Reporting(all, Woken(m, signal))
  {
  }

  // ---- The invariant of the whole system ----

  ghost predicate ThreadOK(c: Config, s: State, t: nat)
    requires Shaped(c, s) && t < c.N()
  {
    LocalOK(t, s.threads[t], s.shared, c.waits[t], c.errors[t])
  }

  ghost predicate OwnersExist(c: Config, s: Shared) {
    -1 <= s.lock < c.N() && -1 <= s.benchLock < c.N() && -1 <= s.endLock < c.N()
  }

  ghost predicate CountsOK(s: State) {
    && s.shared.barrier.entered == Total(EnteredBits(s.threads, s.shared.barrier.phase))
    && s.shared.barrier.running == Total(RunningBits(s.threads))
    && s.shared.alive == Total(AliveBits(s.threads))
  }

  ghost predicate WinnersOK(s: State) {
    && |s.shared.winner| == s.shared.barrier.phase
    && (forall k :: 0 <= k < |s.shared.winner| ==>
          s.shared.winner[k] < |s.threads| && HasWon(s.threads[s.shared.winner[k]], k))
  }

  /** No lost wakeup at the barrier: a sleeper whose predicate holds has a notification coming. */
  ghost predicate WakeOK(s: State) {
    forall t | 0 <= t < |s.threads| ::
      s.threads[t].pc.WaitSleep? && s.shared.barrier.Open(s.threads[t].pc.phase) ==>
        Pending(s, s.threads[t].pc.phase)
  }

  /** Some thread will notify the sleepers of this phase. */
  ghost predicate Pending(s: State, phase: nat) {
    exists u :: 0 <= u < |s.threads| &&
      (WillNotifyOld(s.threads[u].pc) ||
       (phase == s.shared.barrier.phase && WillNotifyOpen(s.threads[u].pc)))
  }

  /** No lost wakeup in WaitForAllThreads. */
  ghost predicate EndOK(s: State) {
    forall t | 0 <= t < |s.threads| ::
      (s.threads[t].pc.JoinBlock? || s.threads[t].pc.JoinSleep?) && s.shared.alive == 0 ==>
        PendingEnd(s)
  }

  ghost predicate PendingEnd(s: State) {
    exists u :: 0 <= u < |s.threads| && WillNotifyEnd(s.threads[u].pc)
  }

  ghost predicate JoinedOK(s: State) {
    |s.threads| > 0 && (AfterJoin(s.threads[0].pc) ==> OthersDone(s))
  }

  ghost predicate ResultsOK(c: Config, s: State)
    requires Shaped(c, s)
  {
    && TallyOf(s.shared.results) == SumOf(Delivered(c, s.threads))
    && (forall k :: k in s.shared.results.counters ==> FlagsFrom(c, s, k))
  }

  /** The flags of a merged counter are those some delivering thread gave it. */
  ghost predicate FlagsFrom(c: Config, s: State, k: string)
    requires Shaped(c, s) && k in s.shared.results.counters
  {
    exists t :: 0 <= t < c.N() && Merged(s.threads[t].pc) && k in c.shares[t].counters &&
      c.shares[t].counters[k].flags == s.shared.results.counters[k].flags &&
      c.shares[t].counters[k].oneK == s.shared.results.counters[k].oneK
  }

  predicate HasReported(c: Config, s: State, t: nat)
    requires Shaped(c, s) && t < c.N()
  {
    |s.threads[t].errors| < |c.errors[t]|
  }

  /** An error is on record if and only if one has been reported, and it is the first one of some
      thread. */
  ghost predicate FailureOK(c: Config, s: State)
    requires Shaped(c, s)
  {
    && (s.shared.failure.None? ==> forall t :: 0 <= t < c.N() ==> !HasReported(c, s, t))
    && (s.shared.failure.Some? ==> exists t ::
          0 <= t < c.N() && HasReported(c, s, t) && c.errors[t][0].message == s.shared.failure.value)
  }

  ghost predicate Inv(c: Config, s: State) {
    && c.Valid() && Shaped(c, s) && OwnersExist(c, s.shared)
    && (forall t :: 0 <= t < c.N() ==> ThreadOK(c, s, t))
    && CountsOK(s) && WinnersOK(s) && WakeOK(s) && EndOK(s) && JoinedOK(s) && ResultsOK(c, s)
    && FailureOK(c, s)
  }

  // ---- Counting ----

  lemma {:induction false} AllOnes(w: seq<int>)
    requires forall i :: 0 <= i < |w| ==> w[i] == 1
    ensures Total(w) == |w|
  {
    if w != [] {
      AllOnes(w[1..]);
    }
  }

  /** Every count changes by what the moving thread alone contributes. */
  lemma CountMove(a: seq<int>, b: seq<int>, t: nat)
    requires t < |a| == |b|
    requires forall i :: 0 <= i < |a| && i != t ==> a[i] == b[i]
    ensures Total(b) == Total(a) - a[t] + b[t]
  {
    assert b == a[t := b[t]];
    TotalUpdate(a, t, b[t]);
  }

  /** `entered_ < running_threads_` while some running thread is outside the open phase:
      the CHECK in createBarrier holds. */
  lemma EnteredBelowRunning(s: State, t: nat)
    requires CountsOK(s) && t < |s.threads|
    requires Running(s.threads[t].pc) && !InPhase(s.threads[t].pc, s.shared.barrier.phase)
    ensures s.shared.barrier.entered < s.shared.barrier.running
  {
    TotalStrict(EnteredBits(s.threads, s.shared.barrier.phase), RunningBits(s.threads), t);
  }

  lemma AllRunningInPhase(s: State, t: nat)
    requires CountsOK(s) && s.shared.barrier.entered >= s.shared.barrier.running
    requires t < |s.threads| && Running(s.threads[t].pc)
    ensures InPhase(s.threads[t].pc, s.shared.barrier.phase)
  {
    if !InPhase(s.threads[t].pc, s.shared.barrier.phase) {
      EnteredBelowRunning(s, t);
    }
  }

  lemma AliveCounted(s: State, t: nat)
    requires CountsOK(s) && t < |s.threads| && Alive(s.threads[t].pc)
    ensures s.shared.alive > 0
  {
    var zeros := seq(|s.threads|, i => 0);
    TotalZero(zeros);
    TotalStrict(zeros, AliveBits(s.threads), t);
  }

  // ---- Every step keeps it ----

  lemma OwnThreadKept(c: Config, s: State, t: nat)
    requires Inv(c, s) && Enabled(c, s, t)
    ensures ThreadOK(c, Step(c, s, t), t)
  {
    var l := s.threads[t];
    assert ThreadOK(c, s, t);
    if Alive(l.pc) {
      AliveCounted(s, t);
    }
    if Running(l.pc) && !InPhase(l.pc, s.shared.barrier.phase) {
      EnteredBelowRunning(s, t);
    }
    OwnStepOK(t, l, s.shared, c.shares[t], c.waits[t], c.errors[t]);
  }

  lemma OtherThreadKept(c: Config, s: State, t: nat, i: nat)
    requires Inv(c, s) && Enabled(c, s, t) && i < c.N() && i != t
    ensures ThreadOK(c, Step(c, s, t), i)
  {
    var l, m := s.threads[t], s.threads[i];
    assert ThreadOK(c, s, t) && ThreadOK(c, s, i);
    if Alive(l.pc) {
      AliveCounted(s, t);
    }
    if l.pc.WaitFinish? && Running(m.pc) {
      AllRunningInPhase(s, i);
    }
    OtherStepOK(t, l, s.shared, c.shares[t], i, m, c.waits[i], c.errors[i]);
  }

  lemma ThreadsKept(c: Config, s: State, t: nat)
    requires Inv(c, s) && Enabled(c, s, t)
    ensures forall i :: 0 <= i < c.N() ==> ThreadOK(c, Step(c, s, t), i)
  {
    forall i | 0 <= i < c.N()
      ensures ThreadOK(c, Step(c, s, t), i)
    {
      if i == t {
        OwnThreadKept(c, s, t);
      } else {
        OtherThreadKept(c, s, t, i);
      }
    }
  }

  lemma OwnStepCounts(t: nat, l: Local, s: Shared, share: Stats, waits: nat)
    requires Lockstep(waits, l, s.barrier)
    requires Running(l.pc) && !InPhase(l.pc, s.barrier.phase) ==> s.barrier.entered < s.barrier.running
    ensures var o := Act(t, l, s, share);
      && (!l.pc.WaitFinish? ==>
            o.shared.barrier.phase == s.barrier.phase &&
            o.shared.barrier.entered == s.barrier.entered
              - Bit(InPhase(l.pc, s.barrier.phase)) + Bit(InPhase(o.me.pc, s.barrier.phase)))
      && o.shared.barrier.running == s.barrier.running - Bit(Running(l.pc)) + Bit(Running(o.me.pc))
      && o.shared.alive == s.alive - Bit(Alive(l.pc)) + Bit(Alive(o.me.pc))
  {
  }

  /** Being woken changes no count. */
  lemma WokenCounts(l: Local, signal: Signal, phase: nat)
    ensures Running(Woken(l, signal).pc) <==> Running(l.pc)
    ensures Alive(Woken(l, signal).pc) <==> Alive(l.pc)
    ensures Merged(Woken(l, signal).pc) <==> Merged(l.pc)
    ensures InPhase(Woken(l, signal).pc, phase) <==> InPhase(l.pc, phase)
  {
  }

  lemma TotalsMove(a: seq<Local>, b: seq<Local>, t: nat, signal: Signal)
    requires t < |a| == |b| && forall i :: 0 <= i < |a| && i != t ==> b[i] == Woken(a[i], signal)
    ensures Total(RunningBits(b)) == Total(RunningBits(a)) - Bit(Running(a[t].pc)) + Bit(Running(b[t].pc))
    ensures Total(AliveBits(b)) == Total(AliveBits(a)) - Bit(Alive(a[t].pc)) + Bit(Alive(b[t].pc))
  {
    forall i | 0 <= i < |a| && i != t
      ensures Running(b[i].pc) == Running(a[i].pc) && Alive(b[i].pc) == Alive(a[i].pc)
    {
      WokenCounts(a[i], signal, 0);
    }
    CountMove(RunningBits(a), RunningBits(b), t);
    CountMove(AliveBits(a), AliveBits(b), t);
  }

  lemma EnteredMove(a: seq<Local>, b: seq<Local>, t: nat, signal: Signal, phase: nat)
    requires t < |a| == |b| && forall i :: 0 <= i < |a| && i != t ==> b[i] == Woken(a[i], signal)
    ensures Total(EnteredBits(b, phase)) ==
      Total(EnteredBits(a, phase)) - Bit(InPhase(a[t].pc, phase)) + Bit(InPhase(b[t].pc, phase))
  {
    forall i | 0 <= i < |a| && i != t
      ensures InPhase(b[i].pc, phase) == InPhase(a[i].pc, phase)
    {
      WokenCounts(a[i], signal, phase);
    }
    CountMove(EnteredBits(a, phase), EnteredBits(b, phase), t);
  }

  lemma CountsKept(c: Config, s: State, t: nat)
    requires Inv(c, s) && Enabled(c, s, t)
    ensures CountsOK(Step(c, s, t))
  {
    var l, phase := s.threads[t], s.shared.barrier.phase;
    assert ThreadOK(c, s, t);
    if Running(l.pc) && !InPhase(l.pc, phase) {
      EnteredBelowRunning(s, t);
    }
    OwnStepCounts(t, l, s.shared, c.shares[t], c.waits[t]);
    var after, signal := Step(c, s, t).threads, Act(t, l, s.shared, c.shares[t]).signal;
    TotalsMove(s.threads, after, t, signal);
    EnteredMove(s.threads, after, t, signal, phase);
    if l.pc.WaitFinish? {
      NobodyInNextPhase(c, s, t);
    }
  }

  /** Completing a phase leaves nobody entered in the next one. */
  lemma NobodyInNextPhase(c: Config, s: State, t: nat)
    requires Inv(c, s) && Enabled(c, s, t) && s.threads[t].pc.WaitFinish?
    ensures var s' := Step(c, s, t); Total(EnteredBits(s'.threads, s'.shared.barrier.phase)) == 0
  {
    var s' := Step(c, s, t);
    var bits := EnteredBits(s'.threads, s'.shared.barrier.phase);
    forall i | 0 <= i < |bits|
      ensures bits[i] == 0
    {
      assert ThreadOK(c, s, i) && ThreadOK(c, s, t);
    }
    TotalZero(bits);
  }

  lemma OwnStepWins(t: nat, l: Local, s: Shared, share: Stats, waits: nat, k: nat)
    requires Lockstep(waits, l, s.barrier) && HasWon(l, k)
    ensures HasWon(Act(t, l, s, share).me, k)
  {
  }

  lemma OwnStepWinner(t: nat, l: Local, s: Shared, share: Stats)
    ensures var o := Act(t, l, s, share);
      if l.pc.WaitFinish? then
        o.shared.winner == s.winner + [t] && o.shared.barrier.phase == s.barrier.phase + 1 && HasWon(o.me, l.pc.phase)
      else o.shared.winner == s.winner && o.shared.barrier.phase == s.barrier.phase
  {
  }

  lemma WinnersKept(c: Config, s: State, t: nat)
    requires Inv(c, s) && Enabled(c, s, t)
    ensures WinnersOK(Step(c, s, t))
  {
    var s', l := Step(c, s, t), s.threads[t];
    assert ThreadOK(c, s, t);
    OwnStepWinner(t, l, s.shared, c.shares[t]);
    forall k | 0 <= k < |s'.shared.winner|
      ensures s'.shared.winner[k] < c.N() && HasWon(s'.threads[s'.shared.winner[k]], k)
    {
      if k < |s.shared.winner| {
        OldWinnerKept(c, s, t, k);
      }
    }
  }

  lemma OldWinnerKept(c: Config, s: State, t: nat, k: nat)
    requires Inv(c, s) && Enabled(c, s, t) && k < |s.shared.winner|
    ensures HasWon(Step(c, s, t).threads[s.shared.winner[k]], k)
  {
    var u := s.shared.winner[k];
    assert ThreadOK(c, s, t);
    if u == t {
      OwnStepWins(t, s.threads[t], s.shared, c.shares[t], c.waits[t], k);
    } else {
      WokenWins(s.threads[u], Act(t, s.threads[t], s.shared, c.shares[t]).signal, k);
    }
  }

  lemma WokenWins(l: Local, signal: Signal, k: nat)
    requires HasWon(l, k)
    ensures HasWon(Woken(l, signal), k)
  {
  }

  lemma InPhaseCounted(s: State, t: nat)
    requires CountsOK(s) && t < |s.threads| && InPhase(s.threads[t].pc, s.shared.barrier.phase)
    ensures s.shared.barrier.entered > 0
  {
    var zeros := seq(|s.threads|, i => 0);
    TotalZero(zeros);
    TotalStrict(zeros, EnteredBits(s.threads, s.shared.barrier.phase), t);
  }

  /** A thread whose step makes a predicate true takes on the duty to notify. */
  lemma OpenerNotifies(t: nat, l: Local, s: Shared, share: Stats, waits: nat, phase: nat)
    requires Lockstep(waits, l, s.barrier) && !s.barrier.Open(phase) && phase <= s.barrier.phase
    requires Running(l.pc) && !InPhase(l.pc, s.barrier.phase) ==> s.barrier.entered < s.barrier.running
    ensures var o := Act(t, l, s, share);
      o.shared.barrier.Open(phase) ==>
        WillNotifyOld(o.me.pc) || (phase == o.shared.barrier.phase && WillNotifyOpen(o.me.pc))
  {
  }

  /** A thread with the duty to notify keeps it or discharges it. */
  lemma NotifierNotifies(t: nat, l: Local, s: Shared, share: Stats)
    requires WillNotifyOld(l.pc) || WillNotifyOpen(l.pc)
    requires s.barrier.entered > 0 || !l.pc.RemoveNotify?
    ensures var o := Act(t, l, s, share); WillNotifyOld(o.me.pc) || o.signal == WakePhase
  {
  }

  lemma WakeKept(c: Config, s: State, t: nat)
    requires Inv(c, s) && Enabled(c, s, t)
    ensures WakeOK(Step(c, s, t))
  {
    var s' := Step(c, s, t);
    forall i | 0 <= i < c.N() && s'.threads[i].pc.WaitSleep? && s'.shared.barrier.Open(s'.threads[i].pc.phase)
      ensures Pending(s', s'.threads[i].pc.phase)
    {
      if i == t {
        FreshSleeperIsShut(t, s.threads[t], s.shared, c.shares[t]);
      } else {
        SleeperHasNotifier(c, s, t, i);
      }
    }
  }

  /** A thread goes to sleep only on a predicate that is false. */
  lemma FreshSleeperIsShut(t: nat, l: Local, s: Shared, share: Stats)
    requires !l.pc.WaitSleep?
    ensures var o := Act(t, l, s, share);
      o.me.pc.WaitSleep? ==> !o.shared.barrier.Open(o.me.pc.phase) && o.signal == Quiet
  {
  }

  lemma SleeperHasNotifier(c: Config, s: State, t: nat, i: nat)
    requires Inv(c, s) && Enabled(c, s, t) && i < c.N() && i != t
    requires var s' := Step(c, s, t);
      s'.threads[i].pc.WaitSleep? && s'.shared.barrier.Open(s'.threads[i].pc.phase)
    ensures var s' := Step(c, s, t); Pending(s', s'.threads[i].pc.phase)
  {
    var s', l, phase := Step(c, s, t), s.threads[t], s.threads[i].pc.phase;
    assert ThreadOK(c, s, t) && ThreadOK(c, s, i);
    if s.shared.barrier.Open(phase) {
      PendingStays(c, s, t, i);
    } else {
      if Running(l.pc) && !InPhase(l.pc, s.shared.barrier.phase) {
        EnteredBelowRunning(s, t);
      }
      OpenerNotifies(t, l, s.shared, c.shares[t], c.waits[t], phase);
      assert s'.threads[t] == Act(t, l, s.shared, c.shares[t]).me;
    }
  }

  lemma PendingStays(c: Config, s: State, t: nat, i: nat)
    requires Inv(c, s) && Enabled(c, s, t) && i < c.N() && i != t
    requires s.threads[i].pc.WaitSleep? && s.shared.barrier.Open(s.threads[i].pc.phase)
    requires Step(c, s, t).threads[i].pc.WaitSleep?
    ensures Pending(Step(c, s, t), s.threads[i].pc.phase)
  {
    var s', l, m := Step(c, s, t), s.threads[t], s.threads[i];
    assert Pending(s, m.pc.phase);
    var u :| 0 <= u < c.N() && (WillNotifyOld(s.threads[u].pc) ||
      (m.pc.phase == s.shared.barrier.phase && WillNotifyOpen(s.threads[u].pc)));
    assert ThreadOK(c, s, t) && ThreadOK(c, s, u);
    if u == t {
      if l.pc.RemoveNotify? {
        InPhaseCounted(s, i);
      }
      NotifierNotifies(t, l, s.shared, c.shares[t]);
      assert s'.threads[i] == Woken(m, Act(t, l, s.shared, c.shares[t]).signal);
      assert WillNotifyOld(s'.threads[t].pc);
    } else {
      NotifierStays(t, l, s.shared, c.shares[t], u, s.threads[u]);
      assert s'.threads[u].pc == s.threads[u].pc;
    }
  }

  /** Another thread's step relieves nobody of the duty to notify. */
  lemma NotifierStays(t: nat, l: Local, s: Shared, share: Stats, u: nat, m: Local)
    requires u != t && Owns(t, l.pc, s) && Owns(u, m.pc, s)
    requires WillNotifyOld(m.pc) || WillNotifyOpen(m.pc) || WillNotifyEnd(m.pc)
    ensures var o := Act(t, l, s, share);
      && Woken(m, o.signal) == m
      && (WillNotifyOpen(m.pc) ==> o.shared.barrier.phase == s.barrier.phase)
  {
  }

  lemma EndKept(c: Config, s: State, t: nat)
    requires Inv(c, s) && Enabled(c, s, t)
    ensures EndOK(Step(c, s, t))
  {
    var s', l := Step(c, s, t), s.threads[t];
    assert ThreadOK(c, s, t);
    forall i | 0 <= i < c.N() && (s'.threads[i].pc.JoinBlock? || s'.threads[i].pc.JoinSleep?) && s'.shared.alive == 0
      ensures PendingEnd(s')
    {
      EndOwnStep(t, l, s.shared, c.shares[t]);
      if !WillNotifyEnd(s'.threads[t].pc) {
        assert PendingEnd(s);
        var u :| 0 <= u < c.N() && WillNotifyEnd(s.threads[u].pc);
        assert ThreadOK(c, s, u) && ThreadOK(c, s, i);
        if u == t {
          EndNotifierNotifies(t, l, s.shared, c.shares[t], i, s.threads[i]);
        } else {
          NotifierStays(t, l, s.shared, c.shares[t], u, s.threads[u]);
          assert WillNotifyEnd(s'.threads[u].pc);
        }
      }
    }
  }

  /** A step that empties alive_threads_ takes on the duty to notify; a step into the
      blocking states means that the counter was seen above zero, or that nothing changed. */
  lemma EndOwnStep(t: nat, l: Local, s: Shared, share: Stats)
    ensures var o := Act(t, l, s, share);
      && (o.shared.alive == 0 && s.alive != 0 ==> WillNotifyEnd(o.me.pc))
      && (o.me.pc.JoinBlock? || o.me.pc.JoinSleep? ==>
            l.pc.JoinBlock? || l.pc.JoinSleep? || o.shared.alive != 0)
  {
  }

  lemma EndNotifierNotifies(t: nat, l: Local, s: Shared, share: Stats, i: nat, m: Local)
    requires i != t && Owns(t, l.pc, s) && Owns(i, m.pc, s) && WillNotifyEnd(l.pc)
    ensures var o := Act(t, l, s, share);
      WillNotifyEnd(o.me.pc) || !(Woken(m, o.signal).pc.JoinBlock? || Woken(m, o.signal).pc.JoinSleep?)
  {
  }

  lemma JoinedKept(c: Config, s: State, t: nat)
    requires Inv(c, s) && Enabled(c, s, t)
    ensures JoinedOK(Step(c, s, t))
  {
    var s' := Step(c, s, t);
    if AfterJoin(s'.threads[0].pc) {
      assert OthersDone(s);
      assert t == 0;
    }
  }

  // ---- The shared record ----

  /** A step by thread t changes the deliveries only at t, and only from nothing to its share. */
  lemma DeliveredMove(c: Config, s: State, t: nat)
    requires Shaped(c, s) && Enabled(c, s, t)
    ensures var s', l := Step(c, s, t), s.threads[t];
      if l.pc.MergeAdd? then
        Delivered(c, s.threads)[t] == ZeroTally &&
        Delivered(c, s'.threads) == Delivered(c, s.threads)[t := TallyOf(c.shares[t])]
      else
        Delivered(c, s'.threads) == Delivered(c, s.threads) && s'.shared.results == s.shared.results
  {
    var s', l := Step(c, s, t), s.threads[t];
    var signal := Act(t, l, s.shared, c.shares[t]).signal;
    forall i | 0 <= i < c.N() && i != t
      ensures Merged(s'.threads[i].pc) == Merged(s.threads[i].pc)
    {
      WokenCounts(s.threads[i], signal, 0);
    }
    OwnStepMerges(t, l, s.shared, c.shares[t]);
  }

  lemma OwnStepMerges(t: nat, l: Local, s: Shared, share: Stats)
    requires !l.pc.WaitSleep?
    ensures var o := Act(t, l, s, share);
      && (Merged(o.me.pc) <==> Merged(l.pc) || l.pc.MergeAdd?)
      && o.shared.results == if l.pc.MergeAdd? then Merge(s.results, share) else s.results
  {
  }

  lemma ResultsKept(c: Config, s: State, t: nat)
    requires Inv(c, s) && Enabled(c, s, t)
    ensures ResultsOK(c, Step(c, s, t))
  {
    var s', l := Step(c, s, t), s.threads[t];
    DeliveredMove(c, s, t);
    OwnStepMerges(t, l, s.shared, c.shares[t]);
    if l.pc.MergeAdd? {
      SumDeliver(Delivered(c, s.threads), t, TallyOf(c.shares[t]));
      MergeAddsTallies(s.shared.results, c.shares[t]);
    }
    forall k | k in s'.shared.results.counters
      ensures FlagsFrom(c, s', k)
    {
      FlagsKept(c, s, t, k);
    }
  }

  lemma FlagsKept(c: Config, s: State, t: nat, k: string)
    requires Inv(c, s) && Enabled(c, s, t) && k in Step(c, s, t).shared.results.counters
    ensures FlagsFrom(c, Step(c, s, t), k)
  {
    var s', l := Step(c, s, t), s.threads[t];
    OwnStepMerges(t, l, s.shared, c.shares[t]);
    if k in s.shared.results.counters {
      assert FlagsFrom(c, s, k);
      var u :| 0 <= u < c.N() && Merged(s.threads[u].pc) && k in c.shares[u].counters &&
        c.shares[u].counters[k].flags == s.shared.results.counters[k].flags &&
        c.shares[u].counters[k].oneK == s.shared.results.counters[k].oneK;
      if u != t {
        WokenCounts(s.threads[u], Act(t, l, s.shared, c.shares[t]).signal, 0);
      }
      assert Merged(s'.threads[u].pc);
    } else {
      assert Merged(s'.threads[t].pc);
    }
  }

  // ---- The error on record ----

  /** The first error stays, and one is recorded when a thread reports its first. */
  lemma OwnStepFails(t: nat, l: Local, s: Shared, share: Stats)
    requires l.pc.SkipSet? ==> l.errors != []
    ensures var o := Act(t, l, s, share);
      && (!l.pc.SkipSet? ==> o.me.errors == l.errors && o.shared.failure == s.failure)
      && (l.pc.SkipSet? ==>
            && o.me.errors == l.errors[1..]
            && o.shared.failure == if s.failure.None? then Some(l.errors[0].message) else s.failure)
  {
  }

  lemma FailureKept(c: Config, s: State, t: nat)
    requires Inv(c, s) && Enabled(c, s, t)
    ensures FailureOK(c, Step(c, s, t))
    ensures s.shared.failure.Some? ==> Step(c, s, t).shared.failure == s.shared.failure
  {
    var s', l := Step(c, s, t), s.threads[t];
    assert ThreadOK(c, s, t);
    OwnStepFails(t, l, s.shared, c.shares[t]);
    forall u | 0 <= u < c.N()
      ensures HasReported(c, s', u) == (HasReported(c, s, u) || (u == t && l.pc.SkipSet?))
    {
    }
    if s.shared.failure.Some? {
      var u :| 0 <= u < c.N() && HasReported(c, s, u) && c.errors[u][0].message == s.shared.failure.value;
      assert HasReported(c, s', u);
    } else if l.pc.SkipSet? {
      assert !HasReported(c, s, t) && HasReported(c, s', t);
    }
  }

  // ---- All together ----

  lemma StepKeeps(c: Config, s: State, t: nat)
    requires Inv(c, s) && Enabled(c, s, t)
    ensures Inv(c, Step(c, s, t))
  {
    ThreadsKept(c, s, t);
    CountsKept(c, s, t);
    WinnersKept(c, s, t);
    WakeKept(c, s, t);
    EndKept(c, s, t);
    JoinedKept(c, s, t);
    ResultsKept(c, s, t);
    FailureKept(c, s, t);
  }

  lemma WokenIsOK(t: nat, l: Local, s: Shared, waits: nat, signal: Signal)
    requires Owns(t, l.pc, s) && Lockstep(waits, l, s.barrier) && Role(t, l.pc, s)
    ensures var l' := Woken(l, signal);
      Owns(t, l'.pc, s) && Lockstep(waits, l', s.barrier) && Role(t, l'.pc, s)
    ensures forall all :: Reporting(all, l) ==> Reporting(all, Woken(l, signal))
    ensures forall k :: HasWon(l, k) ==> HasWon(Woken(l, signal), k)
  {
  }

  lemma WokenVerdicts(t: nat, l: Local, winner: seq<nat>, signal: Signal)
    requires Verdicts(t, l, winner)
    ensures Verdicts(t, Woken(l, signal), winner)
  {
    assert Woken(l, signal).returned == l.returned;
  }

  lemma StirCounts(c: Config, s: State, t: nat)
    requires Shaped(c, s) && CountsOK(s) && ResultsOK(c, s) && CanStir(c, s, t)
    ensures CountsOK(Stir(c, s, t)) && ResultsOK(c, Stir(c, s, t))
  {
    var s' := Stir(c, s, t);
    var phase := s.shared.barrier.phase;
    WokenCounts(s.threads[t], WakePhase, phase);
    WokenCounts(s.threads[t], WakeEnd, phase);
    assert RunningBits(s'.threads) == RunningBits(s.threads);
    assert AliveBits(s'.threads) == AliveBits(s.threads);
    assert EnteredBits(s'.threads, phase) == EnteredBits(s.threads, phase);
    assert Delivered(c, s'.threads) == Delivered(c, s.threads);
    forall k | k in s'.shared.results.counters
      ensures FlagsFrom(c, s', k)
    {
      assert FlagsFrom(c, s, k);
      var u :| 0 <= u < c.N() && Merged(s.threads[u].pc) && k in c.shares[u].counters &&
        c.shares[u].counters[k].flags == s.shared.results.counters[k].flags &&
        c.shares[u].counters[k].oneK == s.shared.results.counters[k].oneK;
      assert Merged(s'.threads[u].pc);
    }
  }

  lemma StirDuties(c: Config, s: State, t: nat)
    requires Shaped(c, s) && WakeOK(s) && EndOK(s) && CanStir(c, s, t)
    ensures WakeOK(Stir(c, s, t)) && EndOK(Stir(c, s, t))
  {
    var s' := Stir(c, s, t);
    forall i | 0 <= i < c.N() && s'.threads[i].pc.WaitSleep? && s'.shared.barrier.Open(s'.threads[i].pc.phase)
      ensures Pending(s', s'.threads[i].pc.phase)
    {
      var phase := s.threads[i].pc.phase;
      var u :| 0 <= u < c.N() && (WillNotifyOld(s.threads[u].pc) ||
        (phase == s.shared.barrier.phase && WillNotifyOpen(s.threads[u].pc)));
      assert s'.threads[u] == s.threads[u];
    }
    forall i | 0 <= i < c.N() && (s'.threads[i].pc.JoinBlock? || s'.threads[i].pc.JoinSleep?) && s'.shared.alive == 0
      ensures PendingEnd(s')
    {
      var u :| 0 <= u < c.N() && WillNotifyEnd(s.threads[u].pc);
      assert s'.threads[u] == s.threads[u];
    }
  }

  lemma StirKeeps(c: Config, s: State, t: nat)
    requires Inv(c, s) && CanStir(c, s, t)
    ensures Inv(c, Stir(c, s, t))
  {
    var s', l := Stir(c, s, t), s.threads[t];
    StirCounts(c, s, t);
    StirDuties(c, s, t);
    assert ThreadOK(c, s, t);
    var signal := if l.pc.WaitSleep? then WakePhase else WakeEnd;
    WokenIsOK(t, l, s.shared, c.waits[t], signal);
    WokenVerdicts(t, l, s.shared.winner, signal);
    forall i | 0 <= i < c.N()
      ensures ThreadOK(c, s', i)
    {
      assert ThreadOK(c, s, i);
    }
    StirFailure(c, s, t);
  }

  lemma StirFailure(c: Config, s: State, t: nat)
    requires Shaped(c, s) && FailureOK(c, s) && CanStir(c, s, t)
    ensures FailureOK(c, Stir(c, s, t))
  {
    var s' := Stir(c, s, t);
    assert forall u :: 0 <= u < c.N() ==> HasReported(c, s', u) == HasReported(c, s, u);
  }

  lemma InitialCounts(c: Config)
    requires c.Valid()
    ensures CountsOK(Initial(c))
  {
    var s := Initial(c);
    TotalZero(EnteredBits(s.threads, 0));
    AllOnes(RunningBits(s.threads));
    AllOnes(AliveBits(s.threads));
  }

  lemma NothingDelivered(c: Config, ls: seq<Local>)
    requires |ls| == |c.shares| && forall i :: 0 <= i < |ls| ==> !Merged(ls[i].pc)
    ensures SumOf(Delivered(c, ls)) == ZeroTally
  {
    SumOfZeros(Delivered(c, ls));
  }

  lemma InitialResults(c: Config)
    requires c.Valid()
    ensures ResultsOK(c, Initial(c))
  {
    NothingDelivered(c, Initial(c).threads);
    assert TallyOf(EmptyStats).counters == map[];
  }

  lemma InitialFailure(c: Config)
    requires c.Valid()
    ensures FailureOK(c, Initial(c))
  {
    forall t | 0 <= t < c.N()
      ensures !HasReported(c, Initial(c), t)
    {
      assert Initial(c).threads[t].errors == c.errors[t];
    }
  }

  lemma InitialThread(c: Config, t: nat)
    requires c.Valid() && t < c.N()
    ensures ThreadOK(c, Initial(c), t)
    ensures Initial(c).threads[t].pc == Body
  {
    assert Initial(c).threads[t] == Local(Body, c.waits[t], [], c.errors[t]);
  }

  lemma InitialInv(c: Config)
    requires c.Valid()
    ensures Inv(c, Initial(c))
  {
    InitialCounts(c);
    InitialResults(c);
    InitialFailure(c);
    forall t | 0 <= t < c.N()
      ensures ThreadOK(c, Initial(c), t) && Initial(c).threads[t].pc == Body
    {
      InitialThread(c, t);
    }
  }

  /** Every state reached under any schedule, spurious wakeups included. */
  lemma {:induction false} ReachableInv(c: Config, s: State, es: seq<Event>, s': State)
    requires Inv(c, s) && Leads(c, s, es, s')
    ensures Inv(c, s')
    decreases es
  {
    if es != [] {
      match es[0] {
        case Run(t) => StepKeeps(c, s, t);
        case Spurious(t) => StirKeeps(c, s, t);
      }
      ReachableInv(c, Next(c, s, es[0]), es[1..], s');
    }
  }
}

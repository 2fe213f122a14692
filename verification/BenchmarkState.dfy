/** `State` and `ThreadTimer` as the objects they are, and `RunInThread` on them. Every method has
    the effect that `StateTimer` describes; the checks are the methods' preconditions. */
module BenchmarkState {
  import opened Basics
  import opened Counters
  import opened ThreadManager
  import S = StateTimer

  class ThreadTimer {
    var running: bool
    var startRealTime: real
    var startCpuTime: real
    var realTimeUsed: real
    var cpuTimeUsed: real
    var manualTimeUsed: real

    constructor ()
      ensures Snap() == S.NEW_TIMER
    {
      running, startRealTime, startCpuTime := false, 0.0, 0.0;
      realTimeUsed, cpuTimeUsed, manualTimeUsed := 0.0, 0.0, 0.0;
    }

    ghost function Snap(): S.Timer
      reads this
    {
      S.Timer(running, startRealTime, startCpuTime, realTimeUsed, cpuTimeUsed, manualTimeUsed)
    }

    method StartTimer(now: S.Now)
      modifies this
      ensures Snap() == S.StartTimer(old(Snap()), now)
    {
      running := true;
      startRealTime := now.wall;
      startCpuTime := now.cpu;
    }

    method StopTimer(now: S.Now)
      requires running
      modifies this
      ensures Snap() == S.StopTimer(old(Snap()), now)
    {
      running := false;
      realTimeUsed := realTimeUsed + (now.wall - startRealTime);
      cpuTimeUsed := cpuTimeUsed + MaxReal(now.cpu - startCpuTime, 0.0);
    }

    method SetIterationTime(seconds: real)
      modifies this
      ensures Snap() == old(Snap()).(manualUsed := old(Snap()).manualUsed + seconds)
    {
      manualTimeUsed := manualTimeUsed + seconds;
    }
  }

  class State {
    var totalIterations: int
    var batchLeftover: int
    const maxIterations: int
    var started: bool
    var finished: bool
    var errorOccurred: bool
    const timer: ThreadTimer
    const manager: Manager
    /** The counter of the iterator of a range-based loop, or -1. */
    var cached: int
    /** How often `StartStopBarrier` was called. */
    var barriers: nat

    constructor (maxIters: int, timer: ThreadTimer, manager: Manager)
      requires maxIters > 0 && timer.Snap() == S.NEW_TIMER
      ensures this.timer == timer && this.manager == manager
      ensures Snap() == S.NewState(maxIters)
    {
      totalIterations, batchLeftover, maxIterations := 0, 0, maxIters;
      started, finished, errorOccurred := false, false, false;
      cached, barriers := -1, 0;
      this.timer, this.manager := timer, manager;
    }

    ghost function Snap(): S.Snapshot
      reads this, timer
    {
      S.Snapshot(totalIterations, batchLeftover, maxIterations, started, finished, errorOccurred,
                 timer.Snap(), cached, barriers)
    }

    method PauseTiming(now: S.Now)
      requires S.InLoop(Snap()) && timer.running
      modifies timer
      ensures Snap() == S.PauseTiming(old(Snap()), now)
    {
      timer.StopTimer(now);
    }

    method ResumeTiming(now: S.Now)
      requires S.InLoop(Snap())
      modifies timer
      ensures Snap() == S.ResumeTiming(old(Snap()), now)
    {
      timer.StartTimer(now);
    }

    /** Only the first error of all threads is kept. */
    method SkipWithError(msg: string, now: S.Now)
      modifies this`errorOccurred, this`totalIterations, timer, manager`hasError, manager`errorMessage
      ensures Snap() == S.SkipWithError(old(Snap()), now)
      ensures manager.Failure() == if old(manager.Failure()).Some? then old(manager.Failure()) else Some(msg)
    {
      errorOccurred := true;
      manager.RecordError(msg);
      totalIterations := 0;
      if timer.running {
        timer.StopTimer(now);
      }
    }

    method StartKeepRunning(now: S.Now)
      requires !started && !finished
      modifies this`started, this`totalIterations, this`barriers, timer
      ensures Snap() == S.StartKeepRunning(old(Snap()), now)
    {
      started := true;
      totalIterations := if errorOccurred then 0 else maxIterations;
      barriers := barriers + 1;
      if !errorOccurred {
        ResumeTiming(now);
      }
    }

    method FinishKeepRunning(now: S.Now)
      requires S.MayFinish(Snap())
      modifies this`finished, this`totalIterations, this`barriers, timer
      ensures Snap() == S.FinishKeepRunning(old(Snap()), now)
    {
      if !errorOccurred {
        PauseTiming(now);
      }
      totalIterations := 0;
      finished := true;
      barriers := barriers + 1;
    }

    method KeepRunningInternal(n: int, isBatch: bool, now: S.Now) returns (more: bool)
      requires S.MayKeepRunning(Snap(), n, isBatch)
      modifies this`started, this`finished, this`totalIterations, this`batchLeftover, this`barriers, timer
      ensures (Snap(), more) == S.KeepRunning(old(Snap()), n, isBatch, now)
    {
      if totalIterations >= n {
        totalIterations := totalIterations - n;
        return true;
      }
      if !started {
        StartKeepRunning(now);
        if !errorOccurred && totalIterations >= n {
          totalIterations := totalIterations - n;
          return true;
        }
      }
      if isBatch && totalIterations != 0 {
        batchLeftover := n - totalIterations;
        totalIterations := 0;
        return true;
      }
      FinishKeepRunning(now);
      return false;
    }

    /** `begin`, `end` and the first comparison of a range-based loop. */
    method RangeBegin(now: S.Now) returns (more: bool)
      requires S.Admits(Snap(), S.RangeBegin) && maxIterations > 0
      modifies this`started, this`finished, this`totalIterations, this`barriers, this`cached, timer
      ensures Snap() == S.Apply(old(Snap()), S.RangeBegin, now)
      ensures more == (cached != 0)
    {
      cached := if errorOccurred then 0 else maxIterations;
      StartKeepRunning(now);
      if cached != 0 {
        return true;
      }
      FinishKeepRunning(now);
      return false;
    }

    /** `++` and the next comparison. */
    method RangeAdvance(now: S.Now) returns (more: bool)
      requires S.Admits(Snap(), S.RangeAdvance) && maxIterations > 0
      modifies this`finished, this`totalIterations, this`barriers, this`cached, timer
      ensures Snap() == S.Apply(old(Snap()), S.RangeAdvance, now)
      ensures more == (cached != 0)
    {
      cached := cached - 1;
      if cached != 0 {
        return true;
      }
      FinishKeepRunning(now);
      return false;
    }

    /** One call of the benchmark function. */
    method Perform(op: S.Op, now: S.Now)
      requires S.Admits(Snap(), op) && maxIterations > 0
      modifies this, timer, manager`hasError, manager`errorMessage
      ensures Snap() == S.Apply(old(Snap()), op, now)
      ensures manager.Failure() ==
        if old(manager.Failure()).None? && op.Skip? then Some(op.message) else old(manager.Failure())
    {
      match op {
        case Pause => PauseTiming(now);
        case Resume => ResumeTiming(now);
        case Skip(message) => SkipWithError(message, now);
        case SetIterationTime(seconds) => timer.SetIterationTime(seconds);
        case KeepRunningOp(n, isBatch) => var _ := KeepRunningInternal(n, isBatch, now);
        case RangeBegin => var _ := RangeBegin(now);
        case RangeAdvance => var _ := RangeAdvance(now);
      }
    }

    /** The whole benchmark function: every sequence of calls that its checks admit. */
    method RunFunction(calls: seq<S.Call>, ghost clock: real)
      requires maxIterations > 0 && Snap() == S.NewState(maxIterations)
      requires S.Admitted(S.Begin(maxIterations, clock), calls)
      modifies this, timer, manager`hasError, manager`errorMessage
      ensures Snap() == S.After(S.Begin(maxIterations, clock), calls).s
      ensures manager.Failure() ==
        if old(manager.Failure()).None? then FirstMessage(calls) else old(manager.Failure())
    {
      ghost var t := S.Begin(maxIterations, clock);
      ghost var goal := S.After(t, calls);
      var i := 0;
      assert calls[0..] == calls;
      while i < |calls|
        invariant 0 <= i <= |calls| && t.s == Snap() && t.s.max > 0
        invariant S.Admitted(t, calls[i..]) && S.After(t, calls[i..]) == goal
        invariant (if manager.Failure().None? then FirstMessage(calls[i..]) else manager.Failure()) ==
          if old(manager.Failure()).None? then FirstMessage(calls) else old(manager.Failure())
      {
        assert calls[i..][0] == calls[i] && calls[i..][1..] == calls[i + 1..];
        Perform(calls[i].op, calls[i].now);
        t := S.Step(t, calls[i]);
        i := i + 1;
      }
      assert calls[i..] == [];
    }
  }

  /** The message of the first error. */
  function FirstMessage(calls: seq<S.Call>): Option<string> {
    if calls == [] then None
    else if calls[0].op.Skip? then Some(calls[0].op.message)
    else FirstMessage(calls[1..])
  }

  /** What a thread measured, with the counters and the size that its function has set. */
  function ShareOf(s: S.Snapshot, complexityN: int, counters: UserCounters): Stats {
    Stats(S.Iterations(s), s.timer.cpuUsed, s.timer.realUsed, s.timer.manualUsed, complexityN, counters)
  }

  /** `RunInThread` up to its notification. The benchmark function must not return before its loop
      has ended, unless it has failed, and the timer must have stopped when it is read. */
  method RunInThread(manager: Manager, iters: int, calls: seq<S.Call>, ghost clock: real,
                     complexityN: int, counters: UserCounters)
    requires iters > 0 && S.Admitted(S.Begin(iters, clock), calls)
    requires var s := S.After(S.Begin(iters, clock), calls).s; S.ReturnIsChecked(s) && !s.timer.running
    modifies manager`results, manager`hasError, manager`errorMessage
    ensures var t, was, got := S.After(S.Begin(iters, clock), calls), old(manager.results), manager.results;
      && got == Merge(was, ShareOf(t.s, complexityN, counters))
      && got.iterations == was.iterations + (if t.s.started then iters + t.s.leftover else 0)
      && got.realTime == was.realTime + S.Length(t.slices) && got.cpuTime == was.cpuTime + S.CpuLength(t.slices)
      && got.manualTime == was.manualTime + S.Sum(t.manual) && got.complexityN == was.complexityN + complexityN
      && got.realTime >= was.realTime && got.cpuTime >= was.cpuTime
      && (t.s.errored <==> FirstMessage(calls).Some?)
    ensures manager.Failure() ==
      if old(manager.Failure()).None? then FirstMessage(calls) else old(manager.Failure())
  {
    var timer := new ThreadTimer();
    var st := new State(iters, timer, manager);
    st.RunFunction(calls, clock);
    S.AlwaysInv(S.Begin(iters, clock), calls);
    S.TimesAreNonNegative(iters, clock, calls);
    ErroredIff(S.Begin(iters, clock), calls);
    manager.AddShare(Stats(if st.started then st.maxIterations - st.totalIterations + st.batchLeftover else 0,
                           timer.cpuTimeUsed, timer.realTimeUsed, timer.manualTimeUsed, complexityN, counters));
  }

  /** A thread has failed exactly when its function has called `SkipWithError`. */
  lemma {:induction false} ErroredIff(t: S.Trace, calls: seq<S.Call>)
    requires t.s.max > 0 && S.Admitted(t, calls)
    ensures S.After(t, calls).s.errored <==> t.s.errored || FirstMessage(calls).Some?
    decreases |calls|
  {
    if calls != [] {
      ErroredIff(S.Step(t, calls[0]), calls[1..]);
    }
  }
}

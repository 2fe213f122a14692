/** N threads running `RunInThread` against one `ThreadManager`, interleaved step by
    step. Mutexes have explicit owners, condition variables explicit sleepers, and a
    notification is a step of its own, so that the windows between releasing a lock and
    notifying, and between dropping an atomic counter and taking a lock, are all there. */
module ThreadProtocol {
  import opened Basics
  import opened Counters
  import opened ThreadManager
  import opened Sums

  /** Where a thread is. The comments give the code it is about to run. */
  datatype PC =
    | Body                                  // the benchmark function, between its calls
    | SkipLock                              // benchmark.cc:177, wants the benchmark mutex
    | SkipSet                               // benchmark.cc:178-181, holds it
    | SkipUnlock                            // benchmark.cc:182, holds it
    | WaitLock                              // mutex.h:107, wants lock_
    | WaitEnter                             // mutex.h:133-136, holds lock_
    | WaitTest(phase: nat)                  // mutex.h:138-143, holds lock_
    | WaitSleep(phase: nat)                 // asleep on phase_condition_
    | WaitRelock(phase: nat)                // woken, wants lock_ back
    | WaitFinish(phase: nat)                // mutex.h:147-148, holds lock_
    | WaitUnlock(phase: nat, last: bool)    // mutex.h:109, holds lock_
    | WaitNotify(phase: nat)                // mutex.h:110, lock_ already released
    | MergeLock                             // benchmark_runner.cc:123, wants the benchmark mutex
    | MergeAdd                              // benchmark_runner.cc:124-130, holds it
    | MergeUnlock                           // benchmark_runner.cc:131, holds it
    | RemoveLock                            // mutex.h:115, wants lock_
    | RemoveCount                           // mutex.h:116, holds lock_
    | RemoveNotify                          // mutex.h:117, holds lock_
    | RemoveUnlock                          // mutex.h:118, holds lock_
    | AliveCount                            // thread_manager.h:27, atomic decrement
    | EndLock                               // thread_manager.h:28, wants end_cond_mutex_
    | EndNotify                             // thread_manager.h:29, holds it
    | EndUnlock                             // thread_manager.h:30, holds it
    | Done                                  // a pool thread has returned
    // The main thread goes on to wait for the others:
    | JoinLock                              // thread_manager.h:34, wants end_cond_mutex_
    | JoinTest                              // thread_manager.h:36, holds it
    | JoinBlock                             // predicate was false; about to release and sleep
    | JoinSleep                             // asleep on end_condition_
    | JoinRelock                            // woken, wants end_cond_mutex_ back
    | JoinUnlock                            // thread_manager.h:37, holds it
    | JoinThreads                           // benchmark_runner.cc:218
    | ReadLock                              // benchmark_runner.cc:223, wants the benchmark mutex
    | ReadResults                           // benchmark_runner.cc:224, holds it
    | ReadUnlock                            // benchmark_runner.cc:225, holds it
    | Destroy                               // benchmark_runner.cc:228
    | Finished

  /** One call of `SkipWithError`, made when at most `left` barrier calls are left. */
  datatype Failure = Failure(left: nat, message: string)

  /** How often each thread calls the barrier, what it measures, and the errors it reports. */
  datatype Config = Config(waits: seq<nat>, shares: seq<Stats>, errors: seq<seq<Failure>>)
  {
    ghost predicate Valid() {
      0 < |waits| == |shares| == |errors|
    }

    function N(): nat {
      |waits|
    }
  }

  /** What belongs to one thread. `todo` counts the barrier calls it has not entered yet,
      `returned` is what its barrier calls returned so far, `errors` are still to be reported. */
  datatype Local = Local(pc: PC, todo: nat, returned: seq<bool>, errors: seq<Failure>)

  /** What all threads share. A mutex is -1 when free, else its owner. */
  datatype Shared = Shared(
    lock: int, barrier: BarrierData,        // lock_ and what it protects
    benchLock: int, results: Stats,         // the benchmark mutex and the shared record
    failure: Option<string>,                // has_error_ and error_message_ of the same record
    alive: int,                             // alive_threads_
    endLock: int,                           // end_cond_mutex_
    winner: seq<nat>,                       // history: which thread completed each phase
    report: Stats, failureRead: Option<string>) // what the main thread read

  datatype State = State(threads: seq<Local>, shared: Shared)

  function Initial(c: Config): State
    requires |c.errors| == c.N()
  {
    State(seq(c.N(), i requires 0 <= i < c.N() => Local(Body, c.waits[i], [], c.errors[i])),
          Shared(-1, BarrierData(c.N(), 0, 0), -1, EmptyStats, None, c.N(), -1, [], EmptyStats, None))
  }

  predicate Shaped(c: Config, s: State) {
    |s.threads| == |c.shares| == |c.errors| == c.N() > 0
  }

  predicate OthersDone(s: State) {
    forall i :: 1 <= i < |s.threads| ==> s.threads[i].pc.Done?
  }

  /** Whether thread t can take its next step. */
  predicate Enabled(c: Config, s: State, t: nat)
    requires Shaped(c, s)
  {
    t < c.N() &&
    match s.threads[t].pc
    case WaitLock | WaitRelock(_) | RemoveLock => s.shared.lock == -1
    case SkipLock | MergeLock | ReadLock => s.shared.benchLock == -1
    case EndLock | JoinLock | JoinRelock => s.shared.endLock == -1
    case JoinThreads => OthersDone(s)
    case WaitSleep(_) | JoinSleep | Done | Finished => false
    case _ => true
  }

  /** `notify_all` on one of the two condition variables. */
  datatype Signal = Quiet | WakePhase | WakeEnd

  datatype Outcome = Outcome(me: Local, shared: Shared, signal: Signal)

  /** The next step of thread t while it is inside `Barrier::wait`. */
  function WaitStep(t: nat, l: Local, s: Shared): Outcome
    requires InWait(l.pc)
  {
    match l.pc
    case WaitLock => Outcome(l.(pc := WaitEnter), s.(lock := t), Quiet)
    case WaitEnter =>
      var b := s.barrier.Enter();
      Outcome(l.(todo := if l.todo > 0 then l.todo - 1 else 0,
                 pc := if b.entered < b.running then WaitTest(b.phase) else WaitFinish(b.phase)),
              s.(barrier := b), Quiet)
    case WaitTest(cp) =>
      if !s.barrier.Open(cp) then Outcome(l.(pc := WaitSleep(cp)), s.(lock := -1), Quiet)
      else if s.barrier.phase > cp then Outcome(l.(pc := WaitUnlock(cp, false)), s, Quiet)
      else Outcome(l.(pc := WaitFinish(cp)), s, Quiet)
    case WaitSleep(_) => Outcome(l, s, Quiet)
    case WaitRelock(cp) => Outcome(l.(pc := WaitTest(cp)), s.(lock := t), Quiet)
    case WaitFinish(cp) =>
      Outcome(l.(pc := WaitUnlock(cp, true)),
              s.(barrier := s.barrier.Advance(), winner := s.winner + [t]), Quiet)
    case WaitUnlock(cp, last) =>
      if last then Outcome(l.(pc := WaitNotify(cp)), s.(lock := -1), Quiet)
      else Outcome(l.(pc := Body, returned := l.returned + [false]), s.(lock := -1), Quiet)
    case WaitNotify(cp) => Outcome(l.(pc := Body, returned := l.returned + [true]), s, WakePhase)
  }

  /** Whether the next call of the benchmark function is `SkipWithError`. */
  predicate FailsNow(l: Local) {
    l.errors != [] && l.todo <= l.errors[0].left
  }

  /** The next step of thread t while it reports an error, delivers its share and signs off. */
  function LeaveStep(t: nat, l: Local, s: Shared, share: Stats): Outcome
    requires InLeave(l.pc)
  {
    match l.pc
    case Body =>
      Outcome(l.(pc := if FailsNow(l) then SkipLock else if l.todo > 0 then WaitLock else MergeLock), s, Quiet)
    case SkipLock => Outcome(l.(pc := SkipSet), s.(benchLock := t), Quiet)
    case SkipSet =>
      Outcome(l.(pc := SkipUnlock, errors := if l.errors == [] then [] else l.errors[1..]),
              if s.failure.None? && l.errors != [] then s.(failure := Some(l.errors[0].message)) else s, Quiet)
    case SkipUnlock => Outcome(l.(pc := Body), s.(benchLock := -1), Quiet)
    case MergeLock => Outcome(l.(pc := MergeAdd), s.(benchLock := t), Quiet)
    case MergeAdd => Outcome(l.(pc := MergeUnlock), s.(results := Merge(s.results, share)), Quiet)
    case MergeUnlock => Outcome(l.(pc := RemoveLock), s.(benchLock := -1), Quiet)
    case RemoveLock => Outcome(l.(pc := RemoveCount), s.(lock := t), Quiet)
    case RemoveCount => Outcome(l.(pc := RemoveNotify), s.(barrier := s.barrier.Leave()), Quiet)
    case RemoveNotify =>
      Outcome(l.(pc := RemoveUnlock), s, if s.barrier.entered != 0 then WakePhase else Quiet)
    case RemoveUnlock => Outcome(l.(pc := AliveCount), s.(lock := -1), Quiet)
    case AliveCount =>
      Outcome(l.(pc := if s.alive - 1 == 0 then EndLock else if t == 0 then JoinLock else Done),
              s.(alive := s.alive - 1), Quiet)
    case EndLock => Outcome(l.(pc := EndNotify), s.(endLock := t), Quiet)
    case EndNotify => Outcome(l.(pc := EndUnlock), s, WakeEnd)
    case EndUnlock => Outcome(l.(pc := if t == 0 then JoinLock else Done), s.(endLock := -1), Quiet)
  }

  /** The next step of the main thread after its own share is in. */
  function JoinStep(t: nat, l: Local, s: Shared): Outcome
    requires !InWait(l.pc) && !InLeave(l.pc)
  {
    match l.pc
    case JoinLock => Outcome(l.(pc := JoinTest), s.(endLock := t), Quiet)
    case JoinTest => Outcome(l.(pc := if s.alive == 0 then JoinUnlock else JoinBlock), s, Quiet)
    case JoinBlock => Outcome(l.(pc := JoinSleep), s.(endLock := -1), Quiet)
    case JoinRelock => Outcome(l.(pc := JoinTest), s.(endLock := t), Quiet)
    case JoinUnlock => Outcome(l.(pc := JoinThreads), s.(endLock := -1), Quiet)
    case JoinThreads => Outcome(l.(pc := ReadLock), s, Quiet)
    case ReadLock => Outcome(l.(pc := ReadResults), s.(benchLock := t), Quiet)
    case ReadResults => Outcome(l.(pc := ReadUnlock), s.(report := s.results, failureRead := s.failure), Quiet)
    case ReadUnlock => Outcome(l.(pc := Destroy), s.(benchLock := -1), Quiet)
    case Destroy => Outcome(l.(pc := Finished), s, Quiet)
    case JoinSleep | Done | Finished => Outcome(l, s, Quiet)
  }

  predicate InWait(p: PC) {
    p.WaitLock? || p.WaitEnter? || p.WaitTest? || p.WaitSleep? || p.WaitRelock? ||
    p.WaitFinish? || p.WaitUnlock? || p.WaitNotify?
  }

  predicate InSkip(p: PC) {
    p.SkipLock? || p.SkipSet? || p.SkipUnlock?
  }

  predicate InLeave(p: PC) {
    p.Body? || InSkip(p) || p.MergeLock? || p.MergeAdd? || p.MergeUnlock? || p.RemoveLock? || p.RemoveCount? ||
    p.RemoveNotify? || p.RemoveUnlock? || p.AliveCount? || p.EndLock? || p.EndNotify? || p.EndUnlock?
  }

  function Act(t: nat, l: Local, s: Shared, share: Stats): Outcome {
    if InWait(l.pc) then WaitStep(t, l, s)
    else if InLeave(l.pc) then LeaveStep(t, l, s, share)
    else JoinStep(t, l, s)
  }

  function Woken(l: Local, signal: Signal): Local {
    if signal == WakePhase && l.pc.WaitSleep? then l.(pc := WaitRelock(l.pc.phase))
    else if signal == WakeEnd && l.pc.JoinSleep? then l.(pc := JoinRelock)
    else l
  }

  function Step(c: Config, s: State, t: nat): (s': State)
    requires Shaped(c, s) && Enabled(c, s, t)
    ensures Shaped(c, s')
  {
    var o := Act(t, s.threads[t], s.shared, c.shares[t]);
    State(seq(c.N(), i requires 0 <= i < c.N() =>
            if i == t then o.me else Woken(s.threads[i], o.signal)),
          o.shared)
  }

  /** A sleeper may also wake up for no reason at all. */
  predicate CanStir(c: Config, s: State, t: nat)
    requires Shaped(c, s)
  {
    t < c.N() && (s.threads[t].pc.WaitSleep? || s.threads[t].pc.JoinSleep?)
  }

  function Stir(c: Config, s: State, t: nat): (s': State)
    requires Shaped(c, s) && CanStir(c, s, t)
    ensures Shaped(c, s')
  {
    var l := s.threads[t];
    s.(threads := s.threads[t := Woken(l, if l.pc.WaitSleep? then WakePhase else WakeEnd)])
  }

  /** One scheduling decision. */
  datatype Event = Run(thread: nat) | Spurious(thread: nat)

  predicate Possible(c: Config, s: State, e: Event)
    requires Shaped(c, s)
  {
    match e
    case Run(t) => Enabled(c, s, t)
    case Spurious(t) => CanStir(c, s, t)
  }

  function Next(c: Config, s: State, e: Event): (s': State)
    requires Shaped(c, s) && Possible(c, s, e)
    ensures Shaped(c, s')
  {
    match e
    case Run(t) => Step(c, s, t)
    case Spurious(t) => Stir(c, s, t)
  }

  /** The schedule `es` leads from s to s'. */
  predicate Leads(c: Config, s: State, es: seq<Event>, s': State): (r: bool)
    ensures r && Shaped(c, s) ==> Shaped(c, s')
    decreases es
  {
    if es == [] then s' == s
    else Shaped(c, s) && Possible(c, s, es[0]) && Leads(c, Next(c, s, es[0]), es[1..], s')
  }
}

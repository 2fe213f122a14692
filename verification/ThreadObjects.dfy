/** The threads of a run at work on the objects of ThreadManager.dfy: every step of the protocol is
    carried out by the methods of `Barrier` and `Manager`, under every schedule. */
module ThreadObjects {
  import opened Basics
  import opened Counters
  import opened ThreadManager
  import opened ThreadProtocol
  import opened ProtocolInvariant
  import opened ProtocolTheorems

  class ThreadedRun {
    const c: Config
    const manager: Manager
    var threads: seq<Local>
    /** The owners of `lock_`, of the benchmark mutex and of `end_cond_mutex_`. */
    var lock: int
    var benchLock: int
    var endLock: int
    /** The history of the phases, and what the main thread has read. */
    var winner: seq<nat>
    var report: Stats
    var failureRead: Option<string>

    function Data(): Shared
      reads this, manager, manager.startStopBarrier
    {
      Shared(lock, manager.startStopBarrier.Data(), benchLock, manager.results, manager.Failure(),
             manager.aliveThreads, endLock, winner, report, failureRead)
    }

    function Abs(): State
      reads this, manager, manager.startStopBarrier
    {
      State(threads, Data())
    }

    ghost predicate Valid()
      reads this, manager, manager.startStopBarrier
    {
      Inv(c, Abs())
    }

    constructor (c: Config)
      requires c.Valid()
      ensures this.c == c && Valid() && Abs() == Initial(c)
      ensures fresh(manager) && fresh(manager.startStopBarrier)
    {
      this.c := c;
      manager := new Manager(|c.waits|);
      threads := Initial(c).threads;
      lock, benchLock, endLock, winner, report, failureRead := -1, -1, -1, [], EmptyStats, None;
      new;
      InitialInv(c);
    }

    /** What a thread does next inside `Barrier::wait`. The check is that of line 133. */
    method WaitAct(t: nat, l: Local) returns (me: Local, signal: Signal)
      requires InWait(l.pc)
      requires l.pc.WaitEnter? ==> manager.startStopBarrier.entered < manager.startStopBarrier.runningThreads
      modifies this`lock, this`winner, manager.startStopBarrier
      ensures Outcome(me, Data(), signal) == WaitStep(t, l, old(Data()))
    {
      me, signal := l, Quiet;
      var b := manager.startStopBarrier;
      match l.pc {
        case WaitLock =>
          lock := t;
          me := l.(pc := WaitEnter);
        case WaitEnter =>
          var last, cp := b.EnterPhase();
          me := l.(todo := if l.todo > 0 then l.todo - 1 else 0, pc := if last then WaitFinish(cp) else WaitTest(cp));
        case WaitTest(cp) =>
          var open, overtaken := b.Recheck(cp);
          if !open {
            lock := -1;
            me := l.(pc := WaitSleep(cp));
          } else {
            me := l.(pc := if overtaken then WaitUnlock(cp, false) else WaitFinish(cp));
          }
        case WaitSleep(_) =>
        case WaitRelock(cp) =>
          lock := t;
          me := l.(pc := WaitTest(cp));
        case WaitFinish(cp) =>
          b.FinishPhase();
          winner := winner + [t];
          me := l.(pc := WaitUnlock(cp, true));
        case WaitUnlock(cp, last) =>
          lock := -1;
          me := if last then l.(pc := WaitNotify(cp)) else l.(pc := Body, returned := l.returned + [false]);
        case WaitNotify(_) =>
          me, signal := l.(pc := Body, returned := l.returned + [true]), WakePhase;
      }
    }

    /** What it does next from the benchmark function to its last step for the manager. */
    method LeaveAct(t: nat, l: Local, share: Stats) returns (me: Local, signal: Signal)
      requires InLeave(l.pc) && (l.pc.SkipSet? ==> l.errors != [])
      modifies this`lock, this`benchLock, this`endLock
      modifies manager`results, manager`hasError, manager`errorMessage, manager`aliveThreads
      modifies manager.startStopBarrier
      ensures Outcome(me, Data(), signal) == LeaveStep(t, l, old(Data()), share)
    {
      me, signal := l, Quiet;
      match l.pc {
        case Body => me := l.(pc := if FailsNow(l) then SkipLock else if l.todo > 0 then WaitLock else MergeLock);
        case SkipLock | MergeLock =>
          benchLock := t;
          me := l.(pc := if l.pc.SkipLock? then SkipSet else MergeAdd);
        case SkipSet =>
          manager.RecordError(l.errors[0].message);
          me := l.(pc := SkipUnlock, errors := l.errors[1..]);
        case MergeAdd =>
          manager.AddShare(share);
          me := l.(pc := MergeUnlock);
        case SkipUnlock | MergeUnlock =>
          benchLock := -1;
          me := l.(pc := if l.pc.SkipUnlock? then Body else RemoveLock);
        case RemoveLock =>
          lock := t;
          me := l.(pc := RemoveCount);
        case RemoveCount =>
          manager.startStopBarrier.LowerCount();
          me := l.(pc := RemoveNotify);
        case RemoveNotify =>
          me := l.(pc := RemoveUnlock);
          signal := if manager.startStopBarrier.entered != 0 then WakePhase else Quiet;
        case RemoveUnlock =>
          lock := -1;
          me := l.(pc := AliveCount);
        case AliveCount =>
          var wasLast := manager.ThreadGone();
          me := l.(pc := if wasLast then EndLock else if t == 0 then JoinLock else Done);
        case EndLock =>
          endLock := t;
          me := l.(pc := EndNotify);
        case EndNotify => me, signal := l.(pc := EndUnlock), WakeEnd;
        case EndUnlock =>
          endLock := -1;
          me := l.(pc := if t == 0 then JoinLock else Done);
      }
    }

    /** What the main thread does next. */
    method JoinAct(t: nat, l: Local) returns (me: Local, signal: Signal)
      requires !InWait(l.pc) && !InLeave(l.pc)
      modifies this`benchLock, this`endLock, this`report, this`failureRead
      ensures Outcome(me, Data(), signal) == JoinStep(t, l, old(Data()))
    {
      me, signal := l, Quiet;
      match l.pc {
        case JoinLock | JoinRelock =>
          endLock := t;
          me := l.(pc := JoinTest);
        case JoinTest => me := l.(pc := if manager.aliveThreads == 0 then JoinUnlock else JoinBlock);
        case JoinBlock | JoinUnlock =>
          endLock := -1;
          me := l.(pc := if l.pc.JoinBlock? then JoinSleep else JoinThreads);
        case JoinThreads => me := l.(pc := ReadLock);
        case ReadLock =>
          benchLock := t;
          me := l.(pc := ReadResults);
        case ReadResults =>
          report, failureRead := manager.results, manager.Failure();
          me := l.(pc := ReadUnlock);
        case ReadUnlock =>
          benchLock := -1;
          me := l.(pc := Destroy);
        case Destroy => me := l.(pc := Finished);
        case JoinSleep | Done | Finished =>
      }
    }

    /** `notify_all`. */
    method NotifyAll(signal: Signal)
      modifies this`threads
      ensures |threads| == |old(threads)|
      ensures forall i :: 0 <= i < |threads| ==> threads[i] == Woken(old(threads)[i], signal)
    {
      var i := 0;
      while i < |threads|
        invariant 0 <= i <= |threads| == |old(threads)|
        invariant forall k :: 0 <= k < i ==> threads[k] == Woken(old(threads)[k], signal)
        invariant forall k :: i <= k < |threads| ==> threads[k] == old(threads)[k]
      {
        threads := threads[i := Woken(threads[i], signal)];
        i := i + 1;
      }
    }

    method Act(t: nat, l: Local, share: Stats) returns (me: Local, signal: Signal)
      requires l.pc.WaitEnter? ==> manager.startStopBarrier.entered < manager.startStopBarrier.runningThreads
      requires l.pc.SkipSet? ==> l.errors != []
      modifies this`lock, this`benchLock, this`endLock, this`winner, this`report, this`failureRead
      modifies manager`results, manager`hasError, manager`errorMessage, manager`aliveThreads
      modifies manager.startStopBarrier
      ensures Outcome(me, Data(), signal) == ThreadProtocol.Act(t, l, old(Data()), share)
    {
      if InWait(l.pc) {
        me, signal := WaitAct(t, l);
      } else if InLeave(l.pc) {
        me, signal := LeaveAct(t, l, share);
      } else {
        me, signal := JoinAct(t, l);
      }
    }

    method TakeStep(t: nat)
      requires Shaped(c, Abs()) && Enabled(c, Abs(), t)
      requires threads[t].pc.WaitEnter? ==>
        manager.startStopBarrier.entered < manager.startStopBarrier.runningThreads
      requires threads[t].pc.SkipSet? ==> threads[t].errors != []
      modifies this, manager, manager.startStopBarrier
      ensures Abs() == ThreadProtocol.Step(c, old(Abs()), t)
    {
      var me, signal := Act(t, threads[t], c.shares[t]);
      NotifyAll(signal);
      threads := threads[t := me];
    }

    /** Thread t takes its next step. */
    method Step(t: nat)
      requires Valid() && Enabled(c, Abs(), t)
      modifies this, manager, manager.startStopBarrier
      ensures Valid() && Abs() == ThreadProtocol.Step(c, old(Abs()), t)
    {
      assert ThreadOK(c, Abs(), t);
      if threads[t].pc.WaitEnter? {
        EnteredBelowRunning(Abs(), t);
      }
      StepKeeps(c, Abs(), t);
      TakeStep(t);
    }

    /** Thread t wakes up for no reason. */
    method Stir(t: nat)
      requires Valid() && CanStir(c, Abs(), t)
      modifies this`threads
      ensures Valid() && Abs() == ThreadProtocol.Stir(c, old(Abs()), t)
    {
      StirKeeps(c, Abs(), t);
      threads := threads[t := Woken(threads[t], if threads[t].pc.WaitSleep? then WakePhase else WakeEnd)];
    }

    /** The threads follow a schedule. */
    method Follow(es: seq<Event>, ghost goal: State)
      requires Valid() && Leads(c, Abs(), es, goal)
      modifies this, manager, manager.startStopBarrier
      ensures Valid() && Abs() == goal
    {
      var i := 0;
      assert es[0..] == es;
      while i < |es|
        invariant 0 <= i <= |es| && Valid() && Leads(c, Abs(), es[i..], goal)
      {
        assert es[i..][0] == es[i] && es[i..][1..] == es[i + 1..];
        match es[i] {
          case Run(t) => Step(t);
          case Spurious(t) => Stir(t);
        }
        i := i + 1;
      }
      assert es[i..] == [];
    }

    /** Some thread that can take a step, if there is one. */
    method FindEnabled() returns (t: nat)
      requires Shaped(c, Abs())
      ensures t <= c.N() && (t < c.N() ==> Enabled(c, Abs(), t))
      ensures t == c.N() ==> forall u :: 0 <= u < c.N() ==> !Enabled(c, Abs(), u)
    {
      t := 0;
      while t < c.N()
        invariant t <= c.N() && forall u :: 0 <= u < t ==> !Enabled(c, Abs(), u)
      {
        if Enabled(c, Abs(), t) {
          return;
        }
        t := t + 1;
      }
    }

    /** One more step, which brings the end nearer. */
    method Advance(t: nat, ghost es: seq<Event>) returns (ghost all: seq<Event>)
      requires Valid() && Leads(c, Initial(c), es, Abs()) && Enabled(c, Abs(), t)
      modifies this, manager, manager.startStopBarrier
      ensures Valid() && Leads(c, Initial(c), all, Abs())
      ensures 0 <= Potential(Abs()) < old(Potential(Abs()))
    {
      StepSpends(c, Abs(), t);
      LeadsOn(c, Initial(c), es, Abs(), t);
      all := es + [Event.Run(t)];
      Step(t);
      PotentialIsNonNegative(Abs());
    }

    /** They go on until nobody can. */
    method Finish(ghost es: seq<Event>) returns (ghost all: seq<Event>)
      requires Valid() && Leads(c, Initial(c), es, Abs())
      modifies this, manager, manager.startStopBarrier
      ensures Valid() && Leads(c, Initial(c), all, Abs())
      ensures forall t :: 0 <= t < c.N() ==> !Enabled(c, Abs(), t)
    {
      all := es;
      var t: nat := FindEnabled();
      while t < c.N()
        invariant Valid() && Leads(c, Initial(c), all, Abs())
        invariant t <= c.N() && (t < c.N() ==> Enabled(c, Abs(), t))
        invariant t == c.N() ==> forall u :: 0 <= u < c.N() ==> !Enabled(c, Abs(), u)
        decreases Potential(Abs())
      {
        all := Advance(t, all);
        t := FindEnabled();
      }
    }
  }

  lemma {:induction false} LeadsOn(c: Config, s: State, es: seq<Event>, s': State, t: nat)
    requires Shaped(c, s) && Leads(c, s, es, s') && Enabled(c, s', t)
    ensures Leads(c, s, es + [Event.Run(t)], ThreadProtocol.Step(c, s', t))
    decreases es
  {
    if es == [] {
      assert (es + [Event.Run(t)])[1..] == [];
    } else {
      LeadsOn(c, Next(c, s, es[0]), es[1..], s', t);
      assert (es + [Event.Run(t)])[1..] == es[1..] + [Event.Run(t)];
    }
  }

  /** `DoNIterations` on the objects: under any schedule, here one that is given as far as one
      likes, the threads come home, and the main thread has read the sum of what they measured
      and the first error that one of them reported. */
  method RunThreads(c: Config, es: seq<Event>, ghost goal: State) returns (report: Stats, failure: Option<string>)
    requires c.Valid() && Leads(c, Initial(c), es, goal)
    ensures TallyOf(report) == SumOf(seq(c.N(), i requires 0 <= i < c.N() => TallyOf(c.shares[i])))
    ensures failure.None? <==> forall t :: 0 <= t < c.N() ==> c.errors[t] == []
    ensures failure.Some? ==>
      exists t :: 0 <= t < c.N() && c.errors[t] != [] && c.errors[t][0].message == failure.value
  {
    var run := new ThreadedRun(c);
    run.Follow(es, goal);
    ghost var all := run.Finish(es);
    EveryMaximalRunSucceeds(c, all, run.Abs());
    assert Reachable(c, run.Abs());
    ErrorIsReported(c, run.Abs());
    report, failure := run.report, run.failureRead;
  }
}

/** The life of one thread's `State` and `ThreadTimer`: starting, pausing, resuming, failing and
    finishing, as values. The readings of the clocks are parameters. */
module StateTimer {
  import opened Basics

  datatype Now = Now(wall: real, cpu: real)

  // ---- ThreadTimer ----

  datatype Timer = Timer(running: bool, startReal: real, startCpu: real,
                         realUsed: real, cpuUsed: real, manualUsed: real)

  const NEW_TIMER := Timer(false, 0.0, 0.0, 0.0, 0.0, 0.0)

  function StartTimer(t: Timer, now: Now): Timer {
    t.(running := true, startReal := now.wall, startCpu := now.cpu)
  }

  function StopTimer(t: Timer, now: Now): Timer
    requires t.running
  {
    t.(running := false, realUsed := t.realUsed + (now.wall - t.startReal),
       cpuUsed := t.cpuUsed + MaxReal(now.cpu - t.startCpu, 0.0))
  }

  // ---- State ----

  /** `cached` is the counter of the iterator of a range-based loop, or -1 when there is none;
      `barriers` counts the calls of `StartStopBarrier`. */
  datatype Snapshot = Snapshot(
    total: int, leftover: int, max: int, started: bool, finished: bool, errored: bool,
    timer: Timer, cached: int, barriers: nat)

  function NewState(max: int): Snapshot {
    Snapshot(0, 0, max, false, false, false, NEW_TIMER, -1, 0)
  }

  function Iterations(s: Snapshot): int {
    if !s.started then 0 else s.max - s.total + s.leftover
  }

  /** What `PauseTiming` and `ResumeTiming` check. */
  predicate InLoop(s: Snapshot) {
    s.started && !s.finished && !s.errored
  }

  function PauseTiming(s: Snapshot, now: Now): Snapshot
    requires InLoop(s) && s.timer.running
  {
    s.(timer := StopTimer(s.timer, now))
  }

  function ResumeTiming(s: Snapshot, now: Now): Snapshot
    requires InLoop(s)
  {
    s.(timer := StartTimer(s.timer, now))
  }

  function SkipWithError(s: Snapshot, now: Now): Snapshot {
    s.(errored := true, total := 0, timer := if s.timer.running then StopTimer(s.timer, now) else s.timer)
  }

  function StartKeepRunning(s: Snapshot, now: Now): Snapshot
    requires !s.started && !s.finished
  {
    var s := s.(started := true, total := if s.errored then 0 else s.max, barriers := s.barriers + 1);
    if s.errored then s else ResumeTiming(s, now)
  }

  /** What `FinishKeepRunning` and the `PauseTiming` in it check. */
  predicate MayFinish(s: Snapshot) {
    s.started && (!s.finished || s.errored) && (!s.errored ==> s.timer.running)
  }

  function FinishKeepRunning(s: Snapshot, now: Now): Snapshot
    requires MayFinish(s)
  {
    var s := if s.errored then s else PauseTiming(s, now);
    s.(total := 0, finished := true, barriers := s.barriers + 1)
  }

  /** Whether a batch is granted although fewer iterations are left. */
  predicate GrantsLater(s: Snapshot, isBatch: bool) {
    isBatch && s.total != 0
  }

  predicate MayKeepRunning(s: Snapshot, n: int, isBatch: bool) {
    && n > 0 && (isBatch || n == 1)
    && (s.total >= n
        || (!s.started && !s.finished
            && ((!s.errored && s.max >= n) || (isBatch && !s.errored && s.max != 0) || s.errored))
        || (s.started && (GrantsLater(s, isBatch) || MayFinish(s))))
  }

  /** `KeepRunningInternal`: the new state, and whether n more iterations are to be run. */
  function KeepRunning(s: Snapshot, n: int, isBatch: bool, now: Now): (Snapshot, bool)
    requires MayKeepRunning(s, n, isBatch)
  {
    if s.total >= n then (s.(total := s.total - n), true)
    else
      var s' := if s.started then s else StartKeepRunning(s, now);
      if !s.started && !s'.errored && s'.total >= n then (s'.(total := s'.total - n), true)
      else if GrantsLater(s', isBatch) then (s'.(leftover := n - s'.total, total := 0), true)
      else (FinishKeepRunning(s', now), false)
  }

  // ---- A benchmark function is a sequence of calls ----

  datatype Op =
    | Pause
    | Resume
    | Skip(message: string)
    | SetIterationTime(seconds: real)
    | KeepRunningOp(n: int, isBatch: bool)
    | RangeBegin       // `begin`, `end`, and the first comparison of a range-based loop
    | RangeAdvance     // `++` and the next comparison

  datatype Call = Call(op: Op, now: Now)

  /** One time slice: from a start of the timer to the stop that ends it, on both clocks. */
  datatype Slice = Slice(start: real, stop: real, cpuStart: real, cpuStop: real)

  /** The state with its history: the iterations that `KeepRunning` granted, the laps of the
      range-based loop, the clocks at the last call that started the timer, the time slices, the
      times set by hand, and the last reading of the wall clock. */
  datatype Trace = Trace(
    s: Snapshot, granted: int, laps: int, since: Now, slices: seq<Slice>, manual: seq<real>, clock: real)

  /** All checks on the way pass. */
  predicate Admits(s: Snapshot, op: Op) {
    match op
    case Pause => InLoop(s) && s.timer.running
    case Resume => InLoop(s)
    case Skip(_) => true
    case SetIterationTime(_) => true
    case KeepRunningOp(n, isBatch) => MayKeepRunning(s, n, isBatch)
    case RangeBegin => s.cached == -1 && !s.started && !s.finished
    case RangeAdvance => s.cached > 0 && (s.cached == 1 ==> MayFinish(s))
  }

  function Apply(s: Snapshot, op: Op, now: Now): Snapshot
    requires Admits(s, op) && s.max > 0
  {
    match op
    case Pause => PauseTiming(s, now)
    case Resume => ResumeTiming(s, now)
    case Skip(_) => SkipWithError(s, now)
    case SetIterationTime(x) => s.(timer := s.timer.(manualUsed := s.timer.manualUsed + x))
    case KeepRunningOp(n, isBatch) => KeepRunning(s, n, isBatch, now).0
    case RangeBegin =>
      var begun := StartKeepRunning(s.(cached := if s.errored then 0 else s.max), now);
      if begun.cached != 0 then begun else FinishKeepRunning(begun, now)
    case RangeAdvance =>
      var next := s.(cached := s.cached - 1);
      if next.cached != 0 then next else FinishKeepRunning(next, now)
  }

  /** A call starts the timer when it resumes it, or starts a loop without an error before. */
  predicate Starts(s: Snapshot, op: Op, next: Snapshot) {
    op.Resume? || (!s.started && next.started && !s.errored)
  }

  function Step(t: Trace, c: Call): Trace
    requires Admits(t.s, c.op) && t.s.max > 0
  {
    var s := Apply(t.s, c.op, c.now);
    Trace(s,
          t.granted + (if c.op.KeepRunningOp? && KeepRunning(t.s, c.op.n, c.op.isBatch, c.now).1 then c.op.n else 0),
          t.laps + (if (c.op.RangeBegin? || c.op.RangeAdvance?) && s.cached != 0 then 1 else 0),
          if Starts(t.s, c.op, s) then c.now else t.since,
          if t.s.timer.running && !s.timer.running
          then t.slices + [Slice(t.since.wall, c.now.wall, t.since.cpu, c.now.cpu)]
          else t.slices,
          if c.op.SetIterationTime? then t.manual + [c.op.seconds] else t.manual,
          c.now.wall)
  }

  /** The calls are admitted one after the other, under a wall clock that never goes back. */
  predicate Admitted(t: Trace, calls: seq<Call>)
    requires t.s.max > 0
    decreases |calls|
  {
    calls == [] ||
    (Admits(t.s, calls[0].op) && t.clock <= calls[0].now.wall && Admitted(Step(t, calls[0]), calls[1..]))
  }

  function After(t: Trace, calls: seq<Call>): (u: Trace)
    requires t.s.max > 0 && Admitted(t, calls)
    ensures u.s.max == t.s.max
    decreases |calls|
  {
    if calls == [] then t else After(Step(t, calls[0]), calls[1..])
  }

  function Begin(max: int, clock: real): Trace {
    Trace(NewState(max), 0, 0, Now(clock, 0.0), [], [], clock)
  }

  // ---- What holds throughout ----

  predicate CountersOk(s: Snapshot) {
    && s.max > 0 && 0 <= s.total <= s.max && 0 <= s.leftover
    && (s.leftover > 0 ==> s.total == 0)
    && (!s.started ==> s.total == 0 && s.leftover == 0 && !s.finished && s.cached == -1)
    && (s.errored || s.finished ==> s.total == 0)
    && -1 <= s.cached <= s.max
  }

  /** A running timer implies started, not finished, and not failed. */
  predicate TimerOk(s: Snapshot) {
    s.timer.running ==> InLoop(s)
  }

  /** A start and a stop of the loop are one barrier call each; only a failed thread can finish
      more than once. */
  predicate BarriersOk(s: Snapshot) {
    && (!s.started ==> s.barriers == 0)
    && (s.started && !s.finished ==> s.barriers == 1)
    && (s.finished && !s.errored ==> s.barriers == 2)
    && (s.finished ==> s.barriers >= 2)
  }

  /** The iterations counted are those that were granted. */
  predicate GrantsOk(t: Trace) {
    t.s.cached == -1 && !t.s.errored ==> t.granted == Iterations(t.s)
  }

  predicate LapsOk(t: Trace) {
    && (t.s.cached == -1 ==> t.laps == 0)
    && (t.s.cached > 0 ==> t.laps == t.s.max - t.s.cached + 1)
    && (t.s.cached == 0 ==> t.laps == t.s.max || (t.laps == 0 && t.s.errored))
  }

  function Length(slices: seq<Slice>): real {
    if slices == [] then 0.0
    else Length(slices[..|slices| - 1]) + (slices[|slices| - 1].stop - slices[|slices| - 1].start)
  }

  /** The CPU time of the slices; one on which that clock went back counts as nothing. */
  function CpuLength(slices: seq<Slice>): real {
    if slices == [] then 0.0
    else
      var last := slices[|slices| - 1];
      CpuLength(slices[..|slices| - 1]) + if last.cpuStop > last.cpuStart then last.cpuStop - last.cpuStart else 0.0
  }

  function Sum(v: seq<real>): real {
    if v == [] then 0.0 else Sum(v[..|v| - 1]) + v[|v| - 1]
  }

  /** The slices do not run backwards or overlap, and all end before the given time. */
  predicate Disjoint(slices: seq<Slice>, until: real) {
    && (forall i :: 0 <= i < |slices| ==> slices[i].start <= slices[i].stop <= until)
    && (forall i, j :: 0 <= i < j < |slices| ==> slices[i].stop <= slices[j].start)
  }

  /** The time used is the total length of disjoint slices of running time, and the manual time
      is what was set by hand. */
  predicate TimeOk(t: Trace) {
    && t.s.timer.realUsed == Length(t.slices)
    && t.s.timer.cpuUsed == CpuLength(t.slices)
    && t.s.timer.manualUsed == Sum(t.manual)
    && Disjoint(t.slices, if t.s.timer.running then t.since.wall else t.clock)
    && (t.s.timer.running ==>
          t.s.timer.startReal == t.since.wall <= t.clock && t.s.timer.startCpu == t.since.cpu)
  }

  predicate Inv(t: Trace) {
    CountersOk(t.s) && TimerOk(t.s) && BarriersOk(t.s) && GrantsOk(t) && LapsOk(t) && TimeOk(t)
  }

  lemma InvStep(t: Trace, c: Call)
    requires Inv(t) && Admits(t.s, c.op) && t.clock <= c.now.wall
    ensures Inv(Step(t, c))
  {
    StateStep(t.s, c.op, c.now);
    GrantsStep(t, c);
    LapsStep(t, c);
    TimeStep(t, c);
  }

  lemma StateStep(s: Snapshot, op: Op, now: Now)
    requires CountersOk(s) && TimerOk(s) && BarriersOk(s) && Admits(s, op)
    ensures CountersOk(Apply(s, op, now)) && TimerOk(Apply(s, op, now)) && BarriersOk(Apply(s, op, now))
  {
  }

  lemma GrantsStep(t: Trace, c: Call)
    requires CountersOk(t.s) && GrantsOk(t) && Admits(t.s, c.op)
    ensures GrantsOk(Step(t, c))
  {
  }

  lemma LapsStep(t: Trace, c: Call)
    requires CountersOk(t.s) && LapsOk(t) && Admits(t.s, c.op)
    ensures LapsOk(Step(t, c))
  {
  }

  /** One call starts the timer, or stops it, or adds to the manual time, or does none of it. */
  lemma TimerMoves(s: Snapshot, op: Op, now: Now)
    requires CountersOk(s) && TimerOk(s) && Admits(s, op)
    ensures var a, b, starts := s.timer, Apply(s, op, now).timer, Starts(s, op, Apply(s, op, now));
            || (b == a && !op.SetIterationTime? && !starts)
            || (b == StartTimer(a, now) && !op.SetIterationTime? && starts)
            || (a.running && b == StopTimer(a, now) && !op.SetIterationTime? && !starts)
            || (op.SetIterationTime? && b == a.(manualUsed := a.manualUsed + op.seconds) && !starts)
  {
  }

  lemma TimeStep(t: Trace, c: Call)
    requires CountersOk(t.s) && TimerOk(t.s) && TimeOk(t) && Admits(t.s, c.op) && t.clock <= c.now.wall
    ensures TimeOk(Step(t, c))
  {
    TimerMoves(t.s, c.op, c.now);
    var a, b, u := t.s.timer, Apply(t.s, c.op, c.now).timer, Step(t, c);
    if a.running && !b.running {
      assert u.slices[..|t.slices|] == t.slices && u.manual == t.manual;
    } else if c.op.SetIterationTime? {
      assert u.manual[..|t.manual|] == t.manual && u.slices == t.slices;
    } else {
      assert u.manual == t.manual && u.slices == t.slices;
    }
  }

  /** The invariant holds after every admitted sequence of calls. */
  lemma {:induction false} AlwaysInv(t: Trace, calls: seq<Call>)
    requires Inv(t) && Admitted(t, calls)
    ensures Inv(After(t, calls))
    decreases |calls|
  {
    if calls != [] {
      InvStep(t, calls[0]);
      AlwaysInv(Step(t, calls[0]), calls[1..]);
    }
  }

  // ---- RunInThread ----

  /** The check of `RunInThread` after the benchmark function has returned. */
  predicate ReturnIsChecked(s: Snapshot) {
    s.errored || Iterations(s) >= s.max
  }

  /** A thread that failed or finished passes the check, and its timer can be read. */
  lemma ReadsAreSafe(max: int, clock: real, calls: seq<Call>)
    requires max > 0 && Admitted(Begin(max, clock), calls)
    ensures var s := After(Begin(max, clock), calls).s;
            s.errored || s.finished ==> ReturnIsChecked(s) && !s.timer.running
  {
    AlwaysInv(Begin(max, clock), calls);
  }

  /** What the check admits: a failure, or a loop whose last iteration has been granted, whether
      or not `KeepRunning` has returned false. The timer may then still be running. */
  lemma WhatTheCheckAdmits(max: int, clock: real, calls: seq<Call>)
    requires max > 0 && Admitted(Begin(max, clock), calls)
    ensures var s := After(Begin(max, clock), calls).s;
            ReturnIsChecked(s) <==> s.errored || (s.started && s.total == 0)
  {
    AlwaysInv(Begin(max, clock), calls);
  }

  /** Whether the last call that pauses or resumes the timer pauses it. */
  predicate PausedLast(was: bool, calls: seq<Call>)
    decreases |calls|
  {
    if calls == [] then was
    else PausedLast(calls[0].op.Pause? || (was && !calls[0].op.Resume?), calls[1..])
  }

  predicate PauseOk(s: Snapshot, paused: bool) {
    && (!s.started ==> !paused)
    && (InLoop(s) ==> (s.timer.running <==> !paused))
  }

  /** Inside the loop the timer has stopped exactly if it was paused last. */
  lemma {:induction false} StoppedIsPaused(t: Trace, paused: bool, calls: seq<Call>)
    requires CountersOk(t.s) && TimerOk(t.s) && BarriersOk(t.s) && PauseOk(t.s, paused) && Admitted(t, calls)
    ensures PauseOk(After(t, calls).s, PausedLast(paused, calls))
    decreases |calls|
  {
    if calls != [] {
      var op := calls[0].op;
      StateStep(t.s, op, calls[0].now);
      StoppedIsPaused(Step(t, calls[0]), op.Pause? || (paused && !op.Resume?), calls[1..]);
    }
  }

  /** The check passes and the times can be read: exactly when the thread failed, or finished its
      loop, or was granted everything and paused its timer last. */
  lemma ReturnIsSafeIff(max: int, clock: real, calls: seq<Call>)
    requires max > 0 && Admitted(Begin(max, clock), calls)
    ensures var s := After(Begin(max, clock), calls).s;
            ReturnIsChecked(s) && !s.timer.running <==>
            s.errored || s.finished || (s.started && s.total == 0 && PausedLast(false, calls))
  {
    AlwaysInv(Begin(max, clock), calls);
    StoppedIsPaused(Begin(max, clock), false, calls);
  }

  /** One iteration granted, and the function returns: the check passes while the timer runs. */
  lemma ReturnInsideLastIteration(clock: real, now: Now)
    requires clock <= now.wall
    ensures var calls := [Call(KeepRunningOp(1, false), now)];
            && Admitted(Begin(1, clock), calls)
            && ReturnIsChecked(After(Begin(1, clock), calls).s)
            && After(Begin(1, clock), calls).s.timer.running
  {
    var calls := [Call(KeepRunningOp(1, false), now)];
    var t := Begin(1, clock);
    assert calls[1..] == [];
    assert Admitted(Step(t, calls[0]), []);
    assert After(t, calls) == After(Step(t, calls[0]), []);
  }

  /** Without an error, a loop over `KeepRunning` or `KeepRunningBatch` that has ended was granted
      what `iterations` reports: at least the maximum, and exactly the maximum unless the last
      batch was cut. A range-based loop that has ended ran the maximum of laps. */
  lemma FinishedLoop(max: int, clock: real, calls: seq<Call>)
    requires max > 0 && Admitted(Begin(max, clock), calls)
    ensures var t := After(Begin(max, clock), calls);
            && (t.s.finished && !t.s.errored && t.s.cached == -1 ==>
                t.granted == Iterations(t.s) == max + t.s.leftover)
            && (t.s.finished && !t.s.errored && t.s.cached == 0 ==> t.laps == max)
            && (t.s.finished && !t.s.errored ==> t.s.barriers == 2)
  {
    AlwaysInv(Begin(max, clock), calls);
  }

  /** Without batches nothing is left over, so `KeepRunning` grants exactly the maximum. */
  lemma {:induction false} NoBatches(t: Trace, calls: seq<Call>)
    requires Inv(t) && Admitted(t, calls) && t.s.leftover == 0
    requires forall i :: 0 <= i < |calls| && calls[i].op.KeepRunningOp? ==> !calls[i].op.isBatch
    ensures After(t, calls).s.leftover == 0
    decreases |calls|
  {
    if calls != [] {
      InvStep(t, calls[0]);
      NoBatches(Step(t, calls[0]), calls[1..]);
    }
  }

  /** A thread that fails after its loop has started is counted as if it had run to the end. */
  lemma FailedThreadCountsAll(max: int, clock: real, calls: seq<Call>)
    requires max > 0 && Admitted(Begin(max, clock), calls)
    ensures var s := After(Begin(max, clock), calls).s;
            s.errored ==> Iterations(s) == if s.started then max + s.leftover else 0
  {
    AlwaysInv(Begin(max, clock), calls);
  }

  /** After a failure nothing is granted, nothing is left over any more, and a range-based loop that
      starts has no lap; one that runs goes on. */
  predicate SinceFailure(t: Trace, u: Trace) {
    && u.s.errored && u.s.total == 0 && u.granted == t.granted && u.s.leftover == t.s.leftover
    && (t.s.started ==> u.s.started)
    && (t.s.cached == -1 ==> u.laps == 0 && u.s.cached <= 0)
    && (t.s.cached >= 0 ==> u.s.cached >= 0 && u.laps >= t.laps)
  }

  lemma {:induction false} NothingAfterFailure(t: Trace, u: Trace, calls: seq<Call>)
    requires t.s.max == u.s.max > 0 && SinceFailure(t, u) && Admitted(u, calls)
    ensures SinceFailure(t, After(u, calls))
    decreases |calls|
  {
    if calls != [] {
      NothingAfterFailure(t, Step(u, calls[0]), calls[1..]);
    }
  }

  /** How often the body of the loop was entered; in a range-based loop that is the number of laps. */
  function Ran(t: Trace): int {
    if t.s.cached == -1 then t.granted else t.laps
  }

  /** Without a range-based loop: the loop was never entered, not even after the failure, or had
      nothing left to grant at the failure. With one: it was entered before the failure, and its
      last lap was reached. */
  predicate CountIsRight(atFailure: Snapshot, atReturn: Snapshot) {
    if atReturn.cached == -1 then !atReturn.started || (atFailure.started && atFailure.total == 0)
    else atFailure.cached >= 0 && atReturn.cached <= 1 && atReturn.leftover == 0
  }

  lemma CountAtReturn(t: Trace, u: Trace)
    requires CountersOk(t.s) && GrantsOk(t) && LapsOk(t) && !t.s.errored
    requires CountersOk(u.s) && LapsOk(u) && u.s.max == t.s.max && SinceFailure(t, u)
    ensures Ran(u) == Iterations(u.s) <==> CountIsRight(t.s, u.s)
  {
  }

  /** When the number that is reported for a thread that failed is what it ran: t is the state in
      which `SkipWithError` is first called, u the one in which the function returns, after whatever
      calls. */
  lemma FailedCountIff(max: int, clock: real, before: seq<Call>, failure: Call, after: seq<Call>)
    requires max > 0 && Admitted(Begin(max, clock), before) && !After(Begin(max, clock), before).s.errored
    requires failure.op.Skip? && Admitted(After(Begin(max, clock), before), [failure] + after)
    ensures var t := After(Begin(max, clock), before);
            var u := After(t, [failure] + after);
            Ran(u) == Iterations(u.s) <==> CountIsRight(t.s, u.s)
  {
    var t := After(Begin(max, clock), before);
    AlwaysInv(Begin(max, clock), before);
    AlwaysInv(t, [failure] + after);
    assert ([failure] + after)[1..] == after;
    NothingAfterFailure(t, Step(t, failure), after);
    CountAtReturn(t, After(t, [failure] + after));
  }

  /** One of ten iterations, a failure, and ten are reported. */
  lemma FailedCountExample(clock: real, first: Now, second: Now)
    requires clock <= first.wall <= second.wall
    ensures var calls := [Call(KeepRunningOp(1, false), first), Call(Skip("failed"), second)];
            && Admitted(Begin(10, clock), calls)
            && After(Begin(10, clock), calls).granted == 1
            && Iterations(After(Begin(10, clock), calls).s) == 10
  {
    var t, calls := Begin(10, clock), [Call(KeepRunningOp(1, false), first), Call(Skip("failed"), second)];
    TwoCalls(t, calls[0], calls[1]);
  }

  /** A failure before the loop, which is then entered in one way or the other and ends at once:
      none of ten iterations has run, and ten are reported. */
  lemma LateLoopExample(clock: real, first: Now, second: Now, loop: Op)
    requires clock <= first.wall <= second.wall && (loop == KeepRunningOp(1, false) || loop == RangeBegin)
    ensures var calls := [Call(Skip("failed"), first), Call(loop, second)];
            && Admitted(Begin(10, clock), calls)
            && var u := After(Begin(10, clock), calls);
               u.s.finished && !u.s.timer.running && u.granted == u.laps == 0 && Iterations(u.s) == 10
  {
    TwoCalls(Begin(10, clock), Call(Skip("failed"), first), Call(loop, second));
  }

  /** A range-based loop of two laps that fails in the first and goes on: two are reported, and right. */
  lemma LapsGoOnExample(clock: real, now: Now)
    requires clock <= now.wall
    ensures var calls := [Call(RangeBegin, now), Call(Skip("failed"), now), Call(RangeAdvance, now)];
            && Admitted(Begin(2, clock), calls)
            && var u := After(Begin(2, clock), calls);
               u.s.errored && u.laps == Iterations(u.s) == 2
  {
    var t, c, calls := Begin(2, clock), Call(RangeBegin, now), [Call(Skip("failed"), now), Call(RangeAdvance, now)];
    TwoCalls(Step(t, c), calls[0], calls[1]);
    var all := [c] + calls;
    assert all == [c, calls[0], calls[1]] && all[1..] == calls;
  }

  lemma FirstCall(t: Trace, c: Call, rest: seq<Call>)
    requires t.s.max > 0 && Admits(t.s, c.op) && t.clock <= c.now.wall
    requires Step(t, c).s.max > 0 && Admitted(Step(t, c), rest)
    ensures Admitted(t, [c] + rest) && After(t, [c] + rest) == After(Step(t, c), rest)
  {
    assert ([c] + rest)[1..] == rest;
  }

  lemma TwoCalls(t: Trace, c: Call, d: Call)
    requires t.s.max > 0 && Admits(t.s, c.op) && t.clock <= c.now.wall
    requires Step(t, c).s.max > 0 && Admits(Step(t, c).s, d.op) && c.now.wall <= d.now.wall
    ensures Admitted(t, [c, d]) && After(t, [c, d]) == Step(Step(t, c), d)
  {
    FirstCall(Step(t, c), d, []);
    assert [d] + [] == [d] && [c] + [d] == [c, d];
    FirstCall(t, c, [d]);
  }

  /** Resuming a timer that already runs drops the time since it was started. */
  lemma ResumeDropsSlice(t: Trace, resume: Now, pause: Now)
    requires Inv(t) && t.s.timer.running && t.clock <= resume.wall <= pause.wall
    ensures var calls := [Call(Resume, resume), Call(Pause, pause)];
            && Admitted(t, calls)
            && After(t, calls).s.timer.realUsed == t.s.timer.realUsed + (pause.wall - resume.wall)
            && After(t, calls).slices == t.slices + [Slice(resume.wall, pause.wall, resume.cpu, pause.cpu)]
  {
    TwoCalls(t, Call(Resume, resume), Call(Pause, pause));
  }

  // ---- Times are never negative ----

  lemma {:induction false} LengthsAreNonNegative(slices: seq<Slice>, until: real)
    requires Disjoint(slices, until)
    ensures Length(slices) >= 0.0 && CpuLength(slices) >= 0.0
    decreases |slices|
  {
    if slices != [] {
      LengthsAreNonNegative(slices[..|slices| - 1], until);
    }
  }

  /** Whatever the CPU clock does, and for every wall clock that never goes back. */
  lemma TimesAreNonNegative(max: int, clock: real, calls: seq<Call>)
    requires max > 0 && Admitted(Begin(max, clock), calls)
    ensures var timer := After(Begin(max, clock), calls).s.timer;
            timer.realUsed >= 0.0 && timer.cpuUsed >= 0.0
  {
    AlwaysInv(Begin(max, clock), calls);
    var t := After(Begin(max, clock), calls);
    LengthsAreNonNegative(t.slices, if t.s.timer.running then t.since.wall else t.clock);
  }
}

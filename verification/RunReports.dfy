/** From the threads of every repetition to the aggregates: when the checks of `ComputeStats` pass
    for what `BenchmarkRunner` reports. */
module RunReports {
  import opened Basics
  import opened Iterations
  import opened Aggregates
  import C = Counters
  import M = ThreadManager
  import B = BenchmarkState
  import S = StateTimer

  // ---- One thread ----

  /** A state that `RunInThread` can add to the totals: the benchmark function has made its calls
      for n iterations and returned, the check holds, and the timer has stopped. */
  ghost predicate CanEnd(n: nat, s: S.Snapshot) {
    n > 0 && exists clock: real, calls: seq<S.Call> ::
      S.Admitted(S.Begin(n, clock), calls) && EndsIn(n, clock, calls, s)
  }

  ghost predicate EndsIn(n: nat, clock: real, calls: seq<S.Call>, s: S.Snapshot)
    requires n > 0 && S.Admitted(S.Begin(n, clock), calls)
  {
    s == S.After(S.Begin(n, clock), calls).s && S.ReturnIsChecked(s) && !s.timer.running
  }

  lemma EndIterations(n: nat, s: S.Snapshot)
    requires CanEnd(n, s)
    ensures s.leftover >= 0 && (!s.errored ==> s.started)
    ensures S.Iterations(s) == if s.started then n + s.leftover else 0
  {
    var clock: real, calls: seq<S.Call> :| S.Admitted(S.Begin(n, clock), calls) && EndsIn(n, clock, calls, s);
    S.AlwaysInv(S.Begin(n, clock), calls);
  }

  // ---- The threads of one run ----

  ghost predicate AllEnd(n: nat, ends: seq<S.Snapshot>) {
    forall t :: 0 <= t < |ends| ==> CanEnd(n, ends[t])
  }

  /** What they add up; the error is that of any of them. */
  function TotalsOf(ends: seq<S.Snapshot>): Totals {
    if ends == [] then Totals(0, 0.0, 0.0, 0.0, false)
    else
      var s, t := ends[0], TotalsOf(ends[1..]);
      Totals(S.Iterations(s) + t.iterations, s.timer.realUsed + t.realTime, s.timer.cpuUsed + t.cpuTime,
             s.timer.manualUsed + t.manualTime, s.errored || t.hasError)
  }

  // ---- The same sum, as the threads leave it in the shared record ----

  /** The functions of the threads of one run return safely. */
  predicate AllReturn(n: int, clock: real, calls: seq<seq<S.Call>>) {
    n > 0 && forall t :: 0 <= t < |calls| ==> Returns(n, clock, calls[t])
  }

  predicate Returns(n: int, clock: real, calls: seq<S.Call>)
    requires n > 0
  {
    S.Admitted(S.Begin(n, clock), calls) &&
    var s := S.After(S.Begin(n, clock), calls).s;
    S.ReturnIsChecked(s) && !s.timer.running
  }

  ghost function EndsOf(n: int, clock: real, calls: seq<seq<S.Call>>): (ends: seq<S.Snapshot>)
    requires AllReturn(n, clock, calls)
    ensures |ends| == |calls|
    ensures forall t :: 0 <= t < |calls| ==>
      Returns(n, clock, calls[t]) && ends[t] == S.After(S.Begin(n, clock), calls[t]).s
  {
    seq(|calls|, t requires 0 <= t < |calls| => S.After(S.Begin(n, clock), calls[t]).s)
  }

  lemma {:induction false} TotalsSnoc(ends: seq<S.Snapshot>, s: S.Snapshot)
    ensures var t := TotalsOf(ends);
      TotalsOf(ends + [s]) ==
      Totals(t.iterations + S.Iterations(s), t.realTime + s.timer.realUsed, t.cpuTime + s.timer.cpuUsed,
             t.manualTime + s.timer.manualUsed, t.hasError || s.errored)
  {
    if ends == [] {
      assert TotalsOf([]) == Totals(0, 0.0, 0.0, 0.0, false);
      assert [s][1..] == [] && [] + [s] == [s];
    } else {
      TotalsSnoc(ends[1..], s);
      assert (ends + [s])[1..] == ends[1..] + [s];
    }
  }

  /** The numbers of the shared record. */
  function Recorded(m: M.Manager): Totals
    reads m
  {
    Totals(m.results.iterations, m.results.realTime, m.results.cpuTime, m.results.manualTime, m.hasError)
  }

  /** One more thread runs, and the record has what it did. */
  method AddThread(m: M.Manager, n: int, calls: seq<S.Call>, ghost clock: real, ghost ends: seq<S.Snapshot>)
    requires n > 0 && Returns(n, clock, calls) && Recorded(m) == TotalsOf(ends)
    modifies m`results, m`hasError, m`errorMessage
    ensures Recorded(m) == TotalsOf(ends + [S.After(S.Begin(n, clock), calls).s])
  {
    ghost var t := S.After(S.Begin(n, clock), calls);
    S.AlwaysInv(S.Begin(n, clock), calls);
    TotalsSnoc(ends, t.s);
    CanReturn(n, clock, calls);
    EndIterations(n, t.s);
    ghost var failed := m.Failure();
    B.RunInThread(m, n, calls, clock, 0, map[]);
    assert m.hasError <==> m.Failure().Some?;
    assert failed.Some? <==> TotalsOf(ends).hasError;
  }

  lemma CanReturn(n: int, clock: real, calls: seq<S.Call>)
    requires n > 0 && Returns(n, clock, calls)
    ensures CanEnd(n, S.After(S.Begin(n, clock), calls).s)
  {
    assert EndsIn(n, clock, calls, S.After(S.Begin(n, clock), calls).s);
  }

  /** The threads of one run, one after the other, on a manager of their own: what `RunInThread`
      leaves in the record is the total of their times and counts. */
  method RunInTurn(n: int, calls: seq<seq<S.Call>>, ghost clock: real) returns (totals: Totals)
    requires AllReturn(n, clock, calls)
    ensures totals == TotalsOf(EndsOf(n, clock, calls))
  {
    var m := new M.Manager(|calls|);
    ghost var ends := EndsOf(n, clock, calls);
    var t := 0;
    while t < |calls|
      invariant 0 <= t <= |calls| && fresh(m) && Recorded(m) == TotalsOf(ends[..t])
    {
      AddThread(m, n, calls[t], clock, ends[..t]);
      assert ends[..t + 1] == ends[..t] + [ends[t]];
      t := t + 1;
    }
    assert ends[..t] == ends;
    totals := Recorded(m);
  }

  function Tallies(shares: seq<C.Stats>): seq<C.Tally> {
    seq(|shares|, i requires 0 <= i < |shares| => C.TallyOf(shares[i]))
  }

  /** In whatever order the shares are merged: the sum over all threads has these numbers. */
  lemma {:induction false} TotalsAreTheSum(ends: seq<S.Snapshot>, shares: seq<C.Stats>)
    requires |ends| == |shares|
    requires forall i :: 0 <= i < |ends| ==>
      shares[i] == B.ShareOf(ends[i], shares[i].complexityN, shares[i].counters)
    ensures var sum, t := C.SumOf(Tallies(shares)), TotalsOf(ends);
      && sum.iterations == t.iterations && sum.realTime == t.realTime
      && sum.cpuTime == t.cpuTime && sum.manualTime == t.manualTime
    decreases |ends|
  {
    if ends != [] {
      TotalsAreTheSum(ends[1..], shares[1..]);
      assert Tallies(shares)[1..] == Tallies(shares[1..]);
    }
  }

  predicate AnyError(ends: seq<S.Snapshot>) {
    exists t :: 0 <= t < |ends| && ends[t].errored
  }

  predicate AllStarted(ends: seq<S.Snapshot>) {
    forall t :: 0 <= t < |ends| ==> ends[t].started
  }

  predicate NothingLeftOver(ends: seq<S.Snapshot>) {
    forall t :: 0 <= t < |ends| ==> ends[t].leftover == 0
  }

  function Started(ends: seq<S.Snapshot>): (k: nat)
    ensures k <= |ends|
  {
    if ends == [] then 0 else (if ends[0].started then 1 else 0) + Started(ends[1..])
  }

  function Leftovers(ends: seq<S.Snapshot>): int {
    if ends == [] then 0 else (if ends[0].started then ends[0].leftover else 0) + Leftovers(ends[1..])
  }

  lemma Times(n: nat, k: nat)
    ensures n * (1 + k) == n + n * k
  {
  }

  lemma {:induction false} TotalIterations(n: nat, ends: seq<S.Snapshot>)
    requires AllEnd(n, ends)
    ensures TotalsOf(ends).iterations == n * Started(ends) + Leftovers(ends)
  {
    if ends != [] {
      assert CanEnd(n, ends[0]);
      EndIterations(n, ends[0]);
      TotalIterations(n, ends[1..]);
      Times(n, Started(ends[1..]));
    }
  }

  lemma {:induction false} ErrorOfTotals(ends: seq<S.Snapshot>)
    ensures TotalsOf(ends).hasError <==> AnyError(ends)
  {
    if ends != [] {
      ErrorOfTotals(ends[1..]);
      assert forall t :: 0 <= t < |ends[1..]| ==> ends[1..][t] == ends[t + 1];
      assert forall t :: 1 <= t < |ends| ==> ends[t] == ends[1..][t - 1];
    }
  }

  lemma {:induction false} AllStartedIff(ends: seq<S.Snapshot>)
    ensures AllStarted(ends) <==> Started(ends) == |ends|
  {
    if ends != [] {
      AllStartedIff(ends[1..]);
      assert forall t :: 0 <= t < |ends[1..]| ==> ends[1..][t] == ends[t + 1];
      assert forall t :: 1 <= t < |ends| ==> ends[t] == ends[1..][t - 1];
    }
  }

  lemma {:induction false} NoLeftovers(ends: seq<S.Snapshot>)
    requires NothingLeftOver(ends)
    ensures Leftovers(ends) == 0
  {
    if ends != [] {
      NoLeftovers(ends[1..]);
    }
  }

  // ---- The reports ----

  datatype Instance = Instance(settings: Settings, name: string, unit: TimeUnit, statistics: seq<Statistic>)

  /** `CreateRunReport`. */
  function CreateRunReport(b: Instance, r: IterationResults): Run {
    if r.HasError() then Run(b.name, None, true, r.totals.iterations, 0.0, 0.0, b.unit, None)
    else
      Run(b.name, None, false, r.totals.iterations,
          if b.settings.useManualTime then r.totals.manualTime else r.totals.realTime,
          r.totals.cpuTime, b.unit, Some(b.statistics))
  }

  function ReportOf(b: Instance, n: nat, ends: seq<S.Snapshot>): Run
    requires b.settings.threads > 0
  {
    CreateRunReport(b, Measure(b.settings, TotalsOf(ends), n))
  }

  /** The reports of repetitions with n iterations each. */
  ghost predicate Reports(b: Instance, n: nat, ends: seq<seq<S.Snapshot>>, runs: seq<Run>) {
    && b.settings.threads > 0 && |runs| == |ends|
    && forall k :: 0 <= k < |ends| ==> IsRepetition(b, n, ends[k], runs[k])
  }

  ghost predicate IsRepetition(b: Instance, n: nat, ends: seq<S.Snapshot>, run: Run)
    requires b.settings.threads > 0
  {
    |ends| == b.settings.threads && AllEnd(n, ends) && run == ReportOf(b, n, ends)
  }

  lemma RepetitionFacts(b: Instance, n: nat, ends: seq<S.Snapshot>, run: Run)
    requires b.settings.threads > 0 && IsRepetition(b, n, ends, run)
    ensures run.runName == b.name && run.aggregate == None && run.unit == b.unit
    ensures run.iterations == n * Started(ends) + Leftovers(ends)
    ensures run.errorOccurred <==> AnyError(ends)
    ensures !run.errorOccurred ==> AllStarted(ends)
    ensures Reported(run)
  {
    TotalIterations(n, ends);
    ErrorOfTotals(ends);
    AllStartedIff(ends);
    forall t | 0 <= t < |ends|
      ensures ends[t].leftover >= 0 && (!ends[t].errored ==> ends[t].started)
    {
      assert CanEnd(n, ends[t]);
      EndIterations(n, ends[t]);
    }
    LeftoversNotNegative(ends);
    assert CanEnd(n, ends[0]);
    if !AnyError(ends) {
      AtLeast(n, |ends|);
    }
  }

  lemma TimesOfReport(b: Instance, n: nat, t: Totals, run: Run)
    requires b.settings.threads > 0 && run == CreateRunReport(b, Measure(b.settings, t, n))
    ensures t.hasError ==> run.realTime == run.cpuTime == 0.0
    ensures !t.hasError ==>
      && run.realTime * b.settings.threads as real == (if b.settings.useManualTime then t.manualTime else t.realTime)
      && (if b.settings.processCpuTime then run.cpuTime * b.settings.threads as real == t.cpuTime
          else run.cpuTime == t.cpuTime)
      && run.statistics == Some(b.statistics)
  {
    MeasuredTime(b.settings, t, n);
  }

  /** The times in a report: averages over the threads, CPU time only if that of the whole process was
      measured, and manual instead of real time if the settings say so. */
  lemma ReportedTimes(b: Instance, n: nat, ends: seq<S.Snapshot>, run: Run)
    requires b.settings.threads > 0 && run == ReportOf(b, n, ends)
    ensures AnyError(ends) ==> run.realTime == run.cpuTime == 0.0
    ensures !AnyError(ends) ==>
      var t, k := TotalsOf(ends), b.settings.threads as real;
      && run.realTime * k == (if b.settings.useManualTime then t.manualTime else t.realTime)
      && (if b.settings.processCpuTime then run.cpuTime * k == t.cpuTime else run.cpuTime == t.cpuTime)
      && run.statistics == Some(b.statistics)
  {
    ErrorOfTotals(ends);
    TimesOfReport(b, n, TotalsOf(ends), run);
  }

  lemma AtLeast(n: nat, k: nat)
    requires n > 0 && k > 0
    ensures n * k > 0
  {
  }

  lemma {:induction false} LeftoversNotNegative(ends: seq<S.Snapshot>)
    requires forall t :: 0 <= t < |ends| ==> ends[t].leftover >= 0
    ensures Leftovers(ends) >= 0
  {
    if ends != [] {
      LeftoversNotNegative(ends[1..]);
    }
  }

  lemma AllAreReported(b: Instance, n: nat, ends: seq<seq<S.Snapshot>>, runs: seq<Run>)
    requires Reports(b, n, ends, runs)
    ensures AllReported(runs)
    ensures forall k :: 0 <= k < |runs| ==> runs[k].unit == b.unit
  {
    forall k | 0 <= k < |runs|
      ensures Reported(runs[k]) && runs[k].unit == b.unit
    {
      assert IsRepetition(b, n, ends[k], runs[k]);
      RepetitionFacts(b, n, ends[k], runs[k]);
    }
  }

  /** The iterations that the source sums over the threads of repetition k. */
  function Counted(n: nat, ends: seq<S.Snapshot>): int {
    n * Started(ends) + Leftovers(ends)
  }

  /** The checks of `ComputeStats` pass exactly when all repetitions have as many threads that
      started, weighted with the iterations, and iterations left over in batches. */
  lemma ChecksPassIff(b: Instance, n: nat, ends: seq<seq<S.Snapshot>>, runs: seq<Run>)
    requires Reports(b, n, ends, runs)
    ensures AllAgree(runs) <==> forall k :: 0 <= k < |ends| ==> Counted(n, ends[k]) == Counted(n, ends[0])
  {
    forall k | 0 <= k < |runs|
      ensures Agree(runs[0], runs[k]) <==> Counted(n, ends[k]) == Counted(n, ends[0])
    {
      assert IsRepetition(b, n, ends[0], runs[0]) && IsRepetition(b, n, ends[k], runs[k]);
      RepetitionFacts(b, n, ends[0], runs[0]);
      RepetitionFacts(b, n, ends[k], runs[k]);
    }
  }

  lemma KeptHas(runs: seq<Run>) returns (j: nat)
    requires Kept(runs) != []
    ensures j < |runs| && !runs[j].errorOccurred
  {
    var run := Kept(runs)[0];
    j :| 0 <= j < |runs| && runs[j] == run;
  }

  lemma SameProduct(n: nat, j: nat, k: nat)
    requires n > 0 && n * j == n * k
    ensures j == k
  {
    if j < k {
      assert n * k == n * j + n * (k - j);
      AtLeast(n, k - j);
    } else if k < j {
      assert n * j == n * k + n * (j - k);
      AtLeast(n, j - k);
    }
  }

  /** Without batches, and with some repetition that has no error, they pass exactly when no thread
      of any repetition returned without entering its loop. */
  lemma ChecksPassIffAllStarted(b: Instance, n: nat, ends: seq<seq<S.Snapshot>>, runs: seq<Run>)
    requires Reports(b, n, ends, runs) && Kept(runs) != []
    requires forall k :: 0 <= k < |ends| ==> NothingLeftOver(ends[k])
    ensures AllAgree(runs) <==> forall k :: 0 <= k < |ends| ==> AllStarted(ends[k])
  {
    ChecksPassIff(b, n, ends, runs);
    var j := KeptHas(runs);
    var threads := b.settings.threads;
    forall k | 0 <= k < |ends|
      ensures Counted(n, ends[k]) == n * Started(ends[k]) && |ends[k]| == threads
      ensures AllStarted(ends[k]) <==> Counted(n, ends[k]) == n * threads
    {
      assert IsRepetition(b, n, ends[k], runs[k]);
      NoLeftovers(ends[k]);
      AllStartedIff(ends[k]);
      assert CanEnd(n, ends[k][0]);
      if Counted(n, ends[k]) == n * threads {
        SameProduct(n, Started(ends[k]), threads);
      }
    }
    assert IsRepetition(b, n, ends[j], runs[j]);
    RepetitionFacts(b, n, ends[j], runs[j]);
    assert Counted(n, ends[j]) == n * threads;
  }

  /** Without batches the aggregates are computed exactly when fewer than two repetitions have no
      error, or all threads of all repetitions started and none of the first failed. */
  lemma ComputedIff(b: Instance, n: nat, ends: seq<seq<S.Snapshot>>, runs: seq<Run>)
    requires Reports(b, n, ends, runs)
    requires forall k :: 0 <= k < |ends| ==> NothingLeftOver(ends[k])
    ensures |Kept(runs)| < 2 || (AllAgree(runs) && !runs[0].errorOccurred) <==>
      |Kept(runs)| < 2 || ((forall k :: 0 <= k < |ends| ==> AllStarted(ends[k])) && !AnyError(ends[0]))
  {
    if |Kept(runs)| >= 2 {
      ChecksPassIffAllStarted(b, n, ends, runs);
      assert IsRepetition(b, n, ends[0], runs[0]);
      RepetitionFacts(b, n, ends[0], runs[0]);
    }
  }

  // ---- The whole of RunBenchmark ----

  /** What the threads do in run k with n iterations. */
  type Threads = (nat, nat) -> seq<S.Snapshot>

  ghost predicate Behaves(b: Instance, threads: Threads) {
    forall k: nat, n: nat | n > 0 :: |threads(k, n)| == b.settings.threads && AllEnd(n, threads(k, n))
  }

  function Machine(threads: Threads): (nat, nat) -> Totals {
    (k: nat, n: nat) => TotalsOf(threads(k, n))
  }

  /** The reports of all repetitions. */
  method CreateRunReports(b: Instance, reports: seq<Report>) returns (runs: seq<Run>)
    ensures |runs| == |reports|
    ensures forall j :: 0 <= j < |runs| ==> runs[j] == CreateRunReport(b, reports[j].result)
  {
    runs := [];
    var k := 0;
    while k < |reports|
      invariant 0 <= k <= |reports| && |runs| == k
      invariant forall j :: 0 <= j < k ==> runs[j] == CreateRunReport(b, reports[j].result)
    {
      runs := runs + [CreateRunReport(b, reports[k].result)];
      k := k + 1;
    }
  }

  /** Run number r with n iterations, and its report. */
  ghost predicate ReportsRun(b: Instance, threads: Threads, r: nat, n: nat, run: Run)
    requires b.settings.threads > 0
  {
    IsRepetition(b, n, threads(r, n), run)
  }

  lemma ReportOfRun(b: Instance, threads: Threads, r: nat, n: nat, result: IterationResults)
    requires b.settings.threads > 0 && n > 0 && Behaves(b, threads)
    requires result == Measure(b.settings, TotalsOf(threads(r, n)), n)
    ensures ReportsRun(b, threads, r, n, CreateRunReport(b, result))
  {
  }

  ghost function EndsFrom(threads: Threads, first: nat, n: nat, count: nat): (ends: seq<seq<S.Snapshot>>)
    ensures |ends| == count && forall k :: 0 <= k < count ==> ends[k] == threads(first + k, n)
  {
    seq(count, k requires 0 <= k => threads(first + k, n))
  }

  /** They come from the runs of the threads that the runner counted on. */
  lemma ReportsOfRuns(b: Instance, reports: seq<Report>, runs: seq<Run>, threads: Threads, first: nat, n: nat)
    returns (ends: seq<seq<S.Snapshot>>)
    requires b.settings.threads > 0 && n > 0 && Behaves(b, threads) && |runs| == |reports|
    requires forall k :: 0 <= k < |reports| ==>
      reports[k].result == Measure(b.settings, TotalsOf(threads(first + k, n)), n)
    requires forall j :: 0 <= j < |runs| ==> runs[j] == CreateRunReport(b, reports[j].result)
    ensures |ends| == |reports| && forall k :: 0 <= k < |ends| ==> ends[k] == threads(first + k, n)
    ensures Reports(b, n, ends, runs)
  {
    ends := EndsFrom(threads, first, n, |reports|);
    forall j | 0 <= j < |runs|
      ensures ReportsRun(b, threads, first + j, n, runs[j])
    {
      ReportOfRun(b, threads, first + j, n, reports[j].result);
    }
    RunsAreReports(b, threads, first, n, ends, runs);
  }

  lemma RunsAreReports(b: Instance, threads: Threads, first: nat, n: nat, ends: seq<seq<S.Snapshot>>, runs: seq<Run>)
    requires b.settings.threads > 0 && |runs| == |ends|
    requires forall k :: 0 <= k < |ends| ==> ends[k] == threads(first + k, n)
    requires forall j :: 0 <= j < |runs| ==> ReportsRun(b, threads, first + j, n, runs[j])
    ensures Reports(b, n, ends, runs)
  {
    forall j | 0 <= j < |runs|
      ensures IsRepetition(b, n, ends[j], runs[j])
    {
      assert ReportsRun(b, threads, first + j, n, runs[j]);
    }
  }

  /** `RunBenchmark`: the repetitions, their reports, and the aggregates. */
  method RunBenchmark(b: Instance, minTimeFlag: real, repetitionsFlag: nat, threads: Threads, memory: bool)
    returns (runs: seq<Run>, o: Outcome, ghost first: nat, ghost n: nat, ghost ends: seq<seq<S.Snapshot>>)
    requires b.settings.threads > 0 && LeastTime(b.settings, minTimeFlag) > 0.0 && Behaves(b, threads)
    ensures |runs| == if b.settings.repetitions != 0 then b.settings.repetitions else repetitionsFlag
    ensures Reports(b, n, ends, runs) && forall k :: 0 <= k < |ends| ==> ends[k] == threads(first + k, n)
    ensures o.CheckFails? <==>
      |Kept(runs)| >= 2 && !(forall k :: 0 <= k < |ends| ==> Counted(n, ends[k]) == Counted(n, ends[0]))
    ensures (forall k :: 0 <= k < |ends| ==> NothingLeftOver(ends[k])) ==>
      (o.Computed? <==>
        |Kept(runs)| < 2 || ((forall k :: 0 <= k < |ends| ==> AllStarted(ends[k])) && !AnyError(ends[0])))
  {
    var runner := new BenchmarkRunner(b.settings, minTimeFlag, repetitionsFlag, Machine(threads), memory);
    first := runner.RunAll();
    n := runner.iters;
    runs := CreateRunReports(b, runner.reports);
    ends := ReportsOfRuns(b, runner.reports, runs, threads, first, n);
    AllAreReported(b, n, ends, runs);
    o := ComputeStats(runs);
    ChecksPassIff(b, n, ends, runs);
    if forall k :: 0 <= k < |ends| ==> NothingLeftOver(ends[k]) {
      ComputedIff(b, n, ends, runs);
    }
  }

  // ---- Two runs that end badly ----

  const ZERO := S.Now(0.0, 0.0)

  /** One iteration, and the end of the loop. */
  lemma GoodThread() returns (s: S.Snapshot)
    ensures CanEnd(1, s) && s.started && !s.errored && s.leftover == 0
  {
    var c := S.Call(S.KeepRunningOp(1, false), ZERO);
    S.TwoCalls(S.Begin(1, 0.0), c, c);
    s := S.After(S.Begin(1, 0.0), [c, c]).s;
    assert EndsIn(1, 0.0, [c, c], s);
  }

  /** A failure inside the loop. */
  lemma LateThread() returns (s: S.Snapshot)
    ensures CanEnd(1, s) && s.started && s.errored && s.leftover == 0
  {
    var c, d := S.Call(S.KeepRunningOp(1, false), ZERO), S.Call(S.Skip("failed"), ZERO);
    S.TwoCalls(S.Begin(1, 0.0), c, d);
    s := S.After(S.Begin(1, 0.0), [c, d]).s;
    assert EndsIn(1, 0.0, [c, d], s);
  }

  /** A failure, and no loop at all. */
  lemma EarlyThread() returns (s: S.Snapshot)
    ensures CanEnd(1, s) && !s.started && s.errored && s.leftover == 0
  {
    var d := S.Call(S.Skip("failed"), ZERO);
    S.TwoCalls(S.Begin(1, 0.0), d, d);
    s := S.After(S.Begin(1, 0.0), [d, d]).s;
    assert EndsIn(1, 0.0, [d, d], s);
  }

  lemma KeptOfThree(x: Run, y: Run, z: Run)
    ensures Kept([x, y, z]) ==
      (if x.errorOccurred then [] else [x]) + (if y.errorOccurred then [] else [y]) +
      (if z.errorOccurred then [] else [z])
  {
    assert [x, y, z][..2] == [x, y] && [x, y][..1] == [x] && [x][..0] == [];
    assert Kept([x]) == Kept([]) + if x.errorOccurred then [] else [x];
  }

  lemma OneThread(b: Instance, s: S.Snapshot)
    requires b.settings.threads == 1 && CanEnd(1, s)
    ensures IsRepetition(b, 1, [s], ReportOf(b, 1, [s]))
    ensures ReportOf(b, 1, [s]).errorOccurred <==> s.errored
    ensures AllStarted([s]) <==> s.started
  {
    assert IsRepetition(b, 1, [s], ReportOf(b, 1, [s]));
    RepetitionFacts(b, 1, [s], ReportOf(b, 1, [s]));
    assert [s][0] == s;
  }

  /** Three repetitions, of which the second fails and returns without entering its loop: a check fails. */
  lemma EarlyFailureFailsTheCheck(b: Instance) returns (ends: seq<seq<S.Snapshot>>, runs: seq<Run>)
    requires b.settings.threads == 1
    ensures |ends| == 3 && Reports(b, 1, ends, runs) && |Kept(runs)| == 2
    ensures !runs[0].errorOccurred && !AllAgree(runs)
  {
    var good := GoodThread();
    var early := EarlyThread();
    ends := [[good], [early], [good]];
    runs := [ReportOf(b, 1, [good]), ReportOf(b, 1, [early]), ReportOf(b, 1, [good])];
    OneThread(b, good);
    OneThread(b, early);
    KeptOfThree(runs[0], runs[1], runs[2]);
    assert forall k :: 0 <= k < 3 ==> IsRepetition(b, 1, ends[k], runs[k]);
    ChecksPassIffAllStarted(b, 1, ends, runs);
    assert !AllStarted(ends[1]);
  }

  /** Three repetitions, of which the first fails in its loop: the checks pass, and the statistics
      of the first report have never been set. */
  lemma FirstFailureReadsUnset(b: Instance) returns (ends: seq<seq<S.Snapshot>>, runs: seq<Run>)
    requires b.settings.threads == 1
    ensures |ends| == 3 && Reports(b, 1, ends, runs) && |Kept(runs)| == 2
    ensures AllAgree(runs) && runs[0].errorOccurred && runs[0].statistics.None?
  {
    var good := GoodThread();
    var late := LateThread();
    ends := [[late], [good], [good]];
    runs := [ReportOf(b, 1, [late]), ReportOf(b, 1, [good]), ReportOf(b, 1, [good])];
    OneThread(b, good);
    OneThread(b, late);
    KeptOfThree(runs[0], runs[1], runs[2]);
    assert forall k :: 0 <= k < 3 ==> IsRepetition(b, 1, ends[k], runs[k]);
    ChecksPassIffAllStarted(b, 1, ends, runs);
  }
}

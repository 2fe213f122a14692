/** `ComputeStats` and the adjusted times of the runs that it aggregates. */
module Aggregates {
  import opened Basics
  import opened Statistics

  datatype TimeUnit = Nanosecond | Microsecond | Millisecond

  function GetTimeUnitMultiplier(u: TimeUnit): real {
    match u
    case Nanosecond => 1000000000.0
    case Microsecond => 1000000.0
    case Millisecond => 1000.0
  }

  datatype Statistic = Statistic(name: string, compute: seq<real> -> real)

  /** The report of a repetition, or an aggregate. `statistics` is a pointer that nothing sets unless
      the repetition has no error. */
  datatype Run = Run(
    runName: string, aggregate: Option<string>, errorOccurred: bool, iterations: int,
    realTime: real, cpuTime: real, unit: TimeUnit, statistics: Option<seq<Statistic>>)
  {
    function BenchmarkName(): string {
      if aggregate.Some? then runName + "_" + aggregate.value else runName
    }

    function Adjusted(time: real): real {
      var t := time * GetTimeUnitMultiplier(unit);
      if iterations != 0 then t / iterations as real else t
    }

    function GetAdjustedRealTime(): real {
      Adjusted(realTime)
    }

    function GetAdjustedCPUTime(): real {
      Adjusted(cpuTime)
    }
  }

  /** The runs without an error. */
  function Kept(reports: seq<Run>): (kept: seq<Run>)
    ensures forall i :: 0 <= i < |kept| ==> !kept[i].errorOccurred && kept[i] in reports
  {
    if reports == [] then []
    else
      var front, last := reports[..|reports| - 1], reports[|reports| - 1];
      Kept(front) + if last.errorOccurred then [] else [last]
  }

  function RealTimes(runs: seq<Run>): (t: seq<real>)
    ensures |t| == |runs| && forall i :: 0 <= i < |t| ==> t[i] == runs[i].realTime
  {
    seq(|runs|, i requires 0 <= i < |runs| => runs[i].realTime)
  }

  function CpuTimes(runs: seq<Run>): (t: seq<real>)
    ensures |t| == |runs| && forall i :: 0 <= i < |t| ==> t[i] == runs[i].cpuTime
  {
    seq(|runs|, i requires 0 <= i < |runs| => runs[i].cpuTime)
  }

  function AdjustedRealTimes(runs: seq<Run>): (t: seq<real>)
    ensures |t| == |runs| && forall i :: 0 <= i < |t| ==> t[i] == runs[i].GetAdjustedRealTime()
  {
    seq(|runs|, i requires 0 <= i < |runs| => runs[i].GetAdjustedRealTime())
  }

  function AdjustedCpuTimes(runs: seq<Run>): (t: seq<real>)
    ensures |t| == |runs| && forall i :: 0 <= i < |t| ==> t[i] == runs[i].GetAdjustedCPUTime()
  {
    seq(|runs|, i requires 0 <= i < |runs| => runs[i].GetAdjustedCPUTime())
  }

  /** What `CreateRunReport` makes sure of. */
  ghost predicate Reported(run: Run) {
    (run.statistics.Some? <==> !run.errorOccurred) && (!run.errorOccurred ==> run.iterations > 0)
  }

  ghost predicate AllReported(reports: seq<Run>) {
    forall i :: 0 <= i < |reports| ==> Reported(reports[i])
  }

  /** What the loop of `ComputeStats` checks, of the reports with an error as well. */
  predicate Agree(a: Run, b: Run) {
    a.BenchmarkName() == b.BenchmarkName() && a.iterations == b.iterations
  }

  ghost predicate AllAgree(reports: seq<Run>) {
    forall i :: 0 <= i < |reports| ==> Agree(reports[0], reports[i])
  }

  /** From a time summed over the iterations to a time per iteration in the unit of the report. */
  function Factor(reports: seq<Run>): real
    requires reports != [] && reports[0].iterations > 0
  {
    GetTimeUnitMultiplier(reports[0].unit) / reports[0].iterations as real
  }

  /** How `ComputeStats` ends. */
  datatype Outcome =
    | Computed(aggregates: seq<Run>)
    | CheckFails      // statistics.cc:122-123
    | ReadsUnset      // statistics.cc:147, through the pointer of a first report with an error

  lemma IterationsArePositive(reports: seq<Run>)
    requires AllReported(reports) && Kept(reports) != [] && AllAgree(reports)
    ensures reports != [] && reports[0].iterations > 0
  {
    var run := Kept(reports)[0];
    assert !run.errorOccurred && run in reports;
    var i :| 0 <= i < |reports| && reports[i] == run;
    assert Agree(reports[0], reports[i]);
  }

  /** What is reported for a statistic: its value on the times of the runs without an error, in
      units per iteration. */
  ghost predicate IsAggregate(reports: seq<Run>, stat: Statistic, run: Run)
    requires reports != [] && reports[0].iterations > 0
  {
    && run.runName == reports[0].runName && run.aggregate == Some(stat.name)
    && run.iterations == |reports| && run.unit == reports[0].unit
    && run.GetAdjustedRealTime() == Times(Factor(reports), stat.compute(RealTimes(Kept(reports))))
    && run.GetAdjustedCPUTime() == Times(Factor(reports), stat.compute(CpuTimes(Kept(reports))))
  }

  /** `ComputeStats`. Below two runs without an error there is nothing to aggregate; otherwise it
      succeeds exactly when all reports agree and the first has no error. The number of reports, by
      which an aggregate is multiplied here and divided when it is reported, cancels out. */
  method ComputeStats(reports: seq<Run>) returns (o: Outcome)
    requires AllReported(reports)
    ensures |Kept(reports)| < 2 ==> o == Computed([])
    ensures o.Computed? <==> |Kept(reports)| < 2 || (AllAgree(reports) && !reports[0].errorOccurred)
    ensures o.CheckFails? <==> |Kept(reports)| >= 2 && !AllAgree(reports)
    ensures o.Computed? && |Kept(reports)| >= 2 ==>
      && reports[0].iterations > 0 && |o.aggregates| == |reports[0].statistics.value|
      && forall s :: 0 <= s < |o.aggregates| ==>
           IsAggregate(reports, reports[0].statistics.value[s], o.aggregates[s])
  {
    var count := CountKept(reports);
    if count < 2 {
      return Computed([]);
    }
    var ok, real_, cpu := Accumulate(reports);
    if !ok {
      return CheckFails;
    }
    IterationsArePositive(reports);
    if reports[0].statistics.None? {
      return ReadsUnset;
    }
    var statistics := reports[0].statistics.value;
    var results := Aggregated(reports, statistics, real_, cpu);
    forall s | 0 <= s < |results|
      ensures IsAggregate(reports, statistics[s], results[s])
    {
      RescaledTime(reports, results[s], statistics[s].compute(real_));
      RescaledTime(reports, results[s], statistics[s].compute(cpu));
    }
    return Computed(results);
  }

  function RescaleFactor(reports: seq<Run>): real
    requires reports != [] && reports[0].iterations > 0
  {
    |reports| as real / reports[0].iterations as real
  }

  function Aggregate(reports: seq<Run>, stat: Statistic, real_: seq<real>, cpu: seq<real>): Run
    requires reports != [] && reports[0].iterations > 0
  {
    Run(reports[0].runName, Some(stat.name), false, |reports|, Times(stat.compute(real_), RescaleFactor(reports)),
        Times(stat.compute(cpu), RescaleFactor(reports)), reports[0].unit, None)
  }

  /** The loop over the statistics. */
  method Aggregated(reports: seq<Run>, statistics: seq<Statistic>, real_: seq<real>, cpu: seq<real>)
    returns (results: seq<Run>)
    requires reports != [] && reports[0].iterations > 0
    ensures |results| == |statistics|
    ensures forall k :: 0 <= k < |results| ==> results[k] == Aggregate(reports, statistics[k], real_, cpu)
  {
    results := [];
    var s := 0;
    while s < |statistics|
      invariant 0 <= s <= |statistics| && |results| == s
      invariant forall k :: 0 <= k < s ==> results[k] == Aggregate(reports, statistics[k], real_, cpu)
    {
      results := results + [Aggregate(reports, statistics[s], real_, cpu)];
      s := s + 1;
    }
  }

  lemma KeptNext(reports: seq<Run>, i: nat)
    requires i < |reports|
    ensures Kept(reports[..i + 1]) == Kept(reports[..i]) + if reports[i].errorOccurred then [] else [reports[i]]
  {
    assert reports[..i + 1][..i] == reports[..i];
  }

  method CountKept(reports: seq<Run>) returns (count: nat)
    ensures count == |Kept(reports)|
  {
    count := 0;
    var i := 0;
    while i < |reports|
      invariant 0 <= i <= |reports| && count == |Kept(reports[..i])|
    {
      KeptNext(reports, i);
      if !reports[i].errorOccurred {
        count := count + 1;
      }
      i := i + 1;
    }
    assert reports[..i] == reports;
  }

  /** The loop that checks every report and skips the times of those with errors. */
  method Accumulate(reports: seq<Run>) returns (ok: bool, real_: seq<real>, cpu: seq<real>)
    ensures ok <==> AllAgree(reports)
    ensures ok ==> real_ == RealTimes(Kept(reports)) && cpu == CpuTimes(Kept(reports))
  {
    real_, cpu := [], [];
    ghost var kept: seq<Run> := [];
    var i := 0;
    while i < |reports|
      invariant 0 <= i <= |reports| && kept == Kept(reports[..i])
      invariant forall k :: 0 <= k < i ==> Agree(reports[0], reports[k])
      invariant real_ == RealTimes(kept) && cpu == CpuTimes(kept)
    {
      if !Agree(reports[0], reports[i]) {
        return false, real_, cpu;
      }
      KeptNext(reports, i);
      if !reports[i].errorOccurred {
        kept := kept + [reports[i]];
        real_ := real_ + [reports[i].realTime];
        cpu := cpu + [reports[i].cpuTime];
      }
      i := i + 1;
    }
    assert reports[..i] == reports;
    ok := true;
  }

  lemma RescaledTime(reports: seq<Run>, run: Run, x: real)
    requires reports != [] && reports[0].iterations > 0
    requires run.iterations == |reports| && run.unit == reports[0].unit
    ensures run.Adjusted(Times(x, RescaleFactor(reports))) == Times(Factor(reports), x)
  {
    Cancel(x, |reports| as real, reports[0].iterations as real, GetTimeUnitMultiplier(run.unit));
  }

  lemma Cancel(x: real, n: real, m: real, u: real)
    requires n > 0.0 && m > 0.0
    ensures x * (n / m) * u / n == Times(u / m, x)
  {
    var w, k := n / m, u / m;
    assert w * m == n && k * m == u;
    assert x * w * u == x * w * (k * m);
    assert x * w * (k * m) == k * x * (w * m);
    assert x * w * u == k * x * n;
  }

  /** The repetitions of one benchmark, with at least one iteration each and in the same unit. */
  ghost predicate Repetitions(reports: seq<Run>) {
    reports != [] && reports[0].iterations > 0 && AllAgree(reports) &&
    forall i :: 0 <= i < |reports| ==> reports[i].unit == reports[0].unit
  }

  lemma AdjustedIsScaled(reports: seq<Run>)
    requires Repetitions(reports)
    ensures AdjustedRealTimes(Kept(reports)) == Scaled(Factor(reports), RealTimes(Kept(reports)))
    ensures AdjustedCpuTimes(Kept(reports)) == Scaled(Factor(reports), CpuTimes(Kept(reports)))
  {
    var kept := Kept(reports);
    forall i | 0 <= i < |kept|
      ensures kept[i].GetAdjustedRealTime() == Times(Factor(reports), kept[i].realTime)
      ensures kept[i].GetAdjustedCPUTime() == Times(Factor(reports), kept[i].cpuTime)
    {
      assert kept[i] in reports;
      AdjustedTime(reports, kept[i], kept[i].realTime);
      AdjustedTime(reports, kept[i], kept[i].cpuTime);
    }
  }

  lemma AdjustedTime(reports: seq<Run>, run: Run, x: real)
    requires Repetitions(reports) && run in reports
    ensures run.Adjusted(x) == Times(Factor(reports), x)
  {
    var i :| 0 <= i < |reports| && reports[i] == run;
    assert Agree(reports[0], reports[i]);
    Regroup(x, GetTimeUnitMultiplier(run.unit), run.iterations as real);
  }

  lemma Regroup(x: real, u: real, m: real)
    requires m > 0.0
    ensures x * u / m == Times(u / m, x)
  {
    var k := u / m;
    assert k * m == u;
    assert x * u == k * x * m;
  }

  lemma FactorIsPositive(reports: seq<Run>)
    requires Repetitions(reports)
    ensures Factor(reports) > 0.0
  {
    PositiveQuotient(GetTimeUnitMultiplier(reports[0].unit), reports[0].iterations as real);
  }

  lemma PositiveQuotient(u: real, m: real)
    requires u > 0.0 && m > 0.0
    ensures u / m > 0.0
  {
  }

  /** The adjusted mean is the mean of the adjusted times of the runs without an error, and so for
      the standard deviation, and what is reported as the median is a possible median of them. */
  lemma AggregatesOfAdjusted(reports: seq<Run>, sqrt: real -> real, median: real, cpuMedian: real)
    requires Repetitions(reports) && IsSqrt(sqrt)
    requires PossibleMedian(RealTimes(Kept(reports)), median) && PossibleMedian(CpuTimes(Kept(reports)), cpuMedian)
    ensures Times(Factor(reports), Mean(RealTimes(Kept(reports)))) == Mean(AdjustedRealTimes(Kept(reports)))
    ensures Times(Factor(reports), Mean(CpuTimes(Kept(reports)))) == Mean(AdjustedCpuTimes(Kept(reports)))
    ensures Times(Factor(reports), StdDev(sqrt, RealTimes(Kept(reports))))
         == StdDev(sqrt, AdjustedRealTimes(Kept(reports)))
    ensures Times(Factor(reports), StdDev(sqrt, CpuTimes(Kept(reports))))
         == StdDev(sqrt, AdjustedCpuTimes(Kept(reports)))
    ensures PossibleMedian(AdjustedRealTimes(Kept(reports)), Times(Factor(reports), median))
    ensures PossibleMedian(AdjustedCpuTimes(Kept(reports)), Times(Factor(reports), cpuMedian))
  {
    var c, x, y := Factor(reports), RealTimes(Kept(reports)), CpuTimes(Kept(reports));
    FactorIsPositive(reports);
    AdjustedIsScaled(reports);
    MeanScales(c, x);
    MeanScales(c, y);
    StdDevScales(sqrt, c, x);
    StdDevScales(sqrt, c, y);
    MedianScales(c, x, median);
    MedianScales(c, y, cpuMedian);
  }
}

/** The times that are shown for a report, and which reports are aggregated. */
module AdjustedTimes {
  import opened Basics
  import opened Aggregates

  /** A second has 10^9 nanoseconds, 10^6 microseconds and 10^3 milliseconds. */
  function PerSecond(u: TimeUnit): real {
    match u
    case Nanosecond => 1000.0 * PerSecondInMicros()
    case Microsecond => PerSecondInMicros()
    case Millisecond => 1000.0
  }

  function PerSecondInMicros(): real {
    1000.0 * 1000.0
  }

  lemma ShareTimes(x: real, n: real)
    requires n != 0.0
    ensures x / n * n == x
  {
  }

  /** Shown times are per iteration and in the unit of the report: times the iterations they give the
      seconds that were measured, of real time and of CPU time. */
  lemma ShownTimes(run: Run)
    ensures run.iterations != 0 ==>
      && run.GetAdjustedRealTime() * run.iterations as real == run.realTime * PerSecond(run.unit)
      && run.GetAdjustedCPUTime() * run.iterations as real == run.cpuTime * PerSecond(run.unit)
    ensures run.iterations == 0 ==>
      && run.GetAdjustedRealTime() == run.realTime * PerSecond(run.unit)
      && run.GetAdjustedCPUTime() == run.cpuTime * PerSecond(run.unit)
  {
    assert GetTimeUnitMultiplier(run.unit) == PerSecond(run.unit);
    if run.iterations != 0 {
      ShareTimes(run.realTime * PerSecond(run.unit), run.iterations as real);
      ShareTimes(run.cpuTime * PerSecond(run.unit), run.iterations as real);
    }
  }

  /** The same report in another unit shows numbers a thousand times as large or small. */
  lemma UnitsAgree(run: Run)
    ensures run.(unit := Nanosecond).GetAdjustedRealTime() == 1000.0 * run.(unit := Microsecond).GetAdjustedRealTime()
    ensures run.(unit := Microsecond).GetAdjustedRealTime() == 1000.0 * run.(unit := Millisecond).GetAdjustedRealTime()
  {
    var x := run.realTime;
    assert x * 1000000000.0 == 1000.0 * (x * 1000000.0) && x * 1000000.0 == 1000.0 * (x * 1000.0);
    if run.iterations != 0 {
      ThousandTimes(x * 1000000.0, run.iterations as real);
      ThousandTimes(x * 1000.0, run.iterations as real);
    }
  }

  lemma ThousandTimes(x: real, n: real)
    requires n != 0.0
    ensures (1000.0 * x) / n == 1000.0 * (x / n)
  {
    ShareTimes(x, n);
    var y := x / n;
    assert 1000.0 * x == (1000.0 * y) * n;
  }

  /** Exactly the reports without an error are aggregated, in their order. */
  lemma {:induction false} KeptConcat(a: seq<Run>, b: seq<Run>, run: Run)
    ensures Kept([]) == [] && Kept([run]) == (if run.errorOccurred then [] else [run])
    ensures Kept(a + b) == Kept(a) + Kept(b)
    decreases |b|
  {
    assert [run][..0] == [] && Kept([]) == [];
    if b == [] {
      assert a + b == a;
    } else {
      var front, last := b[..|b| - 1], b[|b| - 1];
      assert (a + b)[..|a + b| - 1] == a + front;
      KeptConcat(a, front, run);
    }
  }

  /** An aggregate carries the name of its statistic behind that of the benchmark. */
  lemma NamesAre(run: Run)
    ensures run.aggregate == None ==> run.BenchmarkName() == run.runName
    ensures run.aggregate.Some? ==> run.BenchmarkName() == run.runName + ['_'] + run.aggregate.value
  {
    assert run.aggregate.Some? ==> "_" == ['_'];
  }
}

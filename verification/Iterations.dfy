/** The adaptive iteration count of `BenchmarkRunner`, over real arithmetic. */
module Iterations {
  import opened Basics

  const MAX_ITERATIONS: nat := 1_000_000_000
  const NANOSECOND: real := 0.000000001

  datatype Settings = Settings(
    threads: nat, minTime: real, iterations: nat, repetitions: nat,
    processCpuTime: bool, useRealTime: bool, useManualTime: bool)

  /** What the threads of one run added up. */
  datatype Totals = Totals(iterations: int, realTime: real, cpuTime: real, manualTime: real, hasError: bool)

  /** The totals, times adjusted; `iters` is the count each thread was asked for. */
  datatype IterationResults = IterationResults(totals: Totals, iters: nat, seconds: real)
  {
    predicate HasError() {
      totals.hasError
    }
  }

  /** What a repetition reports; `memoryIterations` is zero if no memory was measured. */
  datatype Report = Report(repetition: nat, result: IterationResults, memoryIterations: nat)

  /** `std::lround` of a number that is not negative: halves go up. */
  function Round(x: real): int {
    (x + 0.5).Floor
  }

  // ---- DoNIterations: from the sums over the threads to one result ----

  function Measure(b: Settings, t: Totals, iters: nat): IterationResults
    requires b.threads > 0
  {
    var n := b.threads as real;
    var real_ := t.realTime / n;
    var manual := t.manualTime / n;
    var cpu := if b.processCpuTime then t.cpuTime / n else t.cpuTime;
    IterationResults(Totals(t.iterations, real_, cpu, manual, t.hasError), iters,
                     if b.useManualTime then manual else if b.useRealTime then real_ else cpu)
  }

  // ---- PredictNumItersNeeded and ShouldReportIterationResults ----

  function Multiplier(minTime: real, seconds: real): real
    requires minTime != 0.0
  {
    var direct := minTime * 1.4 / MaxReal(seconds, NANOSECOND);
    var m := if seconds / minTime > 0.1 then direct else MinReal(10.0, direct);
    if m <= 1.0 then 2.0 else m
  }

  function PredictNumItersNeeded(minTime: real, i: IterationResults): (next: nat)
    requires minTime != 0.0
  {
    Expanded(Multiplier(minTime, i.seconds), i.iters)
  }

  /** n iterations expanded by the factor m: at least one more, and at most the maximum. */
  function Expanded(m: real, n: nat): (next: nat) {
    var wanted := Round(MaxReal(m * n as real, n as real + 1.0));
    if MAX_ITERATIONS < wanted then MAX_ITERATIONS else wanted
  }

  predicate ShouldReport(b: Settings, minTime: real, i: IterationResults) {
    || i.HasError()
    || i.iters >= MAX_ITERATIONS
    || i.seconds >= minTime
    || (i.totals.realTime >= 5.0 * minTime && !b.useManualTime)
  }

  // ---- Arithmetic ----

  lemma QuotientBounds(x: real, d: real, k: real)
    requires d > 0.0
    ensures x < k * d ==> x / d < k
    ensures x >= k * d ==> x / d >= k
    ensures x > k * d ==> x / d > k
    ensures x <= k * d ==> x / d <= k
  {
    assert x == (x / d) * d;
  }

  /** How the multiplier depends on the least time, for a result that is not reported. */
  lemma MultiplierBounds(minTime: real, seconds: real)
    requires minTime > 0.0 && seconds < minTime
    ensures 1.0 < Multiplier(minTime, seconds) < 14.0
    ensures minTime >= NANOSECOND ==> Multiplier(minTime, seconds) >= 1.4
    ensures minTime <= NANOSECOND && minTime * 1.4 <= NANOSECOND ==> Multiplier(minTime, seconds) == 2.0
    ensures minTime <= NANOSECOND && minTime * 1.4 > NANOSECOND ==>
              Multiplier(minTime, seconds) == minTime * 1.4 / NANOSECOND
  {
    var d := MaxReal(seconds, NANOSECOND);
    var x := minTime * 1.4;
    QuotientBounds(seconds, minTime, 0.1);
    QuotientBounds(x, d, 14.0);
    QuotientBounds(x, d, 1.4);
    QuotientBounds(x, d, 1.0);
  }

  /** The same with the larger of two integers instead of two reals. */
  lemma ExpandedInIntegers(m: real, n: nat)
    ensures Expanded(m, n) == Capped(Max(Round(m * n as real), n + 1))
  {
    assert (n as real + 1.0 + 0.5).Floor == n + 1;
  }

  function Capped(n: int): int {
    if MAX_ITERATIONS < n then MAX_ITERATIONS else n
  }

  lemma MulOrder(a: real, b: real, x: real)
    requires a <= b && x >= 0.0
    ensures a * x <= b * x
  {
    assert b * x == a * x + (b - a) * x;
  }

  lemma RoundBelow(m: real, k: nat, n: nat)
    requires m <= k as real
    ensures Round(m * n as real) <= k * n
  {
    MulOrder(m, k as real, n as real);
    assert k as real * n as real == (k * n) as real;
  }

  lemma ScaledAbove(m: real, k: real, x: real, y: real)
    requires m >= k && x >= 0.0 && y == k * x
    ensures m * x >= y
  {
    MulOrder(k, m, x);
  }

  lemma ScaledBelow(m: real, k: real, x: real, y: real)
    requires m <= k && x >= 0.0 && y == k * x
    ensures m * x <= y
  {
    MulOrder(m, k, x);
  }

  lemma RoundTenths(n: nat, y: real)
    requires y >= 1.4 * n as real
    ensures Round(y) >= (14 * n + 5) / 10
  {
    var k := (14 * n + 5) / 10;
    assert (10 * k) as real <= (14 * n + 5) as real;
  }

  lemma RoundTenthsExact(n: nat, y: real)
    requires 1.4 * n as real <= y <= 1.4 * n as real + 0.03
    ensures Round(y) == (14 * n + 5) / 10
  {
    var k := (14 * n + 5) / 10;
    assert (10 * k) as real <= (14 * n + 5) as real <= (10 * k + 9) as real;
  }

  lemma RoundEighths(n: nat, y: real)
    requires y >= 1.375 * n as real
    ensures Round(y) >= (11 * n + 4) / 8
  {
    var k := (11 * n + 4) / 8;
    assert (8 * k) as real <= (11 * n + 4) as real;
  }

  lemma AtMostFourteenfold(m: real, n: nat)
    requires n >= 1 && m <= 14.0
    ensures Expanded(m, n) <= 14 * n
  {
    ExpandedInIntegers(m, n);
    RoundBelow(m, 14, n);
  }

  lemma AtLeastOneMore(m: real, n: nat)
    requires n < MAX_ITERATIONS
    ensures n < Expanded(m, n) <= MAX_ITERATIONS
  {
    ExpandedInIntegers(m, n);
  }

  /** The slowest growth there is when the least time is a nanosecond or more. */
  function Slow(n: nat): nat {
    Capped(Max((14 * n + 5) / 10, n + 1))
  }

  lemma AtLeastSlow(m: real, n: nat)
    requires m >= 1.4
    ensures Expanded(m, n) >= Slow(n)
  {
    ExpandedInIntegers(m, n);
    var x := n as real;
    ScaledAbove(m, 1.4, x, 1.4 * x);
    RoundTenths(n, m * x);
  }

  /** next is at least four thirds of n, or the maximum. */
  predicate GrowsByAThird(n: nat, next: nat) {
    3 * next >= 4 * n || next >= MAX_ITERATIONS
  }

  lemma AtLeastAThirdMore(m: real, n: nat)
    requires m >= 1.375
    ensures GrowsByAThird(n, Expanded(m, n))
  {
    RoundedThird(m, n);
    ExpandedInIntegers(m, n);
    ElevenEighths(n);
  }

  lemma RoundedThird(m: real, n: nat)
    requires m >= 1.375
    ensures Round(m * n as real) >= (11 * n + 4) / 8
  {
    var x := n as real;
    ScaledAbove(m, 1.375, x, 1.375 * x);
    RoundEighths(n, m * x);
  }

  lemma ElevenEighths(n: nat)
    ensures 3 * Max((11 * n + 4) / 8, n + 1) >= 4 * n
  {
    if n >= 9 {
      assert 8 * ((11 * n + 4) / 8) >= 11 * n - 3;
    }
  }

  lemma FourBecomeFive(m: real)
    requires 1.0 < m < 1.375
    ensures Expanded(m, 4) == 5
  {
    ExpandedInIntegers(m, 4);
  }

  // ---- One re-estimate ----

  /** For every result that is not reported the next count is larger, at most fourteen times as
      large, and at most the maximum: the assertion in `DoOneRepetition` holds. */
  lemma NextIsLarger(b: Settings, minTime: real, i: IterationResults)
    requires minTime > 0.0 && i.iters >= 1 && !ShouldReport(b, minTime, i)
    ensures i.iters < PredictNumItersNeeded(minTime, i) <= 14 * i.iters
    ensures PredictNumItersNeeded(minTime, i) <= MAX_ITERATIONS
  {
    var m := Multiplier(minTime, i.seconds);
    MultiplierBounds(minTime, i.seconds);
    AtLeastOneMore(m, i.iters);
    AtMostFourteenfold(m, i.iters);
  }

  lemma NextIsFast(b: Settings, minTime: real, i: IterationResults)
    requires minTime >= NANOSECOND && i.iters >= 1 && !ShouldReport(b, minTime, i)
    ensures PredictNumItersNeeded(minTime, i) >= Slow(i.iters)
  {
    MultiplierBounds(minTime, i.seconds);
    AtLeastSlow(Multiplier(minTime, i.seconds), i.iters);
  }

  ghost predicate AlwaysGrowsByAThird(b: Settings, minTime: real)
    requires minTime > 0.0
  {
    forall i: IterationResults :: i.iters >= 1 && !ShouldReport(b, minTime, i) ==>
      GrowsByAThird(i.iters, PredictNumItersNeeded(minTime, i))
  }

  /** Growth by a third is guaranteed except for least times between 5/7 and 55/56 of a
      nanosecond; there four iterations are followed by only five. */
  lemma GrowthByAThird(b: Settings, minTime: real)
    requires minTime > 0.0
    ensures AlwaysGrowsByAThird(b, minTime) <==>
      minTime * 1.4 <= NANOSECOND || minTime * 1.4 >= 1.375 * NANOSECOND
  {
    QuotientBounds(minTime * 1.4, NANOSECOND, 1.375);
    if minTime * 1.4 <= NANOSECOND || minTime * 1.4 >= 1.375 * NANOSECOND {
      forall i: IterationResults | i.iters >= 1 && !ShouldReport(b, minTime, i)
        ensures GrowsByAThird(i.iters, PredictNumItersNeeded(minTime, i))
      {
        MultiplierBounds(minTime, i.seconds);
        AtLeastAThirdMore(Multiplier(minTime, i.seconds), i.iters);
      }
    } else {
      var i := IterationResults(Totals(4, 0.0, 0.0, 0.0, false), 4, 0.0);
      assert i.seconds < minTime && 0.0 < 5.0 * minTime;
      MultiplierBounds(minTime, 0.0);
      FourBecomeFive(Multiplier(minTime, 0.0));
      assert PredictNumItersNeeded(minTime, i) == 5;
    }
  }

  /** A result below a tenth of the least time is trusted only for a tenfold expansion. */
  lemma AtMostTenfold(b: Settings, minTime: real, i: IterationResults)
    requires minTime > 0.0 && i.iters >= 1 && i.seconds <= 0.1 * minTime
    ensures PredictNumItersNeeded(minTime, i) <= 10 * i.iters
  {
    QuotientBounds(i.seconds, minTime, 0.1);
    var m := Multiplier(minTime, i.seconds);
    assert m <= 10.0;
    TenfoldAtMost(m, i.iters);
  }

  lemma TenfoldAtMost(m: real, n: nat)
    requires n >= 1 && m <= 10.0
    ensures Expanded(m, n) <= 10 * n
  {
    ExpandedInIntegers(m, n);
    RoundBelow(m, 10, n);
  }

  /** What a count is for: on a machine where every iteration takes the same time, one estimate
      from more than a tenth of the least time makes the next run long enough, unless it is
      capped. */
  lemma SteadySpeedSuffices(b: Settings, minTime: real, i: IterationResults, perIteration: real)
    requires minTime > 0.0 && i.iters >= 1 && !ShouldReport(b, minTime, i)
    requires i.seconds > 0.1 * minTime && i.seconds >= NANOSECOND
    requires i.seconds == perIteration * i.iters as real
    ensures var next := PredictNumItersNeeded(minTime, i);
            next == MAX_ITERATIONS || perIteration * next as real >= minTime
  {
    QuotientBounds(i.seconds, minTime, 0.1);
    DirectMultiplier(minTime, i.seconds);
    ExpandedIsEnough(minTime, i.seconds, i.iters, perIteration, Multiplier(minTime, i.seconds));
  }

  lemma ExpandedIsEnough(t: real, s: real, n: nat, u: real, m: real)
    requires 0.0 < s < t && n >= 1 && s == u * n as real && m * s == 1.4 * t
    ensures Expanded(m, n) == MAX_ITERATIONS || u * Expanded(m, n) as real >= t
  {
    if Expanded(m, n) != MAX_ITERATIONS {
      ExpandedAbove(m, n);
      LongEnough(t, s, n as real, u, m, Expanded(m, n) as real);
    }
  }

  lemma ExpandedAbove(m: real, n: nat)
    requires Expanded(m, n) != MAX_ITERATIONS
    ensures Expanded(m, n) as real >= n as real + 1.0
    ensures Expanded(m, n) as real > m * n as real - 0.5
  {
    ExpandedInIntegers(m, n);
    RoundAtLeast(m * n as real);
  }

  lemma RoundAtLeast(x: real)
    ensures Round(x) as real > x - 0.5
  {
  }

  lemma DirectMultiplier(minTime: real, seconds: real)
    requires minTime > 0.0 && NANOSECOND <= seconds < minTime && seconds / minTime > 0.1
    ensures Multiplier(minTime, seconds) * seconds == 1.4 * minTime
  {
    var x := minTime * 1.4;
    QuotientBounds(x, seconds, 1.0);
    assert (x / seconds) * seconds == x;
  }

  lemma LongEnough(t: real, s: real, n: real, u: real, m: real, next: real)
    requires 0.0 < s < t && n >= 1.0 && s == u * n && m * s == 1.4 * t
    requires next >= n + 1.0 && next > m * n - 0.5
    ensures u * next >= t
  {
    PositiveFactor(u, n);
    var long := next * u;
    if n < 2.0 && s > 0.8 * t {
      MulOrder(n + 1.0, next, u);
      assert (n + 1.0) * u == n * u + u;
      ScaledBelow(n, 2.0, u, 2.0 * u);
      assert long >= s + u;
    } else {
      MulOrder(m * n - 0.5, next, u);
      assert (m * n - 0.5) * u == m * (u * n) - 0.5 * u;
      assert long >= 1.4 * t - 0.5 * u;
      if n < 2.0 {
        ScaledAbove(n, 1.0, u, u);
      } else {
        ScaledAbove(n, 2.0, u, 2.0 * u);
      }
    }
  }

  lemma PositiveFactor(u: real, n: real)
    requires n > 0.0 && u * n > 0.0
    ensures u > 0.0
  {
  }

  /** The seconds of a result: manual and real time are per thread, CPU time only if it was
      measured for the whole process. */
  lemma MeasuredTime(b: Settings, t: Totals, iters: nat)
    requires b.threads > 0
    ensures var s := Measure(b, t, iters).seconds;
            && (b.useManualTime ==> s * b.threads as real == t.manualTime)
            && (!b.useManualTime && b.useRealTime ==> s * b.threads as real == t.realTime)
            && (!b.useManualTime && !b.useRealTime && b.processCpuTime ==> s * b.threads as real == t.cpuTime)
            && (!b.useManualTime && !b.useRealTime && !b.processCpuTime ==> s == t.cpuTime)
    ensures var r := Measure(b, t, iters).totals;
            && r.realTime * b.threads as real == t.realTime && r.manualTime * b.threads as real == t.manualTime
            && (if b.processCpuTime then r.cpuTime * b.threads as real == t.cpuTime else r.cpuTime == t.cpuTime)
            && r.iterations == t.iterations && r.hasError == t.hasError
  {
    var n := b.threads as real;
    assert (t.manualTime / n) * n == t.manualTime;
    assert (t.realTime / n) * n == t.realTime;
    assert (t.cpuTime / n) * n == t.cpuTime;
  }

  // ---- All re-estimates of the first repetition ----

  /** A benchmark and the machine that runs it: the totals of the k-th run with n iterations. */
  datatype Bench = Bench(b: Settings, minTime: real, machine: (nat, nat) -> Totals) {
    predicate Valid() {
      b.threads > 0 && minTime > 0.0
    }

    function Result(k: nat, n: nat): (i: IterationResults)
      requires Valid()
      ensures i.iters == n
    {
      Measure(b, machine(k, n), n)
    }

    /** The iteration count of try number k, when run number r is try 0 with n iterations. */
    function Count(r: nat, n: nat, k: nat): nat
      requires Valid()
    {
      if k == 0 then n else PredictNumItersNeeded(minTime, Result(r + k - 1, Count(r, n, k - 1)))
    }

    function Try(r: nat, n: nat, k: nat): (i: IterationResults)
      requires Valid()
      ensures i.iters == Count(r, n, k)
    {
      Result(r + k, Count(r, n, k))
    }

    /** The tries before number k are not reported. */
    ghost predicate Rejected(r: nat, n: nat, k: nat)
      requires Valid()
    {
      forall j :: 0 <= j < k ==> !ShouldReport(b, minTime, Try(r, n, j))
    }

    lemma OneMoreTry(r: nat, n: nat, k: nat)
      requires Valid() && Rejected(r, n, k) && !ShouldReport(b, minTime, Try(r, n, k))
      ensures Count(r, n, k + 1) == PredictNumItersNeeded(minTime, Try(r, n, k))
      ensures Rejected(r, n, k + 1)
    {
    }
  }

  /** c grows at least, and d at most, as the slowest count does. */
  ghost predicate Squeezed(c: seq<nat>, d: seq<nat>) {
    |c| == |d| == 62 && forall k: nat :: k < 61 ==> SqueezedAt(c, d, k)
  }

  ghost predicate SqueezedAt(c: seq<nat>, d: seq<nat>, k: nat)
    requires k + 1 < |c| && k + 1 < |d|
  {
    c[k + 1] >= Slow(c[k]) && d[k + 1] <= Slow(d[k])
  }

  lemma Step(c: seq<nat>, d: seq<nat>, k: nat, n: nat, next: nat)
    requires Squeezed(c, d) && k < 61
    requires d[k] <= n <= c[k] && Slow(n) == next
    ensures d[k + 1] <= next <= c[k + 1]
  {
    assert SqueezedAt(c, d, k);
    SlowIsMonotone(n, c[k]);
    SlowIsMonotone(d[k], n);
  }

  lemma SlowIsMonotone(m: nat, n: nat)
    requires m <= n
    ensures Slow(m) <= Slow(n)
  {
  }

  lemma FirstSteps(c: seq<nat>, d: seq<nat>)
    requires Squeezed(c, d) && d[0] <= 1 <= c[0]
    ensures d[20] <= 1182 <= c[20]
  {
    Step(c, d, 0, 1, 2); Step(c, d, 1, 2, 3); Step(c, d, 2, 3, 4); Step(c, d, 3, 4, 6); Step(c, d, 4, 6, 8);
    Step(c, d, 5, 8, 11); Step(c, d, 6, 11, 15); Step(c, d, 7, 15, 21); Step(c, d, 8, 21, 29);
    Step(c, d, 9, 29, 41); Step(c, d, 10, 41, 57); Step(c, d, 11, 57, 80); Step(c, d, 12, 80, 112);
    Step(c, d, 13, 112, 157); Step(c, d, 14, 157, 220); Step(c, d, 15, 220, 308); Step(c, d, 16, 308, 431);
    Step(c, d, 17, 431, 603); Step(c, d, 18, 603, 844); Step(c, d, 19, 844, 1182);
  }

  lemma MiddleSteps(c: seq<nat>, d: seq<nat>)
    requires Squeezed(c, d) && d[20] <= 1182 <= c[20]
    ensures d[40] <= 989306 <= c[40]
  {
    Step(c, d, 20, 1182, 1655); Step(c, d, 21, 1655, 2317); Step(c, d, 22, 2317, 3244);
    Step(c, d, 23, 3244, 4542); Step(c, d, 24, 4542, 6359); Step(c, d, 25, 6359, 8903);
    Step(c, d, 26, 8903, 12464); Step(c, d, 27, 12464, 17450); Step(c, d, 28, 17450, 24430);
    Step(c, d, 29, 24430, 34202); Step(c, d, 30, 34202, 47883); Step(c, d, 31, 47883, 67036);
    Step(c, d, 32, 67036, 93850); Step(c, d, 33, 93850, 131390); Step(c, d, 34, 131390, 183946);
    Step(c, d, 35, 183946, 257524); Step(c, d, 36, 257524, 360534); Step(c, d, 37, 360534, 504748);
    Step(c, d, 38, 504748, 706647); Step(c, d, 39, 706647, 989306);
  }

  lemma LastSteps(c: seq<nat>, d: seq<nat>)
    requires Squeezed(c, d) && d[40] <= 989306 <= c[40]
    ensures d[60] <= 827734956 <= c[60]
  {
    Step(c, d, 40, 989306, 1385028); Step(c, d, 41, 1385028, 1939039); Step(c, d, 42, 1939039, 2714655);
    Step(c, d, 43, 2714655, 3800517); Step(c, d, 44, 3800517, 5320724); Step(c, d, 45, 5320724, 7449014);
    Step(c, d, 46, 7449014, 10428620); Step(c, d, 47, 10428620, 14600068); Step(c, d, 48, 14600068, 20440095);
    Step(c, d, 49, 20440095, 28616133); Step(c, d, 50, 28616133, 40062586); Step(c, d, 51, 40062586, 56087620);
    Step(c, d, 52, 56087620, 78522668); Step(c, d, 53, 78522668, 109931735);
    Step(c, d, 54, 109931735, 153904429); Step(c, d, 55, 153904429, 215466201);
    Step(c, d, 56, 215466201, 301652681); Step(c, d, 57, 301652681, 422313753);
    Step(c, d, 58, 422313753, 591239254); Step(c, d, 59, 591239254, 827734956);
  }

  lemma Growth(c: seq<nat>, d: seq<nat>)
    requires Squeezed(c, d) && d[0] <= 1 <= c[0]
    ensures c[61] >= MAX_ITERATIONS
    ensures d[60] < MAX_ITERATIONS
  {
    FirstSteps(c, d);
    MiddleSteps(c, d);
    LastSteps(c, d);
    Step(c, d, 60, 827734956, MAX_ITERATIONS);
  }

  /** The iteration counts of the first 62 tries. */
  ghost function Counts(m: Bench, r: nat): (c: seq<nat>)
    requires m.Valid()
    ensures |c| == 62 && forall k :: 0 <= k < 62 ==> c[k] == m.Count(r, 1, k)
  {
    seq(62, k requires k >= 0 => m.Count(r, 1, k))
  }

  lemma {:induction false} CountIsPositive(m: Bench, r: nat, k: nat)
    requires m.Valid()
    ensures m.Count(r, 1, k) >= 1
  {
    if k > 0 {
      var i := m.Try(r, 1, k - 1);
      ExpandedInIntegers(Multiplier(m.minTime, i.seconds), i.iters);
    }
  }

  lemma CountGrows(m: Bench, r: nat, k: nat)
    requires m.Valid() && m.minTime >= NANOSECOND && !ShouldReport(m.b, m.minTime, m.Try(r, 1, k))
    ensures m.Count(r, 1, k + 1) >= Slow(m.Count(r, 1, k))
  {
    CountIsPositive(m, r, k);
    NextIsFast(m.b, m.minTime, m.Try(r, 1, k));
  }

  lemma MaximumIsReached(m: Bench, r: nat)
    requires m.Valid() && m.minTime >= NANOSECOND && m.Rejected(r, 1, 61)
    ensures ShouldReport(m.b, m.minTime, m.Try(r, 1, 61))
  {
    var c, d := Counts(m, r), seq(62, _ => 0);
    forall k: nat | k < 61
      ensures SqueezedAt(c, d, k)
    {
      CountGrows(m, r, k);
    }
    Growth(c, d);
  }

  /** Whatever the machine does, there are at most 61 re-estimates. */
  lemma AtMost61(m: Bench, r: nat, k: nat)
    requires m.Valid() && m.minTime >= NANOSECOND && m.Rejected(r, 1, k)
    ensures k <= 61
  {
    if k >= 62 {
      MaximumIsReached(m, r);
    }
  }

  /** A machine on which every run takes all but a hundred-billionth of the least time. */
  function JustTooFast(minTime: real): (nat, nat) -> Totals {
    (k: nat, n: nat) => Totals(n, 0.0, minTime * 0.99999999999, 0.0, false)
  }

  lemma SlowMultiplier(minTime: real)
    requires minTime >= NANOSECOND
    ensures 1.4 <= Multiplier(minTime, minTime * 0.99999999999) <= 1.4 * 1.00000000002
  {
    var s := minTime * 0.99999999999;
    var d := MaxReal(s, NANOSECOND);
    MultiplierBounds(minTime, s);
    QuotientBounds(s, minTime, 0.1);
    QuotientBounds(minTime * 1.4, d, 1.4 * 1.00000000002);
  }

  lemma SlowRound(m: real, n: nat)
    requires 1.4 <= m <= 1.4 * 1.00000000002 && 1 <= n < MAX_ITERATIONS
    ensures Expanded(m, n) == Slow(n)
  {
    SlowRounding(m, n);
    ExpandedInIntegers(m, n);
  }

  lemma SlowRounding(m: real, n: nat)
    requires 1.4 <= m <= 1.4 * 1.00000000002 && 1 <= n < MAX_ITERATIONS
    ensures Round(m * n as real) == (14 * n + 5) / 10
  {
    var x := n as real;
    ScaledAbove(m, 1.4, x, 1.4 * x);
    ScaledBelow(m, 1.400000000028, x, 1.400000000028 * x);
    RoundTenthsExact(n, m * x);
  }

  lemma SlowTry(m: Bench, k: nat)
    requires m.b.threads == 1 && !m.b.useManualTime && !m.b.useRealTime && m.minTime >= NANOSECOND
    requires m.machine == JustTooFast(m.minTime)
    ensures m.Count(0, 1, k + 1) <= Slow(m.Count(0, 1, k))
    ensures m.Count(0, 1, k) < MAX_ITERATIONS ==> !ShouldReport(m.b, m.minTime, m.Try(0, 1, k))
    ensures m.Count(0, 1, k) >= MAX_ITERATIONS ==> m.Count(0, 1, k + 1) >= MAX_ITERATIONS
  {
    var i := m.Try(0, 1, k);
    var f := Multiplier(m.minTime, i.seconds);
    assert i.seconds == m.minTime * 0.99999999999 && i.totals.realTime == 0.0;
    CountIsPositive(m, 0, k);
    SlowMultiplier(m.minTime);
    if i.iters < MAX_ITERATIONS {
      SlowRound(f, i.iters);
    }
    ExpandedInIntegers(f, i.iters);
  }

  lemma {:induction false} MaximumStays(m: Bench, j: nat, k: nat)
    requires m.b.threads == 1 && !m.b.useManualTime && !m.b.useRealTime && m.minTime >= NANOSECOND
    requires m.machine == JustTooFast(m.minTime)
    requires j <= k && m.Count(0, 1, j) >= MAX_ITERATIONS
    ensures m.Count(0, 1, k) >= MAX_ITERATIONS
    decreases k
  {
    if j < k {
      MaximumStays(m, j, k - 1);
      SlowTry(m, k - 1);
    }
  }

  /** The bound is exact for every least time of at least a nanosecond: on one machine it takes
      61 re-estimates. */
  lemma SixtyOneIsExact(b: Settings, minTime: real)
    requires b.threads == 1 && !b.useManualTime && !b.useRealTime && minTime >= NANOSECOND
    ensures var m := Bench(b, minTime, JustTooFast(minTime));
            m.Rejected(0, 1, 61) && ShouldReport(b, minTime, m.Try(0, 1, 61))
  {
    var m := Bench(b, minTime, JustTooFast(minTime));
    var c, d := seq(62, _ => MAX_ITERATIONS), Counts(m, 0);
    forall k: nat | k < 61
      ensures SqueezedAt(c, d, k)
    {
      SlowTry(m, k);
    }
    Growth(c, d);
    forall k | 0 <= k < 61
      ensures !ShouldReport(b, minTime, m.Try(0, 1, k))
    {
      if m.Count(0, 1, k) >= MAX_ITERATIONS {
        MaximumStays(m, k, 60);
      }
      SlowTry(m, k);
    }
    MaximumIsReached(m, 0);
  }

  // ---- The runner ----

  /** The distance from 1 to the next double. */
  const EPSILON: real := 1.0 / 4_503_599_627_370_496.0

  predicate IsZero(x: real) {
    -EPSILON < x < EPSILON
  }

  /** The least time of the benchmark, or else that of the command line. */
  function LeastTime(b: Settings, flag: real): real {
    if !IsZero(b.minTime) then b.minTime else flag
  }

  class BenchmarkRunner {
    ghost const bench: Bench
    const b: Settings
    const minTime: real
    const repeats: nat
    const hasExplicitIterationCount: bool
    const machine: (nat, nat) -> Totals
    const hasMemoryManager: bool
    var iters: nat
    var reports: seq<Report>
    /** How often `DoNIterations` has run. */
    var runs: nat

    ghost predicate Valid()
      reads this
    {
      && bench == Bench(b, minTime, machine) && bench.Valid()
      && hasExplicitIterationCount == (b.iterations != 0)
      && iters >= 1
    }

    constructor (settings: Settings, minTimeFlag: real, repetitionsFlag: nat, machine: (nat, nat) -> Totals,
                 hasMemoryManager: bool)
      requires settings.threads > 0
      requires LeastTime(settings, minTimeFlag) > 0.0
      ensures Valid() && b == settings && this.machine == machine && runs == 0 && reports == []
      ensures this.hasMemoryManager == hasMemoryManager
      ensures minTime == LeastTime(settings, minTimeFlag)
      ensures settings.minTime == 0.0 ==> minTime == minTimeFlag
      ensures settings.minTime >= 0.000_000_001 ==> minTime == settings.minTime
      ensures repeats == (if settings.repetitions != 0 then settings.repetitions else repetitionsFlag)
      ensures iters == (if settings.iterations != 0 then settings.iterations else 1)
    {
      b := settings;
      minTime := LeastTime(settings, minTimeFlag);
      repeats := if settings.repetitions != 0 then settings.repetitions else repetitionsFlag;
      hasExplicitIterationCount := settings.iterations != 0;
      iters := if settings.iterations != 0 then settings.iterations else 1;
      this.machine, this.hasMemoryManager := machine, hasMemoryManager;
      runs, reports := 0, [];
      bench := Bench(settings, LeastTime(settings, minTimeFlag), machine);
    }

    method DoNIterations() returns (i: IterationResults)
      requires Valid()
      modifies this`runs
      ensures Valid() && runs == old(runs) + 1
      ensures i == bench.Result(old(runs), iters)
    {
      i := Measure(b, machine(runs, iters), iters);
      runs := runs + 1;
    }

    /** One pass of the loop: a new estimate, and a run with it. */
    method Reestimate(i: IterationResults) returns (next: IterationResults)
      requires Valid() && i.iters == iters && !ShouldReport(b, minTime, i)
      modifies this`iters, this`runs
      ensures Valid() && runs == old(runs) + 1
      ensures iters == PredictNumItersNeeded(minTime, i)
      ensures i.iters < iters <= MAX_ITERATIONS
      ensures next == bench.Result(old(runs), iters)
    {
      NextIsLarger(b, minTime, i);
      iters := PredictNumItersNeeded(minTime, i);
      assert iters > i.iters;
      next := DoNIterations();
    }

    /** How many iterations the run that measures memory makes; its results are dropped. */
    function MemoryIterations(n: nat): nat {
      if hasMemoryManager then Min(16, n) else 0
    }

    /** The first repetition tries until a result is to be reported, and reports the first such
        result; the others, and those with an explicit count, run once. */
    method DoOneRepetition(index: nat) returns (ghost n: nat)
      requires Valid()
      modifies this
      ensures Valid()
      ensures index > 0 || hasExplicitIterationCount ==> n == 0
      ensures index == 0 && !hasExplicitIterationCount ==>
        bench.Rejected(old(runs), old(iters), n) &&
        ShouldReport(b, minTime, bench.Try(old(runs), old(iters), n))
      ensures forall j :: 0 <= j < n ==>
        var i := bench.Try(old(runs), old(iters), j);
        && !machine(old(runs) + j, i.iters).hasError && i.iters < 1_000_000_000 && i.seconds < minTime
        && (i.totals.realTime < 5.0 * minTime || b.useManualTime)
      ensures index == 0 && !hasExplicitIterationCount ==>
        var i := bench.Try(old(runs), old(iters), n);
        || machine(old(runs) + n, i.iters).hasError || i.iters >= 1_000_000_000 || i.seconds >= minTime
        || (i.totals.realTime >= 5.0 * minTime && !b.useManualTime)
      ensures machine(old(runs), old(iters)).hasError ==> n == 0
      ensures iters == bench.Count(old(runs), old(iters), n) && runs == old(runs) + n + 1
      ensures reports ==
        old(reports) + [Report(index, bench.Try(old(runs), old(iters), n), MemoryIterations(iters))]
      ensures reports[|old(reports)|].memoryIterations ==
        if !hasMemoryManager then 0 else if iters < 16 then iters else 16
    {
      n := 0;
      ghost var r, start := runs, iters;
      var i := DoNIterations();
      var significant := index > 0 || hasExplicitIterationCount || ShouldReport(b, minTime, i);
      while !significant
        invariant Valid() && runs == r + n + 1
        invariant iters == bench.Count(r, start, n) && i == bench.Try(r, start, n)
        invariant significant == (index > 0 || hasExplicitIterationCount || ShouldReport(b, minTime, i))
        invariant index > 0 || hasExplicitIterationCount ==> n == 0
        invariant bench.Rejected(r, start, n)
        invariant reports == old(reports)
        decreases MAX_ITERATIONS - iters, !significant
      {
        bench.OneMoreTry(r, start, n);
        i := Reestimate(i);
        n := n + 1;
        significant := index > 0 || hasExplicitIterationCount || ShouldReport(b, minTime, i);
      }
      var memoryIterations: nat := 0;
      if hasMemoryManager {
        memoryIterations := Min(16, iters);
      }
      reports := reports + [Report(index, i, memoryIterations)];
    }

    /** All repetitions. Every report has the iteration count that the first repetition found,
        and the first repetition re-estimates at most 61 times. */
    method RunAll() returns (ghost n: nat)
      requires Valid() && runs == 0 && reports == []
      requires iters == if b.iterations != 0 then b.iterations else 1
      modifies this
      ensures |reports| == repeats
      ensures forall k :: 0 <= k < repeats ==>
        reports[k] == Report(k, bench.Result(n + k, iters), MemoryIterations(iters))
      ensures iters == bench.Count(0, old(iters), n) && iters >= 1
      ensures repeats > 0 && b.iterations == 0 ==>
        bench.Rejected(0, 1, n) && ShouldReport(b, minTime, reports[0].result)
      ensures b.iterations != 0 ==> n == 0
      ensures minTime >= NANOSECOND ==> n <= 61
    {
      n := 0;
      ghost var start := iters;
      var num := 0;
      while num < repeats
        invariant 0 <= num <= repeats && |reports| == num && Valid()
        invariant runs == if num == 0 then 0 else n + num
        invariant iters == bench.Count(0, start, n)
        invariant forall k :: 0 <= k < num ==>
          reports[k] == Report(k, bench.Result(n + k, iters), MemoryIterations(iters))
        invariant num == 0 ==> n == 0
        invariant num > 0 && b.iterations == 0 ==>
          bench.Rejected(0, 1, n) && ShouldReport(b, minTime, reports[0].result)
        invariant b.iterations != 0 ==> n == 0
      {
        ghost var tries := DoOneRepetition(num);
        if num == 0 {
          n := tries;
        }
        num := num + 1;
      }
      if minTime >= NANOSECOND && b.iterations == 0 && repeats > 0 {
        AtMost61(bench, 0, n);
      }
    }
  }
}

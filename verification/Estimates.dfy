/** How exactly the estimate of the iteration count meets its aim. */
module Estimates {
  import opened Basics
  import opened Iterations

  lemma RoundIsNear(x: real)
    ensures x - 0.5 <= Round(x) as real <= x + 0.5
  {
  }

  /** The nearest integer, and the next one up half-way between two. */
  lemma HalvesGoUp(n: nat, x: real)
    ensures 0.0 <= x < 0.5 ==> Round(n as real + x) == n
    ensures 0.5 <= x < 1.0 ==> Round(n as real + x) == n + 1
  {
  }

  lemma NotNegative(x: real, u: real)
    requires x >= 0.0 && u > 0.0
    ensures x * u >= 0.0
  {
  }

  lemma ScaleNear(u: real, a: real, b: real, v: real)
    requires u > 0.0 && b - 0.5 <= a <= b + 0.5 && v == u * b
    ensures v - 0.5 * u <= u * a <= v + 0.5 * u
  {
    var w, h := u * a, 0.5 * u;
    NotNegative(a - b + 0.5, u);
    NotNegative(b - a + 0.5, u);
    assert (a - b + 0.5) * u == w - v + h;
    assert (b - a + 0.5) * u == v - w + h;
  }

  lemma Swap(u: real, m: real, x: real)
    ensures u * (m * x) == m * (u * x)
  {
  }

  lemma ExpandedNear(m: real, n: nat, u: real, v: real)
    requires u > 0.0 && m * (u * n as real) == v
    requires Expanded(m, n) != MAX_ITERATIONS && Expanded(m, n) != n + 1
    ensures v - 0.5 * u <= u * Expanded(m, n) as real <= v + 0.5 * u
  {
    var x := n as real;
    ExpandedInIntegers(m, n);
    RoundIsNear(m * x);
    Swap(u, m, x);
    ScaleNear(u, Expanded(m, n) as real, m * x, v);
  }

  lemma TenfoldMultiplier(minTime: real, seconds: real)
    requires minTime > 0.0 && NANOSECOND <= seconds <= 0.1 * minTime
    ensures Multiplier(minTime, seconds) == 10.0
  {
    QuotientBounds(seconds, minTime, 0.1);
    QuotientBounds(minTime * 1.4, seconds, 10.0);
  }

  /** What the next run is meant to last, if every iteration takes u: 1.4 times the least time, but
      ten times the last run if that was no more than a tenth of the least time. It is met up to half
      an iteration, unless the maximum or a single iteration more decides. */
  lemma EstimateIsExact(b: Settings, minTime: real, i: IterationResults, u: real)
    requires minTime > 0.0 && i.iters >= 1 && !ShouldReport(b, minTime, i)
    requires i.seconds >= NANOSECOND && i.seconds == u * i.iters as real
    ensures var next := PredictNumItersNeeded(minTime, i);
            var aim := if i.seconds > 0.1 * minTime then 1.4 * minTime else 10.0 * i.seconds;
            next == 1_000_000_000 || next == i.iters + 1 ||
            aim - 0.5 * u <= u * next as real <= aim + 0.5 * u
  {
    var m := Multiplier(minTime, i.seconds);
    PositiveFactor(u, i.iters as real);
    if i.seconds > 0.1 * minTime {
      QuotientBounds(i.seconds, minTime, 0.1);
      DirectMultiplier(minTime, i.seconds);
    } else {
      TenfoldMultiplier(minTime, i.seconds);
    }
    if Expanded(m, i.iters) != MAX_ITERATIONS && Expanded(m, i.iters) != i.iters + 1 {
      ExpandedNear(m, i.iters, u, m * i.seconds);
    }
  }
}

/** The curves of `FittingCurve` by their values, what the error of a fit is, and which times give which
    coefficients. */
module FittedCurves {
  import opened LeastSquares

  lemma CurvesAre(m: Maths, n: int)
    ensures Curve(m, O1)(n) == 1.0 && Curve(m, ON)(n) == n as real
    ensures Curve(m, ONSquared)(n) == (n * n) as real && Curve(m, ONCubed)(n) == (n * n * n) as real
    ensures Curve(m, OLogN)(n) == 1.44269504088896340736 * m.log(n)
  {
    var x := n as real;
    assert (n * n) as real == x * x;
    assert (n * n * n) as real == (n * n) as real * x;
  }

  function TwoTo(k: nat): int {
    if k == 0 then 1 else 2 * TwoTo(k - 1)
  }

  /** The law of the natural logarithm, whose value at 2 is the inverse of 1.4426950408889634. */
  ghost predicate IsLog(log: int -> real) {
    log(1) == 0.0 && forall n: int :: n > 0 ==> 1.44269504088896340736 * (log(2 * n) - log(n)) == 1.0
  }

  /** The logarithmic curve counts in powers of two. */
  lemma {:induction false} LogarithmsAre(m: Maths, k: nat)
    requires IsLog(m.log)
    ensures TwoTo(k) > 0
    ensures Curve(m, OLogN)(TwoTo(k)) == k as real
    ensures Curve(m, ONLogN)(TwoTo(k)) == TwoTo(k) as real * k as real
  {
    CurveShapes(m, TwoTo(k));
    if k > 0 {
      LogarithmsAre(m, k - 1);
      CurveShapes(m, TwoTo(k - 1));
      var n := TwoTo(k - 1);
      assert 1.44269504088896340736 * (m.log(2 * n) - m.log(n)) == 1.0;
    }
  }

  /** The automatic choice is among all six curves. */
  lemma CandidatesAre(o: BigO)
    ensures o in CANDIDATES <==> o != OAuto && o != OLambda
  {
    assert CANDIDATES == [O1] + [OLogN] + [ON] + [ONLogN] + [ONSquared] + [ONCubed];
    assert CANDIDATES[0] == O1 && CANDIDATES[1] == OLogN && CANDIDATES[2] == ON;
    assert CANDIDATES[3] == ONLogN && CANDIDATES[4] == ONSquared && CANDIDATES[5] == ONCubed;
  }

  /** Comparing numbers that need not be finite. */
  lemma NumbersCompare(x: real, y: real, a: Num)
    ensures Less(Fin(x), Fin(y)) <==> x < y
    ensures Less(NegInfinity, Fin(x)) && Less(Fin(x), Infinity) && Less(NegInfinity, Infinity)
    ensures !Less(a, a) && !Less(a, NegInfinity) && !Less(Infinity, a) && !Less(NaN, a) && !Less(a, NaN)
  {
    match a {
      case Fin(_) =>
      case Infinity =>
      case NegInfinity =>
      case NaN =>
    }
  }

  lemma Rooted(m: Maths, x: real, r: real)
    requires m.Valid() && x >= 0.0 && r == m.sqrt(x)
    ensures r >= 0.0 && r * r == x && (r > 0.0 <==> x > 0.0)
  {
    Squares(r, x);
  }

  lemma QuotientBy(x: real, y: real)
    requires y != 0.0
    ensures (x / y) * y == x
  {
  }

  /** The error times the mean time is the root mean square of what is missed: its square is the
      residual over the number of runs. With a mean of zero it is infinite, or no number if nothing is
      missed. */
  predicate IsError(rms: Num, residual: real, mean: real, count: nat) {
    if mean == 0.0 then rms == if residual > 0.0 then Infinity else NaN
    else rms.Fin? && rms.r * mean >= 0.0 && Sqr(rms.r * mean) * count as real == residual
  }

  lemma ErrorIs(m: Maths, n: seq<int>, time: seq<real>, f: int -> real, o: BigO, mean: real)
    requires m.Valid() && |n| == |time| > 0 && mean * |n| as real == Sum(time, |n|)
    ensures var fit := Fit(m, n, time, f, o);
      fit.complexity == o &&
      (fit.coef.Fin? ==> IsError(fit.rms, Residual(time, Values(f, n), fit.coef.r, |n|), mean, |n|))
  {
    var fit := Fit(m, n, time, f, o);
    if fit.coef.Fin? {
      var residual := Residual(time, Values(f, n), fit.coef.r, |n|);
      ResidualNotNegative(time, Values(f, n), fit.coef.r, |n|);
      ErrorOf(m, residual, Sum(time, |n|), |n|, mean);
    }
  }

  lemma MeanIs(total: real, count: real, mean: real)
    requires count > 0.0 && mean * count == total
    ensures total / count == mean
  {
    QuotientBy(total, count);
    var q := total / count;
    assert (q - mean) * count == 0.0;
  }

  lemma ShareIsPositive(x: real, count: real)
    requires x >= 0.0 && count > 0.0
    ensures x / count >= 0.0 && (x / count > 0.0 <==> x > 0.0)
  {
  }

  lemma ErrorOf(m: Maths, residual: real, total: real, count: nat, mean: real)
    requires m.Valid() && residual >= 0.0 && count > 0 && mean * count as real == total
    ensures IsError(Normalized(m, residual, total, count), residual, mean, count)
  {
    var c, x := count as real, residual / count as real;
    MeanIs(total, c, mean);
    ShareIsPositive(residual, c);
    QuotientBy(residual, c);
    Rooted(m, x, m.sqrt(x));
    if mean != 0.0 {
      QuotientBy(m.sqrt(x), mean);
    }
  }

  /** Runs whose CPU time and real time per iteration are multiples of a curve. */
  ghost predicate Follow(m: Maths, runs: seq<SizedRun>, o: BigO, c: real, d: real) {
    forall i :: 0 <= i < |runs| ==>
      && runs[i].cpuTime == runs[i].iterations as real * (c * Curve(m, o)(runs[i].complexityN))
      && runs[i].realTime == runs[i].iterations as real * (d * Curve(m, o)(runs[i].complexityN))
  }

  lemma TimesPer(n: real, x: real, t: real)
    requires n != 0.0 && t == n * x
    ensures t / n == x
  {
    QuotientBy(t, n);
    assert (t / n - x) * n == 0.0;
  }

  lemma TimesFollow(m: Maths, runs: seq<SizedRun>, o: BigO, c: real, d: real, i: nat)
    requires Checked(runs) && Follow(m, runs, o, c, d) && i < |runs|
    ensures runs[i].cpuTime / runs[i].iterations as real == c * Curve(m, o)(runs[i].complexityN)
    ensures runs[i].realTime / runs[i].iterations as real == d * Curve(m, o)(runs[i].complexityN)
  {
    TimesPer(runs[i].iterations as real, c * Curve(m, o)(runs[i].complexityN), runs[i].cpuTime);
    TimesPer(runs[i].iterations as real, d * Curve(m, o)(runs[i].complexityN), runs[i].realTime);
  }

  lemma MultiplesAre(m: Maths, runs: seq<SizedRun>, o: BigO, c: real, d: real)
    requires Checked(runs) && Follow(m, runs, o, c, d)
    ensures CpuPerIteration(runs) == Multiple(c, Values(Curve(m, o), Sizes(runs)))
    ensures RealPerIteration(runs) == Multiple(d, Values(Curve(m, o), Sizes(runs)))
  {
    forall i | 0 <= i < |runs|
      ensures CpuPerIteration(runs)[i] == Multiple(c, Values(Curve(m, o), Sizes(runs)))[i]
      ensures RealPerIteration(runs)[i] == Multiple(d, Values(Curve(m, o), Sizes(runs)))[i]
    {
      TimesFollow(m, runs, o, c, d, i);
    }
  }

  /** From such runs the fits of `ComputeBigO` find both multiples. */
  lemma BothCoefficients(m: Maths, runs: seq<SizedRun>, o: BigO, c: real, d: real)
    requires runs != [] && Checked(runs) && Follow(m, runs, o, c, d)
    requires Sum(CpuPerIteration(runs), |runs|) > 0.0 && Sum(RealPerIteration(runs), |runs|) > 0.0
    ensures FitOf(m, Sizes(runs), CpuPerIteration(runs), o).coef == Fin(c)
    ensures FitOf(m, Sizes(runs), RealPerIteration(runs), o).coef == Fin(d)
  {
    MultiplesAre(m, runs, o, c, d);
    ExactCoef(m, Sizes(runs), o, c);
    ExactCoef(m, Sizes(runs), o, d);
  }
}

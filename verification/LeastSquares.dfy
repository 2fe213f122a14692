/** Both `MinimalLeastSq` overloads over real arithmetic, with the special values that a division
    by zero yields. */
module LeastSquares {

  datatype Num = Fin(r: real) | Infinity | NegInfinity | NaN

  /** Floating-point division of two finite numbers. */
  function Divide(x: real, y: real): Num {
    if y != 0.0 then Fin(x / y)
    else if x > 0.0 then Infinity
    else if x < 0.0 then NegInfinity
    else NaN
  }

  /** Floating-point `<`: false when either side is not a number. */
  predicate Less(a: Num, b: Num) {
    match (a, b)
    case (Fin(x), Fin(y)) => x < y
    case (Fin(_), Infinity) => true
    case (NegInfinity, Fin(_)) => true
    case (NegInfinity, Infinity) => true
    case _ => false
  }

  datatype BigO = O1 | ON | ONSquared | ONCubed | OLogN | ONLogN | OAuto | OLambda

  datatype LeastSq = LeastSq(coef: Num, rms: Num, complexity: BigO)

  /** `std::sqrt` and `std::log`. */
  datatype Maths = Maths(sqrt: real -> real, log: int -> real) {
    ghost predicate Valid() {
      forall x :: x >= 0.0 ==> sqrt(x) >= 0.0 && sqrt(x) * sqrt(x) == x
    }
  }

  const LOG2E: real := 1.44269504088896340736

  /** `FittingCurve`. */
  function Curve(m: Maths, o: BigO): int -> real {
    match o
    case ON => (n: int) => n as real
    case ONSquared => (n: int) => n as real * n as real
    case ONCubed => (n: int) => n as real * n as real * n as real
    case OLogN => (n: int) => LOG2E * m.log(n)
    case ONLogN => (n: int) => LOG2E * n as real * m.log(n)
    case _ => (n: int) => 1.0
  }

  /** What doubling the size does to each curve, given the law of the logarithm. */
  lemma CurveShapes(m: Maths, n: int)
    ensures Curve(m, O1)(2 * n) == Curve(m, O1)(n) == 1.0
    ensures Curve(m, ON)(2 * n) == 2.0 * Curve(m, ON)(n)
    ensures Curve(m, ONSquared)(2 * n) == 4.0 * Curve(m, ONSquared)(n)
    ensures Curve(m, ONCubed)(2 * n) == 8.0 * Curve(m, ONCubed)(n)
    ensures LOG2E * (m.log(2 * n) - m.log(n)) == 1.0 ==> Curve(m, OLogN)(2 * n) == Curve(m, OLogN)(n) + 1.0
    ensures Curve(m, ONLogN)(n) == Curve(m, ON)(n) * Curve(m, OLogN)(n)
  {
    var x, y := n as real, (2 * n) as real;
    assert y == 2.0 * x;
    assert y * y == 4.0 * (x * x) && y * y * y == 8.0 * (x * x * x);
    assert LOG2E * x * m.log(n) == x * (LOG2E * m.log(n));
  }

  // ---- Sums over the first k runs ----

  function Values(f: int -> real, n: seq<int>): (g: seq<real>)
    ensures |g| == |n| && forall i :: 0 <= i < |n| ==> g[i] == f(n[i])
  {
    seq(|n|, i requires 0 <= i < |n| => f(n[i]))
  }

  function Sum(a: seq<real>, k: nat): real
    requires k <= |a|
  {
    if k == 0 then 0.0 else Sum(a, k - 1) + a[k - 1]
  }

  function Dot(a: seq<real>, b: seq<real>, k: nat): real
    requires k <= |a| == |b|
  {
    if k == 0 then 0.0 else Dot(a, b, k - 1) + a[k - 1] * b[k - 1]
  }

  function Sqr(x: real): real {
    x * x
  }

  /** How far the curve c * g is from the times. */
  function Residual(time: seq<real>, g: seq<real>, c: real, k: nat): real
    requires k <= |time| == |g|
  {
    if k == 0 then 0.0 else Residual(time, g, c, k - 1) + Sqr(time[k - 1] - c * g[k - 1])
  }

  // ---- What is computed ----

  function Normalized(m: Maths, residual: real, total: real, count: nat): Num
    requires count > 0
  {
    Divide(m.sqrt(residual / count as real), total / count as real)
  }

  function Fit(m: Maths, n: seq<int>, time: seq<real>, f: int -> real, o: BigO): LeastSq
    requires |n| == |time| > 0
  {
    var g := Values(f, n);
    var coef := Divide(Dot(time, g, |n|), Dot(g, g, |n|));
    var rms := if coef.Fin? then Normalized(m, Residual(time, g, coef.r, |n|), Sum(time, |n|), |n|) else NaN;
    LeastSq(coef, rms, o)
  }

  method MinimalLeastSq(m: Maths, n: seq<int>, time: seq<real>, f: int -> real) returns (result: LeastSq)
    requires |n| == |time| > 0
    ensures result == Fit(m, n, time, f, OLambda)
  {
    ghost var g := Values(f, n);
    var sigmaGn, sigmaGnSquared, sigmaTime, sigmaTimeGn := 0.0, 0.0, 0.0, 0.0;
    var i := 0;
    while i < |n|
      invariant 0 <= i <= |n|
      invariant sigmaGnSquared == Dot(g, g, i) && sigmaTime == Sum(time, i) && sigmaTimeGn == Dot(time, g, i)
    {
      var gn := f(n[i]);
      sigmaGn := sigmaGn + gn;
      sigmaGnSquared := sigmaGnSquared + gn * gn;
      sigmaTime := sigmaTime + time[i];
      sigmaTimeGn := sigmaTimeGn + time[i] * gn;
      i := i + 1;
    }
    var coef := Divide(sigmaTimeGn, sigmaGnSquared);
    if !coef.Fin? {
      return LeastSq(coef, NaN, OLambda);
    }
    var rms := SumOfSquares(n, time, f, coef.r);
    var mean := sigmaTime / |n| as real;
    result := LeastSq(coef, Divide(m.sqrt(rms / |n| as real), mean), OLambda);
  }

  /** The second loop of `MinimalLeastSq`. */
  method SumOfSquares(n: seq<int>, time: seq<real>, f: int -> real, coef: real) returns (rms: real)
    requires |n| == |time|
    ensures rms == Residual(time, Values(f, n), coef, |n|)
  {
    rms := 0.0;
    var i := 0;
    while i < |n|
      invariant 0 <= i <= |n|
      invariant rms == Residual(time, Values(f, n), coef, i)
    {
      var fit := coef * f(n[i]);
      rms := rms + Sqr(time[i] - fit);
      i := i + 1;
    }
  }

  /** The candidates of `oAuto`, the default first. */
  const CANDIDATES: seq<BigO> := [O1, OLogN, ON, ONLogN, ONSquared, ONCubed]

  function FitOf(m: Maths, n: seq<int>, time: seq<real>, o: BigO): LeastSq
    requires |n| == |time| > 0
  {
    Fit(m, n, time, Curve(m, o), o)
  }

  /** No candidate among the first k beats candidate b, and b beats every earlier one that has
      an error at all. */
  ghost predicate FirstBest(m: Maths, n: seq<int>, time: seq<real>, b: nat, k: nat)
    requires |n| == |time| > 0 && b < k <= |CANDIDATES|
  {
    && (forall j :: 0 <= j < k ==> !Less(FitOf(m, n, time, CANDIDATES[j]).rms, FitOf(m, n, time, CANDIDATES[b]).rms))
    && (b > 0 ==> Less(FitOf(m, n, time, CANDIDATES[b]).rms, FitOf(m, n, time, O1).rms))
    && (forall j :: 0 <= j < b ==>
      FitOf(m, n, time, CANDIDATES[j]).rms.NaN? ||
      Less(FitOf(m, n, time, CANDIDATES[b]).rms, FitOf(m, n, time, CANDIDATES[j]).rms))
  }

  lemma NextCandidate(m: Maths, n: seq<int>, time: seq<real>, b: nat, k: nat)
    requires |n| == |time| > 0 && b < k < |CANDIDATES| && FirstBest(m, n, time, b, k)
    ensures var better := Less(FitOf(m, n, time, CANDIDATES[k]).rms, FitOf(m, n, time, CANDIDATES[b]).rms);
            FirstBest(m, n, time, if better then k else b, k + 1)
  {
  }

  method MinimalLeastSqOf(m: Maths, n: seq<int>, time: seq<real>, complexity: BigO)
    returns (best: LeastSq, ghost chosen: nat)
    requires |n| == |time| >= 2
    ensures chosen < |CANDIDATES|
    ensures complexity != OAuto ==> best == FitOf(m, n, time, complexity)
    ensures complexity == OAuto ==>
      best == FitOf(m, n, time, CANDIDATES[chosen]) && FirstBest(m, n, time, chosen, |CANDIDATES|)
  {
    chosen := 0;
    if complexity == OAuto {
      var curves := [OLogN, ON, ONLogN, ONSquared, ONCubed];
      best := MinimalLeastSq(m, n, time, Curve(m, O1));
      best := best.(complexity := O1);
      var i := 0;
      while i < |curves|
        invariant 0 <= i <= |curves| && chosen <= i
        invariant best == FitOf(m, n, time, CANDIDATES[chosen])
        invariant FirstBest(m, n, time, chosen, i + 1)
      {
        var current := MinimalLeastSq(m, n, time, Curve(m, curves[i]));
        assert curves[i] == CANDIDATES[i + 1];
        NextCandidate(m, n, time, chosen, i + 1);
        if Less(current.rms, best.rms) {
          best := current.(complexity := curves[i]);
          chosen := i + 1;
        }
        i := i + 1;
      }
    } else {
      best := MinimalLeastSq(m, n, time, Curve(m, complexity));
      best := best.(complexity := complexity);
    }
  }

  // ---- Optimality ----

  lemma SquareOfDifference(t: real, c: real, g: real)
    ensures Sqr(t - c * g) == t * t - 2.0 * c * (t * g) + c * c * (g * g)
  {
    var p := c * g;
    SquareOfSum(t, p);
    assert p * p == c * c * (g * g);
    assert t * p == c * (t * g);
  }

  lemma SquareOfSum(t: real, p: real)
    ensures (t - p) * (t - p) == t * t - 2.0 * (t * p) + p * p
  {
  }

  lemma {:induction false} ResidualExpanded(time: seq<real>, g: seq<real>, c: real, k: nat)
    requires k <= |time| == |g|
    ensures Residual(time, g, c, k) == Dot(time, time, k) - 2.0 * c * Dot(time, g, k) + c * c * Dot(g, g, k)
  {
    if k > 0 {
      ResidualExpanded(time, g, c, k - 1);
      SquareOfDifference(time[k - 1], c, g[k - 1]);
      Spread(2.0 * c, Dot(time, g, k - 1), time[k - 1] * g[k - 1]);
      Spread(c * c, Dot(g, g, k - 1), g[k - 1] * g[k - 1]);
    }
  }

  lemma Spread(a: real, x: real, y: real)
    ensures a * (x + y) == a * x + a * y
  {
  }

  lemma Squares(x: real, s: real)
    requires s == x * x
    ensures s >= 0.0 && (s == 0.0 <==> x == 0.0)
  {
    if x != 0.0 {
      Products(x, x, s);
    }
  }

  lemma Products(x: real, y: real, p: real)
    requires p == x * y && ((x > 0.0 && y > 0.0) || (x < 0.0 && y < 0.0))
    ensures p > 0.0
  {
  }

  lemma {:induction false} SquaresNotNegative(g: seq<real>, k: nat)
    requires k <= |g|
    ensures Dot(g, g, k) >= 0.0
    ensures Dot(g, g, k) == 0.0 ==> forall i :: 0 <= i < k ==> g[i] == 0.0
  {
    if k > 0 {
      SquaresNotNegative(g, k - 1);
      Squares(g[k - 1], g[k - 1] * g[k - 1]);
    }
  }

  lemma ParabolaAboveVertex(s: real, p: real, q: real, x: real, c: real)
    requires c * q == p
    ensures s - 2.0 * x * p + x * x * q == s - 2.0 * c * p + c * c * q + (x - c) * (x - c) * q
  {
    assert (x - c) * (x - c) * q == x * x * q - 2.0 * x * (c * q) + c * (c * q);
    assert c * c * q == c * (c * q);
  }

  /** When the curve is not zero everywhere, the coefficient is finite and gives the least sum of
      squares of all real coefficients, and it is the only one that does. */
  lemma CoefIsOptimal(m: Maths, n: seq<int>, time: seq<real>, f: int -> real, o: BigO, x: real)
    requires |n| == |time| > 0 && Dot(Values(f, n), Values(f, n), |n|) > 0.0
    ensures Fit(m, n, time, f, o).coef.Fin?
    ensures var g, c := Values(f, n), Fit(m, n, time, f, o).coef.r;
            && Residual(time, g, c, |n|) <= Residual(time, g, x, |n|)
            && (Residual(time, g, c, |n|) == Residual(time, g, x, |n|) ==> x == c)
  {
    var g := Values(f, n);
    var p, q := Dot(time, g, |n|), Dot(g, g, |n|);
    var c := p / q;
    assert c * q == p;
    ResidualExpanded(time, g, c, |n|);
    ResidualExpanded(time, g, x, |n|);
    ParabolaAboveVertex(Dot(time, time, |n|), p, q, x, c);
    SquareTimes(x - c, q);
  }

  lemma SquareTimes(d: real, q: real)
    requires q > 0.0
    ensures d * d * q >= 0.0 && (d * d * q == 0.0 ==> d == 0.0)
  {
    var s := d * d;
    Squares(d, s);
    if d != 0.0 {
      Products(s, q, s * q);
    }
  }

  /** A curve that is zero everywhere gives no number, and every coefficient fits it alike. */
  lemma ZeroCurve(m: Maths, n: seq<int>, time: seq<real>, f: int -> real, o: BigO, x: real)
    requires |n| == |time| > 0 && Dot(Values(f, n), Values(f, n), |n|) == 0.0
    ensures Fit(m, n, time, f, o) == LeastSq(NaN, NaN, o)
    ensures Residual(time, Values(f, n), x, |n|) == Dot(time, time, |n|)
  {
    var g := Values(f, n);
    SquaresNotNegative(g, |n|);
    DotZero(time, g, |n|);
    ResidualExpanded(time, g, x, |n|);
  }

  lemma {:induction false} DotZero(a: seq<real>, g: seq<real>, k: nat)
    requires k <= |a| == |g| && forall i :: 0 <= i < k ==> g[i] == 0.0
    ensures Dot(a, g, k) == 0.0
  {
    if k > 0 {
      DotZero(a, g, k - 1);
    }
  }

  lemma {:induction false} ResidualNotNegative(time: seq<real>, g: seq<real>, c: real, k: nat)
    requires k <= |time| == |g|
    ensures Residual(time, g, c, k) >= 0.0
  {
    if k > 0 {
      ResidualNotNegative(time, g, c, k - 1);
      var d := time[k - 1] - c * g[k - 1];
      Squares(d, d * d);
    }
  }

  // ---- The automatic choice ----

  /** The constant curve always has a finite coefficient. */
  lemma {:induction false} OnesSum(m: Maths, n: seq<int>, k: nat)
    requires k <= |n|
    ensures Dot(Values(Curve(m, O1), n), Values(Curve(m, O1), n), k) == k as real
  {
    if k > 0 {
      OnesSum(m, n, k - 1);
    }
  }

  lemma SqrtOrder(m: Maths, x: real, y: real)
    requires m.Valid() && x >= 0.0 && y >= 0.0
    ensures m.sqrt(x) < m.sqrt(y) <==> x < y
  {
    var a, b := m.sqrt(x), m.sqrt(y);
    SquareOrder(a, b);
    SquareOrder(b, a);
  }

  lemma SquareOrder(a: real, b: real)
    requires a >= 0.0 && b >= 0.0
    ensures a < b ==> a * a < b * b
    ensures a <= b ==> a * a <= b * b
  {
    if a < b {
      SquareGrows(a, b - a);
      assert a + (b - a) == b;
    }
  }

  lemma SquareGrows(a: real, d: real)
    requires a >= 0.0 && d > 0.0
    ensures (a + d) * (a + d) > a * a
  {
    Products(d, d, d * d);
    if a > 0.0 {
      Products(a, d, a * d);
    }
    assert (a + d) * (a + d) == a * a + 2.0 * (a * d) + d * d;
  }

  lemma QuotientOrder(x: real, y: real, d: real)
    requires d != 0.0
    ensures d > 0.0 ==> (x / d < y / d <==> x < y)
    ensures d < 0.0 ==> (x / d < y / d <==> x > y)
  {
    var p, q := x / d, y / d;
    assert p * d == x && q * d == y;
    assert (p - q) * d == x - y;
  }

  /** Comparing the normalized errors compares the residuals, in the order that the sign of the
      total time dictates. */
  lemma NormalizedOrder(m: Maths, r: real, s: real, total: real, count: nat)
    requires m.Valid() && r >= 0.0 && s >= 0.0 && count > 0
    ensures total > 0.0 ==> (Less(Normalized(m, r, total, count), Normalized(m, s, total, count)) <==> r < s)
    ensures total < 0.0 ==> (Less(Normalized(m, r, total, count), Normalized(m, s, total, count)) <==> r > s)
    ensures total == 0.0 ==> !Less(Normalized(m, r, total, count), Normalized(m, s, total, count))
  {
    var c := count as real;
    QuotientOrder(r, s, c);
    QuotientOrder(r, 0.0, c);
    QuotientOrder(s, 0.0, c);
    QuotientOrder(total, 0.0, c);
    QuotientOrder(0.0, total, c);
    var x, y := r / c, s / c;
    SqrtOrder(m, x, y);
    SqrtOrder(m, y, x);
    if total != 0.0 {
      QuotientOrder(m.sqrt(x), m.sqrt(y), total / c);
    }
  }

  /** The least residual that candidate o can reach. */
  function LeastResidual(m: Maths, n: seq<int>, time: seq<real>, o: BigO): real
    requires |n| == |time| > 0
  {
    var fit := FitOf(m, n, time, o);
    Residual(time, Values(Curve(m, o), n), if fit.coef.Fin? then fit.coef.r else 0.0, |n|)
  }

  lemma LeastResidualIsLeast(m: Maths, n: seq<int>, time: seq<real>, o: BigO, x: real)
    requires |n| == |time| > 0
    ensures 0.0 <= LeastResidual(m, n, time, o) <= Residual(time, Values(Curve(m, o), n), x, |n|)
    ensures LeastResidual(m, n, time, o) <= Dot(time, time, |n|)
    ensures !FitOf(m, n, time, o).coef.Fin? ==> LeastResidual(m, n, time, o) == Dot(time, time, |n|)
  {
    var f := Curve(m, o);
    var g := Values(f, n);
    SquaresNotNegative(g, |n|);
    var fit := FitOf(m, n, time, o);
    ResidualNotNegative(time, g, if fit.coef.Fin? then fit.coef.r else 0.0, |n|);
    ResidualExpanded(time, g, 0.0, |n|);
    if Dot(g, g, |n|) > 0.0 {
      CoefIsOptimal(m, n, time, f, o, x);
      CoefIsOptimal(m, n, time, f, o, 0.0);
    } else {
      ZeroCurve(m, n, time, f, o, x);
    }
  }

  /** Two fits with finite coefficients, compared. */
  lemma FitOrder(m: Maths, n: seq<int>, time: seq<real>, o: BigO, p: BigO)
    requires m.Valid() && |n| == |time| > 0
    requires FitOf(m, n, time, o).coef.Fin? && FitOf(m, n, time, p).coef.Fin?
    ensures var total := Sum(time, |n|);
            var less := Less(FitOf(m, n, time, o).rms, FitOf(m, n, time, p).rms);
            && (total > 0.0 ==> (less <==> LeastResidual(m, n, time, o) < LeastResidual(m, n, time, p)))
            && (total < 0.0 ==> (less <==> LeastResidual(m, n, time, o) > LeastResidual(m, n, time, p)))
            && (total == 0.0 ==> !less)
  {
    LeastResidualIsLeast(m, n, time, o, 0.0);
    LeastResidualIsLeast(m, n, time, p, 0.0);
    NormalizedOrder(m, LeastResidual(m, n, time, o), LeastResidual(m, n, time, p), Sum(time, |n|), |n|);
  }

  lemma ConstantIsFinite(m: Maths, n: seq<int>, time: seq<real>)
    requires |n| == |time| > 0
    ensures FitOf(m, n, time, O1).coef.Fin?
  {
    OnesSum(m, n, |n|);
  }

  lemma ChosenIsFinite(m: Maths, n: seq<int>, time: seq<real>, b: nat)
    requires |n| == |time| > 0 && b < |CANDIDATES| && FirstBest(m, n, time, b, |CANDIDATES|)
    ensures FitOf(m, n, time, CANDIDATES[b]).coef.Fin?
  {
    ConstantIsFinite(m, n, time);
  }

  /** With a positive mean time no candidate with any coefficient at all is closer to the times
      than the chosen curve, not even one whose own fit is not a number. */
  lemma PositiveMeanPicksBest(m: Maths, n: seq<int>, time: seq<real>, b: nat, j: nat, x: real)
    requires m.Valid() && |n| == |time| > 0 && Sum(time, |n|) > 0.0
    requires b < |CANDIDATES| && FirstBest(m, n, time, b, |CANDIDATES|) && j < |CANDIDATES|
    ensures LeastResidual(m, n, time, CANDIDATES[b]) <= Residual(time, Values(Curve(m, CANDIDATES[j]), n), x, |n|)
  {
    var o, p := CANDIDATES[b], CANDIDATES[j];
    ChosenIsFinite(m, n, time, b);
    LeastResidualIsLeast(m, n, time, o, 0.0);
    LeastResidualIsLeast(m, n, time, p, x);
    if FitOf(m, n, time, p).coef.Fin? {
      FitOrder(m, n, time, p, o);
    }
  }

  /** With a negative mean time the choice goes to the curve that fits worst. */
  lemma NegativeMeanPicksWorst(m: Maths, n: seq<int>, time: seq<real>, b: nat, j: nat)
    requires m.Valid() && |n| == |time| > 0 && Sum(time, |n|) < 0.0
    requires b < |CANDIDATES| && FirstBest(m, n, time, b, |CANDIDATES|) && j < |CANDIDATES|
    requires FitOf(m, n, time, CANDIDATES[j]).coef.Fin?
    ensures LeastResidual(m, n, time, CANDIDATES[b]) >= LeastResidual(m, n, time, CANDIDATES[j])
  {
    ChosenIsFinite(m, n, time, b);
    FitOrder(m, n, time, CANDIDATES[j], CANDIDATES[b]);
  }

  /** With a mean time of zero the default stays. */
  lemma ZeroMeanPicksConstant(m: Maths, n: seq<int>, time: seq<real>, b: nat)
    requires m.Valid() && |n| == |time| > 0 && Sum(time, |n|) == 0.0
    requires b < |CANDIDATES| && FirstBest(m, n, time, b, |CANDIDATES|)
    ensures b == 0
  {
    ChosenIsFinite(m, n, time, b);
    ConstantIsFinite(m, n, time);
    FitOrder(m, n, time, CANDIDATES[b], O1);
  }

  function Multiple(c: real, g: seq<real>): (r: seq<real>)
    ensures |r| == |g|
  {
    seq(|g|, i requires 0 <= i < |g| => c * g[i])
  }

  lemma {:induction false} ExactResidual(g: seq<real>, c: real, k: nat)
    requires k <= |g|
    ensures Residual(Multiple(c, g), g, c, k) == 0.0
  {
    if k > 0 {
      ExactResidual(g, c, k - 1);
    }
  }

  lemma ExactCurveIsNotZero(g: seq<real>, c: real)
    requires Sum(Multiple(c, g), |g|) > 0.0
    ensures Dot(g, g, |g|) > 0.0
  {
    SquaresNotNegative(g, |g|);
    if Dot(g, g, |g|) == 0.0 {
      ZeroSum(Multiple(c, g), |g|);
    }
  }

  lemma {:induction false} DotMultiple(g: seq<real>, c: real, k: nat)
    requires k <= |g|
    ensures Dot(Multiple(c, g), g, k) == c * Dot(g, g, k)
  {
    if k > 0 {
      DotMultiple(g, c, k - 1);
      Spread(c, Dot(g, g, k - 1), g[k - 1] * g[k - 1]);
    }
  }

  lemma CoefOf(m: Maths, n: seq<int>, time: seq<real>, o: BigO, p: real, q: real, c: real)
    requires |n| == |time| > 0 && q > 0.0 && p == c * q
    requires Dot(time, Values(Curve(m, o), n), |n|) == p
    requires Dot(Values(Curve(m, o), n), Values(Curve(m, o), n), |n|) == q
    ensures FitOf(m, n, time, o).coef == Fin(c)
  {
    QuotientIs(p, q, c);
  }

  lemma QuotientIs(p: real, q: real, c: real)
    requires q > 0.0 && p == c * q
    ensures Divide(p, q) == Fin(c)
  {
    assert (p / q) * q == c * q;
  }

  lemma ExactCoef(m: Maths, n: seq<int>, o: BigO, c: real)
    requires |n| > 0 && Sum(Multiple(c, Values(Curve(m, o), n)), |n|) > 0.0
    ensures FitOf(m, n, Multiple(c, Values(Curve(m, o), n)), o).coef == Fin(c)
  {
    var g := Values(Curve(m, o), n);
    var p, q := ExactDots(g, c);
    CoefOf(m, n, Multiple(c, g), o, p, q, c);
  }

  lemma ExactDots(g: seq<real>, c: real) returns (p: real, q: real)
    requires Sum(Multiple(c, g), |g|) > 0.0
    ensures p == c * q && q > 0.0
    ensures p == Dot(Multiple(c, g), g, |g|) && q == Dot(g, g, |g|)
  {
    ExactCurveIsNotZero(g, c);
    DotMultiple(g, c, |g|);
    p, q := Dot(Multiple(c, g), g, |g|), Dot(g, g, |g|);
  }

  lemma ZeroIsReached(m: Maths, n: seq<int>, time: seq<real>, b: nat, j: nat, c: real)
    requires m.Valid() && |n| == |time| > 0 && Sum(time, |n|) > 0.0
    requires b < |CANDIDATES| && FirstBest(m, n, time, b, |CANDIDATES|) && j < |CANDIDATES|
    requires Residual(time, Values(Curve(m, CANDIDATES[j]), n), c, |n|) == 0.0
    ensures LeastResidual(m, n, time, CANDIDATES[b]) == 0.0
  {
    PositiveMeanPicksBest(m, n, time, b, j, c);
    LeastResidualIsLeast(m, n, time, CANDIDATES[b], 0.0);
  }

  /** Times that are exactly a multiple of one candidate curve are fitted exactly, and that
      curve's own fit finds the multiple. */
  lemma ExactDataAreFitted(m: Maths, n: seq<int>, time: seq<real>, b: nat, j: nat, c: real)
    requires m.Valid() && |n| == |time| > 0 && Sum(time, |n|) > 0.0
    requires b < |CANDIDATES| && FirstBest(m, n, time, b, |CANDIDATES|) && j < |CANDIDATES|
    requires time == Multiple(c, Values(Curve(m, CANDIDATES[j]), n))
    ensures LeastResidual(m, n, time, CANDIDATES[b]) == 0.0
    ensures FitOf(m, n, time, CANDIDATES[j]).coef == Fin(c)
  {
    ExactCoef(m, n, CANDIDATES[j], c);
    ExactResidual(Values(Curve(m, CANDIDATES[j]), n), c, |n|);
    ZeroIsReached(m, n, time, b, j, c);
  }

  lemma {:induction false} ZeroSum(time: seq<real>, k: nat)
    requires k <= |time| && forall i :: 0 <= i < k ==> time[i] == 0.0
    ensures Sum(time, k) == 0.0
  {
    if k > 0 {
      ZeroSum(time, k - 1);
    }
  }

  ghost predicate ClosestOfAll(m: Maths, n: seq<int>, time: seq<real>, b: nat)
    requires |n| == |time| > 0 && b < |CANDIDATES|
  {
    forall j :: 0 <= j < |CANDIDATES| ==>
      LeastResidual(m, n, time, CANDIDATES[b]) <= LeastResidual(m, n, time, CANDIDATES[j])
  }

  /** All candidates that can be fitted fit equally well. */
  ghost predicate Tie(m: Maths, n: seq<int>, time: seq<real>)
    requires |n| == |time| > 0
  {
    forall i, j | 0 <= i < |CANDIDATES| && 0 <= j < |CANDIDATES| &&
                  FitOf(m, n, time, CANDIDATES[i]).coef.Fin? && FitOf(m, n, time, CANDIDATES[j]).coef.Fin? ::
      LeastResidual(m, n, time, CANDIDATES[i]) == LeastResidual(m, n, time, CANDIDATES[j])
  }

  lemma {:induction false} DotOnes(m: Maths, n: seq<int>, time: seq<real>, k: nat)
    requires k <= |n| == |time|
    ensures Dot(time, Values(Curve(m, O1), n), k) == Sum(time, k)
  {
    if k > 0 {
      DotOnes(m, n, time, k - 1);
    }
  }

  lemma VertexValue(s: real, p: real, q: real, c: real)
    requires q > 0.0 && c * q == p
    ensures s - 2.0 * c * p + c * c * q == s <==> p == 0.0
  {
    var d := c * p;
    assert c * c * q == c * (c * q) == d;
    assert 2.0 * c * p == 2.0 * d;
    SquareTimes(c, q);
    if p == 0.0 {
      assert d == 0.0;
    } else {
      assert c != 0.0;
    }
  }

  lemma VertexGain(time: seq<real>, g: seq<real>, c: real, k: nat)
    requires k <= |time| == |g| && Dot(g, g, k) > 0.0 && c * Dot(g, g, k) == Dot(time, g, k)
    ensures Residual(time, g, c, k) == Dot(time, time, k) <==> Dot(time, g, k) == 0.0
  {
    ResidualExpanded(time, g, c, k);
    VertexValue(Dot(time, time, k), Dot(time, g, k), Dot(g, g, k), c);
  }

  lemma QuotientTimes(p: real, q: real)
    requires q != 0.0
    ensures (p / q) * q == p
  {
  }

  /** A candidate gets closer to the times than zero does, unless its product with them is zero. */
  lemma NothingGained(m: Maths, n: seq<int>, time: seq<real>, o: BigO)
    requires |n| == |time| > 0
    ensures LeastResidual(m, n, time, o) == Dot(time, time, |n|) <==>
      Dot(time, Values(Curve(m, o), n), |n|) == 0.0
  {
    var g := Values(Curve(m, o), n);
    SquaresNotNegative(g, |n|);
    if Dot(g, g, |n|) > 0.0 {
      QuotientTimes(Dot(time, g, |n|), Dot(g, g, |n|));
      VertexGain(time, g, Dot(time, g, |n|) / Dot(g, g, |n|), |n|);
    } else {
      ZeroCurve(m, n, time, Curve(m, o), o, 0.0);
      DotZero(time, g, |n|);
    }
  }

  /** No candidate gets any closer to the times than zero does. */
  ghost predicate AllOrthogonal(m: Maths, n: seq<int>, time: seq<real>)
    requires |n| == |time| > 0
  {
    forall j :: 0 <= j < |CANDIDATES| ==> Dot(time, Values(Curve(m, CANDIDATES[j]), n), |n|) == 0.0
  }

  lemma ConstantIsClosest(m: Maths, n: seq<int>, time: seq<real>)
    requires |n| == |time| > 0 && Sum(time, |n|) == 0.0
    ensures ClosestOfAll(m, n, time, 0) <==> AllOrthogonal(m, n, time)
  {
    DotOnes(m, n, time, |n|);
    NothingGained(m, n, time, O1);
    forall j | 0 <= j < |CANDIDATES|
      ensures LeastResidual(m, n, time, O1) <= LeastResidual(m, n, time, CANDIDATES[j]) <==>
        Dot(time, Values(Curve(m, CANDIDATES[j]), n), |n|) == 0.0
    {
      NothingGained(m, n, time, CANDIDATES[j]);
      LeastResidualIsLeast(m, n, time, CANDIDATES[j], 0.0);
    }
  }

  /** When the choice is the curve closest to the times: always with a positive mean, with a mean
      of zero only if no candidate comes closer than zero, and with a negative mean only if there
      is a tie. */
  lemma ChoiceIsClosest(m: Maths, n: seq<int>, time: seq<real>, b: nat)
    requires m.Valid() && |n| == |time| > 0
    requires b < |CANDIDATES| && FirstBest(m, n, time, b, |CANDIDATES|)
    ensures ClosestOfAll(m, n, time, b) <==>
      || Sum(time, |n|) > 0.0
      || (Sum(time, |n|) == 0.0 && AllOrthogonal(m, n, time))
      || (Sum(time, |n|) < 0.0 && Tie(m, n, time))
  {
    if Sum(time, |n|) > 0.0 {
      PositiveIsClosest(m, n, time, b);
    } else if Sum(time, |n|) == 0.0 {
      ZeroMeanPicksConstant(m, n, time, b);
      ConstantIsClosest(m, n, time);
    } else {
      NegativeIsClosestIff(m, n, time, b);
    }
  }

  lemma PositiveIsClosest(m: Maths, n: seq<int>, time: seq<real>, b: nat)
    requires m.Valid() && |n| == |time| > 0 && Sum(time, |n|) > 0.0
    requires b < |CANDIDATES| && FirstBest(m, n, time, b, |CANDIDATES|)
    ensures ClosestOfAll(m, n, time, b)
  {
    forall j | 0 <= j < |CANDIDATES|
      ensures LeastResidual(m, n, time, CANDIDATES[b]) <= LeastResidual(m, n, time, CANDIDATES[j])
    {
      var fit := FitOf(m, n, time, CANDIDATES[j]);
      PositiveMeanPicksBest(m, n, time, b, j, if fit.coef.Fin? then fit.coef.r else 0.0);
    }
  }

  lemma NegativeIsClosestIff(m: Maths, n: seq<int>, time: seq<real>, b: nat)
    requires m.Valid() && |n| == |time| > 0 && Sum(time, |n|) < 0.0
    requires b < |CANDIDATES| && FirstBest(m, n, time, b, |CANDIDATES|)
    ensures ClosestOfAll(m, n, time, b) <==> Tie(m, n, time)
  {
    ChosenIsFinite(m, n, time, b);
    forall j | 0 <= j < |CANDIDATES|
      ensures FitOf(m, n, time, CANDIDATES[j]).coef.Fin? ==>
        LeastResidual(m, n, time, CANDIDATES[j]) <= LeastResidual(m, n, time, CANDIDATES[b])
      ensures !FitOf(m, n, time, CANDIDATES[j]).coef.Fin? ==>
        LeastResidual(m, n, time, CANDIDATES[b]) <= LeastResidual(m, n, time, CANDIDATES[j])
    {
      if FitOf(m, n, time, CANDIDATES[j]).coef.Fin? {
        NegativeMeanPicksWorst(m, n, time, b, j);
      } else {
        LeastResidualIsLeast(m, n, time, CANDIDATES[j], 0.0);
        LeastResidualIsLeast(m, n, time, CANDIDATES[b], 0.0);
      }
    }
  }

  predicate NonNegative(time: seq<real>) {
    forall i :: 0 <= i < |time| ==> time[i] >= 0.0
  }

  lemma {:induction false} SumOfNonNegative(time: seq<real>, k: nat)
    requires k <= |time| && NonNegative(time)
    ensures Sum(time, k) >= 0.0
    ensures Sum(time, k) == 0.0 ==> forall i :: 0 <= i < k ==> time[i] == 0.0
  {
    if k > 0 {
      SumOfNonNegative(time, k - 1);
    }
  }

  lemma {:induction false} ZeroDot(time: seq<real>, g: seq<real>, k: nat)
    requires k <= |time| == |g| && forall i :: 0 <= i < k ==> time[i] == 0.0
    ensures Dot(time, g, k) == 0.0
  {
    if k > 0 {
      ZeroDot(time, g, k - 1);
    }
  }

  /** For times that clocks can measure the choice is always a candidate closest to them. */
  lemma MeasuredTimesPickClosest(m: Maths, n: seq<int>, time: seq<real>, b: nat)
    requires m.Valid() && |n| == |time| > 0 && NonNegative(time)
    requires b < |CANDIDATES| && FirstBest(m, n, time, b, |CANDIDATES|)
    ensures ClosestOfAll(m, n, time, b)
  {
    SumOfNonNegative(time, |n|);
    ChoiceIsClosest(m, n, time, b);
    if Sum(time, |n|) == 0.0 {
      forall j | 0 <= j < |CANDIDATES|
        ensures Dot(time, Values(Curve(m, CANDIDATES[j]), n), |n|) == 0.0
      {
        ZeroDot(time, Values(Curve(m, CANDIDATES[j]), n), |n|);
      }
    }
  }

  // ---- ComputeBigO ----

  /** What `ComputeBigO` reads from the report of one size. */
  datatype SizedRun = SizedRun(complexityN: int, iterations: nat, realTime: real, cpuTime: real)

  ghost predicate Checked(runs: seq<SizedRun>) {
    forall i :: 0 <= i < |runs| ==> runs[i].complexityN > 0 && runs[i].iterations > 0
  }

  function Sizes(runs: seq<SizedRun>): (n: seq<int>)
    ensures |n| == |runs| && forall i :: 0 <= i < |n| ==> n[i] == runs[i].complexityN
  {
    seq(|runs|, i requires 0 <= i < |runs| => runs[i].complexityN)
  }

  function CpuPerIteration(runs: seq<SizedRun>): (t: seq<real>)
    requires Checked(runs)
    ensures |t| == |runs|
    ensures forall i :: 0 <= i < |t| ==> t[i] == runs[i].cpuTime / runs[i].iterations as real
  {
    seq(|runs|, i requires 0 <= i < |runs| => runs[i].cpuTime / runs[i].iterations as real)
  }

  function RealPerIteration(runs: seq<SizedRun>): (t: seq<real>)
    requires Checked(runs)
    ensures |t| == |runs|
    ensures forall i :: 0 <= i < |t| ==> t[i] == runs[i].realTime / runs[i].iterations as real
  {
    seq(|runs|, i requires 0 <= i < |runs| => runs[i].realTime / runs[i].iterations as real)
  }

  lemma PositiveShare(x: real, n: nat)
    requires n > 0
    ensures x >= 0.0 ==> x / n as real >= 0.0
  {
  }

  datatype Fits = TooFew | Fits(cpu: LeastSq, real_: LeastSq)

  /** `ComputeBigO` up to the fits. The automatic choice is made on the CPU times alone, and the
      real times are fitted with the curve chosen for them. */
  method ComputeBigO(m: Maths, runs: seq<SizedRun>, complexity: BigO, lambda: int -> real) returns (fits: Fits)
    requires m.Valid() && Checked(runs)
    ensures fits.TooFew? <==> |runs| < 2
    ensures |runs| >= 2 && complexity.OLambda? ==>
      fits == Fits(Fit(m, Sizes(runs), CpuPerIteration(runs), lambda, OLambda),
                   Fit(m, Sizes(runs), RealPerIteration(runs), lambda, OLambda))
    ensures |runs| >= 2 && !complexity.OLambda? ==>
      && fits.cpu == FitOf(m, Sizes(runs), CpuPerIteration(runs), fits.cpu.complexity)
      && fits.real_ == FitOf(m, Sizes(runs), RealPerIteration(runs), fits.cpu.complexity)
      && (complexity != OAuto ==> fits.cpu.complexity == complexity)
    ensures |runs| >= 2 && complexity == OAuto && (forall i :: 0 <= i < |runs| ==> runs[i].cpuTime >= 0.0) ==>
      forall j :: 0 <= j < |CANDIDATES| ==>
        LeastResidual(m, Sizes(runs), CpuPerIteration(runs), fits.cpu.complexity)
          <= LeastResidual(m, Sizes(runs), CpuPerIteration(runs), CANDIDATES[j])
  {
    if |runs| < 2 {
      return TooFew;
    }
    var n, real_, cpu := [], [], [];
    var i := 0;
    while i < |runs|
      invariant 0 <= i <= |runs|
      invariant n == Sizes(runs[..i]) && real_ == RealPerIteration(runs[..i]) && cpu == CpuPerIteration(runs[..i])
    {
      n := n + [runs[i].complexityN];
      real_ := real_ + [runs[i].realTime / runs[i].iterations as real];
      cpu := cpu + [runs[i].cpuTime / runs[i].iterations as real];
      i := i + 1;
    }
    assert runs[..i] == runs;
    if complexity == OLambda {
      var c := MinimalLeastSq(m, n, cpu, lambda);
      var r := MinimalLeastSq(m, n, real_, lambda);
      return Fits(c, r);
    }
    var c, chosen := MinimalLeastSqOf(m, n, cpu, complexity);
    var r, _ := MinimalLeastSqOf(m, n, real_, c.complexity);
    fits := Fits(c, r);
    if complexity == OAuto && forall i :: 0 <= i < |runs| ==> runs[i].cpuTime >= 0.0 {
      forall i | 0 <= i < |runs|
        ensures cpu[i] >= 0.0
      {
        PositiveShare(runs[i].cpuTime, runs[i].iterations);
      }
      MeasuredTimesPickClosest(m, n, cpu, chosen);
    }
  }

  /** Times -1 and -2 for sizes 1 and 2 lie on a line through 0, and yet the choice is another
      curve. */
  lemma NegativeMeanExample(m: Maths, b: nat)
    requires m.Valid() && b < |CANDIDATES| && FirstBest(m, [1, 2], [-1.0, -2.0], b, |CANDIDATES|)
    ensures LeastResidual(m, [1, 2], [-1.0, -2.0], ON) == 0.0
    ensures LeastResidual(m, [1, 2], [-1.0, -2.0], CANDIDATES[b]) > 0.0
  {
    var n, t := [1, 2], [-1.0, -2.0];
    var g, h := Values(Curve(m, ON), n), Values(Curve(m, O1), n);
    assert g == [1.0, 2.0] && h == [1.0, 1.0];
    TwoRuns(t, g, -1.0);
    TwoRuns(t, h, -1.5);
    LeastResidualIsLeast(m, n, t, ON, -1.0);
    assert Sum(t, 0) == 0.0 && Sum(t, 1) == -1.0 && Sum(t, 2) == -3.0;
    TwoDots(t, h);
    TwoDots(h, h);
    assert FitOf(m, n, t, O1).coef == Fin(-1.5);
    NegativeMeanPicksWorst(m, n, t, b, 0);
  }

  lemma TwoRuns(t: seq<real>, g: seq<real>, c: real)
    requires |t| == |g| == 2
    ensures Residual(t, g, c, 2) == Sqr(t[0] - c * g[0]) + Sqr(t[1] - c * g[1])
  {
    assert Residual(t, g, c, 0) == 0.0;
    assert Residual(t, g, c, 1) == Sqr(t[0] - c * g[0]);
  }

  lemma TwoDots(a: seq<real>, b: seq<real>)
    requires |a| == |b| == 2
    ensures Dot(a, b, 2) == a[0] * b[0] + a[1] * b[1]
  {
    assert Dot(a, b, 0) == 0.0;
    assert Dot(a, b, 1) == a[0] * b[0];
  }
}

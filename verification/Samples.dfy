/** What mean and standard deviation say about the samples themselves. */
module Samples {
  import opened Statistics

  /** Without samples both are zero; one sample is its own mean and does not deviate. */
  lemma FewSamples(sqrt: real -> real, x: real)
    ensures Mean([]) == 0.0 && StdDev(sqrt, []) == 0.0
    ensures Mean([x]) == x && StdDev(sqrt, [x]) == 0.0
  {
    assert [x][1..] == [] && Sum([]) == 0.0;
    assert Sum([x]) == x;
  }

  predicate AllAre(v: seq<real>, c: real) {
    forall i :: 0 <= i < |v| ==> v[i] == c
  }

  lemma SquareIsZero(d: real, s: real)
    requires s == d * d
    ensures s >= 0.0 && (s == 0.0 <==> d == 0.0)
  {
    if d > 0.0 {
      PositiveProduct(d, d, s);
    } else if d < 0.0 {
      assert s == (-d) * (-d);
      PositiveProduct(-d, -d, s);
    }
  }

  lemma PositiveProduct(x: real, y: real, p: real)
    requires x > 0.0 && y > 0.0 && p == x * y
    ensures p > 0.0
  {
  }

  lemma {:induction false} SpreadIsZero(v: seq<real>, c: real)
    ensures Spread(v, c) >= 0.0
    ensures Spread(v, c) == 0.0 <==> AllAre(v, c)
  {
    if v != [] {
      SpreadIsZero(v[1..], c);
      SquareIsZero(v[0] - c, (v[0] - c) * (v[0] - c));
      AllAreStep(v, c);
    }
  }

  lemma AllAreStep(v: seq<real>, c: real)
    requires v != []
    ensures AllAre(v, c) <==> v[0] == c && AllAre(v[1..], c)
  {
    if AllAre(v[1..], c) {
      assert forall i :: 0 < i < |v| ==> v[i] == v[1..][i - 1];
    }
  }

  lemma ZeroShare(x: real, d: real)
    requires d > 0.0
    ensures x / d == 0.0 <==> x == 0.0
  {
    var q := x / d;
    assert q * d == x;
  }

  /** The samples deviate from their mean by zero if and only if they are all the same. */
  lemma NoDeviationIff(sqrt: real -> real, v: seq<real>)
    requires IsSqrt(sqrt) && v != []
    ensures StdDev(sqrt, v) == 0.0 <==> AllAre(v, Mean(v))
  {
    if |v| == 1 {
      FewSamples(sqrt, v[0]);
      assert v == [v[0]];
    } else {
      StdDevSquared(sqrt, v);
      SpreadIsZero(v, Mean(v));
      ZeroShare(Spread(v, Mean(v)), |v| as real - 1.0);
      SquareIsZero(StdDev(sqrt, v), StdDev(sqrt, v) * StdDev(sqrt, v));
    }
  }
}

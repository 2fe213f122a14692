/** Sums of integer sequences: the counting argument behind every counter that
    several threads share. */
module Sums {

  function Total(w: seq<int>): int {
    if w == [] then 0 else w[0] + Total(w[1..])
  }

  /** Changing one summand changes the total by the same amount. */
  lemma {:induction false} TotalUpdate(w: seq<int>, i: nat, x: int)
    requires i < |w|
    ensures Total(w[i := x]) == Total(w) - w[i] + x
  {
    if i == 0 {
      assert w[0 := x][1..] == w[1..];
    } else {
      assert w[i := x][1..] == w[1..][i - 1 := x];
      TotalUpdate(w[1..], i - 1, x);
    }
  }

  lemma {:induction false} TotalZero(w: seq<int>)
    requires forall i :: 0 <= i < |w| ==> w[i] == 0
    ensures Total(w) == 0
  {
    if w != [] {
      TotalZero(w[1..]);
    }
  }

  /** Totals compare pointwise, with a slack of d for every summand. */
  lemma {:induction false} TotalSlack(a: seq<int>, b: seq<int>, d: nat)
    requires |a| == |b|
    requires forall i :: 0 <= i < |a| ==> a[i] <= b[i] + d
    ensures Total(a) <= Total(b) + d * |a|
  {
    if a != [] {
      TotalSlack(a[1..], b[1..], d);
    }
  }

  /** Pointwise smaller, and strictly so somewhere. */
  lemma TotalStrict(a: seq<int>, b: seq<int>, i: nat)
    requires i < |a| == |b|
    requires forall j :: 0 <= j < |a| ==> a[j] <= b[j]
    requires a[i] < b[i]
    ensures Total(a) < Total(b)
  {
    TotalUpdate(a, i, b[i]);
    TotalSlack(a[i := b[i]], b, 0);
  }

  lemma {:induction false} TotalPlus(a: seq<int>, b: seq<int>, sum: seq<int>)
    requires |a| == |b| == |sum| && forall i :: 0 <= i < |a| ==> sum[i] == a[i] + b[i]
    ensures Total(sum) == Total(a) + Total(b)
  {
    if a != [] {
      TotalPlus(a[1..], b[1..], sum[1..]);
    }
  }

  function Affine(w: seq<int>, d: int, k: int): seq<int> {
    seq(|w|, i requires 0 <= i < |w| => d + k * w[i])
  }

  lemma {:induction false} TotalAffine(w: seq<int>, d: int, k: int)
    ensures Total(Affine(w, d, k)) == |w| * d + k * Total(w)
  {
    if w != [] {
      var a := Affine(w, d, k);
      assert a[1..] == Affine(w[1..], d, k);
      TotalAffine(w[1..], d, k);
      Distribute(k, w[0], Total(w[1..]));
      Distribute(d, 1, |w| - 1);
    }
  }

  lemma Distribute(k: int, x: int, y: int)
    ensures k * (x + y) == k * x + k * y
  {
  }

  lemma TotalNonNegative(w: seq<int>)
    requires forall i :: 0 <= i < |w| ==> w[i] >= 0
    ensures Total(w) >= 0
  {
    var zeros := seq(|w|, i => 0);
    TotalZero(zeros);
    TotalSlack(zeros, w, 0);
  }
}

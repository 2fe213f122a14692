/** Mean, median, standard deviation and `ComputeStats` over real arithmetic. */
module Statistics {

  function Sum(v: seq<real>): real {
    if v == [] then 0.0 else v[0] + Sum(v[1..])
  }

  function SumSquares(v: seq<real>): real {
    if v == [] then 0.0 else v[0] * v[0] + SumSquares(v[1..])
  }

  function Mean(v: seq<real>): real {
    if v == [] then 0.0 else Sum(v) * (1.0 / |v| as real)
  }

  function Times(c: real, x: real): real {
    c * x
  }

  /** `std::sqrt` behind the guard against negative arguments. */
  function Sqrt(sqrt: real -> real, x: real): real {
    if x < 0.0 then 0.0 else sqrt(x)
  }

  ghost predicate IsSqrt(sqrt: real -> real) {
    forall x :: x >= 0.0 ==> sqrt(x) >= 0.0 && Times(sqrt(x), sqrt(x)) == x
  }

  /** The number under the square root. */
  function Variance(v: seq<real>): real
    requires |v| >= 2
  {
    VarianceOf(|v| as real, SumSquares(v), Mean(v))
  }

  function VarianceOf(n: real, squares: real, mean: real): real
    requires n >= 2.0
  {
    n / (n - 1.0) * (squares * (1.0 / n) - mean * mean)
  }

  function StdDev(sqrt: real -> real, v: seq<real>): real {
    if |v| < 2 then 0.0 else Sqrt(sqrt, Variance(v))
  }

  // ---- Standard deviation ----

  /** The sum of the squared distances from c. */
  function Spread(v: seq<real>, c: real): real {
    if v == [] then 0.0 else (v[0] - c) * (v[0] - c) + Spread(v[1..], c)
  }

  function SpreadFrom(n: real, squares: real, c: real, sum: real): real {
    squares - 2.0 * c * sum + n * (c * c)
  }

  lemma {:induction false} SpreadExpanded(v: seq<real>, c: real)
    ensures Spread(v, c) == SpreadFrom(|v| as real, SumSquares(v), c, Sum(v))
  {
    if v != [] {
      var x, t := v[0], v[1..];
      SpreadExpanded(t, c);
      OneMore(|t| as real, SumSquares(t), c, Sum(t), x, |v| as real, SumSquares(v), Sum(v));
      SpreadHead(v, c);
    }
  }

  lemma SpreadHead(v: seq<real>, c: real)
    requires v != []
    ensures Spread(v, c) == (v[0] - c) * (v[0] - c) + Spread(v[1..], c)
  {
  }

  lemma OneMore(n: real, q: real, c: real, s: real, x: real, n': real, q': real, s': real)
    requires n' == n + 1.0 && q' == x * x + q && s' == x + s
    ensures SpreadFrom(n', q', c, s') == (x - c) * (x - c) + SpreadFrom(n, q, c, s)
  {
    assert (x - c) * (x - c) == x * x - 2.0 * (c * x) + c * c;
    assert 2.0 * c * (x + s) == 2.0 * (c * x) + 2.0 * c * s;
    assert (n + 1.0) * (c * c) == n * (c * c) + c * c;
  }

  lemma {:induction false} SpreadNotNegative(v: seq<real>, c: real)
    ensures Spread(v, c) >= 0.0
  {
    if v != [] {
      SpreadNotNegative(v[1..], c);
      SquareNotNegative(v[0] - c, (v[0] - c) * (v[0] - c));
    }
  }

  lemma SquareNotNegative(x: real, s: real)
    requires s == x * x
    ensures s >= 0.0
  {
  }

  lemma MeanTimesCount(v: seq<real>)
    requires v != []
    ensures Times(Mean(v), |v| as real) == Sum(v)
  {
    var n := |v| as real;
    var w := 1.0 / n;
    assert w * n == 1.0;
    assert Sum(v) * w * n == Sum(v) * (w * n);
  }

  lemma VarianceTimes(v: seq<real>)
    requires |v| >= 2
    ensures Times(Variance(v), |v| as real - 1.0) == Spread(v, Mean(v))
  {
    MeanTimesCount(v);
    SpreadExpanded(v, Mean(v));
    SpreadOf(|v| as real, SumSquares(v), Mean(v), Sum(v), Spread(v, Mean(v)));
  }

  /** The formula of the source is the sum of squared distances from the mean over n - 1. */
  lemma VarianceIsSpread(v: seq<real>)
    requires |v| >= 2
    ensures Variance(v) == Spread(v, Mean(v)) / (|v| as real - 1.0)
  {
    VarianceTimes(v);
    QuotientOf(Variance(v), |v| as real - 1.0, Spread(v, Mean(v)));
  }

  lemma QuotientOf(x: real, d: real, p: real)
    requires d > 0.0 && Times(x, d) == p
    ensures x == p / d
  {
    SameProduct(x, p / d, d);
  }

  lemma SpreadOf(n: real, q: real, c: real, sum: real, spread: real)
    requires n >= 2.0 && Times(c, n) == sum && spread == SpreadFrom(n, q, c, sum)
    ensures Times(VarianceOf(n, q, c), n - 1.0) == spread
  {
    CrossTerm(n, c, sum);
    Rearranged(n, q, c);
  }

  lemma CrossTerm(n: real, c: real, sum: real)
    requires c * n == sum
    ensures 2.0 * c * sum == 2.0 * (n * (c * c))
  {
    assert c * (c * n) == n * (c * c);
  }

  lemma Rearranged(n: real, q: real, c: real)
    requires n >= 2.0
    ensures VarianceOf(n, q, c) * (n - 1.0) == q - n * (c * c)
  {
    var d, f, w, m := n - 1.0, n / (n - 1.0), 1.0 / n, c * c;
    var x := q * w - m;
    assert f * d == n && w * n == 1.0;
    assert n * x == q * (w * n) - n * m;
    assert f * x * d == f * d * x;
  }

  lemma SameProduct(a: real, b: real, d: real)
    requires d > 0.0 && a * d == b * d
    ensures a == b
  {
    assert (a - b) * d == 0.0;
  }

  /** The guard of `Sqrt` never fires, and the square of the standard deviation is the sample
      variance. */
  lemma StdDevSquared(sqrt: real -> real, v: seq<real>)
    requires IsSqrt(sqrt) && |v| >= 2
    ensures Variance(v) >= 0.0
    ensures StdDev(sqrt, v) >= 0.0
    ensures StdDev(sqrt, v) * StdDev(sqrt, v) == Spread(v, Mean(v)) / (|v| as real - 1.0)
  {
    VarianceIsSpread(v);
    VarianceTimes(v);
    SpreadNotNegative(v, Mean(v));
    NotNegativeFactor(Variance(v), |v| as real - 1.0);
  }

  lemma NotNegativeFactor(x: real, d: real)
    requires d > 0.0 && Times(x, d) >= 0.0
    ensures x >= 0.0
  {
  }

  // ---- Order statistics ----

  ghost predicate Permutation(v: seq<real>, w: seq<real>) {
    multiset(v) == multiset(w)
  }

  predicate Sorted(w: seq<real>) {
    forall i, j :: 0 <= i <= j < |w| ==> w[i] <= w[j]
  }

  /** What `std::nth_element` promises of the rearranged sequence. */
  ghost predicate NthElement(before: seq<real>, after: seq<real>, k: nat) {
    && Permutation(before, after) && k < |after|
    && (forall i :: 0 <= i < k ==> after[i] <= after[k])
    && (forall i :: k < i < |after| ==> after[k] <= after[i])
  }

  /** How many elements are at most x. */
  function AtMost(v: seq<real>, x: real): nat {
    if v == [] then 0 else (if v[0] <= x then 1 else 0) + AtMost(v[1..], x)
  }

  lemma {:induction false} AtMostConcat(v: seq<real>, w: seq<real>, x: real)
    ensures AtMost(v + w, x) == AtMost(v, x) + AtMost(w, x)
  {
    if v == [] {
      assert v + w == w;
    } else {
      assert (v + w)[1..] == v[1..] + w;
      AtMostConcat(v[1..], w, x);
    }
  }

  /** Where the first element of v stands in a permutation, and what is left without it. */
  lemma RemoveFirst(v: seq<real>, w: seq<real>) returns (j: nat)
    requires Permutation(v, w) && v != []
    ensures |v| == |w| && j < |w| && w[j] == v[0]
    ensures Permutation(v[1..], w[..j] + w[j + 1..])
  {
    PermutationLength(v, w);
    j := Position(v[0], w);
    WithoutFirst(v);
    Without(w, j);
  }

  lemma Position(x: real, w: seq<real>) returns (j: nat)
    requires x in multiset(w)
    ensures j < |w| && w[j] == x
  {
    j :| 0 <= j < |w| && w[j] == x;
  }

  lemma WithoutFirst(v: seq<real>)
    requires v != []
    ensures v[0] in multiset(v) && multiset(v[1..]) == multiset(v) - multiset{v[0]}
  {
    assert v == [v[0]] + v[1..];
  }

  lemma Without(w: seq<real>, j: nat)
    requires j < |w|
    ensures multiset(w[..j] + w[j + 1..]) == multiset(w) - multiset{w[j]}
  {
    assert w == w[..j] + ([w[j]] + w[j + 1..]);
  }

  lemma PermutationLength(v: seq<real>, w: seq<real>)
    requires Permutation(v, w)
    ensures |v| == |w|
  {
    assert |multiset(v)| == |v| && |multiset(w)| == |w|;
  }

  lemma {:induction false} AtMostPermutes(v: seq<real>, w: seq<real>, x: real)
    requires Permutation(v, w)
    ensures AtMost(v, x) == AtMost(w, x) && |v| == |w|
    decreases |v|
  {
    PermutationLength(v, w);
    if v != [] {
      var j := RemoveFirst(v, w);
      var front, back := w[..j], w[j + 1..];
      AtMostPermutes(v[1..], front + back, x);
      AtMostConcat(front, back, x);
      assert w == front + ([w[j]] + back);
      AtMostConcat(front, [w[j]] + back, x);
      assert ([w[j]] + back)[1..] == back;
    }
  }

  lemma {:induction false} SumConcat(v: seq<real>, w: seq<real>)
    ensures Sum(v + w) == Sum(v) + Sum(w)
  {
    if v == [] {
      assert v + w == w;
    } else {
      assert (v + w)[1..] == v[1..] + w;
      SumConcat(v[1..], w);
    }
  }

  lemma {:induction false} SumPermutes(v: seq<real>, w: seq<real>)
    requires Permutation(v, w)
    ensures Sum(v) == Sum(w)
    decreases |v|
  {
    PermutationLength(v, w);
    if v != [] {
      var j := RemoveFirst(v, w);
      var front, back := w[..j], w[j + 1..];
      SumPermutes(v[1..], front + back);
      SumConcat(front, back);
      assert w == front + ([w[j]] + back);
      SumConcat(front, [w[j]] + back);
      assert ([w[j]] + back)[1..] == back;
    }
  }

  lemma {:induction false} AllAtMost(v: seq<real>, x: real)
    ensures AtMost(v, x) <= |v|
    ensures (forall i :: 0 <= i < |v| ==> v[i] <= x) ==> AtMost(v, x) == |v|
    ensures (forall i :: 0 <= i < |v| ==> v[i] > x) ==> AtMost(v, x) == 0
  {
    if v != [] {
      AllAtMost(v[1..], x);
      assert forall i :: 0 <= i < |v| - 1 ==> v[1..][i] == v[i + 1];
    }
  }

  lemma AtLeastFirst(v: seq<real>, x: real, k: nat)
    requires k <= |v| && forall i :: 0 <= i < k ==> v[i] <= x
    ensures k <= AtMost(v, x)
  {
    AllAtMost(v[..k], x);
    AtMostConcat(v[..k], v[k..], x);
    assert v == v[..k] + v[k..];
  }

  lemma NoMoreThan(v: seq<real>, x: real, m: nat)
    requires m <= |v| && forall i :: m <= i < |v| ==> v[i] > x
    ensures AtMost(v, x) <= m
  {
    AllAtMost(v[..m], x);
    AllAtMost(v[m..], x);
    AtMostConcat(v[..m], v[m..], x);
    assert v == v[..m] + v[m..];
  }

  /** The element that `nth_element` puts at position k is the one at k in sorted order. */
  lemma NthIsSorted(v: seq<real>, a: seq<real>, w: seq<real>, k: nat)
    requires NthElement(v, a, k) && Permutation(v, w) && Sorted(w)
    ensures |v| == |a| == |w| && a[k] == w[k]
  {
    AtMostPermutes(a, w, a[k]);
    AtMostPermutes(a, w, w[k]);
    PermutationLength(v, w);
    AtLeastFirst(a, a[k], k + 1);
    AtLeastFirst(w, w[k], k + 1);
    if a[k] < w[k] {
      NoMoreThan(w, a[k], k);
    } else if a[k] > w[k] {
      NoMoreThan(a, w[k], k);
    }
  }

  // ---- Median ----

  /** The value between the two middle elements, or the middle element. */
  function TrueMedian(w: seq<real>): real
    requires w != []
  {
    if |w| % 2 == 1 then w[|w| / 2] else (w[|w| / 2 - 1] + w[|w| / 2]) / 2.0
  }

  /** What `StatisticsMedian` may return, given only what `nth_element` promises. The middle
      element is read after the second rearrangement. */
  ghost predicate PossibleMedian(v: seq<real>, r: real) {
    var c := |v| / 2;
    if |v| < 3 then r == Mean(v)
    else if |v| % 2 == 1 then exists a :: NthElement(v, a, c) && r == a[c]
    else exists a, b :: NthElement(v, a, c) && NthElement(a, b, c - 1) && c < |b| && r == MiddleOf(b, c)
  }

  function MiddleOf(b: seq<real>, c: nat): real
    requires 0 < c < |b|
  {
    (b[c] + b[c - 1]) / 2.0
  }

  method StatisticsMedian(v: seq<real>, nth: (seq<real>, nat) -> seq<real>) returns (r: real)
    requires forall s: seq<real>, k: nat :: k < |s| ==> NthElement(s, nth(s, k), k)
    ensures PossibleMedian(v, r)
  {
    if |v| < 3 {
      return Mean(v);
    }
    var copy := v;
    var center := |v| / 2;
    ghost var first := nth(copy, center);
    copy := nth(copy, center);
    PermutationLength(v, copy);
    if |v| % 2 == 1 {
      return copy[center];
    }
    copy := nth(copy, center - 1);
    PermutationLength(first, copy);
    assert NthElement(v, first, center) && NthElement(first, copy, center - 1);
    r := (copy[center] + copy[center - 1]) / 2.0;
    assert r == MiddleOf(copy, center);
  }

  /** The result lies between the median and the mean of the lower middle and the largest
      element; with an odd count, or fewer than three, it is the median. */
  lemma MedianBounds(v: seq<real>, w: seq<real>, r: real)
    requires v != [] && Permutation(v, w) && Sorted(w) && PossibleMedian(v, r)
    ensures |w| == |v|
    ensures |v| % 2 == 1 || |v| < 3 ==> r == TrueMedian(w)
    ensures |v| % 2 == 0 ==> TrueMedian(w) <= r <= (w[|w| / 2 - 1] + w[|w| - 1]) / 2.0
  {
    PermutationLength(v, w);
    var c := |v| / 2;
    if |v| == 1 {
      SmallMedian(v, w);
    } else if |v| == 2 {
      SmallMedian(v, w);
    } else if |v| % 2 == 1 {
      var a :| NthElement(v, a, c) && r == a[c];
      NthIsSorted(v, a, w, c);
    } else {
      var a, b :| NthElement(v, a, c) && NthElement(a, b, c - 1) && c < |b| && r == MiddleOf(b, c);
      NthIsSorted(a, b, w, c - 1);
      UpperElement(b, w, c);
    }
  }

  lemma SmallMedian(v: seq<real>, w: seq<real>)
    requires 1 <= |v| <= 2 && Permutation(v, w) && Sorted(w)
    ensures |w| == |v| && Mean(v) == TrueMedian(w)
  {
    PermutationLength(v, w);
    SumPermutes(v, w);
    MeanTimesCount(v);
    if |w| == 1 {
      assert w[1..] == [];
    } else {
      assert w[1..] == [w[1]] && w[1..][1..] == [];
      assert Sum([w[1]]) == w[1] + Sum([]);
      assert Sum(w) == w[0] + w[1];
    }
    MeanOfFew(Mean(v), |v| as real, Sum(w));
  }

  lemma MeanOfFew(m: real, n: real, s: real)
    requires Times(m, n) == s
    ensures n == 1.0 ==> m == s
    ensures n == 2.0 ==> m == s / 2.0
  {
  }

  /** What may stand at the centre when only the element before it is fixed. */
  lemma UpperElement(b: seq<real>, w: seq<real>, c: nat)
    requires 0 < c < |b| && NthElement(b, b, c - 1) && Permutation(b, w) && Sorted(w)
    ensures |w| == |b| && w[c] <= b[c] <= w[|w| - 1]
  {
    PermutationLength(b, w);
    assert b[c] in multiset(w);
    var j :| 0 <= j < |w| && w[j] == b[c];
    AtMostPermutes(b, w, b[c]);
    assert forall i :: 0 <= i < c + 1 ==> b[i] <= b[c];
    AtLeastFirst(b, b[c], c + 1);
    if b[c] < w[c] {
      NoMoreThan(w, b[c], c);
    }
  }

  /** Exactly when the promise of `nth_element` suffices for the result to be the median: with
      fewer than three samples, an odd number, or an upper half that is all the same. */
  lemma MedianIsExact(v: seq<real>, w: seq<real>)
    requires v != [] && Permutation(v, w) && Sorted(w)
    ensures |w| == |v|
    ensures (forall r :: PossibleMedian(v, r) ==> r == TrueMedian(w)) <==>
            |v| < 3 || |v| % 2 == 1 || w[|w| / 2] == w[|w| - 1]
  {
    PermutationLength(v, w);
    forall r | PossibleMedian(v, r) && (|v| < 3 || |v| % 2 == 1 || w[|w| / 2] == w[|w| - 1])
      ensures r == TrueMedian(w)
    {
      MedianBounds(v, w, r);
    }
    if |v| >= 3 && |v| % 2 == 0 && w[|w| / 2] != w[|w| - 1] {
      OtherMedian(v, w);
    }
  }

  /** Otherwise it may be another number: when the largest element lands at the centre. */
  lemma OtherMedian(v: seq<real>, w: seq<real>)
    requires |v| == |w| >= 3 && Permutation(v, w) && Sorted(w)
    requires |v| % 2 == 0 && w[|w| / 2] != w[|w| - 1]
    ensures PossibleMedian(v, (w[|w| - 1] + w[|w| / 2 - 1]) / 2.0)
    ensures (w[|w| - 1] + w[|w| / 2 - 1]) / 2.0 != TrueMedian(w)
  {
    var c, n := |w| / 2, |w|;
    var b := Exchanged(w, c, n - 1);
    SortedIsNth(v, w, c);
    ExchangedIsNth(w, c);
    EvenIsPossible(v, w, b, c);
    assert MiddleOf(b, c) == (w[n - 1] + w[c - 1]) / 2.0;
  }

  lemma SortedIsNth(v: seq<real>, w: seq<real>, k: nat)
    requires Permutation(v, w) && Sorted(w) && k < |w|
    ensures NthElement(v, w, k)
  {
  }

  lemma ExchangedIsNth(w: seq<real>, c: nat)
    requires Sorted(w) && 0 < c < |w| - 1
    ensures NthElement(w, Exchanged(w, c, |w| - 1), c - 1)
  {
  }

  lemma EvenIsPossible(v: seq<real>, a: seq<real>, b: seq<real>, c: nat)
    requires |v| >= 3 && |v| % 2 == 0 && c == |v| / 2 && c < |b|
    requires NthElement(v, a, c) && NthElement(a, b, c - 1)
    ensures PossibleMedian(v, MiddleOf(b, c))
  {
  }

  function Exchanged(w: seq<real>, i: nat, j: nat): (b: seq<real>)
    requires i < j < |w|
    ensures |b| == |w| && b[i] == w[j] && b[j] == w[i]
    ensures forall k :: 0 <= k < |w| && k != i && k != j ==> b[k] == w[k]
    ensures Permutation(w, b)
  {
    w[i := w[j]][j := w[i]]
  }

  // ---- Scaling ----

  function Scaled(c: real, v: seq<real>): (r: seq<real>)
    ensures |r| == |v| && forall i :: 0 <= i < |v| ==> r[i] == Times(c, v[i])
  {
    seq(|v|, i requires 0 <= i < |v| => Times(c, v[i]))
  }

  lemma ScaledTail(c: real, v: seq<real>)
    requires v != []
    ensures Scaled(c, v)[0] == c * v[0] && Scaled(c, v)[1..] == Scaled(c, v[1..])
  {
  }

  lemma {:induction false} SumScales(c: real, v: seq<real>)
    ensures Sum(Scaled(c, v)) == Times(c, Sum(v))
    ensures SumSquares(Scaled(c, v)) == Times(c * c, SumSquares(v))
  {
    if v != [] {
      ScaledTail(c, v);
      SumScales(c, v[1..]);
      var x, s, q := v[0], Sum(v[1..]), SumSquares(v[1..]);
      assert c * (x + s) == c * x + c * s;
      assert (c * x) * (c * x) == c * c * (x * x);
      assert c * c * (x * x + q) == c * c * (x * x) + c * c * q;
    }
  }

  lemma MeanScales(c: real, v: seq<real>)
    ensures Mean(Scaled(c, v)) == Times(c, Mean(v))
  {
    SumScales(c, v);
    if v != [] {
      var w := 1.0 / |v| as real;
      assert c * Sum(v) * w == c * (Sum(v) * w);
    }
  }

  lemma VarianceScales(c: real, v: seq<real>)
    requires |v| >= 2
    ensures Variance(Scaled(c, v)) == Times(c * c, Variance(v))
  {
    MeanScales(c, v);
    SumScales(c, v);
    FactorOut(|v| as real, c, SumSquares(v), Mean(v), SumSquares(Scaled(c, v)), Mean(Scaled(c, v)));
  }

  lemma FactorOut(n: real, c: real, q: real, m: real, q': real, m': real)
    requires n >= 2.0 && q' == Times(c * c, q) && m' == Times(c, m)
    ensures VarianceOf(n, q', m') == Times(c * c, VarianceOf(n, q, m))
  {
    var f, w, k := n / (n - 1.0), 1.0 / n, c * c;
    var x := q * w - m * m;
    assert m' * m' == k * (m * m);
    assert q' * w == k * (q * w);
    assert k * (q * w) - k * (m * m) == k * x;
    assert f * (k * x) == k * (f * x);
  }

  lemma StdDevScales(sqrt: real -> real, c: real, v: seq<real>)
    requires IsSqrt(sqrt) && c >= 0.0
    ensures StdDev(sqrt, Scaled(c, v)) == Times(c, StdDev(sqrt, v))
  {
    if |v| >= 2 {
      VarianceScales(c, v);
      StdDevSquared(sqrt, v);
      StdDevSquared(sqrt, Scaled(c, v));
      var a, b := StdDev(sqrt, Scaled(c, v)), StdDev(sqrt, v);
      SquareOfProduct(c, b, Variance(v));
      ProductNotNegative(c, b);
      SameSquare(a, Times(c, b));
    }
  }

  lemma SquareOfProduct(c: real, b: real, s: real)
    requires Times(b, b) == s
    ensures Times(Times(c, b), Times(c, b)) == Times(c * c, s)
  {
    assert (c * b) * (c * b) == c * c * (b * b);
  }

  lemma ProductNotNegative(c: real, b: real)
    requires c >= 0.0 && b >= 0.0
    ensures Times(c, b) >= 0.0
  {
  }

  lemma SameSquare(a: real, b: real)
    requires a >= 0.0 && b >= 0.0 && Times(a, a) == Times(b, b)
    ensures a == b
  {
    var s, d := a + b, a - b;
    assert s * d == a * a - b * b;
    if d != 0.0 {
      ZeroFactor(s, d);
    }
  }

  lemma ZeroFactor(s: real, d: real)
    requires s * d == 0.0 && d != 0.0
    ensures s == 0.0
  {
  }

  lemma ScaledConcat(c: real, v: seq<real>, w: seq<real>)
    ensures Scaled(c, v + w) == Scaled(c, v) + Scaled(c, w)
  {
  }

  lemma {:induction false} ScaledPermutes(c: real, v: seq<real>, w: seq<real>)
    requires Permutation(v, w)
    ensures Permutation(Scaled(c, v), Scaled(c, w))
    decreases |v|
  {
    PermutationLength(v, w);
    if v != [] {
      var j := RemoveFirst(v, w);
      var front, back := w[..j], w[j + 1..];
      ScaledPermutes(c, v[1..], front + back);
      ScaledConcat(c, front, back);
      assert v == [v[0]] + v[1..] && w == front + ([w[j]] + back);
      ScaledConcat(c, [v[0]], v[1..]);
      ScaledConcat(c, [w[j]], back);
      ScaledConcat(c, front, [w[j]] + back);
    }
  }

  lemma NthScales(c: real, v: seq<real>, a: seq<real>, k: nat)
    requires c > 0.0 && NthElement(v, a, k)
    ensures NthElement(Scaled(c, v), Scaled(c, a), k)
  {
    ScaledPermutes(c, v, a);
    forall i | 0 <= i < |a|
      ensures a[i] <= a[k] ==> c * a[i] <= c * a[k]
      ensures a[k] <= a[i] ==> c * a[k] <= c * a[i]
    {
      Order(c, a[i], a[k]);
      Order(c, a[k], a[i]);
    }
  }

  lemma Order(c: real, x: real, y: real)
    requires c > 0.0
    ensures x <= y ==> c * x <= c * y
  {
    var d := y - x;
    if d >= 0.0 {
      ProductNotNegative(c, d);
    }
    assert c * y == c * x + c * d;
  }

  lemma MiddleScales(c: real, b: seq<real>, k: nat)
    requires 0 < k < |b|
    ensures MiddleOf(Scaled(c, b), k) == Times(c, MiddleOf(b, k))
  {
    var x, y := b[k], b[k - 1];
    assert Scaled(c, b)[k] == Times(c, x) && Scaled(c, b)[k - 1] == Times(c, y);
    assert c * (x + y) == c * x + c * y;
  }

  lemma OddMedianScales(c: real, v: seq<real>, a: seq<real>, k: nat)
    requires c > 0.0 && |v| >= 3 && |v| % 2 == 1 && k == |v| / 2 && NthElement(v, a, k)
    ensures PossibleMedian(Scaled(c, v), Times(c, a[k]))
  {
    NthScales(c, v, a, k);
    assert Times(c, a[k]) == Scaled(c, a)[k];
  }

  lemma EvenMedianScales(c: real, v: seq<real>, a: seq<real>, b: seq<real>, k: nat)
    requires c > 0.0 && |v| >= 3 && |v| % 2 == 0 && k == |v| / 2 && k < |b|
    requires NthElement(v, a, k) && NthElement(a, b, k - 1)
    ensures PossibleMedian(Scaled(c, v), Times(c, MiddleOf(b, k)))
  {
    NthScales(c, v, a, k);
    NthScales(c, a, b, k - 1);
    MiddleScales(c, b, k);
    EvenIsPossible(Scaled(c, v), Scaled(c, a), Scaled(c, b), k);
  }

  /** A possible median of the samples, scaled, is a possible median of the scaled samples. */
  lemma MedianScales(c: real, v: seq<real>, r: real)
    requires c > 0.0 && PossibleMedian(v, r)
    ensures PossibleMedian(Scaled(c, v), Times(c, r))
  {
    var k := |v| / 2;
    if |v| < 3 {
      MeanScales(c, v);
    } else if |v| % 2 == 1 {
      var a :| NthElement(v, a, k) && r == a[k];
      OddMedianScales(c, v, a, k);
    } else {
      var a, b :| NthElement(v, a, k) && NthElement(a, b, k - 1) && k < |b| && r == MiddleOf(b, k);
      EvenMedianScales(c, v, a, b, k);
    }
  }
}

/** `AddPowers`, `AddNegatedPowers` and `AddRange` over a signed integer type whose largest
    value is kmax (and whose smallest is -kmax - 1). */
module ArgRange {
  import opened Basics

  function Pow(b: int, e: nat): int {
    if e == 0 then 1 else b * Pow(b, e - 1)
  }

  // ---- Arithmetic of the element type ----

  predicate Fits(kmax: int, x: int) {
    -kmax - 1 <= x <= kmax
  }

  /** The result of an operation that must not overflow. */
  function Exact(kmax: int, x: int): (r: int)
    requires Fits(kmax, x)
    ensures r == x
  {
    x
  }

  lemma DivBounded(m: nat, kmax: nat)
    requires m >= 2
    ensures 0 <= kmax / m <= kmax
  {
  }

  /** The overflow guard of `AddPowers` is exact. */
  lemma MulFits(i: nat, m: nat, kmax: nat)
    requires m >= 2
    ensures i <= kmax / m <==> i * m <= kmax
  {
    var q, r := kmax / m, kmax % m;
    assert kmax == q * m + r && 0 <= r < m;
    if i <= q {
      MulMonotone(i, q, m);
    } else {
      MulMonotone(q + 1, i, m);
      assert (q + 1) * m == q * m + m;
    }
  }

  lemma MulMonotone(a: int, b: int, m: nat)
    requires a <= b
    ensures a * m <= b * m
  {
    assert b * m == a * m + (b - a) * m;
  }

  // ---- What is appended ----

  /** i, i * mult, i * mult^2, ... as far as they lie between lo and hi. */
  function PowersFrom(i: int, lo: int, hi: int, mult: nat): seq<int>
    requires i >= 1 && mult >= 2
    decreases hi - i
  {
    MulMonotone(2, mult, i);
    if i > hi then []
    else (if i >= lo then [i] else []) + PowersFrom(i * mult, lo, hi, mult)
  }

  lemma PowersSplit(i: int, lo: int, hi: int, mult: nat)
    requires 1 <= i <= hi && mult >= 2
    ensures i * mult >= 1
    ensures PowersFrom(i, lo, hi, mult) == (if i >= lo then [i] else []) + PowersFrom(i * mult, lo, hi, mult)
  {
    MulMonotone(2, mult, i);
  }

  function Negated(s: seq<int>): (r: seq<int>)
    ensures |r| == |s| && forall k :: 0 <= k < |s| ==> r[k] == -s[k]
  {
    seq(|s|, k requires 0 <= k < |s| => -s[k])
  }

  function Reversed(s: seq<int>): (r: seq<int>)
    ensures |r| == |s| && forall k :: 0 <= k < |s| ==> r[k] == s[|s| - 1 - k]
  {
    seq(|s|, k requires 0 <= k < |s| => s[|s| - 1 - k])
  }

  function NegatedPowers(lo: int, hi: int, mult: nat): seq<int>
    requires mult >= 2
  {
    Reversed(Negated(PowersFrom(1, -hi, -lo, mult)))
  }

  function Below(lo: int, hi: int, mult: nat): seq<int>
    requires mult >= 2
  {
    if lo + 1 < 0 then NegatedPowers(lo + 1, Min(hi - 1, -1), mult) else []
  }

  function Zero(lo: int, hi: int): seq<int> {
    if lo <= 0 <= hi then [0] else []
  }

  function Above(lo: int, hi: int, mult: nat): seq<int>
    requires mult >= 2
  {
    if hi - 1 > 0 then PowersFrom(1, Max(lo + 1, 1), hi - 1, mult) else []
  }

  function Inner(lo: int, hi: int, mult: nat): seq<int>
    requires mult >= 2
  {
    Below(lo, hi, mult) + Zero(lo, hi) + Above(lo, hi, mult)
  }

  function WithLast(s: seq<int>, x: int): seq<int>
    requires s != []
  {
    if s[|s| - 1] == x then s else s + [x]
  }

  /** What `AddRange` appends. */
  function RangeOf(lo: int, hi: int, mult: nat): seq<int>
    requires lo <= hi && mult >= 2
  {
    if lo == hi then [lo]
    else if lo + 1 == hi then [lo, hi]
    else WithLast([lo] + Inner(lo, hi, mult), hi)
  }

  lemma Regroup(w: seq<int>, a: seq<int>, z: seq<int>, b: seq<int>)
    ensures w + a + z + b == w + (a + z + b)
  {
  }

  /** The `std::vector` that the functions below append to. */
  class Vector {
    var items: seq<int>

    constructor ()
      ensures items == []
    {
      items := [];
    }

    /** `AddPowers`; every product stays within the element type. */
    method AddPowers(lo: int, hi: int, mult: nat, kmax: int) returns (start: nat)
      requires 0 <= lo <= hi <= kmax && 1 <= kmax && mult >= 2
      modifies this
      ensures items == old(items) + PowersFrom(1, lo, hi, mult)
      ensures start == |old(items)|
    {
      start := |items|;
      var i := 1;
      ghost var goal := items + PowersFrom(1, lo, hi, mult);
      while i <= hi
        invariant 1 <= i <= kmax
        invariant items + PowersFrom(i, lo, hi, mult) == goal
        decreases hi - i
      {
        MulFits(i, mult, kmax);
        DivBounded(mult, kmax);
        MulMonotone(2, mult, i);
        PowersSplit(i, lo, hi, mult);
        if i >= lo {
          items := items + [i];
        }
        assert items + PowersFrom(i * mult, lo, hi, mult) == goal;
        if i > Exact(kmax, kmax / mult) {
          assert PowersFrom(i * mult, lo, hi, mult) == [];
          return;
        }
        i := Exact(kmax, i * mult);
      }
    }

    /** `std::for_each` with `t *= -1` from position start on. */
    method NegateFrom(start: nat, kmax: int)
      requires start <= |items|
      requires forall k :: start <= k < |items| ==> Fits(kmax, items[k]) && Fits(kmax, -items[k])
      modifies this
      ensures items == old(items)[..start] + Negated(old(items)[start..])
    {
      var j := start;
      while j < |items|
        invariant start <= j <= |items| == |old(items)|
        invariant forall k :: 0 <= k < |items| ==>
          items[k] == if start <= k < j then -old(items)[k] else old(items)[k]
      {
        items := items[j := Exact(kmax, items[j] * -1)];
        j := j + 1;
      }
    }

    /** `std::reverse` from position start on. */
    method ReverseFrom(start: nat)
      requires start <= |items|
      modifies this
      ensures items == old(items)[..start] + Reversed(old(items)[start..])
    {
      ghost var was := items;
      var n := |items|;
      var a, b := start, n;
      while a + 1 < b
        invariant start <= a <= b + 1 && b <= n
        invariant n == |items| == |was| && a - start == n - b
        invariant forall k :: 0 <= k < a && start <= k ==> items[k] == was[start + n - 1 - k]
        invariant forall k :: b <= k < n ==> items[k] == was[start + n - 1 - k]
        invariant forall k :: a <= k < b ==> items[k] == was[k]
        invariant forall k :: 0 <= k < start ==> items[k] == was[k]
      {
        var x, y := items[a], items[b - 1];
        items := items[a := y];
        items := items[b - 1 := x];
        a, b := a + 1, b - 1;
      }
    }

    /** `AddNegatedPowers`; lo is not the smallest value of the type, so it can be negated. */
    method AddNegatedPowers(lo: int, hi: int, mult: nat, kmax: int)
      requires -kmax - 1 < lo <= hi <= 0 && 1 <= kmax && mult >= 2
      modifies this
      ensures items == old(items) + NegatedPowers(lo, hi, mult)
    {
      var loComplement, hiComplement := Exact(kmax, -lo), Exact(kmax, -hi);
      var start := AddPowers(hiComplement, loComplement, mult, kmax);
      PowersWithin(1, hiComplement, loComplement, mult);
      ghost var powers := PowersFrom(1, hiComplement, loComplement, mult);
      assert items[start..] == powers && items[..start] == old(items);
      forall k | start <= k < |items|
        ensures 0 <= items[k] <= kmax
      {
        assert items[k] == powers[k - start] && powers[k - start] in powers;
      }
      NegateFrom(start, kmax);
      assert items[start..] == Negated(powers) && items[..start] == old(items);
      ReverseFrom(start);
    }

    /** The middle of `AddRange`: everything strictly between lo and hi. */
    method AddInner(lo: int, hi: int, mult: nat, kmax: int)
      requires Fits(kmax, lo) && Fits(kmax, hi) && 1 <= kmax
      requires lo + 1 < hi && mult >= 2
      modifies this
      ensures items == old(items) + Inner(lo, hi, mult)
    {
      var loInner, hiInner := Exact(kmax, lo + 1), Exact(kmax, hi - 1);
      ghost var was := items;
      if loInner < 0 {
        AddNegatedPowers(loInner, Min(hiInner, -1), mult, kmax);
      }
      assert items == was + Below(lo, hi, mult);
      if lo <= 0 && hi >= 0 {
        items := items + [0];
      }
      assert items == was + Below(lo, hi, mult) + Zero(lo, hi);
      if hiInner > 0 {
        var _ := AddPowers(Max(loInner, 1), hiInner, mult, kmax);
      }
      assert items == was + Below(lo, hi, mult) + Zero(lo, hi) + Above(lo, hi, mult);
      Regroup(was, Below(lo, hi, mult), Zero(lo, hi), Above(lo, hi, mult));
    }

    /** `push_back`, unless x is already the last element. */
    method AddUnlessLast(x: int, ghost r: seq<int>)
      requires r != [] && |r| <= |items| && items[|items| - |r|..] == r
      modifies this
      ensures items == old(items)[..|old(items)| - |r|] + WithLast(r, x)
    {
      assert items == items[..|items| - |r|] + r;
      if x != items[|items| - 1] {
        items := items + [x];
      }
    }

    /** `AddRange`; no sum, difference, negation or product leaves the element type. */
    method AddRange(lo: int, hi: int, mult: nat, kmax: int)
      requires Fits(kmax, lo) && Fits(kmax, hi) && 1 <= kmax
      requires lo <= hi && mult >= 2
      modifies this
      ensures items == old(items) + RangeOf(lo, hi, mult)
    {
      ghost var was := items;
      items := items + [lo];
      if lo == hi {
        return;
      }
      if Exact(kmax, lo + 1) == hi {
        items := items + [hi];
        return;
      }
      AddInner(lo, hi, mult, kmax);
      ghost var r := [lo] + Inner(lo, hi, mult);
      assert items == was + r;
      AddUnlessLast(hi, r);
    }
  }

  // ---- What that is, without saying how it is computed ----

  lemma {:induction false} PowersWithin(i: int, lo: int, hi: int, mult: nat)
    requires i >= 1 && mult >= 2
    ensures forall x :: x in PowersFrom(i, lo, hi, mult) ==> i <= x && lo <= x <= hi
    ensures Increasing(PowersFrom(i, lo, hi, mult))
    decreases hi - i
  {
    if i <= hi {
      MulMonotone(2, mult, i);
      PowersWithin(i * mult, lo, hi, mult);
      PowersSplit(i, lo, hi, mult);
      var rest := PowersFrom(i * mult, lo, hi, mult);
      assert forall k :: 0 <= k < |rest| ==> rest[k] in rest;
    }
  }

  predicate Increasing(s: seq<int>) {
    forall j, k :: 0 <= j < k < |s| ==> s[j] < s[k]
  }

  /** x is 1, mult, mult^2, ... */
  ghost predicate IsPower(x: int, mult: int) {
    exists k: nat :: x == Pow(mult, k)
  }

  ghost predicate IsPowerFrom(x: int, mult: int, e: nat) {
    exists k: nat :: k >= e && x == Pow(mult, k)
  }

  lemma {:induction false} PowersFromPowers(e: nat, lo: int, hi: int, mult: nat, x: int)
    requires mult >= 2
    ensures Pow(mult, e) >= 1
    ensures x in PowersFrom(Pow(mult, e), lo, hi, mult) <==>
      lo <= x <= hi && IsPowerFrom(x, mult, e)
    decreases hi - Pow(mult, e)
  {
    PowAtLeastOne(mult, e);
    var p := Pow(mult, e);
    if p <= hi {
      MulMonotone(2, mult, p);
      assert Pow(mult, e + 1) == mult * p == p * mult;
      PowersFromPowers(e + 1, lo, hi, mult, x);
    } else {
      forall k: nat | k >= e && x == Pow(mult, k)
        ensures x > hi
      {
        PowGrows(mult, e, k);
      }
    }
  }

  lemma {:induction false} PowAtLeastOne(b: nat, e: nat)
    requires b >= 1
    ensures Pow(b, e) >= 1
  {
    if e > 0 {
      PowAtLeastOne(b, e - 1);
      MulMonotone(1, Pow(b, e - 1), b);
    }
  }

  lemma {:induction false} PowGrows(b: nat, e: nat, k: nat)
    requires b >= 1 && e <= k
    ensures Pow(b, e) <= Pow(b, k)
    decreases k
  {
    if e < k {
      PowGrows(b, e, k - 1);
      PowAtLeastOne(b, k - 1);
      MulMonotone(1, b, Pow(b, k - 1));
    }
  }

  lemma PowersCharacterised(lo: int, hi: int, mult: nat, x: int)
    requires mult >= 2
    ensures x in PowersFrom(1, lo, hi, mult) <==> lo <= x <= hi && IsPower(x, mult)
  {
    PowersFromPowers(0, lo, hi, mult, x);
    assert Pow(mult, 0) == 1;
    assert IsPowerFrom(x, mult, 0) == IsPower(x, mult);
  }

  lemma InReversed(s: seq<int>, x: int)
    ensures x in Reversed(Negated(s)) <==> -x in s
  {
    if -x in s {
      var k :| 0 <= k < |s| && s[k] == -x;
      assert Reversed(Negated(s))[|s| - 1 - k] == x;
    }
    if x in Reversed(Negated(s)) {
      var k :| 0 <= k < |s| && Reversed(Negated(s))[k] == x;
      assert s[|s| - 1 - k] == -x;
    }
  }

  lemma PowerIsPositive(x: int, mult: nat)
    requires mult >= 2 && IsPower(x, mult)
    ensures x >= 1
  {
    var k: nat :| x == Pow(mult, k);
    PowAtLeastOne(mult, k);
  }

  /** What `AddRange` appends may hold: the ends, zero, and signed powers. */
  ghost predicate Wanted(x: int, lo: int, hi: int, mult: int) {
    lo <= x <= hi && (x == lo || x == hi || x == 0 || IsPower(x, mult) || IsPower(-x, mult))
  }

  lemma NegatedPowersHold(lo: int, hi: int, mult: nat, x: int)
    requires mult >= 2
    ensures x in NegatedPowers(lo, hi, mult) <==> lo <= x <= hi && IsPower(-x, mult)
  {
    InReversed(PowersFrom(1, -hi, -lo, mult), x);
    PowersCharacterised(-hi, -lo, mult, -x);
  }

  lemma BelowHolds(lo: int, hi: int, mult: nat, x: int)
    requires lo + 1 < hi && mult >= 2
    ensures x in Below(lo, hi, mult) <==> lo < x < hi && IsPower(-x, mult)
  {
    if lo + 1 < 0 {
      NegatedPowersHold(lo + 1, Min(hi - 1, -1), mult, x);
    }
    if IsPower(-x, mult) {
      PowerIsPositive(-x, mult);
    }
  }

  lemma AboveHolds(lo: int, hi: int, mult: nat, x: int)
    requires lo + 1 < hi && mult >= 2
    ensures x in Above(lo, hi, mult) <==> lo < x < hi && IsPower(x, mult)
  {
    PowersCharacterised(Max(lo + 1, 1), hi - 1, mult, x);
    if IsPower(x, mult) {
      PowerIsPositive(x, mult);
    }
  }

  /** What is in the middle. */
  lemma InnerHolds(lo: int, hi: int, mult: nat, x: int)
    requires lo + 1 < hi && mult >= 2
    ensures x in Inner(lo, hi, mult) <==>
      (lo <= x <= hi && x == 0) || (lo < x < hi && (IsPower(x, mult) || IsPower(-x, mult)))
  {
    BelowHolds(lo, hi, mult, x);
    AboveHolds(lo, hi, mult, x);
  }

  /** Exactly the ends, zero when it is in range, and all signed powers in range, and no other. */
  lemma RangeHolds(lo: int, hi: int, mult: nat, x: int)
    requires lo <= hi && mult >= 2
    ensures x in RangeOf(lo, hi, mult) <==> Wanted(x, lo, hi, mult)
  {
    if lo + 1 < hi {
      InnerHolds(lo, hi, mult, x);
      var r := [lo] + Inner(lo, hi, mult);
      assert x in r <==> x == lo || x in Inner(lo, hi, mult);
      assert r[|r| - 1] in r;
    }
  }

  /** Each value once and in order, except that 0 stands twice at the front of a range that
      starts at 0 and has at least two elements more. */
  predicate OrderedOnce(s: seq<int>, twice: bool) {
    if twice then |s| >= 2 && s[0] == s[1] == 0 && Increasing(s[1..]) else Increasing(s)
  }

  lemma IncreasingConcat(a: seq<int>, b: seq<int>, m: int)
    requires Increasing(a) && Increasing(b)
    requires forall x :: x in a ==> x < m
    requires forall x :: x in b ==> m <= x
    ensures Increasing(a + b)
  {
    assert forall k :: 0 <= k < |a| ==> a[k] in a;
    assert forall k :: 0 <= k < |b| ==> b[k] in b;
  }

  lemma NegatedPowersOrdered(lo: int, hi: int, mult: nat)
    requires mult >= 2
    ensures Increasing(NegatedPowers(lo, hi, mult))
    ensures forall x :: x in NegatedPowers(lo, hi, mult) ==> lo <= x <= hi && x < 0
  {
    var p := PowersFrom(1, -hi, -lo, mult);
    PowersWithin(1, -hi, -lo, mult);
    forall x | x in NegatedPowers(lo, hi, mult)
      ensures lo <= x <= hi && x < 0
    {
      InReversed(p, x);
    }
  }

  lemma InnerOrdered(lo: int, hi: int, mult: nat)
    requires lo + 1 < hi && mult >= 2
    ensures Increasing(Inner(lo, hi, mult))
  {
    var a, z, b := Below(lo, hi, mult), Zero(lo, hi), Above(lo, hi, mult);
    if lo + 1 < 0 {
      NegatedPowersOrdered(lo + 1, Min(hi - 1, -1), mult);
    }
    assert Increasing(a) && forall x :: x in a ==> x < 0;
    PowersWithin(1, Max(lo + 1, 1), hi - 1, mult);
    assert Increasing(b) && forall x :: x in b ==> 1 <= x;
    IncreasingConcat(a, z, 0);
    assert forall x :: x in a + z ==> x < 1;
    IncreasingConcat(a + z, b, 1);
  }

  /** Strictly between the ends, except for zero. */
  lemma InnerBetween(lo: int, hi: int, mult: nat)
    requires lo + 1 < hi && mult >= 2
    ensures forall x :: x in Inner(lo, hi, mult) ==> (lo < x || x == lo == 0) && (x < hi || x == hi == 0)
  {
    forall x | x in Inner(lo, hi, mult)
      ensures (lo < x || x == lo == 0) && (x < hi || x == hi == 0)
    {
      InnerHolds(lo, hi, mult, x);
    }
  }

  lemma RangeOrdered(lo: int, hi: int, mult: nat)
    requires lo <= hi && mult >= 2
    ensures OrderedOnce(RangeOf(lo, hi, mult), lo == 0 && hi >= 2)
  {
    if lo + 1 < hi {
      InnerOrdered(lo, hi, mult);
      InnerBetween(lo, hi, mult);
      InnerHolds(lo, hi, mult, 0);
      var i := Inner(lo, hi, mult);
      if lo == 0 {
        OrderedFromZero(i, hi);
      } else {
        IncreasingConcat([lo], i, lo + 1);
        Closed([lo] + i, hi);
      }
    }
  }

  lemma OrderedFromZero(i: seq<int>, hi: int)
    requires Increasing(i) && 0 in i && forall x :: x in i ==> 0 <= x < hi
    ensures i[|i| - 1] != hi && OrderedOnce([0] + i + [hi], true)
  {
    assert forall k :: 0 <= k < |i| ==> i[k] in i;
    IncreasingConcat(i, [hi], hi);
    assert i[0] == 0;
    assert ([0] + i + [hi])[1..] == i + [hi];
  }

  lemma Closed(r: seq<int>, hi: int)
    requires Increasing(r) && |r| > 0 && forall x :: x in r ==> x <= hi
    ensures Increasing(WithLast(r, hi))
  {
    assert forall k :: 0 <= k < |r| ==> r[k] in r;
    if r[|r| - 1] != hi {
      IncreasingConcat(r, [hi], hi);
    }
  }

  lemma HasMember(s: seq<int>)
    requires s != []
    ensures exists x :: x in s
  {
    var x := s[0];
    assert x in s;
  }

  /** Increasing sequences with the same elements are equal, so the two lemmas above leave
      `AddRange` no freedom. */
  lemma {:induction false} IncreasingIsUnique(a: seq<int>, b: seq<int>)
    requires Increasing(a) && Increasing(b) && forall x :: x in a <==> x in b
    ensures a == b
    decreases |a|
  {
    if a != [] && b != [] {
      assert a[0] in b && b[0] in a;
      assert a[0] == b[0];
      forall x
        ensures x in a[1..] <==> x in b[1..]
      {
        assert x in a <==> x == a[0] || x in a[1..];
        assert x in b <==> x == b[0] || x in b[1..];
        assert x in a[1..] ==> x != a[0];
        assert x in b[1..] ==> x != b[0];
      }
      IncreasingIsUnique(a[1..], b[1..]);
      assert a == [a[0]] + a[1..] && b == [b[0]] + b[1..];
    } else if a != [] {
      HasMember(a);
    } else if b != [] {
      HasMember(b);
    }
  }
}

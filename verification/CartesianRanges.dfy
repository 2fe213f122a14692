/** `Benchmark::Ranges`: the odometer that enumerates a Cartesian product of argument lists. */
module CartesianRanges {
  import opened ArgRange

  // ---- Mixed-radix numbers, least significant digit first ----

  /** How many digit strings there are. */
  function Count(sizes: seq<nat>): nat {
    if sizes == [] then 1 else sizes[0] * Count(sizes[1..])
  }

  ghost predicate InBounds(d: seq<nat>, sizes: seq<nat>) {
    |d| == |sizes| && forall j :: 0 <= j < |d| ==> d[j] < sizes[j]
  }

  function Value(d: seq<nat>, sizes: seq<nat>): nat
    requires |d| == |sizes|
  {
    if d == [] then 0 else d[0] + sizes[0] * Value(d[1..], sizes[1..])
  }

  function Digits(i: nat, sizes: seq<nat>): (d: seq<nat>)
    ensures |d| == |sizes|
    decreases |sizes|
  {
    if sizes == [] then []
    else if sizes[0] == 0 then [0] + Digits(i, sizes[1..])
    else [i % sizes[0]] + Digits(i / sizes[0], sizes[1..])
  }

  /** What one pass of the carry loop does to the digits. */
  function Carry(d: seq<nat>, sizes: seq<nat>): (r: seq<nat>)
    requires |d| == |sizes|
    ensures |r| == |d|
  {
    if d == [] then []
    else if d[0] + 1 < sizes[0] then [d[0] + 1] + d[1..]
    else [0] + Carry(d[1..], sizes[1..])
  }

  function Zeros(n: nat): (z: seq<nat>)
    ensures |z| == n && forall k :: 0 <= k < n ==> z[k] == 0
  {
    seq(n, _ => 0)
  }

  lemma MulCancel(a: int, b: int, s: nat)
    requires s * a < s * b
    ensures a < b
  {
    if b <= a {
      MulMonotone(b, a, s);
    }
  }

  lemma Divide(i: nat, s: nat, n: nat)
    requires s > 0 && i < s * n
    ensures i / s < n && i == i % s + s * (i / s)
  {
    var q := i / s;
    assert s * q <= i;
    MulCancel(q, n, s);
  }

  lemma DivideBack(x: nat, s: nat, v: nat)
    requires x < s
    ensures (x + s * v) % s == x && (x + s * v) / s == v
  {
    var i := x + s * v;
    var q, r := i / s, i % s;
    assert i == s * q + r && 0 <= r < s;
    assert s * (v - q) == r - x;
    SmallMultiple(s, v - q);
  }

  lemma SmallMultiple(s: int, w: int)
    requires s > 0 && -s < s * w < s
    ensures w == 0
  {
    if w >= 1 {
      MulMonotone(1, w, s);
    } else if w <= -1 {
      MulMonotone(w, -1, s);
    }
  }

  lemma BelowProduct(x: nat, s: nat, v: nat, n: nat)
    requires x < s && v < n
    ensures x + s * v < s * n
  {
    MulMonotone(v + 1, n, s);
    assert (v + 1) * s == v * s + s;
  }

  lemma PositiveFactors(a: nat, b: nat)
    requires a * b > 0
    ensures a > 0 && b > 0
  {
  }

  /** A number below the count is recovered from its digits. */
  lemma {:induction false} ValueOfDigits(i: nat, sizes: seq<nat>)
    requires i < Count(sizes)
    ensures InBounds(Digits(i, sizes), sizes)
    ensures Value(Digits(i, sizes), sizes) == i
    decreases |sizes|
  {
    if sizes != [] {
      var s, rest := sizes[0], sizes[1..];
      PositiveFactors(s, Count(rest));
      Divide(i, s, Count(rest));
      ValueOfDigits(i / s, rest);
      var d := Digits(i, sizes);
      assert d[1..] == Digits(i / s, rest);
      forall j | 0 <= j < |d|
        ensures d[j] < sizes[j]
      {
        if j > 0 {
          assert d[j] == d[1..][j - 1] && sizes[j] == rest[j - 1];
        }
      }
    }
  }

  /** Every digit string in bounds is the digits of exactly the number it denotes. */
  lemma {:induction false} DigitsOfValue(d: seq<nat>, sizes: seq<nat>)
    requires InBounds(d, sizes)
    ensures Value(d, sizes) < Count(sizes)
    ensures Digits(Value(d, sizes), sizes) == d
    decreases |sizes|
  {
    if sizes != [] {
      var s, v := sizes[0], Value(d[1..], sizes[1..]);
      DigitsOfValue(d[1..], sizes[1..]);
      DivideBack(d[0], s, v);
      BelowProduct(d[0], s, v, Count(sizes[1..]));
      assert d == [d[0]] + d[1..];
    }
  }

  lemma {:induction false} CarryInBounds(d: seq<nat>, sizes: seq<nat>)
    requires InBounds(d, sizes)
    ensures InBounds(Carry(d, sizes), sizes)
    decreases |sizes|
  {
    if sizes != [] && d[0] + 1 >= sizes[0] {
      CarryInBounds(d[1..], sizes[1..]);
    }
  }

  /** The carry adds one, and wraps to zero after the last combination. */
  lemma {:induction false} CarryCounts(d: seq<nat>, sizes: seq<nat>)
    requires InBounds(d, sizes)
    ensures Value(Carry(d, sizes), sizes) ==
            if Value(d, sizes) + 1 < Count(sizes) then Value(d, sizes) + 1 else 0
    decreases |sizes|
  {
    if sizes != [] {
      var rest, c := sizes[1..], Carry(d, sizes);
      var s, v, n := sizes[0], Value(d[1..], rest), Count(rest);
      DigitsOfValue(d[1..], rest);
      if d[0] + 1 < s {
        assert c[1..] == d[1..];
        BelowProduct(d[0] + 1, s, v, n);
      } else {
        CarryCounts(d[1..], rest);
        assert c[1..] == Carry(d[1..], rest);
        CarryOut(s, v, n, Value(c[1..], rest));
      }
    }
  }

  lemma CarryOut(s: nat, v: nat, n: nat, w: nat)
    requires s > 0 && v < n && w == if v + 1 < n then v + 1 else 0
    ensures s * w == if (s - 1 + s * v) + 1 < s * n then (s - 1 + s * v) + 1 else 0
  {
    assert s - 1 + s * v + 1 == s * (v + 1);
    if v + 1 < n {
      BelowProduct(0, s, v + 1, n);
    }
  }

  lemma {:induction false} ValueOfZeros(sizes: seq<nat>)
    ensures Value(Zeros(|sizes|), sizes) == 0
  {
    if sizes != [] {
      assert Zeros(|sizes|)[1..] == Zeros(|sizes| - 1);
      ValueOfZeros(sizes[1..]);
    }
  }

  // ---- Tuples ----

  function Sizes(lists: seq<seq<int>>): (r: seq<nat>)
    ensures |r| == |lists| && forall j :: 0 <= j < |r| ==> r[j] == |lists[j]|
  {
    seq(|lists|, j requires 0 <= j < |lists| => |lists[j]|)
  }

  /** The element of list j that digit j selects, for every j. */
  function Pick(d: seq<nat>, lists: seq<seq<int>>): (t: seq<int>)
    requires InBounds(d, Sizes(lists))
    ensures |t| == |lists| && forall j :: 0 <= j < |t| ==> t[j] == lists[j][d[j]]
  {
    seq(|lists|, j requires 0 <= j < |lists| => lists[j][d[j]])
  }

  function Row(i: nat, lists: seq<seq<int>>): seq<int>
    requires i < Count(Sizes(lists))
  {
    ValueOfDigits(i, Sizes(lists));
    Pick(Digits(i, Sizes(lists)), lists)
  }

  /** Row i is selected by the digits of i. */
  function Product(lists: seq<seq<int>>): seq<seq<int>> {
    seq(Count(Sizes(lists)), i requires 0 <= i < Count(Sizes(lists)) => Row(i, lists))
  }

  /** Every combination of indices selects exactly one row. */
  lemma EachCombinationOnce(lists: seq<seq<int>>, d: seq<nat>)
    requires InBounds(d, Sizes(lists))
    ensures Value(d, Sizes(lists)) < |Product(lists)|
    ensures Product(lists)[Value(d, Sizes(lists))] == Pick(d, lists)
    ensures forall i :: 0 <= i < |Product(lists)| && Digits(i, Sizes(lists)) == d ==> i == Value(d, Sizes(lists))
  {
    var sizes := Sizes(lists);
    DigitsOfValue(d, sizes);
    forall i | 0 <= i < |Product(lists)| && Digits(i, sizes) == d
      ensures i == Value(d, sizes)
    {
      ValueOfDigits(i, sizes);
    }
  }

  predicate Member(t: seq<int>, lists: seq<seq<int>>) {
    |t| == |lists| && forall j :: 0 <= j < |t| ==> t[j] in lists[j]
  }

  function IndexOf(x: int, s: seq<int>): (k: nat)
    requires x in s
    ensures k < |s| && s[k] == x
  {
    if s[0] == x then 0 else 1 + IndexOf(x, s[1..])
  }

  /** A tuple is appended exactly when each of its entries comes from its list. */
  lemma ProductHolds(lists: seq<seq<int>>, t: seq<int>)
    ensures t in Product(lists) <==> Member(t, lists)
  {
    if t in Product(lists) {
      var i :| 0 <= i < |Product(lists)| && Product(lists)[i] == t;
      ValueOfDigits(i, Sizes(lists));
    }
    if Member(t, lists) {
      var d := seq(|t|, j requires 0 <= j < |t| => IndexOf(t[j], lists[j]));
      EachCombinationOnce(lists, d);
      assert Pick(d, lists) == t;
    }
  }

  ghost predicate NoRepeats<T>(s: seq<T>) {
    forall i, k :: 0 <= i < k < |s| ==> s[i] != s[k]
  }

  /** The rows are all different if and only if no list repeats an element (no list is empty). */
  lemma ProductRepeats(lists: seq<seq<int>>)
    requires forall j :: 0 <= j < |lists| ==> lists[j] != []
    ensures NoRepeats(Product(lists)) <==> forall j :: 0 <= j < |lists| ==> NoRepeats(lists[j])
  {
    if forall j :: 0 <= j < |lists| ==> NoRepeats(lists[j]) {
      forall i, k | 0 <= i < k < |Product(lists)|
        ensures Product(lists)[i] != Product(lists)[k]
      {
        DifferentRows(lists, i, k);
      }
    }
    forall j | NoRepeats(Product(lists)) && 0 <= j < |lists|
      ensures NoRepeats(lists[j])
    {
      forall a, b | 0 <= a < b < |lists[j]|
        ensures lists[j][a] != lists[j][b]
      {
        DifferentElements(lists, j, a, b);
      }
    }
  }

  lemma DifferentRows(lists: seq<seq<int>>, i: nat, k: nat)
    requires forall j :: 0 <= j < |lists| ==> NoRepeats(lists[j])
    requires i < k < |Product(lists)|
    ensures Product(lists)[i] != Product(lists)[k]
  {
    var sizes := Sizes(lists);
    ValueOfDigits(i, sizes);
    ValueOfDigits(k, sizes);
    var d, e := Digits(i, sizes), Digits(k, sizes);
    assert d != e;
    var j :| 0 <= j < |d| && d[j] != e[j];
    assert Product(lists)[i][j] == lists[j][d[j]] && Product(lists)[k][j] == lists[j][e[j]];
    assert NoRepeats(lists[j]);
  }

  lemma DifferentPicks(lists: seq<seq<int>>, d: seq<nat>, e: seq<nat>)
    requires NoRepeats(Product(lists)) && InBounds(d, Sizes(lists)) && InBounds(e, Sizes(lists)) && d != e
    ensures Pick(d, lists) != Pick(e, lists)
  {
    var sizes := Sizes(lists);
    EachCombinationOnce(lists, d);
    EachCombinationOnce(lists, e);
    DigitsOfValue(d, sizes);
    DigitsOfValue(e, sizes);
    var p, q := Value(d, sizes), Value(e, sizes);
    assert p != q;
    assert Product(lists)[p] != Product(lists)[q];
  }

  lemma DifferentElements(lists: seq<seq<int>>, j: nat, a: nat, b: nat)
    requires forall k :: 0 <= k < |lists| ==> lists[k] != []
    requires NoRepeats(Product(lists)) && j < |lists| && a < b < |lists[j]|
    ensures lists[j][a] != lists[j][b]
  {
    var z := Zeros(|lists|);
    var d, e := z[j := a], z[j := b];
    assert d[j] != e[j];
    DifferentPicks(lists, d, e);
    var k :| 0 <= k < |lists| && Pick(d, lists)[k] != Pick(e, lists)[k];
    assert k == j;
  }

  // ---- The benchmark family ----

  const INT64_MAX: int := 0x7fff_ffff_ffff_ffff
  const INT32_MAX: int := 0x7fff_ffff

  datatype Span = Span(lo: int, hi: int)

  /** What `AddRange` checks of its arguments. */
  predicate Legal(r: Span, kmax: int) {
    Fits(kmax, r.lo) && Fits(kmax, r.hi) && r.lo <= r.hi
  }

  predicate AllLegal(ranges: seq<Span>) {
    forall j :: 0 <= j < |ranges| ==> Legal(ranges[j], INT64_MAX)
  }

  function ListOf(r: Span, mult: nat): seq<int>
    requires mult >= 2 && Legal(r, INT64_MAX)
  {
    RangeOf(r.lo, r.hi, mult)
  }

  function Lists(ranges: seq<Span>, mult: nat): (r: seq<seq<int>>)
    requires mult >= 2 && AllLegal(ranges)
    ensures |r| == |ranges| && forall j :: 0 <= j < |r| ==> r[j] == ListOf(ranges[j], mult)
  {
    seq(|ranges|, j requires 0 <= j < |ranges| => ListOf(ranges[j], mult))
  }

  lemma RangeNotEmpty(lo: int, hi: int, mult: nat)
    requires lo <= hi && mult >= 2
    ensures RangeOf(lo, hi, mult) != []
  {
  }

  ghost predicate WantedTuple(t: seq<int>, ranges: seq<Span>, mult: nat) {
    |t| == |ranges| && forall j :: 0 <= j < |t| ==> Wanted(t[j], ranges[j].lo, ranges[j].hi, mult)
  }

  /** `Ranges` appends exactly the tuples whose entries are all wanted in their ranges. */
  lemma RangesHold(ranges: seq<Span>, mult: nat, t: seq<int>)
    requires mult >= 2 && AllLegal(ranges)
    ensures t in Product(Lists(ranges, mult)) <==> WantedTuple(t, ranges, mult)
  {
    var lists := Lists(ranges, mult);
    ProductHolds(lists, t);
    forall j | 0 <= j < |ranges| && j < |t|
      ensures t[j] in lists[j] <==> Wanted(t[j], ranges[j].lo, ranges[j].hi, mult)
    {
      RangeHolds(ranges[j].lo, ranges[j].hi, mult, t[j]);
    }
  }

  predicate Doubled(r: Span) {
    r.lo == 0 && r.hi >= 2
  }

  lemma RangeRepeats(lo: int, hi: int, mult: nat)
    requires lo <= hi && mult >= 2
    ensures NoRepeats(RangeOf(lo, hi, mult)) <==> !Doubled(Span(lo, hi))
  {
    RangeOrdered(lo, hi, mult);
  }

  /** No benchmark is registered twice by `Ranges` if and only if no range runs from 0 to at
      least 2. */
  lemma RangesRepeat(ranges: seq<Span>, mult: nat)
    requires mult >= 2 && AllLegal(ranges)
    ensures NoRepeats(Product(Lists(ranges, mult))) <==>
      forall j :: 0 <= j < |ranges| ==> !Doubled(ranges[j])
  {
    var lists := Lists(ranges, mult);
    forall j | 0 <= j < |ranges|
      ensures lists[j] != [] && (NoRepeats(lists[j]) <==> !Doubled(ranges[j]))
    {
      RangeNotEmpty(ranges[j].lo, ranges[j].hi, mult);
      RangeRepeats(ranges[j].lo, ranges[j].hi, mult);
    }
    ProductRepeats(lists);
    if forall j :: 0 <= j < |lists| ==> NoRepeats(lists[j]) {
      forall j | 0 <= j < |ranges|
        ensures !Doubled(ranges[j])
      {
        assert NoRepeats(lists[j]);
      }
    }
  }

  /** One pass of the loop that advances the counters. */
  method Advance(ctr: array<nat>, sizes: seq<nat>)
    requires ctr.Length == |sizes|
    modifies ctr
    ensures ctr[..] == Carry(old(ctr[..]), sizes)
  {
    ghost var goal := Carry(ctr[..], sizes);
    var j := 0;
    assert ctr[0..] == ctr[..] && sizes[0..] == sizes;
    while j < ctr.Length
      invariant 0 <= j <= ctr.Length
      invariant ctr[..][..j] + Carry(ctr[..][j..], sizes[j..]) == goal
    {
      ghost var c := ctr[..];
      if ctr[j] + 1 < sizes[j] {
        CarryStops(c, sizes, j);
        ctr[j] := ctr[j] + 1;
        assert ctr[..] == c[j := c[j] + 1];
        return;
      }
      CarryGoesOn(c, sizes, j);
      ctr[j] := 0;
      assert ctr[..] == c[j := 0];
      j := j + 1;
    }
  }

  lemma CarryStops(c: seq<nat>, sizes: seq<nat>, j: nat)
    requires j < |c| == |sizes| && c[j] + 1 < sizes[j]
    ensures c[..j] + Carry(c[j..], sizes[j..]) == c[j := c[j] + 1]
  {
    var back := c[j..];
    assert Carry(back, sizes[j..]) == [back[0] + 1] + back[1..];
  }

  lemma CarryGoesOn(c: seq<nat>, sizes: seq<nat>, j: nat)
    requires j < |c| == |sizes| && c[j] + 1 >= sizes[j]
    ensures c[..j] + Carry(c[j..], sizes[j..]) == c[j := 0][..j + 1] + Carry(c[j := 0][j + 1..], sizes[j + 1..])
  {
    var back := c[j..];
    assert back[1..] == c[j := 0][j + 1..] && sizes[j..][1..] == sizes[j + 1..];
    assert Carry(back, sizes[j..]) == [0] + Carry(back[1..], sizes[j + 1..]);
    Reassociate(c[..j], [0], Carry(back[1..], sizes[j + 1..]));
    assert c[j := 0][..j + 1] == c[..j] + [0];
  }

  lemma Reassociate<T>(a: seq<T>, b: seq<T>, c: seq<T>)
    ensures a + (b + c) == a + b + c
  {
  }

  ghost predicate Uniform(args: seq<seq<int>>) {
    forall i, k :: 0 <= i < |args| && 0 <= k < |args| ==> |args[i]| == |args[k]|
  }

  lemma UniformAppend(args: seq<seq<int>>, lists: seq<seq<int>>)
    requires Uniform(args) && (args != [] ==> |args[0]| == |lists|)
    ensures Uniform(args + Product(lists))
  {
  }

  function Singles(list: seq<int>): (r: seq<seq<int>>)
    ensures |r| == |list| && forall i :: 0 <= i < |r| ==> r[i] == [list[i]]
  {
    seq(|list|, i requires 0 <= i < |list| => [list[i]])
  }

  method MakeList(r: Span, mult: nat) returns (list: seq<int>)
    requires mult >= 2 && Legal(r, INT64_MAX)
    ensures list == ListOf(r, mult)
  {
    var v := new Vector();
    v.AddRange(r.lo, r.hi, mult, INT64_MAX);
    list := v.items;
  }

  class Benchmark {
    var args: seq<seq<int>>
    var argNames: seq<string>
    var threadCounts: seq<int>
    var rangeMultiplier: nat

    /** All argument tuples of a family have the same length. */
    ghost predicate Valid()
      reads this
    {
      rangeMultiplier >= 2 && Uniform(args)
    }

    function ArgsCnt(): int
      reads this
    {
      if args == [] then (if argNames == [] then -1 else |argNames|) else |args[0]|
    }

    method Range(start: int, limit: int)
      requires Valid() && Legal(Span(start, limit), INT64_MAX)
      requires ArgsCnt() == -1 || ArgsCnt() == 1
      modifies this`args
      ensures Valid()
      ensures args == old(args) + Product(Lists([Span(start, limit)], rangeMultiplier))
    {
      var list := MakeList(Span(start, limit), rangeMultiplier);
      AppendSingles(list);
      SingleList(list);
      OneList(Span(start, limit), rangeMultiplier);
      UniformAppend(old(args), [list]);
    }

    /** The loop that makes every value an argument tuple of its own. */
    method AppendSingles(list: seq<int>)
      modifies this`args
      ensures args == old(args) + Singles(list)
    {
      ghost var was := args;
      var n := 0;
      while n < |list|
        invariant 0 <= n <= |list|
        invariant args == was + Singles(list)[..n]
      {
        NextRow(was, Singles(list), n);
        args := args + [[list[n]]];
        n := n + 1;
      }
      assert Singles(list)[..n] == Singles(list);
    }

    method Ranges(ranges: seq<Span>)
      requires Valid() && AllLegal(ranges)
      requires ArgsCnt() == -1 || ArgsCnt() == |ranges|
      modifies this`args
      ensures Valid()
      ensures args == old(args) + Product(Lists(ranges, rangeMultiplier))
    {
      var arglists, total := CollectLists(ranges);
      ghost var was := args;
      AppendProduct(arglists, total);
      UniformAppend(was, arglists);
    }

    /** The loop over all combinations. */
    method AppendProduct(arglists: seq<seq<int>>, total: nat)
      requires total == Count(Sizes(arglists))
      modifies this`args
      ensures args == old(args) + Product(arglists)
    {
      var ctr := new nat[|arglists|](_ => 0);
      ghost var was, rows := args, Product(arglists);
      assert ctr[..] == Zeros(|arglists|);
      FirstCounters(arglists);
      var i := 0;
      while i < total
        invariant 0 <= i <= total == |rows|
        invariant ctr[..] == CountersOf(i, arglists)
        invariant args == was + rows[..i]
      {
        var tmp := NextTuple(ctr, arglists, i);
        NextRow(was, rows, i);
        args := args + [tmp];
        i := i + 1;
      }
      assert rows[..i] == rows;
    }

    /** The loop that fills the argument lists and multiplies their sizes. */
    method CollectLists(ranges: seq<Span>) returns (arglists: seq<seq<int>>, total: nat)
      requires rangeMultiplier >= 2 && AllLegal(ranges)
      ensures arglists == Lists(ranges, rangeMultiplier)
      ensures total == Count(Sizes(arglists))
    {
      arglists, total := [], 1;
      ghost var lists := Lists(ranges, rangeMultiplier);
      var i := 0;
      while i < |ranges|
        invariant 0 <= i <= |ranges|
        invariant arglists == lists[..i]
        invariant total == Count(Sizes(arglists))
      {
        var list := MakeList(ranges[i], rangeMultiplier);
        PrefixStep(lists, i);
        CountAppend(arglists, list, total);
        arglists, total := arglists + [list], total * |list|;
        i := i + 1;
      }
    }

    method ThreadRange(minThreads: int, maxThreads: int)
      requires 0 < minThreads <= maxThreads && Fits(INT32_MAX, maxThreads)
      modifies this`threadCounts
      ensures threadCounts == old(threadCounts) + RangeOf(minThreads, maxThreads, 2)
    {
      var v := new Vector();
      v.items := threadCounts;
      v.AddRange(minThreads, maxThreads, 2, INT32_MAX);
      threadCounts := v.items;
    }
  }

  /** What the counters hold before row i, and after the last row. */
  function CountersOf(i: nat, lists: seq<seq<int>>): seq<nat> {
    if i < |Product(lists)| then Digits(i, Sizes(lists)) else Zeros(|lists|)
  }

  lemma FirstCounters(lists: seq<seq<int>>)
    ensures CountersOf(0, lists) == Zeros(|lists|)
  {
    if Count(Sizes(lists)) > 0 {
      FirstDigits(Sizes(lists));
    }
  }

  /** One round of the loop: the tuple of row i, and the counters of the next row. */
  method NextTuple(ctr: array<nat>, lists: seq<seq<int>>, i: nat) returns (tmp: seq<int>)
    requires i < |Product(lists)| && ctr[..] == CountersOf(i, lists)
    modifies ctr
    ensures tmp == Product(lists)[i]
    ensures ctr[..] == CountersOf(i + 1, lists)
  {
    ghost var sizes := Sizes(lists);
    ValueOfDigits(i, sizes);
    NextDigits(i, sizes);
    tmp := Select(ctr, lists);
    var lens := Sizes(lists);
    Advance(ctr, lens);
  }

  /** The tuple that the counters select; `at` never throws. */
  method Select(ctr: array<nat>, lists: seq<seq<int>>) returns (tmp: seq<int>)
    requires InBounds(ctr[..], Sizes(lists))
    ensures tmp == Pick(ctr[..], lists)
  {
    tmp := [];
    var j := 0;
    while j < |lists|
      invariant 0 <= j <= |lists|
      invariant tmp == Pick(ctr[..], lists)[..j]
    {
      assert ctr[..][j] == ctr[j];
      tmp := tmp + [lists[j][ctr[j]]];
      j := j + 1;
    }
  }

  lemma PrefixStep<T>(s: seq<T>, i: nat)
    requires i < |s|
    ensures s[..i] + [s[i]] == s[..i + 1]
  {
  }

  lemma NextRow<T>(was: seq<T>, rows: seq<T>, i: nat)
    requires i < |rows|
    ensures was + rows[..i] + [rows[i]] == was + rows[..i + 1]
  {
  }

  lemma FirstDigits(sizes: seq<nat>)
    requires Count(sizes) > 0
    ensures Digits(0, sizes) == Zeros(|sizes|)
  {
    ValueOfDigits(0, sizes);
    ValueOfZeros(sizes);
    PositiveSizes(sizes);
    DigitsOfValue(Zeros(|sizes|), sizes);
  }

  lemma {:induction false} PositiveSizes(sizes: seq<nat>)
    requires Count(sizes) > 0
    ensures forall j :: 0 <= j < |sizes| ==> sizes[j] > 0
  {
    if sizes != [] {
      PositiveFactors(sizes[0], Count(sizes[1..]));
      PositiveSizes(sizes[1..]);
      assert forall j :: 0 < j < |sizes| ==> sizes[j] == sizes[1..][j - 1];
    }
  }

  /** After row i the counters hold the digits of i + 1, and zeros after the last row. */
  lemma NextDigits(i: nat, sizes: seq<nat>)
    requires i < Count(sizes)
    ensures i + 1 < Count(sizes) ==> Carry(Digits(i, sizes), sizes) == Digits(i + 1, sizes)
    ensures i + 1 == Count(sizes) ==> Carry(Digits(i, sizes), sizes) == Zeros(|sizes|)
  {
    var d := Digits(i, sizes);
    ValueOfDigits(i, sizes);
    CarryCounts(d, sizes);
    CarryInBounds(d, sizes);
    DigitsOfValue(Carry(d, sizes), sizes);
    FirstDigits(sizes);
  }

  lemma CountAppend(lists: seq<seq<int>>, list: seq<int>, total: nat)
    requires total == Count(Sizes(lists))
    ensures Count(Sizes(lists + [list])) == total * |list|
  {
    assert Sizes(lists + [list]) == Sizes(lists) + [|list|];
    CountOneMore(Sizes(lists), |list|);
  }

  lemma {:induction false} CountOneMore(sizes: seq<nat>, n: nat)
    ensures Count(sizes + [n]) == Count(sizes) * n
  {
    if sizes == [] {
      assert [n][1..] == [];
    } else {
      CountOneMore(sizes[1..], n);
      assert (sizes + [n])[1..] == sizes[1..] + [n];
      assert sizes[0] * (Count(sizes[1..]) * n) == (sizes[0] * Count(sizes[1..])) * n;
    }
  }

  lemma OneList(r: Span, mult: nat)
    requires mult >= 2 && Legal(r, INT64_MAX)
    ensures Lists([r], mult) == [ListOf(r, mult)]
  {
  }

  lemma SingleList(list: seq<int>)
    ensures Product([list]) == Singles(list)
  {
    var sizes := Sizes([list]);
    assert sizes[1..] == [] && Count(sizes) == |list| * 1;
    forall i | 0 <= i < |list|
      ensures Product([list])[i] == [list[i]]
    {
      ValueOfDigits(i, sizes);
      assert InBounds([i], sizes) && Value([i], sizes) == i + sizes[0] * 0;
      DigitsOfValue([i], sizes);
    }
  }
}

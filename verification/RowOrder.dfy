/** The order of the tuples that `Benchmark::Ranges` appends. */
module RowOrder {
  import opened CartesianRanges

  /** The first range varies fastest: tuple i starts with value i of the first list, counted round and
      round, and goes on with the tuple of the other lists that is reached after as many rounds. */
  lemma FirstVariesFastest(lists: seq<seq<int>>, i: nat)
    requires lists != [] && i < |Product(lists)|
    ensures lists[0] != [] && i / |lists[0]| < |Product(lists[1..])|
    ensures Product(lists)[i] == [lists[0][i % |lists[0]|]] + Product(lists[1..])[i / |lists[0]|]
  {
    var sizes, n := Sizes(lists), |lists[0]|;
    assert sizes[1..] == Sizes(lists[1..]);
    PositiveFactors(n, Count(sizes[1..]));
    Divide(i, n, Count(sizes[1..]));
    var d := Digits(i, sizes);
    assert d == [i % n] + Digits(i / n, sizes[1..]) && d[1..] == Digits(i / n, sizes[1..]);
    ValueOfDigits(i, sizes);
    assert Product(lists)[i] == Pick(d, lists);
    ValueOfDigits(i / n, sizes[1..]);
    PickFirst(lists, d);
  }

  lemma PickFirst(lists: seq<seq<int>>, d: seq<nat>)
    requires lists != [] && InBounds(d, Sizes(lists)) && InBounds(d[1..], Sizes(lists[1..]))
    ensures Pick(d, lists) == [lists[0][d[0]]] + Pick(d[1..], lists[1..])
  {
  }

  /** Without ranges there is one tuple, the empty one. */
  lemma NoLists()
    ensures Product([]) == [[]]
  {
    assert Sizes([]) == [] && Count([]) == 1;
    assert |Product([])| == 1;
    ValueOfDigits(0, []);
    assert Product([])[0] == [];
  }
}

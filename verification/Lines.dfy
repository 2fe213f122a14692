/** A file as a sequence of lines, and as one text. */
module Lines {

  /** Where a scan over lines ended up. */
  datatype Position = Nowhere | Spot(line: nat, pos: nat)

  function Flat(lines: seq<string>): string {
    if lines == [] then "" else lines[0] + Flat(lines[1..])
  }

  /** Where line l starts in the flat text. */
  function Offset(lines: seq<string>, l: nat): nat
    requires l <= |lines|
  {
    if l == 0 then 0 else |lines[0]| + Offset(lines[1..], l - 1)
  }

  lemma {:induction false} FlatSplit(lines: seq<string>, l: nat)
    requires l <= |lines|
    ensures Flat(lines) == Flat(lines[..l]) + Flat(lines[l..])
    ensures Offset(lines, l) == |Flat(lines[..l])|
  {
    if l == 0 {
      assert lines[..0] == [] && lines[0..] == lines;
    } else {
      FlatSplit(lines[1..], l - 1);
      assert lines[..l][1..] == lines[1..][..l - 1];
      assert lines[1..][l - 1..] == lines[l..];
    }
  }

  lemma {:induction false} OffsetStep(lines: seq<string>, l: nat)
    requires l < |lines|
    ensures Offset(lines, l + 1) == Offset(lines, l) + |lines[l]|
  {
    if l > 0 {
      OffsetStep(lines[1..], l - 1);
    }
  }

  lemma {:induction false} OffsetGrows(lines: seq<string>, l: nat, k: nat)
    requires l <= k <= |lines|
    ensures Offset(lines, l) <= Offset(lines, k)
    decreases k - l
  {
    if l < k {
      OffsetStep(lines, l);
      OffsetGrows(lines, l + 1, k);
    }
  }

  /** The flat text from line l on. */
  lemma FlatFrom(lines: seq<string>, l: nat)
    requires l < |lines|
    ensures Offset(lines, l) + |lines[l]| <= |Flat(lines)|
    ensures Flat(lines)[Offset(lines, l)..] == lines[l] + Flat(lines[l + 1..])
    ensures Flat(lines)[..Offset(lines, l)] == Flat(lines[..l])
  {
    FlatSplit(lines, l);
    assert lines[l..][1..] == lines[l + 1..];
  }

  /** A position in a line and a position in the flat text are the same thing. */
  lemma SpotInFlat(lines: seq<string>, l: nat, p: nat)
    requires l < |lines| && p < |lines[l]|
    ensures Offset(lines, l) + p < |Flat(lines)|
    ensures Flat(lines)[Offset(lines, l) + p] == lines[l][p]
  {
    FlatFrom(lines, l);
    assert Flat(lines)[Offset(lines, l) + p] == Flat(lines)[Offset(lines, l)..][p];
  }

  lemma FlatBehind(lines: seq<string>, l: nat, p: nat)
    requires l < |lines| && p < |lines[l]|
    ensures Offset(lines, l) + p < |Flat(lines)|
    ensures Flat(lines)[Offset(lines, l) + p + 1..] == lines[l][p + 1..] + Flat(lines[l + 1..])
  {
    FlatFrom(lines, l);
    var o, a, b := Offset(lines, l), lines[l], Flat(lines[l + 1..]);
    SliceOfSlice(Flat(lines), o, p + 1);
    SliceOfConcat(a, b, p + 1);
  }

  lemma SliceOfSlice(s: string, i: nat, j: nat)
    requires i + j <= |s|
    ensures s[i + j..] == s[i..][j..]
  {
  }

  lemma SliceOfConcat(a: string, b: string, j: nat)
    requires j <= |a|
    ensures (a + b)[j..] == a[j..] + b
  {
  }

  lemma LaterLineIsLater(lines: seq<string>, l: nat, p: nat, k: nat, q: nat)
    requires l < k < |lines| && p < |lines[l]|
    ensures Offset(lines, l) + p < Offset(lines, k) + q
  {
    OffsetStep(lines, l);
    OffsetGrows(lines, l + 1, k);
  }

  lemma SpotIsUnique(lines: seq<string>, l: nat, p: nat, k: nat, q: nat)
    requires l < |lines| && p < |lines[l]| && k < |lines| && q < |lines[k]|
    ensures Offset(lines, l) + p == Offset(lines, k) + q <==> l == k && p == q
  {
    if l < k {
      LaterLineIsLater(lines, l, p, k, q);
    } else if k < l {
      LaterLineIsLater(lines, k, q, l, p);
    }
  }
}

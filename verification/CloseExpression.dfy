/** `CloseExpression`: the forward scan over lines, and what it finds. */
module CloseExpression {
  import opened Brackets
  import opened ForwardScan
  import opened Lines

  /** The scan from position i of line l with a given stack, to the end of the file. */
  function ScanLines(lines: seq<string>, l: nat, i: nat, st: string): Position
    requires l < |lines|
    decreases |lines| - l
  {
    match FindEnd(lines[l], i, st)
    case At(n) => Spot(l, n)
    case NoMatch => Nowhere
    case Pending(st') =>
      if st' != "" && l + 1 < |lines| then ScanLines(lines, l + 1, 0, st') else Nowhere
  }

  /** The guard at the top: an opening character, and not `<<` or `<=`. */
  predicate Starts(line: string, pos: nat)
    requires pos < |line|
  {
    && (IsOpener(line[pos]) || line[pos] == '<')
    && !(line[pos] == '<' && pos + 1 < |line| && (line[pos + 1] == '<' || line[pos + 1] == '='))
  }

  function CloseAt(lines: seq<string>, l: nat, pos: nat): Position
    requires l < |lines| && pos < |lines[l]|
  {
    if Starts(lines[l], pos) then ScanLines(lines, l, pos, "") else Nowhere
  }

  /** `CloseExpression`; failure is (number of lines, -1). */
  method CloseExpression(lines: seq<string>, linenum: nat, pos: nat)
    returns (line: string, endLine: nat, endPos: int)
    requires linenum < |lines| && pos < |lines[linenum]|
    ensures CloseAt(lines, linenum, pos) ==
      if endPos >= 0 then Spot(endLine, endPos) else Nowhere
    ensures endPos >= 0 ==> endLine < |lines| && line == lines[endLine]
    ensures endPos < 0 ==> endLine == |lines| && endPos == -1
  {
    line := lines[linenum];
    var c := line[pos];
    if !(c == '(' || c == '{' || c == '[' || c == '<') ||
       (c == '<' && pos + 1 < |line| && (line[pos + 1] == '<' || line[pos + 1] == '=')) {
      return line, |lines|, -1;
    }
    var l := linenum;
    var r := FindEndOfExpressionInLine(line, pos, "");
    if r.At? {
      return line, l, r.n;
    }
    while r.Pending? && r.stack != "" && l < |lines| - 1
      invariant l < |lines| && !r.At?
      invariant CloseAt(lines, linenum, pos) ==
        if r.Pending? && r.stack != "" && l + 1 < |lines| then ScanLines(lines, l + 1, 0, r.stack) else Nowhere
      decreases |lines| - l
    {
      l := l + 1;
      line := lines[l];
      r := FindEndOfExpressionInLine(line, 0, r.stack);
      if r.At? {
        return line, l, r.n;
      }
    }
    return line, |lines|, -1;
  }

  // ---- Across lines the scan is still plain matching ----

  /** How far (l', e) lies behind (l, i). */
  function Distance(lines: seq<string>, l: nat, i: nat, l': nat, e: nat): int
    requires l < |lines| && l' < |lines|
  {
    Offset(lines, l') + e - Offset(lines, l) - i
  }

  lemma {:induction false} ScanLinesIsMatch(lines: seq<string>, l: nat, i: nat, st: string)
    requires l < |lines| && i <= |lines[l]| && Rooted(st)
    ensures Openers(OpenBrackets(st))
    ensures var r := Match(lines[l][i..] + Flat(lines[l + 1..]), OpenBrackets(st));
      match ScanLines(lines, l, i, st)
      case Spot(l', e) =>
        && l' < |lines| && 1 <= e <= |lines[l']| && Distance(lines, l, i, l', e) >= 0
        && r == Closed(Distance(lines, l, i, l', e))
      case Nowhere => !r.Closed?
    decreases |lines| - l
  {
    var head, tail := lines[l][i..], Flat(lines[l + 1..]);
    ScanIsMatch(lines[l], i, st);
    MatchResumes(head, tail, OpenBrackets(st));
    match FindEnd(lines[l], i, st) {
      case At(n) =>
      case NoMatch =>
      case Pending(st') =>
        RootedBrackets(st');
        if l + 1 < |lines| {
          ScanLinesIsMatch(lines, l + 1, 0, st');
          assert lines[l + 1][0..] == lines[l + 1];
          assert lines[l + 1..][1..] == lines[l + 2..];
          OffsetStep(lines, l);
        }
    }
  }

  lemma FirstStep(line: string, p: nat)
    requires p < |line| && IsOpener(line[p])
    ensures FindEnd(line, p, "") == FindEnd(line, p + 1, [line[p]])
    ensures Rooted([line[p]]) && OpenBrackets([line[p]]) == [line[p]]
  {
    assert "" + [line[p]] == [line[p]] && Pop([line[p]]) == "";
  }

  lemma CloseStarts(lines: seq<string>, l: nat, p: nat)
    requires l < |lines| && p < |lines[l]| && IsOpener(lines[l][p])
    ensures CloseAt(lines, l, p) == ScanLines(lines, l, p + 1, [lines[l][p]])
    ensures Rooted([lines[l][p]]) && OpenBrackets([lines[l][p]]) == [lines[l][p]]
  {
    FirstStep(lines[l], p);
  }

  /** Started on a bracket, the scan is the plain matcher on the rest of the flat text. */
  lemma CloseIsMatch(lines: seq<string>, l: nat, p: nat)
    requires l < |lines| && p < |lines[l]| && IsOpener(lines[l][p])
    ensures Offset(lines, l) + p < |Flat(lines)| && Flat(lines)[Offset(lines, l) + p] == lines[l][p]
    ensures var r := MatchFrom(Flat(lines), Offset(lines, l) + p);
      match CloseAt(lines, l, p)
      case Spot(l', e) =>
        && l' < |lines| && 1 <= e <= |lines[l']| && Distance(lines, l, p + 1, l', e) >= 0
        && r == Closed(Distance(lines, l, p + 1, l', e))
      case Nowhere => !r.Closed?
  {
    CloseStarts(lines, l, p);
    SpotInFlat(lines, l, p);
    FlatBehind(lines, l, p);
    ScanLinesIsMatch(lines, l, p + 1, [lines[l][p]]);
  }

  /** From `(`, `[` or `{`, `CloseExpression` returns the position behind (l', q) exactly when
      the brackets at (l, p) and (l', q) belong together in the text of the whole file. */
  lemma CloseIsPair(lines: seq<string>, l: nat, p: nat, l': nat, q: nat)
    requires l < |lines| && p < |lines[l]| && IsOpener(lines[l][p])
    requires l' < |lines| && q < |lines[l']|
    ensures CloseAt(lines, l, p) == Spot(l', q + 1) <==>
      Pair(Flat(lines), Offset(lines, l) + p, Offset(lines, l') + q)
  {
    CloseIsMatch(lines, l, p);
    PairIsMatch(Flat(lines), Offset(lines, l) + p, Offset(lines, l') + q);
    match CloseAt(lines, l, p) {
      case Nowhere =>
      case Spot(m, e) => SpotIsUnique(lines, m, e - 1, l', q);
    }
  }

  /** It fails exactly when the bracket has no partner anywhere in the file. */
  lemma CloseFailsIff(lines: seq<string>, l: nat, p: nat)
    requires l < |lines| && p < |lines[l]| && IsOpener(lines[l][p])
    ensures CloseAt(lines, l, p) == Nowhere <==> !HasPartner(Flat(lines), Offset(lines, l) + p)
  {
    var text, a := Flat(lines), Offset(lines, l) + p;
    CloseIsMatch(lines, l, p);
    match CloseAt(lines, l, p) {
      case Nowhere =>
        forall b: int
          ensures !Pair(text, a, b)
        {
          PairIsMatch(text, a, b);
        }
      case Spot(m, e) =>
        CloseIsPair(lines, l, p, m, e - 1);
    }
  }

  /** The answer does not depend on how the text is split into lines. */
  lemma SplitDoesNotMatter(lines: seq<string>, l: nat, p: nat, lines2: seq<string>, l2: nat, p2: nat)
    requires l < |lines| && p < |lines[l]| && IsOpener(lines[l][p])
    requires l2 < |lines2| && p2 < |lines2[l2]|
    requires Flat(lines) == Flat(lines2) && Offset(lines, l) + p == Offset(lines2, l2) + p2
    ensures match CloseAt(lines, l, p)
      case Nowhere => CloseAt(lines2, l2, p2) == Nowhere
      case Spot(m, e) =>
        m < |lines| &&
        match CloseAt(lines2, l2, p2)
        case Nowhere => false
        case Spot(m2, e2) => m2 < |lines2| && Offset(lines, m) + e == Offset(lines2, m2) + e2
  {
    SpotInFlat(lines2, l2, p2);
    CloseIsMatch(lines, l, p);
    CloseIsMatch(lines2, l2, p2);
  }
}

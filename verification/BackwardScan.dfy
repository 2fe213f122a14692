/** cpplint's backward scanner, `FindStartOfExpressionInLine` and
    `ReverseCloseExpression`, and the round trip with the forward one. */
module BackwardScan {
  import opened Brackets
  import opened ForwardScan
  import opened Lines
  import opened CloseExpression

  /** A `>` that is no template bracket: `->`, ` >= ` and `operator>`. */
  predicate SkippedGreater(line: string, i: nat)
    requires i < |line|
  {
    i > 0 &&
    (line[i - 1] == '-' ||
     (IsSpace(line[i - 1]) && i + 2 < |line| && line[i + 1] == '=' && IsSpace(line[i + 2])) ||
     AfterOperator(line[..i]))
  }

  function FindStart(line: string, i: int, st: string): LineResult
    requires -1 <= i < |line|
    decreases i + 1
  {
    if i < 0 then Pending(st)
    else if IsCloser(line[i]) then FindStart(line, i - 1, st + [line[i]])
    else if line[i] == '>' then
      if SkippedGreater(line, i) then FindStart(line, i - 2, st)
      else FindStart(line, i - 1, st + ['>'])
    else if line[i] == '<' then
      if i > 0 && line[i - 1] == '<' then FindStart(line, i - 2, st)
      else if st == "" || Top(st) != '>' then FindStart(line, i - 1, st)
      else if Pop(st) == "" then At(i)
      else FindStart(line, i - 1, Pop(st))
    else if IsOpener(line[i]) then
      var rest := DropTops(st, '>');
      if rest == "" || line[i] != Flip(Top(rest)) then NoMatch
      else if Pop(rest) == "" then At(i)
      else FindStart(line, i - 1, Pop(rest))
    else if line[i] == ';' then
      var rest := DropTops(st, '>');
      if rest == "" then NoMatch else FindStart(line, i - 1, rest)
    else FindStart(line, i - 1, st)
  }

  /** `FindStartOfExpressionInLine`. */
  method FindStartOfExpressionInLine(line: string, endpos: int, stack: string)
    returns (r: LineResult)
    requires -1 <= endpos < |line|
    ensures r == FindStart(line, endpos, stack)
  {
    var st := stack;
    var i := endpos;
    ghost var goal := FindStart(line, endpos, stack);
    while i >= 0
      invariant -1 <= i <= endpos
      invariant FindStart(line, i, st) == goal
    {
      var c := line[i];
      if c == ')' || c == ']' || c == '}' {
        st := st + [c];
      } else if c == '>' {
        if i > 0 && (line[i - 1] == '-' ||
                     (IsSpace(line[i - 1]) && i + 2 < |line| && line[i + 1] == '=' && IsSpace(line[i + 2])) ||
                     AfterOperator(line[..i])) {
          i := i - 1;
        } else {
          st := st + ['>'];
        }
      } else if c == '<' {
        if i > 0 && line[i - 1] == '<' {
          i := i - 1;
        } else if st != "" && st[|st| - 1] == '>' {
          st := st[..|st| - 1];
          if st == "" {
            return At(i);
          }
        }
      } else if c == '(' || c == '[' || c == '{' {
        ghost var before := st;
        while st != "" && st[|st| - 1] == '>'
          invariant st <= before && DropTops(st, '>') == DropTops(before, '>')
          decreases |st|
        {
          st := st[..|st| - 1];
        }
        if st == "" {
          return NoMatch;
        }
        var top := st[|st| - 1];
        if (c == '(' && top == ')') || (c == '[' && top == ']') || (c == '{' && top == '}') {
          st := st[..|st| - 1];
          if st == "" {
            return At(i);
          }
        } else {
          return NoMatch;
        }
      } else if c == ';' {
        ghost var before := st;
        while st != "" && st[|st| - 1] == '>'
          invariant st <= before && DropTops(st, '>') == DropTops(before, '>')
          decreases |st|
        {
          st := st[..|st| - 1];
        }
        if st == "" {
          return NoMatch;
        }
      }
      i := i - 1;
    }
    return Pending(st);
  }

  function BackLines(lines: seq<string>, l: nat, i: int, st: string): Position
    requires l < |lines| && -1 <= i < |lines[l]|
    decreases l
  {
    match FindStart(lines[l], i, st)
    case At(p) => Spot(l, p)
    case NoMatch => Nowhere
    case Pending(st') =>
      if st' != "" && l > 0 then BackLines(lines, l - 1, |lines[l - 1]| - 1, st') else Nowhere
  }

  function ReverseCloseAt(lines: seq<string>, l: nat, pos: nat): Position
    requires l < |lines| && pos < |lines[l]|
  {
    if IsCloser(lines[l][pos]) || lines[l][pos] == '>' then BackLines(lines, l, pos, "") else Nowhere
  }

  /** `ReverseCloseExpression`; failure is (0, -1). */
  method ReverseCloseExpression(lines: seq<string>, linenum: nat, pos: nat)
    returns (line: string, startLine: nat, startPos: int)
    requires linenum < |lines| && pos < |lines[linenum]|
    ensures ReverseCloseAt(lines, linenum, pos) ==
      if startPos >= 0 then Spot(startLine, startPos) else Nowhere
    ensures startPos >= 0 ==> startLine < |lines| && line == lines[startLine]
    ensures startPos < 0 ==> startLine == 0 && startPos == -1
  {
    line := lines[linenum];
    var c := line[pos];
    if !(c == ')' || c == '}' || c == ']' || c == '>') {
      return line, 0, -1;
    }
    var l := linenum;
    var r := FindStartOfExpressionInLine(line, pos, "");
    if r.At? {
      return line, l, r.n;
    }
    while r.Pending? && r.stack != "" && l > 0
      invariant l < |lines| && !r.At?
      invariant ReverseCloseAt(lines, linenum, pos) ==
        if r.Pending? && r.stack != "" && l > 0 then BackLines(lines, l - 1, |lines[l - 1]| - 1, r.stack) else Nowhere
    {
      l := l - 1;
      line := lines[l];
      r := FindStartOfExpressionInLine(line, |line| - 1, r.stack);
      if r.At? {
        return line, l, r.n;
      }
    }
    return line, 0, -1;
  }

  // ---- Read in the mirror, the backward scanner is the plain matcher too ----

  function Turn(c: char): char {
    if c == '<' then '>' else if c == '>' then '<' else Flip(c)
  }

  /** The stack as a forward scanner of the mirrored text would hold it. */
  function Turned(st: string): (r: string)
    ensures |r| == |st| && forall k :: 0 <= k < |st| ==> r[k] == Turn(st[k])
  {
    seq(|st|, k requires 0 <= k < |st| => Turn(st[k]))
  }

  lemma {:induction false} TurnedDrops(st: string)
    ensures Turned(DropTops(st, '>')) == DropTops(Turned(st), '<')
    decreases |st|
  {
    if st != "" && Top(st) == '>' {
      assert Turned(Pop(st)) == Pop(Turned(st));
      TurnedDrops(Pop(st));
    }
  }

  function PlainBack(r: LineResult, i: int): Outcome {
    match r
    case At(p) => if p <= i then Closed(i - p + 1) else Failed
    case NoMatch => Failed
    case Pending(st) => Open(OpenBrackets(Turned(st)))
  }

  lemma MirrorFirst(line: string, i: nat)
    requires i < |line|
    ensures Mirror(line[..i + 1])[0] == Flip(line[i])
    ensures Mirror(line[..i + 1])[1..] == Mirror(line[..i])
  {
  }

  /** Where the scanner goes on after a character that is not a bracket. */
  function NextBack(line: string, i: nat, st: string): (r: (int, string))
    requires i < |line| && !IsOpener(line[i]) && !IsCloser(line[i]) && Rooted(Turned(st))
    ensures -1 <= r.0 < i && Rooted(Turned(r.1))
    ensures OpenBrackets(Turned(r.1)) == OpenBrackets(Turned(st))
    ensures FindStart(line, i, st) == FindStart(line, r.0, r.1)
    ensures r.0 == i - 1 || (r.0 == i - 2 && !IsOpener(line[i - 1]) && !IsCloser(line[i - 1]))
  {
    RootedBrackets(Turned(st));
    TurnedDrops(st);
    assert Turned(st + ['>']) == Turned(st) + ['<'] && Pop(Turned(st) + ['<']) == Turned(st);
    assert Turned(Pop(st)) == Pop(Turned(st));
    OperatorEnd(line[..i]);
    if line[i] == '>' then
      if SkippedGreater(line, i) then (i - 2, st) else (i - 1, st + ['>'])
    else if line[i] == '<' then
      if i > 0 && line[i - 1] == '<' then (i - 2, st)
      else if Top(st) != '>' then (i - 1, st)
      else (i - 1, Pop(st))
    else if line[i] == ';' then (i - 1, DropTops(st, '>'))
    else (i - 1, st)
  }

  /** The character the scanner jumps over after `operator` is no bracket. */
  lemma OperatorEnd(s: string)
    ensures AfterOperator(s) ==> s != "" && !IsOpener(s[|s| - 1]) && !IsCloser(s[|s| - 1])
  {
    var t := TrimRight(s);
    if AfterOperator(s) && t == s {
      assert t[|t| - 8..][7] == 'r';
    }
  }

  lemma PushCloser(st: string, c: char)
    requires Rooted(Turned(st)) && IsCloser(c)
    ensures Rooted(Turned(st + [c]))
    ensures OpenBrackets(Turned(st + [c])) == OpenBrackets(Turned(st)) + [Flip(c)]
  {
    assert Turned(st + [c]) == Turned(st) + [Flip(c)];
    assert Pop(Turned(st) + [Flip(c)]) == Turned(st);
  }

  lemma TurnedTop(st: string)
    requires st != ""
    ensures Turned(Pop(st)) == Pop(Turned(st)) && Top(Turned(st)) == Turn(Top(st))
  {
  }

  lemma TurnedCloser(c: char)
    requires IsOpener(Turn(c))
    ensures IsCloser(c) && Turn(c) == Flip(c)
  {
  }

  /** The innermost closing bracket on the stack, and what is left without it. */
  lemma PopOpener(st: string)
    requires Rooted(Turned(st))
    ensures var rest := DropTops(st, '>');
      && rest != "" && IsCloser(Top(rest))
      && OpenBrackets(Turned(st)) == OpenBrackets(Turned(Pop(rest))) + [Flip(Top(rest))]
      && (|rest| == 1 <==> |OpenBrackets(Turned(st))| == 1)
      && (|rest| > 1 ==> Rooted(Turned(Pop(rest))))
  {
    var rest := DropTops(st, '>');
    TurnedDrops(st);
    RootedBrackets(Turned(st));
    assert Rooted(Turned(rest));
    TurnedTop(rest);
    TurnedCloser(Top(rest));
    InnermostBracket(Turned(st));
  }

  /** One step of the plain matcher in the mirror. */
  lemma MirrorStep(line: string, i: nat, st: string)
    requires i < |line| && Openers(st)
    ensures Match(Mirror(line[..i + 1]), st) ==
      if IsCloser(line[i]) then Match(Mirror(line[..i]), st + [Flip(line[i])]).Shift(1)
      else if !IsOpener(line[i]) then Match(Mirror(line[..i]), st).Shift(1)
      else if line[i] != Top(st) then Failed
      else if |st| == 1 then Closed(1)
      else Match(Mirror(line[..i]), Pop(st)).Shift(1)
  {
    MirrorFirst(line, i);
  }

  lemma {:induction false} BackIsMatch(line: string, i: int, st: string)
    requires -1 <= i < |line| && Rooted(Turned(st))
    ensures Openers(OpenBrackets(Turned(st)))
    ensures PlainBack(FindStart(line, i, st), i) == Match(Mirror(line[..i + 1]), OpenBrackets(Turned(st)))
    ensures FindStart(line, i, st).At? ==> FindStart(line, i, st).n <= i
    ensures FindStart(line, i, st).Pending? ==> Rooted(Turned(FindStart(line, i, st).stack))
    decreases i + 1, 1
  {
    RootedBrackets(Turned(st));
    if i < 0 {
      assert Mirror(line[..0]) == "";
    } else {
      MirrorStep(line, i, OpenBrackets(Turned(st)));
      if IsCloser(line[i]) {
        PushCloser(st, line[i]);
        BackIsMatch(line, i - 1, st + [line[i]]);
      } else if IsOpener(line[i]) {
        BackOverOpener(line, i, st);
      } else {
        BackOverOther(line, i, st);
      }
    }
  }

  lemma {:induction false} BackOverOther(line: string, i: nat, st: string)
    requires i < |line| && Rooted(Turned(st)) && !IsOpener(line[i]) && !IsCloser(line[i])
    ensures Openers(OpenBrackets(Turned(st)))
    ensures PlainBack(FindStart(line, i, st), i) == Match(Mirror(line[..i + 1]), OpenBrackets(Turned(st)))
    ensures FindStart(line, i, st).At? ==> FindStart(line, i, st).n <= i
    ensures FindStart(line, i, st).Pending? ==> Rooted(Turned(FindStart(line, i, st).stack))
    decreases i + 1, 0
  {
    RootedBrackets(Turned(st));
    MirrorStep(line, i, OpenBrackets(Turned(st)));
    var (j, st') := NextBack(line, i, st);
    BackIsMatch(line, j, st');
    if j == i - 2 {
      MirrorStep(line, i - 1, OpenBrackets(Turned(st)));
    }
  }

  lemma {:induction false} BackOverOpener(line: string, i: nat, st: string)
    requires i < |line| && Rooted(Turned(st)) && IsOpener(line[i])
    ensures Openers(OpenBrackets(Turned(st)))
    ensures PlainBack(FindStart(line, i, st), i) == Match(Mirror(line[..i + 1]), OpenBrackets(Turned(st)))
    ensures FindStart(line, i, st).At? ==> FindStart(line, i, st).n <= i
    ensures FindStart(line, i, st).Pending? ==> Rooted(Turned(FindStart(line, i, st).stack))
    decreases i + 1, 0
  {
    var rest := DropTops(st, '>');
    RootedBrackets(Turned(st));
    MirrorStep(line, i, OpenBrackets(Turned(st)));
    PopOpener(st);
    if line[i] == Flip(Top(rest)) && |rest| > 1 {
      assert Pop(OpenBrackets(Turned(st))) == OpenBrackets(Turned(Pop(rest)));
      BackIsMatch(line, i - 1, Pop(rest));
    }
  }

  // ---- Across lines ----

  /** One line of the backward scan, in front of all earlier lines. */
  lemma BackLine(lines: seq<string>, l: nat, i: int, st: string)
    requires l < |lines| && -1 <= i < |lines[l]| && Rooted(Turned(st))
    ensures Openers(OpenBrackets(Turned(st)))
    ensures var r := Match(Mirror(Flat(lines[..l]) + lines[l][..i + 1]), OpenBrackets(Turned(st)));
      match FindStart(lines[l], i, st)
      case At(p) => p <= i && r == Closed(i - p + 1)
      case NoMatch => r == Failed
      case Pending(st') =>
        && Rooted(Turned(st')) && Openers(OpenBrackets(Turned(st'))) && st' != ""
        && r == Match(Mirror(Flat(lines[..l])), OpenBrackets(Turned(st'))).Shift(i + 1)
  {
    var tail, head := lines[l][..i + 1], Flat(lines[..l]);
    BackIsMatch(lines[l], i, st);
    MirrorConcat(head, tail);
    MatchResumes(Mirror(tail), Mirror(head), OpenBrackets(Turned(st)));
    match FindStart(lines[l], i, st) {
      case At(p) =>
      case NoMatch =>
      case Pending(st') =>
        RootedBrackets(Turned(st'));
        assert Turned(st') != "";
    }
  }

  lemma {:induction false} BackLinesIsMatch(lines: seq<string>, l: nat, i: int, st: string)
    requires l < |lines| && -1 <= i < |lines[l]| && Rooted(Turned(st))
    ensures Openers(OpenBrackets(Turned(st)))
    ensures var r := Match(Mirror(Flat(lines[..l]) + lines[l][..i + 1]), OpenBrackets(Turned(st)));
      match BackLines(lines, l, i, st)
      case Spot(l', p) =>
        && l' < |lines| && p < |lines[l']| && Distance(lines, l', p, l, i + 1) >= 0
        && r == Closed(Distance(lines, l', p, l, i + 1))
      case Nowhere => !r.Closed?
    decreases l
  {
    BackLine(lines, l, i, st);
    match FindStart(lines[l], i, st) {
      case At(p) =>
      case NoMatch =>
      case Pending(st') =>
        if l > 0 {
          var k := |lines[l - 1]| - 1;
          BackLinesIsMatch(lines, l - 1, k, st');
          assert lines[l - 1][..k + 1] == lines[l - 1];
          FlatSnoc(lines, l - 1);
          OffsetStep(lines, l - 1);
        } else {
          assert Mirror(Flat(lines[..0])) == "";
        }
    }
  }

  lemma FlatSnoc(lines: seq<string>, l: nat)
    requires l < |lines|
    ensures Flat(lines[..l + 1]) == Flat(lines[..l]) + lines[l]
  {
    FlatSplit(lines[..l + 1], l);
    assert lines[..l + 1][..l] == lines[..l];
    assert lines[..l + 1][l..] == [lines[l]];
    assert Flat([lines[l]]) == lines[l] + "";
  }

  lemma FirstBackStep(line: string, q: nat)
    requires q < |line| && IsCloser(line[q])
    ensures FindStart(line, q, "") == FindStart(line, q - 1, [line[q]])
    ensures Turned([line[q]]) == [Flip(line[q])]
    ensures Rooted([Flip(line[q])]) && OpenBrackets([Flip(line[q])]) == [Flip(line[q])]
  {
    assert "" + [line[q]] == [line[q]] && Pop([Flip(line[q])]) == "";
  }

  lemma FlatBefore(lines: seq<string>, l: nat, q: nat)
    requires l < |lines| && q <= |lines[l]|
    ensures Offset(lines, l) + q <= |Flat(lines)|
    ensures Flat(lines)[..Offset(lines, l) + q] == Flat(lines[..l]) + lines[l][..q]
  {
    FlatFrom(lines, l);
    var o := Offset(lines, l);
    assert Flat(lines)[..o + q] == Flat(lines)[..o] + Flat(lines)[o..][..q];
    assert Flat(lines)[o..][..q] == lines[l][..q];
  }

  /** Matching backwards from the bracket at b, in the mirror. */
  function MatchBack(s: string, b: nat): Outcome
    requires b < |s| && IsCloser(s[b])
  {
    Match(Mirror(s[..b]), [Flip(s[b])])
  }

  lemma ReverseCloseIsMatch(lines: seq<string>, l: nat, q: nat)
    requires l < |lines| && q < |lines[l]| && IsCloser(lines[l][q])
    ensures Offset(lines, l) + q < |Flat(lines)| && Flat(lines)[Offset(lines, l) + q] == lines[l][q]
    ensures var r := MatchBack(Flat(lines), Offset(lines, l) + q);
      match ReverseCloseAt(lines, l, q)
      case Spot(l', p) =>
        && l' < |lines| && p < |lines[l']| && Distance(lines, l', p, l, q) >= 0
        && r == Closed(Distance(lines, l', p, l, q))
      case Nowhere => !r.Closed?
  {
    FirstBackStep(lines[l], q);
    SpotInFlat(lines, l, q);
    FlatBefore(lines, l, q);
    BackLinesIsMatch(lines, l, q - 1, [lines[l][q]]);
    assert BackLines(lines, l, q, "") == BackLines(lines, l, q - 1, [lines[l][q]]);
  }

  /** A pair, seen from its closing end. */
  lemma PairIsMatchBack(s: string, a: int, b: nat)
    requires b < |s| && IsCloser(s[b])
    ensures Pair(s, a, b) <==> 0 <= a < b && MatchBack(s, b) == Closed(b - a)
  {
    if 0 <= a < b {
      var m := Mirror(s[..b]);
      MatchIsPair(m, Flip(s[b]), b - a);
      assert m[..b - a - 1] == Mirror(s[a + 1..b]);
      BalancedBackwards(s[a + 1..b]);
    }
  }

  /** From `)`, `]` or `}`, `ReverseCloseExpression` returns (l', p) exactly when the brackets at
      (l', p) and (l, q) belong together in the text of the whole file. */
  lemma ReverseCloseIsPair(lines: seq<string>, l: nat, q: nat, l': nat, p: nat)
    requires l < |lines| && q < |lines[l]| && IsCloser(lines[l][q])
    requires l' < |lines| && p < |lines[l']|
    ensures ReverseCloseAt(lines, l, q) == Spot(l', p) <==>
      Pair(Flat(lines), Offset(lines, l') + p, Offset(lines, l) + q)
  {
    ReverseCloseLands(lines, l, q, l', p);
    PairIsMatchBack(Flat(lines), Offset(lines, l') + p, Offset(lines, l) + q);
  }

  lemma ReverseCloseLands(lines: seq<string>, l: nat, q: nat, l': nat, p: nat)
    requires l < |lines| && q < |lines[l]| && IsCloser(lines[l][q])
    requires l' < |lines| && p < |lines[l']|
    ensures Offset(lines, l) + q < |Flat(lines)| && Flat(lines)[Offset(lines, l) + q] == lines[l][q]
    ensures var a, b := Offset(lines, l') + p, Offset(lines, l) + q;
            ReverseCloseAt(lines, l, q) == Spot(l', p) <==> a < b && MatchBack(Flat(lines), b) == Closed(b - a)
  {
    ReverseCloseIsMatch(lines, l, q);
    SpotDecides(lines, l, q, l', p, ReverseCloseAt(lines, l, q), MatchBack(Flat(lines), Offset(lines, l) + q));
  }

  /** A place in a line is as good as a distance in the flat text. */
  lemma SpotDecides(lines: seq<string>, l: nat, q: nat, l': nat, p: nat, at: Position, o: Outcome)
    requires l < |lines| && q < |lines[l]| && l' < |lines| && p < |lines[l']|
    requires match at
      case Spot(m, r) => m < |lines| && r < |lines[m]| && Distance(lines, m, r, l, q) >= 0
                         && o == Closed(Distance(lines, m, r, l, q))
      case Nowhere => !o.Closed?
    requires o.Closed? ==> o.n >= 1
    ensures var a, b := Offset(lines, l') + p, Offset(lines, l) + q;
            at == Spot(l', p) <==> a < b && o == Closed(b - a)
  {
    match at {
      case Nowhere =>
      case Spot(m, r) => SpotIsUnique(lines, m, r, l', p);
    }
  }

  // ---- Forward and backward undo each other ----

  /** One scanner goes from (l, p) to just behind (l', q) if and only if the other goes from
      (l', q) to (l, p). */
  lemma ForwardAndBackward(lines: seq<string>, l: nat, p: nat, l': nat, q: nat)
    requires l < |lines| && p < |lines[l]| && IsOpener(lines[l][p])
    requires l' < |lines| && q < |lines[l']| && IsCloser(lines[l'][q])
    ensures CloseAt(lines, l, p) == Spot(l', q + 1) <==> ReverseCloseAt(lines, l', q) == Spot(l, p)
  {
    CloseIsPair(lines, l, p, l', q);
    ReverseCloseIsPair(lines, l', q, l, p);
  }

  /** Closing and reopening comes back to the start. */
  lemma CloseThenReverse(lines: seq<string>, l: nat, p: nat)
    requires l < |lines| && p < |lines[l]| && IsOpener(lines[l][p])
    ensures match CloseAt(lines, l, p)
      case Spot(l', e) =>
        l' < |lines| && 1 <= e <= |lines[l']| && lines[l'][e - 1] == Flip(lines[l][p])
        && ReverseCloseAt(lines, l', e - 1) == Spot(l, p)
      case Nowhere => true
  {
    CloseIsMatch(lines, l, p);
    match CloseAt(lines, l, p) {
      case Nowhere =>
      case Spot(l', e) =>
        CloseIsPair(lines, l, p, l', e - 1);
        SpotInFlat(lines, l, p);
        SpotInFlat(lines, l', e - 1);
        ForwardAndBackward(lines, l, p, l', e - 1);
    }
  }

  lemma ReverseThenClose(lines: seq<string>, l: nat, q: nat)
    requires l < |lines| && q < |lines[l]| && IsCloser(lines[l][q])
    ensures match ReverseCloseAt(lines, l, q)
      case Spot(l', p) =>
        l' < |lines| && p < |lines[l']| && lines[l'][p] == Flip(lines[l][q])
        && CloseAt(lines, l', p) == Spot(l, q + 1)
      case Nowhere => true
  {
    ReverseCloseIsMatch(lines, l, q);
    match ReverseCloseAt(lines, l, q) {
      case Nowhere =>
      case Spot(l', p) =>
        ReverseCloseIsPair(lines, l, q, l', p);
        SpotInFlat(lines, l, q);
        SpotInFlat(lines, l', p);
        ForwardAndBackward(lines, l', p, l, q);
    }
  }
}

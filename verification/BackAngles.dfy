/** What `ReverseCloseExpression` promises when it is started on `>`. */
module BackAngles {
  import opened Brackets
  import opened ForwardScan
  import opened Lines
  import opened CloseExpression
  import opened BackwardScan
  import opened Angles

  lemma {:induction false} FindStartIsEarlier(line: string, i: int, st: string)
    requires -1 <= i < |line|
    ensures FindStart(line, i, st).At? ==> FindStart(line, i, st).n <= i
    decreases i + 1
  {
    if i >= 0 {
      var drop := DropTops(st, '>');
      FindStartIsEarlier(line, i - 1, st);
      FindStartIsEarlier(line, i - 1, st + [line[i]]);
      FindStartIsEarlier(line, i - 1, drop);
      if i > 0 {
        FindStartIsEarlier(line, i - 2, st);
      }
      if st != "" {
        FindStartIsEarlier(line, i - 1, Pop(st));
      }
      if drop != "" {
        FindStartIsEarlier(line, i - 1, Pop(drop));
      }
    }
  }

  // ---- The text between, read from right to left ----

  /** The flat text from behind q up to (l, i), in the mirror. */
  ghost function Between(lines: seq<string>, l: nat, i: int, q: nat): string
    requires l < |lines| && -1 <= i < |lines[l]| && q <= Offset(lines, l) + i
  {
    FlatFrom(lines, l);
    Mirror(Flat(lines)[q + 1..Offset(lines, l) + i + 1])
  }

  /** It unfolds into ts, and q holds `<`. */
  ghost predicate ParsesBack(lines: seq<string>, l: nat, i: int, bs: string, q: int, ts: seq<Tree>) {
    && l < |lines| && -1 <= i < |lines[l]|
    && 0 <= q <= Offset(lines, l) + i && q < |Flat(lines)| && Flat(lines)[q] == '<'
    && |ts| == |bs| + 1 && GoodTrees(ts)
    && Between(lines, l, i, q) == Unfold(ts, bs)
  }

  lemma MirrorSnoc(s: string, q: nat, a: nat)
    requires q < a < |s|
    ensures Mirror(s[q + 1..a + 1]) == [Flip(s[a])] + Mirror(s[q + 1..a])
  {
  }

  lemma OneMoreBack(lines: seq<string>, l: nat, i: nat, q: nat)
    requires l < |lines| && i < |lines[l]| && q < Offset(lines, l) + i
    ensures Between(lines, l, i, q) == [Flip(lines[l][i])] + Between(lines, l, i - 1, q)
  {
    SpotInFlat(lines, l, i);
    MirrorSnoc(Flat(lines), q, Offset(lines, l) + i);
  }

  lemma AddText(lines: seq<string>, l: nat, i: nat, bs: string, q: int, us: seq<Tree>) returns (ts: seq<Tree>)
    requires l < |lines| && i < |lines[l]| && ParsesBack(lines, l, i - 1, bs, q, us)
    requires !IsOpener(lines[l][i]) && !IsCloser(lines[l][i]) && (lines[l][i] == ';' ==> bs != "")
    ensures ParsesBack(lines, l, i, bs, q, ts)
  {
    UnfoldText(us, lines[l][i], bs);
    OneMoreBack(lines, l, i, q);
    ts := [Text(lines[l][i], us[0])] + us[1..];
  }

  lemma AddBracket(lines: seq<string>, l: nat, i: nat, bs: string, q: int, us: seq<Tree>) returns (ts: seq<Tree>)
    requires l < |lines| && i < |lines[l]| && (IsOpener(lines[l][i]) || IsCloser(lines[l][i]))
    requires IsCloser(lines[l][i]) ==> ParsesBack(lines, l, i - 1, bs + [Flip(lines[l][i])], q, us)
    requires IsOpener(lines[l][i]) ==>
      bs != "" && lines[l][i] == Top(bs) && ParsesBack(lines, l, i - 1, Pop(bs), q, us)
    ensures ParsesBack(lines, l, i, bs, q, ts)
  {
    var m := Flip(lines[l][i]);
    OneMoreBack(lines, l, i, q);
    if IsCloser(lines[l][i]) {
      UnfoldGroup(us, m, bs);
      GoodGroup(us, m);
      ts := [Group(m, us[0], us[1])] + us[2..];
    } else {
      UnfoldCloser(us, bs);
      ts := [Empty] + us;
    }
  }

  // ---- One step ----

  /** What the scanner jumps over after `operator` is no semicolon either. */
  lemma OperatorEndsNothing(s: string)
    ensures AfterOperator(s) ==> s != "" && s[|s| - 1] != ';'
  {
    var t := TrimRight(s);
    if AfterOperator(s) && t == s {
      assert t[|t| - 8..][7] == 'r';
    }
  }

  /** The stack after a character other than a bracket, unless the scan stops there. */
  lemma BackAngleStep(line: string, i: nat, st: string) returns (j: int, st': string)
    requires i < |line| && AngleStack(Turned(st)) && !IsOpener(line[i]) && !IsCloser(line[i])
    requires FindStart(line, i, st) != NoMatch && FindStart(line, i, st) != At(i)
    ensures -1 <= j < i && AngleStack(Turned(st')) && OpenBrackets(Turned(st')) == OpenBrackets(Turned(st))
    ensures FindStart(line, i, st) == FindStart(line, j, st')
    ensures j == i - 1 || (j == i - 2 && !IsOpener(line[i - 1]) && !IsCloser(line[i - 1]) && line[i - 1] != ';')
    ensures line[i] == ';' ==> j == i - 1 && OpenBrackets(Turned(st)) != ""
  {
    OperatorEnd(line[..i]);
    OperatorEndsNothing(line[..i]);
    j := if (line[i] == '>' && SkippedGreater(line, i)) || (line[i] == '<' && i > 0 && line[i - 1] == '<')
         then i - 2 else i - 1;
    st' := st;
    if j == i - 1 {
      if line[i] == '>' {
        PushGreater(st);
        st' := st + ['>'];
      } else if line[i] == '<' && Top(st) == '>' {
        PopGreater(st);
        st' := Pop(st);
      } else if line[i] == ';' {
        DropGreaters(st);
        st' := DropTops(st, '>');
      }
    }
  }

  lemma PushGreater(st: string)
    requires AngleStack(Turned(st))
    ensures AngleStack(Turned(st + ['>'])) && OpenBrackets(Turned(st + ['>'])) == OpenBrackets(Turned(st))
  {
    assert Turned(st + ['>']) == Turned(st) + ['<'] && Pop(Turned(st) + ['<']) == Turned(st);
  }

  lemma PopGreater(st: string)
    requires AngleStack(Turned(st)) && Top(st) == '>'
    ensures Pop(st) != "" ==> AngleStack(Turned(Pop(st)))
    ensures OpenBrackets(Turned(Pop(st))) == OpenBrackets(Turned(st))
  {
    TurnedTop(st);
  }

  lemma DropGreaters(st: string)
    requires AngleStack(Turned(st))
    ensures var rest := DropTops(st, '>');
      && (rest == "" <==> OpenBrackets(Turned(st)) == "")
      && (rest != "" ==> AngleStack(Turned(rest)))
      && OpenBrackets(Turned(rest)) == OpenBrackets(Turned(st))
  {
    AngleBrackets(Turned(st));
    TurnedDrops(st);
  }

  /** The stack after a bracket. */
  lemma BackBracketStep(line: string, i: nat, st: string) returns (st': string)
    requires i < |line| && AngleStack(Turned(st)) && (IsOpener(line[i]) || IsCloser(line[i]))
    requires FindStart(line, i, st) != NoMatch
    ensures AngleStack(Turned(st')) && FindStart(line, i, st) == FindStart(line, i - 1, st')
    ensures IsCloser(line[i]) ==> OpenBrackets(Turned(st')) == OpenBrackets(Turned(st)) + [Flip(line[i])]
    ensures IsOpener(line[i]) ==>
      && OpenBrackets(Turned(st)) != "" && line[i] == Top(OpenBrackets(Turned(st)))
      && OpenBrackets(Turned(st')) == Pop(OpenBrackets(Turned(st)))
  {
    if IsCloser(line[i]) {
      PushClosing(st, line[i]);
      st' := st + [line[i]];
    } else {
      PopClosing(st);
      st' := Pop(DropTops(st, '>'));
    }
  }

  lemma PushClosing(st: string, c: char)
    requires AngleStack(Turned(st)) && IsCloser(c)
    ensures AngleStack(Turned(st + [c])) && OpenBrackets(Turned(st + [c])) == OpenBrackets(Turned(st)) + [Flip(c)]
  {
    assert Turned(st + [c]) == Turned(st) + [Flip(c)] && Pop(Turned(st) + [Flip(c)]) == Turned(st);
  }

  /** The innermost closing bracket, below which there is still the `>`. */
  lemma PopClosing(st: string)
    requires AngleStack(Turned(st)) && DropTops(st, '>') != ""
    ensures var rest, bs := DropTops(st, '>'), OpenBrackets(Turned(st));
      && bs != "" && Pop(rest) != "" && Top(bs) == Flip(Top(rest)) && IsCloser(Top(rest))
      && AngleStack(Turned(Pop(rest))) && OpenBrackets(Turned(Pop(rest))) == Pop(bs)
  {
    var rest := DropTops(st, '>');
    AngleBrackets(Turned(st));
    TurnedDrops(st);
    TurnedTop(rest);
    TurnedCloser(Top(rest));
  }

  lemma StopsAtLess(lines: seq<string>, l: nat, i: nat, st: string) returns (ts: seq<Tree>)
    requires l < |lines| && i < |lines[l]| && AngleStack(Turned(st))
    requires !IsOpener(lines[l][i]) && !IsCloser(lines[l][i]) && FindStart(lines[l], i, st) == At(i)
    ensures ParsesBack(lines, l, i, OpenBrackets(Turned(st)), Offset(lines, l) + i, ts)
  {
    SpotInFlat(lines, l, i);
    FindStartIsEarlier(lines[l], i - 1, st);
    FindStartIsEarlier(lines[l], i - 1, st + ['>']);
    FindStartIsEarlier(lines[l], i - 1, Pop(st));
    FindStartIsEarlier(lines[l], i - 1, DropTops(st, '>'));
    if i > 0 {
      FindStartIsEarlier(lines[l], i - 2, st);
    }
    TurnedTop(st);
    assert lines[l][i] == '<' && Pop(st) == "" && Top(st) == '>';
    assert Turned(st) == "<" && Pop("<") == "";
    ts := [Empty];
  }

  // ---- The scan ----

  function StartOf(lines: seq<string>, r: Position): int {
    match r
    case Spot(l, p) => if l < |lines| then Offset(lines, l) + p else -1
    case Nowhere => -1
  }

  lemma SameScan(lines: seq<string>, l: nat, i: int, st: string, j: int, st': string)
    requires l < |lines| && -1 <= i < |lines[l]| && -1 <= j < |lines[l]|
    requires FindStart(lines[l], i, st) == FindStart(lines[l], j, st')
    ensures BackLines(lines, l, i, st) == BackLines(lines, l, j, st')
  {
  }

  lemma StopsAtNone(lines: seq<string>, l: nat, i: int, st: string)
    requires l < |lines| && -1 <= i < |lines[l]| && BackLines(lines, l, i, st).Spot?
    ensures FindStart(lines[l], i, st) != NoMatch
  {
  }

  lemma LineBack(lines: seq<string>, l: nat, st: string)
    requires l < |lines| && BackLines(lines, l, -1, st).Spot?
    ensures l > 0 && BackLines(lines, l, -1, st) == BackLines(lines, l - 1, |lines[l - 1]| - 1, st)
  {
    assert FindStart(lines[l], -1, st) == Pending(st);
  }

  lemma ParsesLine(lines: seq<string>, l: nat, bs: string, q: int, ts: seq<Tree>)
    requires 0 < l < |lines| && ParsesBack(lines, l - 1, |lines[l - 1]| - 1, bs, q, ts)
    ensures ParsesBack(lines, l, -1, bs, q, ts)
  {
    OffsetStep(lines, l - 1);
  }

  /** From a stack whose bottom is `>` the scan can only stop at a `<`, and what lies between is
      balanced and free of statement ends at the outer level. */
  lemma {:induction false} BackAngleScan(lines: seq<string>, l: nat, i: int, st: string, q: int)
    returns (ts: seq<Tree>)
    requires l < |lines| && -1 <= i < |lines[l]| && AngleStack(Turned(st))
    requires BackLines(lines, l, i, st).Spot? && q == StartOf(lines, BackLines(lines, l, i, st))
    ensures ParsesBack(lines, l, i, OpenBrackets(Turned(st)), q, ts)
    decreases l, i + 1, 1
  {
    if i < 0 {
      ts := BackOverLine(lines, l, st, q);
    } else if IsOpener(lines[l][i]) || IsCloser(lines[l][i]) {
      ts := BackOverBracket(lines, l, i, st, q);
    } else if FindStart(lines[l], i, st) == At(i) {
      ts := StopsAtLess(lines, l, i, st);
    } else {
      ts := BackOverText(lines, l, i, st, q);
    }
  }

  lemma {:induction false} BackOverLine(lines: seq<string>, l: nat, st: string, q: int) returns (ts: seq<Tree>)
    requires l < |lines| && AngleStack(Turned(st))
    requires BackLines(lines, l, -1, st).Spot? && q == StartOf(lines, BackLines(lines, l, -1, st))
    ensures ParsesBack(lines, l, -1, OpenBrackets(Turned(st)), q, ts)
    decreases l, 0, 0
  {
    LineBack(lines, l, st);
    ts := BackAngleScan(lines, l - 1, |lines[l - 1]| - 1, st, q);
    ParsesLine(lines, l, OpenBrackets(Turned(st)), q, ts);
  }

  lemma {:induction false} BackOverBracket(lines: seq<string>, l: nat, i: nat, st: string, q: int)
    returns (ts: seq<Tree>)
    requires l < |lines| && i < |lines[l]| && AngleStack(Turned(st))
    requires BackLines(lines, l, i, st).Spot? && q == StartOf(lines, BackLines(lines, l, i, st))
    requires IsOpener(lines[l][i]) || IsCloser(lines[l][i])
    ensures ParsesBack(lines, l, i, OpenBrackets(Turned(st)), q, ts)
    decreases l, i + 1, 0
  {
    StopsAtNone(lines, l, i, st);
    var st' := BackBracketStep(lines[l], i, st);
    SameScan(lines, l, i, st, i - 1, st');
    var us := BackAngleScan(lines, l, i - 1, st', q);
    ts := AddBracket(lines, l, i, OpenBrackets(Turned(st)), q, us);
  }

  lemma {:induction false} BackOverText(lines: seq<string>, l: nat, i: nat, st: string, q: int)
    returns (ts: seq<Tree>)
    requires l < |lines| && i < |lines[l]| && AngleStack(Turned(st))
    requires BackLines(lines, l, i, st).Spot? && q == StartOf(lines, BackLines(lines, l, i, st))
    requires !IsOpener(lines[l][i]) && !IsCloser(lines[l][i]) && FindStart(lines[l], i, st) != At(i)
    ensures ParsesBack(lines, l, i, OpenBrackets(Turned(st)), q, ts)
    decreases l, i + 1, 0
  {
    StopsAtNone(lines, l, i, st);
    var j, st' := BackAngleStep(lines[l], i, st);
    SameScan(lines, l, i, st, j, st');
    ts := BackAngleScan(lines, l, j, st', q);
    if j == i - 2 {
      ts := AddText(lines, l, i - 1, OpenBrackets(Turned(st)), q, ts);
    }
    ts := AddText(lines, l, i, OpenBrackets(Turned(st)), q, ts);
  }

  // ---- And back to the text as it stands ----

  lemma {:induction false} JoinNoStatement(t: Tree, u: Tree)
    ensures NoStatement(Join(t, u)) <==> NoStatement(t) && NoStatement(u)
  {
    match t {
      case Empty =>
      case Text(_, rest) => JoinNoStatement(rest, u);
      case Group(_, _, after) => JoinNoStatement(after, u);
    }
  }

  lemma {:induction false} MirrorNoStatement(t: Tree)
    requires NoStatement(t)
    ensures NoStatement(MirrorTree(t))
  {
    match t {
      case Empty =>
      case Text(c, rest) =>
        MirrorNoStatement(rest);
        JoinNoStatement(MirrorTree(rest), Text(c, Empty));
      case Group(o, inside, after) =>
        MirrorNoStatement(after);
        JoinNoStatement(MirrorTree(after), Group(o, MirrorTree(inside), Empty));
    }
  }

  lemma MirroredList(t: Tree, s: string)
    requires Legal(t) && NoStatement(t) && Render(t) == Mirror(s)
    ensures ArgumentList(s)
  {
    MirrorTreeRenders(t);
    MirrorNoStatement(t);
    MirrorTwice(s);
    assert Render(MirrorTree(t)) == s;
  }

  lemma FromGreater(line: string, p: nat, st: string)
    requires p < |line| && line[p] == '>' && !SkippedGreater(line, p) && st == ">"
    ensures FindStart(line, p, "") == FindStart(line, p - 1, st)
    ensures AngleStack(Turned(st)) && OpenBrackets(Turned(st)) == ""
  {
    assert "" + ['>'] == st;
    assert Turned(st) == "<" && Pop("<") == "";
  }

  /** The scan from a stack without brackets, such as that of the `>` alone. */
  lemma BackAngleList(lines: seq<string>, l: nat, i: int, st: string, r: Position)
    requires l < |lines| && -1 <= i < |lines[l]| && AngleStack(Turned(st)) && OpenBrackets(Turned(st)) == ""
    requires BackLines(lines, l, i, st) == r && r.Spot?
    ensures StopsAtList(lines, Offset(lines, l) + i + 1, r)
  {
    var q := StartOf(lines, r);
    var ts := BackAngleScan(lines, l, i, st, q);
    FlatFrom(lines, l);
    MirroredList(ts[0], Flat(lines)[q + 1..Offset(lines, l) + i + 1]);
  }

  /** The position r is that of a `<`, and what lies between it and a is an argument list. */
  ghost predicate StopsAtList(lines: seq<string>, a: int, r: Position) {
    var q := StartOf(lines, r);
    0 <= q < a <= |Flat(lines)| && Flat(lines)[q] == '<' && ArgumentList(Flat(lines)[q + 1..a])
  }

  lemma ReverseFromGreater(lines: seq<string>, l: nat, p: nat) returns (st: string)
    requires l < |lines| && p < |lines[l]| && lines[l][p] == '>' && !SkippedGreater(lines[l], p)
    ensures ReverseCloseAt(lines, l, p) == BackLines(lines, l, p - 1, st)
    ensures AngleStack(Turned(st)) && OpenBrackets(Turned(st)) == ""
  {
    st := ">";
    FromGreater(lines[l], p, st);
    SameScan(lines, l, p, "", p - 1, st);
  }

  /** When the `>` closes a list, success means that the returned position is that of a `<`, and
      that the text between is an argument list. */
  lemma BackAngleIsSound(lines: seq<string>, l: nat, p: nat)
    requires l < |lines| && p < |lines[l]| && lines[l][p] == '>' && !SkippedGreater(lines[l], p)
    requires ReverseCloseAt(lines, l, p).Spot?
    ensures StopsAtList(lines, Offset(lines, l) + p, ReverseCloseAt(lines, l, p))
  {
    var st := ReverseFromGreater(lines, l, p);
    BackAngleList(lines, l, p - 1, st, ReverseCloseAt(lines, l, p));
  }

  // ---- Exactly when ----

  /** Where a scan that has nothing on its stack starts over: at the next closing bracket or `>` that
      is not skipped, unless an opening bracket, a `;` or the start of the line comes first. */
  function Restart(line: string, i: int): (r: int)
    requires -1 <= i < |line|
    ensures -1 <= r <= i && (r >= 0 ==> IsCloser(line[r]) || (line[r] == '>' && !SkippedGreater(line, r)))
    decreases i + 1
  {
    if i < 0 || IsOpener(line[i]) || line[i] == ';' then -1
    else if IsCloser(line[i]) || (line[i] == '>' && !SkippedGreater(line, i)) then i
    else if line[i] == '>' || (line[i] == '<' && i > 0 && line[i - 1] == '<') then Restart(line, i - 2)
    else Restart(line, i - 1)
  }

  lemma {:induction false} RestartScans(line: string, i: int)
    requires -1 <= i < |line|
    ensures var r := Restart(line, i);
      if r < 0 then FindStart(line, i, "") == NoMatch || FindStart(line, i, "") == Pending("")
      else FindStart(line, i, "") == FindStart(line, r, "")
    decreases i + 1
  {
    if i >= 0 && Restart(line, i) != i && !IsOpener(line[i]) && line[i] != ';' {
      if line[i] == '>' || (line[i] == '<' && i > 0 && line[i - 1] == '<') {
        RestartScans(line, i - 2);
      } else {
        RestartScans(line, i - 1);
      }
    }
  }

  /** From a `>`, the scan over the lines is the one from the place where it starts over. */
  lemma ReverseRestarts(lines: seq<string>, l: nat, p: nat)
    requires l < |lines| && p < |lines[l]| && lines[l][p] == '>'
    ensures var r := Restart(lines[l], p);
      ReverseCloseAt(lines, l, p) == if r < 0 then Nowhere else ReverseCloseAt(lines, l, r)
  {
    var r := Restart(lines[l], p);
    RestartScans(lines[l], p);
    if r >= 0 {
      SameScan(lines, l, p, "", r, "");
    }
  }

  /** If the search succeeds, it stops at a `<`. */
  predicate AtLess(lines: seq<string>, at: Position) {
    match at
    case Spot(k, q) => k < |lines| && q < |lines[k]| && lines[k][q] == '<'
    case Nowhere => true
  }

  /** The closing bracket at b has a partner. */
  ghost predicate HasOpener(s: string, b: int) {
    exists a: int :: Pair(s, a, b)
  }

  /** From a closing bracket the search fails exactly when it has no partner anywhere in the file. */
  lemma ReverseCloseFailsIff(lines: seq<string>, l: nat, q: nat)
    requires l < |lines| && q < |lines[l]| && IsCloser(lines[l][q])
    ensures ReverseCloseAt(lines, l, q) == Nowhere <==> !HasOpener(Flat(lines), Offset(lines, l) + q)
  {
    var text, b := Flat(lines), Offset(lines, l) + q;
    ReverseCloseIsMatch(lines, l, q);
    match ReverseCloseAt(lines, l, q) {
      case Nowhere =>
        forall a: int
          ensures !Pair(text, a, b)
        {
          PairIsMatchBack(text, a, b);
        }
      case Spot(k, p) =>
        ReverseCloseIsPair(lines, l, q, k, p);
    }
  }

  /** A closing bracket of this line that has a partner in the file. */
  ghost predicate ClosesPair(lines: seq<string>, l: nat, r: int)
    requires l < |lines|
  {
    0 <= r < |lines[l]| && IsCloser(lines[l][r]) && HasOpener(Flat(lines), Offset(lines, l) + r)
  }

  lemma FromCloser(lines: seq<string>, l: nat, r: nat)
    requires l < |lines| && r < |lines[l]| && IsCloser(lines[l][r])
    ensures AtLess(lines, ReverseCloseAt(lines, l, r)) <==> !ClosesPair(lines, l, r)
  {
    ReverseCloseFailsIff(lines, l, r);
    ReverseThenClose(lines, l, r);
  }

  lemma FromUnskipped(lines: seq<string>, l: nat, r: nat)
    requires l < |lines| && r < |lines[l]| && lines[l][r] == '>' && !SkippedGreater(lines[l], r)
    ensures AtLess(lines, ReverseCloseAt(lines, l, r))
  {
    if ReverseCloseAt(lines, l, r).Spot? {
      BackAngleIsSound(lines, l, r);
      SpotIsInFile(lines, l, r);
    }
  }

  lemma FromRestart(lines: seq<string>, l: nat, r: nat)
    requires l < |lines| && r < |lines[l]|
    requires IsCloser(lines[l][r]) || (lines[l][r] == '>' && !SkippedGreater(lines[l], r))
    ensures AtLess(lines, ReverseCloseAt(lines, l, r)) <==> !ClosesPair(lines, l, r)
  {
    if IsCloser(lines[l][r]) {
      FromCloser(lines, l, r);
    } else {
      FromUnskipped(lines, l, r);
    }
  }

  /** From a `>` the search stops at a `<` or fails, except exactly when it starts over at a closing
      bracket that has a partner; then it stops where the search from that bracket does. */
  lemma AtLessIff(lines: seq<string>, l: nat, p: nat)
    requires l < |lines| && p < |lines[l]| && lines[l][p] == '>'
    ensures var at, r := ReverseCloseAt(lines, l, p), Restart(lines[l], p);
      && (AtLess(lines, at) <==> !ClosesPair(lines, l, r))
      && (r >= 0 ==> at == ReverseCloseAt(lines, l, r))
  {
    ReverseRestarts(lines, l, p);
    if Restart(lines[l], p) >= 0 {
      FromRestart(lines, l, Restart(lines[l], p));
    }
  }

  /** A position that is returned lies in the file. */
  lemma SpotIsInFile(lines: seq<string>, l: nat, p: nat)
    requires l < |lines| && p < |lines[l]| && ReverseCloseAt(lines, l, p).Spot?
    ensures var at := ReverseCloseAt(lines, l, p);
      && at.line < |lines| && at.pos < |lines[at.line]|
      && Offset(lines, at.line) + at.pos < |Flat(lines)|
      && Flat(lines)[Offset(lines, at.line) + at.pos] == lines[at.line][at.pos]
  {
    BackLinesInFile(lines, l, p, "");
    var at := ReverseCloseAt(lines, l, p);
    SpotInFlat(lines, at.line, at.pos);
  }

  lemma {:induction false} BackLinesInFile(lines: seq<string>, l: nat, i: int, st: string)
    requires l < |lines| && -1 <= i < |lines[l]|
    ensures match BackLines(lines, l, i, st)
      case Spot(k, q) => k < |lines| && q < |lines[k]|
      case Nowhere => true
    decreases l
  {
    FindStartIsEarlier(lines[l], i, st);
    match FindStart(lines[l], i, st) {
      case At(_) =>
      case NoMatch =>
      case Pending(st') =>
        if st' != "" && l > 0 {
          BackLinesInFile(lines, l - 1, |lines[l - 1]| - 1, st');
        }
    }
  }

  lemma OverParens(line: string, st: string)
    requires line == "()->" && st == ")"
    ensures FindStart(line, 1, "") == FindStart(line, 0, st) == At(0)
  {
    assert "" + [line[1]] == st;
    assert DropTops(st, '>') == st && Pop(st) == "";
  }

  /** A `>` that is skipped is not looked at: from that of `()->` one gets to the parenthesis. */
  lemma SkippedGoesWrong(line: string)
    requires line == "()->"
    ensures SkippedGreater(line, 3) && ReverseCloseAt([line], 0, 3) == Spot(0, 0)
  {
    OverParens(line, ")");
    assert FindStart(line, 3, "") == FindStart(line, 1, "");
  }
}

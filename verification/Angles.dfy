/** What `CloseExpression` promises when it is started on `<`, and exactly when. */
module Angles {
  import opened Brackets
  import opened ForwardScan
  import opened Lines
  import opened CloseExpression

  /** No `;` outside the inner brackets. */
  predicate NoStatement(t: Tree) {
    match t
    case Empty => true
    case Text(c, rest) => c != ';' && NoStatement(rest)
    case Group(_, _, after) => NoStatement(after)
  }

  /** Text that can stand between `<` and its `>`: brackets balanced, no statement end. */
  ghost predicate ArgumentList(s: string) {
    exists t :: Legal(t) && NoStatement(t) && Render(t) == s
  }

  /** The `<` at p opens a list: it is no second half of `<<` and does not follow `operator`. */
  predicate AngleOpens(line: string, p: nat)
    requires p < |line|
  {
    !IsShift(line, p) && !(p > 0 && AfterOperator(line[..p]))
  }

  predicate AngleStack(st: string) {
    st != "" && st[0] == '<' && forall k :: 0 <= k < |st| ==> IsOpener(st[k]) || st[k] == '<'
  }

  /** Balanced text for every open bracket, innermost first, and then for the list itself. */
  function Unfold(ts: seq<Tree>, bs: string): string
    requires |ts| == |bs| + 1
  {
    if bs == "" then Render(ts[0])
    else Render(ts[0]) + [Flip(Top(bs))] + Unfold(ts[1..], Pop(bs))
  }

  predicate GoodTrees(ts: seq<Tree>) {
    |ts| > 0 && NoStatement(ts[|ts| - 1]) && forall i :: 0 <= i < |ts| ==> Legal(ts[i])
  }

  lemma Regroup(o: char, a: string, c: char, b: string, rest: string)
    ensures ([o] + a + [c] + b) + rest == [o] + (a + [c] + (b + rest))
  {
  }

  lemma UnfoldGroup(us: seq<Tree>, o: char, bs: string)
    requires |us| == |bs| + 2
    ensures Unfold([Group(o, us[0], us[1])] + us[2..], bs) == [o] + Unfold(us, bs + [o])
  {
    var g := Group(o, us[0], us[1]);
    var ts := [g] + us[2..];
    var rest := if bs == "" then "" else [Flip(Top(bs))] + Unfold(us[2..], Pop(bs));
    assert us[1..][1..] == us[2..] && ts[1..] == us[2..] && us[1..][0] == us[1];
    assert Pop(bs + [o]) == bs && Top(bs + [o]) == o;
    UnfoldHead(us[1..], bs);
    UnfoldHead(ts, bs);
    UnfoldHead(us, bs + [o]);
    Regroup(o, Render(us[0]), Flip(o), Render(us[1]), rest);
  }

  lemma UnfoldHead(ts: seq<Tree>, bs: string)
    requires |ts| == |bs| + 1
    ensures Unfold(ts, bs) ==
      Render(ts[0]) + (if bs == "" then "" else [Flip(Top(bs))] + Unfold(ts[1..], Pop(bs)))
  {
  }

  lemma GoodGroup(us: seq<Tree>, o: char)
    requires |us| >= 2 && GoodTrees(us) && IsOpener(o)
    ensures GoodTrees([Group(o, us[0], us[1])] + us[2..])
  {
  }

  lemma UnfoldText(us: seq<Tree>, c: char, bs: string)
    requires |us| == |bs| + 1 && GoodTrees(us) && !IsOpener(c) && !IsCloser(c)
    requires c == ';' ==> bs != ""
    ensures var ts := [Text(c, us[0])] + us[1..];
      GoodTrees(ts) && Unfold(ts, bs) == [c] + Unfold(us, bs)
  {
    var ts := [Text(c, us[0])] + us[1..];
    assert ts[1..] == us[1..];
  }

  lemma UnfoldCloser(us: seq<Tree>, bs: string)
    requires |us| == |bs| > 0 && GoodTrees(us)
    ensures GoodTrees([Empty] + us) && Unfold([Empty] + us, bs) == [Flip(Top(bs))] + Unfold(us, Pop(bs))
  {
    assert ([Empty] + us)[1..] == us;
  }

  /** The brackets on a stack whose bottom is `<`. */
  lemma {:induction false} AngleBrackets(st: string)
    requires AngleStack(st)
    ensures var rest := DropTops(st, '<');
      && (OpenBrackets(st) == "" <==> rest == "")
      && OpenBrackets(rest) == OpenBrackets(st)
      && (rest != "" ==>
            && AngleStack(rest) && AngleStack(Pop(rest)) && IsOpener(Top(rest))
            && OpenBrackets(st) == OpenBrackets(Pop(rest)) + [Top(rest)])
    decreases |st|
  {
    if Top(st) == '<' {
      if |st| > 1 {
        AngleBrackets(Pop(st));
      } else {
        assert Pop(st) == "";
      }
    }
  }

  /** Where the scan stops. */
  function EndOf(lines: seq<string>, r: Position): int {
    match r
    case Spot(l, e) => if l < |lines| then Offset(lines, l) + e else -1
    case Nowhere => -1
  }

  /** The stack after a character other than a bracket, unless the scan stops there. */
  lemma AngleStep(line: string, i: nat, st: string) returns (st': string)
    requires i < |line| && AngleStack(st) && !IsOpener(line[i]) && !IsCloser(line[i])
    requires FindEnd(line, i, st) != NoMatch && FindEnd(line, i, st) != At(i + 1)
    ensures AngleStack(st') && OpenBrackets(st') == OpenBrackets(st)
    ensures FindEnd(line, i, st) == FindEnd(line, i + 1, st')
    ensures line[i] == ';' ==> OpenBrackets(st) != ""
  {
    AngleBrackets(st);
    assert Pop(st + ['<']) == st;
    if line[i] == '<' && IsShift(line, i) {
      st' := if Top(st) == '<' then Pop(st) else st;
    } else if line[i] == '<' && !(i > 0 && AfterOperator(line[..i])) {
      st' := st + ['<'];
    } else if line[i] == '>' && !IgnoredGreater(line, i) && Top(st) == '<' {
      st' := Pop(st);
    } else if line[i] == ';' {
      st' := DropTops(st, '<');
    } else {
      st' := st;
    }
  }

  /** The text from (l, i) up to the character before b unfolds into ts, and b - 1 holds `>`. */
  ghost predicate Parses(lines: seq<string>, l: nat, i: nat, bs: string, b: int, ts: seq<Tree>) {
    && l < |lines| && i <= |lines[l]|
    && Offset(lines, l) + i < b <= |Flat(lines)| && Flat(lines)[b - 1] == '>'
    && |ts| == |bs| + 1 && GoodTrees(ts)
    && Flat(lines)[Offset(lines, l) + i..b - 1] == Unfold(ts, bs)
  }

  lemma OneMore(lines: seq<string>, l: nat, i: nat, bs: string, b: int, us: seq<Tree>)
    requires l < |lines| && i < |lines[l]| && Parses(lines, l, i + 1, bs, b, us)
    ensures var a := Offset(lines, l) + i;
      Flat(lines)[a..b - 1] == [lines[l][i]] + Unfold(us, bs)
  {
    SpotInFlat(lines, l, i);
    var a := Offset(lines, l) + i;
    assert Flat(lines)[a..b - 1] == [Flat(lines)[a]] + Flat(lines)[a + 1..b - 1];
  }

  /** One step of the scan over a bracket. */
  lemma BracketStep(lines: seq<string>, l: nat, i: nat, st: string) returns (st': string)
    requires l < |lines| && i < |lines[l]| && AngleStack(st)
    requires ScanLines(lines, l, i, st).Spot? && (IsOpener(lines[l][i]) || IsCloser(lines[l][i]))
    ensures AngleStack(st') && ScanLines(lines, l, i, st) == ScanLines(lines, l, i + 1, st')
    ensures IsOpener(lines[l][i]) ==> OpenBrackets(st') == OpenBrackets(st) + [lines[l][i]]
    ensures IsCloser(lines[l][i]) ==>
      OpenBrackets(st) != "" && lines[l][i] == Flip(Top(OpenBrackets(st))) && OpenBrackets(st') == Pop(OpenBrackets(st))
  {
    var c := lines[l][i];
    AngleBrackets(st);
    if IsOpener(c) {
      st' := st + [c];
      assert Pop(st') == st;
    } else {
      st' := Pop(DropTops(st, '<'));
    }
    assert FindEnd(lines[l], i, st) == FindEnd(lines[l], i + 1, st');
  }

  lemma LineStep(lines: seq<string>, l: nat, i: nat, st: string)
    requires l < |lines| && i == |lines[l]| && ScanLines(lines, l, i, st).Spot?
    ensures l + 1 < |lines| && ScanLines(lines, l, i, st) == ScanLines(lines, l + 1, 0, st)
    ensures Offset(lines, l + 1) == Offset(lines, l) + i
  {
    assert FindEnd(lines[l], i, st) == Pending(st);
    OffsetStep(lines, l);
  }

  /** From a stack whose bottom is `<` the scan can only stop behind a `>`, and what lies
      between is balanced and free of statement ends at the outer level. */
  lemma {:induction false} AngleScan(lines: seq<string>, l: nat, i: nat, st: string, b: int) returns (ts: seq<Tree>)
    requires l < |lines| && i <= |lines[l]| && AngleStack(st)
    requires ScanLines(lines, l, i, st).Spot? && b == EndOf(lines, ScanLines(lines, l, i, st))
    ensures Parses(lines, l, i, OpenBrackets(st), b, ts)
    decreases |lines| - l, |lines[l]| - i, 1
  {
    if i == |lines[l]| {
      ts := AngleOverLine(lines, l, i, st, b);
    } else if IsOpener(lines[l][i]) || IsCloser(lines[l][i]) {
      ts := AngleOverBracket(lines, l, i, st, b);
    } else if FindEnd(lines[l], i, st) == At(i + 1) {
      ts := StopsHere(lines, l, i, st);
    } else {
      ts := AngleOverText(lines, l, i, st, b);
    }
  }

  lemma {:induction false} AngleOverLine(lines: seq<string>, l: nat, i: nat, st: string, b: int)
    returns (ts: seq<Tree>)
    requires l < |lines| && i == |lines[l]| && AngleStack(st)
    requires ScanLines(lines, l, i, st).Spot? && b == EndOf(lines, ScanLines(lines, l, i, st))
    ensures Parses(lines, l, i, OpenBrackets(st), b, ts)
    decreases |lines| - l, |lines[l]| - i, 0
  {
    LineStep(lines, l, i, st);
    ts := AngleScan(lines, l + 1, 0, st, b);
  }

  lemma {:induction false} AngleOverBracket(lines: seq<string>, l: nat, i: nat, st: string, b: int)
    returns (ts: seq<Tree>)
    requires l < |lines| && i < |lines[l]| && AngleStack(st)
    requires ScanLines(lines, l, i, st).Spot? && b == EndOf(lines, ScanLines(lines, l, i, st))
    requires IsOpener(lines[l][i]) || IsCloser(lines[l][i])
    ensures Parses(lines, l, i, OpenBrackets(st), b, ts)
    decreases |lines| - l, |lines[l]| - i, 0
  {
    var st' := BracketStep(lines, l, i, st);
    var us := AngleScan(lines, l, i + 1, st', b);
    ts := ParsesBracket(lines, l, i, OpenBrackets(st), b, us);
  }

  lemma {:induction false} AngleOverText(lines: seq<string>, l: nat, i: nat, st: string, b: int)
    returns (ts: seq<Tree>)
    requires l < |lines| && i < |lines[l]| && AngleStack(st)
    requires ScanLines(lines, l, i, st).Spot? && b == EndOf(lines, ScanLines(lines, l, i, st))
    requires !IsOpener(lines[l][i]) && !IsCloser(lines[l][i]) && FindEnd(lines[l], i, st) != At(i + 1)
    ensures Parses(lines, l, i, OpenBrackets(st), b, ts)
    decreases |lines| - l, |lines[l]| - i, 0
  {
    var st' := AngleStep(lines[l], i, st);
    var us := AngleScan(lines, l, i + 1, st', b);
    ts := ParsesText(lines, l, i, OpenBrackets(st), b, us);
  }

  lemma ParsesText(lines: seq<string>, l: nat, i: nat, bs: string, b: int, us: seq<Tree>) returns (ts: seq<Tree>)
    requires l < |lines| && i < |lines[l]| && Parses(lines, l, i + 1, bs, b, us)
    requires !IsOpener(lines[l][i]) && !IsCloser(lines[l][i]) && (lines[l][i] == ';' ==> bs != "")
    ensures Parses(lines, l, i, bs, b, ts)
  {
    UnfoldText(us, lines[l][i], bs);
    OneMore(lines, l, i, bs, b, us);
    ts := [Text(lines[l][i], us[0])] + us[1..];
  }

  lemma ParsesBracket(lines: seq<string>, l: nat, i: nat, bs: string, b: int, us: seq<Tree>) returns (ts: seq<Tree>)
    requires l < |lines| && i < |lines[l]| && (IsOpener(lines[l][i]) || IsCloser(lines[l][i]))
    requires IsOpener(lines[l][i]) ==> Parses(lines, l, i + 1, bs + [lines[l][i]], b, us)
    requires IsCloser(lines[l][i]) ==>
      bs != "" && lines[l][i] == Flip(Top(bs)) && Parses(lines, l, i + 1, Pop(bs), b, us)
    ensures Parses(lines, l, i, bs, b, ts)
  {
    var c := lines[l][i];
    if IsOpener(c) {
      UnfoldGroup(us, c, bs);
      GoodGroup(us, c);
      OneMore(lines, l, i, bs + [c], b, us);
      ts := [Group(c, us[0], us[1])] + us[2..];
    } else {
      UnfoldCloser(us, bs);
      OneMore(lines, l, i, Pop(bs), b, us);
      ts := [Empty] + us;
    }
  }

  lemma StopsHere(lines: seq<string>, l: nat, i: nat, st: string) returns (ts: seq<Tree>)
    requires l < |lines| && i < |lines[l]| && AngleStack(st)
    requires !IsOpener(lines[l][i]) && !IsCloser(lines[l][i]) && FindEnd(lines[l], i, st) == At(i + 1)
    ensures Parses(lines, l, i, OpenBrackets(st), Offset(lines, l) + i + 1, ts)
  {
    SpotInFlat(lines, l, i);
    AngleBrackets(st);
    FindEndIsLater(lines[l], i + 1, st);
    FindEndIsLater(lines[l], i + 1, st + ['<']);
    FindEndIsLater(lines[l], i + 1, Pop(st));
    FindEndIsLater(lines[l], i + 1, DropTops(st, '<'));
    assert st == "<";
    assert Pop(st) == "";
    ts := [Empty];
  }

  /** When the `<` opens a list, success means that the returned position lies behind its `>`
      and that the text between is an argument list. */
  lemma AngleIsSound(lines: seq<string>, l: nat, p: nat)
    requires l < |lines| && p < |lines[l]| && lines[l][p] == '<' && AngleOpens(lines[l], p)
    requires CloseAt(lines, l, p).Spot?
    ensures var a, b := Offset(lines, l) + p, EndOf(lines, CloseAt(lines, l, p));
      a + 1 < b <= |Flat(lines)| && Flat(lines)[b - 1] == '>' && ArgumentList(Flat(lines)[a + 1..b - 1])
  {
    var st := "<";
    assert "" + ['<'] == st && Pop(st) == "";
    assert FindEnd(lines[l], p, "") == FindEnd(lines[l], p + 1, st);
    assert ScanLines(lines, l, p, "") == ScanLines(lines, l, p + 1, st);
    var ts := AngleScan(lines, l, p + 1, st, EndOf(lines, CloseAt(lines, l, p)));
    assert OpenBrackets(st) == "" && Legal(ts[0]) && NoStatement(ts[0]);
  }

  // ---- Exactly when ----

  /** If `CloseExpression` succeeds from the `<` behind `before`, it stops behind a `>`. */
  ghost predicate StopsAtGreater(before: string, rest: string, more: seq<string>) {
    var lines := [before + "<" + rest] + more;
    var r := CloseAt(lines, 0, |before|);
    r.Spot? ==> 0 < EndOf(lines, r) <= |Flat(lines)| && Flat(lines)[EndOf(lines, r) - 1] == '>'
  }

  lemma ScanCloses(line: string, n: nat)
    requires n < |line| && line[n] == ')'
    ensures FindEnd(line, n, "(") == At(n + 1)
  {
    assert DropTops("(", '<') == "(" && Pop("(") == "";
  }

  lemma ScanParens(line: string, n: nat)
    requires |line| == n + 2 && line[n] == '(' && line[n + 1] == ')'
    ensures FindEnd(line, n, "") == At(n + 2)
  {
    FirstStep(line, n);
    ScanCloses(line, n + 1);
    assert [line[n]] == "(";
  }

  /** When the `<` is not taken as opening, `()` behind it is what gets closed. */
  lemma NotOpeningGoesWrong(before: string)
    requires !AngleOpens(before + "<", |before|)
    ensures CloseAt([before + "<" + "()"], 0, |before|) == Spot(0, |before| + 3)
    ensures !StopsAtGreater(before, "()", [])
  {
    var line, n := before + "<" + "()", |before|;
    assert line[..n] == (before + "<")[..n] == before;
    assert FindEnd(line, n, "") == FindEnd(line, n + 1, "");
    ScanParens(line, n + 1);
    var lines := [line];
    assert CloseAt(lines, 0, n) == Spot(0, n + 3);
    assert lines + [] == lines;
    SpotInFlat(lines, 0, n + 2);
  }

  /** The promise about `>` holds for every continuation of the line and the file exactly when
      the `<` opens a list. */
  lemma SoundIffOpening(before: string)
    ensures (forall rest, more :: StopsAtGreater(before, rest, more)) <==>
      AngleOpens(before + "<", |before|)
  {
    if AngleOpens(before + "<", |before|) {
      forall rest, more
        ensures StopsAtGreater(before, rest, more)
      {
        var lines := [before + "<" + rest] + more;
        assert lines[0][..|before|] == (before + "<")[..|before|];
        if CloseAt(lines, 0, |before|).Spot? {
          AngleIsSound(lines, 0, |before|);
        }
      }
    } else {
      NotOpeningGoesWrong(before);
    }
  }
}

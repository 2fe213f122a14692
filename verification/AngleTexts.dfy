/** What `CloseExpression` makes of a given text when it is started on `<`: exactly when it stops at
    a bracket instead of a `>`, and exactly when it finds the next `>`. */
module AngleTexts {
  import opened Brackets
  import opened ForwardScan
  import opened Lines
  import opened CloseExpression
  import opened Angles
  import AngleCharacters

  // ---- Where a scan with nothing on its stack starts over ----

  /** At the next opening bracket or opening `<`, unless a closing bracket, a `;` or the end of the
      line comes first. */
  function Restart(line: string, i: nat): (r: int)
    ensures r == -1 || (i <= r < |line| && (IsOpener(line[r]) || (line[r] == '<' && AngleOpens(line, r))))
    decreases |line| - i
  {
    if i >= |line| || IsCloser(line[i]) || line[i] == ';' then -1
    else if IsOpener(line[i]) || (line[i] == '<' && AngleOpens(line, i)) then i
    else Restart(line, i + 1)
  }

  lemma {:induction false} RestartScans(line: string, i: nat)
    ensures var r := Restart(line, i);
      if r < 0 then FindEnd(line, i, "") == NoMatch || FindEnd(line, i, "") == Pending("")
      else FindEnd(line, i, "") == FindEnd(line, r, "")
    decreases |line| - i
  {
    if i < |line| && !IsCloser(line[i]) && line[i] != ';' && Restart(line, i) != i {
      RestartScans(line, i + 1);
    }
  }

  lemma ScanRestarts(lines: seq<string>, l: nat, p: nat)
    requires l < |lines|
    ensures var r := Restart(lines[l], p);
      ScanLines(lines, l, p, "") == if r < 0 then Nowhere else ScanLines(lines, l, r, "")
  {
    RestartScans(lines[l], p);
  }

  /** If the scan succeeds, it stops behind a `>`. */
  predicate BehindGreater(lines: seq<string>, r: Position) {
    r.Spot? ==> 0 < EndOf(lines, r) <= |Flat(lines)| && Flat(lines)[EndOf(lines, r) - 1] == '>'
  }

  /** An opening bracket of this line that has a partner in the file. */
  ghost predicate OpensPair(lines: seq<string>, l: nat, r: int)
    requires l < |lines|
  {
    0 <= r < |lines[l]| && IsOpener(lines[l][r]) && HasPartner(Flat(lines), Offset(lines, l) + r)
  }

  lemma ClosesBehindCloser(lines: seq<string>, l: nat, r: nat, at: Position)
    requires l < |lines| && r < |lines[l]| && IsOpener(lines[l][r]) && at.Spot? && at == CloseAt(lines, l, r)
    ensures 0 < EndOf(lines, at) <= |Flat(lines)| && IsCloser(Flat(lines)[EndOf(lines, at) - 1])
  {
    CloseIsMatch(lines, l, r);
    CloseIsPair(lines, l, r, at.line, at.pos - 1);
  }

  lemma FailsWithoutPartner(lines: seq<string>, l: nat, r: nat, at: Position)
    requires l < |lines| && r < |lines[l]| && IsOpener(lines[l][r]) && at == CloseAt(lines, l, r)
    ensures at.Spot? <==> HasPartner(Flat(lines), Offset(lines, l) + r)
  {
    CloseFailsIff(lines, l, r);
  }

  lemma StartsAtOpener(lines: seq<string>, l: nat, r: nat)
    requires l < |lines| && r < |lines[l]| && IsOpener(lines[l][r])
    ensures CloseAt(lines, l, r) == ScanLines(lines, l, r, "")
  {
  }

  lemma FromOpener(lines: seq<string>, l: nat, r: nat, at: Position)
    requires l < |lines| && r < |lines[l]| && IsOpener(lines[l][r]) && at == ScanLines(lines, l, r, "")
    ensures BehindGreater(lines, at) <==> !OpensPair(lines, l, r)
  {
    StartsAtOpener(lines, l, r);
    FailsWithoutPartner(lines, l, r, at);
    if at.Spot? {
      ClosesBehindCloser(lines, l, r, at);
    }
  }

  lemma FromAngle(lines: seq<string>, l: nat, r: nat)
    requires l < |lines| && r < |lines[l]| && lines[l][r] == '<' && AngleOpens(lines[l], r)
    ensures BehindGreater(lines, ScanLines(lines, l, r, ""))
  {
    var st := OneAngle(lines, l, r);
    if ScanLines(lines, l, r, "").Spot? {
      var ts := AngleScan(lines, l, r + 1, st, EndOf(lines, ScanLines(lines, l, r, "")));
    }
  }

  /** The stack behind the first `<`. */
  lemma OneAngle(lines: seq<string>, l: nat, r: nat) returns (st: string)
    requires l < |lines| && r < |lines[l]| && lines[l][r] == '<' && AngleOpens(lines[l], r)
    ensures st == ['<'] && AngleStack(st) && OpenBrackets(st) == "" && Pop(st) == ""
    ensures ScanLines(lines, l, r, "") == ScanLines(lines, l, r + 1, st)
  {
    st := ['<'];
    assert "" + ['<'] == st && Pop(st) == "";
    assert FindEnd(lines[l], r, "") == FindEnd(lines[l], r + 1, st);
  }

  /** From a `<` the search stops behind a `>` or fails, except exactly when it starts over at an
      opening bracket that has a partner; then it stops where the scan from that bracket does. */
  lemma BehindGreaterIff(lines: seq<string>, l: nat, p: nat)
    requires l < |lines| && p < |lines[l]| && lines[l][p] == '<' && Starts(lines[l], p)
    ensures var at, r := CloseAt(lines, l, p), Restart(lines[l], p);
      && (BehindGreater(lines, at) <==> !OpensPair(lines, l, r))
      && (r >= 0 ==> at == ScanLines(lines, l, r, ""))
  {
    ScanRestarts(lines, l, p);
    var r := Restart(lines[l], p);
    if r >= 0 {
      if IsOpener(lines[l][r]) {
        FromOpener(lines, l, r, ScanLines(lines, l, r, ""));
      } else {
        FromAngle(lines, l, r);
      }
    }
  }

  // ---- The next `>`, with no other angle before it ----

  predicate NoAngles(s: string) {
    forall k :: 0 <= k < |s| ==> s[k] != '<' && s[k] != '>'
  }

  /** Position i of line l is place o of the flat text. */
  predicate Here(lines: seq<string>, l: nat, i: nat, o: nat) {
    l < |lines| && i <= |lines[l]| && Offset(lines, l) + i == o
  }

  /** From the end of a line to the next character. */
  lemma {:induction false} NextChar(lines: seq<string>, l: nat, i: nat, o: nat, st: string) returns (k: nat, j: nat)
    requires Here(lines, l, i, o) && o < |Flat(lines)| && st != ""
    ensures Here(lines, k, j, o) && j < |lines[k]| && lines[k][j] == Flat(lines)[o]
    ensures ScanLines(lines, l, i, st) == ScanLines(lines, k, j, st)
    decreases |lines| - l
  {
    if i < |lines[l]| {
      k, j := l, i;
      SpotInFlat(lines, l, i);
    } else {
      assert FindEnd(lines[l], i, st) == Pending(st);
      OffsetStep(lines, l);
      FlatSplit(lines, |lines|);
      assert lines[..|lines|] == lines && lines[|lines|..] == [];
      k, j := NextChar(lines, l + 1, 0, o, st);
    }
  }

  /** The stack after a character that is no angle. */
  function After(st: string, c: char): string
    requires IsCloser(c) ==> st != ""
  {
    if IsOpener(c) then st + [c] else if IsCloser(c) then Pop(st) else st
  }

  lemma OneChar(lines: seq<string>, l: nat, i: nat, o: nat, st: string) returns (k: nat, j: nat)
    requires Here(lines, l, i, o) && o < |Flat(lines)| && st != ""
    requires Flat(lines)[o] != '<' && Flat(lines)[o] != '>'
    requires IsCloser(Flat(lines)[o]) ==> Flat(lines)[o] == Flip(Top(st)) && IsOpener(Top(st)) && Pop(st) != ""
    requires Flat(lines)[o] == ';' ==> IsOpener(Top(st))
    ensures Here(lines, k, j, o + 1)
    ensures ScanLines(lines, l, i, st) == ScanLines(lines, k, j, After(st, Flat(lines)[o]))
  {
    var c := Flat(lines)[o];
    k, j := NextChar(lines, l, i, o, st);
    assert FindEnd(lines[k], j, st) == FindEnd(lines[k], j + 1, After(st, c));
    j := j + 1;
  }

  /** The text t stands at o. */
  predicate StandsAt(s: string, o: nat, t: string) {
    o + |t| <= |s| && s[o..o + |t|] == t
  }

  lemma StandsSplit(s: string, o: nat, a: string, b: string)
    requires StandsAt(s, o, a + b)
    ensures StandsAt(s, o, a) && StandsAt(s, o + |a|, b)
  {
    assert s[o..o + |a|] == (a + b)[..|a|] == a;
    assert s[o + |a|..o + |a| + |b|] == (a + b)[|a|..] == b;
  }

  lemma StandsChar(s: string, o: nat, c: char)
    requires StandsAt(s, o, [c])
    ensures o < |s| && s[o] == c
  {
    assert s[o] == s[o..o + 1][0];
  }

  lemma TextStands(s: string, o: nat, c: char, rest: string)
    requires StandsAt(s, o, [c] + rest) && NoAngles([c] + rest)
    ensures o + 1 + |rest| <= |s| && s[o] == c != '<' && c != '>'
    ensures StandsAt(s, o + 1, rest) && NoAngles(rest)
  {
    StandsSplit(s, o, [c], rest);
    StandsChar(s, o, c);
    assert ([c] + rest)[0] == c && forall n :: 0 <= n < |rest| ==> rest[n] == ([c] + rest)[n + 1];
  }

  /** The scan passes over balanced text without angles and comes out with the same stack, provided
      that no `;` stands directly in the angles. */
  lemma {:induction false} PassesOver(lines: seq<string>, l: nat, i: nat, o: nat, t: Tree, st: string)
    returns (k: nat, j: nat)
    requires Here(lines, l, i, o) && StandsAt(Flat(lines), o, Render(t)) && st != ""
    requires Legal(t) && NoAngles(Render(t)) && (NoStatement(t) || IsOpener(Top(st)))
    ensures Here(lines, k, j, o + |Render(t)|)
    ensures ScanLines(lines, l, i, st) == ScanLines(lines, k, j, st)
    decreases t, 1
  {
    match t {
      case Empty => k, j := l, i;
      case Text(c, rest) =>
        TextStands(Flat(lines), o, c, Render(rest));
        k, j := OneChar(lines, l, i, o, st);
        k, j := PassesOver(lines, k, j, o + 1, rest, st);
      case Group(open, inside, after) =>
        k, j := PassesGroup(lines, l, i, o, t, st);
    }
  }

  lemma NoAnglesInGroup(open: char, x: string, f: char, y: string)
    requires NoAngles([open] + x + [f] + y)
    ensures NoAngles(x) && NoAngles(y)
  {
    var s := [open] + x + [f] + y;
    assert forall n :: 0 <= n < |x| ==> x[n] == s[n + 1];
    assert forall n :: 0 <= n < |y| ==> y[n] == s[n + |x| + 2];
  }

  lemma GroupStands(s: string, o: nat, open: char, x: string, f: char, y: string)
    requires StandsAt(s, o, [open] + x + [f] + y)
    ensures o + 2 + |x| + |y| <= |s| && s[o] == open && s[o + 1 + |x|] == f
    ensures StandsAt(s, o + 1, x) && StandsAt(s, o + 2 + |x|, y)
  {
    StandsSplit(s, o, [open] + x + [f], y);
    StandsSplit(s, o, [open] + x, [f]);
    StandsSplit(s, o, [open], x);
    StandsChar(s, o, open);
    StandsChar(s, o + 1 + |x|, f);
  }

  lemma {:induction false} PassesGroup(lines: seq<string>, l: nat, i: nat, o: nat, t: Tree, st: string)
    returns (k: nat, j: nat)
    requires Here(lines, l, i, o) && StandsAt(Flat(lines), o, Render(t)) && st != "" && t.Group?
    requires Legal(t) && NoAngles(Render(t)) && (NoStatement(t) || IsOpener(Top(st)))
    ensures Here(lines, k, j, o + |Render(t)|)
    ensures ScanLines(lines, l, i, st) == ScanLines(lines, k, j, st)
    decreases t, 0
  {
    var Group(open, inside, after) := t;
    var x, y := Render(inside), Render(after);
    GroupStands(Flat(lines), o, open, x, Flip(open), y);
    NoAnglesInGroup(open, x, Flip(open), y);
    k, j := PassesBrackets(lines, l, i, o, open, inside, st);
    k, j := PassesOver(lines, k, j, o + 2 + |x|, after, st);
  }

  lemma {:induction false} PassesBrackets(lines: seq<string>, l: nat, i: nat, o: nat, open: char, inside: Tree,
                                          st: string) returns (k: nat, j: nat)
    requires Here(lines, l, i, o) && st != "" && IsOpener(open) && Legal(inside) && NoAngles(Render(inside))
    requires var x := Render(inside);
      && o + 1 + |x| < |Flat(lines)| && Flat(lines)[o] == open && Flat(lines)[o + 1 + |x|] == Flip(open)
      && StandsAt(Flat(lines), o + 1, x)
    ensures Here(lines, k, j, o + 2 + |Render(inside)|)
    ensures ScanLines(lines, l, i, st) == ScanLines(lines, k, j, st)
    decreases inside, 2
  {
    var st' := Pushed(st, open);
    k, j := OneChar(lines, l, i, o, st);
    k, j := PassesOver(lines, k, j, o + 1, inside, st');
    k, j := OneChar(lines, k, j, o + 1 + |Render(inside)|, st');
  }

  lemma Pushed(st: string, open: char) returns (st': string)
    requires IsOpener(open)
    ensures st' == After(st, open) && st' != "" && Top(st') == open && Pop(st') == st
    ensures IsCloser(Flip(open)) && After(st', Flip(open)) == st
  {
    st' := st + [open];
  }

  lemma TreeIsClosed(lines: seq<string>, l: nat, i: nat, t: Tree, m: nat, e: nat, st: string)
    requires st == ['<'] && Pop(st) == ""
    requires m < |lines| && e < |lines[m]| && lines[m][e] == '>' && !IgnoredGreater(lines[m], e)
    requires l < |lines| && i <= |lines[l]| && Legal(t) && NoStatement(t) && NoAngles(Render(t))
    requires Offset(lines, m) + e == Offset(lines, l) + i + |Render(t)|
    requires StandsAt(Flat(lines), Offset(lines, l) + i, Render(t))
    ensures ScanLines(lines, l, i, st) == Spot(m, e + 1)
  {
    var k, j := PassesOver(lines, l, i, Offset(lines, l) + i, t, st);
    ClosesHere(lines, k, j, m, e, st);
  }

  /** If an argument list without angles stands between, the `>` is found. */
  lemma ListIsClosed(lines: seq<string>, l: nat, p: nat, m: nat, e: nat)
    requires l < |lines| && p < |lines[l]| && lines[l][p] == '<' && AngleOpens(lines[l], p) && Starts(lines[l], p)
    requires m < |lines| && e < |lines[m]| && lines[m][e] == '>' && !IgnoredGreater(lines[m], e)
    requires Offset(lines, l) + p + 1 <= Offset(lines, m) + e <= |Flat(lines)|
    requires var between := Flat(lines)[Offset(lines, l) + p + 1..Offset(lines, m) + e];
      NoAngles(between) && ArgumentList(between)
    ensures CloseAt(lines, l, p) == Spot(m, e + 1)
  {
    var t: Tree :| Legal(t) && NoStatement(t) &&
      Render(t) == Flat(lines)[Offset(lines, l) + p + 1..Offset(lines, m) + e];
    var st := OneAngle(lines, l, p);
    TreeIsClosed(lines, l, p + 1, t, m, e, st);
  }

  lemma ClosesHere(lines: seq<string>, l: nat, i: nat, m: nat, e: nat, st: string)
    requires st == ['<'] && Pop(st) == ""
    requires m < |lines| && e < |lines[m]| && lines[m][e] == '>' && !IgnoredGreater(lines[m], e)
    requires Here(lines, l, i, Offset(lines, m) + e)
    ensures ScanLines(lines, l, i, st) == Spot(m, e + 1)
  {
    SpotInFlat(lines, m, e);
    var k, j := NextChar(lines, l, i, Offset(lines, m) + e, st);
    SpotIsUnique(lines, k, j, m, e);
    assert FindEnd(lines[m], e, st) == At(e + 1);
  }

  /** With no other angle between an opening `<` and a `>` that is neither that of `->` nor behind
      `operator`, `CloseExpression` finds this `>` if and only if an argument list stands between them. */
  lemma ClosesIffList(lines: seq<string>, l: nat, p: nat, m: nat, e: nat)
    requires l < |lines| && AngleCharacters.Opening(lines[l], p)
    requires m < |lines| && e < |lines[m]| && lines[m][e] == '>'
    requires e > 0 ==> lines[m][e - 1] != '-' && !AngleCharacters.OperatorBefore(lines[m], e - 1)
    requires Offset(lines, l) + p + 1 <= Offset(lines, m) + e <= |Flat(lines)|
    requires NoAngles(Flat(lines)[Offset(lines, l) + p + 1..Offset(lines, m) + e])
    ensures CloseAt(lines, l, p) == Spot(m, e + 1) <==>
      ArgumentList(Flat(lines)[Offset(lines, l) + p + 1..Offset(lines, m) + e])
  {
    AngleCharacters.AngleOpensIs(lines[l], p);
    AngleCharacters.IgnoredIs(lines[m], e);
    if ArgumentList(Flat(lines)[Offset(lines, l) + p + 1..Offset(lines, m) + e]) {
      ListIsClosed(lines, l, p, m, e);
    }
    if CloseAt(lines, l, p) == Spot(m, e + 1) {
      AngleIsSound(lines, l, p);
    }
  }
}

/** What `CloseExpression` finds from a `<` that opens a list: on every text, exactly the `>` behind a
    template argument list of the grammar, with the characters read as the source reads them. */
module AngleLists {
  import opened Brackets
  import opened ForwardScan
  import opened Lines
  import opened CloseExpression
  import opened Angles
  import opened AngleGrammar
  import opened AngleCharacters

  /** What the character at i counts as. */
  ghost function ClassOf(line: string, i: nat): Token
    requires i < |line|
  {
    var c := line[i];
    if c == '(' || c == '[' || c == '{' then Opens(c)
    else if c == ')' || c == ']' || c == '}' then Closes(c)
    else if c == ';' then Semi
    else if c == '<' then
      if i > 0 && line[i - 1] == '<' then Shift
      else if OperatorBefore(line, i) then Other
      else Less
    else if c == '>' then
      if i > 0 && (line[i - 1] == '-' || OperatorBefore(line, i - 1)) then Other else Greater
    else Other
  }

  /** What a move of the machine makes of the rest of the line. */
  function Moved(line: string, i: nat, move: Move): LineResult {
    match move
    case Go(st) => FindEnd(line, i + 1, st)
    case Stop => At(i + 1)
    case Bad => NoMatch
  }

  /** The scanner reads one character as the machine does its token. */
  lemma OneStep(line: string, i: nat, st: string)
    requires i < |line|
    ensures FindEnd(line, i, st) == Moved(line, i, Next(ClassOf(line, i), st))
  {
    if line[i] == '<' {
      OperatorIs(line, i);
    } else if line[i] == '>' {
      IgnoredIs(line, i);
    }
  }

  // ---- The tokens of a file ----

  ghost function LineTokens(line: string): (r: seq<Token>)
    ensures |r| == |line| && forall i :: 0 <= i < |line| ==> r[i] == ClassOf(line, i)
  {
    seq(|line|, i requires 0 <= i < |line| => ClassOf(line, i))
  }

  ghost function TokensOf(lines: seq<string>): (r: seq<Token>)
    ensures |r| == |Flat(lines)| && Proper(r)
  {
    if lines == [] then [] else LineTokens(lines[0]) + TokensOf(lines[1..])
  }

  lemma {:induction false} TokenAt(lines: seq<string>, l: nat, p: nat)
    requires l < |lines| && p < |lines[l]|
    ensures Offset(lines, l) + p < |TokensOf(lines)|
    ensures TokensOf(lines)[Offset(lines, l) + p] == ClassOf(lines[l], p)
    decreases l
  {
    if l > 0 {
      TokenAt(lines[1..], l - 1, p);
    }
  }

  // ---- The scan over lines is the machine on the tokens ----

  ghost predicate SameEnd(lines: seq<string>, at: Position, r: Result) {
    match at
    case Spot(m, e) => m < |lines| && 1 <= e <= |lines[m]| && r == Done(Offset(lines, m) + e)
    case Nowhere => !r.Done?
  }

  lemma EndOfLine(lines: seq<string>, l: nat, st: string)
    requires l < |lines| && st != ""
    ensures l + 1 < |lines| ==>
      && ScanLines(lines, l, |lines[l]|, st) == ScanLines(lines, l + 1, 0, st)
      && Offset(lines, l + 1) == Offset(lines, l) + |lines[l]|
    ensures l + 1 == |lines| ==>
      ScanLines(lines, l, |lines[l]|, st) == Nowhere && Offset(lines, l) + |lines[l]| == |TokensOf(lines)|
  {
    assert FindEnd(lines[l], |lines[l]|, st) == Pending(st);
    OffsetStep(lines, l);
    if l + 1 == |lines| {
      FlatSplit(lines, l + 1);
      assert lines[..l + 1] == lines;
    }
  }

  lemma GoesOn(lines: seq<string>, l: nat, i: nat, st: string, st': string)
    requires l < |lines| && FindEnd(lines[l], i, st) == FindEnd(lines[l], i + 1, st')
    ensures ScanLines(lines, l, i, st) == ScanLines(lines, l, i + 1, st')
  {
  }

  lemma StackStays(t: Token, st: string)
    requires st != "" && Next(t, st).Go?
    ensures Next(t, st).stack != ""
  {
  }

  lemma {:induction false} ScanIsMachine(lines: seq<string>, l: nat, i: nat, st: string)
    requires l < |lines| && i <= |lines[l]| && st != ""
    ensures SameEnd(lines, ScanLines(lines, l, i, st), Scan(TokensOf(lines), Offset(lines, l) + i, st))
    decreases |lines| - l, |lines[l]| - i
  {
    if i == |lines[l]| {
      EndOfLine(lines, l, st);
      if l + 1 < |lines| {
        ScanIsMachine(lines, l + 1, 0, st);
      }
    } else {
      TokenAt(lines, l, i);
      OneStep(lines[l], i, st);
      match Next(ClassOf(lines[l], i), st) {
        case Go(st') =>
          StackStays(ClassOf(lines[l], i), st);
          GoesOn(lines, l, i, st, st');
          ScanIsMachine(lines, l, i + 1, st');
        case Stop =>
        case Bad =>
      }
    }
  }

  // ---- From a `<` ----

  /** Between places a and b stands a list. */
  ghost predicate ListIn(ts: seq<Token>, a: int, b: int) {
    0 <= a <= b <= |ts| && IsList(ts[a..b])
  }

  lemma FirstLess(lines: seq<string>, l: nat, p: nat) returns (st: string)
    requires l < |lines| && Opening(lines[l], p)
    ensures st == ['<'] && CloseAt(lines, l, p) == ScanLines(lines, l, p + 1, st)
  {
    st := ['<'];
    assert "" + ['<'] == st;
    OneStep(lines[l], p, "");
    GoesOn(lines, l, p, "", st);
  }

  lemma MachineStops(ts: seq<Token>, a: nat, b: nat, st: string)
    requires Proper(ts) && st == ['<'] && b < |ts|
    ensures Scan(ts, a, st) == Done(b + 1) <==> ts[b] == Greater && ListIn(ts, a, b)
  {
    if a <= b {
      StopsIffList(ts, a, b + 1, st);
    } else {
      StopsLater(ts, a, st);
    }
  }

  /** The search from an opening `<` is the machine. */
  lemma FromLess(lines: seq<string>, l: nat, p: nat, m: nat, e: nat, ts: seq<Token>, a: nat, b: nat)
    requires l < |lines| && Opening(lines[l], p) && m < |lines| && e < |lines[m]|
    requires ts == TokensOf(lines) && a == Offset(lines, l) + p + 1 && b == Offset(lines, m) + e
    ensures b < |ts| && (CloseAt(lines, l, p) == Spot(m, e + 1) <==> Scan(ts, a, ['<']) == Done(b + 1))
  {
    var st := FirstLess(lines, l, p);
    ScanIsMachine(lines, l, p + 1, st);
    TokenAt(lines, m, e);
    SameSpot(lines, CloseAt(lines, l, p), Scan(ts, a, st), m, e);
  }

  lemma ClosesThere(lines: seq<string>, l: nat, p: nat, m: nat, e: nat, ts: seq<Token>, a: nat, b: nat)
    requires l < |lines| && Opening(lines[l], p) && m < |lines| && e < |lines[m]|
    requires ts == TokensOf(lines) && a == Offset(lines, l) + p + 1 && b == Offset(lines, m) + e
    ensures b < |ts| && (CloseAt(lines, l, p) == Spot(m, e + 1) <==> ts[b] == Greater && ListIn(ts, a, b))
  {
    FromLess(lines, l, p, m, e, ts, a, b);
    MachineStops(ts, a, b, ['<']);
  }

  /** From an opening `<`, `CloseExpression` returns the place behind (m, e) if and only if there is a
      `>` that counts, and what stands between is a list. */
  lemma ClosesIff(lines: seq<string>, l: nat, p: nat, m: nat, e: nat)
    requires l < |lines| && Opening(lines[l], p)
    requires m < |lines| && e < |lines[m]|
    ensures CloseAt(lines, l, p) == Spot(m, e + 1) <==>
      ClassOf(lines[m], e) == Greater && ListIn(TokensOf(lines), Offset(lines, l) + p + 1, Offset(lines, m) + e)
  {
    TokenAt(lines, m, e);
    ClosesThere(lines, l, p, m, e, TokensOf(lines), Offset(lines, l) + p + 1, Offset(lines, m) + e);
  }

  lemma SameSpot(lines: seq<string>, at: Position, r: Result, m: nat, e: nat)
    requires SameEnd(lines, at, r) && m < |lines| && e < |lines[m]|
    ensures at == Spot(m, e + 1) <==> r == Done(Offset(lines, m) + e + 1)
  {
    if at.Spot? {
      SpotIsUnique(lines, at.line, at.pos - 1, m, e);
    }
  }

  lemma {:induction false} StopsLater(ts: seq<Token>, i: nat, st: string)
    ensures Scan(ts, i, st).Done? ==> i < Scan(ts, i, st).n <= |ts|
    decreases |ts| - i
  {
    if i < |ts| && Next(ts[i], st).Go? {
      StopsLater(ts, i + 1, Next(ts[i], st).stack);
    }
  }

  // ---- In characters alone ----

  /** Where the search stops there is a `>` that is not that of `->`, and with no `operator` and blanks
      before the character in front of it. */
  lemma StopsBehindGreater(lines: seq<string>, l: nat, p: nat, m: nat, n: nat)
    requires l < |lines| && Opening(lines[l], p) && CloseAt(lines, l, p) == Spot(m, n)
    ensures m < |lines| && 1 <= n <= |lines[m]| && lines[m][n - 1] == '>'
    ensures n > 1 ==> lines[m][n - 2] != '-' && !OperatorBefore(lines[m], n - 2)
  {
    var st := FirstLess(lines, l, p);
    ScanIsMachine(lines, l, p + 1, st);
    ClosesIff(lines, l, p, m, n - 1);
  }

  /** A `>` that stands behind neither closes the innermost `<`, and the search if that is the last. */
  lemma GreaterCloses(line: string, i: nat, st: string)
    requires i < |line| && line[i] == '>' && st != "" && Top(st) == '<'
    requires i > 0 ==> line[i - 1] != '-' && !OperatorBefore(line, i - 1)
    ensures FindEnd(line, i, st) == if Pop(st) == "" then At(i + 1) else FindEnd(line, i + 1, Pop(st))
  {
    OneStep(line, i, st);
  }

  /** Any other `>` is passed over. */
  lemma GreaterIsPassed(line: string, i: nat, st: string)
    requires 0 < i < |line| && line[i] == '>' && (line[i - 1] == '-' || OperatorBefore(line, i - 1))
    ensures FindEnd(line, i, st) == FindEnd(line, i + 1, st)
  {
    OneStep(line, i, st);
  }

  /** There is no search from any other character than `(`, `[`, `{` and `<`, nor from the `<` of
      `<<` and `<=`. */
  lemma NoSearch(lines: seq<string>, l: nat, p: nat)
    requires l < |lines| && p < |lines[l]|
    requires lines[l][p] in "([{<" ==> lines[l][p] == '<' && p + 1 < |lines[l]| && lines[l][p + 1] in "<="
    ensures CloseAt(lines, l, p) == Nowhere
  {
  }

  /** The closer is the one of the same kind. */
  lemma ClosesItsKind(lines: seq<string>, l: nat, p: nat, m: nat, n: nat)
    requires l < |lines| && p < |lines[l]| && lines[l][p] in "([{" && CloseAt(lines, l, p) == Spot(m, n)
    ensures m < |lines| && 1 <= n <= |lines[m]|
    ensures [lines[l][p], lines[m][n - 1]] in ["()", "[]", "{}"]
  {
    CloseIsMatch(lines, l, p);
    CloseIsPair(lines, l, p, m, n - 1);
    SpotInFlat(lines, l, p);
    SpotInFlat(lines, m, n - 1);
  }
}

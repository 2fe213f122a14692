/** What `ReverseCloseExpression` finds from a `>`: on every text, exactly the `<` before a template
    argument list, which it reads from its end. */
module BackLists {
  import opened Brackets
  import opened ForwardScan
  import opened Lines
  import opened CloseExpression
  import opened BackwardScan
  import opened AngleGrammar
  import opened AngleCharacters
  import opened AngleLists

  /** The number of `<` that stand directly behind i. */
  function LessBehind(line: string, i: nat): nat
    decreases |line| - i
  {
    if i + 1 < |line| && line[i + 1] == '<' then 1 + LessBehind(line, i + 1) else 0
  }

  /** A `>` that belongs to `->`, to ` >= ` or to an operator. */
  ghost predicate Skipped(line: string, i: nat)
    requires i < |line|
  {
    && i > 0
    && (line[i - 1] == '-'
        || (Blank(line[i - 1]) && i + 2 < |line| && line[i + 1] == '=' && Blank(line[i + 2]))
        || OperatorBefore(line, i))
  }

  /** What the character at i counts as, read backwards. Of `<` next to each other only the first
      counts, and only if their number is odd. */
  ghost function BackClass(line: string, i: nat): Token
    requires i < |line|
  {
    var c := line[i];
    if c == ')' || c == ']' || c == '}' then Opens(Flip(c))
    else if c == '(' || c == '[' || c == '{' then Closes(Flip(c))
    else if c == ';' then Semi
    else if c == '>' then
      if Skipped(line, i) then Other else Less
    else if c == '<' then
      if (i > 0 && line[i - 1] == '<') || LessBehind(line, i) % 2 == 1 then Other else Greater
    else Other
  }

  // ---- One step ----

  /** Where the scanner may stand: not in the middle of a `<<`. */
  predicate Aligned(line: string, i: int)
    requires -1 <= i < |line|
  {
    i >= 0 && line[i] == '<' ==> LessBehind(line, i) % 2 == 0
  }

  /** The scanner goes on at j, past what counts for nothing. */
  ghost predicate GoesTo(line: string, i: nat, j: int)
    requires i < |line|
  {
    -1 <= j < |line| && Aligned(line, j) && (j == i - 1 || (j == i - 2 && BackClass(line, i - 1) == Other))
  }

  /** The scanner at i and the machine at the token of i do the same. */
  ghost predicate SameMove(line: string, i: nat, st: string, j: int, st': string)
    requires i < |line|
  {
    match Next(BackClass(line, i), Turned(st))
    case Go(s) => GoesTo(line, i, j) && FindStart(line, i, st) == FindStart(line, j, st') && Turned(st') == s
    case Stop => FindStart(line, i, st) == At(i)
    case Bad => FindStart(line, i, st) == NoMatch
  }

  lemma BehindSkipped(line: string, i: nat)
    requires i < |line| && Skipped(line, i)
    ensures BackClass(line, i - 1) == Other && line[i - 1] != '<'
  {
    if OperatorBefore(line, i) {
      var k: nat :| OperatorAt(line, k, i);
      assert line[k + 7] == line[k..k + 8][7] == 'r';
    }
  }

  lemma TurnedPush(st: string, c: char)
    ensures Turned(st + [c]) == Turned(st) + [Turn(c)]
  {
  }

  lemma StepCloser(line: string, i: nat, st: string) returns (j: int, st': string)
    requires i < |line| && (line[i] == ')' || line[i] == ']' || line[i] == '}')
    ensures SameMove(line, i, st, j, st')
  {
    j, st' := i - 1, st + [line[i]];
    TurnedPush(st, line[i]);
  }

  lemma StepOpener(line: string, i: nat, st: string) returns (j: int, st': string)
    requires i < |line| && (line[i] == '(' || line[i] == '[' || line[i] == '{')
    ensures SameMove(line, i, st, j, st')
  {
    var rest := DropTops(st, '>');
    TurnedDrops(st);
    j, st' := i - 1, "";
    if rest != "" {
      TurnedTop(rest);
      FlipsMeet(line[i], Top(rest));
      st' := Pop(rest);
    }
  }

  lemma FlipsMeet(o: char, t: char)
    requires IsOpener(o) && t != '>'
    ensures o != Flip(t) <==> Flip(o) != Flip(Turn(t))
  {
  }

  lemma StepGreater(line: string, i: nat, st: string) returns (j: int, st': string)
    requires i < |line| && line[i] == '>'
    ensures SameMove(line, i, st, j, st')
  {
    SkippedIs(line, i);
    if Skipped(line, i) {
      BehindSkipped(line, i);
      j, st' := i - 2, st;
    } else {
      j, st' := i - 1, st + ['>'];
      TurnedPush(st, '>');
    }
  }

  lemma StepLess(line: string, i: nat, st: string) returns (j: int, st': string)
    requires i < |line| && line[i] == '<' && Aligned(line, i)
    ensures SameMove(line, i, st, j, st')
  {
    j, st' := i - 1, st;
    if i > 0 && line[i - 1] == '<' {
      j := i - 2;
    } else if st != "" {
      TurnedTop(st);
      if Top(st) == '>' {
        st' := Pop(st);
      }
    }
  }

  lemma NextOfSemi(st: string, rest: string)
    requires rest == DropTops(st, '>')
    ensures Next(Semi, Turned(st)) == if rest == "" then Bad else Go(Turned(rest))
  {
    TurnedDrops(st);
    assert |Turned(rest)| == |rest|;
  }

  lemma SemiMoves(line: string, i: nat, st: string, rest: string)
    requires i < |line| && line[i] == ';' && rest == DropTops(st, '>')
    ensures BackClass(line, i) == Semi
    ensures FindStart(line, i, st) == if rest == "" then NoMatch else FindStart(line, i - 1, rest)
  {
  }

  lemma StepSemi(line: string, i: nat, st: string) returns (j: int, st': string)
    requires i < |line| && line[i] == ';'
    ensures SameMove(line, i, st, j, st')
  {
    j, st' := i - 1, DropTops(st, '>');
    NextOfSemi(st, st');
    SemiMoves(line, i, st, st');
    assert st' != "" ==> GoesTo(line, i, j);
  }

  /** The scanner reads one character as the machine does its token. */
  lemma OneStepBack(line: string, i: nat, st: string) returns (j: int, st': string)
    requires i < |line| && Aligned(line, i)
    ensures SameMove(line, i, st, j, st')
  {
    if line[i] == ')' || line[i] == ']' || line[i] == '}' {
      j, st' := StepCloser(line, i, st);
    } else if line[i] == '(' || line[i] == '[' || line[i] == '{' {
      j, st' := StepOpener(line, i, st);
    } else if line[i] == '>' {
      j, st' := StepGreater(line, i, st);
    } else if line[i] == '<' {
      j, st' := StepLess(line, i, st);
    } else if line[i] == ';' {
      j, st' := StepSemi(line, i, st);
    } else {
      j, st' := i - 1, st;
    }
  }

  // ---- The tokens of a file, from its end ----

  ghost function LineBackTokens(line: string): (r: seq<Token>)
    ensures |r| == |line| && forall i :: 0 <= i < |line| ==> r[i] == BackClass(line, i)
  {
    seq(|line|, i requires 0 <= i < |line| => BackClass(line, i))
  }

  ghost function BackTokens(lines: seq<string>): (r: seq<Token>)
    ensures |r| == |Flat(lines)| && Proper(r)
  {
    if lines == [] then [] else LineBackTokens(lines[0]) + BackTokens(lines[1..])
  }

  function Reversed<T>(s: seq<T>): (r: seq<T>)
    ensures |r| == |s| && forall k :: 0 <= k < |s| ==> r[k] == s[|s| - 1 - k]
  {
    seq(|s|, k requires 0 <= k < |s| => s[|s| - 1 - k])
  }

  lemma {:induction false} BackTokenAt(lines: seq<string>, l: nat, p: nat)
    requires l < |lines| && p < |lines[l]|
    ensures Offset(lines, l) + p < |BackTokens(lines)|
    ensures BackTokens(lines)[Offset(lines, l) + p] == BackClass(lines[l], p)
    decreases l
  {
    if l > 0 {
      BackTokenAt(lines[1..], l - 1, p);
    }
  }

  /** The place of (l, i), counted from the end. */
  ghost function FromEnd(lines: seq<string>, l: nat, i: int): int
    requires l < |lines|
  {
    |Flat(lines)| - 1 - Offset(lines, l) - i
  }

  lemma ReversedAt(lines: seq<string>, l: nat, i: nat)
    requires l < |lines| && i < |lines[l]|
    ensures 0 <= FromEnd(lines, l, i) < |Flat(lines)|
    ensures Reversed(BackTokens(lines))[FromEnd(lines, l, i)] == BackClass(lines[l], i)
  {
    BackTokenAt(lines, l, i);
  }

  lemma ReversedProper(ts: seq<Token>)
    requires Proper(ts)
    ensures Proper(Reversed(ts))
  {
  }

  // ---- The scan over lines is the machine on the reversed tokens ----

  ghost predicate SameStart(lines: seq<string>, at: Position, r: Result) {
    match at
    case Spot(k, q) => k < |lines| && q < |lines[k]| && r.Done? && r.n == FromEnd(lines, k, q) + 1
    case Nowhere => !r.Done?
  }

  lemma StartOfLine(lines: seq<string>, l: nat, st: string)
    requires l < |lines| && st != ""
    ensures l > 0 ==>
      && BackLines(lines, l, -1, st) == BackLines(lines, l - 1, |lines[l - 1]| - 1, st)
      && FromEnd(lines, l, -1) == FromEnd(lines, l - 1, |lines[l - 1]| - 1)
      && Aligned(lines[l - 1], |lines[l - 1]| - 1)
    ensures l == 0 ==> BackLines(lines, l, -1, st) == Nowhere && FromEnd(lines, l, -1) == |Flat(lines)|
  {
    assert FindStart(lines[l], -1, st) == Pending(st);
    if l > 0 {
      OffsetStep(lines, l - 1);
    }
  }

  lemma GoesBack(lines: seq<string>, l: nat, i: int, st: string, j: int, st': string)
    requires l < |lines| && -1 <= i < |lines[l]| && -1 <= j < |lines[l]|
    requires FindStart(lines[l], i, st) == FindStart(lines[l], j, st')
    ensures BackLines(lines, l, i, st) == BackLines(lines, l, j, st')
  {
  }

  lemma OneOrTwo(ts: seq<Token>, x: nat, st: string, y: nat, st': string)
    requires x < |ts| && Next(ts[x], st) == Go(st')
    requires y == x + 1 || (y == x + 2 && x + 1 < |ts| && ts[x + 1] == Other)
    ensures Scan(ts, x, st) == Scan(ts, y, st')
  {
    ScanGoes(ts, x, st, st');
    if y == x + 2 {
      ScanGoes(ts, x + 1, st', st');
    }
  }

  /** Where the scanner goes on there is the next token that counts. */
  lemma TokensThere(lines: seq<string>, l: nat, i: nat, j: int, ts: seq<Token>) returns (x: nat, y: nat)
    requires l < |lines| && i < |lines[l]| && ts == Reversed(BackTokens(lines)) && GoesTo(lines[l], i, j)
    ensures x == FromEnd(lines, l, i) && y == FromEnd(lines, l, j) && x < |ts|
    ensures ts[x] == BackClass(lines[l], i)
    ensures y == x + 1 || (y == x + 2 && x + 1 < |ts| && ts[x + 1] == Other)
  {
    ReversedAt(lines, l, i);
    if j == i - 2 {
      ReversedAt(lines, l, i - 1);
    }
    x, y := FromEnd(lines, l, i), FromEnd(lines, l, j);
  }

  lemma TurnedEmpty(st: string)
    ensures Turned(st) == "" <==> st == ""
  {
    assert |Turned(st)| == |st|;
  }

  lemma {:induction false} BackIsMachine(lines: seq<string>, l: nat, i: int, st: string, ts: seq<Token>)
    requires l < |lines| && -1 <= i < |lines[l]| && Aligned(lines[l], i) && st != ""
    requires ts == Reversed(BackTokens(lines))
    ensures 0 <= FromEnd(lines, l, i)
    ensures SameStart(lines, BackLines(lines, l, i, st), Scan(ts, FromEnd(lines, l, i), Turned(st)))
    decreases l, i + 1
  {
    if i < 0 {
      StartOfLine(lines, l, st);
      if l > 0 {
        BackIsMachine(lines, l - 1, |lines[l - 1]| - 1, st, ts);
      }
    } else {
      ReversedAt(lines, l, i);
      TurnedEmpty(st);
      var j, st' := OneStepBack(lines[l], i, st);
      match Next(BackClass(lines[l], i), Turned(st)) {
        case Go(s) =>
          StackStays(BackClass(lines[l], i), Turned(st));
          TurnedEmpty(st');
          GoesBack(lines, l, i, st, j, st');
          var x, y := TokensThere(lines, l, i, j, ts);
          OneOrTwo(ts, x, Turned(st), y, s);
          BackIsMachine(lines, l, j, st', ts);
        case Stop =>
        case Bad =>
      }
    }
  }

  // ---- From a `>` ----

  lemma FirstGreater(lines: seq<string>, l: nat, p: nat) returns (st: string)
    requires l < |lines| && p < |lines[l]| && lines[l][p] == '>' && !Skipped(lines[l], p)
    ensures st == ['>'] && Turned(st) == ['<'] && Aligned(lines[l], p - 1)
    ensures ReverseCloseAt(lines, l, p) == BackLines(lines, l, p - 1, st)
  {
    st := ['>'];
    assert "" + ['>'] == st;
    SkippedIs(lines[l], p);
    GoesBack(lines, l, p, "", p - 1, st);
  }

  lemma SamePlace(lines: seq<string>, at: Position, r: Result, k: nat, q: nat)
    requires SameStart(lines, at, r) && k < |lines| && q < |lines[k]|
    ensures 0 <= FromEnd(lines, k, q)
    ensures at == Spot(k, q) <==> r == Done(FromEnd(lines, k, q) + 1)
  {
    SpotInFlat(lines, k, q);
    if at.Spot? {
      SpotIsUnique(lines, at.line, at.pos, k, q);
    }
  }

  lemma FromGreater(lines: seq<string>, l: nat, p: nat, k: nat, q: nat, ts: seq<Token>, a: nat, b: nat)
    requires l < |lines| && p < |lines[l]| && lines[l][p] == '>' && !Skipped(lines[l], p)
    requires k < |lines| && q < |lines[k]| && ts == Reversed(BackTokens(lines))
    requires a == FromEnd(lines, l, p) + 1 && b == FromEnd(lines, k, q)
    ensures b < |ts| && (ReverseCloseAt(lines, l, p) == Spot(k, q) <==> Scan(ts, a, ['<']) == Done(b + 1))
  {
    var st := FirstGreater(lines, l, p);
    BackIsMachine(lines, l, p - 1, st, ts);
    ReversedAt(lines, k, q);
    SamePlace(lines, ReverseCloseAt(lines, l, p), Scan(ts, a, ['<']), k, q);
  }

  lemma ReversesThere(lines: seq<string>, l: nat, p: nat, k: nat, q: nat, ts: seq<Token>, a: nat, b: nat)
    requires l < |lines| && p < |lines[l]| && lines[l][p] == '>' && !Skipped(lines[l], p)
    requires k < |lines| && q < |lines[k]| && ts == Reversed(BackTokens(lines))
    requires a == FromEnd(lines, l, p) + 1 && b == FromEnd(lines, k, q)
    ensures b < |ts| && (ReverseCloseAt(lines, l, p) == Spot(k, q) <==> ts[b] == Greater && ListIn(ts, a, b))
  {
    FromGreater(lines, l, p, k, q, ts, a, b);
    ReversedProper(BackTokens(lines));
    MachineStops(ts, a, b, ['<']);
  }

  /** Between places a and b of the file stands a list, read from its end. */
  ghost predicate BackListIn(ts: seq<Token>, a: int, b: int) {
    0 <= a <= b <= |ts| && IsList(Reversed(ts[a..b]))
  }

  lemma ListReversed(ts: seq<Token>, a: nat, b: nat, x: int, y: int)
    requires a <= |ts| && b <= |ts| && x == |ts| - b && y == |ts| - a
    ensures ListIn(Reversed(ts), x, y) <==> BackListIn(ts, a, b)
  {
    if a <= b {
      assert Reversed(ts)[x..y] == Reversed(ts[a..b]);
    }
  }

  lemma ReversesWhere(lines: seq<string>, l: nat, p: nat, k: nat, q: nat, ts: seq<Token>, a: nat, b: nat)
    requires l < |lines| && p < |lines[l]| && lines[l][p] == '>' && !Skipped(lines[l], p)
    requires k < |lines| && q < |lines[k]| && ts == BackTokens(lines)
    requires a == Offset(lines, k) + q + 1 && b == Offset(lines, l) + p
    ensures ReverseCloseAt(lines, l, p) == Spot(k, q) <==> BackClass(lines[k], q) == Greater && BackListIn(ts, a, b)
  {
    var x, y := FromEnd(lines, l, p) + 1, FromEnd(lines, k, q);
    ReversedAt(lines, l, p);
    ReversedAt(lines, k, q);
    ReversesThere(lines, l, p, k, q, Reversed(ts), x, y);
    ListReversed(ts, a, b, x, y);
  }

  /** From a `>` that is not skipped, `ReverseCloseExpression` returns (k, q) if and only if there is a
      `<` that counts, and what stands between is a list. */
  lemma ReversesIff(lines: seq<string>, l: nat, p: nat, k: nat, q: nat)
    requires l < |lines| && p < |lines[l]| && lines[l][p] == '>' && !Skipped(lines[l], p)
    requires k < |lines| && q < |lines[k]|
    ensures ReverseCloseAt(lines, l, p) == Spot(k, q) <==>
      && BackClass(lines[k], q) == Greater
      && BackListIn(BackTokens(lines), Offset(lines, k) + q + 1, Offset(lines, l) + p)
  {
    ReversesWhere(lines, l, p, k, q, BackTokens(lines), Offset(lines, k) + q + 1, Offset(lines, l) + p);
  }

  // ---- In characters alone ----

  /** Where the search stops there is the first of an odd number of `<`. */
  lemma StopsAtLess(lines: seq<string>, l: nat, p: nat, k: nat, q: nat)
    requires l < |lines| && p < |lines[l]| && lines[l][p] == '>' && !Skipped(lines[l], p)
    requires ReverseCloseAt(lines, l, p) == Spot(k, q)
    ensures k < |lines| && q < |lines[k]| && lines[k][q] == '<'
    ensures (q > 0 ==> lines[k][q - 1] != '<') && LessBehind(lines[k], q) % 2 == 0
  {
    var st := FirstGreater(lines, l, p);
    BackIsMachine(lines, l, p - 1, st, Reversed(BackTokens(lines)));
    ReversesIff(lines, l, p, k, q);
  }

  /** A `>` that is skipped is jumped over with the character before it, any other opens a list. */
  lemma GreaterOpens(line: string, i: nat, st: string)
    requires i < |line| && line[i] == '>'
    ensures FindStart(line, i, st) ==
      if Skipped(line, i) then FindStart(line, i - 2, st) else FindStart(line, i - 1, st + ['>'])
  {
    SkippedIs(line, i);
  }

  /** There is no search from any other character than `)`, `]`, `}` and `>`. */
  lemma NoSearchBack(lines: seq<string>, l: nat, p: nat)
    requires l < |lines| && p < |lines[l]| && lines[l][p] !in ")]}>"
    ensures ReverseCloseAt(lines, l, p) == Nowhere
  {
  }

  /** The opener is the one of the same kind. */
  lemma OpensItsKind(lines: seq<string>, l: nat, q: nat, k: nat, p: nat)
    requires l < |lines| && q < |lines[l]| && lines[l][q] in ")]}" && ReverseCloseAt(lines, l, q) == Spot(k, p)
    ensures k < |lines| && p < |lines[k]| && [lines[k][p], lines[l][q]] in ["()", "[]", "{}"]
  {
    ReverseThenClose(lines, l, q);
  }
}

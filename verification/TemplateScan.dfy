/** `NestingState.InTemplateArgumentList`: the scan from a class head over the lines that follow,
    and how much of the file its verdict depends on. */
module TemplateScan {
  import opened Basics
  import opened Brackets
  import opened ForwardScan
  import opened Lines
  import opened CloseExpression

  // ---- CloseExpression once more, telling the end of the file from a mismatch ----

  datatype Reach = Found(line: nat, pos: nat) | Never | RanOut

  function CloseScan(ts: seq<string>, l: nat, i: nat, st: string): Reach
    requires l < |ts|
    decreases |ts| - l
  {
    match FindEnd(ts[l], i, st)
    case At(n) => Found(l, n)
    case NoMatch => Never
    case Pending(st') =>
      if st' == "" then Never else if l + 1 < |ts| then CloseScan(ts, l + 1, 0, st') else RanOut
  }

  lemma {:induction false} CloseScanIsClose(ts: seq<string>, l: nat, i: nat, st: string)
    requires l < |ts|
    ensures ScanLines(ts, l, i, st) ==
      match CloseScan(ts, l, i, st)
      case Found(l', n) => Spot(l', n)
      case _ => Nowhere
    decreases |ts| - l
  {
    match FindEnd(ts[l], i, st) {
      case At(n) =>
      case NoMatch =>
      case Pending(st') =>
        if st' != "" && l + 1 < |ts| {
          CloseScanIsClose(ts, l + 1, 0, st');
        }
    }
  }

  lemma {:induction false} CloseScanIsLater(ts: seq<string>, l: nat, i: nat, st: string)
    requires l < |ts|
    ensures match CloseScan(ts, l, i, st)
      case Found(l', n) => l <= l' < |ts| && n <= |ts[l']| && (l' == l ==> n > i)
      case _ => true
    decreases |ts| - l
  {
    FindEndIsLater(ts[l], i, st);
    match FindEnd(ts[l], i, st) {
      case At(n) =>
      case NoMatch =>
      case Pending(st') =>
        if st' != "" && l + 1 < |ts| {
          CloseScanIsLater(ts, l + 1, 0, st');
        }
    }
  }

  // ---- The scan ----

  /** The characters that tell something about template argument lists. */
  predicate IsSpecial(c: char) {
    c == '{' || c == '}' || c == ';' || c == '=' || c == '[' || c == ']' || c == '.' || c == '<' || c == '>'
  }

  /** The first of them from pos on, or the end of the line. */
  function Special(line: string, pos: nat): (j: nat)
    requires pos <= |line|
    ensures pos <= j <= |line| && (j < |line| ==> IsSpecial(line[j]))
    ensures forall k :: pos <= k < j ==> !IsSpecial(line[k])
    decreases |line| - pos
  {
    if pos == |line| || IsSpecial(line[pos]) then pos else Special(line, pos + 1)
  }

  /** Undecided: the lines ran out first. The source then answers no. */
  datatype Verdict = Yes | No | Undecided

  function InTemplate(ts: seq<string>, l: nat, pos: nat): Verdict
    decreases |ts| - l, if l < |ts| && pos <= |ts[l]| then |ts[l]| - pos else 0
  {
    if l >= |ts| then Undecided
    else if pos >= |ts[l]| then InTemplate(ts, l + 1, 0)
    else
      var j := Special(ts[l], pos);
      if j == |ts[l]| then InTemplate(ts, l + 1, 0)
      else if ts[l][j] == '{' || ts[l][j] == '}' || ts[l][j] == ';' then No
      else if ts[l][j] != '<' then Yes
      else if !Starts(ts[l], j) then No
      else
        CloseScanIsLater(ts, l, j, "");
        match CloseScan(ts, l, j, "")
        case Found(l', n) => InTemplate(ts, l', n)
        case Never => No
        case RanOut => Undecided
  }

  datatype Hit = Hit(token: char, next: nat)

  /** `Match(r'^[^{};=\[\]\.<>]*(.)', line[pos:])`: the character matched last, and the position
      behind it. Without a special character that is the last of the line. */
  function MatchToken(line: string, pos: nat): Option<Hit> {
    if pos >= |line| then None
    else if Special(line, pos) < |line| then Some(Hit(line[Special(line, pos)], Special(line, pos) + 1))
    else Some(Hit(line[|line| - 1], |line|))
  }

  method InTemplateArgumentList(ts: seq<string>, linenum: nat, pos: nat) returns (inside: bool)
    ensures inside <==> InTemplate(ts, linenum, pos) == Yes
  {
    var l: nat, p: nat := linenum, pos;
    ghost var goal := InTemplate(ts, linenum, pos);
    while l < |ts|
      invariant InTemplate(ts, l, p) == goal
      decreases |ts| - l, if l < |ts| && p <= |ts[l]| then |ts[l]| - p else 0
    {
      var line := ts[l];
      var m := MatchToken(line, p);
      if m.None? {
        l, p := l + 1, 0;
        continue;
      }
      var Hit(token, next) := m.value;
      if token == '{' || token == '}' || token == ';' {
        return false;
      }
      if token == '>' || token == '=' || token == '[' || token == ']' || token == '.' {
        return true;
      }
      if token != '<' {
        p := next + 1;
        if p >= |line| {
          l, p := l + 1, 0;
        }
        continue;
      }
      CloseScanIsLater(ts, l, next - 1, "");
      CloseScanIsClose(ts, l, next - 1, "");
      var _, endLine, endPos := CloseExpression.CloseExpression(ts, l, next - 1);
      if endPos < 0 {
        return false;
      }
      l, p := endLine, endPos;
    }
    return false;
  }

  // ---- A verdict that has been reached does not depend on later lines ----

  lemma {:induction false} CloseScanStays(a: seq<string>, b: seq<string>, l: nat, i: nat, st: string)
    requires l < |a| && !CloseScan(a, l, i, st).RanOut?
    ensures CloseScan(a + b, l, i, st) == CloseScan(a, l, i, st)
    decreases |a| - l
  {
    assert (a + b)[l] == a[l];
    match FindEnd(a[l], i, st) {
      case At(n) =>
      case NoMatch =>
      case Pending(st') =>
        if st' != "" {
          CloseScanStays(a, b, l + 1, 0, st');
        }
    }
  }

  lemma {:induction false} VerdictStays(a: seq<string>, b: seq<string>, l: nat, pos: nat)
    requires InTemplate(a, l, pos) != Undecided
    ensures InTemplate(a + b, l, pos) == InTemplate(a, l, pos)
    decreases |a| - l, if l < |a| && pos <= |a[l]| then |a[l]| - pos else 0
  {
    var line := a[l];
    assert (a + b)[l] == line;
    if pos >= |line| || Special(line, pos) == |line| {
      VerdictStays(a, b, l + 1, 0);
    } else {
      var j := Special(line, pos);
      if line[j] == '<' && Starts(line, j) {
        CloseScanIsLater(a, l, j, "");
        CloseScanStays(a, b, l, j, "");
        match CloseScan(a, l, j, "") {
          case Found(l', n) => VerdictStays(a, b, l', n);
          case Never =>
          case RanOut =>
        }
      }
    }
  }

  // ---- A verdict that has not been reached can still become either ----

  predicate StackOk(st: string) {
    forall k :: 0 <= k < |st| ==> IsOpener(st[k]) || st[k] == '<'
  }

  lemma {:induction false} PendingOk(line: string, i: nat, st: string)
    requires StackOk(st)
    ensures FindEnd(line, i, st).Pending? ==> StackOk(FindEnd(line, i, st).stack)
    decreases |line| - i
  {
    if i < |line| {
      var drop := DropTops(st, '<');
      PendingOk(line, i + 1, st);
      if IsOpener(line[i]) || line[i] == '<' {
        PendingOk(line, i + 1, st + [line[i]]);
      }
      PendingOk(line, i + 1, drop);
      if st != "" {
        PendingOk(line, i + 1, Pop(st));
      }
      if drop != "" {
        PendingOk(line, i + 1, Pop(drop));
      }
    }
  }

  /** The character that closes c. */
  function Closer(c: char): char {
    if c == '<' then '>' else Flip(c)
  }

  /** A line that closes everything on the stack. */
  function Closing(st: string): (r: string)
    ensures |r| == |st| && forall k :: 0 <= k < |st| ==> r[k] == Closer(st[|st| - 1 - k])
  {
    seq(|st|, k requires 0 <= k < |st| => Closer(st[|st| - 1 - k]))
  }

  lemma NotAfterOperator(s: string)
    requires forall k :: 0 <= k < |s| ==> IsCloser(s[k]) || s[k] == '>'
    ensures !AfterOperator(s)
  {
    assert TrimRight(s) == s;
    if |s| >= 8 {
      assert s[|s| - 8..][0] == s[|s| - 8];
    }
  }

  lemma ClosesTop(line: string, i: nat, st: string)
    requires st != "" && StackOk(st) && i < |line| && line[i] == Closer(Top(st))
    requires forall k :: 0 <= k < i ==> IsCloser(line[k]) || line[k] == '>'
    ensures FindEnd(line, i, st) == if Pop(st) == "" then At(i + 1) else FindEnd(line, i + 1, Pop(st))
  {
    if Top(st) == '<' && i > 0 {
      NotAfterOperator(line[..i - 1]);
    }
  }

  lemma {:induction false} ClosingCloses(st: string, i: nat)
    requires StackOk(st) && i < |st|
    ensures FindEnd(Closing(st), i, st[..|st| - i]) == At(|st|)
    decreases |st| - i
  {
    var rest := st[..|st| - i];
    ClosesTop(Closing(st), i, rest);
    assert Pop(rest) == st[..|st| - (i + 1)];
    if i + 1 < |st| {
      ClosingCloses(st, i + 1);
    }
  }

  lemma {:induction false} CloseScanCanClose(a: seq<string>, l: nat, i: nat, st: string, more: seq<string>)
    returns (line: string)
    requires l < |a| && StackOk(st) && CloseScan(a, l, i, st).RanOut?
    ensures CloseScan(a + ([line] + more), l, i, st) == Found(|a|, |line|)
    decreases |a| - l
  {
    PendingOk(a[l], i, st);
    var st' := FindEnd(a[l], i, st).stack;
    if l + 1 < |a| {
      line := CloseScanCanClose(a, l + 1, 0, st', more);
    } else {
      line := Closing(st');
      ClosingCloses(st', 0);
      assert st'[..|st'|] == st';
      assert (a + ([line] + more))[|a|] == line;
    }
    assert (a + ([line] + more))[l] == a[l];
  }

  lemma {:induction false} VerdictCanBeYes(a: seq<string>, l: nat, pos: nat) returns (b: seq<string>)
    requires l <= |a| && (l == |a| ==> pos == 0) && InTemplate(a, l, pos) == Undecided
    ensures InTemplate(a + b, l, pos) == Yes
    decreases |a| - l, if l < |a| && pos <= |a[l]| then |a[l]| - pos else 0
  {
    if l == |a| {
      b := [">"];
      assert (a + b)[l] == ">" && Special(">", 0) == 0;
    } else if pos >= |a[l]| || Special(a[l], pos) == |a[l]| {
      b := VerdictCanBeYes(a, l + 1, 0);
      assert (a + b)[l] == a[l];
    } else {
      var j := Special(a[l], pos);
      CloseScanIsLater(a, l, j, "");
      match CloseScan(a, l, j, "") {
        case Found(l', n) =>
          b := VerdictCanBeYes(a, l', n);
          CloseScanStays(a, b, l, j, "");
        case RanOut =>
          var line := CloseScanCanClose(a, l, j, "", [">"]);
          b := [line] + [">"];
          assert (a + b)[|a|] == line && (a + b)[|a| + 1] == ">" && Special(">", 0) == 0;
          assert InTemplate(a + b, |a|, |line|) == Yes;
      }
      assert (a + b)[l] == a[l];
    }
  }

  /** The answer is the same whatever lines follow if and only if it was reached before. */
  lemma SettledIff(a: seq<string>, pos: nat)
    requires a != []
    ensures (forall b: seq<string> :: InTemplate(a + b, 0, pos) == Yes <==> InTemplate(a, 0, pos) == Yes) <==>
            InTemplate(a, 0, pos) != Undecided
  {
    if InTemplate(a, 0, pos) != Undecided {
      forall b: seq<string>
        ensures InTemplate(a + b, 0, pos) == Yes <==> InTemplate(a, 0, pos) == Yes
      {
        VerdictStays(a, b, 0, pos);
      }
    } else {
      var b := VerdictCanBeYes(a, 0, pos);
      assert InTemplate(a + b, 0, pos) == Yes;
    }
  }
}

/** cpplint's forward scanner: `FindEndOfExpressionInLine` and `CloseExpression`, with
    their heuristics for `<`, `>`, `<<`, `->`, `operator` and `;`. */
module ForwardScan {
  import opened Brackets

  // ---- Character tests (the regular expressions of the scanners, on ASCII text) ----

  predicate IsSpace(c: char) {
    c == ' ' || '\t' <= c <= '\r' || 0x1c <= c as int <= 0x1f
  }

  predicate IsWordChar(c: char) {
    'a' <= c <= 'z' || 'A' <= c <= 'Z' || '0' <= c <= '9' || c == '_'
  }

  function TrimRight(s: string): (r: string)
    ensures r <= s
    ensures r != "" ==> !IsSpace(r[|r| - 1])
  {
    if s != "" && IsSpace(s[|s| - 1]) then TrimRight(s[..|s| - 1]) else s
  }

  /** `\boperator\s*$` is found in s. */
  predicate AfterOperator(s: string) {
    var t := TrimRight(s);
    |t| >= 8 && t[|t| - 8..] == "operator" && (|t| == 8 || !IsWordChar(t[|t| - 9]))
  }

  // ---- One line ----

  /** At(n): found, n is the position behind the closing character.
      NoMatch: `(-1, None)`. Pending(stack): `(-1, stack)`. */
  datatype LineResult = At(n: nat) | NoMatch | Pending(stack: string)

  /** `while stack and stack[-1] == c: stack.pop()` */
  function DropTops(st: string, c: char): (r: string)
    ensures r <= st
    ensures r != "" ==> r[|r| - 1] != c
    ensures forall i :: |r| <= i < |st| ==> st[i] == c
  {
    if st != "" && st[|st| - 1] == c then DropTops(st[..|st| - 1], c) else st
  }

  predicate IsShift(line: string, i: nat)
    requires i < |line|
  {
    i > 0 && line[i - 1] == '<'
  }

  /** `->`, and `>` after `operator` (seen without the character before it). */
  predicate IgnoredGreater(line: string, i: nat)
    requires i < |line|
  {
    i > 0 && (line[i - 1] == '-' || AfterOperator(line[..i - 1]))
  }

  function FindEnd(line: string, i: nat, st: string): LineResult
    decreases |line| - i
  {
    if i >= |line| then Pending(st)
    else if IsOpener(line[i]) then FindEnd(line, i + 1, st + [line[i]])
    else if line[i] == '<' then
      if IsShift(line, i) then
        if st != "" && Top(st) == '<' then
          if Pop(st) == "" then NoMatch else FindEnd(line, i + 1, Pop(st))
        else FindEnd(line, i + 1, st)
      else if i > 0 && AfterOperator(line[..i]) then FindEnd(line, i + 1, st)
      else FindEnd(line, i + 1, st + ['<'])
    else if IsCloser(line[i]) then
      var rest := DropTops(st, '<');
      if rest == "" || line[i] != Flip(Top(rest)) then NoMatch
      else if Pop(rest) == "" then At(i + 1)
      else FindEnd(line, i + 1, Pop(rest))
    else if line[i] == '>' then
      if IgnoredGreater(line, i) || st == "" || Top(st) != '<' then FindEnd(line, i + 1, st)
      else if Pop(st) == "" then At(i + 1)
      else FindEnd(line, i + 1, Pop(st))
    else if line[i] == ';' then
      var rest := DropTops(st, '<');
      if rest == "" then NoMatch else FindEnd(line, i + 1, rest)
    else FindEnd(line, i + 1, st)
  }

  /** `FindEndOfExpressionInLine`. */
  method FindEndOfExpressionInLine(line: string, startpos: nat, stack: string)
    returns (r: LineResult)
    ensures r == FindEnd(line, startpos, stack)
  {
    var st := stack;
    var i := startpos;
    ghost var goal := FindEnd(line, startpos, stack);
    while i < |line|
      invariant startpos <= i
      invariant FindEnd(line, i, st) == goal
      decreases |line| - i
    {
      var c := line[i];
      if c == '(' || c == '[' || c == '{' {
        st := st + [c];
      } else if c == '<' {
        if i > 0 && line[i - 1] == '<' {
          if st != "" && st[|st| - 1] == '<' {
            st := st[..|st| - 1];
            if st == "" {
              return NoMatch;
            }
          }
        } else if i > 0 && AfterOperator(line[..i]) {
        } else {
          st := st + ['<'];
        }
      } else if c == ')' || c == ']' || c == '}' {
        ghost var before := st;
        while st != "" && st[|st| - 1] == '<'
          invariant st <= before && DropTops(st, '<') == DropTops(before, '<')
          decreases |st|
        {
          st := st[..|st| - 1];
        }
        if st == "" {
          return NoMatch;
        }
        var top := st[|st| - 1];
        if (top == '(' && c == ')') || (top == '[' && c == ']') || (top == '{' && c == '}') {
          st := st[..|st| - 1];
          if st == "" {
            return At(i + 1);
          }
        } else {
          return NoMatch;
        }
      } else if c == '>' {
        if i > 0 && (line[i - 1] == '-' || AfterOperator(line[..i - 1])) {
        } else if st != "" && st[|st| - 1] == '<' {
          st := st[..|st| - 1];
          if st == "" {
            return At(i + 1);
          }
        }
      } else if c == ';' {
        ghost var before := st;
        while st != "" && st[|st| - 1] == '<'
          invariant st <= before && DropTops(st, '<') == DropTops(before, '<')
          decreases |st|
        {
          st := st[..|st| - 1];
        }
        if st == "" {
          return NoMatch;
        }
      }
      i := i + 1;
    }
    return Pending(st);
  }

  /** A position that is found lies behind the start, and on the line. */
  lemma {:induction false} FindEndIsLater(line: string, i: nat, st: string)
    ensures FindEnd(line, i, st).At? ==> i < FindEnd(line, i, st).n <= |line|
    decreases |line| - i
  {
    if i < |line| {
      var drop := DropTops(st, '<');
      FindEndIsLater(line, i + 1, st);
      FindEndIsLater(line, i + 1, st + [line[i]]);
      FindEndIsLater(line, i + 1, drop);
      if st != "" {
        FindEndIsLater(line, i + 1, Pop(st));
      }
      if drop != "" {
        FindEndIsLater(line, i + 1, Pop(drop));
      }
    }
  }

  // ---- Started inside a bracket, the scanner is the plain matcher ----

  /** A scanner stack whose bottom is a bracket. */
  predicate Rooted(st: string) {
    st != "" && IsOpener(st[0]) && forall k :: 0 <= k < |st| ==> IsOpener(st[k]) || st[k] == '<'
  }

  /** The brackets on the stack. */
  function OpenBrackets(st: string): string {
    if st == "" then ""
    else if Top(st) == '<' then OpenBrackets(Pop(st))
    else OpenBrackets(Pop(st)) + [Top(st)]
  }

  lemma {:induction false} RootedBrackets(st: string)
    requires Rooted(st)
    ensures Openers(OpenBrackets(st)) && OpenBrackets(st)[0] == st[0]
    ensures OpenBrackets(DropTops(st, '<')) == OpenBrackets(st)
    ensures Rooted(DropTops(st, '<')) && IsOpener(Top(DropTops(st, '<')))
    ensures |OpenBrackets(st)| == 1 <==> |DropTops(st, '<')| == 1
    decreases |st|
  {
    if |st| > 1 {
      RootedBrackets(Pop(st));
    } else {
      assert Pop(st) == "";
    }
  }

  /** The innermost open bracket of a rooted stack, and what is left without it. */
  lemma InnermostBracket(st: string)
    requires Rooted(st)
    ensures var rest := DropTops(st, '<');
      && OpenBrackets(st) == OpenBrackets(Pop(rest)) + [Top(rest)]
      && (|rest| == 1 <==> |OpenBrackets(st)| == 1)
      && (|rest| > 1 ==> Rooted(Pop(rest)))
  {
    RootedBrackets(st);
  }

  /** What the plain matcher would say. */
  function Plain(r: LineResult, i: nat): Outcome {
    match r
    case At(n) => if n >= i then Closed(n - i) else Failed
    case NoMatch => Failed
    case Pending(st) => Open(OpenBrackets(st))
  }

  /** The refinement: whatever `<`, `>`, `->`, `<<`, `operator` and `;` stand in between, a
      scan that starts inside a bracket succeeds, fails and suspends exactly as plain bracket
      matching does. */
  lemma {:induction false} ScanIsMatch(line: string, i: nat, st: string)
    requires i <= |line| && Rooted(st)
    ensures Openers(OpenBrackets(st))
    ensures Plain(FindEnd(line, i, st), i) == Match(line[i..], OpenBrackets(st))
    ensures FindEnd(line, i, st).At? ==> i < FindEnd(line, i, st).n <= |line|
    ensures FindEnd(line, i, st).Pending? ==> Rooted(FindEnd(line, i, st).stack)
    decreases |line| - i, 1
  {
    RootedBrackets(st);
    if i < |line| {
      assert line[i..][1..] == line[i + 1..];
      var c := line[i];
      if IsOpener(c) {
        assert Pop(st + [c]) == st && OpenBrackets(st + [c]) == OpenBrackets(st) + [c];
        ScanIsMatch(line, i + 1, st + [c]);
      } else if IsCloser(c) {
        ScanOverCloser(line, i, st);
      } else {
        ScanIsMatch(line, i + 1, NextStack(line, i, st));
      }
    }
  }

  lemma {:induction false} ScanOverCloser(line: string, i: nat, st: string)
    requires i < |line| && Rooted(st) && IsCloser(line[i])
    ensures Openers(OpenBrackets(st))
    ensures Plain(FindEnd(line, i, st), i) == Match(line[i..], OpenBrackets(st))
    ensures FindEnd(line, i, st).At? ==> i < FindEnd(line, i, st).n <= |line|
    ensures FindEnd(line, i, st).Pending? ==> Rooted(FindEnd(line, i, st).stack)
    decreases |line| - i, 0
  {
    RootedBrackets(st);
    assert line[i..][1..] == line[i + 1..];
    var rest := DropTops(st, '<');
    InnermostBracket(st);
    if line[i] == Flip(Top(rest)) && |rest| > 1 {
      ScanIsMatch(line, i + 1, Pop(rest));
    }
  }

  /** The stack after a character that is not a bracket. */
  function NextStack(line: string, i: nat, st: string): (r: string)
    requires i < |line| && !IsOpener(line[i]) && !IsCloser(line[i]) && Rooted(st)
    ensures Rooted(r) && OpenBrackets(r) == OpenBrackets(st)
    ensures FindEnd(line, i, st) == FindEnd(line, i + 1, r)
  {
    RootedBrackets(st);
    assert Pop(st + ['<']) == st;
    assert Rooted(st + ['<']);
    if line[i] == '<' && (IsShift(line, i) || (i > 0 && AfterOperator(line[..i]))) then
      if IsShift(line, i) && Top(st) == '<' then Pop(st) else st
    else if line[i] == '<' then st + ['<']
    else if line[i] == '>' then
      if IgnoredGreater(line, i) || Top(st) != '<' then st else Pop(st)
    else if line[i] == ';' then DropTops(st, '<')
    else st
  }
}

/** `_GetTextInside`, cpplint's third bracket matcher, written without regard to `<` and
    `>`: it agrees with the other two. */
module TextInside {
  import opened Basics
  import opened Brackets
  import opened ForwardScan
  import opened CloseExpression

  /** The loop of `_GetTextInside`: the stack holds the closers still expected. The result
      is the position behind the last of them, or -1. */
  function InsideEnd(text: string, pos: nat, expected: string): int
    decreases |text| - pos
  {
    if expected == "" then pos
    else if pos >= |text| then -1
    else if text[pos] == Top(expected) then InsideEnd(text, pos + 1, Pop(expected))
    else if IsCloser(text[pos]) then -1
    else if IsOpener(text[pos]) then InsideEnd(text, pos + 1, expected + [Flip(text[pos])])
    else InsideEnd(text, pos + 1, expected)
  }

  /** `_GetTextInside`; `start` is the end of the match of `start_pattern`, if there is one. */
  method GetTextInside(text: string, start: Option<nat>) returns (r: Option<string>)
    requires start.Some? ==> 0 < start.value <= |text| && IsOpener(text[start.value - 1])
    ensures start.None? ==> r == None
    ensures start.Some? ==>
      var e := InsideEnd(text, start.value, [Flip(text[start.value - 1])]);
      if start.value < e <= |text| then r == Some(text[start.value..e - 1]) else r == None
  {
    if start.None? {
      return None;
    }
    var stack := [Flip(text[start.value - 1])];
    var position := start.value;
    ghost var e := InsideEnd(text, position, stack);
    assert Pop(stack) == "";
    while stack != "" && position < |text|
      invariant start.value <= position <= |text|
      invariant stack == "" ==> start.value < position
      invariant InsideEnd(text, position, stack) == e
      decreases |text| - position
    {
      if text[position] == stack[|stack| - 1] {
        stack := stack[..|stack| - 1];
      } else if IsCloser(text[position]) {
        return None;
      } else if IsOpener(text[position]) {
        stack := stack + [Flip(text[position])];
      }
      position := position + 1;
    }
    if stack != "" {
      return None;
    }
    return Some(text[start.value..position - 1]);
  }

  function Flipped(st: string): (r: string)
    ensures |r| == |st| && forall k :: 0 <= k < |st| ==> r[k] == Flip(st[k])
  {
    seq(|st|, k requires 0 <= k < |st| => Flip(st[k]))
  }

  lemma {:induction false} InsideIsMatch(text: string, pos: nat, st: string)
    requires pos <= |text| && Openers(st)
    ensures match Match(text[pos..], st)
      case Closed(n) => InsideEnd(text, pos, Flipped(st)) == pos + n
      case _ => InsideEnd(text, pos, Flipped(st)) == -1
    decreases |text| - pos
  {
    if pos < |text| {
      var c := text[pos];
      assert text[pos..][1..] == text[pos + 1..];
      assert Top(Flipped(st)) == Flip(Top(st)) && Pop(Flipped(st)) == Flipped(Pop(st));
      if IsOpener(c) {
        assert Flipped(st + [c]) == Flipped(st) + [Flip(c)];
        InsideIsMatch(text, pos + 1, st + [c]);
      } else if !IsCloser(c) {
        InsideIsMatch(text, pos + 1, st);
      } else if c == Flip(Top(st)) && |st| > 1 {
        InsideIsMatch(text, pos + 1, Pop(st));
      }
    }
  }

  /** From an opening bracket, the loop and plain matching agree. */
  lemma InsideFromOpener(text: string, start: nat)
    requires 0 < start <= |text| && IsOpener(text[start - 1])
    ensures match Match(text[start..], [text[start - 1]])
      case Closed(n) => InsideEnd(text, start, [Flip(text[start - 1])]) == start + n
      case _ => InsideEnd(text, start, [Flip(text[start - 1])]) == -1
  {
    InsideIsMatch(text, start, [text[start - 1]]);
    assert Flipped([text[start - 1]]) == [Flip(text[start - 1])];
  }

  /** The independent matcher and `FindEndOfExpressionInLine`, started on the same opening
      bracket, agree on where the text ends and on whether it ends at all. */
  lemma MatchersAgree(text: string, start: nat)
    requires 0 < start <= |text| && IsOpener(text[start - 1])
    ensures var e := InsideEnd(text, start, [Flip(text[start - 1])]);
      match FindEnd(text, start - 1, "")
      case At(n) => start < n <= |text| && e == n
      case _ => e == -1
  {
    FirstStep(text, start - 1);
    ScanIsMatch(text, start, [text[start - 1]]);
    InsideFromOpener(text, start);
  }

  /** What comes out is exactly the text between the bracket and its partner. */
  lemma InsideIsPair(text: string, start: nat, e: int)
    requires 0 < start <= |text| && IsOpener(text[start - 1])
    ensures InsideEnd(text, start, [Flip(text[start - 1])]) == e && e >= 0 <==> Pair(text, start - 1, e - 1)
  {
    InsideFromOpener(text, start);
    PairIsMatch(text, start - 1, e - 1);
  }
}

/** Plain bracket matching: a grammar of balanced text, and a matcher proved to find
    exactly the partner the grammar gives. This is the reference that cpplint's three
    independent scanners are compared with. */
module Brackets {

  predicate IsOpener(c: char) {
    c == '(' || c == '[' || c == '{'
  }

  predicate IsCloser(c: char) {
    c == ')' || c == ']' || c == '}'
  }

  /** The bracket that pairs with c; every other character is its own partner. */
  function Flip(c: char): char {
    if c == '(' then ')' else if c == ')' then '('
    else if c == '[' then ']' else if c == ']' then '['
    else if c == '{' then '}' else if c == '}' then '{'
    else c
  }

  // ---- The grammar ----

  datatype Tree = Empty | Text(c: char, rest: Tree) | Group(open: char, inside: Tree, after: Tree)

  predicate Legal(t: Tree) {
    match t
    case Empty => true
    case Text(c, rest) => !IsOpener(c) && !IsCloser(c) && Legal(rest)
    case Group(o, inside, rest) => IsOpener(o) && Legal(inside) && Legal(rest)
  }

  function Render(t: Tree): string {
    match t
    case Empty => ""
    case Text(c, rest) => [c] + Render(rest)
    case Group(o, inside, rest) => [o] + Render(inside) + [Flip(o)] + Render(rest)
  }

  ghost predicate Balanced(s: string) {
    exists t :: Legal(t) && Render(t) == s
  }

  /** The brackets at p and q of s belong together. */
  ghost predicate Pair(s: string, p: int, q: int) {
    0 <= p < q < |s| && IsOpener(s[p]) && s[q] == Flip(s[p]) && Balanced(s[p + 1..q])
  }

  // ---- The matcher ----

  /** Closed(n): the stack became empty after n characters. */
  datatype Outcome = Closed(n: nat) | Failed | Open(stack: string)
  {
    function Shift(k: nat): Outcome {
      match this
      case Closed(n) => Closed(n + k)
      case _ => this
    }
  }

  predicate Openers(st: string) {
    |st| > 0 && forall i :: 0 <= i < |st| ==> IsOpener(st[i])
  }

  function Top(st: string): char
    requires |st| > 0
  {
    st[|st| - 1]
  }

  function Pop(st: string): string
    requires |st| > 0
  {
    st[..|st| - 1]
  }

  function Match(s: string, st: string): (r: Outcome)
    requires Openers(st)
    ensures r.Open? ==> Openers(r.stack)
    ensures r.Closed? ==> 1 <= r.n <= |s|
  {
    if s == "" then Open(st)
    else if IsOpener(s[0]) then Match(s[1..], st + [s[0]]).Shift(1)
    else if !IsCloser(s[0]) then Match(s[1..], st).Shift(1)
    else if s[0] != Flip(Top(st)) then Failed
    else if |st| == 1 then Closed(1)
    else Match(s[1..], Pop(st)).Shift(1)
  }

  // ---- The matcher agrees with the grammar ----

  lemma GroupText(o: char, x: string, f: char, y: string, rest: string)
    ensures ([o] + x + [f] + y) + rest == [o] + (x + ([f] + (y + rest)))
  {
  }

  /** Balanced text is passed over. */
  lemma {:induction false} PassOver(t: Tree, rest: string, st: string)
    requires Legal(t) && Openers(st)
    ensures Match(Render(t) + rest, st) == Match(rest, st).Shift(|Render(t)|)
    decreases t
  {
    match t {
      case Empty =>
        assert Render(t) + rest == rest;
      case Text(c, more) =>
        assert Render(t) + rest == [c] + (Render(more) + rest);
        PassOver(more, rest, st);
      case Group(o, inside, after) =>
        var tail := [Flip(o)] + (Render(after) + rest);
        GroupText(o, Render(inside), Flip(o), Render(after), rest);
        assert (Render(t) + rest)[1..] == Render(inside) + tail;
        PassOver(inside, tail, st + [o]);
        assert tail[1..] == Render(after) + rest;
        assert Pop(st + [o]) == st;
        PassOver(after, rest, st);
    }
  }

  /** What the text must look like for the whole stack to be closed: for every open bracket,
      innermost first, balanced text and then its closer. */
  function Unwind(ts: seq<Tree>, st: string): string
    requires |ts| == |st|
  {
    if st == "" then ""
    else Render(ts[0]) + [Flip(Top(st))] + Unwind(ts[1..], Pop(st))
  }

  lemma UnwindHead(ts: seq<Tree>, st: string)
    requires |ts| == |st| > 0
    ensures Unwind(ts, st) == Render(ts[0]) + [Flip(Top(st))] + Unwind(ts[1..], Pop(st))
  {
  }

  lemma UnwindGroup(us: seq<Tree>, o: char, st: string)
    requires |us| == |st| + 1 && |st| > 0
    ensures Unwind([Group(o, us[0], us[1])] + us[2..], st) == [o] + Unwind(us, st + [o])
  {
    var ts := [Group(o, us[0], us[1])] + us[2..];
    assert ts[1..] == us[1..][1..] == us[2..];
    assert Pop(st + [o]) == st && Top(st + [o]) == o;
    UnwindHead(us, st + [o]);
    UnwindHead(us[1..], st);
    UnwindHead(ts, st);
    Regroup(o, Render(us[0]), Flip(o), Render(us[1]), [Flip(Top(st))], Unwind(us[2..], Pop(st)));
  }

  lemma Regroup(o: char, x: string, f: char, y: string, z: string, w: string)
    ensures ([o] + x + [f] + y) + z + w == [o] + (x + [f] + (y + z + w))
  {
  }

  lemma UnwindText(us: seq<Tree>, c: char, st: string)
    requires |us| == |st| > 0
    ensures Unwind([Text(c, us[0])] + us[1..], st) == [c] + Unwind(us, st)
  {
    var ts := [Text(c, us[0])] + us[1..];
    assert ts[1..] == us[1..];
    UnwindHead(ts, st);
    UnwindHead(us, st);
    Prepend(c, Render(us[0]), [Flip(Top(st))], Unwind(us[1..], Pop(st)));
  }

  lemma Prepend(c: char, x: string, y: string, z: string)
    ensures ([c] + x) + y + z == [c] + (x + y + z)
  {
  }

  lemma UnwindEmpty(us: seq<Tree>, st: string)
    requires |us| + 1 == |st|
    ensures Unwind([Empty] + us, st) == [Flip(Top(st))] + Unwind(us, Pop(st))
  {
    var ts := [Empty] + us;
    assert ts[1..] == us;
  }

  lemma {:induction false} ClosedParses(s: string, st: string, n: nat) returns (ts: seq<Tree>)
    requires Openers(st) && Match(s, st) == Closed(n)
    ensures |ts| == |st| && forall i :: 0 <= i < |ts| ==> Legal(ts[i])
    ensures s[..n] == Unwind(ts, st)
    decreases |s|
  {
    assert s[..n] == [s[0]] + s[1..][..n - 1];
    if IsOpener(s[0]) {
      var us := ClosedParses(s[1..], st + [s[0]], n - 1);
      ts := [Group(s[0], us[0], us[1])] + us[2..];
      UnwindGroup(us, s[0], st);
    } else if !IsCloser(s[0]) {
      var us := ClosedParses(s[1..], st, n - 1);
      ts := [Text(s[0], us[0])] + us[1..];
      UnwindText(us, s[0], st);
    } else if |st| == 1 {
      ts := [Empty];
      UnwindEmpty([], st);
    } else {
      var us := ClosedParses(s[1..], Pop(st), n - 1);
      ts := [Empty] + us;
      UnwindEmpty(us, st);
    }
  }

  lemma ClosedIsBalanced(s: string, o: char, n: nat)
    requires IsOpener(o) && Match(s, [o]) == Closed(n)
    ensures s[n - 1] == Flip(o) && Balanced(s[..n - 1])
  {
    var ts := ClosedParses(s, [o], n);
    assert ts == [ts[0]] && Pop([o]) == "";
    assert s[..n] == Render(ts[0]) + [Flip(o)] + "";
    assert s[..n - 1] == Render(ts[0]);
  }

  lemma BalancedCloses(s: string, o: char, n: nat)
    requires IsOpener(o) && 1 <= n <= |s| && s[n - 1] == Flip(o) && Balanced(s[..n - 1])
    ensures Match(s, [o]) == Closed(n)
  {
    var t :| Legal(t) && Render(t) == s[..n - 1];
    var tail := s[n - 1..];
    assert s == Render(t) + tail;
    PassOver(t, tail, [o]);
    assert Match(tail, [o]) == Closed(1);
  }

  /** From one open bracket the matcher stops exactly behind its partner. */
  lemma MatchIsPair(s: string, o: char, n: nat)
    requires IsOpener(o)
    ensures Match(s, [o]) == Closed(n) <==>
      1 <= n <= |s| && s[n - 1] == Flip(o) && Balanced(s[..n - 1])
  {
    if Match(s, [o]) == Closed(n) {
      ClosedIsBalanced(s, o, n);
    } else if 1 <= n <= |s| && s[n - 1] == Flip(o) && Balanced(s[..n - 1]) {
      BalancedCloses(s, o, n);
    }
  }

  /** Matching from the bracket at a. */
  function MatchFrom(s: string, a: nat): Outcome
    requires a < |s| && IsOpener(s[a])
  {
    Match(s[a + 1..], [s[a]])
  }

  /** The same for a bracket inside a text. */
  lemma PairIsMatch(s: string, a: nat, b: int)
    requires a < |s| && IsOpener(s[a])
    ensures Pair(s, a, b) <==> b > a && MatchFrom(s, a) == Closed(b - a)
  {
    if b > a {
      MatchIsPair(s[a + 1..], s[a], b - a);
      if b < |s| {
        assert s[a + 1..][..b - a - 1] == s[a + 1..b];
      }
    }
  }

  ghost predicate HasPartner(s: string, a: int) {
    exists b: int :: Pair(s, a, b)
  }

  /** Matching can be interrupted anywhere and taken up again with the stack it had. */
  lemma {:induction false} MatchResumes(a: string, b: string, st: string)
    requires Openers(st)
    ensures Match(a + b, st) ==
      (match Match(a, st)
       case Open(st') => Match(b, st').Shift(|a|)
       case other => other)
    decreases |a|
  {
    if a == "" {
      assert a + b == b;
    } else {
      assert (a + b)[1..] == a[1..] + b;
      if IsOpener(a[0]) {
        MatchResumes(a[1..], b, st + [a[0]]);
      } else if !IsCloser(a[0]) {
        MatchResumes(a[1..], b, st);
      } else if a[0] == Flip(Top(st)) && |st| > 1 {
        MatchResumes(a[1..], b, Pop(st));
      }
    }
  }

  // ---- Reading backwards ----

  /** The text as it looks when read from its end, brackets turned round. */
  function Mirror(s: string): (r: string)
    ensures |r| == |s|
    ensures forall i :: 0 <= i < |s| ==> r[i] == Flip(s[|s| - 1 - i])
  {
    seq(|s|, i requires 0 <= i < |s| => Flip(s[|s| - 1 - i]))
  }

  lemma MirrorConcat(a: string, b: string)
    ensures Mirror(a + b) == Mirror(b) + Mirror(a)
  {
  }

  function Join(t: Tree, u: Tree): Tree {
    match t
    case Empty => u
    case Text(c, rest) => Text(c, Join(rest, u))
    case Group(o, inside, after) => Group(o, inside, Join(after, u))
  }

  lemma {:induction false} JoinRenders(t: Tree, u: Tree)
    requires Legal(t) && Legal(u)
    ensures Legal(Join(t, u)) && Render(Join(t, u)) == Render(t) + Render(u)
    decreases t
  {
    match t {
      case Empty =>
      case Text(c, rest) => JoinRenders(rest, u);
      case Group(o, inside, after) => JoinRenders(after, u);
    }
  }

  function MirrorTree(t: Tree): Tree {
    match t
    case Empty => Empty
    case Text(c, rest) => Join(MirrorTree(rest), Text(c, Empty))
    case Group(o, inside, after) => Join(MirrorTree(after), Group(o, MirrorTree(inside), Empty))
  }

  lemma {:induction false} MirrorTreeRenders(t: Tree)
    requires Legal(t)
    ensures Legal(MirrorTree(t)) && Render(MirrorTree(t)) == Mirror(Render(t))
    decreases t
  {
    match t {
      case Empty =>
      case Text(c, rest) =>
        MirrorTreeRenders(rest);
        JoinRenders(MirrorTree(rest), Text(c, Empty));
        MirrorConcat([c], Render(rest));
        assert Mirror([c]) == [c] == Render(Text(c, Empty));
      case Group(o, inside, after) =>
        MirrorTreeRenders(inside);
        MirrorTreeRenders(after);
        JoinRenders(MirrorTree(after), Group(o, MirrorTree(inside), Empty));
        MirrorGroup(o, Render(inside), Render(after));
    }
  }

  lemma MirrorGroup(o: char, inside: string, after: string)
    requires IsOpener(o)
    ensures Mirror([o] + inside + [Flip(o)] + after) == Mirror(after) + ([o] + Mirror(inside) + [Flip(o)] + "")
  {
  }

  lemma MirrorTwice(s: string)
    ensures Mirror(Mirror(s)) == s
  {
  }

  lemma BalancedBackwards(s: string)
    ensures Balanced(Mirror(s)) <==> Balanced(s)
  {
    if Balanced(s) {
      var t :| Legal(t) && Render(t) == s;
      MirrorTreeRenders(t);
    }
    if Balanced(Mirror(s)) {
      var t :| Legal(t) && Render(t) == Mirror(s);
      MirrorTreeRenders(t);
      MirrorTwice(s);
    }
  }
}

/** Template argument lists as a grammar over kinds of characters, and the stack machine that both
    bracket scanners are: from an open angle it stops exactly behind the list that the grammar gives. */
module AngleGrammar {
  import opened Brackets
  import opened ForwardScan

  /** What a character counts as. A `Shift` takes back an open angle without closing a list. */
  datatype Token = Opens(c: char) | Closes(c: char) | Less | Greater | Shift | Semi | Other

  datatype Move = Go(stack: string) | Stop | Bad

  function Next(t: Token, st: string): Move {
    match t
    case Opens(c) => Go(st + [c])
    case Closes(c) =>
      var rest := DropTops(st, '<');
      if rest == "" || c != Flip(Top(rest)) then Bad else if Pop(rest) == "" then Stop else Go(Pop(rest))
    case Less => Go(st + ['<'])
    case Greater =>
      if st == "" || Top(st) != '<' then Go(st) else if Pop(st) == "" then Stop else Go(Pop(st))
    case Shift =>
      if st == "" || Top(st) != '<' then Go(st) else if Pop(st) == "" then Bad else Go(Pop(st))
    case Semi => if DropTops(st, '<') == "" then Bad else Go(DropTops(st, '<'))
    case Other => Go(st)
  }

  datatype Result = Done(n: nat) | Failure | Running(stack: string)

  function Scan(ts: seq<Token>, i: nat, st: string): Result
    decreases |ts| - i
  {
    if i >= |ts| then Running(st)
    else
      match Next(ts[i], st)
      case Go(st') => Scan(ts, i + 1, st')
      case Stop => Done(i + 1)
      case Bad => Failure
  }

  // ---- The grammar ----

  /** The brackets among the tokens, as a text. */
  function Letter(t: Token): char {
    match t
    case Opens(c) => if IsOpener(c) then c else '.'
    case Closes(c) => if IsCloser(c) then c else '.'
    case _ => '.'
  }

  function Letters(ts: seq<Token>): (s: string)
    ensures |s| == |ts| && forall i :: 0 <= i < |ts| ==> s[i] == Letter(ts[i])
  {
    seq(|ts|, i requires 0 <= i < |ts| => Letter(ts[i]))
  }

  /** The tokens of a scan: brackets are brackets. */
  predicate Proper(ts: seq<Token>) {
    forall i :: 0 <= i < |ts| ==> (ts[i].Opens? ==> IsOpener(ts[i].c)) && (ts[i].Closes? ==> IsCloser(ts[i].c))
  }

  /** A list: characters without a meaning, bracketed text with anything in it, and angles within,
      which end at `>` or are taken back by a shift. */
  datatype List =
    | Nil
    | Char(rest: List)
    | Bracket(open: char, inside: seq<Token>, rest: List)
    | Angle(list: List, shift: bool, rest: List)

  function Written(t: List): seq<Token> {
    match t
    case Nil => []
    case Char(rest) => [Other] + Written(rest)
    case Bracket(o, x, rest) => [Opens(o)] + x + [Closes(Flip(o))] + Written(rest)
    case Angle(x, shift, rest) => [Less] + Written(x) + [End(shift)] + Written(rest)
  }

  function End(shift: bool): Token {
    if shift then Shift else Greater
  }

  ghost predicate Correct(t: List) {
    match t
    case Nil => true
    case Char(rest) => Correct(rest)
    case Bracket(o, x, rest) => IsOpener(o) && Balanced(Letters(x)) && Correct(rest)
    case Angle(x, _, rest) => Correct(x) && Correct(rest)
  }

  ghost predicate Writes(t: List, ts: seq<Token>) {
    Correct(t) && Written(t) == ts
  }

  ghost predicate IsList(ts: seq<Token>) {
    exists t :: Writes(t, ts)
  }

  // ---- Inside brackets the machine is the plain matcher ----

  lemma {:induction false} DropBase(base: string, r: string)
    requires Rooted(r)
    ensures DropTops(base + r, '<') == base + DropTops(r, '<') && DropTops(r, '<') != ""
    decreases |r|
  {
    if Top(r) == '<' {
      assert (base + r)[..|base + r| - 1] == base + Pop(r);
      DropBase(base, Pop(r));
    }
  }

  /** One token on a stack with an open bracket in it, above any base. */
  lemma RootedNext(t: Token, base: string, r: string) returns (r': string)
    requires Rooted(r) && !t.Opens? && !t.Closes?
    ensures Rooted(r') && OpenBrackets(r') == OpenBrackets(r) && Next(t, base + r) == Go(base + r')
  {
    RootedBrackets(r);
    DropBase(base, r);
    assert (base + r)[|base + r| - 1] == Top(r) && Pop(base + r) == base + Pop(r);
    assert Pop(r + ['<']) == r && base + r + ['<'] == base + (r + ['<']);
    r' := if t.Less? then r + ['<'] else if t.Semi? then DropTops(r, '<')
          else if (t.Greater? || t.Shift?) && Top(r) == '<' then Pop(r) else r;
  }

  lemma LettersStep(ts: seq<Token>, i: nat)
    requires i < |ts|
    ensures Letters(ts)[i..] != "" && Letters(ts)[i..][0] == Letter(ts[i])
    ensures Letters(ts)[i..][1..] == Letters(ts)[i + 1..]
  {
  }

  /** Above a base that is not empty, the bracket closes where the plain matcher says. */
  ghost predicate Agrees(ts: seq<Token>, i: nat, base: string, r: string, o: Outcome) {
    match o
    case Closed(m) => i + m <= |ts| && Scan(ts, i, base + r) == Scan(ts, i + m, base)
    case Failed => Scan(ts, i, base + r) == Failure
    case Open(_) => Scan(ts, i, base + r).Running?
  }

  lemma ScanGoes(ts: seq<Token>, i: nat, st: string, st': string)
    requires i < |ts| && Next(ts[i], st) == Go(st')
    ensures Scan(ts, i, st) == Scan(ts, i + 1, st')
  {
  }

  lemma AgreesBefore(ts: seq<Token>, i: nat, base: string, r: string, r': string, o: Outcome)
    requires i < |ts| && Next(ts[i], base + r) == Go(base + r') && Agrees(ts, i + 1, base, r', o)
    ensures Agrees(ts, i, base, r, o.Shift(1))
  {
    ScanGoes(ts, i, base + r, base + r');
  }

  lemma OpensNext(c: char, base: string, r: string)
    requires Rooted(r) && IsOpener(c)
    ensures Next(Opens(c), base + r) == Go(base + (r + [c]))
    ensures Rooted(r + [c]) && OpenBrackets(r + [c]) == OpenBrackets(r) + [c]
  {
    assert Pop(r + [c]) == r && base + r + [c] == base + (r + [c]);
  }

  /** The plain matcher on the letter of one token. */
  lemma MatchLetter(ts: seq<Token>, i: nat, bs: string)
    requires i < |ts| && Proper(ts) && Openers(bs)
    ensures ts[i].Opens? ==>
      Match(Letters(ts)[i..], bs) == Match(Letters(ts)[i + 1..], bs + [ts[i].c]).Shift(1)
    ensures !ts[i].Opens? && !ts[i].Closes? ==> Match(Letters(ts)[i..], bs) == Match(Letters(ts)[i + 1..], bs).Shift(1)
    ensures ts[i].Closes? ==>
      Match(Letters(ts)[i..], bs) ==
        (if ts[i].c != Flip(Top(bs)) then Failed
         else if |bs| == 1 then Closed(1)
         else Match(Letters(ts)[i + 1..], Pop(bs)).Shift(1))
  {
    LettersStep(ts, i);
  }

  lemma {:induction false} BracketScan(ts: seq<Token>, i: nat, base: string, r: string)
    requires i <= |ts| && Proper(ts) && base != "" && Rooted(r)
    ensures Openers(OpenBrackets(r)) && Agrees(ts, i, base, r, Match(Letters(ts)[i..], OpenBrackets(r)))
    decreases |ts| - i, 1
  {
    RootedBrackets(r);
    if i < |ts| {
      MatchLetter(ts, i, OpenBrackets(r));
      if ts[i].Closes? {
        BracketScanCloser(ts, i, base, r);
      } else {
        var r';
        if ts[i].Opens? {
          OpensNext(ts[i].c, base, r);
          r' := r + [ts[i].c];
        } else {
          r' := RootedNext(ts[i], base, r);
        }
        BracketScan(ts, i + 1, base, r');
        AgreesBefore(ts, i, base, r, r', Match(Letters(ts)[i + 1..], OpenBrackets(r')));
      }
    }
  }

  lemma CloserNext(c: char, base: string, r: string)
    requires Rooted(r) && base != ""
    ensures var rest := DropTops(r, '<');
      && rest != ""
      && Next(Closes(c), base + r) == (if c != Flip(Top(rest)) then Bad else Go(base + Pop(rest)))
  {
    DropBase(base, r);
    var rest := DropTops(r, '<');
    assert (base + rest)[|base + rest| - 1] == Top(rest) && Pop(base + rest) == base + Pop(rest);
  }

  lemma {:induction false} BracketScanCloser(ts: seq<Token>, i: nat, base: string, r: string)
    requires i < |ts| && Proper(ts) && base != "" && Rooted(r) && ts[i].Closes?
    ensures Openers(OpenBrackets(r)) && Agrees(ts, i, base, r, Match(Letters(ts)[i..], OpenBrackets(r)))
    decreases |ts| - i, 0
  {
    RootedBrackets(r);
    MatchLetter(ts, i, OpenBrackets(r));
    CloserNext(ts[i].c, base, r);
    InnermostBracket(r);
    var rest := DropTops(r, '<');
    if ts[i].c == Flip(Top(rest)) {
      if |rest| > 1 {
        BracketScan(ts, i + 1, base, Pop(rest));
        AgreesBefore(ts, i, base, r, Pop(rest), Match(Letters(ts)[i + 1..], OpenBrackets(Pop(rest))));
      } else {
        assert Pop(rest) == "" && base + "" == base;
        ScanGoes(ts, i, base + r, base);
      }
    }
  }

  /** From an opening bracket: the scan goes on behind its partner, or ends without success. */
  lemma OverBracket(ts: seq<Token>, i: nat, st: string)
    requires i < |ts| && Proper(ts) && st != "" && ts[i].Opens?
    ensures match Match(Letters(ts)[i + 1..], [ts[i].c])
      case Closed(m) => i + 1 + m <= |ts| && Scan(ts, i, st) == Scan(ts, i + 1 + m, st)
      case _ => !Scan(ts, i, st).Done?
  {
    var r := [ts[i].c];
    assert Pop(r) == "" && OpenBrackets(r) == OpenBrackets("") + r == r;
    BracketScan(ts, i + 1, st, r);
  }

  // ---- The machine passes over a list ----

  predicate StandsAt<T(==)>(s: seq<T>, i: nat, x: seq<T>) {
    i + |x| <= |s| && s[i..i + |x|] == x
  }

  lemma Stands<T>(s: seq<T>, i: nat, a: seq<T>, b: seq<T>)
    requires StandsAt(s, i, a + b)
    ensures StandsAt(s, i, a) && StandsAt(s, i + |a|, b)
  {
    assert s[i..i + |a|] == (a + b)[..|a|] == a;
    assert s[i + |a|..i + |a| + |b|] == (a + b)[|a|..] == b;
  }

  lemma First<T>(s: seq<T>, i: nat, x: T)
    requires StandsAt(s, i, [x])
    ensures i < |s| && s[i] == x
  {
    assert s[i] == s[i..i + 1][0];
  }

  /** Where the list that stands at i ends, and -1 if it does not stand there. */
  function Reached(ts: seq<Token>, i: nat, t: List): int
    decreases t
  {
    match t
    case Nil => i
    case Char(rest) => if i < |ts| && ts[i] == Other then Reached(ts, i + 1, rest) else -1
    case Bracket(o, x, rest) => if BracketAt(ts, i, o, x) then Reached(ts, i + 2 + |x|, rest) else -1
    case Angle(x, shift, rest) =>
      if i < |ts| && ts[i] == Less then
        var e := Reached(ts, i + 1, x);
        if 0 <= e < |ts| && ts[e] == End(shift) then Reached(ts, e + 1, rest) else -1
      else -1
  }

  predicate BracketAt(ts: seq<Token>, i: nat, o: char, x: seq<Token>) {
    && i + 1 + |x| < |ts| && ts[i] == Opens(o) && StandsAt(ts, i + 1, x) && ts[i + 1 + |x|] == Closes(Flip(o))
  }

  lemma BracketStands(ts: seq<Token>, i: nat, o: char, x: seq<Token>, rest: seq<Token>)
    requires StandsAt(ts, i, [Opens(o)] + x + [Closes(Flip(o))] + rest)
    ensures BracketAt(ts, i, o, x) && StandsAt(ts, i + 2 + |x|, rest)
  {
    Stands(ts, i, [Opens(o)] + x + [Closes(Flip(o))], rest);
    Stands(ts, i, [Opens(o)] + x, [Closes(Flip(o))]);
    Stands(ts, i, [Opens(o)], x);
    First(ts, i, Opens(o));
    First(ts, i + 1 + |x|, Closes(Flip(o)));
  }

  lemma AngleStands(ts: seq<Token>, i: nat, x: seq<Token>, end: Token, rest: seq<Token>)
    requires StandsAt(ts, i, [Less] + x + [end] + rest)
    ensures i + 1 + |x| < |ts| && ts[i] == Less && ts[i + 1 + |x|] == end
    ensures StandsAt(ts, i + 1, x) && StandsAt(ts, i + 2 + |x|, rest)
  {
    Stands(ts, i, [Less] + x + [end], rest);
    Stands(ts, i, [Less] + x, [end]);
    Stands(ts, i, [Less], x);
    First(ts, i, Less);
    First(ts, i + 1 + |x|, end);
  }

  lemma {:induction false} Spells(ts: seq<Token>, i: nat, t: List)
    requires StandsAt(ts, i, Written(t))
    ensures Reached(ts, i, t) == i + |Written(t)|
    decreases t, 1
  {
    match t {
      case Nil =>
      case Char(rest) => SpellsChar(ts, i, rest, Written(rest));
      case Bracket(o, x, rest) => SpellsBracket(ts, i, o, x, rest, Written(rest));
      case Angle(x, shift, rest) => SpellsAngle(ts, i, t, x, shift, rest, Written(x), Written(rest));
    }
  }

  lemma {:induction false} SpellsChar(ts: seq<Token>, i: nat, rest: List, wr: seq<Token>)
    requires wr == Written(rest) && StandsAt(ts, i, [Other] + wr)
    ensures i < |ts| && ts[i] == Other && Reached(ts, i + 1, rest) == i + 1 + |wr|
    decreases rest, 2
  {
    Stands(ts, i, [Other], wr);
    First(ts, i, Other);
    Spells(ts, i + 1, rest);
  }

  lemma {:induction false} SpellsBracket(ts: seq<Token>, i: nat, o: char, x: seq<Token>, rest: List, wr: seq<Token>)
    requires wr == Written(rest) && StandsAt(ts, i, [Opens(o)] + x + [Closes(Flip(o))] + wr)
    ensures BracketAt(ts, i, o, x) && Reached(ts, i + 2 + |x|, rest) == i + 2 + |x| + |wr|
    decreases rest, 2
  {
    BracketStands(ts, i, o, x, wr);
    Spells(ts, i + 2 + |x|, rest);
  }

  lemma {:induction false} SpellsAngle(ts: seq<Token>, i: nat, t: List, x: List, shift: bool, rest: List,
                                       wx: seq<Token>, wr: seq<Token>)
    requires t == Angle(x, shift, rest) && wx == Written(x) && wr == Written(rest)
    requires StandsAt(ts, i, [Less] + wx + [End(shift)] + wr)
    ensures i < |ts| && ts[i] == Less && Reached(ts, i + 1, x) == i + 1 + |wx| < |ts|
    ensures ts[i + 1 + |wx|] == End(shift) && Reached(ts, i + 2 + |wx|, rest) == i + 2 + |wx| + |wr|
    decreases t, 0
  {
    AngleStands(ts, i, wx, End(shift), wr);
    Spells(ts, i + 1, x);
    Spells(ts, i + 2 + |wx|, rest);
  }

  lemma MatchesAt(ts: seq<Token>, i: nat, o: char, x: seq<Token>, s: string)
    requires IsOpener(o) && Balanced(Letters(x)) && BracketAt(ts, i, o, x) && s == Letters(ts)[i + 1..]
    ensures Match(s, [o]) == Closed(|x| + 1)
  {
    assert s[..|x|] == Letters(x);
    MatchIsPair(s, o, |x| + 1);
  }

  lemma OverBalanced(ts: seq<Token>, i: nat, o: char, x: seq<Token>, st: string)
    requires Proper(ts) && IsOpener(o) && Balanced(Letters(x)) && BracketAt(ts, i, o, x) && st != ""
    ensures Scan(ts, i, st) == Scan(ts, i + 2 + |x|, st)
  {
    MatchesAt(ts, i, o, x, Letters(ts)[i + 1..]);
    OverBracket(ts, i, st);
  }

  lemma OverOther(ts: seq<Token>, i: nat, st: string)
    requires i < |ts| && ts[i] == Other
    ensures Scan(ts, i, st) == Scan(ts, i + 1, st)
  {
  }

  lemma OverLess(ts: seq<Token>, i: nat, st: string) returns (st': string)
    requires i < |ts| && ts[i] == Less
    ensures st' != "" && Top(st') == '<' && Pop(st') == st && Scan(ts, i, st) == Scan(ts, i + 1, st')
  {
    st' := st + ['<'];
  }

  lemma OverEnd(ts: seq<Token>, i: nat, shift: bool, st': string)
    requires i < |ts| && ts[i] == End(shift) && st' != "" && Top(st') == '<' && Pop(st') != ""
    ensures Scan(ts, i, st') == Scan(ts, i + 1, Pop(st'))
  {
  }

  lemma {:induction false} PassesList(ts: seq<Token>, i: nat, t: List, st: string)
    requires Proper(ts) && Correct(t) && Reached(ts, i, t) >= 0 && st != ""
    ensures Scan(ts, i, st) == Scan(ts, Reached(ts, i, t), st)
    decreases t, 1
  {
    match t {
      case Nil =>
      case Char(rest) =>
        OverOther(ts, i, st);
        PassesList(ts, i + 1, rest, st);
      case Bracket(o, x, rest) =>
        OverBalanced(ts, i, o, x, st);
        PassesList(ts, i + 2 + |x|, rest, st);
      case Angle(x, shift, rest) => PassesAngle(ts, i, t, x, shift, rest, st);
    }
  }

  lemma {:induction false} PassesAngle(ts: seq<Token>, i: nat, t: List, x: List, shift: bool, rest: List, st: string)
    requires Proper(ts) && t == Angle(x, shift, rest) && Correct(x) && Correct(rest)
    requires Reached(ts, i, t) >= 0 && st != ""
    ensures Scan(ts, i, st) == Scan(ts, Reached(ts, i, t), st)
    decreases t, 0
  {
    var st' := OverLess(ts, i, st);
    PassesList(ts, i + 1, x, st');
    var e := Reached(ts, i + 1, x);
    OverEnd(ts, e, shift, st');
    PassesList(ts, e + 1, rest, st);
  }

  // ---- And stops only behind one ----

  function Lesses(k: nat): (st: string)
    ensures |st| == k && forall i :: 0 <= i < k ==> st[i] == '<'
  {
    seq(k, _ => '<')
  }

  /** A list for every open angle, innermost first, each but the last with its end. */
  function Nested(xs: seq<List>, shifts: seq<bool>): seq<Token>
    requires |xs| == |shifts| + 1
  {
    if shifts == [] then Written(xs[0]) else Written(xs[0]) + ([End(shifts[0])] + Nested(xs[1..], shifts[1..]))
  }

  ghost predicate AllCorrect(xs: seq<List>) {
    forall i :: 0 <= i < |xs| ==> Correct(xs[i])
  }

  ghost predicate Reads(ts: seq<Token>, i: nat, n: nat, xs: seq<List>, shifts: seq<bool>) {
    && i < n <= |ts| && ts[n - 1] == Greater
    && |xs| == |shifts| + 1 && AllCorrect(xs) && ts[i..n - 1] == Nested(xs, shifts)
  }

  lemma LessesNext(t: Token, k: nat)
    requires k > 0
    ensures t.Less? ==> Next(t, Lesses(k)) == Go(Lesses(k + 1))
    ensures t.Greater? ==> Next(t, Lesses(k)) == if k == 1 then Stop else Go(Lesses(k - 1))
    ensures t.Shift? ==> Next(t, Lesses(k)) == if k == 1 then Bad else Go(Lesses(k - 1))
    ensures t.Semi? || t.Closes? ==> Next(t, Lesses(k)) == Bad
  {
    assert Lesses(k) + ['<'] == Lesses(k + 1) && Pop(Lesses(k)) == Lesses(k - 1);
    var rest := DropTops(Lesses(k), '<');
    assert forall i :: 0 <= i < |rest| ==> rest[i] == Lesses(k)[i];
  }

  lemma Reassociate<T>(a: seq<T>, b: seq<T>, c: seq<T>)
    ensures (a + b) + c == a + (b + c)
  {
  }

  /** What stands behind the innermost list. */
  function Behind(xs: seq<List>, shifts: seq<bool>): seq<Token>
    requires |xs| == |shifts|
  {
    if shifts == [] then [] else [End(shifts[0])] + Nested(xs, shifts[1..])
  }

  lemma NestedFirst(x: List, xs: seq<List>, shifts: seq<bool>)
    requires |xs| == |shifts|
    ensures Nested([x] + xs, shifts) == Written(x) + Behind(xs, shifts)
  {
    assert ([x] + xs)[1..] == xs;
  }

  lemma NestedHead(x: List, xs: seq<List>, shifts: seq<bool>, front: seq<Token>, w: List)
    requires |xs| == |shifts| && Written(w) == front + Written(x)
    ensures Nested([w] + xs, shifts) == front + Nested([x] + xs, shifts)
  {
    NestedFirst(x, xs, shifts);
    NestedFirst(w, xs, shifts);
    Reassociate(front, Written(x), Behind(xs, shifts));
  }

  lemma SliceFront(ts: seq<Token>, i: nat, k: nat, n: nat)
    requires i <= k <= n <= |ts|
    ensures ts[i..n] == ts[i..k] + ts[k..n]
  {
  }

  lemma HeadIs(xs: seq<List>)
    requires xs != []
    ensures [xs[0]] + xs[1..] == xs
  {
  }

  lemma NestedSlice(ts: seq<Token>, i: nat, k: nat, n: nat, w: List, xs: seq<List>, shifts: seq<bool>)
    requires i <= k <= n <= |ts| && |xs| == |shifts| + 1 && ts[k..n] == Nested(xs, shifts)
    requires Written(w) == ts[i..k] + Written(xs[0])
    ensures ts[i..n] == Nested([w] + xs[1..], shifts)
  {
    NestedHead(xs[0], xs[1..], shifts, ts[i..k], w);
    HeadIs(xs);
    SliceFront(ts, i, k, n);
  }

  lemma ReadsFront(ts: seq<Token>, i: nat, k: nat, n: nat, w: List, xs: seq<List>, shifts: seq<bool>)
    requires i < k && Reads(ts, k, n, xs, shifts) && Correct(w) && Written(w) == ts[i..k] + Written(xs[0])
    ensures Reads(ts, i, n, [w] + xs[1..], shifts)
  {
    NestedSlice(ts, i, k, n - 1, w, xs, shifts);
    CorrectFirst(w, xs);
  }

  lemma CorrectFirst(w: List, xs: seq<List>)
    requires Correct(w) && AllCorrect(xs) && xs != []
    ensures AllCorrect([w] + xs) && AllCorrect([w] + xs[1..])
  {
  }

  lemma OneToken(ts: seq<Token>, i: nat)
    requires i < |ts|
    ensures ts[i..i + 1] == [ts[i]]
  {
  }

  lemma ReadsEnd(ts: seq<Token>, i: nat, n: nat, shift: bool, xs: seq<List>, shifts: seq<bool>)
    requires i < |ts| && ts[i] == End(shift) && Reads(ts, i + 1, n, xs, shifts)
    ensures Reads(ts, i, n, [Nil] + xs, [shift] + shifts)
  {
    NestedFirst(Nil, xs, [shift] + shifts);
    assert ([shift] + shifts)[1..] == shifts;
    assert [] + Behind(xs, [shift] + shifts) == [ts[i]] + Nested(xs, shifts);
    SliceFront(ts, i, i + 1, n - 1);
    OneToken(ts, i);
    CorrectFirst(Nil, xs);
  }

  lemma AngleWritten(x: List, shift: bool, y: List)
    ensures Written(Angle(x, shift, y)) == ([Less] + Written(x) + [End(shift)]) + Written(y)
  {
  }

  lemma LessNested(x: seq<Token>, end: seq<Token>, tail: seq<Token>)
    ensures [Less] + (x + (end + tail)) == ([Less] + x + end) + tail
  {
  }

  lemma ReadsLess(ts: seq<Token>, i: nat, n: nat, xs: seq<List>, shifts: seq<bool>)
    requires i < |ts| && ts[i] == Less && Reads(ts, i + 1, n, xs, shifts) && shifts != []
    ensures Reads(ts, i, n, [Angle(xs[0], shifts[0], xs[1])] + xs[2..], shifts[1..])
  {
    var w := Angle(xs[0], shifts[0], xs[1]);
    AngleWritten(xs[0], shifts[0], xs[1]);
    NestedHead(xs[1], xs[2..], shifts[1..], [Less] + Written(xs[0]) + [End(shifts[0])], w);
    assert xs[1..] == [xs[1]] + xs[2..];
    LessNested(Written(xs[0]), [End(shifts[0])], Nested(xs[1..], shifts[1..]));
    SliceFront(ts, i, i + 1, n - 1);
    OneToken(ts, i);
    CorrectAngle(xs, shifts[0]);
  }

  lemma CorrectAngle(xs: seq<List>, shift: bool)
    requires |xs| > 1 && AllCorrect(xs)
    ensures AllCorrect([Angle(xs[0], shift, xs[1])] + xs[2..])
  {
  }

  /** The bracketed text that the scan has passed over. */
  lemma BracketIs(ts: seq<Token>, i: nat, m: nat)
    requires i < |ts| && Proper(ts) && ts[i].Opens? && Match(Letters(ts)[i + 1..], [ts[i].c]) == Closed(m)
    requires i + 1 + m <= |ts|
    ensures m > 0 && Balanced(Letters(ts[i + 1..i + m]))
    ensures ts[i..i + 1 + m] == [ts[i]] + ts[i + 1..i + m] + [Closes(Flip(ts[i].c))]
  {
    var s := Letters(ts)[i + 1..];
    MatchIsPair(s, ts[i].c, m);
    assert s[..m - 1] == Letters(ts[i + 1..i + m]);
    assert s[m - 1] == Letter(ts[i + m]) == Flip(ts[i].c);
    assert ts[i + m] == Closes(Flip(ts[i].c));
  }

  lemma {:induction false} StopsBehindList(ts: seq<Token>, i: nat, k: nat, n: nat)
    returns (xs: seq<List>, shifts: seq<bool>)
    requires i <= |ts| && k > 0 && Proper(ts) && Scan(ts, i, Lesses(k)) == Done(n)
    ensures |shifts| == k - 1 && Reads(ts, i, n, xs, shifts)
    decreases |ts| - i
  {
    LessesNext(ts[i], k);
    match ts[i] {
      case Other =>
        xs, shifts := StopsBehindList(ts, i + 1, k, n);
        assert ts[i..i + 1] == [Other];
        ReadsFront(ts, i, i + 1, n, Char(xs[0]), xs, shifts);
        xs := [Char(xs[0])] + xs[1..];
      case Opens(c) => xs, shifts := StopsBehindBracket(ts, i, k, n);
      case Less =>
        xs, shifts := StopsBehindList(ts, i + 1, k + 1, n);
        ReadsLess(ts, i, n, xs, shifts);
        xs, shifts := [Angle(xs[0], shifts[0], xs[1])] + xs[2..], shifts[1..];
      case Greater =>
        if k == 1 {
          xs, shifts := [Nil], [];
        } else {
          xs, shifts := StopsBehindList(ts, i + 1, k - 1, n);
          ReadsEnd(ts, i, n, false, xs, shifts);
          xs, shifts := [Nil] + xs, [false] + shifts;
        }
      case Shift =>
        xs, shifts := StopsBehindList(ts, i + 1, k - 1, n);
        ReadsEnd(ts, i, n, true, xs, shifts);
        xs, shifts := [Nil] + xs, [true] + shifts;
    }
  }

  lemma BracketWritten(ts: seq<Token>, i: nat, m: nat, rest: List) returns (w: List)
    requires i < |ts| && Proper(ts) && ts[i].Opens? && Match(Letters(ts)[i + 1..], [ts[i].c]) == Closed(m)
    requires i + 1 + m <= |ts| && Correct(rest)
    ensures Correct(w) && Written(w) == ts[i..i + 1 + m] + Written(rest)
  {
    BracketIs(ts, i, m);
    w := Bracket(ts[i].c, ts[i + 1..i + m], rest);
  }

  lemma ReadsBracket(ts: seq<Token>, i: nat, m: nat, n: nat, xs: seq<List>, shifts: seq<bool>) returns (w: List)
    requires i < |ts| && Proper(ts) && ts[i].Opens? && Match(Letters(ts)[i + 1..], [ts[i].c]) == Closed(m)
    requires i + 1 + m <= |ts| && Reads(ts, i + 1 + m, n, xs, shifts)
    ensures Reads(ts, i, n, [w] + xs[1..], shifts)
  {
    w := BracketWritten(ts, i, m, xs[0]);
    ReadsFront(ts, i, i + 1 + m, n, w, xs, shifts);
  }

  lemma {:induction false} StopsBehindBracket(ts: seq<Token>, i: nat, k: nat, n: nat)
    returns (xs: seq<List>, shifts: seq<bool>)
    requires i < |ts| && k > 0 && Proper(ts) && Scan(ts, i, Lesses(k)) == Done(n) && ts[i].Opens?
    ensures |shifts| == k - 1 && Reads(ts, i, n, xs, shifts)
    decreases |ts| - i, 0
  {
    OverBracket(ts, i, Lesses(k));
    var m := Match(Letters(ts)[i + 1..], [ts[i].c]).n;
    xs, shifts := StopsBehindList(ts, i + 1 + m, k, n);
    var w := ReadsBracket(ts, i, m, n, xs, shifts);
    xs := [w] + xs[1..];
  }

  /** From an open angle the machine stops behind token n - 1 if and only if that is a `>` that counts
      and the tokens before it are a list. */
  lemma StopsIffList(ts: seq<Token>, i: nat, n: nat, st: string)
    requires Proper(ts) && i < n <= |ts| && st == ['<']
    ensures Scan(ts, i, st) == Done(n) <==> ts[n - 1] == Greater && IsList(ts[i..n - 1])
  {
    assert st == Lesses(1) && Pop(st) == "";
    if Scan(ts, i, st) == Done(n) {
      var xs, shifts := StopsBehindList(ts, i, 1, n);
      assert Writes(xs[0], ts[i..n - 1]);
    }
    if ts[n - 1] == Greater && IsList(ts[i..n - 1]) {
      var t :| Writes(t, ts[i..n - 1]);
      Spells(ts, i, t);
      PassesList(ts, i, t, st);
    }
  }
}

/** Lines of code whose braces balance leave the stack of open blocks as they found it. */
module NestingLines {
  import opened Basics
  import opened Nesting

  /** Statements and braced blocks, as the tokens of a line show them. */
  datatype Code = Nothing | Statement(end: Token, more: Code) | Braces(open: Token, inside: Code, after: Code)

  predicate IsCode(c: Code) {
    match c
    case Nothing => true
    case Statement(t, more) => (t.Semicolon? || t.CloseParen?) && IsCode(more)
    case Braces(open, inside, after) => open.OpenBrace? && IsCode(inside) && IsCode(after)
  }

  function Tokens(c: Code): seq<Token> {
    match c
    case Nothing => []
    case Statement(t, more) => [t] + Tokens(more)
    case Braces(open, inside, after) => [open] + (Tokens(inside) + ([CloseBrace] + Tokens(after)))
  }

  lemma ConsumeFirst(st: seq<Block>, t: Token, tail: seq<Token>, number: nat)
    ensures ConsumeAll(st, [t] + tail, number) == ConsumeAll(Consume(st, t, number), tail, number)
  {
    assert ([t] + tail)[1..] == tail;
  }

  /** Inside a block whose brace has been seen, balanced code changes nothing. */
  lemma {:induction false} CodeKeeps(st: seq<Block>, c: Code, tail: seq<Token>, number: nat)
    requires SeenOpenBrace(st) && IsCode(c)
    ensures ConsumeAll(st, Tokens(c) + tail, number) == ConsumeAll(st, tail, number)
    decreases c
  {
    match c {
      case Nothing =>
        assert [] + tail == tail;
      case Statement(t, more) =>
        assert [t] + Tokens(more) + tail == [t] + (Tokens(more) + tail);
        ConsumeFirst(st, t, Tokens(more) + tail, number);
        CodeKeeps(st, more, tail, number);
      case Braces(open, inside, after) =>
        var rest := [CloseBrace] + (Tokens(after) + tail);
        BracesText(open, Tokens(inside), Tokens(after), tail);
        ConsumeFirst(st, open, Tokens(inside) + rest, number);
        var st' := Consume(st, open, number);
        CodeKeeps(st', inside, rest, number);
        ConsumeFirst(st', CloseBrace, Tokens(after) + tail, number);
        assert st'[..|st'| - 1] == st;
        CodeKeeps(st, after, tail, number);
    }
  }

  lemma BracesText(open: Token, inside: seq<Token>, after: seq<Token>, tail: seq<Token>)
    ensures [open] + (inside + ([CloseBrace] + after)) + tail ==
            [open] + (inside + ([CloseBrace] + (after + tail)))
  {
  }

  /** A head that waits for its brace, the brace, a body and the closing brace: all of it goes. */
  lemma DefinitionKeeps(st: seq<Block>, head: Block, open: Token, body: Code, tail: seq<Token>, number: nat)
    requires !head.seenOpenBrace && open.OpenBrace? && IsCode(body)
    ensures ConsumeAll(st + [head], [open] + (Tokens(body) + ([CloseBrace] + tail)), number) ==
            ConsumeAll(st, tail, number)
  {
    var rest := [CloseBrace] + tail;
    var seen := st + [head.(seenOpenBrace := true)];
    ConsumeFirst(st + [head], open, Tokens(body) + rest, number);
    assert Consume(st + [head], open, number) == seen;
    CodeKeeps(seen, body, rest, number);
    ConsumeFirst(seen, CloseBrace, tail, number);
    assert seen[..|st|] == st;
  }

  /** A head that meets a semicolon or a closing parenthesis first was none. */
  lemma ForwardDeclarationKeeps(st: seq<Block>, head: Block, t: Token, tail: seq<Token>, number: nat)
    requires !head.seenOpenBrace && (t.Semicolon? || t.CloseParen?)
    ensures ConsumeAll(st + [head], [t] + tail, number) == ConsumeAll(st, tail, number)
  {
    ConsumeFirst(st + [head], t, tail, number);
    assert (st + [head])[..|st|] == st;
  }

  function Closers(k: nat): seq<Token> {
    if k == 0 then [] else [CloseBrace] + Closers(k - 1)
  }

  lemma {:induction false} ClosersSnoc(k: nat)
    ensures Closers(k) + [CloseBrace] == [CloseBrace] + Closers(k)
  {
    if k > 0 {
      ClosersSnoc(k - 1);
      assert [CloseBrace] + Closers(k - 1) + [CloseBrace] == [CloseBrace] + (Closers(k - 1) + [CloseBrace]);
    }
  }

  /** The namespaces that a line opens with their braces, and as many closing braces. */
  lemma {:induction false} NamespacesClose(st: seq<Block>, ns: seq<NamespaceDecl>, number: nat)
    requires forall i :: 0 <= i < |ns| ==> ns[i].hasBrace
    ensures SeenOpenBrace(st) ==> SeenOpenBrace(PushNamespaces(st, ns, number))
    ensures ConsumeAll(PushNamespaces(st, ns, number), Closers(|ns|), number) == st
    decreases |ns|
  {
    if ns != [] {
      var b := NewBlock(Namespace(ns[0].name), number, ns[0].hasBrace);
      NamespacesClose(st + [b], ns[1..], number);
      var pushed, k := PushNamespaces(st, ns, number), |ns| - 1;
      ClosersSnoc(k);
      ConsumeConcat(pushed, Closers(k), [CloseBrace], number);
      ConsumeFirst(st + [b], CloseBrace, [], number);
      assert [CloseBrace] + [] == [CloseBrace] && (st + [b])[..|st|] == st;
    }
  }

  lemma {:induction false} ConsumeConcat(st: seq<Block>, a: seq<Token>, b: seq<Token>, number: nat)
    ensures ConsumeAll(st, a + b, number) == ConsumeAll(ConsumeAll(st, a, number), b, number)
    decreases |a|
  {
    if a == [] {
      assert a + b == b;
    } else {
      assert a + b == [a[0]] + (a[1..] + b);
      ConsumeFirst(st, a[0], a[1..] + b, number);
      ConsumeConcat(Consume(st, a[0], number), a[1..], b, number);
    }
  }

  /** What stands on a line behind its namespaces and closes all that the line opens: code, or
      the rest of a class and more code, and then the braces of the namespaces. */
  ghost predicate ClosesAll(line: Line, takesClass: bool, open: Token, body: Code, more: Code) {
    && IsCode(body) && IsCode(more) && open.OpenBrace?
    && (forall i :: 0 <= i < |line.namespaces| ==> line.namespaces[i].hasBrace)
    && if takesClass
       then line.classDecl.Some? && line.classDecl.value.rest.tokens ==
            [open] + (Tokens(body) + ([CloseBrace] + (Tokens(more) + Closers(|line.namespaces|))))
       else line.rest == Rest(None, Tokens(more) + Closers(|line.namespaces|))
  }

  /** A class head that has just been pushed, after its base classes and access keyword. */
  lemma HeadOnTop(st: seq<Block>, line: Line, access: Option<string>) returns (head: Block)
    requires TakesClass(st, line, false)
    ensures SetAccess(CheckBegin(PushClass(st, line, false), line), access) == st + [head] && !head.seenOpenBrace
  {
    var st2 := SetAccess(CheckBegin(PushClass(st, line, false), line), access);
    head := st2[|st|];
    assert st2 == st + [head];
  }

  lemma NoHeadOnTop(st: seq<Block>, line: Line, inTemplate: bool)
    requires SeenOpenBrace(st) && !TakesClass(st, line, inTemplate)
    ensures SetAccess(CheckBegin(PushClass(st, line, inTemplate), line), None) == st
  {
  }

  /** The tokens of such a line, from the stack with the namespaces on it. */
  lemma TokensClose(st: seq<Block>, line: Line, inTemplate: bool, open: Token, body: Code, more: Code,
                    closers: seq<Token>)
    requires SeenOpenBrace(st) && ClosesAll(line, TakesClass(st, line, inTemplate), open, body, more)
    requires closers == Closers(|line.namespaces|)
    ensures var rest := if TakesClass(st, line, inTemplate) then line.classDecl.value.rest else line.rest;
            ConsumeAll(SetAccess(CheckBegin(PushClass(st, line, inTemplate), line), rest.access), rest.tokens,
                       line.number) ==
            ConsumeAll(st, closers, line.number)
  {
    CodeKeeps(st, more, closers, line.number);
    if TakesClass(st, line, inTemplate) {
      var head := HeadOnTop(st, line, line.classDecl.value.rest.access);
      DefinitionKeeps(st, head, open, body, Tokens(more) + closers, line.number);
    } else {
      NoHeadOnTop(st, line, inTemplate);
    }
  }

  /** Such a line leaves nothing but what it does to the innermost block's count of parentheses,
      whatever the verdict on its class head. */
  lemma ClosedLineKeeps(st: seq<Block>, line: Line, inTemplate: bool, open: Token, body: Code, more: Code)
    requires SeenOpenBrace(st)
    requires var pushed := PushNamespaces(TrackParens(st, line), line.namespaces, line.number);
             ClosesAll(line, TakesClass(pushed, line, inTemplate), open, body, more)
    ensures TextEffect(st, line, inTemplate) == TrackParens(st, line)
  {
    var st0 := TrackParens(st, line);
    NamespacesClose(st0, line.namespaces, line.number);
    TokensClose(PushNamespaces(st0, line.namespaces, line.number), line, inTemplate, open, body, more,
                Closers(|line.namespaces|));
  }
}

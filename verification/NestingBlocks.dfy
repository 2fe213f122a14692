/** Which blocks the lines of a file leave on the stack, written out: what a namespace, a class head and a
    brace push, and how parentheses and inline assembly are followed from line to line. */
module NestingBlocks {
  import opened Basics
  import opened Nesting
  import opened NestingLines

  // ---- Namespaces and class heads ----

  function NamespaceBlocks(ns: seq<NamespaceDecl>, number: nat): (r: seq<Block>)
    ensures |r| == |ns|
  {
    seq(|ns|, k requires 0 <= k < |ns| =>
      Block(Namespace(ns[k].name), number, ns[k].hasBrace, 0, NoAsm, false, ""))
  }

  lemma {:induction false} NamespacesPushed(st: seq<Block>, ns: seq<NamespaceDecl>, number: nat)
    ensures PushNamespaces(st, ns, number) == st + NamespaceBlocks(ns, number)
    decreases |ns|
  {
    if ns != [] {
      var b := NewBlock(Namespace(ns[0].name), number, ns[0].hasBrace);
      NamespacesPushed(st + [b], ns[1..], number);
      assert NamespaceBlocks(ns, number) == [b] + NamespaceBlocks(ns[1..], number);
    }
  }

  /** A class starts out private and a struct public, unless the line holds an access keyword. */
  function ClassBlock(name: string, isStruct: bool, number: nat, colon: bool, access: Option<string>): Block {
    Block(Class(name, isStruct), number, false, 0, NoAsm, colon,
          if access.Some? then access.value else if isStruct then "public" else "private")
  }

  /** A class head is pushed if and only if no parenthesis is open around it and it is not in a template
      argument list. */
  lemma HeadPushed(st: seq<Block>, line: Line, inTemplate: bool, access: Option<string>)
    requires line.classDecl.Some?
    ensures var r := SetAccess(CheckBegin(PushClass(st, line, inTemplate), line), access);
      if (st == [] || st[|st| - 1].openParentheses == 0) && !inTemplate
      then r == st + [ClassBlock(line.classDecl.value.name, line.classDecl.value.isStruct, line.number,
                                 line.bareColon, access)]
      else |r| == |st|
  {
    var pushed := PushClass(st, line, inTemplate);
    if |pushed| > |st| {
      assert pushed[..|st|] == st;
    }
  }

  /** On other lines an access keyword changes the class around it, and `:` marks a head that waits for its
      brace as derived. */
  lemma InsideClass(st: seq<Block>, b: Block, line: Line, access: Option<string>)
    requires b.kind.Class?
    ensures var b' := b.(isDerived := b.isDerived || (line.bareColon && !b.seenOpenBrace));
      SetAccess(CheckBegin(st + [b], line), access) ==
      st + [if access.Some? then b'.(access := access.value) else b']
  {
    var s := CheckBegin(st + [b], line);
    assert s[..|st|] == st;
  }

  // ---- Braces ----

  /** The block that a brace opens where no head waits for one. */
  function BraceBlock(externC: bool, asm: bool, number: nat): Block {
    if externC then Block(ExternC, number, true, 0, NoAsm, false, "")
    else Block(PlainBlock, number, true, 0, if asm then BlockAsm else NoAsm, false, "")
  }

  /** Behind a brace and any code. */
  lemma InsideBraces(st: seq<Block>, externC: bool, asm: bool, inside: Code, number: nat)
    requires SeenOpenBrace(st) && IsCode(inside)
    ensures ConsumeAll(st, [OpenBrace(externC, asm)] + Tokens(inside), number) ==
            st + [BraceBlock(externC, asm, number)]
  {
    ConsumeFirst(st, OpenBrace(externC, asm), Tokens(inside), number);
    var in1 := st + [BraceBlock(externC, asm, number)];
    assert Consume(st, OpenBrace(externC, asm), number) == in1;
    assert Tokens(inside) + [] == Tokens(inside);
    CodeKeeps(in1, inside, [], number);
  }

  /** The first brace behind a head belongs to it. */
  lemma InsideHead(st: seq<Block>, head: Block, open: Token, inside: Code, number: nat)
    requires !head.seenOpenBrace && open.OpenBrace? && IsCode(inside)
    ensures ConsumeAll(st + [head], [open] + Tokens(inside), number) == st + [head.(seenOpenBrace := true)]
  {
    ConsumeFirst(st + [head], open, Tokens(inside), number);
    var in1 := st + [head.(seenOpenBrace := true)];
    assert Consume(st + [head], open, number) == in1;
    assert Tokens(inside) + [] == Tokens(inside);
    CodeKeeps(in1, inside, [], number);
  }

  /** A closing brace ends the innermost block, also one that still waits for its opening brace. */
  lemma CloserPops(st: seq<Block>, b: Block, tail: seq<Token>, number: nat)
    ensures ConsumeAll(st + [b], [CloseBrace] + tail, number) == ConsumeAll(st, tail, number)
  {
    ConsumeFirst(st + [b], CloseBrace, tail, number);
    assert (st + [b])[..|st|] == st;
  }

  /** Closing braces without a block do nothing. */
  lemma {:induction false} StrayClosers(k: nat, number: nat)
    ensures ConsumeAll([], Closers(k), number) == []
  {
    if k > 0 {
      ConsumeFirst([], CloseBrace, Closers(k - 1), number);
      StrayClosers(k - 1, number);
    }
  }

  /** A line with namespaces, a class head, its brace and the beginning of its body. */
  lemma ClassLine(st: seq<Block>, line: Line, open: Token, inside: Code)
    requires line.classDecl.Some? && open.OpenBrace? && IsCode(inside)
    requires line.classDecl.value.rest.tokens == [open] + Tokens(inside)
    requires line.namespaces == [] && st != [] ==> st[|st| - 1].openParentheses + line.depthChange == 0
    ensures var decl := line.classDecl.value;
      TextEffect(st, line, false) ==
      TrackParens(st, line) + NamespaceBlocks(line.namespaces, line.number) +
      [ClassBlock(decl.name, decl.isStruct, line.number, line.bareColon, decl.rest.access).(seenOpenBrace := true)]
  {
    var decl, st0 := line.classDecl.value, TrackParens(st, line);
    NamespacesPushed(st0, line.namespaces, line.number);
    var st1 := st0 + NamespaceBlocks(line.namespaces, line.number);
    HeadPushed(st1, line, false, decl.rest.access);
    InsideHead(st1, ClassBlock(decl.name, decl.isStruct, line.number, line.bareColon, decl.rest.access), open,
               inside, line.number);
  }

  // ---- Parentheses and inline assembly ----

  /** A line of code without braces, statement ends or declarations, as within a long call. */
  predicate Quiet(line: Line) {
    && line.namespaces == [] && line.classDecl == None && !line.bareColon
    && line.rest == Rest(None, [])
  }

  predicate AllQuiet(lines: seq<Line>) {
    forall k :: 0 <= k < |lines| ==> Quiet(lines[k])
  }

  function Sum(lines: seq<Line>): int
    decreases |lines|
  {
    if lines == [] then 0 else lines[0].depthChange + Sum(lines[1..])
  }

  lemma QuietEffect(st: seq<Block>, b: Block, line: Line, inTemplate: bool)
    requires Quiet(line)
    ensures TextEffect(st + [b], line, inTemplate) ==
      st + [b.(openParentheses := b.openParentheses + line.depthChange,
               inlineAsm := NextAsm(b.inlineAsm, line.depthChange, b.openParentheses + line.depthChange,
                                    line.startsAsm))]
  {
    var s := TrackParens(st + [b], line);
    assert s[..|st|] == st;
  }

  /** The count of parentheses goes up and down with the text. */
  lemma {:induction false} ParensAddUp(st: seq<Block>, b: Block, lines: seq<Line>) returns (asm: Asm)
    requires AllQuiet(lines)
    ensures RunText(st + [b], lines) ==
            st + [b.(openParentheses := b.openParentheses + Sum(lines), inlineAsm := asm)]
    decreases |lines|
  {
    asm := b.inlineAsm;
    if lines != [] {
      var inTemplate := InTemplateList(lines[0], lines[1..]);
      QuietEffect(st, b, lines[0], inTemplate);
      asm := ParensAddUp(st, TextEffect(st + [b], lines[0], inTemplate)[|st|], lines[1..]);
    }
  }

  /** From count p, it comes to zero behind none of the lines. */
  predicate StaysOpen(p: int, lines: seq<Line>)
    decreases |lines|
  {
    lines == [] ||
    (p + lines[0].depthChange != 0 && StaysOpen(p + lines[0].depthChange, lines[1..]))
  }

  lemma {:induction false} StaysInside(st: seq<Block>, b: Block, lines: seq<Line>)
    requires AllQuiet(lines) && b.inlineAsm == InsideAsm && StaysOpen(b.openParentheses, lines)
    ensures RunText(st + [b], lines) == st + [b.(openParentheses := b.openParentheses + Sum(lines))]
    decreases |lines|
  {
    if lines != [] {
      var inTemplate := InTemplateList(lines[0], lines[1..]);
      QuietEffect(st, b, lines[0], inTemplate);
      StaysInside(st, TextEffect(st + [b], lines[0], inTemplate)[|st|], lines[1..]);
    }
  }

  lemma {:induction false} RunTextSplits(st: seq<Block>, a: seq<Line>, b: seq<Line>)
    requires AllQuiet(a)
    ensures RunText(st, a + b) == RunText(RunText(st, a), b)
    decreases |a|
  {
    if a == [] {
      assert a + b == b;
    } else {
      assert (a + b)[1..] == a[1..] + b;
      RunTextSplits(TextEffect(st, a[0], InTemplateList(a[0], a[1..])), a[1..], b);
    }
  }

  lemma OneQuiet(st: seq<Block>, b: Block, line: Line, b': Block)
    requires Quiet(line)
    requires b' == b.(openParentheses := b.openParentheses + line.depthChange,
                      inlineAsm := NextAsm(b.inlineAsm, line.depthChange, b.openParentheses + line.depthChange,
                                           line.startsAsm))
    ensures RunText(st + [b], [line]) == st + [b']
  {
    QuietEffect(st, b, line, InTemplateList(line, []));
    assert [line][1..] == [];
  }

  lemma OneMoreLine(st: seq<Block>, b: Block, lines: seq<Line>, b1: Block, line: Line, b2: Block)
    requires AllQuiet(lines) && RunText(st + [b], lines) == st + [b1] && Quiet(line)
    requires b2 == b1.(openParentheses := b1.openParentheses + line.depthChange,
                       inlineAsm := NextAsm(b1.inlineAsm, line.depthChange, b1.openParentheses + line.depthChange,
                                            line.startsAsm))
    ensures RunText(st + [b], lines + [line]) == st + [b2]
  {
    RunTextSplits(st + [b], lines, [line]);
    OneQuiet(st, b1, line, b2);
  }

  lemma WithinAssembly(st: seq<Block>, b: Block, first: Line, inner: seq<Line>, b2: Block)
    requires Quiet(first) && AllQuiet(inner)
    requires (b.inlineAsm == NoAsm || b.inlineAsm == EndAsm) && first.startsAsm && first.depthChange != 0
    requires b.openParentheses + first.depthChange == 1 && StaysOpen(1, inner)
    requires b2 == b.(openParentheses := 1 + Sum(inner), inlineAsm := InsideAsm)
    ensures RunText(st + [b], [first] + inner) == st + [b2]
  {
    var b1 := b.(openParentheses := 1, inlineAsm := InsideAsm);
    OneQuiet(st, b, first, b1);
    RunTextSplits(st + [b], [first], inner);
    StaysInside(st, b1, inner);
  }

  /** `asm (` over several lines: the block around it counts as assembly from the line that opens the
      parenthesis up to the one that closes it, is marked as ended there, and is plain code on the next
      line that does not start another. */
  lemma AssemblyOverLines(st: seq<Block>, b: Block, first: Line, inner: seq<Line>, last: Line, next: Line)
    requires Quiet(first) && AllQuiet(inner) && Quiet(last) && Quiet(next)
    requires (b.inlineAsm == NoAsm || b.inlineAsm == EndAsm) && first.startsAsm && first.depthChange != 0
    requires b.openParentheses + first.depthChange == 1 && StaysOpen(1, inner)
    requires 1 + Sum(inner) + last.depthChange == 0 && !next.startsAsm
    ensures RunText(st + [b], [first] + inner) == st + [b.(openParentheses := 1 + Sum(inner), inlineAsm := InsideAsm)]
    ensures RunText(st + [b], [first] + inner + [last]) == st + [b.(openParentheses := 0, inlineAsm := EndAsm)]
    ensures RunText(st + [b], [first] + inner + [last] + [next]) ==
            st + [b.(openParentheses := next.depthChange, inlineAsm := NoAsm)]
  {
    var b2 := b.(openParentheses := 1 + Sum(inner), inlineAsm := InsideAsm);
    var b3 := b.(openParentheses := 0, inlineAsm := EndAsm);
    var b4 := b.(openParentheses := next.depthChange, inlineAsm := NoAsm);
    var lines := [first] + inner;
    WithinAssembly(st, b, first, inner, b2);
    OneMoreLine(st, b, lines, b2, last, b3);
    OneMoreLine(st, b, lines + [last], b3, next, b4);
  }

  /** Without `asm` in front, or with another count of open parentheses, the block stays plain code; a block
      that is assembly by its brace stays so. */
  lemma NoAssembly(st: seq<Block>, b: Block, line: Line, inTemplate: bool)
    requires Quiet(line)
    ensures var b' := TextEffect(st + [b], line, inTemplate)[|st|];
      && (b.inlineAsm == BlockAsm ==> b'.inlineAsm == BlockAsm)
      && ((b.inlineAsm == NoAsm || b.inlineAsm == EndAsm) &&
          !(line.startsAsm && line.depthChange != 0 && b.openParentheses + line.depthChange == 1) ==>
            b'.inlineAsm == NoAsm)
  {
    QuietEffect(st, b, line, inTemplate);
  }
}

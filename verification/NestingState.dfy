/** `NestingState` on the heap: blocks are objects that `Update` changes in place, and
    checkpoints are deep copies. Every method is proved to do on objects what Nesting.dfy
    does on values, so no change to a block ever reaches a checkpoint. */
module NestingStates {
  import opened Basics
  import opened Nesting
  import TemplateScan

  class BlockInfo {
    const kind: Kind
    const startLine: nat
    var seenOpenBrace: bool
    var openParentheses: int
    var inlineAsm: Asm
    var isDerived: bool
    var access: string

    function Value(): Block
      reads this
    {
      Block(kind, startLine, seenOpenBrace, openParentheses, inlineAsm, isDerived, access)
    }

    constructor (b: Block)
      ensures Value() == b
    {
      kind, startLine := b.kind, b.startLine;
      seenOpenBrace, openParentheses, inlineAsm := b.seenOpenBrace, b.openParentheses, b.inlineAsm;
      isDerived, access := b.isDerived, b.access;
    }
  }

  function Objects(bs: seq<BlockInfo>): set<BlockInfo> {
    set b | b in bs
  }

  function Values(bs: seq<BlockInfo>): (r: seq<Block>)
    reads Objects(bs)
    ensures |r| == |bs|
  {
    seq(|bs|, i requires 0 <= i < |bs| reads Objects(bs) => bs[i].Value())
  }

  predicate Distinct(bs: seq<BlockInfo>) {
    forall i, j :: 0 <= i < j < |bs| ==> bs[i] != bs[j]
  }

  /** `copy.deepcopy` of a stack. */
  method DeepCopy(bs: seq<BlockInfo>) returns (r: seq<BlockInfo>)
    ensures Distinct(r) && fresh(Objects(r))
    ensures Values(r) == Values(bs)
  {
    r := [];
    var i := 0;
    while i < |bs|
      invariant 0 <= i <= |bs| && |r| == i
      invariant Distinct(r) && fresh(Objects(r))
      invariant forall k :: 0 <= k < i ==> r[k].Value() == bs[k].Value()
    {
      var b := new BlockInfo(bs[i].Value());
      assert forall k :: 0 <= k < |r| ==> r[k] in Objects(r);
      assert Objects(r + [b]) == Objects(r) + {b};
      r := r + [b];
      i := i + 1;
    }
  }

  /** `_PreprocessorInfo`. */
  datatype PreprocessorInfo = PreprocessorInfo(
    stackBeforeIf: seq<BlockInfo>, stackBeforeElse: seq<BlockInfo>, seenElse: bool)
  {
    function Saved(): set<BlockInfo> {
      Objects(stackBeforeIf) + Objects(stackBeforeElse)
    }

    function Value(): Checkpoint
      reads Saved()
    {
      Checkpoint(Values(stackBeforeIf), Values(stackBeforeElse), seenElse)
    }
  }

  function AllSaved(pp: seq<PreprocessorInfo>): set<BlockInfo> {
    set p, b | p in pp && b in p.Saved() :: b
  }

  function PPValues(pp: seq<PreprocessorInfo>): (r: seq<Checkpoint>)
    reads AllSaved(pp)
    ensures |r| == |pp|
  {
    seq(|pp|, i requires 0 <= i < |pp| reads AllSaved(pp) =>
      assert pp[i].Saved() <= AllSaved(pp); pp[i].Value())
  }

  /** Nobody shares blocks: a stack saved before an `#else` is duplicate-free and disjoint
      from everything saved below it. */
  predicate Unshared(pp: seq<PreprocessorInfo>) {
    forall i :: 0 <= i < |pp| ==>
      Distinct(pp[i].stackBeforeElse) && Objects(pp[i].stackBeforeElse) !! AllSaved(pp[..i])
  }

  // ---- The checkpoint stack, seen from its top ----

  lemma SavedSnoc(pp: seq<PreprocessorInfo>, p: PreprocessorInfo)
    ensures AllSaved(pp + [p]) == AllSaved(pp) + p.Saved()
  {
    assert forall q :: q in pp + [p] <==> q in pp || q == p;
  }

  lemma UnsharedSnoc(pp: seq<PreprocessorInfo>, p: PreprocessorInfo)
    ensures Unshared(pp + [p]) <==>
      Unshared(pp) && Distinct(p.stackBeforeElse) && Objects(p.stackBeforeElse) !! AllSaved(pp)
  {
    assert forall i :: 0 <= i <= |pp| ==> (pp + [p])[..i] == pp[..i];
    assert pp[..|pp|] == pp;
    assert (pp + [p])[|pp|] == p;
    assert forall i :: 0 <= i < |pp| ==> (pp + [p])[i] == pp[i];
  }

  lemma PPValuesSnoc(pp: seq<PreprocessorInfo>, p: PreprocessorInfo)
    ensures PPValues(pp + [p]) == PPValues(pp) + [p.Value()]
  {
  }

  /** Replacing the topmost checkpoint. */
  lemma ReplaceTop(pp: seq<PreprocessorInfo>, p: PreprocessorInfo)
    requires pp != [] && Unshared(pp) && p.stackBeforeIf == pp[|pp| - 1].stackBeforeIf
    requires Distinct(p.stackBeforeElse) && Objects(p.stackBeforeElse) !! AllSaved(pp)
    ensures Unshared(pp[|pp| - 1 := p])
    ensures AllSaved(pp[|pp| - 1 := p]) <= AllSaved(pp) + Objects(p.stackBeforeElse)
    ensures PPValues(pp[|pp| - 1 := p]) == PPValues(pp)[|pp| - 1 := p.Value()]
  {
    var below, top := pp[..|pp| - 1], pp[|pp| - 1];
    assert pp == below + [top] && pp[|pp| - 1 := p] == below + [p];
    SavedSnoc(below, top);
    UnsharedSnoc(below, top);
    SavedSnoc(below, p);
    UnsharedSnoc(below, p);
  }

  lemma ElseValue(s: State, pp: seq<Checkpoint>)
    requires s.pp != []
    requires var n := |s.pp| - 1;
             pp == if s.pp[n].seenElse then s.pp else s.pp[n := s.pp[n].(seenElse := true, beforeElse := s.stack)]
    ensures |pp| > 0 && Nesting.UpdatePreprocessor(s, Else) == State(pp[|pp| - 1].beforeIf, pp)
  {
  }

  lemma EndIfValue(stack: seq<Block>, below: seq<Checkpoint>, top: Checkpoint)
    ensures Nesting.UpdatePreprocessor(State(stack, below + [top]), EndIf) ==
            State(if top.seenElse then top.beforeElse else stack, below)
  {
    assert (below + [top])[..|below|] == below;
  }

  lemma PopUnshared(below: seq<PreprocessorInfo>, top: PreprocessorInfo, stack: seq<BlockInfo>)
    requires Distinct(stack) && Objects(stack) !! AllSaved(below + [top]) && Unshared(below + [top])
    ensures var next := if top.seenElse then top.stackBeforeElse else stack;
            && Distinct(next) && Objects(next) !! AllSaved(below) && Unshared(below)
            && Objects(next) + AllSaved(below) <= Objects(stack) + AllSaved(below + [top])
  {
    SavedSnoc(below, top);
    UnsharedSnoc(below, top);
  }

  class NestingState {
    var stack: seq<BlockInfo>
    var ppStack: seq<PreprocessorInfo>

    ghost predicate Valid()
      reads this
    {
      Distinct(stack) && Objects(stack) !! AllSaved(ppStack) && Unshared(ppStack)
    }

    function Abs(): State
      reads this, Objects(stack), AllSaved(ppStack)
    {
      State(Values(stack), PPValues(ppStack))
    }

    /** Every block that belongs to this state. */
    ghost function Repr(): set<BlockInfo>
      reads this
    {
      Objects(stack) + AllSaved(ppStack)
    }

    constructor ()
      ensures Valid() && Abs() == State([], []) && Repr() == {}
    {
      stack, ppStack := [], [];
    }

    /** `#if`: save a copy of the stack. */
    method PushCheckpoint()
      requires Valid()
      modifies this
      ensures Valid() && Abs() == Nesting.UpdatePreprocessor(old(Abs()), If)
      ensures Abs() == State(old(Values(stack)), old(PPValues(ppStack)) + [Checkpoint(old(Values(stack)), [], false)])
      ensures fresh(Repr() - old(Repr()))
    {
      var copy := DeepCopy(stack);
      var p := PreprocessorInfo(copy, [], false);
      SavedSnoc(ppStack, p);
      UnsharedSnoc(ppStack, p);
      PPValuesSnoc(ppStack, p);
      ppStack := ppStack + [p];
    }

    /** The first `#else` or `#elif` of a level: save a copy of the stack to continue from. */
    method RememberBranch()
      requires Valid() && ppStack != []
      modifies this`ppStack
      ensures Valid() && |ppStack| == |old(ppStack)|
      ensures Values(stack) == old(Values(stack))
      ensures PPValues(ppStack) == old(
        PPValues(ppStack)[|ppStack| - 1 := PPValues(ppStack)[|ppStack| - 1].(
          seenElse := true, beforeElse := Values(stack))])
      ensures fresh(Repr() - old(Repr()))
    {
      var n := |ppStack|;
      ghost var was := PPValues(ppStack);
      assert was[n - 1] == ppStack[n - 1].Value();
      var copy := DeepCopy(stack);
      var top := ppStack[n - 1].(seenElse := true, stackBeforeElse := copy);
      assert PPValues(ppStack) == was;
      assert top.Value() == ppStack[n - 1].Value().(seenElse := true, beforeElse := Values(copy));
      ReplaceTop(ppStack, top);
      ppStack := ppStack[n - 1 := top];
    }

    /** `#else`, `#elif`: remember the stack the first time, then go back to the one before `#if`. */
    method NextBranch()
      requires Valid() && ppStack != []
      modifies this
      ensures Valid() && Abs() == Nesting.UpdatePreprocessor(old(Abs()), Else)
      ensures Values(stack) == old(PPValues(ppStack)[|ppStack| - 1].beforeIf)
      ensures fresh(Repr() - old(Repr()))
    {
      ghost var was := Abs();
      assert was.pp[|was.pp| - 1] == ppStack[|ppStack| - 1].Value();
      if !ppStack[|ppStack| - 1].seenElse {
        RememberBranch();
      }
      ghost var saved := PPValues(ppStack);
      ElseValue(was, saved);
      stack := DeepCopy(ppStack[|ppStack| - 1].stackBeforeIf);
      assert Values(stack) == saved[|saved| - 1].beforeIf && PPValues(ppStack) == saved;
    }

    /** `#endif`: continue from the stack remembered at the first `#else`, if there was one. */
    method PopCheckpoint()
      requires Valid() && ppStack != []
      modifies this
      ensures Valid() && Abs() == Nesting.UpdatePreprocessor(old(Abs()), EndIf)
      ensures Repr() <= old(Repr())
    {
      var n := |ppStack|;
      var below, top := ppStack[..n - 1], ppStack[n - 1];
      assert ppStack == below + [top];
      PopUnshared(below, top, stack);
      PPValuesSnoc(below, top);
      EndIfValue(Values(stack), PPValues(below), top.Value());
      if top.seenElse {
        stack := top.stackBeforeElse;
      }
      ppStack := below;
    }

    /** `UpdatePreprocessor`. */
    method UpdatePreprocessor(d: Directive)
      requires Valid()
      modifies this
      ensures Valid() && Abs() == Nesting.UpdatePreprocessor(old(Abs()), d)
      ensures fresh(Repr() - old(Repr()))
    {
      if d == If {
        PushCheckpoint();
      } else if d == Else {
        if ppStack != [] {
          NextBranch();
        }
      } else if d == EndIf {
        if ppStack != [] {
          PopCheckpoint();
        }
      }
    }

    /** Lines 2840-2859: count parentheses and follow inline assembly in the innermost block. */
    method TrackParens(line: Line)
      requires Valid()
      modifies Objects(stack)
      ensures Valid() && Values(stack) == Nesting.TrackParens(old(Values(stack)), line)
      ensures PPValues(ppStack) == old(PPValues(ppStack))
    {
      if stack != [] {
        var inner := stack[|stack| - 1];
        inner.openParentheses := inner.openParentheses + line.depthChange;
        if inner.inlineAsm == NoAsm || inner.inlineAsm == EndAsm {
          inner.inlineAsm :=
            if line.depthChange != 0 && inner.openParentheses == 1 && line.startsAsm then InsideAsm else NoAsm;
        } else if inner.inlineAsm == InsideAsm && inner.openParentheses == 0 {
          inner.inlineAsm := EndAsm;
        }
      }
    }

    /** `self.stack.append(...)` of a new block. */
    method Push(b: Block)
      requires Valid()
      modifies this`stack
      ensures Valid() && Values(stack) == old(Values(stack)) + [b]
      ensures PPValues(ppStack) == old(PPValues(ppStack))
      ensures |stack| == |old(stack)| + 1 && stack[..|old(stack)|] == old(stack) && fresh(stack[|old(stack)|])
    {
      var info := new BlockInfo(b);
      stack := stack + [info];
    }

    /** `self.stack.pop()` */
    method Pop()
      requires Valid() && stack != []
      modifies this`stack
      ensures Valid() && stack == old(stack)[..|old(stack)| - 1]
      ensures Values(stack) == old(Values(stack))[..|old(stack)| - 1]
      ensures PPValues(ppStack) == old(PPValues(ppStack))
    {
      stack := stack[..|stack| - 1];
    }

    /** `self.stack[-1].seen_open_brace = True` */
    method MarkOpenBrace()
      requires Valid() && stack != []
      modifies stack[|stack| - 1]
      ensures Values(stack) == SetTop(old(Values(stack)), Top(old(Values(stack))).(seenOpenBrace := true))
      ensures PPValues(ppStack) == old(PPValues(ppStack))
    {
      stack[|stack| - 1].seenOpenBrace := true;
    }

    /** Lines 2864-2879. */
    method PushNamespaces(line: Line)
      requires Valid()
      modifies this`stack
      ensures Valid() && Values(stack) == Nesting.PushNamespaces(old(Values(stack)), line.namespaces, line.number)
      ensures PPValues(ppStack) == old(PPValues(ppStack))
      ensures fresh(Objects(stack) - old(Objects(stack)))
    {
      var i := 0;
      while i < |line.namespaces|
        invariant 0 <= i <= |line.namespaces|
        invariant Valid() && PPValues(ppStack) == old(PPValues(ppStack))
        invariant fresh(Objects(stack) - old(Objects(stack)))
        invariant Nesting.PushNamespaces(Values(stack), line.namespaces[i..], line.number) ==
          Nesting.PushNamespaces(old(Values(stack)), line.namespaces, line.number)
      {
        var ns := line.namespaces[i];
        assert line.namespaces[i..][1..] == line.namespaces[i + 1..];
        Push(NewBlock(Namespace(ns.name), line.number, ns.hasBrace));
        i := i + 1;
      }
    }

    /** Lines 2890-2937: a class head, its base classes, and an access keyword. The file goes on
        with the lines in `later`. */
    method ClassHead(line: Line, later: seq<Line>) returns (rest: Rest)
      requires Valid()
      modifies this`stack, Objects(stack)
      ensures Valid()
      ensures var was, inTemplate := old(Values(stack)), InTemplateList(line, later);
        && rest == (if TakesClass(was, line, inTemplate) then line.classDecl.value.rest else line.rest)
        && Values(stack) ==
           Nesting.SetAccess(Nesting.CheckBegin(Nesting.PushClass(was, line, inTemplate), line), rest.access)
      ensures PPValues(ppStack) == old(PPValues(ppStack))
      ensures fresh(Objects(stack) - old(Objects(stack)))
    {
      rest := line.rest;
      if line.classDecl.Some? && (stack == [] || stack[|stack| - 1].openParentheses == 0) {
        var decl := line.classDecl.value;
        var inTemplate := TemplateScan.InTemplateArgumentList([line.text] + Texts(later), 0, decl.end);
        if !inTemplate {
          Push(NewBlock(Class(decl.name, decl.isStruct), line.number, false));
          rest := decl.rest;
        }
      }
      assert Values(stack) == Nesting.PushClass(old(Values(stack)), line, InTemplateList(line, later));
      if stack != [] {
        BeginAndAccess(line, rest.access);
      }
    }

    method BeginAndAccess(line: Line, access: Option<string>)
      requires Valid() && stack != []
      modifies stack[|stack| - 1]
      ensures Values(stack) == Nesting.SetAccess(Nesting.CheckBegin(old(Values(stack)), line), access)
      ensures PPValues(ppStack) == old(PPValues(ppStack))
    {
      var top := stack[|stack| - 1];
      if !top.seenOpenBrace && top.kind.Class? && line.bareColon {
        top.isDerived := true;
      }
      if top.kind.Class? && access.Some? {
        top.access := access.value;
      }
    }

    /** One round of the loop of lines 2940-2976. */
    method Consume(t: Token, number: nat)
      requires Valid()
      modifies this`stack, Objects(stack)
      ensures Valid() && Values(stack) == Nesting.Consume(old(Values(stack)), t, number)
      ensures PPValues(ppStack) == old(PPValues(ppStack))
      ensures fresh(Objects(stack) - old(Objects(stack)))
    {
      var seen := stack == [] || stack[|stack| - 1].seenOpenBrace;
      if t.OpenBrace? {
        if !seen {
          MarkOpenBrace();
        } else if t.externC {
          Push(NewBlock(ExternC, number, true));
        } else {
          Push(NewBlock(PlainBlock, number, true).(inlineAsm := if t.asm then BlockAsm else NoAsm));
        }
      } else if t.Semicolon? || t.CloseParen? {
        if !seen {
          Pop();
        }
      } else if stack != [] {
        Pop();
      }
    }

    method ConsumeAll(ts: seq<Token>, number: nat)
      requires Valid()
      modifies this`stack, Objects(stack)
      ensures Valid() && Values(stack) == Nesting.ConsumeAll(old(Values(stack)), ts, number)
      ensures PPValues(ppStack) == old(PPValues(ppStack))
      ensures fresh(Objects(stack) - old(Objects(stack)))
    {
      var i := 0;
      while i < |ts|
        invariant 0 <= i <= |ts|
        invariant Valid() && PPValues(ppStack) == old(PPValues(ppStack))
        invariant fresh(Objects(stack) - old(Objects(stack)))
        invariant Nesting.ConsumeAll(Values(stack), ts[i..], number) ==
          Nesting.ConsumeAll(old(Values(stack)), ts, number)
      {
        assert ts[i..][1..] == ts[i + 1..];
        Consume(ts[i], number);
        i := i + 1;
      }
    }

    /** `Update`: whatever it changes in place stays in the current stack. */
    method Update(line: Line, later: seq<Line>) returns (ghost added: set<BlockInfo>)
      requires Valid()
      modifies this, Repr()
      ensures Valid() && Abs() == Nesting.Update(old(Abs()), line, later)
      ensures fresh(added) && Repr() <= old(Repr()) + added
    {
      UpdatePreprocessor(line.directive);
      TextUpdate(line, later);
      added := Repr() - old(Repr());
    }

    method TextUpdate(line: Line, later: seq<Line>)
      requires Valid()
      modifies this`stack, Objects(stack)
      ensures Valid() && Values(stack) == TextEffect(old(Values(stack)), line, InTemplateList(line, later))
      ensures PPValues(ppStack) == old(PPValues(ppStack))
      ensures fresh(Objects(stack) - old(Objects(stack)))
    {
      TrackParens(line);
      PushNamespaces(line);
      var rest := ClassHead(line, later);
      ConsumeAll(rest.tokens, line.number);
    }

    /** The whole file, line by line. */
    method Process(lines: seq<Line>)
      requires Valid()
      modifies this, Repr()
      ensures Valid() && Abs() == Run(old(Abs()), lines)
    {
      var i := 0;
      ghost var repr, goal, all := Repr(), Run(Abs(), lines), {};
      assert lines[0..] == lines;
      while i < |lines|
        invariant 0 <= i <= |lines|
        invariant Valid() && Repr() <= repr + all && fresh(all)
        invariant Run(Abs(), lines[i..]) == goal
      {
        RunNext(Abs(), lines, i);
        ghost var added := Update(lines[i], lines[i + 1..]);
        all := all + added;
        i := i + 1;
      }
    }
  }

  lemma RunNext(s: State, lines: seq<Line>, i: nat)
    requires i < |lines|
    ensures Run(s, lines[i..]) == Run(Nesting.Update(s, lines[i], lines[i + 1..]), lines[i + 1..])
  {
    assert lines[i..][1..] == lines[i + 1..];
  }
}

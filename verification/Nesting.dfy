/** What `NestingState.Update` computes, on values: the stack of open blocks, the
    checkpoints taken at `#if`, and the theorem that only first branches matter. */
module Nesting {
  import opened Basics
  import opened TemplateScan

  datatype Asm = NoAsm | InsideAsm | EndAsm | BlockAsm

  datatype Kind = PlainBlock | ExternC | Namespace(name: string) | Class(name: string, isStruct: bool)

  datatype Block = Block(
    kind: Kind, startLine: nat, seenOpenBrace: bool, openParentheses: int,
    inlineAsm: Asm, isDerived: bool, access: string)

  function NewBlock(kind: Kind, line: nat, seenOpenBrace: bool): Block {
    Block(kind, line, seenOpenBrace, 0, NoAsm, false,
          if kind.Class? then (if kind.isStruct then "public" else "private") else "")
  }

  // ---- A line, as the regular expressions of `Update` take it apart ----

  datatype Directive = NoDirective | If | Else | EndIf

  /** The next brace, semicolon or closing parenthesis on the line. */
  datatype Token = OpenBrace(externC: bool, asm: bool) | CloseBrace | Semicolon | CloseParen

  /** What is left of a line behind namespace and class declarations. */
  datatype Rest = Rest(access: Option<string>, tokens: seq<Token>)

  datatype NamespaceDecl = NamespaceDecl(name: string, hasBrace: bool)

  /** A class head; `end` is the position from which InTemplateArgumentList scans. */
  datatype ClassDecl = ClassDecl(name: string, isStruct: bool, end: nat, rest: Rest)

  datatype Line = Line(
    text: string, number: nat, directive: Directive, depthChange: int, startsAsm: bool, bareColon: bool,
    namespaces: seq<NamespaceDecl>, classDecl: Option<ClassDecl>, rest: Rest)

  function Texts(lines: seq<Line>): (ts: seq<string>)
    ensures |ts| == |lines| && forall i :: 0 <= i < |lines| ==> ts[i] == lines[i].text
  {
    seq(|lines|, i requires 0 <= i < |lines| => lines[i].text)
  }

  /** The verdict on a class head from the text of its line and of the lines near it. */
  function HeadVerdict(line: Line, near: seq<Line>): Verdict {
    if line.classDecl.Some? then InTemplate([line.text] + Texts(near), 0, line.classDecl.value.end) else No
  }

  /** InTemplateArgumentList, which reads on through the whole file. */
  predicate InTemplateList(line: Line, later: seq<Line>) {
    HeadVerdict(line, later) == Yes
  }

  // ---- The effect of a line's text on the stack of blocks ----

  function SetTop(st: seq<Block>, b: Block): seq<Block>
    requires st != []
  {
    st[|st| - 1 := b]
  }

  function Top(st: seq<Block>): Block
    requires st != []
  {
    st[|st| - 1]
  }

  function NextAsm(asm: Asm, depthChange: int, open: int, startsAsm: bool): Asm {
    match asm
    case NoAsm => if depthChange != 0 && open == 1 && startsAsm then InsideAsm else NoAsm
    case EndAsm => if depthChange != 0 && open == 1 && startsAsm then InsideAsm else NoAsm
    case InsideAsm => if open == 0 then EndAsm else InsideAsm
    case BlockAsm => BlockAsm
  }

  function TrackParens(st: seq<Block>, line: Line): seq<Block> {
    if st == [] then st
    else
      var open := Top(st).openParentheses + line.depthChange;
      SetTop(st, Top(st).(openParentheses := open,
                          inlineAsm := NextAsm(Top(st).inlineAsm, line.depthChange, open, line.startsAsm)))
  }

  function PushNamespaces(st: seq<Block>, ns: seq<NamespaceDecl>, number: nat): seq<Block>
    decreases |ns|
  {
    if ns == [] then st
    else PushNamespaces(st + [NewBlock(Namespace(ns[0].name), number, ns[0].hasBrace)], ns[1..], number)
  }

  predicate TakesClass(st: seq<Block>, line: Line, inTemplate: bool) {
    line.classDecl.Some? && (st == [] || Top(st).openParentheses == 0) && !inTemplate
  }

  predicate SeenOpenBrace(st: seq<Block>) {
    st == [] || Top(st).seenOpenBrace
  }

  function PushClass(st: seq<Block>, line: Line, inTemplate: bool): seq<Block> {
    if TakesClass(st, line, inTemplate) then
      st + [NewBlock(Class(line.classDecl.value.name, line.classDecl.value.isStruct), line.number, false)]
    else st
  }

  function CheckBegin(st: seq<Block>, line: Line): seq<Block> {
    if !SeenOpenBrace(st) && Top(st).kind.Class? && line.bareColon
    then SetTop(st, Top(st).(isDerived := true)) else st
  }

  function SetAccess(st: seq<Block>, access: Option<string>): seq<Block> {
    if st != [] && Top(st).kind.Class? && access.Some?
    then SetTop(st, Top(st).(access := access.value)) else st
  }

  function Consume(st: seq<Block>, t: Token, number: nat): seq<Block> {
    match t
    case OpenBrace(externC, asm) =>
      if !SeenOpenBrace(st) then SetTop(st, Top(st).(seenOpenBrace := true))
      else if externC then st + [NewBlock(ExternC, number, true)]
      else st + [NewBlock(PlainBlock, number, true).(inlineAsm := if asm then BlockAsm else NoAsm)]
    case CloseBrace => if st == [] then st else st[..|st| - 1]
    case _ => if SeenOpenBrace(st) then st else st[..|st| - 1]
  }

  function ConsumeAll(st: seq<Block>, ts: seq<Token>, number: nat): seq<Block>
    decreases |ts|
  {
    if ts == [] then st else ConsumeAll(Consume(st, ts[0], number), ts[1..], number)
  }

  /** Everything `Update` does after `UpdatePreprocessor`, for a verdict on the class head. */
  function TextEffect(st: seq<Block>, line: Line, inTemplate: bool): seq<Block> {
    var st1 := PushNamespaces(TrackParens(st, line), line.namespaces, line.number);
    var rest := if TakesClass(st1, line, inTemplate) then line.classDecl.value.rest else line.rest;
    var st2 := SetAccess(CheckBegin(PushClass(st1, line, inTemplate), line), rest.access);
    ConsumeAll(st2, rest.tokens, line.number)
  }

  // ---- Checkpoints ----

  datatype Checkpoint = Checkpoint(beforeIf: seq<Block>, beforeElse: seq<Block>, seenElse: bool)

  datatype State = State(stack: seq<Block>, pp: seq<Checkpoint>)

  function UpdatePreprocessor(s: State, d: Directive): State {
    match d
    case NoDirective => s
    case If => s.(pp := s.pp + [Checkpoint(s.stack, [], false)])
    case Else =>
      if s.pp == [] then s
      else
        var top := s.pp[|s.pp| - 1];
        State(top.beforeIf,
              s.pp[|s.pp| - 1 := if top.seenElse then top else top.(seenElse := true, beforeElse := s.stack)])
    case EndIf =>
      if s.pp == [] then s
      else
        var top := s.pp[|s.pp| - 1];
        State(if top.seenElse then top.beforeElse else s.stack, s.pp[..|s.pp| - 1])
  }

  function Update(s: State, line: Line, later: seq<Line>): State {
    var t := UpdatePreprocessor(s, line.directive);
    t.(stack := TextEffect(t.stack, line, InTemplateList(line, later)))
  }

  function Run(s: State, lines: seq<Line>): State
    decreases |lines|
  {
    if lines == [] then s else Run(Update(s, lines[0], lines[1..]), lines[1..])
  }

  // ---- Erasure: what is left when every branch after the first is deleted ----

  /** Per open `#if`, whether its first `#else` or `#elif` has gone by. */
  type Levels = seq<bool>

  function NextLevels(ls: Levels, d: Directive): Levels {
    match d
    case NoDirective => ls
    case If => ls + [false]
    case Else => if ls == [] then ls else ls[|ls| - 1 := true]
    case EndIf => if ls == [] then ls else ls[..|ls| - 1]
  }

  predicate Live(ls: Levels) {
    forall i :: 0 <= i < |ls| ==> !ls[i]
  }

  /** The lines in first branches, with the texts of their `#if` and `#endif`. */
  function Erase(ls: Levels, lines: seq<Line>): seq<Line>
    decreases |lines|
  {
    if lines == [] then []
    else
      var next := NextLevels(ls, lines[0].directive);
      (if Live(next) then [lines[0]] else []) + Erase(next, lines[1..])
  }

  function FinalLevels(ls: Levels, lines: seq<Line>): Levels
    decreases |lines|
  {
    if lines == [] then ls else FinalLevels(NextLevels(ls, lines[0].directive), lines[1..])
  }

  /** The same lines without a preprocessor. */
  function RunText(st: seq<Block>, lines: seq<Line>): seq<Block>
    decreases |lines|
  {
    if lines == [] then st
    else RunText(TextEffect(st, lines[0], InTemplateList(lines[0], lines[1..])), lines[1..])
  }

  /** A line with the verdict on its class head. */
  datatype Judged = Judged(line: Line, inTemplate: bool)

  /** The lines that `Erase` keeps, with the verdicts they get where they stand. */
  function EraseJudged(ls: Levels, lines: seq<Line>): seq<Judged>
    decreases |lines|
  {
    if lines == [] then []
    else
      var next := NextLevels(ls, lines[0].directive);
      (if Live(next) then [Judged(lines[0], InTemplateList(lines[0], lines[1..]))] else [])
      + EraseJudged(next, lines[1..])
  }

  function RunJudged(st: seq<Block>, js: seq<Judged>): seq<Block>
    decreases |js|
  {
    if js == [] then st else RunJudged(TextEffect(st, js[0].line, js[0].inTemplate), js[1..])
  }

  function LevelsOf(pp: seq<Checkpoint>): (ls: Levels)
    ensures |ls| == |pp| && forall i :: 0 <= i < |pp| ==> ls[i] == pp[i].seenElse
  {
    seq(|pp|, i requires 0 <= i < |pp| => pp[i].seenElse)
  }

  /** The stack that will survive: the current one, or the one saved at the outermost `#else`. */
  function Kept(s: State): seq<Block>
    decreases |s.pp|
  {
    if s.pp == [] then s.stack
    else if s.pp[0].seenElse then s.pp[0].beforeElse
    else Kept(s.(pp := s.pp[1..]))
  }

  predicate AllLive(pp: seq<Checkpoint>) {
    forall i :: 0 <= i < |pp| ==> !pp[i].seenElse
  }

  lemma LiveLevels(pp: seq<Checkpoint>)
    ensures Live(LevelsOf(pp)) <==> AllLive(pp)
  {
    if Live(LevelsOf(pp)) {
      forall i | 0 <= i < |pp|
        ensures !pp[i].seenElse
      {
        assert !LevelsOf(pp)[i];
      }
    }
  }

  lemma {:induction false} KeptWhenLive(s: State)
    requires AllLive(s.pp)
    ensures Kept(s) == s.stack
    decreases |s.pp|
  {
    if s.pp != [] {
      KeptWhenLive(s.(pp := s.pp[1..]));
    }
  }

  /** Below a dead level nothing that happens on top matters. */
  lemma {:induction false} KeptWhenDead(s: State, s': State, k: nat)
    requires k < |s.pp| && k < |s'.pp| && s.pp[..k] == s'.pp[..k]
    requires s.pp[k].seenElse && s'.pp[k].seenElse && s.pp[k].beforeElse == s'.pp[k].beforeElse
    ensures Kept(s) == Kept(s')
    decreases k
  {
    if k > 0 {
      assert s.pp[0] == s.pp[..k][0] && s'.pp[0] == s'.pp[..k][0];
      assert s.pp[1..][..k - 1] == s.pp[..k][1..];
      assert s'.pp[1..][..k - 1] == s'.pp[..k][1..];
      KeptWhenDead(s.(pp := s.pp[1..]), s'.(pp := s'.pp[1..]), k - 1);
    }
  }

  /** If only the last level is dead, what it saved is what is kept. */
  lemma {:induction false} KeptAtLast(s: State)
    requires s.pp != [] && s.pp[|s.pp| - 1].seenElse && AllLive(s.pp[..|s.pp| - 1])
    ensures Kept(s) == s.pp[|s.pp| - 1].beforeElse
    decreases |s.pp|
  {
    if |s.pp| > 1 {
      assert !s.pp[..|s.pp| - 1][0].seenElse;
      assert s.pp[1..][..|s.pp| - 2] == s.pp[..|s.pp| - 1][1..];
      KeptAtLast(s.(pp := s.pp[1..]));
    }
  }

  lemma LevelsStep(s: State, d: Directive)
    ensures LevelsOf(UpdatePreprocessor(s, d).pp) == NextLevels(LevelsOf(s.pp), d)
  {
  }

  /** One directive: it never changes what is kept. */
  lemma DirectiveKeeps(s: State, d: Directive)
    ensures Kept(UpdatePreprocessor(s, d)) == Kept(s)
  {
    var s' := UpdatePreprocessor(s, d);
    var n := |s.pp|;
    if d.Else? && n > 0 {
      ElseKeeps(s);
    } else if d.EndIf? && n > 0 && s.pp[n - 1].seenElse {
      EndIfKeeps(s);
    } else if AllLive(s.pp) {
      KeptWhenLive(s);
      KeptWhenLive(s');
    } else {
      var k :| 0 <= k < n && s.pp[k].seenElse;
      assert s'.pp[..k] == s.pp[..k];
      KeptWhenDead(s, s', k);
    }
  }

  lemma ElseKeeps(s: State)
    requires s.pp != []
    ensures Kept(UpdatePreprocessor(s, Else)) == Kept(s)
  {
    if AllLive(s.pp) {
      FirstElseKeeps(s);
    } else {
      var s' := UpdatePreprocessor(s, Else);
      var k :| 0 <= k < |s.pp| && s.pp[k].seenElse;
      assert s'.pp[..k] == s.pp[..k];
      KeptWhenDead(s, s', k);
    }
  }

  lemma FirstElseKeeps(s: State)
    requires s.pp != [] && AllLive(s.pp)
    ensures Kept(UpdatePreprocessor(s, Else)) == Kept(s)
  {
    var s', n := UpdatePreprocessor(s, Else), |s.pp|;
    assert s'.pp[..n - 1] == s.pp[..n - 1];
    KeptWhenLive(s);
    KeptAtLast(s');
  }

  lemma EndIfKeeps(s: State)
    requires s.pp != [] && s.pp[|s.pp| - 1].seenElse
    ensures Kept(UpdatePreprocessor(s, EndIf)) == Kept(s)
  {
    var s', n := UpdatePreprocessor(s, EndIf), |s.pp|;
    if AllLive(s'.pp) {
      KeptAtLast(s);
      KeptWhenLive(s');
    } else {
      var k :| 0 <= k < n - 1 && s'.pp[k].seenElse;
      assert s'.pp[..k] == s.pp[..k];
      KeptWhenDead(s, s', k);
    }
  }

  /** The text of a line changes what is kept exactly in live text. */
  lemma TextKeeps(s: State, st: seq<Block>)
    ensures Kept(s.(stack := st)) == if AllLive(s.pp) then st else Kept(s)
  {
    if AllLive(s.pp) {
      KeptWhenLive(s.(stack := st));
    } else {
      var k :| 0 <= k < |s.pp| && s.pp[k].seenElse;
      KeptWhenDead(s, s.(stack := st), k);
    }
  }

  /** One line changes what is kept exactly in live text. */
  lemma LineKeeps(s: State, line: Line, later: seq<Line>)
    ensures LevelsOf(Update(s, line, later).pp) == NextLevels(LevelsOf(s.pp), line.directive)
    ensures Kept(Update(s, line, later)) ==
      if Live(NextLevels(LevelsOf(s.pp), line.directive))
      then TextEffect(Kept(s), line, InTemplateList(line, later)) else Kept(s)
  {
    var t := UpdatePreprocessor(s, line.directive);
    LevelsStep(s, line.directive);
    DirectiveKeeps(s, line.directive);
    TextKeeps(t, TextEffect(t.stack, line, InTemplateList(line, later)));
    LiveLevels(t.pp);
    if AllLive(t.pp) {
      KeptWhenLive(t);
    }
  }

  lemma JudgedFirst(st: seq<Block>, j: Judged, js: seq<Judged>)
    ensures RunJudged(st, [j] + js) == RunJudged(TextEffect(st, j.line, j.inTemplate), js)
  {
    assert ([j] + js)[1..] == js;
  }

  /** Preprocessor erasure, for every sequence of lines and from every state: what is kept in
      the end is what the lines of first branches compute without any preprocessor handling, each
      with the verdict on its class head that it got in its place. */
  lemma {:induction false} Erasure(s: State, lines: seq<Line>)
    ensures Kept(Run(s, lines)) == RunJudged(Kept(s), EraseJudged(LevelsOf(s.pp), lines))
    ensures LevelsOf(Run(s, lines).pp) == FinalLevels(LevelsOf(s.pp), lines)
    decreases |lines|
  {
    if lines != [] {
      var line, later := lines[0], lines[1..];
      LineKeeps(s, line, later);
      Erasure(Update(s, line, later), later);
      var tail := EraseJudged(NextLevels(LevelsOf(s.pp), line.directive), later);
      JudgedFirst(Kept(s), Judged(line, InTemplateList(line, later)), tail);
      assert [] + tail == tail;
    }
  }

  // ---- When the verdicts do not depend on what is erased ----

  /** The lines up to the next one that is erased. */
  function LiveRun(ls: Levels, lines: seq<Line>): seq<Line>
    decreases |lines|
  {
    if lines == [] || !Live(NextLevels(ls, lines[0].directive)) then []
    else [lines[0]] + LiveRun(NextLevels(ls, lines[0].directive), lines[1..])
  }

  lemma {:induction false} LiveRunIsPrefix(ls: Levels, lines: seq<Line>)
    ensures LiveRun(ls, lines) <= lines && LiveRun(ls, lines) <= Erase(ls, lines)
    ensures LiveRun(ls, lines) == lines ==> Erase(ls, lines) == lines
    decreases |lines|
  {
    if lines != [] && Live(NextLevels(ls, lines[0].directive)) {
      LiveRunIsPrefix(NextLevels(ls, lines[0].directive), lines[1..]);
    }
  }

  /** The scan from a class head ends before the next line that is erased, or nothing is. */
  predicate HeadSettled(ls: Levels, line: Line, later: seq<Line>) {
    LiveRun(ls, later) == later || HeadVerdict(line, LiveRun(ls, later)) != Undecided
  }

  /** The line leaves the same stack in a template list and outside, as `class T;` does, or any class
      head inside parentheses. */
  predicate EitherWay(st: seq<Block>, line: Line) {
    TextEffect(st, line, true) == TextEffect(st, line, false)
  }

  /** One or the other holds for every line in a first branch, from the stack before it. */
  predicate Settled(ls: Levels, lines: seq<Line>, st: seq<Block>)
    decreases |lines|
  {
    lines == [] ||
    var line, later, next := lines[0], lines[1..], NextLevels(ls, lines[0].directive);
    if Live(next) then
      (HeadSettled(next, line, later) || EitherWay(st, line)) &&
      Settled(next, later, TextEffect(st, line, InTemplateList(line, later)))
    else Settled(next, later, st)
  }

  lemma VerdictOfPrefix(line: Line, near: seq<Line>, all: seq<Line>)
    requires near <= all && HeadVerdict(line, near) != Undecided
    ensures HeadVerdict(line, all) == HeadVerdict(line, near)
  {
    if line.classDecl.Some? {
      var a, b := [line.text] + Texts(near), Texts(all[|near|..]);
      assert [line.text] + Texts(all) == a + b;
      VerdictStays(a, b, 0, line.classDecl.value.end);
    }
  }

  lemma SettledVerdict(ls: Levels, line: Line, later: seq<Line>)
    requires HeadSettled(ls, line, later)
    ensures InTemplateList(line, later) <==> InTemplateList(line, Erase(ls, later))
  {
    LiveRunIsPrefix(ls, later);
    if LiveRun(ls, later) != later {
      VerdictOfPrefix(line, LiveRun(ls, later), later);
      VerdictOfPrefix(line, LiveRun(ls, later), Erase(ls, later));
    }
  }

  /** The condition is exact for what lies before the first erased line: a class head there gets
      one verdict whatever follows if and only if its scan has ended. */
  lemma VerdictIsFixedIff(line: Line, near: seq<Line>)
    requires line.classDecl.Some?
    ensures (forall b: seq<string> ::
              InTemplate([line.text] + Texts(near) + b, 0, line.classDecl.value.end) == Yes <==>
              InTemplateList(line, near)) <==>
            HeadVerdict(line, near) != Undecided
  {
    SettledIff([line.text] + Texts(near), line.classDecl.value.end);
  }

  /** What the line does to the stack when the file goes on with the text b behind the lines near it. */
  function EffectBefore(st: seq<Block>, line: Line, near: seq<Line>, b: seq<string>): seq<Block>
    requires line.classDecl.Some?
  {
    TextEffect(st, line, InTemplate([line.text] + Texts(near) + b, 0, line.classDecl.value.end) == Yes)
  }

  /** And exact for the stack behind the line: it is the same whatever follows if and only if the scan
      has ended or the verdict makes no difference. */
  lemma StackIsFixedIff(st: seq<Block>, line: Line, near: seq<Line>)
    requires line.classDecl.Some?
    ensures (forall b: seq<string> :: EffectBefore(st, line, near, b) == EffectBefore(st, line, near, [])) <==>
            HeadVerdict(line, near) != Undecided || EitherWay(st, line)
  {
    var a, pos := [line.text] + Texts(near), line.classDecl.value.end;
    assert a + [] == a;
    if HeadVerdict(line, near) == Undecided {
      var b := VerdictCanBeYes(a, 0, pos);
      assert EffectBefore(st, line, near, b) == TextEffect(st, line, true);
      assert EffectBefore(st, line, near, []) == TextEffect(st, line, false);
      if EitherWay(st, line) {
        forall c: seq<string>
          ensures EffectBefore(st, line, near, c) == EffectBefore(st, line, near, [])
        {
        }
      }
    } else {
      forall b: seq<string>
        ensures EffectBefore(st, line, near, b) == EffectBefore(st, line, near, [])
      {
        VerdictStays(a, b, 0, pos);
      }
    }
  }

  lemma {:induction false} JudgedIsText(ls: Levels, lines: seq<Line>, st: seq<Block>)
    requires Settled(ls, lines, st)
    ensures RunJudged(st, EraseJudged(ls, lines)) == RunText(st, Erase(ls, lines))
    decreases |lines|
  {
    if lines != [] {
      var line, later, next := lines[0], lines[1..], NextLevels(ls, lines[0].directive);
      var js, ts := EraseJudged(next, later), Erase(next, later);
      if Live(next) {
        var j := Judged(line, InTemplateList(line, later));
        if HeadSettled(next, line, later) {
          SettledVerdict(next, line, later);
        }
        JudgedIsText(next, later, TextEffect(st, line, j.inTemplate));
        assert ([j] + js)[1..] == js && ([line] + ts)[1..] == ts;
      } else {
        JudgedIsText(next, later, st);
        assert [] + js == js && [] + ts == ts;
      }
    }
  }

  /** Outside every later branch, the erased lines give the stack itself, provided that no class
      head looks past the first branches with an effect on the stack. */
  lemma StackIsErased(s: State, lines: seq<Line>)
    requires AllLive(s.pp) && Live(FinalLevels(LevelsOf(s.pp), lines))
    ensures Run(s, lines).stack == RunJudged(s.stack, EraseJudged(LevelsOf(s.pp), lines))
    ensures Settled(LevelsOf(s.pp), lines, s.stack) ==>
              Run(s, lines).stack == RunText(s.stack, Erase(LevelsOf(s.pp), lines))
  {
    Erasure(s, lines);
    LiveLevels(Run(s, lines).pp);
    KeptWhenLive(s);
    KeptWhenLive(Run(s, lines));
    if Settled(LevelsOf(s.pp), lines, s.stack) {
      JudgedIsText(LevelsOf(s.pp), lines, s.stack);
    }
  }

  // ---- Well-nested text ----

  /** A file as nested conditionals. */
  datatype Program =
    | End
    | Text(line: Line, rest: Program)
    | Cond(ifLine: Line, first: Program, later: Branches, endLine: Line, rest: Program)

  datatype Branches = NoMore | Branch(elseLine: Line, body: Program, more: Branches)

  predicate Legal(p: Program) {
    match p
    case End => true
    case Text(line, rest) => line.directive.NoDirective? && Legal(rest)
    case Cond(i, first, later, e, rest) =>
      i.directive.If? && e.directive.EndIf? && Legal(first) && LegalBranches(later) && Legal(rest)
  }

  predicate LegalBranches(bs: Branches) {
    match bs
    case NoMore => true
    case Branch(e, body, more) => e.directive.Else? && Legal(body) && LegalBranches(more)
  }

  function Flatten(p: Program): seq<Line> {
    match p
    case End => []
    case Text(line, rest) => [line] + Flatten(rest)
    case Cond(i, first, later, e, rest) =>
      [i] + (Flatten(first) + (FlattenBranches(later) + ([e] + Flatten(rest))))
  }

  function FlattenBranches(bs: Branches): seq<Line> {
    match bs
    case NoMore => []
    case Branch(e, body, more) => [e] + (Flatten(body) + FlattenBranches(more))
  }

  /** The program with every branch after the first deleted. */
  function FirstBranches(p: Program): seq<Line> {
    match p
    case End => []
    case Text(line, rest) => [line] + FirstBranches(rest)
    case Cond(i, first, _, e, rest) => [i] + (FirstBranches(first) + ([e] + FirstBranches(rest)))
  }

  lemma EraseFirst(ls: Levels, line: Line, tail: seq<Line>)
    ensures Erase(ls, [line] + tail) ==
      (if Live(NextLevels(ls, line.directive)) then [line] else []) + Erase(NextLevels(ls, line.directive), tail)
    ensures FinalLevels(ls, [line] + tail) == FinalLevels(NextLevels(ls, line.directive), tail)
  {
    assert ([line] + tail)[1..] == tail;
  }

  lemma LiveSnoc(ls: Levels, b: bool)
    ensures Live(ls + [b]) <==> Live(ls) && !b
  {
    if Live(ls + [b]) {
      assert !(ls + [b])[|ls|];
      assert forall i :: 0 <= i < |ls| ==> ls[i] == (ls + [b])[i];
    }
  }

  /** Erasing a well-nested text in front of anything, from live and from dead text. */
  lemma {:induction false} EraseProgram(ls: Levels, p: Program, tail: seq<Line>)
    requires Legal(p)
    ensures Erase(ls, Flatten(p) + tail) == (if Live(ls) then FirstBranches(p) else []) + Erase(ls, tail)
    ensures FinalLevels(ls, Flatten(p) + tail) == FinalLevels(ls, tail)
    decreases p, 1
  {
    match p {
      case End =>
        assert [] + tail == tail;
      case Text(line, rest) =>
        assert Flatten(p) + tail == [line] + (Flatten(rest) + tail);
        EraseFirst(ls, line, Flatten(rest) + tail);
        EraseProgram(ls, rest, tail);
      case Cond(i, first, later, e, rest) =>
        EraseCond(ls, p, tail);
    }
  }

  lemma {:induction false} EraseCond(ls: Levels, p: Program, tail: seq<Line>)
    requires Legal(p) && p.Cond?
    ensures Erase(ls, Flatten(p) + tail) == (if Live(ls) then FirstBranches(p) else []) + Erase(ls, tail)
    ensures FinalLevels(ls, Flatten(p) + tail) == FinalLevels(ls, tail)
    decreases p, 0
  {
    var Cond(i, first, later, e, rest) := p;
    var t3 := Flatten(rest) + tail;
    var t2 := FlattenBranches(later) + ([e] + t3);
    assert Flatten(p) + tail == [i] + (Flatten(first) + t2);
    LiveSnoc(ls, false);
    EraseFirst(ls, i, Flatten(first) + t2);
    EraseProgram(ls + [false], first, t2);
    EraseLater(ls, false, later, e, t3);
    EraseProgram(ls, rest, tail);
    if Live(ls) {
      Reassociate([i], FirstBranches(first), [e], FirstBranches(rest), Erase(ls, tail));
    } else {
      Reassociate([], [], [], [], Erase(ls, tail));
    }
  }

  lemma Reassociate(a: seq<Line>, b: seq<Line>, c: seq<Line>, d: seq<Line>, r: seq<Line>)
    ensures a + (b + (c + (d + r))) == (a + (b + (c + d))) + r
  {
  }

  lemma BranchText(x: Line, body: seq<Line>, more: seq<Line>, tail: seq<Line>)
    ensures [x] + (body + more) + tail == [x] + (body + (more + tail))
  {
  }

  /** Later branches leave nothing behind; then the `#endif` closes the level. */
  lemma {:induction false} EraseLater(ls: Levels, seen: bool, bs: Branches, e: Line, tail: seq<Line>)
    requires LegalBranches(bs) && e.directive.EndIf?
    ensures Erase(ls + [seen], FlattenBranches(bs) + ([e] + tail)) ==
      (if Live(ls) then [e] else []) + Erase(ls, tail)
    ensures FinalLevels(ls + [seen], FlattenBranches(bs) + ([e] + tail)) == FinalLevels(ls, tail)
    decreases bs
  {
    match bs {
      case NoMore =>
        assert [] + ([e] + tail) == [e] + tail;
        EraseFirst(ls + [seen], e, tail);
        assert (ls + [seen])[..|ls|] == ls;
      case Branch(x, body, more) =>
        var t := FlattenBranches(more) + ([e] + tail);
        assert FlattenBranches(bs) == [x] + (Flatten(body) + FlattenBranches(more));
        BranchText(x, Flatten(body), FlattenBranches(more), [e] + tail);
        EraseBranch(ls, seen, x, body, t);
        EraseLater(ls, true, more, e, tail);
    }
  }

  lemma {:induction false} EraseBranch(ls: Levels, seen: bool, x: Line, body: Program, t: seq<Line>)
    requires Legal(body) && x.directive.Else?
    ensures Erase(ls + [seen], [x] + (Flatten(body) + t)) == Erase(ls + [true], t)
    ensures FinalLevels(ls + [seen], [x] + (Flatten(body) + t)) == FinalLevels(ls + [true], t)
    decreases body, 2
  {
    EraseFirst(ls + [seen], x, Flatten(body) + t);
    assert (ls + [seen])[|ls| := true] == ls + [true];
    LiveSnoc(ls, true);
    EraseProgram(ls + [true], body, t);
  }

  /** The theorem for well-nested text. The checkpoint stack is back at its depth, and the final
      stack is that of the same text with every branch after the first deleted, if for each class head
      in a first branch the scan ends before the next `#else` or `#elif` or makes no difference. */
  lemma FirstBranchesDecide(s: State, p: Program)
    requires Legal(p) && AllLive(s.pp)
    ensures |Run(s, Flatten(p)).pp| == |s.pp|
    ensures Run(s, Flatten(p)).stack == RunJudged(s.stack, EraseJudged(LevelsOf(s.pp), Flatten(p)))
    ensures Settled(LevelsOf(s.pp), Flatten(p), s.stack) ==>
              Run(s, Flatten(p)).stack == RunText(s.stack, FirstBranches(p))
  {
    LiveLevels(s.pp);
    EraseProgram(LevelsOf(s.pp), p, []);
    assert Flatten(p) + [] == Flatten(p) && FirstBranches(p) + [] == FirstBranches(p);
    StackIsErased(s, Flatten(p));
    Erasure(s, Flatten(p));
  }
}

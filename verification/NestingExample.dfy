/** A text on which deleting a later branch changes the final stack: the condition of the
    erasure theorem is needed. */
module NestingExample {
  import opened Basics
  import opened TemplateScan
  import opened Nesting

  function PlainLine(text: string, d: Directive, tokens: seq<Token>): Line {
    Line(text, 0, d, 0, false, false, [], None, Rest(None, tokens))
  }

  const IF := PlainLine("#if A", If, [])
  const HEAD := PlainLine("class T", NoDirective, []).(classDecl := Some(ClassDecl("T", false, 7, Rest(None, []))))
  const ELSE := PlainLine("#else", Else, [])
  const SEMICOLON := PlainLine(";", NoDirective, [Semicolon])
  const ENDIF := PlainLine("#endif", EndIf, [])
  const GREATER := PlainLine(">", NoDirective, [])
  const BODY := PlainLine("void f {", NoDirective, [OpenBrace(false, false)])

  const TAIL := [ENDIF, GREATER, BODY]

  /** The end of a template parameter list, with a `;` in the second branch. */
  const FULL := [IF, HEAD, ELSE, SEMICOLON] + TAIL

  const FIRST := [IF, HEAD] + TAIL

  const CLASS_T := NewBlock(Class("T", false), 0, false)

  // ---- The verdicts ----

  lemma NothingSpecial(ts: seq<string>, l: nat)
    requires l < |ts| && forall k :: 0 <= k < |ts[l]| ==> !IsSpecial(ts[l][k])
    ensures InTemplate(ts, l, 0) == InTemplate(ts, l + 1, 0)
  {
  }

  lemma OneSpecial(ts: seq<string>, l: nat)
    requires l < |ts| && (ts[l] == ";" || ts[l] == ">")
    ensures InTemplate(ts, l, 0) == if ts[l] == ";" then No else Yes
  {
    assert Special(ts[l], 0) == 0;
  }

  /** The scan from `class T` meets the `;` of the second branch, and without it the `>`. */
  lemma DeletionDecides()
    ensures HeadVerdict(HEAD, [ELSE, SEMICOLON] + TAIL) == No
    ensures HeadVerdict(HEAD, TAIL) == Yes
    ensures HeadVerdict(HEAD, []) == Undecided
  {
    var full, left := ["class T"] + Texts([ELSE, SEMICOLON] + TAIL), ["class T"] + Texts(TAIL);
    NothingSpecial(full, 1);
    OneSpecial(full, 2);
    NothingSpecial(left, 1);
    OneSpecial(left, 2);
    var alone := ["class T"] + Texts([]);
    assert |alone| == 1 && alone[0] == "class T";
    assert InTemplate(alone, 1, 0) == Undecided;
  }

  // ---- The effect of each line ----

  lemma Quiet(st: seq<Block>, text: string, d: Directive, b: bool)
    requires st == [] || Top(st).inlineAsm == NoAsm
    ensures TextEffect(st, PlainLine(text, d, []), b) == st
  {
  }

  lemma HeadEffect(b: bool)
    ensures TextEffect([], HEAD, b) == if b then [] else [CLASS_T]
  {
  }

  lemma SemicolonEffect(b: bool)
    ensures TextEffect([], SEMICOLON, b) == []
  {
    assert [Semicolon][1..] == [];
  }

  lemma BodyEffect(b: bool)
    ensures TextEffect([], BODY, b) == [NewBlock(PlainBlock, 0, true)]
    ensures TextEffect([CLASS_T], BODY, b) == [CLASS_T.(seenOpenBrace := true)]
  {
    assert [OpenBrace(false, false)][1..] == [];
    assert TrackParens([CLASS_T], BODY) == [CLASS_T];
  }

  lemma RunOne(s: State, line: Line, later: seq<Line>)
    ensures Run(s, [line] + later) == Run(Update(s, line, later), later)
  {
    assert ([line] + later)[1..] == later;
  }

  lemma RunTextOne(st: seq<Block>, line: Line, later: seq<Line>)
    ensures RunText(st, [line] + later) == RunText(TextEffect(st, line, InTemplateList(line, later)), later)
  {
    assert ([line] + later)[1..] == later;
  }

  // The stages of the run over the full text.

  const START := State([], [])
  const IN_FIRST := State([], [Checkpoint([], [], false)])
  const AFTER_HEAD := State([CLASS_T], [Checkpoint([], [], false)])
  const IN_SECOND := State([], [Checkpoint([], [CLASS_T], true)])
  const AFTER_ENDIF := State([CLASS_T], [])
  const IN_CLASS := State([CLASS_T.(seenOpenBrace := true)], [])

  lemma RunStep(s: State, line: Line, later: seq<Line>, s': State, end: State)
    requires Update(s, line, later) == s' && Run(s', later) == end
    ensures Run(s, [line] + later) == end
  {
    RunOne(s, line, later);
  }

  /** What the first branch and the `#else` do. */
  lemma FirstStages(t1: seq<Line>, t2: seq<Line>, t3: seq<Line>)
    requires HeadVerdict(HEAD, t2) == No
    ensures Update(START, IF, t1) == IN_FIRST
    ensures Update(IN_FIRST, HEAD, t2) == AFTER_HEAD
    ensures Update(AFTER_HEAD, ELSE, t3) == IN_SECOND
  {
    Quiet([], "#if A", If, InTemplateList(IF, t1));
    HeadEffect(false);
    Quiet([], "#else", Else, InTemplateList(ELSE, t3));
  }

  /** What the rest does. */
  lemma LastStages(t4: seq<Line>, t5: seq<Line>, t6: seq<Line>, t7: seq<Line>)
    ensures Update(IN_SECOND, SEMICOLON, t4) == IN_SECOND
    ensures Update(IN_SECOND, ENDIF, t5) == AFTER_ENDIF
    ensures Update(AFTER_ENDIF, GREATER, t6) == AFTER_ENDIF
    ensures Update(AFTER_ENDIF, BODY, t7) == IN_CLASS
  {
    SemicolonEffect(InTemplateList(SEMICOLON, t4));
    Quiet([CLASS_T], "#endif", EndIf, InTemplateList(ENDIF, t5));
    Quiet([CLASS_T], ">", NoDirective, InTemplateList(GREATER, t6));
    BodyEffect(InTemplateList(BODY, t7));
  }

  lemma RunSecond(in2: State, end: State, t5: seq<Line>, t6: seq<Line>)
    requires in2 == IN_SECOND && end == IN_CLASS && t6 == [BODY] && t5 == [GREATER] + t6
    ensures Run(in2, [SEMICOLON] + ([ENDIF] + t5)) == end
  {
    var after := AFTER_ENDIF;
    LastStages([ENDIF] + t5, t5, t6, []);
    assert t6 == [BODY] + [];
    RunStep(after, BODY, [], end, end);
    RunStep(after, GREATER, t6, after, end);
    RunStep(in2, ENDIF, t5, after, end);
    RunStep(in2, SEMICOLON, [ENDIF] + t5, in2, end);
  }

  lemma RunFull(full: seq<Line>)
    requires full == FULL
    ensures Run(START, full) == IN_CLASS
  {
    var t6 := [BODY];
    var t5 := [GREATER] + t6;
    var t3 := [SEMICOLON] + ([ENDIF] + t5);
    var t2 := [ELSE] + t3;
    var t1 := [HEAD] + t2;
    assert full == [IF] + t1 && t2 == [ELSE, SEMICOLON] + TAIL;
    DeletionDecides();
    FirstStages(t1, t2, t3);
    RunSecond(IN_SECOND, IN_CLASS, t5, t6);
    RunStep(AFTER_HEAD, ELSE, t3, IN_SECOND, IN_CLASS);
    RunStep(IN_FIRST, HEAD, t2, AFTER_HEAD, IN_CLASS);
    RunStep(START, IF, t1, IN_FIRST, IN_CLASS);
  }

  lemma RunFirst()
    ensures RunText([], FIRST) == [NewBlock(PlainBlock, 0, true)]
  {
    assert FIRST == [IF] + ([HEAD] + TAIL) && TAIL == [ENDIF] + ([GREATER] + ([BODY] + []));
    RunTextOne([], IF, [HEAD] + TAIL);
    Quiet([], "#if A", If, InTemplateList(IF, [HEAD] + TAIL));
    RunTextOne([], HEAD, TAIL);
    DeletionDecides();
    HeadEffect(true);
    RunTextOne([], ENDIF, [GREATER] + ([BODY] + []));
    Quiet([], "#endif", EndIf, InTemplateList(ENDIF, [GREATER] + ([BODY] + [])));
    RunTextOne([], GREATER, [BODY] + []);
    Quiet([], ">", NoDirective, InTemplateList(GREATER, [BODY] + []));
    RunTextOne([], BODY, []);
    BodyEffect(InTemplateList(BODY, []));
  }

  lemma EraseStep(ls: Levels, next: Levels, line: Line, tail: seq<Line>, left: seq<Line>)
    requires next == NextLevels(ls, line.directive) && Erase(next, tail) == left
    ensures Erase(ls, [line] + tail) == if Live(next) then [line] + left else left
  {
    EraseFirst(ls, line, tail);
    assert [] + left == left;
  }

  /** From the second branch on. */
  lemma ErasedLater(none: Levels, dead: Levels)
    requires none == [] && dead == [true]
    ensures Erase(dead, [SEMICOLON] + TAIL) == TAIL
  {
    var t1 := [BODY];
    var t2 := [GREATER] + t1;
    assert TAIL == [ENDIF] + t2 && t1 == [BODY] + [];
    EraseStep(none, none, BODY, [], []);
    EraseStep(none, none, GREATER, t1, t1);
    EraseStep(dead, none, ENDIF, t2, t2);
    LiveSnoc(none, true);
    EraseStep(dead, dead, SEMICOLON, TAIL, TAIL);
  }

  lemma ErasedSecond(none: Levels, open: Levels, dead: Levels, t: seq<Line>)
    requires none == [] && open == [false] && dead == [true] && Erase(dead, t) == TAIL
    ensures Erase(open, [ELSE] + t) == TAIL
  {
    LiveSnoc(none, true);
    EraseStep(open, dead, ELSE, t, TAIL);
  }

  lemma ErasedFirst(none: Levels, open: Levels, later: seq<Line>)
    requires none == [] && open == [false] && Erase(open, later) == TAIL
    ensures Erase(none, [IF] + ([HEAD] + later)) == [IF] + ([HEAD] + TAIL)
  {
    EraseStep(open, open, HEAD, later, TAIL);
    EraseStep(none, open, IF, [HEAD] + later, [HEAD] + TAIL);
  }

  lemma EraseFull()
    ensures Erase([], FULL) == FIRST
  {
    var none: Levels, open, dead := [], [false], [true];
    var t := [SEMICOLON] + TAIL;
    assert FULL == [IF] + ([HEAD] + ([ELSE] + t)) && FIRST == [IF] + ([HEAD] + TAIL);
    ErasedLater(none, dead);
    ErasedSecond(none, open, dead, t);
    ErasedFirst(none, open, [ELSE] + t);
  }

  /** The class head is unsettled in the first branch, and its verdict makes a difference. */
  lemma HeadIsUnsettled(open: Levels, l2: seq<Line>, st: seq<Block>)
    requires open == [false] && st == [] && l2 == [ELSE] + ([SEMICOLON] + TAIL)
    ensures !Settled(open, [HEAD] + l2, st)
  {
    assert ([HEAD] + l2)[1..] == l2 && l2[0] == ELSE;
    LiveSnoc([], true);
    assert open[0 := true] == [] + [true];
    assert LiveRun(open, l2) == [];
    DeletionDecides();
    HeadEffect(true);
    HeadEffect(false);
    assert !HeadSettled(open, HEAD, l2) && !EitherWay(st, HEAD);
    LiveSnoc([], false);
    assert [] + [false] == open;
  }

  lemma FullIsUnsettled(full: seq<Line>, none: Levels, st: seq<Block>)
    requires full == FULL && none == [] && st == []
    ensures !Settled(none, full, st)
  {
    var l2 := [ELSE] + ([SEMICOLON] + TAIL);
    assert full[1..] == [HEAD] + l2 && full[0] == IF;
    HeadIsUnsettled([false], l2, st);
    LiveSnoc([], false);
    assert [] + [false] == [false];
    Quiet(st, "#if A", If, InTemplateList(IF, full[1..]));
  }

  /** The text is erased to its first branches, its one class head is unsettled, and the last
      line opens the body of the class in the one text and a plain block in the other. */
  lemma DeletionChangesTheStack(full: seq<Line>)
    requires full == FULL
    ensures Erase([], full) == FIRST && !Settled([], full, [])
    ensures Run(State([], []), full).stack == [CLASS_T.(seenOpenBrace := true)]
    ensures RunText([], FIRST) == [NewBlock(PlainBlock, 0, true)]
  {
    EraseFull();
    FullIsUnsettled(full, [], []);
    RunFull(full);
    RunFirst();
  }
}

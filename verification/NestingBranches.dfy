/** What a later branch of a conditional starts from, and what it computes: `#else` and `#elif` go back
    to the stack before `#if`, whatever the earlier branches did. */
module NestingBranches {
  import opened Nesting

  /** The state behind some lines of a file that goes on with others. */
  function RunOn(s: State, lines: seq<Line>, after: seq<Line>): State
    decreases |lines|
  {
    if lines == [] then s else RunOn(Update(s, lines[0], lines[1..] + after), lines[1..], after)
  }

  lemma {:induction false} RunSplits(s: State, a: seq<Line>, b: seq<Line>)
    ensures Run(s, a + b) == Run(RunOn(s, a, b), b)
    decreases |a|
  {
    if a == [] {
      assert a + b == b;
    } else {
      assert (a + b)[1..] == a[1..] + b;
      RunSplits(Update(s, a[0], a[1..] + b), a[1..], b);
    }
  }

  lemma {:induction false} RunOnSplits(s: State, a: seq<Line>, b: seq<Line>, after: seq<Line>)
    ensures RunOn(s, a + b, after) == RunOn(RunOn(s, a, b + after), b, after)
    decreases |a|
  {
    if a == [] {
      assert a + b == b;
    } else {
      assert (a + b)[1..] == a[1..] + b && (a[1..] + b) + after == a[1..] + (b + after);
      RunOnSplits(Update(s, a[0], a[1..] + (b + after)), a[1..], b, after);
    }
  }

  /** From n open conditionals every one is closed again, and no line ends one that was open before. The
      lines of the branch around them, if any, are allowed or not. */
  predicate Within(n: nat, lines: seq<Line>, branches: bool)
    decreases |lines|
  {
    if lines == [] then n == 0
    else
      match lines[0].directive
      case NoDirective => Within(n, lines[1..], branches)
      case If => Within(n + 1, lines[1..], branches)
      case Else => (n > 0 || branches) && Within(n, lines[1..], branches)
      case EndIf => n > 0 && Within(n - 1, lines[1..], branches)
  }

  lemma WithinFirst(n: nat, line: Line, tail: seq<Line>, branches: bool)
    ensures Within(n, [line] + tail, branches) <==>
      match line.directive
      case NoDirective => Within(n, tail, branches)
      case If => Within(n + 1, tail, branches)
      case Else => (n > 0 || branches) && Within(n, tail, branches)
      case EndIf => n > 0 && Within(n - 1, tail, branches)
  {
    assert ([line] + tail)[1..] == tail;
  }

  lemma CondText(p: Program, tail: seq<Line>)
    requires p.Cond?
    ensures Flatten(p) + tail ==
      [p.ifLine] + (Flatten(p.first) + (FlattenBranches(p.later) + ([p.endLine] + (Flatten(p.rest) + tail))))
  {
  }

  lemma {:induction false} ProgramWithin(n: nat, p: Program, tail: seq<Line>, branches: bool)
    requires Legal(p) && Within(n, tail, branches)
    ensures Within(n, Flatten(p) + tail, branches)
    decreases p
  {
    match p {
      case End =>
        assert [] + tail == tail;
      case Text(line, rest) =>
        assert Flatten(p) + tail == [line] + (Flatten(rest) + tail);
        ProgramWithin(n, rest, tail, branches);
        WithinFirst(n, line, Flatten(rest) + tail, branches);
      case Cond(i, first, later, e, rest) =>
        var t3 := Flatten(rest) + tail;
        var t2 := [e] + t3;
        var t1 := FlattenBranches(later) + t2;
        CondText(p, tail);
        ProgramWithin(n, rest, tail, branches);
        WithinFirst(n + 1, e, t3, branches);
        BranchesWithin(n + 1, later, t2, branches);
        ProgramWithin(n + 1, first, t1, branches);
        WithinFirst(n, i, Flatten(first) + t1, branches);
    }
  }

  lemma {:induction false} BranchesWithin(n: nat, bs: Branches, tail: seq<Line>, branches: bool)
    requires LegalBranches(bs) && Within(n, tail, branches) && (n > 0 || branches)
    ensures Within(n, FlattenBranches(bs) + tail, branches)
    decreases bs
  {
    match bs {
      case NoMore =>
        assert [] + tail == tail;
      case Branch(x, body, more) =>
        var t := FlattenBranches(more) + tail;
        BranchText(x, Flatten(body), FlattenBranches(more), tail);
        BranchesWithin(n, more, tail, branches);
        ProgramWithin(n, body, t, branches);
        WithinFirst(n, x, Flatten(body) + t, branches);
    }
  }

  // ---- The checkpoint of a conditional outlives its branches ----

  /** The checkpoints `base` and above them one that was taken at stack b. */
  predicate Remembers(pp: seq<Checkpoint>, base: seq<Checkpoint>, b: seq<Block>) {
    |pp| > |base| && pp[..|base|] == base && pp[|base|].beforeIf == b
  }

  lemma DirectiveRemembers(s: State, base: seq<Checkpoint>, b: seq<Block>, d: Directive)
    requires Remembers(s.pp, base, b) && (d.EndIf? ==> |s.pp| > |base| + 1)
    ensures var pp := UpdatePreprocessor(s, d).pp;
      && Remembers(pp, base, b)
      && |pp| == |s.pp| + (if d.If? then 1 else if d.EndIf? then -1 else 0)
  {
    var pp := UpdatePreprocessor(s, d).pp;
    assert pp[..|base|] == s.pp[..|base|];
  }

  lemma {:induction false} StillRemembers(s: State, base: seq<Checkpoint>, b: seq<Block>, n: nat,
                                          lines: seq<Line>, after: seq<Line>)
    requires Remembers(s.pp, base, b) && |s.pp| == |base| + 1 + n && Within(n, lines, true)
    ensures var pp := RunOn(s, lines, after).pp; Remembers(pp, base, b) && |pp| == |base| + 1
    decreases |lines|
  {
    if lines != [] {
      var d, s' := lines[0].directive, Update(s, lines[0], lines[1..] + after);
      DirectiveRemembers(s, base, b, d);
      StillRemembers(s', base, b, if d.If? then n + 1 else if d.EndIf? then n - 1 else n, lines[1..], after);
    }
  }

  /** A conditional up to its next `#else` or `#elif`. */
  function SoFar(i: Line, first: Program, done: Branches): seq<Line> {
    [i] + (Flatten(first) + FlattenBranches(done))
  }

  lemma SoFarRemembers(s: State, i: Line, first: Program, done: Branches, after: seq<Line>)
    requires i.directive.If? && Legal(first) && LegalBranches(done)
    ensures var pp := RunOn(s, SoFar(i, first, done), after).pp; Remembers(pp, s.pp, s.stack) && |pp| == |s.pp| + 1
  {
    var lines := Flatten(first) + FlattenBranches(done);
    assert SoFar(i, first, done)[1..] == lines;
    assert FlattenBranches(done) + [] == FlattenBranches(done);
    BranchesWithin(0, done, [], true);
    ProgramWithin(0, first, FlattenBranches(done), true);
    StillRemembers(Update(s, i, lines + after), s.pp, s.stack, 0, lines, after);
  }

  /** Wherever the conditional stands and whatever its earlier branches did: when the text of the next
      `#else` or `#elif` line starts, the stack is the one before the text of the `#if` line. */
  lemma BranchStarts(s: State, i: Line, first: Program, done: Branches, x: Line, after: seq<Line>)
    requires i.directive.If? && Legal(first) && LegalBranches(done) && x.directive.Else?
    ensures var t := RunOn(s, SoFar(i, first, done), [x] + after);
      && UpdatePreprocessor(t, x.directive).stack == s.stack == UpdatePreprocessor(s, i.directive).stack
      && Update(t, x, after).stack == TextEffect(s.stack, x, InTemplateList(x, after))
      && |Update(t, x, after).pp| == |s.pp| + 1 && Update(t, x, after).pp[..|s.pp|] == s.pp
  {
    SoFarRemembers(s, i, first, done, [x] + after);
    var t := RunOn(s, SoFar(i, first, done), [x] + after);
    DirectiveRemembers(t, s.pp, s.stack, x.directive);
    assert t.pp[|t.pp| - 1] == t.pp[|s.pp|];
  }

  // ---- What a branch computes ----

  lemma DirectiveFramed(st: seq<Block>, base: seq<Checkpoint>, pp: seq<Checkpoint>, d: Directive)
    requires d.Else? || d.EndIf? ==> pp != []
    ensures var u := UpdatePreprocessor(State(st, pp), d);
      UpdatePreprocessor(State(st, base + pp), d) == State(u.stack, base + u.pp)
  {
    var n := |base + pp|;
    match d {
      case NoDirective =>
      case If =>
        assert (base + pp) + [Checkpoint(st, [], false)] == base + (pp + [Checkpoint(st, [], false)]);
      case Else =>
        var top := pp[|pp| - 1];
        var next := if top.seenElse then top else top.(seenElse := true, beforeElse := st);
        assert (base + pp)[n - 1] == top && (base + pp)[n - 1 := next] == base + pp[|pp| - 1 := next];
      case EndIf =>
        assert (base + pp)[n - 1] == pp[|pp| - 1] && (base + pp)[..n - 1] == base + pp[..|pp| - 1];
    }
  }

  /** Lines that close what they open neither see nor touch the checkpoints below. */
  lemma {:induction false} Framed(st: seq<Block>, base: seq<Checkpoint>, pp: seq<Checkpoint>,
                                  lines: seq<Line>, after: seq<Line>)
    requires Within(|pp|, lines, false)
    ensures var r := RunOn(State(st, pp), lines, after);
      r.pp == [] && RunOn(State(st, base + pp), lines, after) == State(r.stack, base)
    decreases |lines|
  {
    if lines == [] {
      assert base + [] == base;
    } else {
      var line, more := lines[0], lines[1..] + after;
      DirectiveFramed(st, base, pp, line.directive);
      var u := UpdatePreprocessor(State(st, pp), line.directive);
      Framed(TextEffect(u.stack, line, InTemplateList(line, more)), base, u.pp, lines[1..], after);
    }
  }

  function Plain(x: Line): Line {
    x.(directive := NoDirective)
  }

  lemma TextIgnoresDirective(st: seq<Block>, x: Line, more: seq<Line>)
    ensures Update(State(st, []), Plain(x), more) == State(TextEffect(st, x, InTemplateList(x, more)), [])
  {
  }

  lemma RunOnFirst(s: State, x: Line, b: seq<Line>, after: seq<Line>)
    ensures RunOn(s, [x] + b, after) == RunOn(Update(s, x, b + after), b, after)
  {
    assert ([x] + b)[1..] == b;
  }

  /** A well-nested text computes the same stack wherever it stands. */
  lemma ProgramFramed(s: State, p: Program, after: seq<Line>)
    requires Legal(p)
    ensures RunOn(s, Flatten(p), after) == State(RunOn(State(s.stack, []), Flatten(p), after).stack, s.pp)
  {
    assert Flatten(p) + [] == Flatten(p) && s.pp + [] == s.pp;
    ProgramWithin(0, p, [], false);
    Framed(s.stack, s.pp, [], Flatten(p), after);
  }

  /** A later branch makes of the stack before `#if` what its own lines make of it where nothing else
      is open. */
  lemma BranchComputes(s: State, i: Line, first: Program, done: Branches, x: Line, body: Program, after: seq<Line>)
    requires i.directive.If? && Legal(first) && LegalBranches(done) && x.directive.Else? && Legal(body)
    ensures var t := RunOn(s, SoFar(i, first, done), [x] + (Flatten(body) + after));
      RunOn(t, [x] + Flatten(body), after).stack ==
      RunOn(State(s.stack, []), [Plain(x)] + Flatten(body), after).stack
  {
    var b := Flatten(body);
    var t := RunOn(s, SoFar(i, first, done), [x] + (b + after));
    BranchStarts(s, i, first, done, x, b + after);
    RunOnFirst(t, x, b, after);
    ProgramFramed(Update(t, x, b + after), body, after);
    TextIgnoresDirective(s.stack, x, b + after);
    RunOnFirst(State(s.stack, []), Plain(x), b, after);
  }

  // ---- In the whole file ----

  /** The branches `done` and then those of `bs`. */
  function Append(done: Branches, bs: Branches): Branches {
    match done
    case NoMore => bs
    case Branch(x, body, more) => Branch(x, body, Append(more, bs))
  }

  lemma {:induction false} AppendFlat(done: Branches, bs: Branches)
    ensures FlattenBranches(Append(done, bs)) == FlattenBranches(done) + FlattenBranches(bs)
    ensures LegalBranches(Append(done, bs)) <==> LegalBranches(done) && LegalBranches(bs)
    decreases done
  {
    match done {
      case NoMore =>
      case Branch(x, body, more) =>
        AppendFlat(more, bs);
        BranchText(x, Flatten(body), FlattenBranches(more), FlattenBranches(bs));
    }
  }

  lemma FileAt(i: seq<Line>, first: seq<Line>, done: seq<Line>, x: seq<Line>, body: seq<Line>, more: seq<Line>,
               e: seq<Line>, rest: seq<Line>, tail: seq<Line>)
    ensures (i + (first + ((done + (x + (body + more))) + (e + rest)))) + tail ==
            (i + (first + done)) + (x + (body + (more + (e + (rest + tail)))))
  {
  }

  /** In a run over a file that holds a conditional, any of its `#else` and `#elif` lines acts on the stack
      from before the `#if`, and the run goes on from there. */
  lemma RunThroughBranch(s: State, p: Program, done: Branches, x: Line, body: Program, more: Branches, tail: seq<Line>)
    requires Legal(p) && p.Cond? && p.later == Append(done, Branch(x, body, more))
    ensures var after := Flatten(body) + (FlattenBranches(more) + ([p.endLine] + (Flatten(p.rest) + tail)));
      var t := RunOn(s, SoFar(p.ifLine, p.first, done), [x] + after);
      && UpdatePreprocessor(t, x.directive).stack == s.stack
      && Update(t, x, after).stack == TextEffect(s.stack, x, InTemplateList(x, after))
      && Run(s, Flatten(p) + tail) == Run(Update(t, x, after), after)
  {
    var after := Flatten(body) + (FlattenBranches(more) + ([p.endLine] + (Flatten(p.rest) + tail)));
    AppendFlat(done, Branch(x, body, more));
    FileAt([p.ifLine], Flatten(p.first), FlattenBranches(done), [x], Flatten(body), FlattenBranches(more),
           [p.endLine], Flatten(p.rest), tail);
    RunSplits(s, SoFar(p.ifLine, p.first, done), [x] + after);
    assert ([x] + after)[1..] == after;
    BranchStarts(s, p.ifLine, p.first, done, x, after);
  }
}

/** When `InTemplateArgumentList` says yes, told by the characters of the text and by where
    `CloseExpression` ends. */
module TemplateVerdict {
  import opened ForwardScan
  import opened Lines
  import opened CloseExpression
  import opened TemplateScan

  predicate Telling(c: char) {
    c in "{};=[].<>"
  }

  predicate Silent(s: string, from: nat, to: nat) {
    forall x :: from <= x < to && x < |s| ==> !Telling(s[x])
  }

  /** From position p of line l on, the first telling character is that at (k, j). */
  predicate FirstTelling(ts: seq<string>, l: nat, p: nat, k: nat, j: nat) {
    && l <= k < |ts| && j < |ts[k]| && Telling(ts[k][j])
    && (if l == k then p <= j && Silent(ts[l], p, j)
        else Silent(ts[l], p, |ts[l]|) && Silent(ts[k], 0, j) &&
             forall m :: l < m < k ==> Silent(ts[m], 0, |ts[m]|))
  }

  datatype Place = Place(line: nat, pos: nat)

  /** From (l, p) one gets to the telling character at `to` over the given `<`, each of which is the
      next telling character and is jumped over to where `CloseExpression` ends. */
  predicate LeadsTo(ts: seq<string>, l: nat, p: nat, angles: seq<Place>, to: Place)
    decreases |angles|
  {
    if angles == [] then FirstTelling(ts, l, p, to.line, to.pos)
    else
      var a := angles[0];
      && FirstTelling(ts, l, p, a.line, a.pos) && ts[a.line][a.pos] == '<'
      && match CloseAt(ts, a.line, a.pos)
         case Spot(m, n) => LeadsTo(ts, m, n, angles[1..], to)
         case Nowhere => false
  }

  lemma SpecialIsSilent(line: string, p: nat)
    requires p <= |line|
    ensures Silent(line, p, Special(line, p)) && (Special(line, p) < |line| ==> Telling(line[Special(line, p)]))
  {
  }

  lemma SpecialIs(line: string, p: nat, j: nat)
    requires p <= j < |line| && Telling(line[j]) && Silent(line, p, j)
    ensures Special(line, p) == j && Special(line, j) == j
  {
    SpecialIsSilent(line, p);
    SpecialIsSilent(line, j);
  }

  lemma SpecialIsNone(line: string, p: nat)
    requires p <= |line| && Silent(line, p, |line|)
    ensures Special(line, p) == |line|
  {
    SpecialIsSilent(line, p);
  }

  lemma {:induction false} ToFirstTelling(ts: seq<string>, l: nat, p: nat, k: nat, j: nat)
    requires FirstTelling(ts, l, p, k, j)
    ensures InTemplate(ts, l, p) == InTemplate(ts, k, j)
    decreases k - l
  {
    if l == k {
      SpecialIs(ts[l], p, j);
    } else {
      if p < |ts[l]| {
        SpecialIsNone(ts[l], p);
      }
      assert InTemplate(ts, l, p) == InTemplate(ts, l + 1, 0);
      assert l + 1 < k ==> Silent(ts[l + 1], 0, |ts[l + 1]|);
      ToFirstTelling(ts, l + 1, 0, k, j);
    }
  }

  /** What a telling character decides. */
  lemma AtTelling(ts: seq<string>, k: nat, j: nat)
    requires k < |ts| && j < |ts[k]| && Telling(ts[k][j])
    ensures ts[k][j] in ">=[]." ==> InTemplate(ts, k, j) == Yes
    ensures ts[k][j] in "{};" ==> InTemplate(ts, k, j) == No
    ensures ts[k][j] == '<' && j + 1 < |ts[k]| && ts[k][j + 1] in "<=" ==> InTemplate(ts, k, j) == No
    ensures ts[k][j] == '<' ==>
      match CloseAt(ts, k, j)
      case Spot(m, n) => InTemplate(ts, k, j) == InTemplate(ts, m, n)
      case Nowhere => InTemplate(ts, k, j) != Yes
  {
    SpecialIs(ts[k], j, j);
    CloseScanIsClose(ts, k, j, "");
    CloseScanIsLater(ts, k, j, "");
  }

  lemma {:induction false} VerdictThere(ts: seq<string>, l: nat, p: nat, angles: seq<Place>, to: Place)
    requires LeadsTo(ts, l, p, angles, to)
    ensures to.line < |ts| && to.pos < |ts[to.line]| && Telling(ts[to.line][to.pos])
    ensures InTemplate(ts, l, p) == InTemplate(ts, to.line, to.pos)
    decreases |angles|
  {
    if angles == [] {
      ToFirstTelling(ts, l, p, to.line, to.pos);
    } else {
      var a := angles[0];
      var at := CloseAt(ts, a.line, a.pos);
      ToFirstTelling(ts, l, p, a.line, a.pos);
      AtTelling(ts, a.line, a.pos);
      VerdictThere(ts, at.line, at.pos, angles[1..], to);
    }
  }

  /** No: at `{`, `}` and `;`, at a `<` before another or before `=`, and at one that does not close. */
  lemma SaysNo(ts: seq<string>, l: nat, p: nat, angles: seq<Place>, to: Place)
    requires LeadsTo(ts, l, p, angles, to)
    ensures to.line < |ts| && to.pos < |ts[to.line]|
    ensures var c := ts[to.line][to.pos];
      && (c in "{};" ==> InTemplate(ts, l, p) == No)
      && (c == '<' && CloseAt(ts, to.line, to.pos).Nowhere? ==> InTemplate(ts, l, p) != Yes)
    ensures ts[to.line][to.pos] == '<' && to.pos + 1 < |ts[to.line]| && ts[to.line][to.pos + 1] in "<=" ==>
      InTemplate(ts, l, p) == No
  {
    VerdictThere(ts, l, p, angles, to);
    AtTelling(ts, to.line, to.pos);
  }

  // ---- Every yes comes about in this way ----

  predicate IsAnswer(ts: seq<string>, to: Place) {
    to.line < |ts| && to.pos < |ts[to.line]| && ts[to.line][to.pos] in ">=[]."
  }

  predicate IsReason(ts: seq<string>, l: nat, p: nat, angles: seq<Place>, to: Place) {
    LeadsTo(ts, l, p, angles, to) && IsAnswer(ts, to)
  }

  lemma StepBack(ts: seq<string>, l: nat, p: nat, k: nat, j: nat)
    requires l < |ts| && FirstTelling(ts, l + 1, 0, k, j) && Silent(ts[l], p, |ts[l]|)
    ensures FirstTelling(ts, l, p, k, j)
  {
  }

  lemma StepBackLeads(ts: seq<string>, l: nat, p: nat, angles: seq<Place>, to: Place)
    requires l < |ts| && LeadsTo(ts, l + 1, 0, angles, to) && Silent(ts[l], p, |ts[l]|)
    ensures LeadsTo(ts, l, p, angles, to)
  {
    if angles == [] {
      StepBack(ts, l, p, to.line, to.pos);
    } else {
      StepBack(ts, l, p, angles[0].line, angles[0].pos);
    }
  }

  lemma AngleFirst(ts: seq<string>, l: nat, p: nat, a: Place, angles: seq<Place>, to: Place)
    requires FirstTelling(ts, l, p, a.line, a.pos) && ts[a.line][a.pos] == '<'
    requires CloseAt(ts, a.line, a.pos).Spot?
    requires var at := CloseAt(ts, a.line, a.pos); LeadsTo(ts, at.line, at.pos, angles, to)
    ensures LeadsTo(ts, l, p, [a] + angles, to)
  {
    assert ([a] + angles)[1..] == angles;
  }

  lemma {:induction false} YesHasReason(ts: seq<string>, l: nat, p: nat) returns (angles: seq<Place>, to: Place)
    requires InTemplate(ts, l, p) == Yes
    ensures LeadsTo(ts, l, p, angles, to) && IsAnswer(ts, to)
    decreases |ts| - l, if l < |ts| && p <= |ts[l]| then |ts[l]| - p else 0
  {
    if p >= |ts[l]| || Special(ts[l], p) == |ts[l]| {
      if p < |ts[l]| {
        SpecialIsSilent(ts[l], p);
      }
      angles, to := YesHasReason(ts, l + 1, 0);
      StepBackLeads(ts, l, p, angles, to);
    } else {
      var j := Special(ts[l], p);
      SpecialIsSilent(ts[l], p);
      if ts[l][j] == '<' {
        CloseScanIsLater(ts, l, j, "");
        CloseScanIsClose(ts, l, j, "");
        var at := CloseAt(ts, l, j);
        angles, to := YesHasReason(ts, at.line, at.pos);
        AngleFirst(ts, l, p, Place(l, j), angles, to);
        angles := [Place(l, j)] + angles;
      } else {
        angles, to := [], Place(l, j);
      }
    }
  }

  /** The verdict is yes if and only if, behind silent text and any number of closed angles, the next
      telling character is one of `>`, `=`, `[`, `]` and `.`. */
  lemma YesIff(ts: seq<string>, l: nat, p: nat)
    ensures InTemplate(ts, l, p) == Yes <==>
      exists angles: seq<Place>, to: Place :: IsReason(ts, l, p, angles, to)
  {
    if InTemplate(ts, l, p) == Yes {
      var angles, to := YesHasReason(ts, l, p);
      assert IsReason(ts, l, p, angles, to);
    }
    forall angles: seq<Place>, to: Place | IsReason(ts, l, p, angles, to)
      ensures InTemplate(ts, l, p) == Yes
    {
      VerdictThere(ts, l, p, angles, to);
      AtTelling(ts, to.line, to.pos);
    }
  }
}

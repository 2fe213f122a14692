/** Which `<` and `>` count for the two bracket scanners, in terms of the characters around them. */
module AngleCharacters {
  import opened Brackets
  import opened ForwardScan
  import opened BackwardScan
  import opened Angles

  predicate Blank(c: char) {
    c as int in {9, 10, 11, 12, 13, 28, 29, 30, 31, 32}
  }

  predicate WordLetter(c: char) {
    97 <= c as int <= 122 || 65 <= c as int <= 90 || 48 <= c as int <= 57 || c as int == 95
  }

  /** Before position n stands the word `operator`, begun at k, with nothing but blanks behind it. */
  predicate OperatorAt(line: string, k: nat, n: nat) {
    && k + 8 <= n <= |line| && line[k..k + 8] == "operator" && (k == 0 || !WordLetter(line[k - 1]))
    && forall x :: k + 8 <= x < n ==> Blank(line[x])
  }

  ghost predicate OperatorBefore(line: string, n: nat) {
    exists k: nat :: OperatorAt(line, k, n)
  }

  lemma {:induction false} TrimmedAreBlanks(s: string)
    ensures forall x :: |TrimRight(s)| <= x < |s| ==> IsSpace(s[x])
  {
    if s != "" && IsSpace(s[|s| - 1]) {
      TrimmedAreBlanks(s[..|s| - 1]);
    }
  }

  lemma TrimmedOperator(s: string)
    ensures var n := |TrimRight(s)|;
      AfterOperator(s) <==> n >= 8 && s[n - 8..n] == "operator" && (n == 8 || !IsWordChar(s[n - 9]))
  {
    var t := TrimRight(s);
    if |t| >= 8 {
      assert t[|t| - 8..] == s[|t| - 8..|t|];
    }
  }

  lemma OperatorIsTrimmed(line: string, k: nat, n: nat)
    requires OperatorAt(line, k, n)
    ensures |TrimRight(line[..n])| == k + 8
  {
    var s := line[..n];
    var t := TrimRight(s);
    TrimmedAreBlanks(s);
    assert s[k + 7] == line[k..k + 8][7] == 'r';
    assert forall x :: k + 8 <= x < n ==> IsSpace(s[x]);
    assert t != "" ==> t[|t| - 1] == s[|t| - 1];
  }

  lemma FoundIsAt(line: string, n: nat)
    requires n <= |line| && AfterOperator(line[..n])
    ensures exists k: nat :: OperatorAt(line, k, n)
  {
    var s := line[..n];
    var m := |TrimRight(s)|;
    TrimmedAreBlanks(s);
    TrimmedOperator(s);
    assert s[m - 8..m] == line[m - 8..m];
    assert OperatorAt(line, m - 8, n);
  }

  lemma AtIsFound(line: string, k: nat, n: nat)
    requires OperatorAt(line, k, n)
    ensures AfterOperator(line[..n])
  {
    OperatorIsTrimmed(line, k, n);
    TrimmedOperator(line[..n]);
    assert line[..n][k..k + 8] == line[k..k + 8];
  }

  /** The regular expression `\boperator\s*$` on the text before n. */
  lemma OperatorIs(line: string, n: nat)
    requires n <= |line|
    ensures AfterOperator(line[..n]) <==> OperatorBefore(line, n)
  {
    if AfterOperator(line[..n]) {
      FoundIsAt(line, n);
    }
    if OperatorBefore(line, n) {
      var k: nat :| OperatorAt(line, k, n);
      AtIsFound(line, k, n);
    }
  }

  /** A `>` behind `-`, or behind `operator` and blanks with one more character between, does not count. */
  lemma IgnoredIs(line: string, i: nat)
    requires i < |line|
    ensures IgnoredGreater(line, i) <==> i > 0 && (line[i - 1] == '-' || OperatorBefore(line, i - 1))
  {
    if i > 0 {
      OperatorIs(line, i - 1);
    }
  }

  /** The `<` at p opens a list: it is not behind another `<` or `operator`, nor before `<` or `=`. */
  ghost predicate Opening(line: string, p: nat) {
    && p < |line| && line[p] == '<'
    && !(p > 0 && line[p - 1] == '<') && !OperatorBefore(line, p)
    && !(p + 1 < |line| && line[p + 1] in "<=")
  }

  /** A `<` opens a list unless it stands behind another or behind `operator`. */
  lemma AngleOpensIs(line: string, p: nat)
    requires p < |line|
    ensures AngleOpens(line, p) <==> !(p > 0 && line[p - 1] == '<') && !OperatorBefore(line, p)
  {
    OperatorIs(line, p);
  }

  /** Backwards a `>` is skipped behind `-`, in ` >= `, and behind `operator`. */
  lemma SkippedIs(line: string, i: nat)
    requires i < |line|
    ensures SkippedGreater(line, i) <==>
      && i > 0
      && (line[i - 1] == '-'
          || (Blank(line[i - 1]) && i + 2 < |line| && line[i + 1] == '=' && Blank(line[i + 2]))
          || OperatorBefore(line, i))
  {
    OperatorIs(line, i);
  }
}

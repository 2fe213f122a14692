/** The texts that `StrEscape` and `ReportRuns` write, character by character. */
module JsonText {
  import opened Json

  /** Seven characters are written as two, every other character as itself. */
  lemma EscapesAre(c: char, s: string)
    ensures Escape([8 as char]) == "\\b" && Escape([12 as char]) == "\\f"
    ensures Escape("\n") == "\\n" && Escape("\r") == "\\r" && Escape("\t") == "\\t"
    ensures Escape("\\") == "\\\\" && Escape("\"") == "\\\""
    ensures c as int !in {8, 9, 10, 12, 13, 34, 92} ==> Escape([c]) == [c]
    ensures Escape([c] + s) == Escape([c]) + Escape(s)
  {
    OneChar(8 as char);
    OneChar(12 as char);
    OneChar('\n');
    OneChar('\r');
    OneChar('\t');
    OneChar('\\');
    OneChar('\"');
    OneChar(c);
    EscapeConcat([c], s);
  }

  lemma OneChar(c: char)
    ensures Escape([c]) == EscapeChar(c)
  {
    assert [c][1..] == "";
  }

  /** The text of the first run. */
  function First(data: string): string {
    "    {\n" + data + "    }"
  }

  /** The runs behind the first, from left to right, each with the comma in front of it. */
  function Others(runs: seq<string>): string {
    if runs == [] then "" else ",\n    {\n" + runs[0] + "    }" + Others(runs[1..])
  }

  lemma {:induction false} OthersSnoc(runs: seq<string>, data: string)
    ensures Others(runs + [data]) == Others(runs) + ",\n" + Object(data)
    decreases |runs|
  {
    if runs == [] {
      assert ([] + [data])[1..] == [] && Others([]) == "";
    } else {
      assert (runs + [data])[1..] == runs[1..] + [data];
      OthersSnoc(runs[1..], data);
    }
  }

  /** What the reporter has written of all runs, read from left to right. */
  lemma {:induction false} JoinedIs(data: string, runs: seq<string>)
    ensures Joined([]) == "" && Joined([data] + runs) == First(data) + Others(runs)
    decreases |runs|
  {
    if runs == [] {
      assert [data] + runs == [data];
    } else {
      var front, last := runs[..|runs| - 1], runs[|runs| - 1];
      JoinedIs(data, front);
      assert [data] + runs == ([data] + front) + [last] && runs == front + [last];
      JoinedOne([data] + front, last);
      OthersSnoc(front, last);
    }
  }
}

/** String escaping and the framing of the run objects in `JSONReporter`. */
module Json {
  import opened Basics

  const BACKSPACE: char := 8 as char
  const FORMFEED: char := 12 as char
  const QUOTE: char := '\"'

  // ---- StrEscape ----

  /** The characters that are written with a backslash, and the letter behind it. */
  function Letter(c: char): Option<char> {
    if c == BACKSPACE then Some('b')
    else if c == FORMFEED then Some('f')
    else if c == '\n' then Some('n')
    else if c == '\r' then Some('r')
    else if c == '\t' then Some('t')
    else if c == '\\' || c == QUOTE then Some(c)
    else None
  }

  function EscapeChar(c: char): (r: string)
    ensures 1 <= |r| <= 2
  {
    if Letter(c).Some? then ['\\', Letter(c).value] else [c]
  }

  function Escape(s: string): string {
    if s == "" then "" else EscapeChar(s[0]) + Escape(s[1..])
  }

  lemma {:induction false} EscapeConcat(s: string, t: string)
    ensures Escape(s + t) == Escape(s) + Escape(t)
  {
    if s == "" {
      assert s + t == t;
    } else {
      assert (s + t)[1..] == s[1..] + t;
      EscapeConcat(s[1..], t);
    }
  }

  method StrEscape(s: string) returns (tmp: string)
    ensures tmp == Escape(s)
  {
    tmp := "";
    var i := 0;
    while i < |s|
      invariant 0 <= i <= |s|
      invariant tmp == Escape(s[..i])
    {
      var c := s[i];
      EscapeConcat(s[..i], [c]);
      assert s[..i + 1] == s[..i] + [c];
      assert [c][1..] == "" && Escape([c]) == EscapeChar(c);
      if c == BACKSPACE {
        tmp := tmp + "\\b";
      } else if c == FORMFEED {
        tmp := tmp + "\\f";
      } else if c == '\n' {
        tmp := tmp + "\\n";
      } else if c == '\r' {
        tmp := tmp + "\\r";
      } else if c == '\t' {
        tmp := tmp + "\\t";
      } else if c == '\\' {
        tmp := tmp + "\\\\";
      } else if c == QUOTE {
        tmp := tmp + "\\\"";
      } else {
        tmp := tmp + [c];
      }
      i := i + 1;
    }
    assert s[..i] == s;
  }

  // ---- Reading a string, as section 7 of RFC 8259 defines it ----

  datatype Scanned = Scanned(value: string, end: nat)

  predicate IsControl(c: char) {
    c < ' '
  }

  function HexDigit(c: char): (d: Option<nat>)
    ensures d.Some? ==> d.value < 16
  {
    if '0' <= c <= '9' then Some(c as nat - '0' as nat)
    else if 'a' <= c <= 'f' then Some(c as nat - 'a' as nat + 10)
    else if 'A' <= c <= 'F' then Some(c as nat - 'A' as nat + 10)
    else None
  }

  /** One escape sequence behind a backslash: its character and its length. */
  function ReadEscape(text: string, i: nat): (r: Option<(char, nat)>)
    ensures r.Some? ==> r.value.1 > 0 && i + r.value.1 <= |text|
  {
    if i >= |text| then None
    else if text[i] == QUOTE || text[i] == '\\' || text[i] == '/' then Some((text[i], 1))
    else if text[i] == 'b' then Some((BACKSPACE, 1))
    else if text[i] == 'f' then Some((FORMFEED, 1))
    else if text[i] == 'n' then Some(('\n', 1))
    else if text[i] == 'r' then Some(('\r', 1))
    else if text[i] == 't' then Some(('\t', 1))
    else if text[i] == 'u' && i + 5 <= |text| then
      var a, b := HexDigit(text[i + 1]), HexDigit(text[i + 2]);
      var c, d := HexDigit(text[i + 3]), HexDigit(text[i + 4]);
      if a.Some? && b.Some? && c.Some? && d.Some? then
        var code := ((a.value * 16 + b.value) * 16 + c.value) * 16 + d.value;
        if code < 0xD800 then Some((code as char, 5)) else None
      else None
    else None
  }

  function Prepend(c: char, r: Option<Scanned>): Option<Scanned> {
    if r.Some? then Some(Scanned([c] + r.value.value, r.value.end)) else None
  }

  /** Reads up to the closing quote, from position i inside the quotes; `end` is the position
      behind the closing quote. A strict reader refuses control characters. */
  function Scan(text: string, i: nat, strict: bool): Option<Scanned>
    decreases |text| - i
  {
    if i >= |text| then None
    else if text[i] == QUOTE then Some(Scanned("", i + 1))
    else if text[i] == '\\' then
      var e := ReadEscape(text, i + 1);
      if e.Some? then Prepend(e.value.0, Scan(text, i + 1 + e.value.1, strict)) else None
    else if strict && IsControl(text[i]) then None
    else Prepend(text[i], Scan(text, i + 1, strict))
  }

  /** The five control characters that are escaped. */
  predicate IsEscaped(c: char) {
    c == BACKSPACE || c == FORMFEED || c == '\n' || c == '\r' || c == '\t'
  }

  predicate OnlyEscapedControls(s: string) {
    forall i :: 0 <= i < |s| && IsControl(s[i]) ==> IsEscaped(s[i])
  }

  lemma ScanChar(text: string, i: nat, c: char, strict: bool)
    requires i + |EscapeChar(c)| <= |text| && text[i..i + |EscapeChar(c)|] == EscapeChar(c)
    ensures Scan(text, i, strict) ==
            if strict && IsControl(c) && !IsEscaped(c) then None
            else Prepend(c, Scan(text, i + |EscapeChar(c)|, strict))
  {
    var e := EscapeChar(c);
    assert text[i] == text[i..i + |e|][0];
    if |e| == 2 {
      assert text[i + 1] == text[i..i + |e|][1];
    }
  }

  /** The escaped string with its closing quote, between two texts. */
  function Written(before: string, s: string, rest: string): string {
    before + Escape(s) + ([QUOTE] + rest)
  }

  /** The first escaped character, and what is left behind it. */
  lemma Peel(text: string, i: nat, s: string, rest: string)
    requires s != "" && i <= |text| && text[i..] == Escape(s) + ([QUOTE] + rest)
    ensures var e := EscapeChar(s[0]);
            && i + |e| <= |text| && text[i..i + |e|] == e
            && text[i + |e|..] == Escape(s[1..]) + ([QUOTE] + rest)
  {
    PeelParts(text, i, EscapeChar(s[0]), Escape(s[1..]), [QUOTE] + rest);
  }

  lemma PeelParts(text: string, i: nat, a: string, b: string, c: string)
    requires i <= |text| && text[i..] == a + b + c
    ensures i + |a| <= |text| && text[i..i + |a|] == a && text[i + |a|..] == b + c
  {
    assert text[i..] == a + (b + c);
    SliceOfSlice(text, i, |a|);
  }

  lemma SliceOfSlice(text: string, i: nat, n: nat)
    requires i + n <= |text|
    ensures text[i..i + n] == text[i..][..n] && text[i + n..] == text[i..][n..]
  {
  }

  /** What a reader at position n must find: s, and the position behind the closing quote, or
      nothing if it is strict and s holds a control character that is not escaped. */
  function Expected(s: string, n: nat, strict: bool): Option<Scanned> {
    if strict && !OnlyEscapedControls(s) then None else Some(Scanned(s, n + |Escape(s)| + 1))
  }

  lemma ExpectedStep(s: string, n: nat, strict: bool)
    requires s != ""
    ensures Expected(s, n, strict) ==
            if strict && IsControl(s[0]) && !IsEscaped(s[0]) then None
            else Prepend(s[0], Expected(s[1..], n + |EscapeChar(s[0])|, strict))
  {
    OnlyEscapedStep(s);
    assert s == [s[0]] + s[1..];
  }

  lemma OnlyEscapedStep(s: string)
    requires s != ""
    ensures OnlyEscapedControls(s) <==> (IsControl(s[0]) ==> IsEscaped(s[0])) && OnlyEscapedControls(s[1..])
  {
    assert s == [s[0]] + s[1..];
    if OnlyEscapedControls(s) {
      assert forall i :: 0 <= i < |s| - 1 ==> s[1..][i] == s[i + 1];
    }
  }

  lemma {:induction false} ScanWritten(text: string, i: nat, s: string, rest: string, strict: bool)
    requires i <= |text| && text[i..] == Escape(s) + ([QUOTE] + rest)
    ensures Scan(text, i, strict) == Expected(s, i, strict)
    decreases |s|
  {
    if s == "" {
      assert text[i] == text[i..][0] == QUOTE;
    } else {
      Peel(text, i, s, rest);
      ScanChar(text, i, s[0], strict);
      ScanWritten(text, i + |EscapeChar(s[0])|, s[1..], rest, strict);
      ExpectedStep(s, i, strict);
    }
  }

  /** Unescaping what `StrEscape` wrote gives back the string, whatever stands around it, and the
      reader stops exactly behind the quote that was added. A strict reader fails instead if and
      only if the string holds a control character other than the five. */
  lemma EscapeRoundTrip(before: string, s: string, rest: string, strict: bool)
    ensures Scan(Written(before, s, rest), |before|, strict) == Expected(s, |before|, strict)
  {
    var text := Written(before, s, rest);
    assert text[|before|..] == Escape(s) + ([QUOTE] + rest);
    ScanWritten(text, |before|, s, rest, strict);
  }

  /** Different strings are written differently. */
  lemma EscapeIsInjective(s: string, t: string)
    requires Escape(s) == Escape(t)
    ensures s == t
  {
    EscapeRoundTrip("", s, "", false);
    EscapeRoundTrip("", t, "", false);
  }

  // ---- FormatKV ----

  const NUL: char := 0 as char

  /** A string as `c_str` shows it to `StrFormat`: up to the first NUL. */
  function CString(s: string): string {
    if s == "" || s[0] == NUL then "" else [s[0]] + CString(s[1..])
  }

  lemma {:induction false} CStringIsWhole(s: string)
    ensures CString(s) == s <==> NUL !in s
  {
    if s != "" {
      CStringIsWhole(s[1..]);
      assert s == [s[0]] + s[1..];
    }
  }

  lemma CStringPasses(c: char, rest: string)
    requires c != NUL
    ensures CString(EscapeChar(c) + rest) == EscapeChar(c) + CString(rest)
  {
    var e := EscapeChar(c);
    if |e| == 1 {
      assert (e + rest)[1..] == rest;
    } else {
      assert (e + rest)[1..] == [e[1]] + rest && ([e[1]] + rest)[1..] == rest;
      assert CString([e[1]] + rest) == [e[1]] + CString(rest);
      assert e == [e[0]] + [e[1]];
    }
  }

  /** It makes no difference whether a string is cut before or after it is escaped. */
  lemma {:induction false} EscapeTruncates(s: string)
    ensures CString(Escape(s)) == Escape(CString(s))
  {
    if s != "" {
      EscapeTruncates(s[1..]);
      if s[0] != NUL {
        CStringPasses(s[0], Escape(s[1..]));
        assert ([s[0]] + CString(s[1..]))[1..] == CString(s[1..]);
      }
    }
  }

  method FormatKV(key: string, value: string) returns (text: string)
    ensures text == [QUOTE] + Escape(CString(key)) + [QUOTE] + ": " + [QUOTE] + Escape(CString(value)) + [QUOTE]
  {
    var k := StrEscape(key);
    var v := StrEscape(value);
    EscapeTruncates(key);
    EscapeTruncates(value);
    text := [QUOTE] + CString(k) + [QUOTE] + ": " + [QUOTE] + CString(v) + [QUOTE];
  }

  /** A reader finds the value again if and only if it holds no NUL. */
  lemma ValueIsRecovered(before: string, value: string, rest: string)
    ensures Scan(Written(before, CString(value), rest), |before|, false).Some?
    ensures Scan(Written(before, CString(value), rest), |before|, false).value.value == value <==>
            NUL !in value
  {
    EscapeRoundTrip(before, CString(value), rest, false);
    CStringIsWhole(value);
  }

  // ---- ReportRuns and Finalize ----

  /** One run object; `data` is what `PrintRunData` writes. */
  function Object(data: string): string {
    "    {\n" + data + "    }"
  }

  /** The objects in order, with one comma between any two and none at either end. */
  function Joined(runs: seq<string>): string {
    if runs == [] then ""
    else if |runs| == 1 then Object(runs[0])
    else Joined(runs[..|runs| - 1]) + ",\n" + Object(runs[|runs| - 1])
  }

  lemma JoinedOne(runs: seq<string>, data: string)
    ensures Joined(runs + [data]) == Joined(runs) + (if runs == [] then "" else ",\n") + Object(data)
  {
    assert (runs + [data])[..|runs|] == runs;
    if runs == [] {
      assert runs + [data] == [data];
    }
  }

  function Flatten(batches: seq<seq<string>>): seq<string> {
    if batches == [] then [] else Flatten(batches[..|batches| - 1]) + batches[|batches| - 1]
  }

  /** What stands in the output after i of the reports of a batch. */
  function Progress(start: string, before: seq<string>, reports: seq<string>, i: nat): string
    requires i <= |reports|
  {
    start + Joined(before + reports[..i]) + if i < |reports| && before + reports[..i] != [] then ",\n" else ""
  }

  lemma ProgressStep(start: string, before: seq<string>, reports: seq<string>, i: nat)
    requires i < |reports|
    ensures Progress(start, before, reports, i) + Object(reports[i])
            + (if i + 1 != |reports| then ",\n" else "") == Progress(start, before, reports, i + 1)
  {
    var runs := before + reports[..i];
    var sep, next := if runs == [] then "" else ",\n", if i + 1 != |reports| then ",\n" else "";
    JoinedOne(runs, reports[i]);
    assert runs + [reports[i]] == before + reports[..i + 1];
    Reassociate(start, Joined(runs), sep, Object(reports[i]), next);
  }

  lemma Reassociate(a: string, b: string, c: string, d: string, e: string)
    ensures a + b + c + d + e == a + (b + c + d) + e
  {
  }

  class JSONReporter {
    var firstReport: bool
    var out: string
    ghost var context: string
    ghost var reported: seq<string>

    /** The flag tells whether nothing has been reported yet, and the output is the context with
        what has been reported. */
    ghost predicate Valid()
      reads this
    {
      out == context + Joined(reported) && firstReport == (reported == [])
    }

    constructor (context: string)
      ensures Valid() && this.context == context && reported == []
    {
      out, firstReport := context, true;
      this.context, reported := context, [];
    }

    method ReportRuns(reports: seq<string>)
      requires Valid()
      modifies this
      ensures Valid() && context == old(context) && reported == old(reported) + reports
    {
      if reports == [] {
        return;
      }
      if !firstReport {
        out := out + ",\n";
      }
      firstReport := false;
      var i := 0;
      assert reported + reports[..0] == reported;
      while i < |reports|
        invariant 0 <= i <= |reports| && !firstReport
        invariant context == old(context) && reported == old(reported)
        invariant out == Progress(context, reported, reports, i)
      {
        ProgressStep(context, reported, reports, i);
        ghost var done := out;
        out := out + "    {\n";
        out := out + reports[i];
        out := out + "    }";
        assert out == done + Object(reports[i]);
        if i + 1 != |reports| {
          out := out + ",\n";
        }
        i := i + 1;
      }
      assert reports[..i] == reports;
      reported := reported + reports;
    }

    method Finalize()
      requires Valid()
      modifies this`out
      ensures out == context + Joined(reported) + "\n  ]\n}\n"
    {
      out := out + "\n  ]\n}\n";
    }

    /** Any sequence of batches, empty ones included, and then the end: all runs in order, with one
        comma between any two. */
    method Report(batches: seq<seq<string>>)
      requires Valid() && reported == []
      modifies this
      ensures out == old(context) + Joined(Flatten(batches)) + "\n  ]\n}\n"
    {
      var i := 0;
      while i < |batches|
        invariant 0 <= i <= |batches|
        invariant Valid() && context == old(context) && reported == Flatten(batches[..i])
      {
        assert batches[..i + 1][..i] == batches[..i];
        ReportRuns(batches[i]);
        i := i + 1;
      }
      assert batches[..i] == batches;
      Finalize();
    }
  }
}

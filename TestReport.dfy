/**
  The test report that RunTest writes once every collected case has run:
  a three-line banner, then one four-line block per case in collection order.
  Each case result is taken as already rendered text (name, result state,
  message and duration).
 */
module TestReport {

  import opened Wrappers

  /** The result of one test case, with each field already rendered as text. */
  datatype CaseResult = CaseResult(name: string, state: string, message: string, duration: string)

  const Rule: string := "=========================="
  const Title: string := "        Test Report       "
  const Separator: string := "--------------------------"

  /** The banner, as lines without their terminating newline. */
  const BannerLines: seq<string> := [Rule, Title, Rule]

  /** The lines one case contributes, without their terminating newlines. */
  function CaseLines(r: CaseResult): (ls: seq<string>)
    ensures |ls| == 4 && ls[3] == Separator
  {
    [r.name + ": " + r.state, "msg: " + r.message, "duration: " + r.duration, Separator]
  }

  /** Every line is written with a terminating newline. */
  function Join(ls: seq<string>): string
  {
    if ls == [] then "" else ls[0] + "\n" + Join(ls[1..])
  }

  const Banner: string := Join(BannerLines)

  /** The text one case contributes to the report. */
  function Block(r: CaseResult): string
  {
    Join(CaseLines(r))
  }

  /** The blocks of all cases, in order. */
  function Blocks(rs: seq<CaseResult>): string
  {
    if rs == [] then "" else Block(rs[0]) + Blocks(rs[1..])
  }

  /** The whole report text for the results of the collected cases. */
  function Report(rs: seq<CaseResult>): string
  {
    Banner + Blocks(rs)
  }

  /** Lines of all case blocks, in order. */
  function CasesLines(rs: seq<CaseResult>): seq<string>
  {
    if rs == [] then [] else CaseLines(rs[0]) + CasesLines(rs[1..])
  }

  /** The report as a list of lines: the banner, then four lines per case. */
  function ReportLines(rs: seq<CaseResult>): seq<string>
  {
    BannerLines + CasesLines(rs)
  }

  // ---------------------------------------------------------------------------
  // Building the report, as the source does: appends inside a loop.

  /** Writes the banner, then appends each case's four lines in order. */
  method BuildReport(results: seq<CaseResult>) returns (s: string)
    ensures s == Report(results)
  {
    s := "";
    s := s + (Rule + "\n");
    s := s + (Title + "\n");
    s := s + (Rule + "\n");
    assert s == Banner by { UnfoldJoin3(BannerLines); }
    for i := 0 to |results|
      invariant s == Report(results[..i])
    {
      var r := results[i];
      ghost var before := s;
      s := s + (r.name + ": " + r.state + "\n");
      s := s + ("msg: " + r.message + "\n");
      s := s + ("duration: " + r.duration + "\n");
      s := s + (Separator + "\n");
      assert s == before + Block(r) by { BlockText(r); }
      BlocksAppend(results[..i], r);
      assert results[..i + 1] == results[..i] + [r];
    }
    assert results[..|results|] == results;
  }

  // ---------------------------------------------------------------------------
  // Properties of the report text.

  lemma {:induction false} JoinAppend(a: seq<string>, b: seq<string>)
    ensures Join(a + b) == Join(a) + Join(b)
  {
    if a != [] {
      assert (a + b)[0] == a[0];
      assert (a + b)[1..] == a[1..] + b;
      JoinAppend(a[1..], b);
      calc {
        Join(a + b);
        a[0] + "\n" + Join(a[1..] + b);
        a[0] + "\n" + (Join(a[1..]) + Join(b));
        (a[0] + "\n" + Join(a[1..])) + Join(b);
      }
    } else {
      assert a + b == b;
    }
  }

  lemma UnfoldJoin3(ls: seq<string>)
    requires |ls| == 3
    ensures Join(ls) == ls[0] + "\n" + ls[1] + "\n" + ls[2] + "\n"
  {
    assert Join(ls[2..]) == ls[2] + "\n" + Join(ls[3..]);
  }

  /** A case's block is its four lines, each ended by a newline, appended in order. */
  lemma BlockText(r: CaseResult)
    ensures Block(r) == (r.name + ": " + r.state + "\n") + ("msg: " + r.message + "\n")
                      + ("duration: " + r.duration + "\n") + (Separator + "\n")
  {
    var ls := CaseLines(r);
    var a, b, c, d := ls[0] + "\n", ls[1] + "\n", ls[2] + "\n", ls[3] + "\n";
    assert Join(ls[3..]) == d by { assert ls[3..][1..] == []; }
    assert Join(ls[2..]) == c + d by { assert ls[2..][1..] == ls[3..]; }
    assert Join(ls[1..]) == b + (c + d) by { assert ls[1..][1..] == ls[2..]; }
    assert Join(ls) == a + (b + (c + d));
    assert a + (b + (c + d)) == a + b + c + d;
  }

  /** Appending one more case extends the blocks by exactly that case's block. */
  lemma {:induction false} BlocksAppend(rs: seq<CaseResult>, r: CaseResult)
    ensures Blocks(rs + [r]) == Blocks(rs) + Block(r)
  {
    if rs == [] {
      assert [r][1..] == [];
    } else {
      assert (rs + [r])[1..] == rs[1..] + [r];
      BlocksAppend(rs[1..], r);
    }
  }

  /**
    Appending one more case leaves the earlier report text unchanged and adds
    exactly that case's block at the end.
   */
  lemma ReportAppend(rs: seq<CaseResult>, r: CaseResult)
    ensures Report(rs + [r]) == Report(rs) + Block(r)
    ensures Report(rs + [r])[..|Report(rs)|] == Report(rs)
  {
    BlocksAppend(rs, r);
  }

  lemma {:induction false} BlocksAreJoinOfLines(rs: seq<CaseResult>)
    ensures Blocks(rs) == Join(CasesLines(rs))
  {
    if rs != [] {
      BlocksAreJoinOfLines(rs[1..]);
      JoinAppend(CaseLines(rs[0]), CasesLines(rs[1..]));
    }
  }

  /** The text of the report is its lines, each ended by a newline. */
  lemma ReportIsJoinOfLines(rs: seq<CaseResult>)
    ensures Report(rs) == Join(ReportLines(rs))
  {
    BlocksAreJoinOfLines(rs);
    JoinAppend(BannerLines, CasesLines(rs));
  }

  lemma {:induction false} CasesLinesShape(rs: seq<CaseResult>)
    ensures |CasesLines(rs)| == 4 * |rs|
    ensures forall k, j :: 0 <= k < |rs| && 0 <= j < 4 ==>
      CasesLines(rs)[4 * k + j] == CaseLines(rs[k])[j]
  {
    if rs != [] {
      CasesLinesShape(rs[1..]);
      forall k, j | 0 <= k < |rs| && 0 <= j < 4
        ensures CasesLines(rs)[4 * k + j] == CaseLines(rs[k])[j]
      {
        if k > 0 {
          assert 4 * k + j == 4 + (4 * (k - 1) + j);
          assert rs[k] == rs[1..][k - 1];
        }
      }
    }
  }

  /**
    The report has the three banner lines and then exactly four lines per
    case: line 3 + 4k + j is line j of case k's block.
   */
  lemma ReportLinesShape(rs: seq<CaseResult>)
    ensures |ReportLines(rs)| == 3 + 4 * |rs|
    ensures ReportLines(rs)[..3] == BannerLines
    ensures forall k, j :: 0 <= k < |rs| && 0 <= j < 4 ==>
      ReportLines(rs)[3 + 4 * k + j] == CaseLines(rs[k])[j]
  {
    CasesLinesShape(rs);
  }

  /** A non-empty report ends with a separator line. */
  lemma ReportEndsWithSeparator(rs: seq<CaseResult>)
    requires rs != []
    ensures |Report(rs)| >= |Separator| + 1
    ensures Report(rs)[|Report(rs)| - |Separator| - 1..] == Separator + "\n"
  {
    var init, last := rs[..|rs| - 1], rs[|rs| - 1];
    assert rs == init + [last];
    BlocksAppend(init, last);
    JoinAppend(CaseLines(last)[..3], [Separator]);
    assert CaseLines(last) == CaseLines(last)[..3] + [Separator];
  }

  // ---------------------------------------------------------------------------
  // Reading a report back: the format is line-oriented and can be parsed again.

  /** Index of the first occurrence of c in s, or |s| when there is none. */
  function IndexOf(s: string, c: char): (k: nat)
    ensures k <= |s|
    ensures k < |s| ==> s[k] == c
    ensures forall i :: 0 <= i < k ==> s[i] != c
  {
    if s == [] then 0 else if s[0] == c then 0 else 1 + IndexOf(s[1..], c)
  }

  /** Splits text whose every line ends with a newline; trailing text without one is a last line. */
  function SplitLines(s: string): seq<string>
    decreases |s|
  {
    var k := IndexOf(s, '\n');
    if s == [] then [] else if k == |s| then [s] else [s[..k]] + SplitLines(s[k + 1..])
  }

  predicate NoNewline(s: string)
  {
    forall i :: 0 <= i < |s| ==> s[i] != '\n'
  }

  lemma {:induction false} SplitJoin(ls: seq<string>)
    requires forall i :: 0 <= i < |ls| ==> NoNewline(ls[i])
    ensures SplitLines(Join(ls)) == ls
  {
    if ls != [] {
      var l := ls[0];
      var s := Join(ls);
      assert s == l + ("\n" + Join(ls[1..]));
      assert s[|l|] == '\n';
      assert IndexOf(s, '\n') == |l| by {
        assert forall i :: 0 <= i < |l| ==> s[i] == l[i];
      }
      assert s[..|l|] == l;
      assert s[|l| + 1..] == Join(ls[1..]);
      SplitJoin(ls[1..]);
      assert ls == [l] + ls[1..];
    }
  }

  /** Strips a fixed prefix from a line, if the line starts with it. */
  function StripPrefix(prefix: string, line: string): (r: Option<string>)
    ensures r.Some? <==> |prefix| <= |line| && line[..|prefix|] == prefix
    ensures r.Some? ==> line == prefix + r.value
  {
    if |prefix| <= |line| && line[..|prefix|] == prefix then Some(line[|prefix|..]) else None
  }

  /** Reads back one four-line case block; the name is everything before the first colon. */
  function ParseCase(ls: seq<string>): Option<CaseResult>
    requires |ls| == 4
  {
    var head := ls[0];
    var k := IndexOf(head, ':');
    var msg := StripPrefix("msg: ", ls[1]);
    var duration := StripPrefix("duration: ", ls[2]);
    if k + 1 < |head| && head[k + 1] == ' ' && msg.Some? && duration.Some? && ls[3] == Separator
    then Some(CaseResult(head[..k], head[k + 2..], msg.value, duration.value))
    else None
  }

  function ParseCases(ls: seq<string>): Option<seq<CaseResult>>
    decreases |ls|
  {
    if ls == [] then Some([])
    else if |ls| < 4 then None
    else
      match (ParseCase(ls[..4]), ParseCases(ls[4..]))
      case (Some(r), Some(rest)) => Some([r] + rest)
      case _ => None
  }

  /** Reads a report text back into the case results it lists. */
  function ParseReport(s: string): Option<seq<CaseResult>>
  {
    var ls := SplitLines(s);
    if |ls| >= 3 && ls[..3] == BannerLines then ParseCases(ls[3..]) else None
  }

  /** A result none of whose rendered fields holds a newline. */
  predicate SingleLineFields(r: CaseResult)
  {
    NoNewline(r.name) && NoNewline(r.state) && NoNewline(r.message) && NoNewline(r.duration)
  }

  /** A result whose report block can be read back unambiguously. */
  predicate Printable(r: CaseResult)
  {
    SingleLineFields(r) && forall i :: 0 <= i < |r.name| ==> r.name[i] != ':'
  }

  lemma ParseCaseLines(r: CaseResult)
    requires Printable(r)
    ensures ParseCase(CaseLines(r)) == Some(r)
  {
    var head := r.name + ": " + r.state;
    assert forall i :: 0 <= i < |r.name| ==> head[i] == r.name[i];
    assert head[|r.name|] == ':';
    assert IndexOf(head, ':') == |r.name|;
    assert head[..|r.name|] == r.name;
    assert head[|r.name| + 2..] == r.state;
    assert ("msg: " + r.message)[..5] == "msg: ";
    assert ("duration: " + r.duration)[..10] == "duration: ";
  }

  lemma {:induction false} ParseCasesLines(rs: seq<CaseResult>)
    requires forall i :: 0 <= i < |rs| ==> Printable(rs[i])
    ensures ParseCases(CasesLines(rs)) == Some(rs)
  {
    if rs != [] {
      var ls := CasesLines(rs);
      assert ls[..4] == CaseLines(rs[0]);
      assert ls[4..] == CasesLines(rs[1..]);
      ParseCaseLines(rs[0]);
      ParseCasesLines(rs[1..]);
      assert rs == [rs[0]] + rs[1..];
    }
  }

  lemma {:induction false} CasesLinesHaveNoNewline(rs: seq<CaseResult>)
    requires forall i :: 0 <= i < |rs| ==> SingleLineFields(rs[i])
    ensures forall i :: 0 <= i < |CasesLines(rs)| ==> NoNewline(CasesLines(rs)[i])
  {
    if rs != [] {
      CasesLinesHaveNoNewline(rs[1..]);
      var r := rs[0];
      assert SingleLineFields(r);
      assert NoNewline(r.name + ": " + r.state);
      assert NoNewline("msg: " + r.message);
      assert NoNewline("duration: " + r.duration);
    }
  }

  /**
    When no field holds a newline, the lines of the report text are exactly
    the banner lines and then four lines per case, so the text has 3 + 4n
    lines and line 3 + 4k + j is line j of case k's block.
   */
  lemma ReportTextLines(rs: seq<CaseResult>)
    requires forall i :: 0 <= i < |rs| ==> SingleLineFields(rs[i])
    ensures SplitLines(Report(rs)) == ReportLines(rs)
    ensures |SplitLines(Report(rs))| == 3 + 4 * |rs|
    ensures forall k, j :: 0 <= k < |rs| && 0 <= j < 4 ==>
      SplitLines(Report(rs))[3 + 4 * k + j] == CaseLines(rs[k])[j]
  {
    ReportIsJoinOfLines(rs);
    ReportLinesShape(rs);
    var ls := ReportLines(rs);
    CasesLinesHaveNoNewline(rs);
    assert forall i :: 0 <= i < |ls| ==> NoNewline(ls[i]) by {
      forall i | 0 <= i < |ls| ensures NoNewline(ls[i]) {
        if i >= 3 { assert ls[i] == CasesLines(rs)[i - 3]; }
      }
    }
    SplitJoin(ls);
  }

  /**
    The report format is lossless: when no field holds a newline and no name
    holds a colon, reading the report back yields exactly the results, in order.
   */
  lemma ParseReportRoundTrip(rs: seq<CaseResult>)
    requires forall i :: 0 <= i < |rs| ==> Printable(rs[i])
    ensures ParseReport(Report(rs)) == Some(rs)
  {
    ReportTextLines(rs);
    var ls := ReportLines(rs);
    assert ls[..3] == BannerLines;
    assert ls[3..] == CasesLines(rs);
    ParseCasesLines(rs);
  }
}

/**
 * The summary plugin (plugin/custom_summary_plugin.py): it collects the
 * warnings, the formatted failures and the passed test ids of a run, prints
 * them as coloured sections at the end, writes the same sections without
 * colour to the results file, and rewrites each failed report's node id.
 */
module CustomSummary {
  import opened Wrappers
  import opened Strings
  import opened Utils
  import opened Host

  const ASSERTION_ERROR: string := "AssertionError"
  const ASSERTION_MARKER: string := "AssertionError: "
  const FAILED_PREFIX: string := "FAILED::"
  const PASS_PREFIX: string := "Pass::"
  const ID_SEPARATOR: string := "::"

  const YELLOW: string := "\U{1b}[33m"
  const RED: string := "\U{1b}[31m"
  const GREEN: string := "\U{1b}[32m"
  const RESET: string := "\U{1b}[0m"

  const WARNINGS_TITLE: string := "Warnings summary"
  const FAILURES_TITLE: string := "Failures summary"
  const PASSED_TITLE: string := "Passed summary"
  const THERE_ARE: string := "There are "
  const THERE_IS: string := "There is "

  // ---------------------------------------------------------------------------
  // Failure messages

  /** The text of a report's longrepr: a tuple is joined with newlines. */
  function LongreprText(r: Longrepr): string {
    match r
    case TextRepr(text) => text
    case TupleRepr(items) => Join(items, "\n")
  }

  /** The index of the first line, from `from` on, that mentions AssertionError. */
  function FirstAssertionLine(lines: seq<string>, from: nat): (r: Option<nat>)
    ensures r.Some? ==> from <= r.value < |lines| && Contains(lines[r.value], ASSERTION_ERROR)
    ensures r.Some? ==> forall j :: from <= j < r.value ==> !Contains(lines[j], ASSERTION_ERROR)
    ensures r.None? ==> forall j :: from <= j < |lines| ==> !Contains(lines[j], ASSERTION_ERROR)
    decreases |lines| - from
  {
    if from >= |lines| then None
    else if Contains(lines[from], ASSERTION_ERROR) then Some(from)
    else FirstAssertionLine(lines, from + 1)
  }

  /**
   * The message `_format_assertion_error` extracts: what follows the first
   * "AssertionError: " on the first line mentioning AssertionError, or the
   * whole text when no line does; indexing fails when that line lacks the
   * marker.
   */
  function AssertionMessage(text: string): (r: Result<string>)
    ensures r.Err? ==> r.error == IndexError
  {
    var lines := SplitLines(text);
    match FirstAssertionLine(lines, 0)
    case None => Ok(text)
    case Some(i) =>
      var parts := Split(lines[i], ASSERTION_MARKER);
      if |parts| < 2 then Err(IndexError) else Ok(parts[1])
  }

  /** `_format_assertion_error(report)`: "FAILED::{test name}::{message}". */
  function FailureLine(report: TestReport): Result<string> {
    match AssertionMessage(LongreprText(report.longrepr))
    case Ok(message) => Ok(FAILED_PREFIX + report.location.testName + ID_SEPARATOR + message)
    case Err(e) => Err(e)
  }

  /** `_format_assertion_error`, with its loop over the lines and its early break. */
  method FormatAssertionError(report: TestReport) returns (r: Result<string>)
    ensures r == FailureLine(report)
  {
    var text := LongreprText(report.longrepr);
    var lines := SplitLines(text);
    var message: Option<string> := None;
    var i := 0;
    while i < |lines|
      invariant i <= |lines|
      invariant FirstAssertionLine(lines, i) == FirstAssertionLine(lines, 0)
    {
      if Contains(lines[i], ASSERTION_ERROR) {
        var parts := Split(lines[i], ASSERTION_MARKER);
        if |parts| < 2 {
          return Err(IndexError);
        }
        message := Some(parts[1]);
        break;
      }
      i := i + 1;
    }
    if message == None {
      message := Some(text);
    }
    return Ok(FAILED_PREFIX + report.location.testName + ID_SEPARATOR + message.value);
  }

  /** "AssertionError: " has no second 'A', so an occurrence cannot straddle the end of a prefix. */
  lemma MarkerUnbordered()
    ensures forall i :: 1 <= i < |ASSERTION_MARKER| ==> ASSERTION_MARKER[i] != ASSERTION_MARKER[0]
  {
  }

  /** A line `p + "AssertionError: " + m` whose prefix does not mention AssertionError splits into p and m. */
  lemma SplitAtMarker(p: string, m: string)
    requires !Contains(p, ASSERTION_ERROR) && !Contains(m, ASSERTION_MARKER)
    ensures Split(p + ASSERTION_MARKER + m, ASSERTION_MARKER) == [p, m]
  {
    if Contains(p, ASSERTION_MARKER) {
      assert ASSERTION_MARKER == ASSERTION_ERROR + ": ";
      ContainsPrefix(p, ASSERTION_ERROR, ": ");
    }
    MarkerUnbordered();
    NoEarlyOccurrenceUnbordered(p, ASSERTION_MARKER, m);
    SplitAt(p, ASSERTION_MARKER, m);
    SplitWithout(m, ASSERTION_MARKER);
  }

  /**
   * For the newline-joined lines of a traceback (a tuple longrepr, or a text
   * one), the message is what follows "AssertionError: " on the first line
   * mentioning AssertionError.
   */
  lemma MessageAfterMarker(lines: seq<string>, k: nat, p: string, m: string)
    requires forall n, i :: 0 <= n < |lines| && 0 <= i < |lines[n]| ==> !IsLineBreak(lines[n][i])
    requires k < |lines| && lines[|lines| - 1] != ""
    requires lines[k] == p + ASSERTION_MARKER + m
    requires forall j :: 0 <= j < k ==> !Contains(lines[j], ASSERTION_ERROR)
    requires !Contains(p, ASSERTION_ERROR) && !Contains(m, ASSERTION_MARKER)
    ensures AssertionMessage(Join(lines, "\n")) == Ok(m)
  {
    SplitLinesJoin(lines);
    assert OccursAt(lines[k], ASSERTION_MARKER + "", |p|) by {
      assert lines[k][|p|..|p| + |ASSERTION_MARKER|] == ASSERTION_MARKER;
    }
    assert ASSERTION_MARKER == ASSERTION_ERROR + ": ";
    ContainsPrefix(lines[k], ASSERTION_ERROR, ": ");
    assert FirstAssertionLine(lines, 0) == Some(k);
    SplitAtMarker(p, m);
  }

  /** When no line mentions AssertionError, the message is the whole text. */
  lemma WholeTextWithoutAssertion(lines: seq<string>)
    requires forall n, i :: 0 <= n < |lines| && 0 <= i < |lines[n]| ==> !IsLineBreak(lines[n][i])
    requires lines != [] ==> lines[|lines| - 1] != ""
    requires forall j :: 0 <= j < |lines| ==> !Contains(lines[j], ASSERTION_ERROR)
    ensures AssertionMessage(Join(lines, "\n")) == Ok(Join(lines, "\n"))
  {
    SplitLinesJoin(lines);
  }

  /** The first line mentioning AssertionError without the ": " after it makes the indexing fail. */
  lemma MissingMarkerFails(lines: seq<string>, k: nat)
    requires forall n, i :: 0 <= n < |lines| && 0 <= i < |lines[n]| ==> !IsLineBreak(lines[n][i])
    requires k < |lines| && lines[|lines| - 1] != ""
    requires Contains(lines[k], ASSERTION_ERROR) && !Contains(lines[k], ASSERTION_MARKER)
    requires forall j :: 0 <= j < k ==> !Contains(lines[j], ASSERTION_ERROR)
    ensures AssertionMessage(Join(lines, "\n")) == Err(IndexError)
  {
    SplitLinesJoin(lines);
    assert FirstAssertionLine(lines, 0) == Some(k);
    SplitWithout(lines[k], ASSERTION_MARKER);
  }

  // ---------------------------------------------------------------------------
  // Passed-test labels

  /** `_format_passed_test(nodeid)`: "Pass::{module}::{test}". */
  function FormatPassedTest(nodeid: string): (r: string)
    ensures StartsWith(r, PASS_PREFIX)
  {
    var parts := Split(nodeid, ID_SEPARATOR);
    var testName := LastOf(parts);
    var modulePath := ReplaceAll(LastOf(Split(parts[0], "/")), ".py", "");
    PASS_PREFIX + modulePath + ID_SEPARATOR + testName
  }

  /** Removing ".py" from `m + ".py"` gives back `m` when `m` holds no ".py". */
  lemma DropPySuffix(m: string)
    requires !Contains(m, ".py")
    ensures ReplaceAll(m + ".py", ".py", "") == m
  {
    NoEarlyOccurrenceUnbordered(m, ".py", "");
    assert m + ".py" + "" == m + ".py";
    SplitAt(m, ".py", "");
    assert Split("", ".py") == [""];
    assert Split(m + ".py", ".py") == [m, ""];
    assert Join([m, ""], "") == m + "" + "";
  }

  /**
   * The node id of a test `t` in module file `dir/m.py` is labelled
   * "Pass::m::t": the directory and the ".py" are dropped.
   */
  lemma PassedLabelOfModuleTest(dir: string, m: string, t: string)
    requires ':' !in dir && ':' !in m && '/' !in m
    requires !Contains(m, ".py") && !Contains(t, ID_SEPARATOR)
    ensures FormatPassedTest(dir + "/" + m + ".py" + ID_SEPARATOR + t) == PASS_PREFIX + m + ID_SEPARATOR + t
  {
    var file := dir + "/" + m + ".py";
    assert ':' !in file;
    NoEarlyOccurrenceFreeChar(file, ID_SEPARATOR, t);
    SplitAt(file, ID_SEPARATOR, t);
    SplitWithout(t, ID_SEPARATOR);
    var nodeid := file + ID_SEPARATOR + t;
    assert Split(nodeid, ID_SEPARATOR) == [file, t];
    ContainsSingle(m + ".py", '/');
    assert dir + "/" + (m + ".py") == file;
    LastOfSplit(dir, "/", m + ".py");
    DropPySuffix(m);
  }

  // ---------------------------------------------------------------------------
  // Sections

  /** The last line of a section: singular for one entry, plural otherwise. */
  function Footer(count: nat, singular: string, plural: string): string {
    if count > 1 then THERE_ARE + NatToString(count) + " " + plural
    else THERE_IS + NatToString(count) + " " + singular
  }

  /** The text of a section, line by line, before colouring: empty when there are no entries. */
  function SectionLines(title: string, items: seq<string>, singular: string, plural: string): (r: seq<string>)
    ensures r == [] <==> items == []
    ensures items != [] ==> |r| == |items| + 2 && r[0] == title && r[|r| - 1] == Footer(|items|, singular, plural)
    ensures items != [] ==> forall k :: 0 <= k < |items| ==> r[k + 1] == items[k]
  {
    if items == [] then [] else [title] + items + [Footer(|items|, singular, plural)]
  }

  /** Each entry wrapped in the colour and the reset code. */
  function Coloured(colour: string, items: seq<string>): (r: seq<ConsoleLine>)
    ensures |r| == |items|
    ensures forall k :: 0 <= k < |items| ==> r[k] == Line(colour + items[k] + RESET)
  {
    seq(|items|, k requires 0 <= k < |items| => Line(colour + items[k] + RESET))
  }

  /** A console section: a banner, the coloured entries, a banner footer. */
  function ConsoleSection(colour: string, title: string, items: seq<string>, singular: string, plural: string): seq<ConsoleLine> {
    if items == [] then []
    else [Banner('=', colour + title + RESET)] + Coloured(colour, items) + [Banner('=', colour + Footer(|items|, singular, plural) + RESET)]
  }

  /** Each line followed by a newline. */
  function LinesText(lines: seq<string>): string {
    if lines == [] then "" else LinesText(lines[..|lines| - 1]) + lines[|lines| - 1] + "\n"
  }

  /** A file section: the same parts as the console one, uncoloured, one per line. */
  function FileSection(title: string, items: seq<string>, singular: string, plural: string): string {
    if items == [] then ""
    else title + "\n" + LinesText(items) + Footer(|items|, singular, plural) + "\n"
  }

  /** The text a console line shows. */
  function Shown(l: ConsoleLine): string {
    match l
    case Printed(text) => text
    case Banner(_, title) => title
    case Line(text) => text
    case LastFailedNotice(_) => ""
  }

  lemma {:induction false} LinesTextAppend(a: seq<string>, b: seq<string>)
    ensures LinesText(a + b) == LinesText(a) + LinesText(b)
    decreases |b|
  {
    if b != [] {
      var b' := b[..|b| - 1];
      assert (a + b)[..|a + b| - 1] == a + b';
      LinesTextAppend(a, b');
    } else {
      assert a + b == a;
    }
  }

  /** The console shows the lines of a section, each wrapped in the colour and the reset code. */
  lemma ConsoleShowsSectionLines(colour: string, title: string, items: seq<string>, singular: string, plural: string)
    ensures |ConsoleSection(colour, title, items, singular, plural)| == |SectionLines(title, items, singular, plural)|
    ensures forall k :: 0 <= k < |SectionLines(title, items, singular, plural)| ==>
      Shown(ConsoleSection(colour, title, items, singular, plural)[k]) == colour + SectionLines(title, items, singular, plural)[k] + RESET
  {
    if items != [] {
      var console := ConsoleSection(colour, title, items, singular, plural);
      var text := SectionLines(title, items, singular, plural);
      forall k | 0 <= k < |text|
        ensures Shown(console[k]) == colour + text[k] + RESET
      {
        if 0 < k < |text| - 1 {
          assert console[k] == Coloured(colour, items)[k - 1];
        }
      }
    }
  }

  /** The file holds the lines of a section, each ended by a newline, without colour. */
  lemma FileHoldsSectionLines(title: string, items: seq<string>, singular: string, plural: string)
    ensures FileSection(title, items, singular, plural) == LinesText(SectionLines(title, items, singular, plural))
  {
    if items != [] {
      var footer := Footer(|items|, singular, plural);
      assert SectionLines(title, items, singular, plural) == [title] + items + [footer];
      LinesTextAppend([title], items);
      LinesTextAppend([title] + items, [footer]);
      assert LinesText([title]) == title + "\n" by {
        assert [title][..0] == [];
      }
      assert LinesText([footer]) == footer + "\n" by {
        assert [footer][..0] == [];
      }
    }
  }

  /** Any n >= 2 entries end with "There are n …" and the plural. */
  lemma SectionPluralFooter(title: string, items: seq<string>, singular: string, plural: string)
    requires |items| >= 2
    ensures LastOf(SectionLines(title, items, singular, plural)) == THERE_ARE + NatToString(|items|) + " " + plural
  {
  }

  /** One entry reads "There is 1 …"; two read "There are 2 …"s; none prints nothing. */
  lemma SectionPluralisation(title: string, items: seq<string>, singular: string, plural: string)
    ensures items == [] ==> SectionLines(title, items, singular, plural) == []
    ensures |items| == 1 ==> LastOf(SectionLines(title, items, singular, plural)) == THERE_IS + "1 " + singular
    ensures |items| == 2 ==> LastOf(SectionLines(title, items, singular, plural)) == THERE_ARE + "2 " + plural
  {
    assert NatToString(1) == "1";
    assert NatToString(2) == "2";
  }

  /** `str(warning.message)` for every recorded warning. */
  function WarningTexts(ws: seq<RaisedWarning>): (r: seq<string>)
    ensures |r| == |ws|
    ensures forall k :: 0 <= k < |ws| ==> r[k] == MessageText(ws[k])
  {
    seq(|ws|, k requires 0 <= k < |ws| => MessageText(ws[k]))
  }

  /** The label of every passed test id. */
  function PassedLabels(ids: seq<string>): (r: seq<string>)
    ensures |r| == |ids|
    ensures forall k :: 0 <= k < |ids| ==> r[k] == FormatPassedTest(ids[k])
  {
    seq(|ids|, k requires 0 <= k < |ids| => FormatPassedTest(ids[k]))
  }

  function WarningsConsole(ws: seq<RaisedWarning>): seq<ConsoleLine> {
    ConsoleSection(YELLOW, WARNINGS_TITLE, WarningTexts(ws), "warning", "warnings")
  }

  function FailuresConsole(failures: seq<string>): seq<ConsoleLine> {
    ConsoleSection(RED, FAILURES_TITLE, failures, "failure", "failures")
  }

  function PassedConsole(ids: seq<string>): seq<ConsoleLine> {
    ConsoleSection(GREEN, PASSED_TITLE, PassedLabels(ids), "passed test", "passed tests")
  }

  /** The terminal summary: warnings (unless suppressed), then passed tests, then failures. */
  function ConsoleSummary(noWarnings: bool, ws: seq<RaisedWarning>, failures: seq<string>, passedTests: seq<string>): seq<ConsoleLine> {
    (if noWarnings then [] else WarningsConsole(ws)) + PassedConsole(passedTests) + FailuresConsole(failures)
  }

  /** The results file: warnings (unless suppressed), then failures, then passed tests. */
  function SummaryFileText(noWarnings: bool, ws: seq<RaisedWarning>, failures: seq<string>, passedTests: seq<string>): string {
    (if noWarnings then "" else FileSection(WARNINGS_TITLE, WarningTexts(ws), "warning", "warnings"))
    + FileSection(FAILURES_TITLE, failures, "failure", "failures")
    + FileSection(PASSED_TITLE, PassedLabels(passedTests), "passed test", "passed tests")
  }

  /** Suppressing warnings renders the run as if it had raised none. */
  lemma WarningsSuppressed(ws: seq<RaisedWarning>, failures: seq<string>, passedTests: seq<string>)
    ensures ConsoleSummary(true, ws, failures, passedTests) == ConsoleSummary(false, [], failures, passedTests)
    ensures SummaryFileText(true, ws, failures, passedTests) == SummaryFileText(false, [], failures, passedTests)
  {
    assert WarningTexts([]) == [];
  }

  /** Prints one section on the terminal, entry by entry. */
  method PrintSection(out: Terminal, colour: string, title: string, items: seq<string>, singular: string, plural: string)
    modifies out
    ensures out.lines == old(out.lines) + ConsoleSection(colour, title, items, singular, plural)
  {
    if items != [] {
      out.WriteSep('=', colour + title + RESET);
      var header := out.lines;
      for k := 0 to |items|
        invariant out.lines == header + Coloured(colour, items[..k])
      {
        out.WriteLine(colour + items[k] + RESET);
        assert Coloured(colour, items[..k + 1]) == Coloured(colour, items[..k]) + [Line(colour + items[k] + RESET)];
      }
      assert items[..|items|] == items;
      out.WriteSep('=', colour + Footer(|items|, singular, plural) + RESET);
    }
  }

  /** Writes one section to a file, entry by entry. */
  method WriteSection(f: TextFile, title: string, items: seq<string>, singular: string, plural: string)
    modifies f
    ensures f.text == old(f.text) + FileSection(title, items, singular, plural)
  {
    if items != [] {
      f.Write(title + "\n");
      var header := f.text;
      for k := 0 to |items|
        invariant f.text == header + LinesText(items[..k])
      {
        f.Write(items[k] + "\n");
        assert items[..k + 1][..k] == items[..k];
        assert LinesText(items[..k + 1]) == LinesText(items[..k]) + items[k] + "\n";
      }
      assert items[..|items|] == items;
      var body := f.text;
      f.Write(Footer(|items|, singular, plural) + "\n");
      RegroupLine(old(f.text), title + "\n", LinesText(items), Footer(|items|, singular, plural));
    }
  }

  // ---------------------------------------------------------------------------
  // Rewriting the failed reports

  /**
   * The new node id of a failed report: the text after the first "::", up to
   * the first "-"; none when the id has no "::" (the indexing fails).
   */
  function RewrittenId(nodeid: string): Option<string> {
    var parts := Split(nodeid, ID_SEPARATOR);
    if |parts| < 2 then None else Some(Split(parts[1], "-")[0])
  }

  /** A rewritten id holds neither "::" nor "-". */
  lemma RewrittenIdShape(nodeid: string)
    requires RewrittenId(nodeid).Some?
    ensures !Contains(RewrittenId(nodeid).value, ID_SEPARATOR)
    ensures !Contains(RewrittenId(nodeid).value, "-")
  {
    var parts := Split(nodeid, ID_SEPARATOR);
    var id := Split(parts[1], "-")[0];
    SplitPieceFree(parts[1], "-", 0);
    SplitPieceFree(nodeid, ID_SEPARATOR, 1);
    SplitFirstPrefix(parts[1], "-");
    if Contains(id, ID_SEPARATOR) {
      ContainsInPrefix(parts[1], |id|, ID_SEPARATOR);
    }
  }

  /** "path::test" is rewritten to "test" for a plain test name. */
  lemma RewrittenIdOfModuleTest(path: string, t: string)
    requires ':' !in path && '-' !in t && !Contains(t, ID_SEPARATOR)
    ensures RewrittenId(path + ID_SEPARATOR + t) == Some(t)
  {
    NoEarlyOccurrenceFreeChar(path, ID_SEPARATOR, t);
    SplitAt(path, ID_SEPARATOR, t);
    SplitWithout(t, ID_SEPARATOR);
    ContainsSingle(t, '-');
    SplitWithout(t, "-");
  }

  /** The first report, from `from` on, whose id cannot be rewritten (or the length). */
  function RewriteStopFrom(reports: seq<TestReport>, from: nat): (k: nat)
    requires from <= |reports|
    ensures from <= k <= |reports|
    ensures forall i :: from <= i < k ==> RewrittenId(reports[i].nodeid).Some?
    ensures k < |reports| ==> RewrittenId(reports[k].nodeid).None?
    decreases |reports| - from
  {
    if from == |reports| then from
    else if RewrittenId(reports[from].nodeid).None? then from
    else RewriteStopFrom(reports, from + 1)
  }

  function RewriteStop(reports: seq<TestReport>): nat {
    RewriteStopFrom(reports, 0)
  }

  /** A rewritten report: the new id, and an empty longrepr. */
  function Rewritten(r: TestReport): TestReport
    requires RewrittenId(r.nodeid).Some?
  {
    r.(nodeid := RewrittenId(r.nodeid).value, longrepr := TextRepr(""))
  }

  /** The reports after the loop: rewritten up to the first id that fails, unchanged from there. */
  function RewrittenReports(reports: seq<TestReport>): (r: seq<TestReport>)
    ensures |r| == |reports|
  {
    var stop := RewriteStop(reports);
    seq(|reports|, i requires 0 <= i < |reports| => if i < stop then Rewritten(reports[i]) else reports[i])
  }

  /** Every report the loop reaches ends with an id free of "::" and an empty longrepr. */
  lemma RewrittenReportsShape(reports: seq<TestReport>, i: nat)
    requires i < RewriteStop(reports)
    ensures !Contains(RewrittenReports(reports)[i].nodeid, ID_SEPARATOR)
    ensures RewrittenReports(reports)[i].longrepr == TextRepr("")
    ensures RewrittenReports(reports)[i].outcome == reports[i].outcome
  {
    RewrittenIdShape(reports[i].nodeid);
  }

  /** The loop of `pytest_terminal_summary` over `stats['failed']`. */
  method RewriteFailedReports(failed: array<TestReport>) returns (raised: Option<Error>)
    modifies failed
    ensures failed[..] == RewrittenReports(old(failed[..]))
    ensures raised == None <==> RewriteStop(old(failed[..])) == failed.Length
    ensures raised != None ==> raised == Some(IndexError)
  {
    ghost var original := failed[..];
    for i := 0 to failed.Length
      invariant forall j :: 0 <= j < i ==> RewrittenId(original[j].nodeid).Some? && failed[j] == Rewritten(original[j])
      invariant forall j :: i <= j < failed.Length ==> failed[j] == original[j]
    {
      var parts := Split(failed[i].nodeid, ID_SEPARATOR);
      if |parts| < 2 {
        assert RewriteStop(original) == i;
        assert failed[..] == RewrittenReports(original);
        return Some(IndexError);
      }
      var testName := Split(parts[1], "-")[0];
      failed[i] := failed[i].(nodeid := testName, longrepr := TextRepr(""));
    }
    assert RewriteStop(original) == failed.Length;
    assert failed[..] == RewrittenReports(original);
    return None;
  }

  // ---------------------------------------------------------------------------
  // The plugin

  class CustomSummaryPlugin {
    var warnings: seq<RaisedWarning>
    var failures: seq<string>
    var passedTests: seq<string>
    const noWarnings: bool
    var passed: nat
    var skipped: nat

    /** The passed counter always equals the number of passed ids kept. */
    ghost predicate Valid()
      reads this
    {
      passed == |passedTests|
    }

    constructor (options: Options)
      ensures Valid()
      ensures warnings == [] && failures == [] && passedTests == []
      ensures noWarnings == options.noWarnings && passed == 0 && skipped == 0
    {
      warnings := [];
      failures := [];
      passedTests := [];
      noWarnings := options.noWarnings;
      passed := 0;
      skipped := 0;
    }

    /** `pytest_runtest_protocol`: the warnings recorded while one test ran are appended, in order. */
    method RuntestProtocol(recorded: seq<RaisedWarning>)
      requires Valid()
      modifies this
      ensures Valid()
      ensures warnings == old(warnings) + recorded
      ensures failures == old(failures) && passedTests == old(passedTests)
      ensures passed == old(passed) && skipped == old(skipped)
    {
      warnings := warnings + recorded;
    }

    /**
     * `pytest_runtest_logreport`: a passed call is counted and kept, a failed
     * call is formatted and kept, a skip in any phase is counted, anything
     * else is ignored.
     */
    method LogReport(report: TestReport) returns (raised: Option<Error>)
      requires Valid()
      modifies this
      ensures Valid()
      ensures warnings == old(warnings)
      ensures report.outcome == Passed && report.when == Call ==>
        raised == None && passedTests == old(passedTests) + [report.nodeid] && passed == old(passed) + 1
        && failures == old(failures) && skipped == old(skipped)
      ensures report.outcome == Failed && report.when == Call ==>
        passedTests == old(passedTests) && passed == old(passed) && skipped == old(skipped)
      ensures report.outcome == Failed && report.when == Call && FailureLine(report).Ok? ==>
        raised == None && failures == old(failures) + [FailureLine(report).value]
      ensures report.outcome == Failed && report.when == Call && FailureLine(report).Err? ==>
        raised == Some(FailureLine(report).error) && failures == old(failures)
      ensures report.outcome == Skipped ==>
        raised == None && skipped == old(skipped) + 1
        && failures == old(failures) && passedTests == old(passedTests) && passed == old(passed)
      ensures report.outcome != Skipped && report.when != Call ==>
        raised == None && failures == old(failures) && passedTests == old(passedTests)
        && passed == old(passed) && skipped == old(skipped)
    {
      raised := None;
      if report.outcome == Passed && report.when == Call {
        passed := passed + 1;
        passedTests := passedTests + [report.nodeid];
      } else if report.outcome == Failed && report.when == Call {
        var formatted := FormatAssertionError(report);
        if formatted.Err? {
          return Some(formatted.error);
        }
        failures := failures + [formatted.value];
      } else if report.outcome == Skipped {
        skipped := skipped + 1;
      }
    }

    function ConsoleText(): seq<ConsoleLine>
      reads this
    {
      ConsoleSummary(noWarnings, warnings, failures, passedTests)
    }

    function SummaryText(): string
      reads this
    {
      SummaryFileText(noWarnings, warnings, failures, passedTests)
    }

    method PrintWarningsSummary(out: Terminal)
      modifies out
      ensures out.lines == old(out.lines) + WarningsConsole(warnings)
    {
      PrintSection(out, YELLOW, WARNINGS_TITLE, WarningTexts(warnings), "warning", "warnings");
    }

    method PrintFailuresSummary(out: Terminal)
      modifies out
      ensures out.lines == old(out.lines) + FailuresConsole(failures)
    {
      PrintSection(out, RED, FAILURES_TITLE, failures, "failure", "failures");
    }

    method PrintPassedSummary(out: Terminal)
      modifies out
      ensures out.lines == old(out.lines) + PassedConsole(passedTests)
    {
      PrintSection(out, GREEN, PASSED_TITLE, PassedLabels(passedTests), "passed test", "passed tests");
    }

    /**
     * `pytest_terminal_summary`: prints the sections, then rewrites the failed
     * reports; an id without "::" stops the loop with an IndexError.
     */
    method TerminalSummary(out: Terminal, failed: array<TestReport>) returns (raised: Option<Error>)
      modifies out, failed
      ensures out.lines == old(out.lines) + ConsoleText()
      ensures failed[..] == RewrittenReports(old(failed[..]))
      ensures raised == None <==> RewriteStop(old(failed[..])) == failed.Length
      ensures raised != None ==> raised == Some(IndexError)
    {
      ghost var start := out.lines;
      ghost var shownWarnings: seq<ConsoleLine> := if noWarnings then [] else WarningsConsole(warnings);
      if !noWarnings {
        PrintWarningsSummary(out);
      }
      assert out.lines == start + shownWarnings;
      PrintPassedSummary(out);
      PrintFailuresSummary(out);
      Regroup(start, shownWarnings, PassedConsole(passedTests), FailuresConsole(failures));
      raised := RewriteFailedReports(failed);
    }

    /** `write_summary_to_file(path)`: the file holds exactly the uncoloured summary. */
    method WriteSummaryToFile(fs: FileSystem, p: Path) returns (raised: Option<Error>)
      modifies fs
      ensures raised == None <==> p.dir in old(fs.dirs)
      ensures raised != None ==> raised == Some(FileNotFoundError(PathString(p))) && fs.files == old(fs.files)
      ensures raised == None ==> fs.files == old(fs.files)[p := Text(SummaryText())]
      ensures fs.dirs == old(fs.dirs)
    {
      if p.dir !in fs.dirs {
        return Some(FileNotFoundError(PathString(p)));
      }
      var f := new TextFile();
      ghost var shownWarnings := if noWarnings then "" else FileSection(WARNINGS_TITLE, WarningTexts(warnings), "warning", "warnings");
      if !noWarnings {
        WriteSection(f, WARNINGS_TITLE, WarningTexts(warnings), "warning", "warnings");
      }
      assert f.text == "" + shownWarnings;
      WriteSection(f, FAILURES_TITLE, failures, "failure", "failures");
      WriteSection(f, PASSED_TITLE, PassedLabels(passedTests), "passed test", "passed tests");
      Regroup("", shownWarnings, FileSection(FAILURES_TITLE, failures, "failure", "failures"),
        FileSection(PASSED_TITLE, PassedLabels(passedTests), "passed test", "passed tests"));
      assert f.text == SummaryText();
      raised := fs.Write(p, Text(f.text));
    }
  }
}

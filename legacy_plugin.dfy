/**
 * The older form of the plugin (datacheck/plugin.py): the same summary
 * plugin without the passed list or the cache, and a test-file hook that
 * puts the test file in front of the other arguments instead of replacing
 * them. Its failure format, sections and node-id rewrite are the newer
 * plugin's, so they are shared with it rather than defined twice.
 */
module LegacyPlugin {
  import opened Wrappers
  import opened Strings
  import opened Utils
  import opened Host
  import opened CustomSummary
  import opened PytestHooks

  /**
   * `pytest_cmdline_main`: with a test name, its module is inserted in front
   * of the arguments, which otherwise stay as they were; a missing module
   * raises a UsageError.
   */
  method CmdlineMain(config: Config, packageDir: string, existingFiles: set<string>) returns (raised: Option<Error>)
    modifies config
    ensures config.options.test == "" ==> raised == None && config.args == old(config.args)
    ensures config.options.test != "" && TestFilePath(packageDir, config.options.test) !in existingFiles ==>
      raised == Some(UsageError(MissingTestFileMessage(TestFilePath(packageDir, config.options.test)))) &&
      config.args == old(config.args)
    ensures config.options.test != "" && TestFilePath(packageDir, config.options.test) in existingFiles ==>
      raised == None && config.args == [TestFilePath(packageDir, config.options.test)] + old(config.args)
    ensures config.lastFailedCache == old(config.lastFailedCache) && config.lastFailed == old(config.lastFailed)
    ensures config.continueOnCollectionErrors == old(config.continueOnCollectionErrors)
    ensures config.runPytest == old(config.runPytest)
  {
    var testName := config.options.test;
    if testName != "" {
      var testFile := TestFilePath(packageDir, testName);
      if testFile !in existingFiles {
        return Some(UsageError(MissingTestFileMessage(testFile)));
      }
      config.args := [testFile] + config.args;
    }
    return None;
  }

  /** The console summary of the older plugin: warnings (unless suppressed), then failures. */
  function LegacyConsoleSummary(noWarnings: bool, ws: seq<RaisedWarning>, failures: seq<string>): seq<ConsoleLine> {
    (if noWarnings then [] else WarningsConsole(ws)) + FailuresConsole(failures)
  }

  /** It is the newer plugin's console summary with no passed tests. */
  lemma LegacyConsoleIsNewerWithoutPassed(noWarnings: bool, ws: seq<RaisedWarning>, failures: seq<string>)
    ensures LegacyConsoleSummary(noWarnings, ws, failures) == ConsoleSummary(noWarnings, ws, failures, [])
  {
    assert PassedLabels([]) == [];
    assert PassedConsole([]) == [];
  }

  /** The older `CustomSummaryPlugin`: counters and lists, but no list of passed ids. */
  class LegacySummaryPlugin {
    var warnings: seq<RaisedWarning>
    var failures: seq<string>
    const noWarnings: bool
    var passed: nat
    var skipped: nat

    constructor (options: Options)
      ensures warnings == [] && failures == []
      ensures noWarnings == options.noWarnings && passed == 0 && skipped == 0
    {
      warnings := [];
      failures := [];
      noWarnings := options.noWarnings;
      passed := 0;
      skipped := 0;
    }

    /** `pytest_runtest_protocol`: the warnings recorded while one test ran are appended, in order. */
    method RuntestProtocol(recorded: seq<RaisedWarning>)
      modifies this
      ensures warnings == old(warnings) + recorded
      ensures failures == old(failures) && passed == old(passed) && skipped == old(skipped)
    {
      warnings := warnings + recorded;
    }

    /**
     * `pytest_runtest_logreport`: the newer plugin's classification, except
     * that a passed call is only counted.
     */
    method LogReport(report: TestReport) returns (raised: Option<Error>)
      modifies this
      ensures warnings == old(warnings)
      ensures report.outcome == Passed && report.when == Call ==>
        raised == None && passed == old(passed) + 1 && failures == old(failures) && skipped == old(skipped)
      ensures report.outcome == Failed && report.when == Call ==>
        passed == old(passed) && skipped == old(skipped)
      ensures report.outcome == Failed && report.when == Call && FailureLine(report).Ok? ==>
        raised == None && failures == old(failures) + [FailureLine(report).value]
      ensures report.outcome == Failed && report.when == Call && FailureLine(report).Err? ==>
        raised == Some(FailureLine(report).error) && failures == old(failures)
      ensures report.outcome == Skipped ==>
        raised == None && skipped == old(skipped) + 1 && failures == old(failures) && passed == old(passed)
      ensures report.outcome != Skipped && report.when != Call ==>
        raised == None && failures == old(failures) && passed == old(passed) && skipped == old(skipped)
    {
      raised := None;
      if report.outcome == Passed && report.when == Call {
        passed := passed + 1;
      } else if report.outcome == Failed && report.when == Call {
        var formatted := FormatAssertionError(report);
        if formatted.Err? {
          return Some(formatted.error);
        }
        failures := failures + [formatted.value];
      } else if report.outcome == Skipped {
        skipped := skipped + 1;
      }
    }

    function ConsoleText(): seq<ConsoleLine>
      reads this
    {
      LegacyConsoleSummary(noWarnings, warnings, failures)
    }

    method PrintWarningsSummary(out: Terminal)
      modifies out
      ensures out.lines == old(out.lines) + WarningsConsole(warnings)
    {
      PrintSection(out, YELLOW, WARNINGS_TITLE, WarningTexts(warnings), "warning", "warnings");
    }

    method PrintFailuresSummary(out: Terminal)
      modifies out
      ensures out.lines == old(out.lines) + FailuresConsole(failures)
    {
      PrintSection(out, RED, FAILURES_TITLE, failures, "failure", "failures");
    }

    /**
     * `pytest_terminal_summary`: prints the sections, then rewrites the failed
     * reports as the newer plugin does.
     */
    method TerminalSummary(out: Terminal, failed: array<TestReport>) returns (raised: Option<Error>)
      modifies out, failed
      ensures out.lines == old(out.lines) + ConsoleText()
      ensures failed[..] == RewrittenReports(old(failed[..]))
      ensures raised == None <==> RewriteStop(old(failed[..])) == failed.Length
      ensures raised != None ==> raised == Some(IndexError)
    {
      ghost var start := out.lines;
      ghost var shownWarnings: seq<ConsoleLine> := if noWarnings then [] else WarningsConsole(warnings);
      if !noWarnings {
        PrintWarningsSummary(out);
      }
      assert out.lines == start + shownWarnings;
      PrintFailuresSummary(out);
      Regroup3(start, shownWarnings, FailuresConsole(failures));
      assert out.lines == start + ConsoleText();
      raised := RewriteFailedReports(failed);
    }
  }

  /** `pytest_configure`: registers the plugin unless native output is asked for; there is no cache. */
  method PytestConfigure(options: Options) returns (plugin: LegacySummaryPlugin?)
    ensures plugin != null <==> !options.nativeOutput
    ensures plugin != null ==>
      fresh(plugin) && plugin.noWarnings == options.noWarnings && plugin.warnings == [] && plugin.failures == []
  {
    plugin := null;
    if !options.nativeOutput {
      plugin := new LegacySummaryPlugin(options);
    }
  }
}

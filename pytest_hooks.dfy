/**
 * The pytest hooks of the datacheck plugin (plugin/pytest_hooks.py): the
 * warning format, which functions are collected, which test file is run,
 * and the cache steps before and after the run.
 */
module PytestHooks {
  import opened Wrappers
  import opened Strings
  import opened Utils
  import opened Host
  import opened CustomSummary
  import opened CacheManagement
  import opened WarningsLog

  const CHECKS_DIR: string := "/checks/"
  const CHECK_PREFIX: string := "check_"

  // ---------------------------------------------------------------------------
  // Warning format

  /**
   * `custom_warning_format`: a datacheck warning is shown as its own text
   * alone; any other warning with its location and category name.
   */
  function CustomWarningFormat(message: RaisedWarning, filename: string, lineno: int): (r: string)
    ensures |r| > 0 && r[|r| - 1] == '\n'
    ensures CategoryOf(message).OtherCategory? ==> StartsWith(r, filename + ":" + IntToString(lineno) + ": ")
  {
    match CategoryOf(message)
    case EnsemblDatacheckWarningClass => MessageText(message) + "\n"
    case OtherCategory(name) => filename + ":" + IntToString(lineno) + ": " + name + ": " + MessageText(message) + "\n"
  }

  /**
   * A datacheck warning shows no location: its line, less the newline, reads
   * back as the warning's own message under its origin tag.
   */
  lemma DatacheckWarningShownBare(w: EnsemblDatacheckWarning, filename: string, lineno: int)
    ensures CustomWarningFormat(DatacheckWarning(w), filename, lineno) ==
      CustomWarningFormat(DatacheckWarning(w), "", 0)
    ensures MessageOf(CustomWarningFormat(DatacheckWarning(w), filename, lineno)[..|Str(w)|], w.fileName, w.functionName) ==
      Some(w.message)
  {
    var r := CustomWarningFormat(DatacheckWarning(w), filename, lineno);
    assert r[..|Str(w)|] == Str(w);
    StrRoundTrip(w);
  }

  /** Any other warning ends with its own text and the newline. */
  lemma OtherWarningEndsWithText(category: string, text: string, filename: string, lineno: int)
    ensures var r := CustomWarningFormat(PlainWarning(category, text), filename, lineno);
      |r| > |text| && r[|r| - |text| - 1..] == text + "\n"
  {
    var prefix := filename + ":" + IntToString(lineno) + ": " + category + ": ";
    var r := CustomWarningFormat(PlainWarning(category, text), filename, lineno);
    assert r == prefix + (text + "\n");
    assert r[|prefix|..] == text + "\n";
  }

  /**
   * The warnings a check tags with one origin: each is shown without a location,
   * and its line, less the newline, reads back as the message the check passed.
   */
  lemma TaggedWarningsReadBack(messages: seq<string>, fileName: string, functionName: string, filename: string, lineno: int)
    ensures forall k :: 0 <= k < |messages| ==>
      var shown := CustomWarningFormat(Tagged(messages, fileName, functionName)[k], filename, lineno);
      shown == Str(EnsemblDatacheckWarning(messages[k], fileName, functionName)) + "\n" &&
      MessageOf(shown[..|shown| - 1], fileName, functionName) == Some(messages[k])
  {
  }

  /**
   * The warnings of one plain category (the older test module's UserWarnings):
   * each is shown with the location and the category name, and ends with the
   * message and the newline.
   */
  lemma PlainWarningsShownWithLocation(messages: seq<string>, category: string, filename: string, lineno: int)
    ensures forall k :: 0 <= k < |messages| ==>
      var shown := CustomWarningFormat(Plain(messages, category)[k], filename, lineno);
      StartsWith(shown, filename + ":" + IntToString(lineno) + ": " + category + ": ") &&
      |shown| > |messages[k]| && shown[|shown| - |messages[k]| - 1..] == messages[k] + "\n"
  {
    forall k | 0 <= k < |messages|
      ensures var shown := CustomWarningFormat(Plain(messages, category)[k], filename, lineno);
        StartsWith(shown, filename + ":" + IntToString(lineno) + ": " + category + ": ") &&
        |shown| > |messages[k]| && shown[|shown| - |messages[k]| - 1..] == messages[k] + "\n"
    {
      var prefix := filename + ":" + IntToString(lineno) + ": " + category + ": ";
      var shown := CustomWarningFormat(Plain(messages, category)[k], filename, lineno);
      assert shown == prefix + (messages[k] + "\n");
      assert shown[..|prefix|] == prefix;
      OtherWarningEndsWithText(category, messages[k], filename, lineno);
    }
  }

  // ---------------------------------------------------------------------------
  // Collection and the test file

  /** `pytest_pycollect_makeitem`: a `check_` callable becomes a test item. */
  predicate CollectsItem(name: string, isCallable: bool) {
    StartsWith(name, CHECK_PREFIX) && isCallable
  }

  /**
   * This hook claims only callables named `check_...`; for any other name,
   * `test_...` included, it returns None and leaves the decision to pytest.
   */
  lemma CollectedOnlyCheckCallables(name: string, isCallable: bool)
    ensures CollectsItem(name, isCallable) ==> isCallable && |name| >= 6 && name[..6] == "check_"
    ensures StartsWith(name, "test_") ==> !CollectsItem(name, isCallable)
  {
    if StartsWith(name, "test_") {
      assert name[0] == name[..5][0] == 't';
    }
  }

  /** `<package>/checks/<test>.py`: the module a test name names. */
  function TestFilePath(packageDir: string, testName: string): string {
    packageDir + CHECKS_DIR + testName + ".py"
  }

  function MissingTestFileMessage(path: string): string {
    "Test file " + path + " does not exist."
  }

  /**
   * `pytest_cmdline_main`: with a test name, the arguments become exactly the
   * test's module, or the run stops with a UsageError when there is none.
   */
  method CmdlineMain(config: Config, packageDir: string, existingFiles: set<string>) returns (raised: Option<Error>)
    modifies config
    ensures config.options.test == "" ==> raised == None && config.args == old(config.args)
    ensures config.options.test != "" && TestFilePath(packageDir, config.options.test) !in existingFiles ==>
      raised == Some(UsageError(MissingTestFileMessage(TestFilePath(packageDir, config.options.test)))) &&
      config.args == old(config.args)
    ensures config.options.test != "" && TestFilePath(packageDir, config.options.test) in existingFiles ==>
      raised == None && config.args == [TestFilePath(packageDir, config.options.test)]
    ensures config.lastFailedCache == old(config.lastFailedCache) && config.lastFailed == old(config.lastFailed)
    ensures config.continueOnCollectionErrors == old(config.continueOnCollectionErrors)
    ensures config.runPytest == old(config.runPytest)
  {
    var testName := config.options.test;
    if testName != "" {
      var testFile := TestFilePath(packageDir, testName);
      if testFile !in existingFiles {
        return Some(UsageError(MissingTestFileMessage(testFile)));
      }
      config.args := [testFile];
    }
    return None;
  }

  // ---------------------------------------------------------------------------
  // Before the run

  /** The cache is consulted when a file or a database is given and caching is not disabled. */
  predicate ConsultsCache(o: Options) {
    (Given(o.file) || Given(o.database)) && !o.noCacheResults
  }

  /** How `pytest_configure` ends. */
  function ConfigureControl(o: Options, env: Environment, dirs: set<string>, files: map<Path, FileData>): RunControl {
    if !ConsultsCache(o) then Continue
    else match NewCacheManager(o, env)
      case Err(e) => Raise(e)
      case Ok(m) => if o.loadTestResults then LoadControl(m, files) else SetupControl(SetupDecision(m, dirs, files))
  }

  /** The setup decision taken at configure time, when `setup_cache` is reached. */
  function ConfiguredSetup(o: Options, env: Environment, dirs: set<string>, files: map<Path, FileData>): Option<SetupAction> {
    if ConsultsCache(o) && !o.loadTestResults && NewCacheManager(o, env).Ok? then
      Some(SetupDecision(NewCacheManager(o, env).value, dirs, files))
    else None
  }

  /** What `pytest_configure` prints. */
  function ConfigureOutput(o: Options, env: Environment, dirs: set<string>, files: map<Path, FileData>): seq<ConsoleLine> {
    if !ConsultsCache(o) then []
    else match NewCacheManager(o, env)
      case Err(_) => []
      case Ok(m) => if o.loadTestResults then LoadOutput(m, files) else SetupOutput(m, SetupDecision(m, dirs, files))
  }

  /** With `--load-test-results` the run always ends at configure time: the checks never run. */
  lemma LoadTestResultsNeverRuns(o: Options, env: Environment, dirs: set<string>, files: map<Path, FileData>)
    requires ConsultsCache(o) && o.loadTestResults
    ensures ConfigureControl(o, env, dirs, files) != Continue
    ensures ConfiguredSetup(o, env, dirs, files) == None
  {
  }

  /** Without a file or database, or with `--no-cache-results`, configure touches no cache. */
  lemma UncachedRunContinues(o: Options, env: Environment, dirs: set<string>, files: map<Path, FileData>)
    requires !ConsultsCache(o)
    ensures ConfigureControl(o, env, dirs, files) == Continue
    ensures ConfigureOutput(o, env, dirs, files) == [] && ConfiguredSetup(o, env, dirs, files) == None
  {
  }

  /** A stored summary with nothing pending ends the run before any check. */
  lemma CachedSummaryEndsRun(o: Options, env: Environment, dirs: set<string>, files: map<Path, FileData>, m: CacheManager)
    requires ConsultsCache(o) && !o.loadTestResults && NewCacheManager(o, env) == Ok(m)
    requires m.cacheDir in dirs && CacheFile(m) !in files && ResultsFile(m) in files && files[ResultsFile(m)].Text?
    ensures ConfigureControl(o, env, dirs, files) == Exit(USING_CACHED_EXIT)
    ensures ConfigureOutput(o, env, dirs, files) == [Printed(USING_CACHED), Printed(files[ResultsFile(m)].text)]
  {
  }

  /**
   * `pytest_configure`: registers the summary plugin unless native output is
   * asked for; then, when the cache is consulted, either replays stored
   * results (`--load-test-results`) or sets the cache up; and, when nothing
   * ended the run, stops pytest from running the tests from here.
   */
  method PytestConfigure(config: Config, env: Environment, fs: FileSystem, out: Terminal)
    returns (plugin: CustomSummaryPlugin?, control: RunControl)
    modifies config, fs, out
    ensures plugin != null <==> !config.options.nativeOutput
    ensures plugin != null ==>
      fresh(plugin) && plugin.Valid() && plugin.noWarnings == config.options.noWarnings &&
      plugin.warnings == [] && plugin.failures == [] && plugin.passedTests == []
    ensures control == ConfigureControl(config.options, env, old(fs.dirs), old(fs.files))
    ensures control == Continue ==> !config.runPytest
    ensures control != Continue ==> config.runPytest == old(config.runPytest)
    ensures out.lines == old(out.lines) + ConfigureOutput(config.options, env, old(fs.dirs), old(fs.files))
    ensures fs.files == old(fs.files)
    ensures fs.dirs == if ConfiguredSetup(config.options, env, old(fs.dirs), old(fs.files)) == Some(CreateDir)
      then old(fs.dirs) + {NewCacheManager(config.options, env).value.cacheDir} else old(fs.dirs)
    ensures var s := ConfiguredSetup(config.options, env, old(fs.dirs), old(fs.files));
      if s.Some? && s.value.Restrict? then
        config.lastFailedCache == Some(s.value.lastFailed) && config.lastFailed && config.continueOnCollectionErrors
      else
        config.lastFailedCache == old(config.lastFailedCache) && config.lastFailed == old(config.lastFailed) &&
        config.continueOnCollectionErrors == old(config.continueOnCollectionErrors)
    ensures config.args == old(config.args)
  {
    plugin := null;
    if !config.options.nativeOutput {
      plugin := new CustomSummaryPlugin(config.options);
    }
    var o := config.options;
    if (Given(o.file) || Given(o.database)) && !o.noCacheResults {
      var manager := NewCacheManager(o, env);
      if manager.Err? {
        return plugin, Raise(manager.error);
      }
      var m := manager.value;
      if o.loadTestResults {
        control := LoadTestResults(m, fs, out);
        return;
      }
      control := SetupCache(m, config, fs, out);
      if control != Continue {
        return;
      }
    }
    config.runPytest := false;
    control := Continue;
  }

  // ---------------------------------------------------------------------------
  // After the run

  /** The failed map stored after a run has exactly the failed reports' node ids as keys. */
  lemma FailedMapOfReports(reports: seq<TestReport>)
    ensures forall id :: id in FailedMap(FailedIds(reports)) <==>
      exists i :: 0 <= i < |reports| && reports[i].nodeid == id
    ensures forall id :: id in FailedMap(FailedIds(reports)) ==> FailedMap(FailedIds(reports))[id]
  {
  }

  /** `stats['failed']` as node ids. */
  function FailedIds(reports: seq<TestReport>): (ids: seq<string>)
    ensures |ids| == |reports|
    ensures forall i :: 0 <= i < |reports| ==> ids[i] == reports[i].nodeid
  {
    seq(|reports|, i requires 0 <= i < |reports| => reports[i].nodeid)
  }

  /** The files after the post-run step: it builds a cache manager whatever the options say. */
  function PostRun(o: Options, env: Environment, dirs: set<string>, files: map<Path, FileData>, summary: Option<string>, ids: seq<string>)
    : Result<map<Path, FileData>>
  {
    match NewCacheManager(o, env)
    case Err(e) => Err(e)
    case Ok(m) => PostRunFiles(m, dirs, files, summary, ids)
  }

  function PostRunLines(o: Options, env: Environment, dirs: set<string>, ids: seq<string>): seq<ConsoleLine> {
    match NewCacheManager(o, env)
    case Err(_) => []
    case Ok(m) => PostRunOutput(m, dirs, ids)
  }

  /** `--no-cache-results` switches off the lookup before the run, not the store after it. */
  lemma PostRunIgnoresNoCache(o: Options, env: Environment, dirs: set<string>, files: map<Path, FileData>, summary: Option<string>, ids: seq<string>)
    ensures PostRun(o, env, dirs, files, summary, ids) ==
      PostRun(o.(noCacheResults := !o.noCacheResults), env, dirs, files, summary, ids)
    ensures PostRunLines(o, env, dirs, ids) == PostRunLines(o.(noCacheResults := !o.noCacheResults), env, dirs, ids)
  {
  }

  /** A run given neither a file nor a database ends with the constructor's ValueError. */
  lemma PostRunWithoutInputFails(o: Options, env: Environment, dirs: set<string>, files: map<Path, FileData>, summary: Option<string>, ids: seq<string>)
    requires !Given(o.file) && !Given(o.database)
    ensures PostRun(o, env, dirs, files, summary, ids) == Err(ValueError(NO_INPUT_MESSAGE))
  {
    NoInputRejected(o, env);
  }

  /**
   * When the summary plugin rewrote every failed report, the ids stored as
   * pending are the short test names: none holds "::".
   */
  lemma StoredIdsRewritten(reports: seq<TestReport>)
    requires RewriteStop(reports) == |reports|
    ensures forall id :: id in FailedMap(FailedIds(RewrittenReports(reports))) ==> !Contains(id, ID_SEPARATOR)
  {
    var ids := FailedIds(RewrittenReports(reports));
    forall id | id in FailedMap(ids)
      ensures !Contains(id, ID_SEPARATOR)
    {
      var i :| 0 <= i < |ids| && ids[i] == id;
      RewrittenReportsShape(reports, i);
    }
  }

  /** What the registered plugin's own summary raises: an IndexError when a failed id lacks "::". */
  function PluginError(registered: bool, reports: seq<TestReport>): Option<Error> {
    if registered && RewriteStop(reports) < |reports| then Some(IndexError) else None
  }

  /**
   * `pytest_terminal_summary`, as pytest runs it: the hook wraps the
   * registered plugin's summary (which prints and rewrites the failed
   * reports), and after it, even when it raised, stores the results in the
   * cache. An error of the store replaces the plugin's.
   */
  method TerminalSummary(config: Config, plugin: CustomSummaryPlugin?, env: Environment, fs: FileSystem, out: Terminal, failed: array<TestReport>)
    returns (raised: Option<Error>)
    modifies fs, out, failed
    ensures plugin != null ==> failed[..] == RewrittenReports(old(failed[..]))
    ensures plugin == null ==> failed[..] == old(failed[..])
    ensures out.lines == old(out.lines) + (if plugin != null then plugin.ConsoleText() else []) +
      PostRunLines(config.options, env, old(fs.dirs), FailedIds(failed[..]))
    ensures PostRun(config.options, env, old(fs.dirs), old(fs.files), SummaryOf(plugin), FailedIds(failed[..])).Ok? ==>
      fs.files == PostRun(config.options, env, old(fs.dirs), old(fs.files), SummaryOf(plugin), FailedIds(failed[..])).value
    ensures PostRun(config.options, env, old(fs.dirs), old(fs.files), SummaryOf(plugin), FailedIds(failed[..])).Err? ==>
      fs.files == old(fs.files)
    ensures raised ==
      if PostRun(config.options, env, old(fs.dirs), old(fs.files), SummaryOf(plugin), FailedIds(failed[..])).Err?
      then Some(PostRun(config.options, env, old(fs.dirs), old(fs.files), SummaryOf(plugin), FailedIds(failed[..])).error)
      else PluginError(plugin != null, old(failed[..]))
    ensures fs.dirs == old(fs.dirs)
  {
    var pluginError: Option<Error> := None;
    ghost var start := out.lines;
    if plugin != null {
      pluginError := plugin.TerminalSummary(out, failed);
    }
    ghost var shown := out.lines;
    var ids := FailedIds(failed[..]);
    var manager := NewCacheManager(config.options, env);
    if manager.Err? {
      assert out.lines == shown + [];
      return Some(manager.error);
    }
    var postError := HandleCachePostRun(manager.value, plugin, fs, out, ids);
    raised := if postError != None then postError else pluginError;
  }
}

/**
 * The result cache of a datacheck run (plugin/cache_manager.py). A run on an
 * input file or database gets its own cache directory; in it a results file
 * keeps the last summary and `cache.pkl` keeps the ids of the tests that
 * failed last time. Before a run the cache decides whether to replay the
 * stored summary, to rerun only the failed tests, or to run everything;
 * after a run it stores the new summary and failures.
 */
module CacheManagement {
  import opened Wrappers
  import opened Strings
  import opened Host
  import opened CustomSummary

  const BASE_DIR: string := "/hps/nobackup/flicek/ensembl/production/datachecks/python_dc"
  const NO_INPUT_MESSAGE: string := "Either --file or --database must be provided."
  const CACHE_FILE_NAME: string := "cache.pkl"
  const RESULTS_SUFFIX: string := "_results.txt"
  const RESULTS_FILE_NAME: string := "results.txt"
  const USING_CACHED: string := "Using cached results:"
  const USING_CACHED_EXIT: string := "Using cached results, exiting."
  const LOADING_PREVIOUS: string := "Loading previous test results:"
  const LOADED_EXIT: string := "Previous test results loaded, exiting."
  const NO_PREVIOUS: string := "No previous test results found for "
  const CREATED_DIR: string := "Created cache directory at: "
  const DELETING_CACHE: string := "All tests passed. Deleting cache file: "

  /**
   * What the cache directory is computed from: the bytes of each readable
   * input file, the xxh64 hex digest (left abstract), and for each reachable
   * database URL the `strftime('%Y%m%d%H%M%S')` text of its newest table
   * update, None when the query returns no time.
   */
  datatype Environment = Environment(
    fileBytes: map<string, seq<byte>>,
    digest: seq<byte> -> string,
    lastUpdate: map<string, Option<string>>)

  /** A `CacheManager` once constructed: its options and its cache directory. */
  datatype CacheManager = CacheManager(filePath: Option<string>, testName: string, databaseUrl: Option<string>, cacheDir: string)

  /** How `pytest.exit` or an exception ends `pytest_configure`, or that it returns. */
  datatype RunControl = Continue | Exit(reason: string) | Raise(error: Error)

  // ---------------------------------------------------------------------------
  // The cache directory

  /**
   * `get_cache_dir`: a file is fingerprinted by its digest; a database by its
   * server, its name and its last update time, in that order of failure: the
   * connection, the missing time (`None.strftime`), then the URL without '@'.
   */
  function CacheDirFor(filePath: Option<string>, databaseUrl: Option<string>, env: Environment): Result<string> {
    if Given(filePath) then
      if filePath.value in env.fileBytes then Ok(BASE_DIR + "/" + env.digest(env.fileBytes[filePath.value]))
      else Err(UnavailableInput(filePath.value))
    else if Given(databaseUrl) then
      var url := databaseUrl.value;
      if url !in env.lastUpdate then Err(UnavailableInput(url))
      else match env.lastUpdate[url]
        case None => Err(AttributeError)
        case Some(stamp) =>
          var atParts := Split(url, "@");
          if |atParts| < 2 then Err(IndexError)
          else
            var server := Split(atParts[1], "/")[0];
            var dbName := LastOf(Split(url, "/"));
            Ok(BASE_DIR + "/" + server + "/" + dbName + "/" + stamp)
    else Err(ValueError(NO_INPUT_MESSAGE))
  }

  /** `CacheManager(config)`: the constructor fails as `get_cache_dir` does. */
  function NewCacheManager(options: Options, env: Environment): (r: Result<CacheManager>)
    ensures r.Ok? <==> CacheDirFor(options.file, options.database, env).Ok?
    ensures r.Ok? ==> r.value.cacheDir == CacheDirFor(options.file, options.database, env).value
    ensures r.Ok? ==> r.value.filePath == options.file && r.value.testName == options.test && r.value.databaseUrl == options.database
    ensures r.Err? ==> r.error == CacheDirFor(options.file, options.database, env).error
  {
    match CacheDirFor(options.file, options.database, env)
    case Ok(dir) => Ok(CacheManager(options.file, options.test, options.database, dir))
    case Err(e) => Err(e)
  }

  /** Neither input given: the constructor raises the ValueError. */
  lemma NoInputRejected(options: Options, env: Environment)
    requires !Given(options.file) && !Given(options.database)
    ensures NewCacheManager(options, env) == Err(ValueError(NO_INPUT_MESSAGE))
  {
  }

  /** A given file wins: the database option is then never looked at. */
  lemma FileTakesPrecedence(filePath: Option<string>, databaseUrl: Option<string>, env: Environment)
    requires Given(filePath)
    ensures CacheDirFor(filePath, databaseUrl, env) == CacheDirFor(filePath, None, env)
  {
  }

  /** Files with the same bytes share a cache directory, whatever their names. */
  lemma SameContentsSameDir(f1: string, f2: string, db1: Option<string>, db2: Option<string>, env: Environment)
    requires f1 != "" && f2 != "" && f1 in env.fileBytes && f2 in env.fileBytes
    requires env.fileBytes[f1] == env.fileBytes[f2]
    ensures CacheDirFor(Some(f1), db1, env) == CacheDirFor(Some(f2), db2, env)
  {
  }

  /** Files whose digests differ get different cache directories. */
  lemma DifferentDigestsDifferentDirs(f1: string, f2: string, env: Environment)
    requires f1 != "" && f2 != "" && f1 in env.fileBytes && f2 in env.fileBytes
    requires env.digest(env.fileBytes[f1]) != env.digest(env.fileBytes[f2])
    ensures CacheDirFor(Some(f1), None, env).Ok? && CacheDirFor(Some(f2), None, env).Ok?
    ensures CacheDirFor(Some(f1), None, env).value != CacheDirFor(Some(f2), None, env).value
  {
    var prefix := BASE_DIR + "/";
    var d1 := env.digest(env.fileBytes[f1]);
    var d2 := env.digest(env.fileBytes[f2]);
    assert (prefix + d1)[|prefix|..] == d1;
    assert (prefix + d2)[|prefix|..] == d2;
  }

  /**
   * A URL of the form `<scheme and user>@<server>/<database>`: the directory
   * is `<base>/<server>/<database>/<time>`.
   */
  lemma DatabaseDir(scheme: string, server: string, db: string, stamp: string, env: Environment)
    requires '@' !in scheme && '@' !in server && '@' !in db && '/' !in server && '/' !in db
    requires scheme + "@" + server + "/" + db != ""
    requires scheme + "@" + server + "/" + db in env.lastUpdate
    requires env.lastUpdate[scheme + "@" + server + "/" + db] == Some(stamp)
    ensures CacheDirFor(None, Some(scheme + "@" + server + "/" + db), env) ==
      Ok(BASE_DIR + "/" + server + "/" + db + "/" + stamp)
  {
    var rest := server + "/" + db;
    var url := scheme + "@" + server + "/" + db;
    assert url == scheme + "@" + rest;
    NoEarlyOccurrenceFreeChar(scheme, "@", rest);
    SplitAt(scheme, "@", rest);
    ContainsSingle(rest, '@');
    SplitWithout(rest, "@");
    assert Split(url, "@") == [scheme, rest];
    NoEarlyOccurrenceFreeChar(server, "/", db);
    SplitAt(server, "/", db);
    assert Split(rest, "/")[0] == server;
    ContainsSingle(db, '/');
    LastOfSplit(scheme + "@" + server, "/", db);
  }

  // ---------------------------------------------------------------------------
  // The files in the cache directory

  /** The last piece of a path that is neither empty nor ".", as pathlib takes a name. */
  function LastComponent(parts: seq<string>): string {
    if parts == [] then ""
    else if LastOf(parts) != "" && LastOf(parts) != "." then LastOf(parts)
    else LastComponent(parts[..|parts| - 1])
  }

  /** `s.rfind(c)`. */
  function RFind(s: string, c: char): (r: int)
    ensures -1 <= r < |s|
    ensures r >= 0 ==> s[r] == c
    ensures forall j :: r < j < |s| ==> s[j] != c
  {
    if s == [] then -1
    else if s[|s| - 1] == c then |s| - 1
    else RFind(s[..|s| - 1], c)
  }

  /** `pathlib.Path(path).stem`: the name without its last suffix. */
  function Stem(path: string): string {
    var name := LastComponent(Split(path, "/"));
    var i := RFind(name, '.');
    if 0 < i < |name| - 1 then name[..i] else name
  }

  /** `dir/base.ext` has stem `base`, even when `base` has dots of its own. */
  lemma StemOfFile(dir: string, base: string, ext: string)
    requires base != "" && ext != ""
    requires '/' !in base && '/' !in ext && '.' !in ext
    ensures Stem(dir + "/" + base + "." + ext) == base
  {
    var name := base + "." + ext;
    assert dir + "/" + base + "." + ext == dir + "/" + name;
    assert '/' !in name by {
      forall i | 0 <= i < |name| ensures name[i] != '/' {
        if i < |base| { assert name[i] == base[i]; }
        else if i > |base| { assert name[i] == ext[i - |base| - 1]; }
      }
    }
    ContainsSingle(name, '/');
    LastOfSplit(dir, "/", name);
    assert LastComponent(Split(dir + "/" + name, "/")) == name;
    assert name[|base|] == '.';
    forall j | |base| < j < |name| ensures name[j] != '.' {
      assert name[j] == ext[j - |base| - 1];
    }
    assert RFind(name, '.') == |base|;
    assert name[..|base|] == base;
  }

  /** `get_results_file`: `<stem>_results.txt` for a file, `results.txt` for a database. */
  function ResultsFile(m: CacheManager): Path {
    if Given(m.filePath) then Path(m.cacheDir, Stem(m.filePath.value) + RESULTS_SUFFIX)
    else Path(m.cacheDir, RESULTS_FILE_NAME)
  }

  function CacheFile(m: CacheManager): Path {
    Path(m.cacheDir, CACHE_FILE_NAME)
  }

  /** Both files sit in the cache directory, and they are never the same file. */
  lemma CacheFilesDistinct(m: CacheManager)
    ensures ResultsFile(m).dir == m.cacheDir && CacheFile(m).dir == m.cacheDir
    ensures ResultsFile(m) != CacheFile(m)
  {
    assert |CacheFile(m).name| == 9;
    assert |ResultsFile(m).name| >= 11;
  }

  /** The results file of `dir/base.ext` is `<cache dir>/base_results.txt`. */
  lemma ResultsFileOfInput(m: CacheManager, dir: string, base: string, ext: string)
    requires m.filePath == Some(dir + "/" + base + "." + ext)
    requires base != "" && ext != ""
    requires '/' !in base && '/' !in ext && '.' !in ext
    ensures ResultsFile(m) == Path(m.cacheDir, base + RESULTS_SUFFIX)
  {
    StemOfFile(dir, base, ext);
  }

  // ---------------------------------------------------------------------------
  // Before the run

  /** What `setup_cache` does, as decided by what is in the cache directory. */
  datatype SetupAction =
    | CreateDir
    | Replay(report: string)
    | ReplayUnreadable
    | Restrict(lastFailed: map<string, bool>)
    | RestrictUnreadable
    | RunAll

  /**
   * A stored summary is replayed only when no failures are pending; pending
   * failures restrict the run to them whether or not a summary exists. A
   * results file that holds a pickle fails to decode; a `cache.pkl` that
   * holds text fails to unpickle.
   */
  function SetupDecision(m: CacheManager, dirs: set<string>, files: map<Path, FileData>): SetupAction {
    var results := ResultsFile(m);
    var cache := CacheFile(m);
    if m.cacheDir !in dirs then CreateDir
    else if results in files && cache !in files then
      match files[results]
      case Text(t) => Replay(t)
      case Pickle(_) => ReplayUnreadable
    else if cache in files then
      match files[cache]
      case Pickle(lastFailed) => Restrict(lastFailed)
      case Text(_) => RestrictUnreadable
    else RunAll
  }

  /** How the hook ends after each action. */
  function SetupControl(a: SetupAction): RunControl {
    match a
    case Replay(_) => Exit(USING_CACHED_EXIT)
    case ReplayUnreadable => Raise(UnicodeDecodeError)
    case RestrictUnreadable => Raise(UnpicklingError)
    case _ => Continue
  }

  /** What each action prints. */
  function SetupOutput(m: CacheManager, a: SetupAction): seq<ConsoleLine> {
    match a
    case CreateDir => [Printed(CREATED_DIR + m.cacheDir)]
    case Replay(t) => [Printed(USING_CACHED), Printed(t)]
    case ReplayUnreadable => [Printed(USING_CACHED)]
    case Restrict(lastFailed) => [LastFailedNotice(lastFailed)]
    case _ => []
  }

  /** A summary is replayed exactly when it is stored as text and no failures are pending. */
  lemma ReplayExactly(m: CacheManager, dirs: set<string>, files: map<Path, FileData>, t: string)
    ensures SetupDecision(m, dirs, files) == Replay(t) <==>
      m.cacheDir in dirs && CacheFile(m) !in files && ResultsFile(m) in files && files[ResultsFile(m)] == Text(t)
  {
  }

  /** Pending failures restrict the run to them, whether or not a summary is stored. */
  lemma PendingFailuresRestrict(m: CacheManager, dirs: set<string>, files: map<Path, FileData>)
    requires m.cacheDir in dirs && CacheFile(m) in files && files[CacheFile(m)].Pickle?
    ensures SetupDecision(m, dirs, files) == Restrict(files[CacheFile(m)].mapping)
    ensures SetupControl(SetupDecision(m, dirs, files)) == Continue
  {
  }

  /** A directory just created holds nothing, so the next decision is to run everything. */
  lemma CreatedDirRunsAll(m: CacheManager, dirs: set<string>, files: map<Path, FileData>)
    requires m.cacheDir !in dirs
    requires forall p :: p in files ==> p.dir in dirs
    ensures SetupDecision(m, dirs, files) == CreateDir
    ensures SetupDecision(m, dirs + {m.cacheDir}, files) == RunAll
  {
    CacheFilesDistinct(m);
  }

  /**
   * `setup_cache`, on the decision: replay and exit, restrict the run to the
   * failures last stored (through `--lf`, continuing on collection errors),
   * create the directory, or leave the run as it is.
   */
  method SetupCache(m: CacheManager, config: Config, fs: FileSystem, out: Terminal) returns (control: RunControl)
    modifies config, fs, out
    ensures control == SetupControl(SetupDecision(m, old(fs.dirs), old(fs.files)))
    ensures out.lines == old(out.lines) + SetupOutput(m, SetupDecision(m, old(fs.dirs), old(fs.files)))
    ensures fs.files == old(fs.files)
    ensures fs.dirs == if SetupDecision(m, old(fs.dirs), old(fs.files)) == CreateDir then old(fs.dirs) + {m.cacheDir} else old(fs.dirs)
    ensures SetupDecision(m, old(fs.dirs), old(fs.files)).Restrict? ==>
      config.lastFailedCache == Some(SetupDecision(m, old(fs.dirs), old(fs.files)).lastFailed) &&
      config.lastFailed && config.continueOnCollectionErrors
    ensures !SetupDecision(m, old(fs.dirs), old(fs.files)).Restrict? ==>
      config.lastFailedCache == old(config.lastFailedCache) && config.lastFailed == old(config.lastFailed) &&
      config.continueOnCollectionErrors == old(config.continueOnCollectionErrors)
    ensures config.args == old(config.args) && config.runPytest == old(config.runPytest)
  {
    var resultsFile := ResultsFile(m);
    var cacheFile := CacheFile(m);
    if m.cacheDir in fs.dirs {
      if resultsFile in fs.files && cacheFile !in fs.files {
        out.Print(USING_CACHED);
        match fs.files[resultsFile]
        case Text(t) =>
          out.Print(t);
          return Exit(USING_CACHED_EXIT);
        case Pickle(_) =>
          return Raise(UnicodeDecodeError);
      }
      if cacheFile in fs.files {
        match fs.files[cacheFile]
        case Pickle(lastFailed) =>
          config.lastFailedCache := Some(lastFailed);
          config.lastFailed := true;
          config.continueOnCollectionErrors := true;
          out.PrintLastFailed(lastFailed);
        case Text(_) =>
          return Raise(UnpicklingError);
      }
      return Continue;
    } else {
      fs.MakeDir(m.cacheDir);
      out.Print(CREATED_DIR + m.cacheDir);
      return Continue;
    }
  }

  /** `self.file_path or self.database_url`, as the message shows it. */
  function InputName(m: CacheManager): string {
    if Given(m.filePath) then m.filePath.value
    else match m.databaseUrl
      case Some(url) => url
      case None => "None"
  }

  /** `load_test_results` never lets the run go on: it exits with the summary, or raises. */
  function LoadControl(m: CacheManager, files: map<Path, FileData>): (r: RunControl)
    ensures r != Continue
    ensures r == Exit(LOADED_EXIT) <==> ResultsFile(m) in files && files[ResultsFile(m)].Text?
    ensures ResultsFile(m) !in files ==> r == Raise(FileNotFoundError(NO_PREVIOUS + InputName(m)))
  {
    if ResultsFile(m) in files then
      match files[ResultsFile(m)]
      case Text(_) => Exit(LOADED_EXIT)
      case Pickle(_) => Raise(UnicodeDecodeError)
    else Raise(FileNotFoundError(NO_PREVIOUS + InputName(m)))
  }

  /** What `load_test_results` prints: the stored summary after a heading, when there is one. */
  function LoadOutput(m: CacheManager, files: map<Path, FileData>): seq<ConsoleLine> {
    if ResultsFile(m) in files then
      match files[ResultsFile(m)]
      case Text(t) => [Printed(LOADING_PREVIOUS), Printed(t)]
      case Pickle(_) => [Printed(LOADING_PREVIOUS)]
    else []
  }

  /** `load_test_results`: show the stored summary and exit, or raise FileNotFoundError. */
  method LoadTestResults(m: CacheManager, fs: FileSystem, out: Terminal) returns (control: RunControl)
    modifies out
    ensures control == LoadControl(m, fs.files)
    ensures out.lines == old(out.lines) + LoadOutput(m, fs.files)
  {
    var resultsFile := ResultsFile(m);
    if resultsFile in fs.files {
      out.Print(LOADING_PREVIOUS);
      match fs.files[resultsFile]
      case Text(t) =>
        out.Print(t);
        return Exit(LOADED_EXIT);
      case Pickle(_) =>
        return Raise(UnicodeDecodeError);
    }
    return Raise(FileNotFoundError(NO_PREVIOUS + InputName(m)));
  }

  // ---------------------------------------------------------------------------
  // After the run

  /** `{item.nodeid: True for item in last_failed}`. */
  function FailedMap(ids: seq<string>): (r: map<string, bool>)
    ensures forall id :: id in r <==> id in ids
    ensures forall id :: id in r ==> r[id]
    ensures r == map[] <==> ids == []
  {
    var r := map id | id in ids :: true;
    assert ids != [] ==> ids[0] in r;
    r
  }

  /** The summary the registered plugin would write, if it is registered. */
  function SummaryOf(plugin: CustomSummaryPlugin?): Option<string>
    reads plugin
  {
    if plugin == null then None else Some(plugin.SummaryText())
  }

  /**
   * The files after `handle_cache_post_run`: the summary written (when the
   * plugin is registered), the failed ids pickled, and the pickle deleted
   * again when nothing failed. Everything fails when the directory is gone.
   */
  function PostRunFiles(m: CacheManager, dirs: set<string>, files: map<Path, FileData>, summary: Option<string>, ids: seq<string>): Result<map<Path, FileData>> {
    if m.cacheDir !in dirs then
      Err(FileNotFoundError(PathString(if summary.Some? then ResultsFile(m) else CacheFile(m))))
    else
      var written := if summary.Some? then files[ResultsFile(m) := Text(summary.value)] else files;
      var saved := written[CacheFile(m) := Pickle(FailedMap(ids))];
      Ok(if ids == [] then saved - {CacheFile(m)} else saved)
  }

  /** What `handle_cache_post_run` prints: the deletion notice, when nothing failed. */
  function PostRunOutput(m: CacheManager, dirs: set<string>, ids: seq<string>): seq<ConsoleLine> {
    if m.cacheDir in dirs && ids == [] then [Printed(DELETING_CACHE + PathString(CacheFile(m)))] else []
  }

  /**
   * After a run, failures are pending exactly when some test failed, as a
   * pickle holding exactly the failed ids; the summary is stored when it was
   * written; no other file changes.
   */
  lemma PostRunRecordsFailures(m: CacheManager, dirs: set<string>, files: map<Path, FileData>, summary: Option<string>, ids: seq<string>)
    requires m.cacheDir in dirs
    ensures PostRunFiles(m, dirs, files, summary, ids).Ok?
    ensures CacheFile(m) in PostRunFiles(m, dirs, files, summary, ids).value <==> ids != []
    ensures ids != [] ==> PostRunFiles(m, dirs, files, summary, ids).value[CacheFile(m)] == Pickle(FailedMap(ids))
    ensures summary.Some? ==> PostRunFiles(m, dirs, files, summary, ids).value[ResultsFile(m)] == Text(summary.value)
    ensures forall p :: p != CacheFile(m) && (summary.None? || p != ResultsFile(m)) ==>
      (p in PostRunFiles(m, dirs, files, summary, ids).value <==> p in files) &&
      (p in files ==> PostRunFiles(m, dirs, files, summary, ids).value[p] == files[p])
  {
    CacheFilesDistinct(m);
  }

  /**
   * What the next run decides from the files a run leaves: restrict to the
   * failures if any; otherwise replay the summary just written; otherwise
   * what the cache decided before, without pending failures.
   */
  lemma NextSetupAfterPostRun(m: CacheManager, dirs: set<string>, files: map<Path, FileData>, summary: Option<string>, ids: seq<string>)
    requires m.cacheDir in dirs
    ensures PostRunFiles(m, dirs, files, summary, ids).Ok?
    ensures SetupDecision(m, dirs, PostRunFiles(m, dirs, files, summary, ids).value) ==
      if ids != [] then Restrict(FailedMap(ids))
      else if summary.Some? then Replay(summary.value)
      else SetupDecision(m, dirs, files - {CacheFile(m)})
  {
    CacheFilesDistinct(m);
    PostRunRecordsFailures(m, dirs, files, summary, ids);
  }

  /**
   * The cache's life cycle: a run with failures makes the next run rerun just
   * those; once that run passes, the run after it replays its summary, and
   * no failures remain pending.
   */
  lemma RetryThenReplay(m: CacheManager, dirs: set<string>, files: map<Path, FileData>, s1: string, ids: seq<string>, s2: string)
    requires m.cacheDir in dirs && ids != []
    ensures PostRunFiles(m, dirs, files, Some(s1), ids).Ok?
    ensures SetupDecision(m, dirs, PostRunFiles(m, dirs, files, Some(s1), ids).value) == Restrict(FailedMap(ids))
    ensures PostRunFiles(m, dirs, PostRunFiles(m, dirs, files, Some(s1), ids).value, Some(s2), []).Ok?
    ensures SetupDecision(m, dirs, PostRunFiles(m, dirs, PostRunFiles(m, dirs, files, Some(s1), ids).value, Some(s2), []).value) == Replay(s2)
  {
    NextSetupAfterPostRun(m, dirs, files, Some(s1), ids);
    var f1 := PostRunFiles(m, dirs, files, Some(s1), ids).value;
    NextSetupAfterPostRun(m, dirs, f1, Some(s2), []);
  }

  /** A run of which nothing is written fails as soon as the directory is gone. */
  lemma PostRunWithoutDir(m: CacheManager, dirs: set<string>, files: map<Path, FileData>, summary: Option<string>, ids: seq<string>)
    requires m.cacheDir !in dirs
    ensures PostRunFiles(m, dirs, files, summary, ids).Err?
    ensures PostRunFiles(m, dirs, files, summary, ids).error.FileNotFoundError?
  {
  }

  /** `CacheManager.write_summary_to_file`: delegates to the plugin when it is registered. */
  method WriteSummaryToFile(plugin: CustomSummaryPlugin?, fs: FileSystem, resultsFile: Path) returns (raised: Option<Error>)
    modifies fs
    ensures raised == None <==> SummaryOf(plugin).None? || resultsFile.dir in old(fs.dirs)
    ensures raised != None ==> raised == Some(FileNotFoundError(PathString(resultsFile))) && fs.files == old(fs.files)
    ensures raised == None && SummaryOf(plugin).Some? ==> fs.files == old(fs.files)[resultsFile := Text(SummaryOf(plugin).value)]
    ensures raised == None && SummaryOf(plugin).None? ==> fs.files == old(fs.files)
    ensures fs.dirs == old(fs.dirs)
  {
    raised := None;
    if plugin != null {
      raised := plugin.WriteSummaryToFile(fs, resultsFile);
    }
  }

  /** `save_cache`: pickle the failed ids into `cache.pkl`. */
  method SaveCache(m: CacheManager, fs: FileSystem, failedIds: seq<string>) returns (raised: Option<Error>)
    modifies fs
    ensures raised == None <==> m.cacheDir in old(fs.dirs)
    ensures raised != None ==> raised == Some(FileNotFoundError(PathString(CacheFile(m)))) && fs.files == old(fs.files)
    ensures raised == None ==> fs.files == old(fs.files)[CacheFile(m) := Pickle(FailedMap(failedIds))]
    ensures fs.dirs == old(fs.dirs)
  {
    raised := fs.Write(CacheFile(m), Pickle(FailedMap(failedIds)));
  }

  /** `cleanup_cache_if_all_passed`: with no failures, delete `cache.pkl` if it is there. */
  method CleanupCacheIfAllPassed(m: CacheManager, fs: FileSystem, out: Terminal, failedIds: seq<string>) returns (raised: Option<Error>)
    modifies fs, out
    ensures raised == None
    ensures fs.files == if failedIds == [] then old(fs.files) - {CacheFile(m)} else old(fs.files)
    ensures fs.dirs == old(fs.dirs)
    ensures out.lines == old(out.lines) +
      if failedIds == [] && CacheFile(m) in old(fs.files) then [Printed(DELETING_CACHE + PathString(CacheFile(m)))] else []
  {
    raised := None;
    var cacheFile := CacheFile(m);
    if failedIds == [] && cacheFile in fs.files {
      out.Print(DELETING_CACHE + PathString(cacheFile));
      raised := fs.Unlink(cacheFile);
    }
  }

  /** `handle_cache_post_run`: write the summary, save the failures, clean up. */
  method HandleCachePostRun(m: CacheManager, plugin: CustomSummaryPlugin?, fs: FileSystem, out: Terminal, failedIds: seq<string>)
    returns (raised: Option<Error>)
    modifies fs, out
    ensures raised == None <==> PostRunFiles(m, old(fs.dirs), old(fs.files), SummaryOf(plugin), failedIds).Ok?
    ensures raised == None ==> fs.files == PostRunFiles(m, old(fs.dirs), old(fs.files), SummaryOf(plugin), failedIds).value
    ensures raised != None ==>
      raised == Some(PostRunFiles(m, old(fs.dirs), old(fs.files), SummaryOf(plugin), failedIds).error) &&
      fs.files == old(fs.files)
    ensures fs.dirs == old(fs.dirs)
    ensures out.lines == old(out.lines) + PostRunOutput(m, old(fs.dirs), failedIds)
  {
    CacheFilesDistinct(m);
    var resultsFile := ResultsFile(m);
    raised := WriteSummaryToFile(plugin, fs, resultsFile);
    if raised != None {
      return;
    }
    raised := SaveCache(m, fs, failedIds);
    if raised != None {
      return;
    }
    raised := CleanupCacheIfAllPassed(m, fs, out, failedIds);
  }
}

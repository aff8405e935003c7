/**
 * The parts of the host the plugin talks to: pytest's test reports, its
 * terminal writer and configuration, and the file system under the cache
 * directory. Each keeps only the state the plugin reads or changes.
 */
module Host {
  import opened Wrappers

  // ---------------------------------------------------------------------------
  // Test reports

  datatype Outcome = Passed | Failed | Skipped

  /** `report.when`: the phase of the test the report is about. */
  datatype Phase = Setup | Call | Teardown

  /** `report.location`: (file path, line number, test name). */
  datatype Location = Location(path: string, lineNumber: Option<nat>, testName: string)

  /**
   * `report.longrepr`: either an object whose `str` is the given text, or a
   * tuple whose elements render as the given strings.
   */
  datatype Longrepr = TextRepr(text: string) | TupleRepr(items: seq<string>)

  datatype TestReport = TestReport(nodeid: string, outcome: Outcome, when: Phase, location: Location, longrepr: Longrepr)

  // ---------------------------------------------------------------------------
  // Command-line options and configuration

  /** The options the datacheck plugin adds; `file` and `database` default to None. */
  datatype Options = Options(
    file: Option<string>,
    test: string,
    database: Option<string>,
    noWarnings: bool,
    nativeOutput: bool,
    noCacheResults: bool,
    loadTestResults: bool)

  /** Python truthiness of an optional string: given and not empty. */
  predicate Given(o: Option<string>) {
    o.Some? && o.value != ""
  }

  /** The parts of `pytest.Config` the hooks read or set. */
  class Config {
    const options: Options
    /** `config.args`: the paths pytest will collect from. */
    var args: seq<string>
    /** `config.cache` entry "cache/lastfailed", when one was set. */
    var lastFailedCache: Option<map<string, bool>>
    /** `config.option.last_failed` (`--lf`). */
    var lastFailed: bool
    /** `config.option.continue_on_collection_errors`. */
    var continueOnCollectionErrors: bool
    /** `config.option.runpytest`. */
    var runPytest: bool

    constructor (options: Options, args: seq<string>)
      ensures this.options == options && this.args == args
      ensures lastFailedCache == None && !lastFailed && !continueOnCollectionErrors && runPytest
    {
      this.options := options;
      this.args := args;
      lastFailedCache := None;
      lastFailed := false;
      continueOnCollectionErrors := false;
      runPytest := true;
    }
  }

  // ---------------------------------------------------------------------------
  // Console

  /**
   * A line on the console: a `print` call, a `write_sep` banner, a
   * `write_line`, or the printed notice of the last-failed mapping.
   */
  datatype ConsoleLine =
    | Printed(text: string)
    | Banner(fill: char, title: string)
    | Line(text: string)
    | LastFailedNotice(mapping: map<string, bool>)

  /** Standard output and pytest's terminal writer, as the sequence of lines written. */
  class Terminal {
    var lines: seq<ConsoleLine>

    constructor ()
      ensures lines == []
    {
      lines := [];
    }

    /** `terminalreporter.write_sep(fill, title)`. */
    method WriteSep(fill: char, title: string)
      modifies this
      ensures lines == old(lines) + [Banner(fill, title)]
    {
      lines := lines + [Banner(fill, title)];
    }

    /** `terminalreporter.write_line(text)`. */
    method WriteLine(text: string)
      modifies this
      ensures lines == old(lines) + [Line(text)]
    {
      lines := lines + [Line(text)];
    }

    /** `print(f"Loading last failed tests from cache: {mapping}")`; the dict's repr is kept as the mapping. */
    method PrintLastFailed(mapping: map<string, bool>)
      modifies this
      ensures lines == old(lines) + [LastFailedNotice(mapping)]
    {
      lines := lines + [LastFailedNotice(mapping)];
    }

    /** `print(text)`. */
    method Print(text: string)
      modifies this
      ensures lines == old(lines) + [Printed(text)]
    {
      lines := lines + [Printed(text)];
    }
  }

  // ---------------------------------------------------------------------------
  // Files

  /** A file named `name` directly inside directory `dir`. */
  datatype Path = Path(dir: string, name: string)

  /** `str(path)`. */
  function PathString(p: Path): string {
    p.dir + "/" + p.name
  }

  /** A file's contents: text, or a pickled mapping read back exactly. */
  datatype FileData = Text(text: string) | Pickle(mapping: map<string, bool>)

  /** The directories that exist and the files inside them. */
  class FileSystem {
    var dirs: set<string>
    var files: map<Path, FileData>

    constructor (dirs: set<string>, files: map<Path, FileData>)
      ensures this.dirs == dirs && this.files == files
    {
      this.dirs := dirs;
      this.files := files;
    }

    /** `path.mkdir(parents=True)` on a directory that does not exist yet. */
    method MakeDir(dir: string)
      modifies this
      ensures dirs == old(dirs) + {dir} && files == old(files)
    {
      dirs := dirs + {dir};
    }

    /** `open(path, mode)` then writes: replaces the file, or fails when its directory is missing. */
    method Write(p: Path, data: FileData) returns (raised: Option<Error>)
      modifies this
      ensures raised == None <==> p.dir in old(dirs)
      ensures raised != None ==> raised == Some(FileNotFoundError(PathString(p))) && files == old(files)
      ensures raised == None ==> files == old(files)[p := data]
      ensures dirs == old(dirs)
    {
      if p.dir !in dirs {
        return Some(FileNotFoundError(PathString(p)));
      }
      files := files[p := data];
      return None;
    }

    /** `path.unlink()`: removes the file, or fails when there is none. */
    method Unlink(p: Path) returns (raised: Option<Error>)
      modifies this
      ensures raised == None <==> p in old(files)
      ensures raised != None ==> raised == Some(FileNotFoundError(PathString(p)))
      ensures files == old(files) - {p} && dirs == old(dirs)
    {
      if p !in files {
        return Some(FileNotFoundError(PathString(p)));
      }
      files := files - {p};
      return None;
    }
  }

  /** A file opened for writing: the text written to it so far. */
  class TextFile {
    var text: string

    constructor ()
      ensures text == ""
    {
      text := "";
    }

    /** `file.write(s)`. */
    method Write(s: string)
      modifies this
      ensures text == old(text) + s
    {
      text := text + s;
    }
  }
}

# ensembl-datacheck: the check runner, its result cache and its line validators

This project models the core of `ensembl-datacheck` in Dafny. `ensembl-datacheck` is a pytest plugin that runs data checks on an Ensembl input: a FASTA or VCF file, or a database. The model covers four parts.

- **The result cache** (`CacheManagement`, `PytestHooks`). An input gets a cache directory. For a file, the directory name is a digest of the file's bytes. For a database, it is the server, the database name and the time of the last table update. The directory holds the last summary (`<stem>_results.txt` or `results.txt`) and the ids of the tests that failed last time (`cache.pkl`).
  - Before a run, the cache decides one of three things. It replays the stored summary and exits, or it restricts the run to the pending failures through pytest's `--lf`, or it runs everything, creating the directory first when it is missing.
  - After a run, it writes the summary, pickles the failed ids, and deletes the pickle again when nothing failed.
- **The summary plugin** (`CustomSummary`, and the older variant in `LegacyPlugin`). A class with append-only lists and counters, fed one test report at a time.
  - It prints coloured console sections: warnings, passed, failures.
  - It writes uncoloured file sections in another order: warnings, failures, passed.
  - It extracts the assertion message from a failure, formats passed ids, and rewrites the node ids of failed reports.
- **The FASTA and VCF line validators** (`ContentChecks`, `LegacyContentChecks`) and the checks built on them (`FastaChecks`, `VcfChecks`, `LegacyFastaTests`). These cover:
  - long-line reporting;
  - nucleotide/protein classification by the first deciding character;
  - the first line with a disallowed character (1-based, headers counted);
  - the trailing-newline test on the file's bytes.
- **Small text rules:**
  - the `EnsemblDatacheckWarning` text (`Utils`);
  - the warning format installed by `pytest_configure`;
  - the `check_` collection rule;
  - the `--test` argument rewriting;
  - the `ensembl-datacheck` command's argument list (`Runner`).

## How the host is represented

- A file is a sequence of lines for the line validators, and a sequence of bytes for the newline test.
- The text-file probe (`is_text_file`) is a boolean input.
- The host is modelled in module `Host`:
  - pytest's configuration is a class whose fields the hooks set: `args`, the last-failed cache entry, `last_failed`, `continue_on_collection_errors` and `runpytest`;
  - the terminal is a class holding the sequence of lines written to it;
  - the file system is a class holding the existing directories and a map from path to file contents. A file holds either a text or a pickled mapping.
- The digest, the database's last-update text and file reading are the fields of an `Environment` value.
  - An unreadable file or unreachable database gives an `UnavailableInput` error.
  - A query that returns no time gives the `AttributeError` of `None.strftime`.
- `pytest.exit` and raised exceptions are a `RunControl` result: `Continue`, `Exit(reason)` or `Raise(error)`.

## Behaviour worth knowing

Each point follows from the program's own text, and the model keeps it as written.

- **`--no-cache-results`.** Its help text reads "Disable caching of results" (src/ensembl/datacheck/plugin/pytest_hooks.py:38). The flag is tested only where configure decides whether to consult the cache (pytest_hooks.py:133). The post-run hook builds a cache manager and stores the results unconditionally (pytest_hooks.py:180-182; `PytestHooks.PostRunIgnoresNoCache`).
- **No input.** That post-run hook also runs without `--file` and `--database`. The cache manager's constructor then raises `ValueError("Either --file or --database must be provided.")` (cache_manager.py:76-77), after the summary is printed (`PytestHooks.PostRunWithoutInputFails`).
- **Both inputs given.** This is not rejected. `get_cache_dir` tests `self.file_path` first (cache_manager.py:58), so the file wins (`CacheManagement.FileTakesPrecedence`).
- **Corrupt cache files are not treated as absent.**
  - `pickle.load` is called with no handler around it (cache_manager.py:110-111), so a `cache.pkl` that does not unpickle raises.
  - `read_text` is called the same way (cache_manager.py:106), so a results file that does not decode as text raises.
  - The model keeps both error paths (`ReplayUnreadable`, `RestrictUnreadable`).
- **Storage errors are not logged and swallowed.**
  - `save_cache` opens `cache.pkl` for writing with no handler (cache_manager.py:172), so a missing cache directory at post-run raises `FileNotFoundError`.
  - The hook is a hook wrapper (pytest_hooks.py:170), and its code after `yield` runs whatever the wrapped summary did. Its error therefore replaces any error of the plugin's own summary.
- **A pending-failure run does not consult the stored summary.** The replay branch requires that `cache.pkl` does not exist (cache_manager.py:104). So the summary is replayed only when no failures are pending (`CacheManagement.ReplayExactly`).
- **The stored ids are the rewritten test names.** When the summary plugin is registered, its terminal summary has already set each failed report's `nodeid` to the part after `::` (custom_summary_plugin.py:120-122). `save_cache` then reads those same reports' `nodeid` (cache_manager.py:170-171). The keys `--lf` receives are these short names (`PytestHooks.StoredIdsRewritten`).
- **Native output writes no summary.** With `--native-output` no summary plugin is registered (pytest_hooks.py:126-127). `write_summary_to_file` writes only when that plugin exists (cache_manager.py:158-160), but `save_cache` still runs (cache_manager.py:148).

## Behaviour kept as written

- Both failure branches of `test_check_allowed_characters` give the message `… is not a valid nucleotide file.`, including for a protein file. The model keeps that text (`LegacyFastaTests.AllowedCharactersVerdict`).
- Of the nucleotide letters, only `U` is outside the protein alphabet. So only `U` decides Nucleotide (`ContentChecks.NucleotideOnlyByU`), and a plain DNA file is classified Unknown (`ContentChecks.PlainDnaIsUnknown`). The model keeps the alphabets as written.

## Model

| member | source | states |
|---|---|---|
| Utils.Str | src/ensembl/datacheck/functions/utils.py:40-47 | `str(w)` is the origin tag `Warning::{file}::{function}: ` followed by the message unchanged |
| Utils.StrRoundTrip | src/ensembl/datacheck/functions/utils.py:36-47 | the message stored by the constructor reads back from the rendered text under the same tag |
| Utils.StrInjective | src/ensembl/datacheck/functions/utils.py:47 | for one origin tag, distinct messages render as distinct strings |
| WarningsLog.WarningLog.Warn | src/ensembl/datacheck/checks/fasta.py:58 | `warnings.warn` appends exactly one record at the end of the log |
| ContentChecks.LongLines | src/ensembl/datacheck/functions/content_checks.py:31-32 | every number listed is a 1-based line whose right-stripped length exceeds the limit, and the numbers strictly ascend |
| ContentChecks.LongLinesComplete | src/ensembl/datacheck/functions/content_checks.py:31-32 | conversely, every long line's number is listed |
| ContentChecks.AtLimitNotReported | src/ensembl/datacheck/functions/content_checks.py:32 | a line whose right-stripped length equals the limit is not reported |
| ContentChecks.LongLineMessageInjective | src/ensembl/datacheck/functions/content_checks.py:33 | the line number reads back from the message text, so different lines give different messages |
| ContentChecks.LongLineMessagesDistinct | src/ensembl/datacheck/functions/content_checks.py:31-33 | the messages of one file's long lines are pairwise different |
| ContentChecks.LineLengthCheck | src/ensembl/datacheck/functions/content_checks.py:18-34 | the enumerate loop returns exactly the messages of the long lines, in ascending line order; the limit defaults to 80 |
| ContentChecks.DefaultLimitReports | src/ensembl/datacheck/functions/content_checks.py:18-32 | at the default limit, line n is reported iff it has more than 80 characters before its trailing whitespace (both directions) |
| ContentChecks.DefaultLimitMessages | src/ensembl/datacheck/functions/content_checks.py:18-33 | at the default limit, each message reads `Line {n} is longer than 80 characters.` |
| ContentChecks.Decide | src/ensembl/datacheck/functions/content_checks.py:48-59 | a character decides only when its upper case is in exactly one alphabet, and never decides Unknown |
| ContentChecks.ProteinLetters | src/ensembl/datacheck/functions/content_checks.py:49 | the protein alphabet is the range form used for deciding (both directions) |
| ContentChecks.NucleotideLetters | src/ensembl/datacheck/functions/content_checks.py:48 | the nucleotide alphabet is the range form used for deciding (both directions) |
| ContentChecks.DetermineFastaType | src/ensembl/datacheck/functions/content_checks.py:36-60 | the nested scan with early returns yields the type of the first deciding character of the first deciding line |
| ContentChecks.FirstDecisionSpec | src/ensembl/datacheck/functions/content_checks.py:55-59 | within a line: Unknown iff no character decides; otherwise the result is the decision of the first deciding character |
| ContentChecks.UndecidedLine | src/ensembl/datacheck/functions/content_checks.py:53-59 | a line decides nothing iff it is a header or none of its stripped characters decides |
| ContentChecks.FastaTypeUnknownSpec | src/ensembl/datacheck/functions/content_checks.py:60 | the file is Unknown iff every line from the start is undecided |
| ContentChecks.FastaTypeDecidedSpec | src/ensembl/datacheck/functions/content_checks.py:52-59 | a decided type is the type of some line, and all lines before it are undecided |
| ContentChecks.HeaderLinesIgnored | src/ensembl/datacheck/functions/content_checks.py:53-54 | inserting a header line anywhere leaves the classification unchanged |
| ContentChecks.NucleotideOnlyByU | src/ensembl/datacheck/functions/content_checks.py:48-59 | a character decides Nucleotide iff its upper case is `U` |
| ContentChecks.PlainDnaIsUnknown | src/ensembl/datacheck/functions/content_checks.py:48-60 | a file made only of A, C, G, T and N, in either case, and ASCII whitespace is classified Unknown |
| ContentChecks.AllowedCharacterCheck | src/ensembl/datacheck/functions/content_checks.py:62-83 | the counting loop returns the first offending line as the scan defines it, or True |
| ContentChecks.AllAllowedSpec | src/ensembl/datacheck/functions/content_checks.py:78-83 | the result is True iff no line is offending (a non-header line with a stripped character whose upper case is outside the upper-cased alphabet) |
| ContentChecks.DisallowedAtSpec | src/ensembl/datacheck/functions/content_checks.py:77-82 | a returned number n is 1-based with headers counted: line n is offending and no earlier line is |
| ContentChecks.FirstOffending | src/ensembl/datacheck/functions/content_checks.py:77-82 | the first offending line, and no other, is the one returned |
| ContentChecks.PassesWider | src/ensembl/datacheck/functions/content_checks.py:80-81 | a line accepted by an alphabet is accepted by any larger one |
| ContentChecks.AlphabetWidening | src/ensembl/datacheck/functions/content_checks.py:74-83 | a file accepted by an alphabet is accepted by any larger one |
| ContentChecks.AlphabetsUpper | src/ensembl/datacheck/functions/content_checks.py:48-49 | both classification alphabets are already upper case |
| ContentChecks.AlphabetCaseInsensitive | src/ensembl/datacheck/functions/content_checks.py:74-81 | upper-casing the allowed alphabet first changes nothing |
| ContentChecks.EndsWithNewline | src/ensembl/datacheck/functions/content_checks.py:85-97 | an empty file fails (the seek); otherwise true iff the last byte is 0x0A |
| ContentChecks.NewlineAppended | src/ensembl/datacheck/functions/content_checks.py:95-97 | a file with a newline byte appended always passes |
| LegacyContentChecks.CheckLineLength | src/ensembl/datacheck_functions/content_checks.py:3-10 | the older loop returns the same messages as `line_length_check`, with the same default limit of 80 |
| LegacyContentChecks.DetermineFastaType | src/ensembl/datacheck_functions/content_checks.py:13-27 | the older scan yields the same classification, with headers skipped |
| LegacyContentChecks.CheckAllowedCharacters | src/ensembl/datacheck_functions/content_checks.py:28-38 | False iff some line is offending for the upper-cased alphabet, and equal to `allowed_character_check(...) is True` |
| LegacyContentChecks.CheckEndsWithNewline | src/ensembl/datacheck_functions/content_checks.py:40-44 | the same result as `ends_with_newline`, including the failure on an empty file |
| FastaChecks.CheckIfTextFile | src/ensembl/datacheck/checks/fasta.py:45 | passes iff the probe says text, otherwise fails with `The file is not identified as a text file.` |
| FastaChecks.CheckLineLength | src/ensembl/datacheck/checks/fasta.py:47-58 | one warning tagged (fasta, check_line_length) per long-line message, in order; never fails; the limit defaults to 80 |
| FastaChecks.CheckAllowedCharacter | src/ensembl/datacheck/checks/fasta.py:70-71 | passes iff the scan with `ABCDEFGHIKLMNPQRSTUVWXYZ*-` returns True, otherwise fails naming the line returned |
| FastaChecks.FastaAlphabetLetters | src/ensembl/datacheck/checks/fasta.py:70 | the check's alphabet is the protein letters plus U, as ranges (both directions) |
| FastaChecks.FastaAlphabetUpper | src/ensembl/datacheck/checks/fasta.py:70 | the check's alphabet is already upper case |
| FastaChecks.NoJOrO | src/ensembl/datacheck/checks/fasta.py:70 | J and O are outside the alphabet |
| FastaChecks.JOrOOffending | src/ensembl/datacheck/checks/fasta.py:70 | a sequence line holding J or O in either case is offending |
| FastaChecks.JOrORejected | src/ensembl/datacheck/checks/fasta.py:70-71 | such a line makes the check fail, at that line or an earlier one |
| FastaChecks.CheckEndsWithNewline | src/ensembl/datacheck/checks/fasta.py:80-82 | an empty file raises and warns nothing; otherwise exactly one tagged warning `The file {path} does not end in a newline character.` iff the last byte is not a newline |
| VcfChecks.CheckIfTextFile | src/ensembl/datacheck/checks/vcf.py:48 | passes iff the probe says text, with the same message as the FASTA check |
| VcfChecks.CheckEndsWithNewline | src/ensembl/datacheck/checks/vcf.py:58-60 | a warning-only outcome: an error on an empty file, otherwise no warning iff the last byte is a newline, else exactly the tagged (vcf, check_ends_with_newline) warning |
| VcfChecks.NewlineSilences | src/ensembl/datacheck/checks/vcf.py:58-60 | a file ending in a newline raises no warning |
| LegacyFastaTests.TestIsTextFile | src/tests/fasta.py:17-19 | passes iff the probe says text, otherwise fails naming the file |
| LegacyFastaTests.TestCheckLineLength | src/tests/fasta.py:21-26 | one UserWarning per long line, in order; never fails; the limit defaults to 80 |
| LegacyFastaTests.TestCheckAllowedCharacters | src/tests/fasta.py:28-37 | the verdict of classifying first, then checking against the alphabet of the class |
| LegacyFastaTests.AllowedCharactersPass | src/tests/fasta.py:30-37 | passes iff the file is classified and no line is offending for its class's alphabet (both directions) |
| LegacyFastaTests.TestPassImpliesCheckPass | src/tests/fasta.py:32-37 | a file passing the older test passes the newer `check_allowed_character` |
| LegacyFastaTests.TestCheckEndsWithNewline | src/tests/fasta.py:39-43 | an empty file raises; otherwise one UserWarning iff there is no trailing newline; never fails |
| CustomSummary.FirstAssertionLine | src/ensembl/datacheck/plugin/custom_summary_plugin.py:95-99 | the first line from the start that mentions AssertionError, or none when no line does |
| CustomSummary.AssertionMessage | src/ensembl/datacheck/plugin/custom_summary_plugin.py:94-102 | the only error raised is the IndexError of the split |
| CustomSummary.FormatAssertionError | src/ensembl/datacheck/plugin/custom_summary_plugin.py:78-104 | the break loop yields `FAILED::{test name}::{message}` as the extraction defines it |
| CustomSummary.SplitAtMarker | src/ensembl/datacheck/plugin/custom_summary_plugin.py:97 | `p + "AssertionError: " + m` splits into exactly p and m |
| CustomSummary.MessageAfterMarker | src/ensembl/datacheck/plugin/custom_summary_plugin.py:95-99 | the message is the text after the marker on the first line mentioning AssertionError |
| CustomSummary.WholeTextWithoutAssertion | src/ensembl/datacheck/plugin/custom_summary_plugin.py:101-102 | with no line mentioning AssertionError, the message is the whole text |
| CustomSummary.MissingMarkerFails | src/ensembl/datacheck/plugin/custom_summary_plugin.py:96-97 | a first matching line without `AssertionError: ` raises IndexError |
| CustomSummary.FormatPassedTest | src/ensembl/datacheck/plugin/custom_summary_plugin.py:193-196 | the label always starts with `Pass::` |
| CustomSummary.PassedLabelOfModuleTest | src/ensembl/datacheck/plugin/custom_summary_plugin.py:193-196 | `dir/m.py::t` becomes `Pass::m::t` |
| CustomSummary.DropPySuffix | src/ensembl/datacheck/plugin/custom_summary_plugin.py:195 | removing `.py` from `m + ".py"` gives back m |
| CustomSummary.SectionLines | src/ensembl/datacheck/plugin/custom_summary_plugin.py:218-226 | a section is empty iff it has no entries, else title, the entries in order, and the count footer |
| CustomSummary.SectionPluralisation | src/ensembl/datacheck/plugin/custom_summary_plugin.py:222-226 | one entry gives `There is 1 …`, two give `There are 2 …s`, none prints nothing |
| CustomSummary.SectionPluralFooter | src/ensembl/datacheck/plugin/custom_summary_plugin.py:222-226 | any n >= 2 entries end with `There are {n} ` and the plural |
| CustomSummary.ConsoleShowsSectionLines | src/ensembl/datacheck/plugin/custom_summary_plugin.py:132-142 | the console shows the file's section lines, each wrapped in colour and reset, with the same inner text |
| CustomSummary.FileHoldsSectionLines | src/ensembl/datacheck/plugin/custom_summary_plugin.py:218-226 | the file holds the same section lines, uncoloured, each ended by a newline |
| CustomSummary.LinesTextAppend | src/ensembl/datacheck/plugin/custom_summary_plugin.py:205-209 | file sections written one after another concatenate |
| CustomSummary.WarningsSuppressed | src/ensembl/datacheck/plugin/custom_summary_plugin.py:113-209 | with `--no-warnings`, both renderings are those of a run with no warnings |
| CustomSummary.PrintSection | src/ensembl/datacheck/plugin/custom_summary_plugin.py:132-142 | the printing loop appends exactly the coloured section |
| CustomSummary.WriteSection | src/ensembl/datacheck/plugin/custom_summary_plugin.py:218-226 | the writing loop appends exactly the uncoloured section |
| CustomSummary.RewrittenIdShape | src/ensembl/datacheck/plugin/custom_summary_plugin.py:120-121 | a rewritten id holds neither `::` nor `-` |
| CustomSummary.RewrittenIdOfModuleTest | src/ensembl/datacheck/plugin/custom_summary_plugin.py:120-121 | `path::test` becomes `test` |
| CustomSummary.RewriteStopFrom | src/ensembl/datacheck/plugin/custom_summary_plugin.py:119-120 | the position of the first report whose id has no `::`: every earlier id can be rewritten |
| CustomSummary.RewrittenReports | src/ensembl/datacheck/plugin/custom_summary_plugin.py:118-123 | the rewrite keeps the number of reports |
| CustomSummary.RewrittenReportsShape | src/ensembl/datacheck/plugin/custom_summary_plugin.py:120-123 | each report reached gets an id without `::` and an empty longrepr, and keeps its outcome |
| CustomSummary.RewriteFailedReports | src/ensembl/datacheck/plugin/custom_summary_plugin.py:118-123 | the in-place loop over the failed reports rewrites up to the first id lacking `::`, leaves the rest unchanged, and raises IndexError iff it stops early |
| CustomSummary.CustomSummaryPlugin.constructor | src/ensembl/datacheck/plugin/custom_summary_plugin.py:40-46 | empty lists, zero counters, the `--no-warnings` option, and the counter invariant |
| CustomSummary.CustomSummaryPlugin.RuntestProtocol | src/ensembl/datacheck/plugin/custom_summary_plugin.py:57-60 | the recorded warnings are appended in order; nothing else changes |
| CustomSummary.CustomSummaryPlugin.LogReport | src/ensembl/datacheck/plugin/custom_summary_plugin.py:69-76 | passed call counted and its id kept; failed call formatted and kept, or its error raised; skip in any phase counted; other reports ignored; `passed == len(passed_tests)` kept |
| CustomSummary.CustomSummaryPlugin.PrintWarningsSummary | src/ensembl/datacheck/plugin/custom_summary_plugin.py:125-142 | appends the yellow warnings section |
| CustomSummary.CustomSummaryPlugin.PrintFailuresSummary | src/ensembl/datacheck/plugin/custom_summary_plugin.py:144-161 | appends the red failures section |
| CustomSummary.CustomSummaryPlugin.PrintPassedSummary | src/ensembl/datacheck/plugin/custom_summary_plugin.py:163-181 | appends the green passed section |
| CustomSummary.CustomSummaryPlugin.TerminalSummary | src/ensembl/datacheck/plugin/custom_summary_plugin.py:106-123 | prints warnings (unless suppressed), passed, then failures, then rewrites the failed reports |
| CustomSummary.CustomSummaryPlugin.WriteSummaryToFile | src/ensembl/datacheck/plugin/custom_summary_plugin.py:198-209 | the file holds exactly warnings (unless suppressed), failures, passed, uncoloured; a missing directory raises FileNotFoundError and writes nothing |
| CacheManagement.NewCacheManager | src/ensembl/datacheck/plugin/cache_manager.py:42-46 | construction stores the options and succeeds iff the cache directory can be computed, else raises its error |
| CacheManagement.NoInputRejected | src/ensembl/datacheck/plugin/cache_manager.py:76-77 | neither `--file` nor `--database`: ValueError `Either --file or --database must be provided.` |
| CacheManagement.FileTakesPrecedence | src/ensembl/datacheck/plugin/cache_manager.py:58-62 | with a file given, the database option is never looked at |
| CacheManagement.SameContentsSameDir | src/ensembl/datacheck/plugin/cache_manager.py:58-61 | files with the same bytes share a cache directory |
| CacheManagement.DifferentDigestsDifferentDirs | src/ensembl/datacheck/plugin/cache_manager.py:58-61 | files with different digests get different directories |
| CacheManagement.DatabaseDir | src/ensembl/datacheck/plugin/cache_manager.py:62-75 | `scheme@server/db` gets `BASE/server/db/<time>` |
| CacheManagement.RFind | src/ensembl/datacheck/plugin/cache_manager.py:88 | the last position of the character, or -1 when it does not occur |
| CacheManagement.StemOfFile | src/ensembl/datacheck/plugin/cache_manager.py:88 | the stem of `dir/base.ext` is base, even when base has dots |
| CacheManagement.CacheFilesDistinct | src/ensembl/datacheck/plugin/cache_manager.py:87-101 | the results file and `cache.pkl` both sit in the cache directory and are never the same file |
| CacheManagement.ResultsFileOfInput | src/ensembl/datacheck/plugin/cache_manager.py:87-89 | the results file of `dir/base.ext` is `<cache dir>/base_results.txt` |
| CacheManagement.ReplayExactly | src/ensembl/datacheck/plugin/cache_manager.py:103-107 | the stored summary is replayed iff the directory exists, a text results file exists and `cache.pkl` does not |
| CacheManagement.PendingFailuresRestrict | src/ensembl/datacheck/plugin/cache_manager.py:109-115 | a stored pickle restricts the run to its mapping whether or not a results file exists, and the run goes on |
| CacheManagement.CreatedDirRunsAll | src/ensembl/datacheck/plugin/cache_manager.py:103-118 | a missing directory is created, and the next decision on it is to run everything |
| CacheManagement.SetupCache | src/ensembl/datacheck/plugin/cache_manager.py:94-118 | prints, exits or raises, creates the directory, and installs `--lf` with the stored mapping, each as the decision says; files untouched |
| CacheManagement.LoadControl | src/ensembl/datacheck/plugin/cache_manager.py:129-135 | never lets the run go on: exits iff a text results file exists, and raises FileNotFoundError naming the input when there is none |
| CacheManagement.LoadTestResults | src/ensembl/datacheck/plugin/cache_manager.py:120-135 | ends and prints as `LoadControl` and `LoadOutput` say |
| CacheManagement.FailedMap | src/ensembl/datacheck/plugin/cache_manager.py:171 | its keys are exactly the failed ids, all mapped to True, and it is empty iff nothing failed |
| CacheManagement.PostRunRecordsFailures | src/ensembl/datacheck/plugin/cache_manager.py:146-186 | after post-run, `cache.pkl` exists iff some test failed, and then holds exactly the failed ids; the summary is stored when written; no other file changes |
| CacheManagement.NextSetupAfterPostRun | src/ensembl/datacheck/plugin/cache_manager.py:103-149 | the next run restricts to the failures if any, else replays the summary just written |
| CacheManagement.RetryThenReplay | src/ensembl/datacheck/plugin/cache_manager.py:103-149 | a failing run leads to a restricted rerun; once that passes, the following run replays its summary |
| CacheManagement.PostRunWithoutDir | src/ensembl/datacheck/plugin/cache_manager.py:147-149 | with the directory gone, post-run raises FileNotFoundError |
| CacheManagement.WriteSummaryToFile | src/ensembl/datacheck/plugin/cache_manager.py:151-160 | writes the plugin's summary when it is registered, and does nothing otherwise |
| CacheManagement.SaveCache | src/ensembl/datacheck/plugin/cache_manager.py:162-173 | `cache.pkl` is overwritten by the pickled failed-id map, or FileNotFoundError when the directory is gone |
| CacheManagement.CleanupCacheIfAllPassed | src/ensembl/datacheck/plugin/cache_manager.py:175-186 | with no failures, `cache.pkl` is deleted (with its notice) when present; otherwise nothing changes |
| CacheManagement.HandleCachePostRun | src/ensembl/datacheck/plugin/cache_manager.py:137-149 | write, save then clean up, leaving the files `PostRunFiles` describes, or raising its error |
| PytestHooks.CustomWarningFormat | src/ensembl/datacheck/plugin/pytest_hooks.py:104-120 | every rendering ends in a newline; other categories start with `{filename}:{lineno}: ` (plugin.py:31-35 is the same function) |
| PytestHooks.DatacheckWarningShownBare | src/ensembl/datacheck/plugin/pytest_hooks.py:117-118 | a datacheck warning shows no location, and reads back as its own message |
| PytestHooks.OtherWarningEndsWithText | src/ensembl/datacheck/plugin/pytest_hooks.py:119-120 | any other warning ends with its text and the newline |
| PytestHooks.TaggedWarningsReadBack | src/ensembl/datacheck/plugin/pytest_hooks.py:117-118 | each warning a check tags with one origin is shown without a location, and its line less the newline reads back as the message the check passed |
| PytestHooks.PlainWarningsShownWithLocation | src/ensembl/datacheck/plugin/pytest_hooks.py:119-120 | each plain warning of one category (the older tests' UserWarnings) starts with `{filename}:{lineno}: {category}: ` and ends with its message and the newline |
| PytestHooks.CollectedOnlyCheckCallables | src/ensembl/datacheck/plugin/pytest_hooks.py:154-155 | this hook claims only callables named `check_…`; for a `test_…` name it returns None |
| PytestHooks.CmdlineMain | src/ensembl/datacheck/plugin/pytest_hooks.py:89-95 | with a test name, args become exactly `[checks/{test}.py]` when it exists, or UsageError; nothing else changes |
| PytestHooks.LoadTestResultsNeverRuns | src/ensembl/datacheck/plugin/pytest_hooks.py:133-137 | with `--load-test-results` the run ends at configure time and `setup_cache` is never reached |
| PytestHooks.UncachedRunContinues | src/ensembl/datacheck/plugin/pytest_hooks.py:133 | without an input, or with `--no-cache-results`, configure touches no cache and prints nothing |
| PytestHooks.CachedSummaryEndsRun | src/ensembl/datacheck/plugin/pytest_hooks.py:133-137 | a stored summary with nothing pending is printed and the run exits before any check |
| PytestHooks.PytestConfigure | src/ensembl/datacheck/plugin/pytest_hooks.py:97-140 | plugin registered iff no `--native-output`; the cache consulted iff an input is given and caching is on; `runpytest` cleared when the hook returns |
| PytestHooks.FailedMapOfReports | src/ensembl/datacheck/plugin/cache_manager.py:170-171 | the stored map's keys are exactly the failed reports' node ids, each mapped to True |
| PytestHooks.PostRunIgnoresNoCache | src/ensembl/datacheck/plugin/pytest_hooks.py:180-182 | the post-run store result does not depend on `--no-cache-results` |
| PytestHooks.PostRunWithoutInputFails | src/ensembl/datacheck/plugin/pytest_hooks.py:181 | without an input, the post-run hook raises the constructor's ValueError |
| PytestHooks.StoredIdsRewritten | src/ensembl/datacheck/plugin/pytest_hooks.py:180-182 | once the summary plugin has rewritten every failed report, no stored id holds `::` |
| PytestHooks.TerminalSummary | src/ensembl/datacheck/plugin/pytest_hooks.py:170-182 | the plugin's summary, then the cache store on the rewritten reports; the store's error replaces the plugin's |
| LegacyPlugin.CmdlineMain | src/ensembl/datacheck/plugin.py:20-27 | with a test name, the test file is inserted in front of the unchanged args, or UsageError |
| LegacyPlugin.LegacyConsoleIsNewerWithoutPassed | src/ensembl/datacheck/plugin.py:96-99 | the older console summary is the newer one with no passed section |
| LegacyPlugin.LegacySummaryPlugin.constructor | src/ensembl/datacheck/plugin.py:53-58 | empty lists, zero counters, the `--no-warnings` option |
| LegacyPlugin.LegacySummaryPlugin.RuntestProtocol | src/ensembl/datacheck/plugin.py:60-65 | the recorded warnings are appended in order |
| LegacyPlugin.LegacySummaryPlugin.LogReport | src/ensembl/datacheck/plugin.py:67-74 | the newer classification, except that a passed call is only counted |
| LegacyPlugin.LegacySummaryPlugin.PrintWarningsSummary | src/ensembl/datacheck/plugin.py:108-119 | appends the warnings section |
| LegacyPlugin.LegacySummaryPlugin.PrintFailuresSummary | src/ensembl/datacheck/plugin.py:121-132 | appends the failures section |
| LegacyPlugin.LegacySummaryPlugin.TerminalSummary | src/ensembl/datacheck/plugin.py:96-107 | prints warnings (unless suppressed) then failures, then rewrites the failed reports as the newer plugin does |
| LegacyPlugin.PytestConfigure | src/ensembl/datacheck/plugin.py:29-42 | the plugin is registered iff no `--native-output`; there is no cache |
| Runner.GivenThenPlugin | src/ensembl/datacheck/runner.py:33-39 | the given arguments come first, unchanged, then `-p ensembl.datacheck.plugin`, then at most one more |
| Runner.OutputAlwaysChosen | src/ensembl/datacheck/runner.py:42-52 | the list always picks an output; a traceback option gets `--native-output`; otherwise `--tb=no` comes last |
| Runner.PluginPairNeutral | src/ensembl/datacheck/runner.py:39-45 | the plugin pair neither sets a traceback style nor asks for native output |
| Runner.MainArguments | src/ensembl/datacheck/runner.py:33-52 | the list built in place equals the reference list decided on the given arguments alone |

## Left out

- The xxh64 digest, the SQL `MAX(UPDATE_TIME)` query and `strftime` are left abstract, as fields of `Environment`. Only the path assembly around them is modelled.
- Pickle encoding is not modelled. A `cache.pkl` written by the cache holds its mapping, and the mapping reads back exactly.
- The printed repr of the last-failed dict is not rendered as text. The console line carries the mapping itself.
- pytest itself is not modelled:
  - its hook dispatch and `warnings.catch_warnings`;
  - the selection that `--lf` performs with the installed mapping;
  - the `write_sep` fill width;
  - the default `--tb` and output behaviour.
- The assignment of the warning format to `warnings.formatwarning` is not modelled. `PytestHooks.CustomWarningFormat` is the function that would be installed.
- Test reports are values in an array rather than shared objects. Aliasing between `stats['failed']` and other holders of the same report is not captured.
- `str()` of a tuple longrepr's elements is not modelled: the elements are given already as strings.
- Path handling is simplified:
  - `pathlib` normalisation of the cache and test-file paths (repeated or trailing slashes) is not modelled;
  - the test-file path is built from a given package directory;
  - a file's existence check is membership in a given set.
- Text is ASCII only. `upper()`, `strip()` and `splitlines()` follow ASCII semantics, plus Python's whitespace and line-break control characters; non-ASCII case mapping and whitespace are left out.
- Races between processes sharing a cache directory are out of scope, since each run is single-threaded.
- `pytest.main` and `sys.exit` in `runner.py` are left out: the model stops at the argument list.
- Hooks and modules with no logic of their own are not part of this model:
  - `pytest_addoption`;
  - the `file_path` and `db_session` fixtures;
  - `pytest_report_header`;
  - `pytest_sessionstart`.
- Files outside the core are not part of this model:
  - src/ensembl/datacheck/functions/db_checks.py and src/ensembl/datacheck/checks/ensembl_genome_metadata.py hold queries over database models that are not available;
  - both `file_checks.py` files are file-system probes;
  - `is_text_file` is a boolean input of the checks.
- src/ensembl/plugin.py and src/ensembl/runner.py are not part of this model. They are a file probe and a pass-through to `pytest.main`.
- CollectedOnlyCheckCallables: only this plugin's own collection hook is modelled. pytest's default collector, which handles every name this hook returns None for and collects `test_*` functions under its default settings, is not. So the model does not say whether the `test_…` functions of tests/fasta.py are collected; they are modelled as functions of their own.
- The loading of plugin.py is not modelled. That module shares its import name with the `plugin` package, so whether it is loaded at all depends on the import system. It is modelled as `LegacyPlugin` on its own terms.

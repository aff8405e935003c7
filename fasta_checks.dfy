/**
 * The FASTA checks (checks/fasta.py). Each check either passes, fails with an
 * assertion message, or only adds warnings to the log of the running check.
 * The file reaches a check as its lines (for the line validators), its bytes
 * (for the newline test) and the verdict of the text-file probe.
 */
module FastaChecks {
  import opened Wrappers
  import opened Strings
  import opened Utils
  import opened ContentChecks
  import opened WarningsLog

  /** The alphabet `check_allowed_character` accepts: every protein letter, and U. */
  const FASTA_ALPHABET: string := "ABCDEFGHIKLMNPQRSTUVWXYZ*-"

  const NOT_TEXT_MESSAGE: string := "The file is not identified as a text file."
  const BAD_LINE_TAIL: string := " does not match either nucleotide or protein configurations."
  const MISSING_NEWLINE_TAIL: string := " does not end in a newline character."

  /** `check_if_text_file`: fails exactly when the text-file probe says no. */
  function CheckIfTextFile(isTextFile: bool): (v: Verdict)
    ensures v == Pass <==> isTextFile
    ensures v != Pass ==> v == AssertionFailure(NOT_TEXT_MESSAGE)
  {
    if isTextFile then Pass else AssertionFailure(NOT_TEXT_MESSAGE)
  }

  /**
   * `check_line_length`: one warning per long-line message, in the same order,
   * tagged ("fasta", "check_line_length"). It never fails.
   */
  method CheckLineLength(lines: seq<string>, maxLength: int := DEFAULT_MAX_LENGTH, log: WarningLog)
    modifies log
    ensures log.records == old(log.records) +
      Tagged(MessagesFor(LongLines(lines, maxLength), maxLength), "fasta", "check_line_length")
  {
    var lineWarnings := LineLengthCheck(lines, maxLength);
    ghost var before := log.records;
    for k := 0 to |lineWarnings|
      invariant log.records == before + Tagged(lineWarnings[..k], "fasta", "check_line_length")
    {
      log.Warn(DatacheckWarning(EnsemblDatacheckWarning(lineWarnings[k], "fasta", "check_line_length")));
      TaggedExtend(lineWarnings, k, "fasta", "check_line_length");
    }
    assert lineWarnings[..|lineWarnings|] == lineWarnings;
  }

  /** The text of the assertion that fails on a bad line. */
  function BadLineMessage(lineNumber: nat): string {
    "Line " + NatToString(lineNumber) + BAD_LINE_TAIL
  }

  /**
   * `check_allowed_character`: passes exactly when every non-header line uses
   * only FASTA_ALPHABET, in either case; otherwise the message names the first
   * offending line.
   */
  function CheckAllowedCharacter(lines: seq<string>): (v: Verdict)
    ensures v == Pass <==> FirstDisallowed(lines, FASTA_ALPHABET) == AllAllowed
    ensures FirstDisallowed(lines, FASTA_ALPHABET).DisallowedAt? ==>
      v == AssertionFailure(BadLineMessage(FirstDisallowed(lines, FASTA_ALPHABET).lineNumber))
  {
    match FirstDisallowed(lines, FASTA_ALPHABET)
    case AllAllowed => Pass
    case DisallowedAt(n) => AssertionFailure(BadLineMessage(n))
  }

  /** Membership in FASTA_ALPHABET, spelled out as ranges. */
  predicate InFastaAlphabet(u: char) {
    InProtein(u) || u == 'U'
  }

  lemma FastaAlphabetLetters(u: char)
    ensures InFastaAlphabet(u) <==> u in FASTA_ALPHABET
  {
  }

  /** FASTA_ALPHABET is already upper case. */
  lemma FastaAlphabetUpper()
    ensures Upper(FASTA_ALPHABET) == FASTA_ALPHABET
  {
    forall i | 0 <= i < |FASTA_ALPHABET|
      ensures !('a' <= FASTA_ALPHABET[i] <= 'z')
    {
      FastaAlphabetLetters(FASTA_ALPHABET[i]);
    }
    UpperIdentity(FASTA_ALPHABET);
  }

  /** The alphabet has no J and no O. */
  lemma NoJOrO(u: char)
    requires u == 'J' || u == 'O'
    ensures u !in Upper(FASTA_ALPHABET)
  {
    FastaAlphabetLetters(u);
    FastaAlphabetUpper();
  }

  /** A sequence line holding J or O, in either case, is offending. */
  lemma JOrOOffending(line: string, k: nat)
    requires !IsHeader(line)
    requires k < |Strip(line)| && UpperChar(Strip(line)[k]) in {'J', 'O'}
    ensures Offending(line, Upper(FASTA_ALPHABET))
  {
    NoJOrO(UpperChar(Strip(line)[k]));
    assert !Allowed(Strip(line)[k], Upper(FASTA_ALPHABET));
  }

  /**
   * J and O are missing from the alphabet, so a sequence line holding either,
   * in either case, makes the check fail, at that line or an earlier one.
   */
  lemma JOrORejected(lines: seq<string>, n: nat, k: nat)
    requires n < |lines| && !IsHeader(lines[n])
    requires k < |Strip(lines[n])| && UpperChar(Strip(lines[n])[k]) in {'J', 'O'}
    ensures FirstDisallowed(lines, FASTA_ALPHABET).DisallowedAt?
    ensures FirstDisallowed(lines, FASTA_ALPHABET).lineNumber <= n + 1
    ensures CheckAllowedCharacter(lines) == AssertionFailure(BadLineMessage(FirstDisallowed(lines, FASTA_ALPHABET).lineNumber))
  {
    JOrOOffending(lines[n], k);
    AllAllowedSpec(lines, Upper(FASTA_ALPHABET), 0);
    DisallowedAtSpec(lines, Upper(FASTA_ALPHABET), 0);
  }

  /** The text of the warning about a missing final newline (shared by the VCF check). */
  function MissingNewlineMessage(filePath: string): string {
    "The file " + filePath + MISSING_NEWLINE_TAIL
  }

  /**
   * `check_ends_with_newline`: one warning tagged ("fasta",
   * "check_ends_with_newline") exactly when the last byte is not a newline;
   * an empty file raises the OSError of the underlying seek, and warns nothing.
   */
  method CheckEndsWithNewline(filePath: string, contents: seq<byte>, log: WarningLog) returns (raised: Option<Error>)
    modifies log
    ensures raised == None <==> contents != []
    ensures raised != None ==> raised == Some(OSError) && log.records == old(log.records)
    ensures raised == None && contents[|contents| - 1] == 0x0A ==> log.records == old(log.records)
    ensures raised == None && contents[|contents| - 1] != 0x0A ==>
      log.records == old(log.records) +
        [DatacheckWarning(EnsemblDatacheckWarning(MissingNewlineMessage(filePath), "fasta", "check_ends_with_newline"))]
  {
    var r := EndsWithNewline(contents);
    if r.Err? {
      return Some(r.error);
    }
    if !r.value {
      var warning := MissingNewlineMessage(filePath);
      log.Warn(DatacheckWarning(EnsemblDatacheckWarning(warning, "fasta", "check_ends_with_newline")));
    }
    return None;
  }
}

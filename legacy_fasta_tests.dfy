/**
 * The older FASTA test module (tests/fasta.py), built on the older line
 * validators. Its allowed-character test first classifies the file and then
 * checks it against the alphabet of that class.
 */
module LegacyFastaTests {
  import opened Wrappers
  import opened Strings
  import opened Utils
  import opened ContentChecks
  import opened LegacyContentChecks
  import opened WarningsLog
  import FastaChecks

  const NOT_TEXT_TAIL: string := " is not identified as a text file."
  const NO_CONFIGURATION_TAIL: string := " does not match either Nucleotide or Protein configurations."
  const NOT_NUCLEOTIDE_TAIL: string := " is not a valid nucleotide file."

  /** `test_is_text_file`: fails, naming the file, exactly when the probe says no. */
  function TestIsTextFile(filePath: string, isTextFile: bool): (v: Verdict)
    ensures v == Pass <==> isTextFile
    ensures v != Pass ==> v == AssertionFailure("The file " + filePath + NOT_TEXT_TAIL)
  {
    if isTextFile then Pass else AssertionFailure("The file " + filePath + NOT_TEXT_TAIL)
  }

  /** `test_check_line_length`: one UserWarning per long line, in order; it never fails. */
  method TestCheckLineLength(lines: seq<string>, maxLength: int := DEFAULT_MAX_LENGTH, log: WarningLog)
    modifies log
    ensures log.records == old(log.records) + Plain(MessagesFor(LongLines(lines, maxLength), maxLength), "UserWarning")
  {
    var lineWarnings := LegacyContentChecks.CheckLineLength(lines, maxLength);
    ghost var before := log.records;
    for k := 0 to |lineWarnings|
      invariant log.records == before + Plain(lineWarnings[..k], "UserWarning")
    {
      log.Warn(PlainWarning("UserWarning", lineWarnings[k]));
      PlainExtend(lineWarnings, k, "UserWarning");
    }
    assert lineWarnings[..|lineWarnings|] == lineWarnings;
  }

  /**
   * What `test_check_allowed_characters` concludes: an unclassified file fails;
   * a nucleotide file is checked against NUCLEOTIDE_CHARS and a protein file
   * against PROTEIN_CHARS, and both failures say "not a valid nucleotide file".
   */
  function AllowedCharactersVerdict(filePath: string, lines: seq<string>): Verdict {
    match FastaTypeOf(lines)
    case Unknown => AssertionFailure("The file " + filePath + NO_CONFIGURATION_TAIL)
    case Nucleotide =>
      if FirstDisallowed(lines, NUCLEOTIDE_CHARS) == AllAllowed then Pass
      else AssertionFailure("The file " + filePath + NOT_NUCLEOTIDE_TAIL)
    case Protein =>
      if FirstDisallowed(lines, PROTEIN_CHARS) == AllAllowed then Pass
      else AssertionFailure("The file " + filePath + NOT_NUCLEOTIDE_TAIL)
  }

  /** `test_check_allowed_characters(file_path)`. */
  method TestCheckAllowedCharacters(filePath: string, lines: seq<string>) returns (v: Verdict)
    ensures v == AllowedCharactersVerdict(filePath, lines)
  {
    var fastaType := LegacyContentChecks.DetermineFastaType(lines);
    if fastaType == Unknown {
      return AssertionFailure("The file " + filePath + NO_CONFIGURATION_TAIL);
    }
    if fastaType == Nucleotide {
      var allowedChars := NUCLEOTIDE_CHARS;
      var ok := CheckAllowedCharacters(lines, allowedChars);
      if !ok {
        return AssertionFailure("The file " + filePath + NOT_NUCLEOTIDE_TAIL);
      }
    } else if fastaType == Protein {
      var allowedChars := PROTEIN_CHARS;
      var ok := CheckAllowedCharacters(lines, allowedChars);
      if !ok {
        return AssertionFailure("The file " + filePath + NOT_NUCLEOTIDE_TAIL);
      }
    }
    return Pass;
  }

  /**
   * The test passes exactly when the file is classified and no sequence line of
   * it strays from the alphabet of its class.
   */
  lemma AllowedCharactersPass(filePath: string, lines: seq<string>)
    ensures AllowedCharactersVerdict(filePath, lines) == Pass <==>
      (FastaTypeOf(lines) == Nucleotide && forall n :: 0 <= n < |lines| ==> !Offending(lines[n], NUCLEOTIDE_CHARS))
      || (FastaTypeOf(lines) == Protein && forall n :: 0 <= n < |lines| ==> !Offending(lines[n], PROTEIN_CHARS))
  {
    AlphabetsUpper();
    AllAllowedSpec(lines, NUCLEOTIDE_CHARS, 0);
    AllAllowedSpec(lines, PROTEIN_CHARS, 0);
  }

  /**
   * Both alphabets of the test lie inside the alphabet of the newer check, so a
   * file that passes this test also passes `check_allowed_character`.
   */
  lemma TestPassImpliesCheckPass(filePath: string, lines: seq<string>)
    requires AllowedCharactersVerdict(filePath, lines) == Pass
    ensures FastaChecks.CheckAllowedCharacter(lines) == Pass
  {
    AlphabetsUpper();
    FastaChecks.FastaAlphabetUpper();
    forall c | c in NUCLEOTIDE_CHARS
      ensures c in FastaChecks.FASTA_ALPHABET
    {
      NucleotideLetters(c);
      FastaChecks.FastaAlphabetLetters(c);
    }
    forall c | c in PROTEIN_CHARS
      ensures c in FastaChecks.FASTA_ALPHABET
    {
      ProteinLetters(c);
      FastaChecks.FastaAlphabetLetters(c);
    }
    if FastaTypeOf(lines) == Nucleotide {
      AlphabetWidening(lines, NUCLEOTIDE_CHARS, FastaChecks.FASTA_ALPHABET);
    } else {
      AlphabetWidening(lines, PROTEIN_CHARS, FastaChecks.FASTA_ALPHABET);
    }
  }

  /**
   * `test_check_ends_with_newline`: one UserWarning naming the file exactly when
   * the last byte is not a newline; it never fails, but an empty file raises
   * the OSError of the seek.
   */
  method TestCheckEndsWithNewline(filePath: string, contents: seq<byte>, log: WarningLog) returns (raised: Option<Error>)
    modifies log
    ensures raised == None <==> contents != []
    ensures raised != None ==> raised == Some(OSError) && log.records == old(log.records)
    ensures raised == None && contents[|contents| - 1] == 0x0A ==> log.records == old(log.records)
    ensures raised == None && contents[|contents| - 1] != 0x0A ==>
      log.records == old(log.records) + [PlainWarning("UserWarning", FastaChecks.MissingNewlineMessage(filePath))]
  {
    var r := LegacyContentChecks.CheckEndsWithNewline(contents);
    if r.Err? {
      return Some(r.error);
    }
    if !r.value {
      var warning := FastaChecks.MissingNewlineMessage(filePath);
      log.Warn(PlainWarning("UserWarning", warning));
    }
    return None;
  }
}

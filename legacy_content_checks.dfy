/**
 * The older copy of the line validators (datacheck_functions/content_checks.py),
 * used by the older test module. Each is proved to agree with the newer
 * validator's specification in ContentChecks.
 */
module LegacyContentChecks {
  import opened Wrappers
  import opened Strings
  import opened ContentChecks

  /** `check_line_length(file, max_length)`: the same messages as `line_length_check`. */
  method CheckLineLength(lines: seq<string>, maxLength: int := DEFAULT_MAX_LENGTH) returns (warnings: seq<string>)
    ensures warnings == MessagesFor(LongLines(lines, maxLength), maxLength)
  {
    warnings := [];
    for i := 1 to |lines| + 1
      invariant warnings == MessagesFor(LongLines(lines[..i - 1], maxLength), maxLength)
    {
      var line := lines[i - 1];
      MessagesStep(lines, maxLength, i);
      if |RStrip(line)| > maxLength {
        warnings := warnings + [LongLineMessage(i, maxLength)];
      }
    }
    assert lines[..|lines|] == lines;
  }

  /** `determine_fasta_type(file)`: the same first-deciding-character rule, headers skipped. */
  method DetermineFastaType(lines: seq<string>) returns (t: FastaType)
    ensures t == FastaTypeOf(lines)
  {
    for i := 0 to |lines|
      invariant FastaTypeFrom(lines, i) == FastaTypeOf(lines)
    {
      var line := lines[i];
      if StartsWith(line, ">") {
        continue;
      }
      var chars := Strip(line);
      for j := 0 to |chars|
        invariant FirstDecisionFrom(chars, j) == FirstDecisionFrom(chars, 0)
      {
        var u := UpperChar(chars[j]);
        if InProtein(u) && !InNucleotide(u) {
          return Protein;
        }
        if InNucleotide(u) && !InProtein(u) {
          return Nucleotide;
        }
      }
    }
    return Unknown;
  }

  /**
   * `check_allowed_characters(file, allowed_chars)`: False exactly when some
   * non-header line holds a character outside the alphabet, so it is True
   * exactly when `allowed_character_check` returns True.
   */
  method CheckAllowedCharacters(lines: seq<string>, allowed: string) returns (ok: bool)
    ensures ok <==> forall n :: 0 <= n < |lines| ==> !Offending(lines[n], Upper(allowed))
    ensures ok <==> FirstDisallowed(lines, allowed) == AllAllowed
  {
    var allowedUpper := Upper(allowed);
    for i := 0 to |lines|
      invariant forall n :: 0 <= n < i ==> !Offending(lines[n], allowedUpper)
    {
      var line := lines[i];
      if StartsWith(line, ">") {
        continue;
      }
      var chars := Strip(line);
      for j := 0 to |chars|
        invariant forall k :: 0 <= k < j ==> Allowed(chars[k], allowedUpper)
      {
        if !Allowed(chars[j], allowedUpper) {
          assert Offending(line, allowedUpper);
          FirstOffending(lines, allowedUpper, i);
          return false;
        }
      }
    }
    AllAllowedSpec(lines, allowedUpper, 0);
    return true;
  }

  /** `check_ends_with_newline(file)`: the same test, and the same failure on an empty file. */
  function CheckEndsWithNewline(contents: seq<byte>): (r: Result<bool>)
    ensures r == EndsWithNewline(contents)
  {
    if |contents| == 0 then Err(OSError) else Ok(contents[|contents| - 1] == 0x0A)
  }
}

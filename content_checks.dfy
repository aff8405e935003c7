/**
 * The line validators of functions/content_checks.py. A text file is the
 * sequence of lines its iterator yields (each with its line terminator, if it
 * has one); the newline test reads the file as bytes.
 */
module ContentChecks {
  import opened Wrappers
  import opened Strings

  /** A header line of a FASTA file (`line.startswith(">")`). */
  predicate IsHeader(line: string) {
    StartsWith(line, ">")
  }

  // ---------------------------------------------------------------------------
  // line_length_check

  /** The limit every line-length check uses when its caller gives none. */
  const DEFAULT_MAX_LENGTH: int := 80

  /** A line counts as long when it is longer than the limit once trailing whitespace is dropped. */
  predicate IsLong(line: string, maxLength: int) {
    |RStrip(line)| > maxLength
  }

  const LONGER_THAN: string := " is longer than "
  const CHARACTERS: string := " characters."

  function LongLineMessage(lineNumber: nat, maxLength: int): string {
    "Line " + NatToString(lineNumber) + LONGER_THAN + IntToString(maxLength) + CHARACTERS
  }

  /** The 1-based numbers of the long lines, in file order. */
  function LongLines(lines: seq<string>, maxLength: int): (nums: seq<nat>)
    ensures forall k :: 0 <= k < |nums| ==> 1 <= nums[k] <= |lines| && IsLong(lines[nums[k] - 1], maxLength)
    ensures forall j, k :: 0 <= j < k < |nums| ==> nums[j] < nums[k]
  {
    if lines == [] then []
    else
      var prefix := LongLines(lines[..|lines| - 1], maxLength);
      assert forall k :: 0 <= k < |prefix| ==> lines[..|lines| - 1][prefix[k] - 1] == lines[prefix[k] - 1];
      prefix + if IsLong(lines[|lines| - 1], maxLength) then [|lines|] else []
  }

  function MessagesFor(nums: seq<nat>, maxLength: int): (msgs: seq<string>)
    ensures |msgs| == |nums|
    ensures forall k :: 0 <= k < |nums| ==> msgs[k] == LongLineMessage(nums[k], maxLength)
  {
    seq(|nums|, k requires 0 <= k < |nums| => LongLineMessage(nums[k], maxLength))
  }

  /** Every long line is listed (the converse of LongLines' own contract). */
  lemma {:induction false} LongLinesComplete(lines: seq<string>, maxLength: int, n: nat)
    requires 1 <= n <= |lines| && IsLong(lines[n - 1], maxLength)
    ensures n in LongLines(lines, maxLength)
  {
    if n < |lines| {
      var init := lines[..|lines| - 1];
      assert init[n - 1] == lines[n - 1];
      LongLinesComplete(init, maxLength, n);
    }
  }

  /** A line whose stripped length is exactly the limit is not reported. */
  lemma AtLimitNotReported(lines: seq<string>, maxLength: int, n: nat)
    requires 1 <= n <= |lines| && |RStrip(lines[n - 1])| == maxLength
    ensures n !in LongLines(lines, maxLength)
  {
  }

  /** Reading one more line adds its message, if it is long, after the earlier ones. */
  lemma MessagesStep(lines: seq<string>, maxLength: int, i: nat)
    requires 1 <= i <= |lines|
    ensures MessagesFor(LongLines(lines[..i], maxLength), maxLength) ==
      MessagesFor(LongLines(lines[..i - 1], maxLength), maxLength) +
      if IsLong(lines[i - 1], maxLength) then [LongLineMessage(i, maxLength)] else []
  {
    assert lines[..i][..i - 1] == lines[..i - 1];
    var prefix := LongLines(lines[..i - 1], maxLength);
    var added: seq<nat> := if IsLong(lines[i - 1], maxLength) then [i] else [];
    assert LongLines(lines[..i], maxLength) == prefix + added;
    var whole := MessagesFor(prefix + added, maxLength);
    var expected := MessagesFor(prefix, maxLength) + MessagesFor(added, maxLength);
    assert |whole| == |expected|;
    forall k | 0 <= k < |whole|
      ensures whole[k] == expected[k]
    {
      if k < |prefix| {
        assert (prefix + added)[k] == prefix[k];
      } else {
        assert (prefix + added)[k] == added[k - |prefix|];
      }
    }
  }

  /** `line_length_check(file, max_length)`: one message per long line, in ascending line order. */
  method LineLengthCheck(lines: seq<string>, maxLength: int := DEFAULT_MAX_LENGTH) returns (warnings: seq<string>)
    ensures warnings == MessagesFor(LongLines(lines, maxLength), maxLength)
  {
    warnings := [];
    for i := 1 to |lines| + 1
      invariant warnings == MessagesFor(LongLines(lines[..i - 1], maxLength), maxLength)
    {
      var line := lines[i - 1];
      MessagesStep(lines, maxLength, i);
      if |RStrip(line)| > maxLength {
        warnings := warnings + [LongLineMessage(i, maxLength)];
      }
    }
    assert lines[..|lines|] == lines;
  }

  /**
   * At the default limit, line n is reported exactly when it has more than 80
   * characters before its trailing whitespace.
   */
  lemma DefaultLimitReports(lines: seq<string>)
    ensures forall n: nat :: n in LongLines(lines, DEFAULT_MAX_LENGTH) <==>
      1 <= n <= |lines| && |RStrip(lines[n - 1])| > 80
  {
    forall n: nat | 1 <= n <= |lines| && |RStrip(lines[n - 1])| > 80
      ensures n in LongLines(lines, DEFAULT_MAX_LENGTH)
    {
      LongLinesComplete(lines, DEFAULT_MAX_LENGTH, n);
    }
  }

  /** At the default limit, every message names the limit 80. */
  lemma DefaultLimitMessages(nums: seq<nat>)
    ensures forall k :: 0 <= k < |nums| ==>
      MessagesFor(nums, DEFAULT_MAX_LENGTH)[k] == "Line " + NatToString(nums[k]) + " is longer than 80 characters."
  {
  }

  /** Different line numbers give different messages: the number reads back from the text. */
  lemma {:induction false} LongLineMessageInjective(a: nat, b: nat, maxLength: int)
    requires LongLineMessage(a, maxLength) == LongLineMessage(b, maxLength)
    ensures a == b
  {
    var tail := LONGER_THAN + IntToString(maxLength) + CHARACTERS;
    var sa, sb := NatToString(a), NatToString(b);
    MessageShape(a, maxLength);
    MessageShape(b, maxLength);
    assert ("Line " + (sa + tail))[5..] == sa + tail;
    assert ("Line " + (sb + tail))[5..] == sb + tail;
    DigitsThenSpace(sa, sb, tail);
    ParseNatToString(a);
    ParseNatToString(b);
  }

  /** The message is "Line ", the number, then a text that does not depend on it. */
  lemma MessageShape(n: nat, maxLength: int)
    ensures LongLineMessage(n, maxLength) == "Line " + (NatToString(n) + (LONGER_THAN + IntToString(maxLength) + CHARACTERS))
  {
  }

  /** A digit string followed by a text that starts with a space is recovered from the whole. */
  lemma DigitsThenSpace(sa: string, sb: string, tail: string)
    requires forall i :: 0 <= i < |sa| ==> '0' <= sa[i] <= '9'
    requires forall i :: 0 <= i < |sb| ==> '0' <= sb[i] <= '9'
    requires |tail| > 0 && tail[0] == ' '
    requires sa + tail == sb + tail
    ensures sa == sb
  {
    DigitRun(sa, tail);
    DigitRun(sb, tail);
    if |sa| != |sb| {
      assert false;
    }
    assert forall i :: 0 <= i < |sa| ==> sa[i] == (sa + tail)[i] == (sb + tail)[i] == sb[i];
  }

  /** In a digit string followed by a space, the digits end exactly where the string does. */
  lemma DigitRun(s: string, tail: string)
    requires forall i :: 0 <= i < |s| ==> '0' <= s[i] <= '9'
    requires |tail| > 0 && tail[0] == ' '
    ensures forall i :: 0 <= i < |s| ==> '0' <= (s + tail)[i] <= '9'
    ensures (s + tail)[|s|] == ' '
  {
  }

  /** The long-line messages of a file are pairwise different. */
  lemma LongLineMessagesDistinct(lines: seq<string>, maxLength: int)
    ensures forall j, k :: 0 <= j < k < |LongLines(lines, maxLength)| ==>
      MessagesFor(LongLines(lines, maxLength), maxLength)[j] != MessagesFor(LongLines(lines, maxLength), maxLength)[k]
  {
    var nums := LongLines(lines, maxLength);
    var msgs := MessagesFor(nums, maxLength);
    forall j, k | 0 <= j < k < |nums|
      ensures msgs[j] != msgs[k]
    {
      if msgs[j] == msgs[k] {
        LongLineMessageInjective(nums[j], nums[k], maxLength);
      }
    }
  }

  // ---------------------------------------------------------------------------
  // determine_fasta_type

  datatype FastaType = Nucleotide | Protein | Unknown

  const NUCLEOTIDE_CHARS: string := "ACGTUMRSWYKVHDBN-"
  const PROTEIN_CHARS: string := "ABCDEFGHIKLMNPQRSTVWXYZ*-"

  /** Membership in PROTEIN_CHARS, spelled out as ranges (see ProteinLetters). */
  predicate InProtein(u: char) {
    ('A' <= u <= 'I') || ('K' <= u <= 'N') || ('P' <= u <= 'T') || ('V' <= u <= 'Z') || u == '*' || u == '-'
  }

  /** Membership in NUCLEOTIDE_CHARS, spelled out (see NucleotideLetters). */
  predicate InNucleotide(u: char) {
    u == 'A' || u == 'C' || u == 'G' || u == 'T' || u == 'U' || u == 'M' || u == 'R' || u == 'S' || u == 'W'
    || u == 'Y' || u == 'K' || u == 'V' || u == 'H' || u == 'D' || u == 'B' || u == 'N' || u == '-'
  }

  lemma ProteinLetters(u: char)
    ensures InProtein(u) <==> u in PROTEIN_CHARS
  {
  }

  lemma NucleotideLetters(u: char)
    ensures InNucleotide(u) <==> u in NUCLEOTIDE_CHARS
  {
  }

  /** A character decides the type when its upper case is in exactly one of the alphabets. */
  function Decide(c: char): (d: Option<FastaType>)
    ensures d != Some(Unknown)
  {
    var u := UpperChar(c);
    if InProtein(u) && !InNucleotide(u) then Some(Protein)
    else if InNucleotide(u) && !InProtein(u) then Some(Nucleotide)
    else None
  }

  /** The decision of the first deciding character of `chars`, scanning from index `j`. */
  function FirstDecisionFrom(chars: string, j: nat): FastaType
    decreases |chars| - j
  {
    if j >= |chars| then Unknown
    else if Decide(chars[j]).Some? then Decide(chars[j]).value
    else FirstDecisionFrom(chars, j + 1)
  }

  /** What one line decides on its own: a header decides nothing. */
  function LineType(line: string): FastaType {
    if IsHeader(line) then Unknown else FirstDecisionFrom(Strip(line), 0)
  }

  /** The type the scan finds from line `i` on: the first line that decides. */
  function FastaTypeFrom(lines: seq<string>, i: nat): FastaType
    decreases |lines| - i
  {
    if i >= |lines| then Unknown
    else if LineType(lines[i]) != Unknown then LineType(lines[i])
    else FastaTypeFrom(lines, i + 1)
  }

  function FastaTypeOf(lines: seq<string>): FastaType {
    FastaTypeFrom(lines, 0)
  }

  /** `determine_fasta_type(file)`: the nested scan with its early returns. */
  method DetermineFastaType(lines: seq<string>) returns (t: FastaType)
    ensures t == FastaTypeOf(lines)
  {
    for i := 0 to |lines|
      invariant FastaTypeFrom(lines, i) == FastaTypeOf(lines)
    {
      var line := lines[i];
      if StartsWith(line, ">") {
        continue;
      }
      var chars := Strip(line);
      for j := 0 to |chars|
        invariant FirstDecisionFrom(chars, j) == FirstDecisionFrom(chars, 0)
      {
        var u := UpperChar(chars[j]);
        if InProtein(u) && !InNucleotide(u) {
          return Protein;
        }
        if InNucleotide(u) && !InProtein(u) {
          return Nucleotide;
        }
      }
    }
    return Unknown;
  }

  predicate NoDecisionFrom(chars: string, j: nat) {
    forall k :: j <= k < |chars| ==> Decide(chars[k]).None?
  }

  /** The first deciding character of `chars` (from `j` on) names the decision; none means Unknown. */
  lemma {:induction false} FirstDecisionSpec(chars: string, j: nat)
    requires j <= |chars|
    ensures FirstDecisionFrom(chars, j) == Unknown <==> NoDecisionFrom(chars, j)
    ensures FirstDecisionFrom(chars, j) != Unknown ==>
      exists k :: j <= k < |chars| && Decide(chars[k]) == Some(FirstDecisionFrom(chars, j))
        && forall m :: j <= m < k ==> Decide(chars[m]).None?
    decreases |chars| - j
  {
    if j < |chars| {
      if Decide(chars[j]).Some? {
        assert FirstDecisionFrom(chars, j) == Decide(chars[j]).value;
      } else {
        assert FirstDecisionFrom(chars, j) == FirstDecisionFrom(chars, j + 1);
        FirstDecisionSpec(chars, j + 1);
        assert NoDecisionFrom(chars, j) <==> NoDecisionFrom(chars, j + 1);
        if FirstDecisionFrom(chars, j) != Unknown {
          var k :| j + 1 <= k < |chars| && Decide(chars[k]) == Some(FirstDecisionFrom(chars, j + 1))
            && forall m :: j + 1 <= m < k ==> Decide(chars[m]).None?;
          assert forall m :: j <= m < k ==> Decide(chars[m]).None?;
        }
      }
    }
  }

  /** A line that cannot decide the type: a header, or no deciding character once stripped. */
  predicate Undecided(line: string) {
    IsHeader(line) || NoDecisionFrom(Strip(line), 0)
  }

  /** A line is undecided exactly when the scan of that line alone yields Unknown. */
  lemma UndecidedLine(line: string)
    ensures Undecided(line) <==> LineType(line) == Unknown
  {
    if !IsHeader(line) {
      FirstDecisionSpec(Strip(line), 0);
    }
  }

  /** The type is Unknown exactly when no non-header line holds a deciding character. */
  lemma {:induction false} FastaTypeUnknownSpec(lines: seq<string>, i: nat)
    requires i <= |lines|
    ensures FastaTypeFrom(lines, i) == Unknown <==> forall n :: i <= n < |lines| ==> Undecided(lines[n])
    decreases |lines| - i
  {
    if i < |lines| {
      FastaTypeUnknownSpec(lines, i + 1);
      UndecidedLine(lines[i]);
      var undecidedHere := Undecided(lines[i]);
      assert undecidedHere <==> LineType(lines[i]) == Unknown;
      assert (FastaTypeFrom(lines, i) == Unknown) <==> undecidedHere && FastaTypeFrom(lines, i + 1) == Unknown;
      assert (forall n :: i <= n < |lines| ==> Undecided(lines[n]))
        <==> undecidedHere && forall n :: i + 1 <= n < |lines| ==> Undecided(lines[n]);
    }
  }

  /**
   * A known type is the decision of the first non-header line holding a
   * deciding character (on that line, its first deciding character).
   */
  lemma {:induction false} FastaTypeDecidedSpec(lines: seq<string>, i: nat)
    requires i <= |lines|
    ensures FastaTypeFrom(lines, i) != Unknown ==>
      exists n :: i <= n < |lines| && !IsHeader(lines[n])
        && FirstDecisionFrom(Strip(lines[n]), 0) == FastaTypeFrom(lines, i)
        && forall m :: i <= m < n ==> Undecided(lines[m])
    decreases |lines| - i
  {
    if i < |lines| && FastaTypeFrom(lines, i) != Unknown {
      if LineType(lines[i]) != Unknown {
        assert FastaTypeFrom(lines, i) == FirstDecisionFrom(Strip(lines[i]), 0);
      } else {
        UndecidedLine(lines[i]);
        assert Undecided(lines[i]);
        assert FastaTypeFrom(lines, i) == FastaTypeFrom(lines, i + 1);
        FastaTypeDecidedSpec(lines, i + 1);
        var n :| i + 1 <= n < |lines| && !IsHeader(lines[n])
          && FirstDecisionFrom(Strip(lines[n]), 0) == FastaTypeFrom(lines, i + 1)
          && forall m :: i + 1 <= m < n ==> Undecided(lines[m]);
        assert forall m :: i <= m < n ==> Undecided(lines[m]);
      }
    }
  }

  /** Inserting a header line anywhere does not change the type. */
  lemma {:induction false} HeaderLinesIgnored(before: seq<string>, header: string, after: seq<string>)
    requires IsHeader(header)
    ensures FastaTypeOf(before + [header] + after) == FastaTypeOf(before + after)
  {
    HeaderShift(before, header, after, 0);
  }

  lemma {:induction false} HeaderShift(before: seq<string>, header: string, after: seq<string>, i: nat)
    requires IsHeader(header) && i <= |before|
    ensures FastaTypeFrom(before + [header] + after, i) == FastaTypeFrom(before + after, i)
    decreases |before| - i
  {
    var withH := before + [header] + after;
    var without := before + after;
    if i < |before| {
      assert withH[i] == without[i] == before[i];
      HeaderShift(before, header, after, i + 1);
    } else {
      assert withH[i] == header;
      assert LineType(header) == Unknown;
      AfterHeader(before, header, after, 0);
    }
  }

  lemma {:induction false} AfterHeader(before: seq<string>, header: string, after: seq<string>, k: nat)
    requires k <= |after|
    ensures FastaTypeFrom(before + [header] + after, |before| + 1 + k) == FastaTypeFrom(before + after, |before| + k)
    decreases |after| - k
  {
    var withH := before + [header] + after;
    var without := before + after;
    if k < |after| {
      assert withH[|before| + 1 + k] == without[|before| + k] == after[k];
      AfterHeader(before, header, after, k + 1);
    }
  }

  /** Only `U` (either case) decides Nucleotide: every other nucleotide letter is also a protein letter. */
  lemma NucleotideOnlyByU(c: char)
    ensures Decide(c) == Some(Nucleotide) <==> UpperChar(c) == 'U'
  {
  }

  /** A letter of plain DNA (A, C, G, T or N, in either case), or whitespace. */
  predicate PlainDnaChar(c: char) {
    c == 'A' || c == 'C' || c == 'G' || c == 'T' || c == 'N'
    || c == 'a' || c == 'c' || c == 'g' || c == 't' || c == 'n' || IsSpace(c)
  }

  /** A file of A, C, G, T and N (either case) and whitespace alone is classified Unknown. */
  lemma PlainDnaIsUnknown(lines: seq<string>)
    requires forall n :: 0 <= n < |lines| ==> forall c :: c in lines[n] ==> PlainDnaChar(c)
    ensures FastaTypeOf(lines) == Unknown
  {
    forall n | 0 <= n < |lines|
      ensures Undecided(lines[n])
    {
      var s := Strip(lines[n]);
      forall k | 0 <= k < |s|
        ensures Decide(s[k]).None?
      {
        StripInside(lines[n], k);
      }
      assert NoDecisionFrom(s, 0);
    }
    FastaTypeUnknownSpec(lines, 0);
  }

  /** A character of the stripped line is a character of the line. */
  lemma StripInside(line: string, k: nat)
    requires k < |Strip(line)|
    ensures Strip(line)[k] in line
  {
    var r := RStrip(line);
    var s := LStrip(r);
    RStripSpec(line);
    LStripSpec(r);
    assert s[k] == r[|r| - |s| + k];
    assert r[|r| - |s| + k] == line[|r| - |s| + k];
  }

  // ---------------------------------------------------------------------------
  // allowed_character_check

  /** What the scan returns: the line number of the first offending line, or True. */
  datatype LineCheck = AllAllowed | DisallowedAt(lineNumber: nat)

  /** A character is allowed when its upper case is in the upper-cased alphabet. */
  predicate Allowed(c: char, allowedUpper: string) {
    UpperChar(c) in allowedUpper
  }

  /** Some character of the stripped line is not allowed. */
  predicate Rejects(line: string, allowedUpper: string) {
    exists k :: 0 <= k < |Strip(line)| && !Allowed(Strip(line)[k], allowedUpper)
  }

  /** A line the scan stops at: not a header, and holding a character outside the alphabet. */
  predicate Offending(line: string, allowedUpper: string) {
    !IsHeader(line) && Rejects(line, allowedUpper)
  }

  function FirstDisallowedFrom(lines: seq<string>, allowedUpper: string, i: nat): LineCheck
    decreases |lines| - i
  {
    if i >= |lines| then AllAllowed
    else if Offending(lines[i], allowedUpper) then DisallowedAt(i + 1)
    else FirstDisallowedFrom(lines, allowedUpper, i + 1)
  }

  function FirstDisallowed(lines: seq<string>, allowed: string): LineCheck {
    FirstDisallowedFrom(lines, Upper(allowed), 0)
  }

  /** `allowed_character_check(file, allowed_chars)`; header lines are counted but never checked. */
  method AllowedCharacterCheck(lines: seq<string>, allowed: string) returns (r: LineCheck)
    ensures r == FirstDisallowed(lines, allowed)
  {
    var count := 0;
    var allowedUpper := Upper(allowed);
    for i := 0 to |lines|
      invariant count == i
      invariant forall n :: 0 <= n < i ==> !Offending(lines[n], allowedUpper)
    {
      var line := lines[i];
      count := count + 1;
      if StartsWith(line, ">") {
        continue;
      }
      var chars := Strip(line);
      for j := 0 to |chars|
        invariant forall k :: 0 <= k < j ==> Allowed(chars[k], allowedUpper)
      {
        if !Allowed(chars[j], allowedUpper) {
          assert Offending(line, allowedUpper);
          FirstOffending(lines, allowedUpper, i);
          return DisallowedAt(count);
        }
      }
    }
    AllAllowedSpec(lines, allowedUpper, 0);
    return AllAllowed;
  }

  /** AllAllowed means that no line from `i` on is offending. */
  lemma {:induction false} AllAllowedSpec(lines: seq<string>, allowedUpper: string, i: nat)
    requires i <= |lines|
    ensures FirstDisallowedFrom(lines, allowedUpper, i) == AllAllowed <==>
      forall n :: i <= n < |lines| ==> !Offending(lines[n], allowedUpper)
    decreases |lines| - i
  {
    if i < |lines| {
      AllAllowedSpec(lines, allowedUpper, i + 1);
    }
  }

  /** DisallowedAt(n) names the first offending line, 1-based, headers counted. */
  lemma {:induction false} DisallowedAtSpec(lines: seq<string>, allowedUpper: string, i: nat)
    requires i <= |lines|
    ensures FirstDisallowedFrom(lines, allowedUpper, i).DisallowedAt? ==>
      var n := FirstDisallowedFrom(lines, allowedUpper, i).lineNumber;
      i + 1 <= n <= |lines| && Offending(lines[n - 1], allowedUpper)
      && forall m :: i <= m < n - 1 ==> !Offending(lines[m], allowedUpper)
    decreases |lines| - i
  {
    if i < |lines| && !Offending(lines[i], allowedUpper) {
      DisallowedAtSpec(lines, allowedUpper, i + 1);
    }
  }

  /** The scan stops exactly at the first offending line. */
  lemma FirstOffending(lines: seq<string>, allowedUpper: string, n: nat)
    requires n < |lines| && Offending(lines[n], allowedUpper)
    requires forall m :: 0 <= m < n ==> !Offending(lines[m], allowedUpper)
    ensures FirstDisallowedFrom(lines, allowedUpper, 0) == DisallowedAt(n + 1)
  {
    AllAllowedSpec(lines, allowedUpper, 0);
    DisallowedAtSpec(lines, allowedUpper, 0);
  }

  /** A line that passes a narrower alphabet passes a wider one too. */
  lemma PassesWider(line: string, narrow: string, wide: string)
    requires forall c :: c in narrow ==> c in wide
    requires !Offending(line, narrow)
    ensures !Offending(line, wide)
  {
    if !IsHeader(line) {
      forall k | 0 <= k < |Strip(line)|
        ensures Allowed(Strip(line)[k], wide)
      {
        assert Allowed(Strip(line)[k], narrow);
      }
    }
  }

  /** Widening the alphabet never turns a passing file into a failing one. */
  lemma AlphabetWidening(lines: seq<string>, narrow: string, wide: string)
    requires forall c :: c in narrow ==> c in wide
    requires FirstDisallowedFrom(lines, narrow, 0) == AllAllowed
    ensures FirstDisallowedFrom(lines, wide, 0) == AllAllowed
  {
    AllAllowedSpec(lines, narrow, 0);
    AllAllowedSpec(lines, wide, 0);
    forall n | 0 <= n < |lines|
      ensures !Offending(lines[n], wide)
    {
      PassesWider(lines[n], narrow, wide);
    }
  }

  /** Both alphabets of `determine_fasta_type` are already upper case. */
  lemma AlphabetsUpper()
    ensures Upper(NUCLEOTIDE_CHARS) == NUCLEOTIDE_CHARS
    ensures Upper(PROTEIN_CHARS) == PROTEIN_CHARS
  {
    forall i | 0 <= i < |NUCLEOTIDE_CHARS|
      ensures !('a' <= NUCLEOTIDE_CHARS[i] <= 'z')
    {
      NucleotideLetters(NUCLEOTIDE_CHARS[i]);
    }
    UpperIdentity(NUCLEOTIDE_CHARS);
    forall i | 0 <= i < |PROTEIN_CHARS|
      ensures !('a' <= PROTEIN_CHARS[i] <= 'z')
    {
      ProteinLetters(PROTEIN_CHARS[i]);
    }
    UpperIdentity(PROTEIN_CHARS);
  }

  /** The alphabet is compared case-insensitively: upper-casing it first changes nothing. */
  lemma AlphabetCaseInsensitive(lines: seq<string>, allowed: string)
    ensures FirstDisallowed(lines, Upper(allowed)) == FirstDisallowed(lines, allowed)
  {
    assert Upper(Upper(allowed)) == Upper(allowed);
  }

  // ---------------------------------------------------------------------------
  // ends_with_newline

  /** `ends_with_newline(file)`: seeking one byte back from the end fails on an empty file. */
  function EndsWithNewline(contents: seq<byte>): (r: Result<bool>)
    ensures r.Err? <==> contents == []
    ensures r.Ok? ==> (r.value <==> contents[|contents| - 1] == 0x0A)
  {
    if contents == [] then Err(OSError) else Ok(contents[|contents| - 1] == 0x0A)
  }

  /** Appending a newline byte always yields a file that passes. */
  lemma NewlineAppended(contents: seq<byte>)
    ensures EndsWithNewline(contents + [0x0A]) == Ok(true)
  {
  }
}

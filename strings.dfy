/**
 * The handful of Python `str` operations the modelled code uses, over `seq<char>`:
 * `startswith`, `in`, `split(sep)`, `join`, `replace`, `splitlines`, `strip`,
 * `rstrip`, `upper` and `str(int)`. Whitespace and upper-casing follow Python
 * on ASCII characters; other characters are left as they are.
 */
module Strings {
  import opened Wrappers

  // ---------------------------------------------------------------------------
  // Characters

  /** Python's `str.isspace` restricted to ASCII: space, \t \n \v \f \r and \x1c-\x1f. */
  predicate IsSpace(c: char) {
    c == ' ' || ('\t' <= c <= '\r') || ('\U{1c}' <= c <= '\U{1f}')
  }

  /** ASCII upper-casing of one character, as `str.upper` does on ASCII. */
  function UpperChar(c: char): (u: char)
    ensures 'a' <= c <= 'z' ==> u as int == c as int - 32
    ensures !('a' <= c <= 'z') ==> u == c
  {
    if 'a' <= c <= 'z' then (c as int - 32) as char else c
  }

  function Upper(s: string): (r: string)
    ensures |r| == |s|
  {
    seq(|s|, i requires 0 <= i < |s| => UpperChar(s[i]))
  }

  /** A string without lower-case ASCII letters is its own upper case. */
  lemma UpperIdentity(s: string)
    requires forall i :: 0 <= i < |s| ==> !('a' <= s[i] <= 'z')
    ensures Upper(s) == s
  {
    assert forall i :: 0 <= i < |s| ==> Upper(s)[i] == s[i];
  }

  /** The characters on which `str.splitlines` breaks a line. */
  predicate IsLineBreak(c: char) {
    c == '\n' || c == '\r' || c == '\U{0b}' || c == '\U{0c}' || c == '\U{1c}' || c == '\U{1d}'
    || c == '\U{1e}' || c == '\U{85}' || c == '\U{2028}' || c == '\U{2029}'
  }

  // ---------------------------------------------------------------------------
  // Stripping

  /** `str.rstrip()` with no argument (see RStripSpec). */
  function RStrip(s: string): (r: string)
    ensures |r| <= |s|
  {
    if s == [] then []
    else if IsSpace(s[|s| - 1]) then RStrip(s[..|s| - 1])
    else s
  }

  /** `rstrip` keeps a prefix, drops only whitespace, and leaves no whitespace at the end. */
  lemma {:induction false} RStripSpec(s: string)
    ensures RStrip(s) == s[..|RStrip(s)|]
    ensures RStrip(s) == [] || !IsSpace(RStrip(s)[|RStrip(s)| - 1])
    ensures forall i :: |RStrip(s)| <= i < |s| ==> IsSpace(s[i])
  {
    if s != [] && IsSpace(s[|s| - 1]) {
      RStripSpec(s[..|s| - 1]);
    }
  }

  /** `str.lstrip()` with no argument (see LStripSpec). */
  function LStrip(s: string): (r: string)
    ensures |r| <= |s|
  {
    if s == [] then []
    else if IsSpace(s[0]) then LStrip(s[1..])
    else s
  }

  /** `lstrip` keeps a suffix, drops only whitespace, and leaves no whitespace at the start. */
  lemma {:induction false} LStripSpec(s: string)
    ensures LStrip(s) == s[|s| - |LStrip(s)|..]
    ensures LStrip(s) == [] || !IsSpace(LStrip(s)[0])
    ensures forall i :: 0 <= i < |s| - |LStrip(s)| ==> IsSpace(s[i])
  {
    if s != [] && IsSpace(s[0]) {
      LStripSpec(s[1..]);
    }
  }

  /** `str.strip()` with no argument. */
  function Strip(s: string): string {
    LStrip(RStrip(s))
  }

  // ---------------------------------------------------------------------------
  // Searching

  predicate StartsWith(s: string, prefix: string) {
    |prefix| <= |s| && s[..|prefix|] == prefix
  }

  predicate OccursAt(s: string, pat: string, i: int) {
    0 <= i && i + |pat| <= |s| && s[i..i + |pat|] == pat
  }

  /** Python's `pat in s`. */
  predicate Contains(s: string, pat: string) {
    exists i | 0 <= i <= |s| - |pat| :: OccursAt(s, pat, i)
  }

  /** `s.find(pat, from)` for a non-empty pattern, as an Option. */
  function FindFrom(s: string, pat: string, from: nat): (r: Option<nat>)
    requires |pat| > 0
    ensures r.Some? ==> from <= r.value && OccursAt(s, pat, r.value)
    ensures r.Some? ==> forall j :: from <= j < r.value ==> !OccursAt(s, pat, j)
    ensures r.None? ==> forall j :: from <= j ==> !OccursAt(s, pat, j)
    decreases |s| - from
  {
    if from + |pat| > |s| then None
    else if s[from..from + |pat|] == pat then Some(from)
    else FindFrom(s, pat, from + 1)
  }

  function FindFirst(s: string, pat: string): (r: Option<nat>)
    requires |pat| > 0
    ensures r.Some? <==> Contains(s, pat)
    ensures r.Some? ==> OccursAt(s, pat, r.value)
    ensures r.Some? ==> forall j :: 0 <= j < r.value ==> !OccursAt(s, pat, j)
  {
    FindFrom(s, pat, 0)
  }

  // ---------------------------------------------------------------------------
  // Splitting and joining

  /** `s.split(sep)` for a non-empty separator. */
  function Split(s: string, sep: string): (parts: seq<string>)
    requires |sep| > 0
    ensures |parts| >= 1
    decreases |s|
  {
    match FindFirst(s, sep)
    case None => [s]
    case Some(k) => [s[..k]] + Split(s[k + |sep|..], sep)
  }

  /** `sep.join(parts)`. */
  function Join(parts: seq<string>, sep: string): string {
    if parts == [] then ""
    else if |parts| == 1 then parts[0]
    else parts[0] + sep + Join(parts[1..], sep)
  }

  /** `s.replace(old, new)` for a non-empty `target`: split on it and re-join with `replacement`. */
  function ReplaceAll(s: string, target: string, replacement: string): string
    requires |target| > 0
  {
    Join(Split(s, target), replacement)
  }

  function LastOf(parts: seq<string>): string
    requires |parts| > 0
  {
    parts[|parts| - 1]
  }

  /** Joining a piece in front of at least one more. */
  lemma JoinCons(a: string, tail: seq<string>, sep: string)
    requires |tail| >= 1
    ensures Join([a] + tail, sep) == a + sep + Join(tail, sep)
  {
    assert ([a] + tail)[1..] == tail;
  }

  /** A string is what comes before an occurrence, the occurrence, and what follows. */
  lemma AroundOccurrence(s: string, pat: string, i: nat)
    requires OccursAt(s, pat, i)
    ensures s == s[..i] + pat + s[i + |pat|..]
  {
    assert s == s[..i] + s[i..i + |pat|] + s[i + |pat|..];
  }

  /** The splitting is undone by joining with the same separator. */
  lemma {:induction false} JoinSplit(s: string, sep: string)
    requires |sep| > 0
    ensures Join(Split(s, sep), sep) == s
    decreases |s|
  {
    var found := FindFirst(s, sep);
    if found.Some? {
      var k := found.value;
      var rest := s[k + |sep|..];
      assert Split(s, sep) == [s[..k]] + Split(rest, sep);
      JoinSplit(rest, sep);
      JoinCons(s[..k], Split(rest, sep), sep);
      AroundOccurrence(s, sep, k);
    }
  }

  /** No separator in `s`: it splits into itself alone. */
  lemma SplitWithout(s: string, sep: string)
    requires |sep| > 0 && !Contains(s, sep)
    ensures Split(s, sep) == [s]
  {
  }

  /** No occurrence of `sep` starts inside `a`, so the first one is the one after `a`. */
  lemma {:induction false} SplitAt(a: string, sep: string, b: string)
    requires |sep| > 0
    requires forall j :: 0 <= j < |a| ==> !OccursAt(a + sep + b, sep, j)
    ensures Split(a + sep + b, sep) == [a] + Split(b, sep)
  {
    var s := a + sep + b;
    assert OccursAt(s, sep, |a|) by { assert s[|a|..|a| + |sep|] == sep; }
    var k := FindFirst(s, sep);
    assert k == Some(|a|);
    assert s[..|a|] == a;
    assert s[|a| + |sep|..] == b;
  }

  /** A separator whose first character does not occur in `a` cannot start inside `a`. */
  lemma NoEarlyOccurrenceFreeChar(a: string, sep: string, b: string)
    requires |sep| > 0
    requires forall i :: 0 <= i < |a| ==> a[i] != sep[0]
    ensures forall j :: 0 <= j < |a| ==> !OccursAt(a + sep + b, sep, j)
  {
    forall j | 0 <= j < |a|
      ensures !OccursAt(a + sep + b, sep, j)
    {
      assert (a + sep + b)[j] == a[j];
    }
  }

  /**
   * A separator whose first character does not recur inside it cannot overlap
   * the end of `a`; so if `a` does not contain it, none starts inside `a`.
   */
  lemma NoEarlyOccurrenceUnbordered(a: string, sep: string, b: string)
    requires |sep| > 0
    requires forall i :: 1 <= i < |sep| ==> sep[i] != sep[0]
    requires !Contains(a, sep)
    ensures forall j :: 0 <= j < |a| ==> !OccursAt(a + sep + b, sep, j)
  {
    var s := a + sep + b;
    forall j | 0 <= j < |a|
      ensures !OccursAt(s, sep, j)
    {
      if j + |sep| <= |a| {
        assert s[j..j + |sep|] == a[j..j + |sep|];
        assert !OccursAt(a, sep, j);
      } else {
        var d := |a| - j;
        assert s[|a|] == sep[0];
        assert s[j..j + |sep|][d] == s[|a|];
        assert sep[d] != s[|a|];
      }
    }
  }

  /** Containing a longer pattern means containing its prefixes. */
  lemma ContainsPrefix(s: string, pat: string, more: string)
    requires Contains(s, pat + more)
    ensures Contains(s, pat)
  {
    var i :| 0 <= i <= |s| - |pat + more| && OccursAt(s, pat + more, i);
    assert s[i..i + |pat|] == (pat + more)[..|pat|];
    assert OccursAt(s, pat, i);
  }

  /** With a one-character separator, the last piece of `a + sep + b`, when `b` holds no separator, is `b`. */
  lemma {:induction false} LastOfSplit(a: string, sep: string, b: string)
    requires |sep| == 1 && !Contains(b, sep)
    ensures LastOf(Split(a + sep + b, sep)) == b
    decreases |a|
  {
    var s := a + sep + b;
    assert OccursAt(s, sep, |a|) by { assert s[|a|..|a| + 1] == sep; }
    var k := FindFirst(s, sep).value;
    assert k <= |a|;
    var tail := Split(s[k + 1..], sep);
    assert Split(s, sep) == [s[..k]] + tail;
    if k == |a| {
      assert s[k + 1..] == b;
      SplitWithout(b, sep);
    } else {
      var a' := a[k + 1..];
      assert s[k + 1..] == a' + sep + b;
      LastOfSplit(a', sep, b);
    }
  }

  /** A one-character pattern occurs exactly when its character does. */
  lemma ContainsSingle(s: string, c: char)
    ensures Contains(s, [c]) <==> c in s
  {
    if c in s {
      var i :| 0 <= i < |s| && s[i] == c;
      assert OccursAt(s, [c], i);
    }
    if Contains(s, [c]) {
      var i :| 0 <= i <= |s| - 1 && OccursAt(s, [c], i);
      assert s[i] == s[i..i + 1][0];
    }
  }

  /** What a prefix contains, the whole string contains. */
  lemma ContainsInPrefix(s: string, n: nat, pat: string)
    requires n <= |s| && Contains(s[..n], pat)
    ensures Contains(s, pat)
  {
    var i :| 0 <= i <= n - |pat| && OccursAt(s[..n], pat, i);
    assert s[..n][i..i + |pat|] == s[i..i + |pat|];
    assert OccursAt(s, pat, i);
  }

  /** The first piece of a split is a prefix of the string. */
  lemma SplitFirstPrefix(s: string, sep: string)
    requires |sep| > 0
    ensures |Split(s, sep)[0]| <= |s| && Split(s, sep)[0] == s[..|Split(s, sep)[0]|]
  {
  }

  /** A prefix in which no occurrence starts does not contain the pattern. */
  lemma NoOccurrenceInPrefix(s: string, pat: string, n: nat)
    requires |pat| > 0 && n <= |s|
    requires forall j :: 0 <= j < n ==> !OccursAt(s, pat, j)
    ensures !Contains(s[..n], pat)
  {
    if Contains(s[..n], pat) {
      var j :| 0 <= j <= n - |pat| && OccursAt(s[..n], pat, j);
      assert s[..n][j..j + |pat|] == s[j..j + |pat|];
      assert OccursAt(s, pat, j);
    }
  }

  /** No piece of a split holds the separator. */
  lemma {:induction false} SplitPieceFree(s: string, sep: string, k: nat)
    requires |sep| > 0 && k < |Split(s, sep)|
    ensures !Contains(Split(s, sep)[k], sep)
    decreases |s|
  {
    var found := FindFirst(s, sep);
    if found.None? {
      assert Split(s, sep)[k] == s;
      NoOccurrenceInPrefix(s, sep, |s|);
      assert s[..|s|] == s;
    } else {
      var n := found.value;
      var rest := s[n + |sep|..];
      if k == 0 {
        assert Split(s, sep)[0] == s[..n];
        NoOccurrenceInPrefix(s, sep, n);
      } else {
        assert Split(s, sep)[k] == Split(rest, sep)[k - 1];
        SplitPieceFree(rest, sep, k - 1);
      }
    }
  }

  /**
   * Regrouping a concatenation. Stated over abstract parts, so that callers
   * whose parts unfold to string literals need not reason about the characters.
   */
  lemma Regroup3<T>(o: seq<T>, a: seq<T>, b: seq<T>)
    ensures o + a + b == o + (a + b)
  {
  }

  lemma Regroup<T>(o: seq<T>, a: seq<T>, b: seq<T>, c: seq<T>)
    ensures o + a + b + c == o + (a + b + c)
  {
  }

  lemma RegroupLine(o: string, a: string, b: string, last: string)
    ensures o + a + b + (last + "\n") == o + (a + b + last + "\n")
  {
  }

  // ---------------------------------------------------------------------------
  // Lines

  function FirstBreakFrom(s: string, from: nat): (r: Option<nat>)
    ensures r.Some? ==> from <= r.value < |s| && IsLineBreak(s[r.value])
    ensures r.Some? ==> forall j :: from <= j < r.value ==> !IsLineBreak(s[j])
    ensures r.None? ==> forall j :: from <= j < |s| ==> !IsLineBreak(s[j])
    decreases |s| - from
  {
    if from >= |s| then None
    else if IsLineBreak(s[from]) then Some(from)
    else FirstBreakFrom(s, from + 1)
  }

  /** `str.splitlines()`: pieces between line breaks, "\r\n" counting as one break. */
  function SplitLines(s: string): (lines: seq<string>)
    ensures forall k, i :: 0 <= k < |lines| && 0 <= i < |lines[k]| ==> !IsLineBreak(lines[k][i])
    ensures s == [] <==> lines == []
    decreases |s|
  {
    if s == [] then []
    else
      match FirstBreakFrom(s, 0)
      case None => [s]
      case Some(k) =>
        var next := if s[k] == '\r' && k + 1 < |s| && s[k + 1] == '\n' then k + 2 else k + 1;
        [s[..k]] + SplitLines(s[next..])
  }

  /** Lines free of breaks, joined by "\n", split back into the same lines (unless the last is empty). */
  lemma {:induction false} SplitLinesJoin(lines: seq<string>)
    requires forall k, i :: 0 <= k < |lines| && 0 <= i < |lines[k]| ==> !IsLineBreak(lines[k][i])
    requires lines != [] ==> lines[|lines| - 1] != ""
    ensures SplitLines(Join(lines, "\n")) == lines
  {
    if |lines| == 1 {
      var s := lines[0];
      assert FirstBreakFrom(s, 0).None?;
    } else if |lines| > 1 {
      var rest := Join(lines[1..], "\n");
      var s := lines[0] + "\n" + rest;
      assert Join(lines, "\n") == s;
      var l := lines[0];
      assert s[|l|] == '\n';
      assert forall j :: 0 <= j < |l| ==> s[j] == l[j];
      assert FirstBreakFrom(s, 0) == Some(|l|);
      assert s[..|l|] == l;
      assert s[|l| + 1..] == rest;
      SplitLinesJoin(lines[1..]);
      assert lines == [l] + lines[1..];
    }
  }

  // ---------------------------------------------------------------------------
  // Numbers

  function DigitChar(d: nat): (c: char)
    requires d < 10
    ensures '0' <= c <= '9'
  {
    ('0' as int + d) as char
  }

  /** `str(n)` for a natural number. */
  function NatToString(n: nat): (r: string)
    ensures |r| >= 1
    ensures forall i :: 0 <= i < |r| ==> '0' <= r[i] <= '9'
  {
    if n < 10 then [DigitChar(n)] else NatToString(n / 10) + [DigitChar(n % 10)]
  }

  /** `str(i)` for an integer. */
  function IntToString(i: int): (r: string)
    ensures |r| >= 1
  {
    if i < 0 then "-" + NatToString(-i) else NatToString(i)
  }

  /** Decimal rendering recovers the number, so different numbers print differently. */
  function ParseDigits(s: string): nat
    requires forall i :: 0 <= i < |s| ==> '0' <= s[i] <= '9'
  {
    if s == [] then 0 else ParseDigits(s[..|s| - 1]) * 10 + (s[|s| - 1] as int - '0' as int)
  }

  lemma {:induction false} ParseNatToString(n: nat)
    ensures ParseDigits(NatToString(n)) == n
  {
    if n >= 10 {
      var r := NatToString(n);
      ParseNatToString(n / 10);
      assert r[..|r| - 1] == NatToString(n / 10);
    }
  }
}

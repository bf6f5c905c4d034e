/** String helpers shared by the three components: whitespace trimming as
    Python's `str.strip()` does it on ASCII text, splitting and joining on a separator
    character (`str.split` / `str.join`), JavaScript's `String.replace` with a
    string pattern (first occurrence only), ASCII case folding, and decimal
    digit strings with the integer parse of Python's `int()`. */
module Text {
  import opened Wrappers

  // ---------------------------------------------------------------------------
  // Whitespace
  // ---------------------------------------------------------------------------

  /** The ASCII characters `str.isspace()` accepts, which `str.strip()`
      removes: space, tab, line feed, vertical tab, form feed, carriage
      return and the four separators U+001C to U+001F. */
  predicate IsSpace(c: char) {
    c == ' ' || '\t' <= c <= '\r' || '\U{1C}' <= c <= '\U{1F}'
  }

  /** `s` without its leading whitespace. */
  function TrimStart(s: string): (r: string)
    ensures |r| <= |s|
    ensures r == s[|s| - |r|..]
    ensures forall i :: 0 <= i < |s| - |r| ==> IsSpace(s[i])
    ensures r == [] || !IsSpace(r[0])
  {
    if |s| > 0 && IsSpace(s[0]) then TrimStart(s[1..]) else s
  }

  /** `s` without its trailing whitespace. */
  function TrimEnd(s: string): (r: string)
    ensures |r| <= |s|
    ensures r == s[..|r|]
    ensures forall i :: |r| <= i < |s| ==> IsSpace(s[i])
    ensures r == [] || !IsSpace(r[|r| - 1])
  {
    if |s| > 0 && IsSpace(s[|s| - 1]) then TrimEnd(s[..|s| - 1]) else s
  }

  /** Python's `s.strip()`: a contiguous part of `s` that neither starts nor
      ends with whitespace, everything cut off around it being whitespace. */
  function Trim(s: string): (r: string)
    ensures |r| <= |s|
    ensures r == [] || (!IsSpace(r[0]) && !IsSpace(r[|r| - 1]))
  {
    var t := TrimStart(s);
    var r := TrimEnd(t);
    assert r == [] || r[0] == t[0];
    r
  }

  /** The narrower whitespace `int()` skips around a numeral: space and tab
      to carriage return, but not the separators U+001C to U+001F. */
  predicate IsIntSpace(c: char) {
    c == ' ' || '\t' <= c <= '\r'
  }

  /** `s` without the leading whitespace `int()` skips. */
  function IntTrimStart(s: string): (r: string)
    ensures |r| <= |s|
    ensures r == s[|s| - |r|..]
    ensures forall i :: 0 <= i < |s| - |r| ==> IsIntSpace(s[i])
    ensures r == [] || !IsIntSpace(r[0])
  {
    if |s| > 0 && IsIntSpace(s[0]) then IntTrimStart(s[1..]) else s
  }

  /** `s` without the trailing whitespace `int()` skips. */
  function IntTrimEnd(s: string): (r: string)
    ensures |r| <= |s|
    ensures r == s[..|r|]
    ensures forall i :: |r| <= i < |s| ==> IsIntSpace(s[i])
    ensures r == [] || !IsIntSpace(r[|r| - 1])
  {
    if |s| > 0 && IsIntSpace(s[|s| - 1]) then IntTrimEnd(s[..|s| - 1]) else s
  }

  /** The text `int()` reads: `s` without the whitespace it skips at either end. */
  function IntTrim(s: string): (r: string)
    ensures |r| <= |s|
    ensures r == [] || (!IsIntSpace(r[0]) && !IsIntSpace(r[|r| - 1]))
  {
    var t := IntTrimStart(s);
    var r := IntTrimEnd(t);
    assert r == [] || r[0] == t[0];
    r
  }

  /** Text without surrounding `int()` whitespace is read as it stands. */
  lemma IntTrimUnpadded(s: string)
    requires s == [] || (!IsIntSpace(s[0]) && !IsIntSpace(s[|s| - 1]))
    ensures IntTrim(s) == s
  {
    assert IntTrimStart(s) == s;
  }

  /** Trimming a string without surrounding whitespace changes nothing. */
  lemma TrimUnpadded(s: string)
    requires s == [] || (!IsSpace(s[0]) && !IsSpace(s[|s| - 1]))
    ensures Trim(s) == s
  {
    assert TrimStart(s) == s;
  }

  /** Trimming a string made only of whitespace leaves nothing. */
  lemma TrimAllSpace(s: string)
    requires forall i :: 0 <= i < |s| ==> IsSpace(s[i])
    ensures Trim(s) == []
  {
    var t := TrimStart(s);
    assert t == [];
  }

  /** Trimming is idempotent. */
  lemma TrimIdempotent(s: string)
    ensures Trim(Trim(s)) == Trim(s)
  {
    TrimUnpadded(Trim(s));
  }

  // ---------------------------------------------------------------------------
  // Searching, splitting, joining, replacing
  // ---------------------------------------------------------------------------

  /** `pat` occurs in `s` starting at position `i`. */
  predicate OccursAt(s: string, pat: string, i: int) {
    0 <= i && i + |pat| <= |s| && s[i..i + |pat|] == pat
  }

  /** The first position at or after `k` where `pat` occurs in `s`. */
  function IndexFrom(s: string, pat: string, k: nat): (r: Option<nat>)
    ensures r.Some? ==> k <= r.value && OccursAt(s, pat, r.value)
    ensures r.Some? ==> forall j :: k <= j < r.value ==> !OccursAt(s, pat, j)
    ensures r.None? ==> forall j :: k <= j ==> !OccursAt(s, pat, j)
    decreases |s| - k
  {
    if k + |pat| > |s| then None
    else if s[k..k + |pat|] == pat then Some(k)
    else IndexFrom(s, pat, k + 1)
  }

  /** JavaScript's `s.indexOf(pat)`: the first occurrence, if any. */
  function IndexOf(s: string, pat: string): (r: Option<nat>)
    ensures r.Some? ==> OccursAt(s, pat, r.value)
    ensures r.Some? ==> forall j :: 0 <= j < r.value ==> !OccursAt(s, pat, j)
    ensures r.None? ==> forall j :: 0 <= j ==> !OccursAt(s, pat, j)
  {
    IndexFrom(s, pat, 0)
  }

  /** JavaScript's `s.replace(pat, rep)` with a string pattern: only the first
      occurrence of `pat` is replaced; without one, `s` is returned as is. */
  function ReplaceFirst(s: string, pat: string, rep: string): (r: string)
    ensures (forall i :: 0 <= i ==> !OccursAt(s, pat, i)) ==> r == s
    ensures forall i :: OccursAt(s, pat, i) && (forall j :: 0 <= j < i ==> !OccursAt(s, pat, j)) ==>
      r == s[..i] + rep + s[i + |pat|..]
  {
    match IndexOf(s, pat)
    case None => s
    case Some(i) => s[..i] + rep + s[i + |pat|..]
  }

  /** A prefix is removed by replacing its first occurrence with nothing,
      whatever follows it. */
  lemma ReplaceFirstPrefix(pat: string, t: string)
    ensures ReplaceFirst(pat + t, pat, "") == t
  {
    assert OccursAt(pat + t, pat, 0);
    var s := pat + t;
    assert s[|pat|..] == t;
  }

  /** The first position of `c` in `s`. */
  function FindChar(s: string, c: char): (r: Option<nat>)
    ensures r.Some? ==> r.value < |s| && s[r.value] == c && c !in s[..r.value]
    ensures r.None? ==> c !in s
  {
    if |s| == 0 then None
    else if s[0] == c then Some(0)
    else match FindChar(s[1..], c)
      case None => None
      case Some(k) =>
        assert s[..k + 1] == [s[0]] + s[1..][..k];
        Some(k + 1)
  }

  /** Any position holding the first `c` is the one `FindChar` returns. */
  lemma FindCharUnique(s: string, c: char, i: nat)
    requires i < |s| && s[i] == c && c !in s[..i]
    ensures FindChar(s, c) == Some(i)
  {
    assert s[i] in s;
  }

  /** Python's `s.split(sep)` for a one-character separator: the pieces
      between separators, at least one, none containing `sep`. */
  function Split(s: string, sep: char): (parts: seq<string>)
    ensures |parts| >= 1
    ensures forall i :: 0 <= i < |parts| ==> sep !in parts[i]
    decreases |s|
  {
    match FindChar(s, sep)
    case None => [s]
    case Some(i) => [s[..i]] + Split(s[i + 1..], sep)
  }

  /** Python's `sep.join(parts)`. */
  function Join(parts: seq<string>, sep: char): string
  {
    if |parts| == 0 then ""
    else if |parts| == 1 then parts[0]
    else parts[0] + [sep] + Join(parts[1..], sep)
  }

  /** Joining the pieces of a split gives back the original string. */
  lemma {:induction false} JoinSplit(s: string, sep: char)
    ensures Join(Split(s, sep), sep) == s
    decreases |s|
  {
    match FindChar(s, sep)
    case None =>
    case Some(i) =>
      var rest := Split(s[i + 1..], sep);
      JoinSplit(s[i + 1..], sep);
      assert Split(s, sep) == [s[..i]] + rest;
      assert (([s[..i]] + rest)[1..]) == rest;
      assert s == s[..i] + [sep] + s[i + 1..];
  }

  /** A separator-free head and a separator split off as the first piece. */
  lemma SplitAfterHead(head: string, tail: string, sep: char)
    requires sep !in head
    ensures Split(head + [sep] + tail, sep) == [head] + Split(tail, sep)
  {
    var s := head + [sep] + tail;
    var n := |head|;
    assert s[..n] == head;
    FindCharUnique(s, sep, n);
    assert s[n + 1..] == tail;
  }

  /** Splitting a join of separator-free pieces gives back the pieces. */
  lemma {:induction false} SplitJoin(parts: seq<string>, sep: char)
    requires |parts| >= 1
    requires forall i :: 0 <= i < |parts| ==> sep !in parts[i]
    ensures Split(Join(parts, sep), sep) == parts
    decreases |parts|
  {
    if |parts| == 1 {
      assert FindChar(parts[0], sep).None?;
    } else {
      assert Join(parts, sep) == parts[0] + [sep] + Join(parts[1..], sep);
      SplitAfterHead(parts[0], Join(parts[1..], sep), sep);
      SplitJoin(parts[1..], sep);
      assert parts == [parts[0]] + parts[1..];
    }
  }

  // ---------------------------------------------------------------------------
  // Case folding
  // ---------------------------------------------------------------------------

  /** `c` with an ASCII upper-case letter folded to lower case. */
  function LowerChar(c: char): char {
    if 'A' <= c <= 'Z' then (c as int + 32) as char else c
  }

  /** `s.toLowerCase()` / `s.lower()` on ASCII letters. */
  function Lower(s: string): (r: string)
    ensures |r| == |s|
    ensures forall i :: 0 <= i < |s| ==> r[i] == LowerChar(s[i])
  {
    if |s| == 0 then "" else [LowerChar(s[0])] + Lower(s[1..])
  }

  /** Equality up to ASCII letter case, character by character. */
  predicate EqualsIgnoreCase(a: string, b: string) {
    |a| == |b| && forall i :: 0 <= i < |a| ==> LowerChar(a[i]) == LowerChar(b[i])
  }

  /** Comparing character by character ignoring case is comparing the
      lower-cased strings. */
  lemma EqualsIgnoreCaseLower(a: string, b: string)
    ensures EqualsIgnoreCase(a, b) <==> Lower(a) == Lower(b)
  {
    if Lower(a) == Lower(b) {
      assert forall i :: 0 <= i < |a| ==> LowerChar(a[i]) == Lower(a)[i] == Lower(b)[i] == LowerChar(b[i]);
    }
  }

  // ---------------------------------------------------------------------------
  // Decimal digits and integers
  // ---------------------------------------------------------------------------

  predicate IsDigit(c: char) {
    '0' <= c <= '9'
  }

  predicate IsDigits(s: string) {
    forall i :: 0 <= i < |s| ==> IsDigit(s[i])
  }

  function DigitValue(c: char): nat
    requires IsDigit(c)
  {
    c as int - '0' as int
  }

  function DigitChar(d: nat): (c: char)
    requires d < 10
    ensures IsDigit(c) && DigitValue(c) == d
  {
    ('0' as int + d) as char
  }

  /** The number a string of decimal digits denotes (0 for the empty string). */
  function DigitsValue(s: string): nat
    requires IsDigits(s)
  {
    if |s| == 0 then 0 else DigitsValue(s[..|s| - 1]) * 10 + DigitValue(s[|s| - 1])
  }

  /** The shortest decimal numeral of `n` (JavaScript's and Python's `str(n)`). */
  function NatToString(n: nat): (s: string)
    ensures 1 <= |s| && IsDigits(s)
  {
    if n < 10 then [DigitChar(n)] else NatToString(n / 10) + [DigitChar(n % 10)]
  }

  /** Reading back a numeral gives the number it was written from. */
  lemma {:induction false} NatToStringRoundTrip(n: nat)
    ensures DigitsValue(NatToString(n)) == n
  {
    if n >= 10 {
      NatToStringRoundTrip(n / 10);
      var s := NatToString(n);
      assert s[..|s| - 1] == NatToString(n / 10);
    }
  }

  /** Python's `int(s)` on a string: surrounding whitespace of the kind
      `IsIntSpace` accepts, an optional sign and one or more ASCII digits;
      anything else is a `ValueError` (None). */
  function ParseInt(s: string): Option<int> {
    ParseSigned(IntTrim(s))
  }

  /** The part of `int()` after trimming: an optional sign, then digits. */
  function ParseSigned(t: string): Option<int> {
    if |t| > 0 && t[0] == '-' then
      match ParseDigits(t[1..])
      case None => None
      case Some(v) => Some(-(v as int))
    else if |t| > 0 && t[0] == '+' then
      match ParseDigits(t[1..])
      case None => None
      case Some(v) => Some(v as int)
    else
      match ParseDigits(t)
      case None => None
      case Some(v) => Some(v as int)
  }

  /** One or more ASCII digits and nothing else. */
  function ParseDigits(d: string): Option<nat> {
    if |d| > 0 && IsDigits(d) then Some(DigitsValue(d)) else None
  }

  /** A string of digits reads as its value. */
  lemma ParseIntOfDigits(d: string)
    requires |d| > 0 && IsDigits(d)
    ensures ParseInt(d) == Some(DigitsValue(d) as int)
  {
    assert !IsIntSpace(d[0]) && !IsIntSpace(d[|d| - 1]);
    IntTrimUnpadded(d);
  }

  /** A minus sign before a string of digits negates its value. */
  lemma ParseIntOfNegated(d: string)
    requires |d| > 0 && IsDigits(d)
    ensures ParseInt("-" + d) == Some(-(DigitsValue(d) as int))
  {
    NegatedUnpadded(d);
    NegatedSigned(d);
    ParseIntOfUnpadded("-" + d, -(DigitsValue(d) as int));
  }

  /** A minus sign and digits carry no surrounding whitespace. */
  lemma NegatedUnpadded(d: string)
    requires |d| > 0 && IsDigits(d)
    ensures IntTrim("-" + d) == "-" + d
  {
    var s := "-" + d;
    assert s[|s| - 1] == d[|d| - 1];
    IntTrimUnpadded(s);
  }

  /** After trimming, a minus sign before digits reads as their negation. */
  lemma NegatedSigned(d: string)
    requires |d| > 0 && IsDigits(d)
    ensures ParseSigned("-" + d) == Some(-(DigitsValue(d) as int))
  {
    assert ("-" + d)[1..] == d;
  }

  /** Text without surrounding whitespace is read as it stands. */
  lemma ParseIntOfUnpadded(s: string, v: int)
    requires IntTrim(s) == s && ParseSigned(s) == Some(v)
    ensures ParseInt(s) == Some(v)
  {
  }

  /** Every natural number's numeral parses back to that number. */
  lemma ParseIntRoundTrip(n: nat)
    ensures ParseInt(NatToString(n)) == Some(n as int)
  {
    NatToStringRoundTrip(n);
    ParseIntOfDigits(NatToString(n));
  }

  /** A negative integer's numeral, `-` before its magnitude's digits, parses
      back to that integer. */
  lemma ParseIntNegativeRoundTrip(n: nat)
    ensures ParseInt("-" + NatToString(n)) == Some(-(n as int))
  {
    NatToStringRoundTrip(n);
    ParseIntOfNegated(NatToString(n));
  }

  /** A string that is not a numeral after trimming is rejected, so `int()`
      raises rather than guessing. */
  lemma ParseIntRejectsNonNumerals(s: string)
    requires |IntTrim(s)| > 0 && !IsDigit(IntTrim(s)[0]) && IntTrim(s)[0] != '-' && IntTrim(s)[0] != '+'
    ensures ParseInt(s) == None
  {
  }

  /** `int()` skips less whitespace than `str.strip()` removes: a numeral
      padded with the separators U+001C to U+001F is rejected, although
      stripping it would leave the bare numeral. */
  lemma ParseIntRejectsSeparatorPadding(d: string, c: char)
    requires |d| > 0 && IsDigits(d) && '\U{1C}' <= c <= '\U{1F}'
    ensures ParseInt([c] + d) == None && ParseInt(d + [c]) == None
    ensures Trim([c] + d) == d && Trim(d + [c]) == d
  {
    LeadingSeparatorRejected(d, c);
    TrailingSeparatorRejected(d, c);
    LeadingSeparatorStripped(d, c);
    TrailingSeparatorStripped(d, c);
  }

  /** A leading separator is not skipped by `int()`. */
  lemma LeadingSeparatorRejected(d: string, c: char)
    requires |d| > 0 && IsDigits(d) && '\U{1C}' <= c <= '\U{1F}'
    ensures ParseInt([c] + d) == None
  {
    var s := [c] + d;
    assert s[|s| - 1] == d[|d| - 1];
    IntTrimUnpadded(s);
    assert !IsDigit(s[0]);
  }

  /** A trailing separator is not skipped by `int()`. */
  lemma TrailingSeparatorRejected(d: string, c: char)
    requires |d| > 0 && IsDigits(d) && '\U{1C}' <= c <= '\U{1F}'
    ensures ParseInt(d + [c]) == None
  {
    var t := d + [c];
    assert t[0] == d[0];
    IntTrimUnpadded(t);
    assert !IsDigit(t[|t| - 1]);
  }

  /** `str.strip()` removes a leading separator. */
  lemma LeadingSeparatorStripped(d: string, c: char)
    requires |d| > 0 && IsDigits(d) && '\U{1C}' <= c <= '\U{1F}'
    ensures Trim([c] + d) == d
  {
    var s := [c] + d;
    assert s[1..] == d;
    assert TrimStart(d) == d;
    assert TrimStart(s) == d;
    assert TrimEnd(d) == d;
  }

  /** `str.strip()` removes a trailing separator. */
  lemma TrailingSeparatorStripped(d: string, c: char)
    requires |d| > 0 && IsDigits(d) && '\U{1C}' <= c <= '\U{1F}'
    ensures Trim(d + [c]) == d
  {
    var t := d + [c];
    assert t[..|t| - 1] == d;
    assert TrimStart(t) == t;
    assert TrimEnd(d) == d;
    assert TrimEnd(t) == d;
  }
}

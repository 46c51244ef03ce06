/** String helpers shared by the game screens: JavaScript's `trim`, the
    `cleanText` markdown stripper, JavaScript's `||` on strings, appending a
    voice transcript to a text field, and decimal rendering of numbers. */
module Text {

  datatype Option<+T> = None | Some(value: T)

  // ---------------------------------------------------------------------
  // trim
  // ---------------------------------------------------------------------

  /** The code points `String.prototype.trim` removes: ECMAScript
      WhiteSpace (tab, vertical tab, form feed, space, no-break space,
      byte-order mark, the Unicode space separators) and LineTerminator. */
  predicate IsWhitespace(c: char) {
    || c == '\t' || c == '\n' || c == '\U{000B}' || c == '\U{000C}' || c == '\r'
    || c == ' ' || c == '\U{00A0}' || c == '\U{1680}'
    || ('\U{2000}' <= c <= '\U{200A}')
    || c == '\U{2028}' || c == '\U{2029}' || c == '\U{202F}' || c == '\U{205F}'
    || c == '\U{3000}' || c == '\U{FEFF}'
  }

  /** A string with nothing but whitespace in it (the empty string included). */
  predicate IsBlank(s: string) {
    forall i :: 0 <= i < |s| ==> IsWhitespace(s[i])
  }

  /** Drops leading whitespace. */
  function TrimStart(s: string): string {
    if s != [] && IsWhitespace(s[0]) then TrimStart(s[1..]) else s
  }

  /** Drops trailing whitespace. */
  function TrimEnd(s: string): string {
    if s != [] && IsWhitespace(s[|s| - 1]) then TrimEnd(s[..|s| - 1]) else s
  }

  /** `s.trim()`. */
  function Trim(s: string): string {
    TrimEnd(TrimStart(s))
  }

  /** `TrimStart` keeps the suffix of `s` that starts at its first
      non-whitespace character: what it drops is all whitespace. */
  lemma {:induction false} TrimStartSpec(s: string)
    ensures var r := TrimStart(s);
      |r| <= |s| && r == s[|s| - |r|..] && IsBlank(s[..|s| - |r|])
      && (r == [] || !IsWhitespace(r[0]))
  {
    if s != [] && IsWhitespace(s[0]) {
      TrimStartSpec(s[1..]);
      var r := TrimStart(s);
      assert s[1..][|s| - 1 - |r|..] == s[|s| - |r|..];
      forall i | 0 <= i < |s| - |r| ensures IsWhitespace(s[i]) {
        if i > 0 { assert s[i] == s[1..][..|s| - 1 - |r|][i - 1]; }
      }
    }
  }

  /** `TrimEnd` keeps the prefix of `s` that ends at its last
      non-whitespace character: what it drops is all whitespace. */
  lemma {:induction false} TrimEndSpec(s: string)
    ensures var r := TrimEnd(s);
      |r| <= |s| && r == s[..|r|] && IsBlank(s[|r|..])
      && (r == [] || !IsWhitespace(r[|r| - 1]))
  {
    if s != [] && IsWhitespace(s[|s| - 1]) {
      var p := s[..|s| - 1];
      TrimEndSpec(p);
      var r := TrimEnd(s);
      assert p[..|r|] == s[..|r|];
      forall i | |r| <= i < |s| ensures IsWhitespace(s[i]) {
        if i < |s| - 1 { assert s[i] == p[|r|..][i - |r|]; }
      }
    }
  }

  /** The trim of a string is no longer than it and neither starts nor ends
      with whitespace. */
  lemma TrimSpec(s: string)
    ensures |Trim(s)| <= |s|
    ensures Trim(s) == [] || (!IsWhitespace(Trim(s)[0]) && !IsWhitespace(Trim(s)[|Trim(s)| - 1]))
  {
    TrimStartSpec(s);
    TrimEndSpec(TrimStart(s));
  }

  /** A string trims to the empty string exactly when it is blank, so the
      guards `!s.trim()` and "s is whitespace only" agree. */
  lemma TrimEmptyIffBlank(s: string)
    ensures Trim(s) == [] <==> IsBlank(s)
  {
    TrimStartSpec(s);
    var t := TrimStart(s);
    TrimEndSpec(t);
    if Trim(s) == [] {
      assert t[0..] == t;
      assert t == [];
      assert s[..|s|] == s;
    }
  }

  /** A string that does not start or end with whitespace is its own trim. */
  lemma TrimOfTrimmed(s: string)
    requires s == [] || (!IsWhitespace(s[0]) && !IsWhitespace(s[|s| - 1]))
    ensures Trim(s) == s
  {
  }

  /** Trimming twice is trimming once. */
  lemma TrimIdempotent(s: string)
    ensures Trim(Trim(s)) == Trim(s)
  {
    TrimSpec(s);
    TrimOfTrimmed(Trim(s));
  }

  // ---------------------------------------------------------------------
  // cleanText
  // ---------------------------------------------------------------------

  /** No two adjacent asterisks, i.e. no markdown bold marker. */
  predicate FreeOfBold(s: string) {
    forall i :: 0 <= i < |s| - 1 ==> !(s[i] == '*' && s[i + 1] == '*')
  }

  /** The characters of `s` other than asterisks, in order. */
  function WithoutStars(s: string): string {
    if s == [] then [] else (if s[0] == '*' then [] else [s[0]]) + WithoutStars(s[1..])
  }

  /** `s.replace(/\*\*\/g, "")`: scanning from the left, every
      non-overlapping "**" is deleted. */
  function StripBold(s: string): string {
    if |s| >= 2 && s[0] == '*' && s[1] == '*' then StripBold(s[2..])
    else if s == [] then []
    else [s[0]] + StripBold(s[1..])
  }

  /** Stripping leaves no bold marker, deletes only asterisks, and keeps a
      first character that does not open a marker. */
  lemma {:induction false} StripBoldSpec(s: string)
    ensures |StripBold(s)| <= |s|
    ensures FreeOfBold(StripBold(s))
    ensures WithoutStars(StripBold(s)) == WithoutStars(s)
    ensures s != [] && !(|s| >= 2 && s[0] == '*' && s[1] == '*') ==>
      StripBold(s) != [] && StripBold(s)[0] == s[0]
  {
    if |s| >= 2 && s[0] == '*' && s[1] == '*' {
      StripBoldSpec(s[2..]);
      assert WithoutStars(s) == WithoutStars(s[1..]);
      assert s[1..][1..] == s[2..];
    } else if s != [] {
      var rest := StripBold(s[1..]);
      StripBoldSpec(s[1..]);
      if s[0] == '*' && |s| >= 2 {
        assert s[1..][0] == s[1];
      }
      assert StripBold(s) == [s[0]] + rest;
      assert WithoutStars([s[0]] + rest) == (if s[0] == '*' then [] else [s[0]]) + WithoutStars(rest) by {
        assert ([s[0]] + rest)[1..] == rest;
      }
    }
  }

  /** `cleanText(text)`: "" for a missing (null or undefined) or empty text,
      otherwise the text with every "**" removed. */
  function CleanText(text: Option<string>): string {
    match text
    case None => ""
    case Some(t) => if t == "" then "" else StripBold(t)
  }

  /** A cleaned text has no bold marker and differs from the original only
      in asterisks; a missing or empty text cleans to "". */
  lemma CleanTextSpec(text: Option<string>)
    ensures text.None? || text == Some("") ==> CleanText(text) == ""
    ensures FreeOfBold(CleanText(text))
    ensures text.Some? ==> WithoutStars(CleanText(text)) == WithoutStars(text.value)
  {
    if text.Some? {
      StripBoldSpec(text.value);
    }
  }

  /** Stripping a string that has no bold marker leaves it as it is. */
  lemma {:induction false} StripBoldKeepsBoldFree(s: string)
    requires FreeOfBold(s)
    ensures StripBold(s) == s
  {
    if s != [] {
      assert !(|s| >= 2 && s[0] == '*' && s[1] == '*');
      assert FreeOfBold(s[1..]) by {
        forall i | 0 <= i < |s[1..]| - 1 ensures !(s[1..][i] == '*' && s[1..][i + 1] == '*') {
          assert s[1..][i] == s[i + 1] && s[1..][i + 1] == s[i + 2];
        }
      }
      StripBoldKeepsBoldFree(s[1..]);
    }
  }

  /** Cleaning is idempotent: cleaning a cleaned text changes nothing. */
  lemma CleanTextIdempotent(text: Option<string>)
    ensures CleanText(Some(CleanText(text))) == CleanText(text)
  {
    CleanTextSpec(text);
    StripBoldKeepsBoldFree(CleanText(text));
  }

  /** JavaScript's `s || fallback` on strings: the empty string is falsy. */
  function Or(s: string, fallback: string): (r: string)
    ensures s != "" ==> r == s
    ensures s == "" ==> r == fallback
  {
    if s == "" then fallback else s
  }

  // ---------------------------------------------------------------------
  // voice transcripts
  // ---------------------------------------------------------------------

  /** `prev ? `${prev} ${transcript}` : transcript`. */
  function AppendTranscript(prev: string, transcript: string): string {
    if prev == "" then transcript else prev + " " + transcript
  }

  /** A transcript replaces an empty field or is appended after a single
      space, the field's text kept in front. */
  lemma AppendTranscriptSpec(prev: string, transcript: string)
    ensures prev == "" ==> AppendTranscript(prev, transcript) == transcript
    ensures var r := AppendTranscript(prev, transcript);
      prev != "" ==>
        |r| == |prev| + 1 + |transcript| && r[..|prev|] == prev && r[|prev|] == ' '
        && r[|prev| + 1..] == transcript
  {
  }

  // ---------------------------------------------------------------------
  // numbers as text
  // ---------------------------------------------------------------------

  function DigitChar(d: nat): (c: char)
    requires d < 10
    ensures '0' <= c <= '9' && (c as int) - ('0' as int) == d
  {
    ['0', '1', '2', '3', '4', '5', '6', '7', '8', '9'][d]
  }

  predicate AllDigits(s: string) {
    forall i :: 0 <= i < |s| ==> '0' <= s[i] <= '9'
  }

  /** The decimal rendering of a non-negative integer, as template literals
      print it: no leading zeros, "0" for zero. */
  function DecimalString(n: nat): (r: string)
    ensures |r| >= 1 && AllDigits(r)
    ensures (|r| == 1) == (n < 10)
    ensures |r| > 1 ==> r[0] != '0'
  {
    if n < 10 then [DigitChar(n)] else DecimalString(n / 10) + [DigitChar(n % 10)]
  }

  /** The value of a string of decimal digits. */
  function DecimalValue(s: string): nat
    requires AllDigits(s)
  {
    if s == [] then 0 else 10 * DecimalValue(s[..|s| - 1]) + ((s[|s| - 1] as int) - ('0' as int))
  }

  /** Reading back a rendered number gives the number. */
  lemma {:induction false} DecimalRoundTrip(n: nat)
    ensures DecimalValue(DecimalString(n)) == n
  {
    if n >= 10 {
      var s := DecimalString(n);
      assert s[..|s| - 1] == DecimalString(n / 10);
      DecimalRoundTrip(n / 10);
    }
  }

  /** Two-digit numbers render as exactly two digits. */
  lemma TwoDigits(n: nat)
    requires 10 <= n < 100
    ensures |DecimalString(n)| == 2
  {
    assert DecimalString(n) == [DigitChar(n / 10)] + [DigitChar(n % 10)];
  }

  /** A number in a template literal: a minus sign, then the digits of its
      magnitude, for a negative number. */
  function IntString(n: int): (r: string)
    ensures n >= 0 ==> r == DecimalString(n)
    ensures n < 0 ==> |r| > 1 && r[0] == '-' && r[1..] == DecimalString(-n)
  {
    if n < 0 then "-" + DecimalString(-n) else DecimalString(n)
  }
}

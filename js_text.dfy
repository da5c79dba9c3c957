/**
 * The JavaScript string operations the app relies on: `String.prototype.trim`,
 * `String.prototype.startsWith`, and the decimal
 * text a template literal gives an integer number.
 */
module JsText {

  /**
   * ECMAScript WhiteSpace and LineTerminator code points, which `trim` removes:
   * TAB, VT, FF, SP, NBSP, ZWNBSP, the space separators (category Zs), LF, CR,
   * LINE SEPARATOR and PARAGRAPH SEPARATOR.
   */
  const WhiteSpaceCodes: set<int> :=
    {0x09, 0x0A, 0x0B, 0x0C, 0x0D, 0x20, 0xA0, 0x1680,
     0x2000, 0x2001, 0x2002, 0x2003, 0x2004, 0x2005, 0x2006, 0x2007, 0x2008, 0x2009, 0x200A,
     0x2028, 0x2029, 0x202F, 0x205F, 0x3000, 0xFEFF}

  predicate IsWhiteSpace(c: char) {
    c as int in WhiteSpaceCodes
  }

  /** Every character of `s` is white space (the empty string included). */
  predicate IsBlank(s: string) {
    forall i :: 0 <= i < |s| ==> IsWhiteSpace(s[i])
  }

  /** The first index at or after `i` that is not white space, or `|s|`. */
  function SkipSpaceFrom(s: string, i: nat): (k: nat)
    requires i <= |s|
    ensures i <= k <= |s|
    ensures forall m :: i <= m < k ==> IsWhiteSpace(s[m])
    ensures k == |s| || !IsWhiteSpace(s[k])
    decreases |s| - i
  {
    if i < |s| && IsWhiteSpace(s[i]) then SkipSpaceFrom(s, i + 1) else i
  }

  /** The end of `s[lo..j]` once its trailing white space is dropped. */
  function SkipSpaceBack(s: string, lo: nat, j: nat): (k: nat)
    requires lo <= j <= |s|
    ensures lo <= k <= j
    ensures forall m :: k <= m < j ==> IsWhiteSpace(s[m])
    ensures k == lo || !IsWhiteSpace(s[k - 1])
    decreases j
  {
    if lo < j && IsWhiteSpace(s[j - 1]) then SkipSpaceBack(s, lo, j - 1) else j
  }

  /** Where the trimmed text starts. */
  function TrimStartIndex(s: string): (i: nat)
    ensures i <= |s|
  {
    SkipSpaceFrom(s, 0)
  }

  /** Where the trimmed text ends. */
  function TrimEndIndex(s: string): (j: nat)
    ensures TrimStartIndex(s) <= j <= |s|
  {
    SkipSpaceBack(s, TrimStartIndex(s), |s|)
  }

  /** `trim`: the text between the leading and the trailing white space. */
  function Trim(s: string): (t: string)
    ensures |t| <= |s|
    ensures t == [] || (!IsWhiteSpace(t[0]) && !IsWhiteSpace(t[|t| - 1]))
  {
    s[TrimStartIndex(s)..TrimEndIndex(s)]
  }

  /**
   * What `trim` keeps: a contiguous slice of the input, everything cut away
   * being white space, with no white space left at either end.
   */
  lemma TrimIsSlice(s: string)
    ensures var i, j := TrimStartIndex(s), TrimEndIndex(s);
            && Trim(s) == s[i..j]
            && (forall k :: 0 <= k < i ==> IsWhiteSpace(s[k]))
            && (forall k :: j <= k < |s| ==> IsWhiteSpace(s[k]))
            && (Trim(s) == [] || (!IsWhiteSpace(Trim(s)[0]) && !IsWhiteSpace(Trim(s)[|Trim(s)| - 1])))
  {
  }

  /** A string trims to nothing exactly when it is all white space. */
  lemma TrimEmptyIffBlank(s: string)
    ensures Trim(s) == [] <==> IsBlank(s)
  {
  }

  /** Trimming twice is trimming once. */
  lemma TrimIdempotent(s: string)
    ensures Trim(Trim(s)) == Trim(s)
  {
  }

  /** `s.startsWith(p)`. */
  predicate StartsWith(s: string, p: string) {
    |p| <= |s| && s[..|p|] == p
  }

  /** The digit character for a value in 0..9. */
  function DigitChar(d: int): (c: char)
    requires 0 <= d < 10
    ensures '0' <= c <= '9' && (c as int) - ('0' as int) == d
  {
    (('0' as int) + d) as char
  }

  /** The decimal digits of a natural number, most significant first, without leading zeros. */
  function Digits(n: nat): (s: string)
    ensures |s| > 0 && (n > 0 ==> s[0] != '0')
    ensures forall i :: 0 <= i < |s| ==> '0' <= s[i] <= '9'
  {
    if n < 10 then [DigitChar(n)] else Digits(n / 10) + [DigitChar(n % 10)]
  }

  /** The value of a string of decimal digits. */
  function DigitsValue(s: string): nat
    requires forall i :: 0 <= i < |s| ==> '0' <= s[i] <= '9'
  {
    if s == [] then 0 else 10 * DigitsValue(s[..|s| - 1]) + ((s[|s| - 1] as int) - ('0' as int))
  }

  /** The text `${n}` gives an integer number: its decimal digits, with a '-' when negative. */
  function NumberText(n: int): (s: string)
    ensures |s| > 0
    ensures s[0] == '-' <==> n < 0
    ensures forall i :: 0 < i < |s| ==> '0' <= s[i] <= '9'
  {
    if n < 0 then "-" + Digits(-n) else Digits(n)
  }

  /** Reading the digits back gives the number: `Digits` loses nothing. */
  lemma {:induction false} DigitsRoundTrip(n: nat)
    ensures DigitsValue(Digits(n)) == n
  {
    if n >= 10 {
      var s := Digits(n);
      assert s[..|s| - 1] == Digits(n / 10);
      DigitsRoundTrip(n / 10);
    }
  }

  /** A '-' followed by digits, or digits alone: the shape `NumberText` produces. */
  predicate IsNumberText(t: string) {
    |t| > 0 &&
    (t[0] == '-' || '0' <= t[0] <= '9') &&
    forall i :: 0 < i < |t| ==> '0' <= t[i] <= '9'
  }

  /** Reads an integer back from its text (what `Number` does on such text). */
  function ReadNumberText(t: string): int
    requires IsNumberText(t)
  {
    if t[0] == '-' then -(DigitsValue(t[1..]) as int) else DigitsValue(t)
  }

  /** Writing an integer and reading it back gives the integer. */
  lemma NumberTextRoundTrip(n: int)
    ensures IsNumberText(NumberText(n)) && ReadNumberText(NumberText(n)) == n
  {
    if n < 0 {
      var d := Digits(-n);
      var t := "-" + d;
      assert t[1..] == d;
      forall i | 0 < i < |t|
        ensures '0' <= t[i] <= '9'
      {
        assert t[i] == d[i - 1];
      }
      DigitsRoundTrip(-n);
    } else {
      DigitsRoundTrip(n);
    }
  }

  /** Different numbers are written differently. */
  lemma NumberTextInjective(m: int, n: int)
    requires NumberText(m) == NumberText(n)
    ensures m == n
  {
    NumberTextRoundTrip(m);
    NumberTextRoundTrip(n);
  }
}

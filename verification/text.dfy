/** The Kotlin string operations the screens and the codec rely on, for the
    ASCII range: `Char.isWhitespace`, `String.trim`, `Char.isDigit`,
    `String.toIntOrNull` and `String.uppercase`. Kotlin applies each to all
    of Unicode; characters outside ASCII are treated here as neither
    whitespace nor digits and are left unchanged by `Upper`. */
module Text {
  import opened Wrappers

  const IntMin: int := -0x8000_0000
  const IntMax: int := 0x7FFF_FFFF

  /** The ASCII characters Kotlin counts as whitespace: space, tab, line
      feed, vertical tab, form feed, carriage return and the four
      information separators U+001C..U+001F. */
  predicate IsWhitespace(c: char) {
    c == ' ' || ('\t' <= c <= '\r') || ('\U{1C}' <= c <= '\U{1F}')
  }

  predicate AllWhitespace(s: string) {
    forall i :: 0 <= i < |s| ==> IsWhitespace(s[i])
  }

  /** The first index from `i` on that does not hold whitespace, or `|s|`. */
  function SkipSpace(s: string, i: nat): (k: nat)
    requires i <= |s|
    ensures i <= k <= |s|
    ensures forall m :: i <= m < k ==> IsWhitespace(s[m])
    ensures k == |s| || !IsWhitespace(s[k])
    decreases |s| - i
  {
    if i < |s| && IsWhitespace(s[i]) then SkipSpace(s, i + 1) else i
  }

  /** The end of `s[lo..j]` once trailing whitespace is dropped. */
  function BackSpace(s: string, lo: nat, j: nat): (k: nat)
    requires lo <= j <= |s|
    ensures lo <= k <= j
    ensures forall m :: k <= m < j ==> IsWhitespace(s[m])
    ensures k == lo || !IsWhitespace(s[k - 1])
    decreases j
  {
    if lo < j && IsWhitespace(s[j - 1]) then BackSpace(s, lo, j - 1) else j
  }

  /** Kotlin's `String.trim()`: the longest infix of `s` that neither starts
      nor ends with whitespace. */
  function Trim(s: string): (r: string)
    ensures |r| <= |s|
    ensures r == [] || (!IsWhitespace(r[0]) && !IsWhitespace(r[|r| - 1]))
    ensures r == [] <==> AllWhitespace(s)
  {
    var i := SkipSpace(s, 0);
    var j := BackSpace(s, i, |s|);
    s[i..j]
  }

  /** A string that neither starts nor ends with whitespace is its own
      trim. */
  lemma TrimUnchanged(s: string)
    requires s == [] || (!IsWhitespace(s[0]) && !IsWhitespace(s[|s| - 1]))
    ensures Trim(s) == s
  {
    if s != [] {
      assert SkipSpace(s, 0) == 0;
      assert BackSpace(s, 0, |s|) == |s|;
    }
  }

  /** Trimming twice is trimming once. */
  lemma TrimIdempotent(s: string)
    ensures Trim(Trim(s)) == Trim(s)
  {
    TrimUnchanged(Trim(s));
  }

  /** Digits are not whitespace, so a string of digits is its own trim. */
  lemma TrimDigits(s: string)
    requires AllDigits(s)
    ensures Trim(s) == s
  {
    TrimUnchanged(s);
  }

  /** Whether `c` lies outside the Basic Multilingual Plane, where UTF-16
      needs a surrogate pair for it. */
  predicate IsSupplementary(c: char) {
    c as int >= 0x1_0000
  }

  /** The UTF-16 code units `s[i..]` takes. */
  function UnitsFrom(s: string, i: nat): (n: nat)
    requires i <= |s|
    ensures |s| - i <= n <= 2 * (|s| - i)
    decreases |s| - i
  {
    if i == |s| then 0 else (if IsSupplementary(s[i]) then 2 else 1) + UnitsFrom(s, i + 1)
  }

  /** Kotlin's `String.length`: the number of UTF-16 code units, so each
      character outside the Basic Multilingual Plane counts twice. */
  function Utf16Length(s: string): (n: nat)
    ensures |s| <= n <= 2 * |s|
  {
    UnitsFrom(s, 0)
  }

  /** Text without supplementary characters has one code unit per
      character. */
  lemma {:induction false} UnitsFromBmp(s: string, i: nat)
    requires i <= |s|
    requires forall m :: i <= m < |s| ==> !IsSupplementary(s[m])
    ensures UnitsFrom(s, i) == |s| - i
    decreases |s| - i
  {
    if i < |s| {
      UnitsFromBmp(s, i + 1);
    }
  }

  /** A string of ASCII digits is as long in UTF-16 as in characters, so
      the digit filters may count characters. */
  lemma Utf16LengthOfDigits(s: string)
    requires AllDigits(s)
    ensures Utf16Length(s) == |s|
  {
    UnitsFromBmp(s, 0);
  }

  /** Three emoji are six code units: Kotlin's `length` exceeds the
      character count. */
  lemma Utf16LengthOfEmoji()
    ensures |"\U{1F600}\U{1F600}\U{1F600}"| == 3
    ensures Utf16Length("\U{1F600}\U{1F600}\U{1F600}") == 6
  {
    var s := "\U{1F600}\U{1F600}\U{1F600}";
    assert UnitsFrom(s, 2) == 2;
    assert UnitsFrom(s, 1) == 4;
  }

  predicate IsDigit(c: char) {
    '0' <= c <= '9'
  }

  predicate AllDigits(s: string) {
    forall i :: 0 <= i < |s| ==> IsDigit(s[i])
  }

  function Pow10(n: nat): (r: nat)
    ensures r >= 1
  {
    if n == 0 then 1 else 10 * Pow10(n - 1)
  }

  /** The decimal value of a string of digits. */
  function DigitsValue(s: string): (r: nat)
    requires AllDigits(s)
    ensures r < Pow10(|s|)
  {
    if |s| == 0 then 0
    else DigitsValue(s[..|s| - 1]) * 10 + (s[|s| - 1] as int - '0' as int)
  }

  /** Kotlin's `String.toIntOrNull()`: an optional `+` or `-`, at least one
      digit, and a value that fits a 32-bit `Int`; anything else is `None`. */
  function ParseInt(s: string): (r: Option<int>)
    ensures r.Some? ==> IntMin <= r.value <= IntMax
    ensures r.Some? ==> |s| > 0
    ensures AllDigits(s) && 0 < |s| && DigitsValue(s) <= IntMax ==> r == Some(DigitsValue(s))
    ensures |s| > 0 && !AllDigits(s) && s[0] != '-' && s[0] != '+' ==> r == None
  {
    if |s| == 0 then None
    else if s[0] == '-' || s[0] == '+' then
      var digits := s[1..];
      if |digits| == 0 || !AllDigits(digits) then None
      else
        var v: int := if s[0] == '-' then 0 - (DigitsValue(digits) as int) else DigitsValue(digits);
        if IntMin <= v <= IntMax then Some(v) else None
    else if !AllDigits(s) then None
    else if DigitsValue(s) <= IntMax then Some(DigitsValue(s))
    else None
  }

  /** A non-empty digit string of at most `n` characters parses to a value
      below `10^n`. */
  lemma ParseShortDigits(s: string, n: nat)
    requires AllDigits(s) && 0 < |s| <= n <= 9
    ensures ParseInt(s).Some?
    ensures 0 <= ParseInt(s).value < Pow10(n)
  {
    PowMonotone(|s|, n);
    PowMonotone(n, 9);
    assert Pow10(9) == 1_000_000_000;
  }

  lemma {:induction false} PowMonotone(m: nat, n: nat)
    requires m <= n
    ensures Pow10(m) <= Pow10(n)
  {
    if m < n {
      PowMonotone(m, n - 1);
    }
  }

  /** The decimal rendering of a natural number (no sign, no leading zero). */
  function ShowNat(n: nat): (r: string)
    ensures AllDigits(r) && |r| > 0
  {
    if n < 10 then [DigitChar(n)] else ShowNat(n / 10) + [DigitChar(n % 10)]
  }

  function DigitChar(d: nat): (c: char)
    requires d < 10
    ensures IsDigit(c) && c as int - '0' as int == d
  {
    ('0' as int + d) as char
  }

  /** Parsing undoes rendering for every value an `Int` can hold. */
  lemma {:induction false} ParseShowNat(n: nat)
    requires n <= IntMax
    ensures ParseInt(ShowNat(n)) == Some(n)
  {
    ShowNatValue(n);
  }

  lemma {:induction false} ShowNatValue(n: nat)
    ensures DigitsValue(ShowNat(n)) == n
  {
    if n >= 10 {
      var s := ShowNat(n);
      assert s[..|s| - 1] == ShowNat(n / 10);
      ShowNatValue(n / 10);
    }
  }

  /** Kotlin's `Char.uppercaseChar()` on ASCII letters. */
  function UpperChar(c: char): (r: char)
    ensures 'a' <= c <= 'z' ==> r as int == c as int - 32
    ensures !('a' <= c <= 'z') ==> r == c
  {
    if 'a' <= c <= 'z' then (c as int - 32) as char else c
  }

  /** Kotlin's `String.uppercase()`, character by character. */
  function Upper(s: string): (r: string)
    ensures |r| == |s|
    ensures forall i :: 0 <= i < |s| ==> r[i] == UpperChar(s[i])
  {
    if |s| == 0 then [] else [UpperChar(s[0])] + Upper(s[1..])
  }
}

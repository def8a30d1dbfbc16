/**
 * String primitives of the JavaScript runtime that the rules below rely on:
 * String.prototype.trim, toLowerCase on the ASCII letters, the decimal
 * rendering of an integer and parseInt(s, 10).
 * A JavaScript string is modelled as a sequence of `char`.
 */
module Text {

  /** The characters String.prototype.trim removes: WhiteSpace and LineTerminator. */
  predicate IsWhitespace(c: char) {
    || c == '\t' || c == '\n' || c == '\U{B}' || c == '\U{C}' || c == '\r' || c == ' '
    || c == '\U{A0}' || c == '\U{1680}' || ('\U{2000}' <= c <= '\U{200A}')
    || c == '\U{2028}' || c == '\U{2029}' || c == '\U{202F}' || c == '\U{205F}'
    || c == '\U{3000}' || c == '\U{FEFF}'
  }

  predicate AllWhitespace(s: string) {
    forall k :: 0 <= k < |s| ==> IsWhitespace(s[k])
  }

  /** The first index at or after `from` whose character is not whitespace, or |s| when there is none. */
  function SkipWhitespace(s: string, from: nat): (i: nat)
    requires from <= |s|
    ensures from <= i <= |s|
    ensures forall k :: from <= k < i ==> IsWhitespace(s[k])
    ensures i == |s| || !IsWhitespace(s[i])
    decreases |s| - from
  {
    if from < |s| && IsWhitespace(s[from]) then SkipWhitespace(s, from + 1) else from
  }

  /** The index just past the last character in s[lo..hi] that is not whitespace, or `lo` when there is none. */
  function BackWhitespace(s: string, lo: nat, hi: nat): (j: nat)
    requires lo <= hi <= |s|
    ensures lo <= j <= hi
    ensures forall k :: j <= k < hi ==> IsWhitespace(s[k])
    ensures j == lo || !IsWhitespace(s[j - 1])
    decreases hi
  {
    if lo < hi && IsWhitespace(s[hi - 1]) then BackWhitespace(s, lo, hi - 1) else hi
  }

  /** The three conditions fix the index SkipWhitespace returns. */
  lemma SkipWhitespaceAt(s: string, from: nat, i: nat)
    requires from <= i <= |s|
    requires forall k :: from <= k < i ==> IsWhitespace(s[k])
    requires i == |s| || !IsWhitespace(s[i])
    ensures SkipWhitespace(s, from) == i
  {
  }

  /** The three conditions fix the index BackWhitespace returns. */
  lemma BackWhitespaceAt(s: string, lo: nat, hi: nat, j: nat)
    requires lo <= j <= hi <= |s|
    requires forall k :: j <= k < hi ==> IsWhitespace(s[k])
    requires j == lo || !IsWhitespace(s[j - 1])
    ensures BackWhitespace(s, lo, hi) == j
  {
  }

  /** Drops leading whitespace, as the first step of parseInt does. */
  function TrimStart(s: string): string {
    s[SkipWhitespace(s, 0)..]
  }

  /** String.prototype.trim: drops leading and trailing whitespace. */
  function Trim(s: string): string {
    var i := SkipWhitespace(s, 0);
    s[i..BackWhitespace(s, i, |s|)]
  }

  /** `!s.trim()`: the trimmed string is the (falsy) empty string. */
  predicate IsBlank(s: string) {
    Trim(s) == []
  }

  /** Trim returns a contiguous slice s[i..j] of its input, surrounded only by whitespace, with no whitespace at either end. */
  lemma TrimBounds(s: string) returns (i: nat, j: nat)
    ensures i <= j <= |s| && Trim(s) == s[i..j]
    ensures AllWhitespace(s[..i]) && AllWhitespace(s[j..])
    ensures Trim(s) == [] || (!IsWhitespace(Trim(s)[0]) && !IsWhitespace(Trim(s)[|Trim(s)| - 1]))
  {
    i := SkipWhitespace(s, 0);
    j := BackWhitespace(s, i, |s|);
    assert forall k :: 0 <= k < i ==> s[..i][k] == s[k];
    assert forall k :: 0 <= k < |s| - j ==> s[j..][k] == s[j + k];
    if i < j {
      assert Trim(s)[0] == s[i];
      assert Trim(s)[|Trim(s)| - 1] == s[j - 1];
    }
  }

  lemma TrimIsSlice(s: string)
    ensures exists i, j :: 0 <= i <= j <= |s| && Trim(s) == s[i..j]
                           && AllWhitespace(s[..i]) && AllWhitespace(s[j..])
    ensures Trim(s) == [] || (!IsWhitespace(Trim(s)[0]) && !IsWhitespace(Trim(s)[|Trim(s)| - 1]))
  {
    var i, j := TrimBounds(s);
  }

  /** A string is blank exactly when every character of it is whitespace. */
  lemma BlankIffAllWhitespace(s: string)
    ensures IsBlank(s) <==> AllWhitespace(s)
  {
    var i, j := TrimBounds(s);
    if IsBlank(s) {
      forall k | 0 <= k < |s| ensures IsWhitespace(s[k]) {
        if k < i {
          assert s[..i][k] == s[k];
        } else {
          assert s[j..][k - j] == s[k];
        }
      }
    }
  }

  lemma TrimStartOfUntrimmed(s: string)
    requires s == [] || !IsWhitespace(s[0])
    ensures TrimStart(s) == s
  {
    SkipWhitespaceAt(s, 0, 0);
  }

  /** A string with no whitespace at either end is its own trim. */
  lemma TrimOfUntrimmed(s: string)
    requires s == [] || (!IsWhitespace(s[0]) && !IsWhitespace(s[|s| - 1]))
    ensures Trim(s) == s
  {
    SkipWhitespaceAt(s, 0, 0);
    BackWhitespaceAt(s, 0, |s|, |s|);
  }

  /** Trimming twice is trimming once. */
  lemma TrimIdempotent(s: string)
    ensures Trim(Trim(s)) == Trim(s)
  {
    var i, j := TrimBounds(s);
    TrimOfUntrimmed(Trim(s));
  }

  /** Trimming whitespace padding off a word that neither starts nor ends with whitespace gives back the word. */
  lemma TrimOfPadded(p: string, w: string, q: string)
    requires AllWhitespace(p) && AllWhitespace(q)
    requires w == [] || (!IsWhitespace(w[0]) && !IsWhitespace(w[|w| - 1]))
    ensures Trim(p + w + q) == w
  {
    var s := p + w + q;
    var a, b := |p|, |p| + |w|;
    assert forall k :: 0 <= k < a ==> s[k] == p[k];
    assert forall k :: b <= k < |s| ==> s[k] == q[k - b];
    if w == [] {
      SkipWhitespaceAt(s, 0, |s|);
    } else {
      assert s[a] == w[0] && s[b - 1] == w[|w| - 1];
      SkipWhitespaceAt(s, 0, a);
      BackWhitespaceAt(s, a, |s|, b);
      assert s[a..b] == w;
    }
  }

  /** toLowerCase on one character, for the letters A-Z. */
  function LowerChar(c: char): char {
    if 'A' <= c <= 'Z' then (c as int + 32) as char else c
  }

  /** Lowering leaves whitespace alone and never produces it from anything else. */
  lemma LowerCharWhitespace(c: char)
    ensures IsWhitespace(LowerChar(c)) <==> IsWhitespace(c)
    ensures IsWhitespace(c) ==> LowerChar(c) == c
  {
  }

  /** toLowerCase on the letters A-Z; every other character is unchanged. */
  function ToLowerAscii(s: string): (r: string)
    ensures |r| == |s|
    ensures forall k :: 0 <= k < |s| ==> r[k] == LowerChar(s[k])
  {
    seq(|s|, k requires 0 <= k < |s| => LowerChar(s[k]))
  }

  predicate IsDigit(c: char) {
    '0' <= c <= '9'
  }

  function DigitChar(d: nat): (c: char)
    requires d < 10
    ensures IsDigit(c) && c as int - '0' as int == d
  {
    ('0' as int + d) as char
  }

  /** The decimal rendering of a non-negative integer, as Number.prototype.toString gives it. */
  function DecimalString(n: nat): (r: string)
    ensures |r| >= 1 && forall k :: 0 <= k < |r| ==> IsDigit(r[k])
  {
    if n < 10 then [DigitChar(n)] else DecimalString(n / 10) + [DigitChar(n % 10)]
  }

  /** The decimal rendering of an integer, with a leading '-' when it is negative. */
  function IntString(n: int): string {
    if n < 0 then "-" + DecimalString(-n) else DecimalString(n)
  }

  /** The longest prefix of `s` made of decimal digits. */
  function LeadingDigits(s: string): (r: string)
    ensures |r| <= |s| && r == s[..|r|]
    ensures forall k :: 0 <= k < |r| ==> IsDigit(r[k])
    ensures |r| == |s| || !IsDigit(s[|r|])
  {
    if |s| > 0 && IsDigit(s[0]) then [s[0]] + LeadingDigits(s[1..]) else []
  }

  /** The value of a string of decimal digits, most significant first. */
  function DigitsValue(ds: string): nat
    requires forall k :: 0 <= k < |ds| ==> IsDigit(ds[k])
  {
    if ds == [] then 0
    else
      assert IsDigit(ds[|ds| - 1]);
      DigitsValue(ds[..|ds| - 1]) * 10 + (ds[|ds| - 1] as int - '0' as int)
  }

  /**
   * parseInt(s, 10): leading whitespace is skipped, then the rest is read by
   * ParseSigned.
   */
  function ParseInt(s: string): Option<int> {
    ParseSigned(TrimStart(s))
  }

  /**
   * One optional sign, then the longest run of decimal digits; no digit at
   * all is NaN (None). Anything after the digits is ignored.
   */
  function ParseSigned(t: string): Option<int> {
    var negative := |t| > 0 && t[0] == '-';
    var body := if |t| > 0 && (t[0] == '-' || t[0] == '+') then t[1..] else t;
    var ds := LeadingDigits(body);
    if ds == [] then None
    else
      var v: int := if negative then -(DigitsValue(ds) as int) else DigitsValue(ds);
      Some(v)
  }

  datatype Option<+T> = None | Some(value: T)

  lemma {:induction false} LeadingDigitsOfDigits(ds: string, rest: string)
    requires forall k :: 0 <= k < |ds| ==> IsDigit(ds[k])
    requires rest == [] || !IsDigit(rest[0])
    ensures LeadingDigits(ds + rest) == ds
  {
    if ds != [] {
      assert (ds + rest)[1..] == ds[1..] + rest;
      LeadingDigitsOfDigits(ds[1..], rest);
    } else {
      assert ds + rest == rest;
    }
  }

  lemma {:induction false} DigitsValueOfDecimal(n: nat)
    ensures DigitsValue(DecimalString(n)) == n
  {
    if n >= 10 {
      var r := DecimalString(n);
      assert r[..|r| - 1] == DecimalString(n / 10);
      DigitsValueOfDecimal(n / 10);
    }
  }

  /**
   * parseInt reads back the decimal rendering of any integer, whatever
   * non-digit text follows it: parseInt("7abc", 10) is 7.
   */
  lemma ParseIntOfIntString(n: int, rest: string)
    requires rest == [] || !IsDigit(rest[0])
    ensures ParseInt(IntString(n) + rest) == Some(n)
  {
    if n < 0 {
      ParseIntOfNegative(-n, rest);
    } else {
      ParseIntOfNatural(n, rest);
    }
  }

  lemma ParseIntOfNatural(m: nat, rest: string)
    requires rest == [] || !IsDigit(rest[0])
    ensures ParseInt(DecimalString(m) + rest) == Some(m)
  {
    var d := DecimalString(m);
    LeadingDigitsOfDigits(d, rest);
    DigitsValueOfDecimal(m);
    ParseSignedPositive(d, rest);
    assert IsDigit((d + rest)[0]);
    TrimStartOfUntrimmed(d + rest);
  }

  lemma ParseIntOfNegative(m: nat, rest: string)
    requires rest == [] || !IsDigit(rest[0])
    ensures ParseInt("-" + DecimalString(m) + rest) == Some(-(m as int))
  {
    var d := DecimalString(m);
    var t := ['-'] + (d + rest);
    LeadingDigitsOfDigits(d, rest);
    DigitsValueOfDecimal(m);
    ParseSignedNegative(d, rest);
    assert t[0] == '-';
    TrimStartOfUntrimmed(t);
    assert ParseInt(t) == Some(-(m as int));
    assert "-" + d + rest == t;
  }

  lemma ParseSignedNegative(d: string, rest: string)
    requires |d| >= 1 && forall k :: 0 <= k < |d| ==> IsDigit(d[k])
    requires LeadingDigits(d + rest) == d
    ensures ParseSigned(['-'] + (d + rest)) == Some(-(DigitsValue(d) as int))
  {
    var t := ['-'] + (d + rest);
    assert t[0] == '-' && t[1..] == d + rest;
  }

  lemma ParseSignedPositive(d: string, rest: string)
    requires |d| >= 1 && forall k :: 0 <= k < |d| ==> IsDigit(d[k])
    requires LeadingDigits(d + rest) == d
    ensures ParseSigned(d + rest) == Some(DigitsValue(d) as int)
  {
    var t := d + rest;
    assert t[0] == d[0];
    assert IsDigit(t[0]);
  }
}

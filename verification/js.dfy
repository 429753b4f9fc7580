/**
 * The parts of the JavaScript runtime that the client code relies on, stated
 * exactly: IEEE numbers reduced to their cases (NaN, the infinities, finite
 * values as reals), the whitespace class used by `String.prototype.trim` and
 * by the regular-expression class `\s`, trimming, decimal rendering of
 * integers and ASCII upper-casing.
 */
module Js {

  /** A JavaScript number: NaN, an infinity, or a finite value (kept exact). */
  datatype Number = NaN | PosInf | NegInf | Finite(v: real)

  /** Truthiness of a number: 0 and NaN are falsy. */
  predicate NumberTruthy(n: Number) {
    match n
    case NaN => false
    case Finite(v) => v != 0.0
    case _ => true
  }

  /** `n <= x` for a finite right operand: NaN compares false. */
  predicate AtMost(n: Number, x: real) {
    match n
    case NaN => false
    case PosInf => false
    case NegInf => true
    case Finite(v) => v <= x
  }

  /** `n > x` for a finite right operand: NaN compares false. */
  predicate Above(n: Number, x: real) {
    match n
    case NaN => false
    case PosInf => true
    case NegInf => false
    case Finite(v) => v > x
  }

  /** White space and line terminators of ECMAScript (sections 12.2 and 12.3 of ECMA-262). */
  predicate IsSpace(c: char) {
    || c == '\t' || c == '\n' || c == '\U{000B}' || c == '\U{000C}' || c == '\r' || c == ' '
    || c == '\U{00A0}' || c == '\U{1680}' || ('\U{2000}' <= c <= '\U{200A}')
    || c == '\U{2028}' || c == '\U{2029}' || c == '\U{202F}' || c == '\U{205F}'
    || c == '\U{3000}' || c == '\U{FEFF}'
  }

  /** Number of leading white-space characters. */
  function LeadingSpace(s: string): (i: nat)
    ensures i <= |s|
    ensures forall k :: 0 <= k < i ==> IsSpace(s[k])
    ensures i < |s| ==> !IsSpace(s[i])
  {
    if s == [] || !IsSpace(s[0]) then 0 else 1 + LeadingSpace(s[1..])
  }

  /** Index just past the last non-white-space character (0 when there is none). */
  function ContentEnd(s: string): (j: nat)
    ensures j <= |s|
    ensures forall k :: j <= k < |s| ==> IsSpace(s[k])
    ensures 0 < j ==> !IsSpace(s[j - 1])
  {
    if s == [] || !IsSpace(s[|s| - 1]) then |s| else ContentEnd(s[..|s| - 1])
  }

  /** `String.prototype.trim`: drop leading and trailing white space. */
  function Trim(s: string): (r: string)
    ensures r == "" <==> forall k :: 0 <= k < |s| ==> IsSpace(s[k])
    ensures r != "" ==> !IsSpace(r[0]) && !IsSpace(r[|r| - 1])
    ensures exists i, j ::
      && 0 <= i <= j <= |s| && r == s[i..j]
      && (forall k :: 0 <= k < i ==> IsSpace(s[k])) && (forall k :: j <= k < |s| ==> IsSpace(s[k]))
    ensures (forall k :: 0 <= k < |s| ==> !IsSpace(s[k])) ==> r == s
  {
    var i := LeadingSpace(s);
    if i == |s| then
      assert s[0..0] == "";
      ""
    else
      var j := ContentEnd(s);
      assert i < j;
      assert (forall k :: 0 <= k < |s| ==> !IsSpace(s[k])) ==> i == 0 && j == |s| && s[i..j] == s;
      s[i..j]
  }

  /** The digit character for 0 <= d < 10. */
  function DigitChar(d: int): char
    requires 0 <= d < 10
  {
    "0123456789"[d]
  }

  predicate IsDigit(c: char) {
    '0' <= c <= '9'
  }

  /** The value of a digit character. */
  function DigitValue(c: char): int
    requires IsDigit(c)
  {
    c as int - '0' as int
  }

  /** Decimal rendering of a natural number, as `String(n)` produces it. */
  function NatToString(n: nat): (s: string)
    ensures s != [] && forall k :: 0 <= k < |s| ==> IsDigit(s[k])
    ensures |s| > 1 ==> s[0] != '0'
    decreases n
  {
    if n < 10 then [DigitChar(n)] else NatToString(n / 10) + [DigitChar(n % 10)]
  }

  /** Decimal rendering of an integer, with a leading '-' when negative. */
  function IntToString(n: int): string {
    if n < 0 then "-" + NatToString(-n) else NatToString(n)
  }

  /** The value of a string of decimal digits (the inverse of NatToString). */
  function DigitsValue(s: string): nat
    requires forall k :: 0 <= k < |s| ==> IsDigit(s[k])
  {
    if s == [] then 0 else 10 * DigitsValue(s[..|s| - 1]) + DigitValue(s[|s| - 1])
  }

  /** Reading back the rendering of a natural number gives the number. */
  lemma {:induction false} NatToStringRoundTrip(n: nat)
    ensures DigitsValue(NatToString(n)) == n
  {
    var s := NatToString(n);
    if n < 10 {
      assert s[..0] == [];
    } else {
      var p := NatToString(n / 10);
      assert s[..|s| - 1] == p;
      NatToStringRoundTrip(n / 10);
    }
  }

  /** Distinct numbers render differently. */
  lemma NatToStringInjective(m: nat, n: nat)
    requires NatToString(m) == NatToString(n)
    ensures m == n
  {
    NatToStringRoundTrip(m);
    NatToStringRoundTrip(n);
  }

  /** `String.prototype.toUpperCase` restricted to ASCII letters. */
  function UpperAscii(s: string): (r: string)
    ensures |r| == |s|
    ensures forall k :: 0 <= k < |s| ==> r[k] == if 'a' <= s[k] <= 'z' then (s[k] as int - 32) as char else s[k]
  {
    if s == [] then [] else
      var c := s[0];
      [if 'a' <= c <= 'z' then (c as int - 32) as char else c] + UpperAscii(s[1..])
  }

  /**
   * `String.prototype.length`: the number of UTF-16 code units, so a
   * character outside the Basic Multilingual Plane counts twice.
   */
  function Utf16Length(s: string): (n: nat)
    ensures |s| <= n <= 2 * |s|
    ensures (forall k :: 0 <= k < |s| ==> s[k] as int < 0x1_0000) ==> n == |s|
  {
    if s == [] then 0 else Utf16Length(s[..|s| - 1]) + (if s[|s| - 1] as int < 0x1_0000 then 1 else 2)
  }

  /** `!s.trim()`: the string is white space only. */
  predicate Blank(s: string) {
    |s| == 0 || (IsSpace(s[0]) && Blank(s[1..]))
  }

  lemma {:induction false} BlankIsEmptyTrim(s: string)
    ensures Blank(s) <==> Trim(s) == ""
  {
    if s != [] {
      BlankIsEmptyTrim(s[1..]);
      assert forall k :: 1 <= k < |s| ==> s[1..][k - 1] == s[k];
    }
  }
}

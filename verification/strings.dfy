/** String helpers that mirror the JavaScript and Java string operations the
    admin screens and controllers rely on: lower-casing, `includes`,
    `trim() === ''`, decimal rendering and Java's `Long.parseLong`. */
module Strings {

  /** `String.prototype.toLowerCase` restricted to ASCII letters. */
  function LowerChar(c: char): char {
    if 'A' <= c <= 'Z' then (c as int + 32) as char else c
  }

  function Lower(s: string): (r: string)
    ensures |r| == |s|
    ensures forall i :: 0 <= i < |s| ==> r[i] == LowerChar(s[i])
  {
    if s == [] then [] else [LowerChar(s[0])] + Lower(s[1..])
  }

  /** `s.includes(t)`: t occurs in s at some position (the empty string
      occurs everywhere). */
  predicate Contains(s: string, t: string) {
    t <= s || (|s| > 0 && Contains(s[1..], t))
  }

  /** Case-insensitive `includes`, as in `a.toLowerCase().includes(b.toLowerCase())`. */
  predicate ContainsIgnoreCase(s: string, t: string) {
    Contains(Lower(s), Lower(t))
  }

  lemma {:induction false} ContainsAt(s: string, t: string, i: nat)
    requires i + |t| <= |s| && s[i..i + |t|] == t
    ensures Contains(s, t)
  {
    if i > 0 {
      assert s[1..][i - 1..i - 1 + |t|] == s[i..i + |t|];
      ContainsAt(s[1..], t, i - 1);
    } else {
      assert t == s[..|t|];
    }
  }

  /** `''.includes` is always true: an empty search term matches every text. */
  lemma ContainsEmpty(s: string)
    ensures Contains(s, "")
  {
  }

  predicate IsDigit(c: char) { '0' <= c <= '9' }

  function DigitChar(d: nat): char
    requires d < 10
  {
    ('0' as int + d) as char
  }

  /** The characters `String.prototype.trim` removes. */
  predicate IsWhitespace(c: char) {
    c == ' ' || c == '\t' || c == '\n' || c == '\r' || c == '\U{000B}' || c == '\U{000C}'
    || c == '\U{00A0}' || c == '\U{FEFF}' || c == '\U{1680}'
    || ('\U{2000}' <= c <= '\U{200A}') || c == '\U{2028}' || c == '\U{2029}'
    || c == '\U{202F}' || c == '\U{205F}' || c == '\U{3000}'
  }

  /** `s.trim() === ''`. */
  predicate IsBlank(s: string) {
    forall i :: 0 <= i < |s| ==> IsWhitespace(s[i])
  }

  /** Decimal rendering of a natural number, as `${n}` does. */
  function NatToString(n: nat): (r: string)
    ensures |r| > 0
    ensures forall i :: 0 <= i < |r| ==> IsDigit(r[i])
  {
    if n < 10 then [DigitChar(n)] else NatToString(n / 10) + [DigitChar(n % 10)]
  }

  /** Decimal rendering of an integer with a leading minus sign when negative. */
  function IntToString(n: int): string {
    if n < 0 then "-" + NatToString(-n) else NatToString(n)
  }

  predicate AllDigits(s: string) {
    forall i :: 0 <= i < |s| ==> IsDigit(s[i])
  }

  function DigitsValue(s: string): nat
    requires AllDigits(s)
  {
    if s == [] then 0
    else
      var d := s[|s| - 1] as int - '0' as int;
      assert IsDigit(s[|s| - 1]);
      DigitsValue(s[..|s| - 1]) * 10 + d
  }

  const LongMin: int := -0x8000_0000_0000_0000
  const LongMax: int := 0x7FFF_FFFF_FFFF_FFFF

  datatype Parsed = Parsed(value: int) | NumberFormatError

  predicate IsSign(c: char) {
    c == '-' || c == '+'
  }

  /** The text `Long.parseLong` accepts: a digit at every position, except
      that the first may be a sign when a digit follows it. */
  predicate LongSyntax(s: string) {
    && |s| > 0
    && (IsSign(s[0]) ==> |s| > 1)
    && forall i :: 0 <= i < |s| ==> IsDigit(s[i]) || (i == 0 && IsSign(s[i]))
  }

  /** The decimal value such a text denotes. */
  function SignedValue(s: string): int
    requires LongSyntax(s)
  {
    if s[0] == '-' then -(DigitsValue(s[1..]) as int)
    else if s[0] == '+' then DigitsValue(s[1..])
    else DigitsValue(s)
  }

  /** `Long.parseLong(s)` (also `Long.valueOf`): an optional `+` or `-`
      followed by at least one decimal digit, with the value inside the
      64-bit signed range; anything else throws NumberFormatException. */
  function ParseLong(s: string): (r: Parsed)
    ensures r.Parsed? <==> LongSyntax(s) && LongMin <= SignedValue(s) <= LongMax
    ensures r.Parsed? ==> r.value == SignedValue(s)
    ensures r.Parsed? ==> LongMin <= r.value <= LongMax
  {
    var sign := if |s| > 0 && IsSign(s[0]) then 1 else 0;
    var digits := s[sign..];
    if |digits| == 0 || !AllDigits(digits) then
      assert !LongSyntax(s) by {
        if |digits| > 0 {
          var k :| 0 <= k < |digits| && !IsDigit(digits[k]);
          assert s[k + sign] == digits[k];
        }
      }
      NumberFormatError
    else
      assert LongSyntax(s);
      var magnitude: int := DigitsValue(digits);
      var v: int := if sign == 1 && s[0] == '-' then -magnitude else magnitude;
      assert v == SignedValue(s);
      if LongMin <= v <= LongMax then Parsed(v) else NumberFormatError
  }

  lemma {:induction false} DigitsValueOfNat(n: nat)
    ensures DigitsValue(NatToString(n)) == n
  {
    if n >= 10 {
      var r := NatToString(n);
      assert r[..|r| - 1] == NatToString(n / 10);
      DigitsValueOfNat(n / 10);
    }
  }

  /** Rendering an in-range id in decimal and parsing it back gives the id:
      the ids the screens put in request paths are the ids the controllers
      parse. */
  lemma ParseLongRoundTrip(n: int)
    requires LongMin <= n <= LongMax
    ensures ParseLong(IntToString(n)) == Parsed(n)
  {
    var s := IntToString(n);
    if n < 0 {
      assert s[1..] == NatToString(-n);
      DigitsValueOfNat(-n);
    } else {
      assert s[0..] == NatToString(n);
      DigitsValueOfNat(n);
    }
  }

  /** A path segment with a letter, a space or any other non-digit anywhere
      but a leading sign fails to parse. */
  lemma ParseLongRejectsNonDigits(s: string, i: int)
    requires 0 <= i < |s| && !IsDigit(s[i]) && !(i == 0 && IsSign(s[i]))
    ensures ParseLong(s) == NumberFormatError
  {
    assert !LongSyntax(s);
  }
}

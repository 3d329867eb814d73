/**
 * Swift's `Int(_ description: String)` initialiser and the decimal rendering used by
 * string interpolation (`"\(n)"`), over 64-bit `Int`.
 *
 * `Int(s)` accepts an optional leading `+` or `-` followed by one or more ASCII decimal
 * digits and nothing else; it yields nil for anything else and for a value outside the
 * 64-bit range.
 */
module SwiftInt {
  import opened Wrappers

  const INT64_MIN: int := -0x8000_0000_0000_0000
  const INT64_MAX: int := 0x7FFF_FFFF_FFFF_FFFF

  predicate IsInt64(n: int) {
    INT64_MIN <= n <= INT64_MAX
  }

  predicate IsDigit(c: char) {
    '0' <= c <= '9'
  }

  predicate AllDigits(s: string) {
    forall i :: 0 <= i < |s| ==> IsDigit(s[i])
  }

  function DigitValue(c: char): (d: nat)
    requires IsDigit(c)
    ensures d < 10
  {
    (c as int) - ('0' as int)
  }

  function DigitChar(d: nat): (c: char)
    requires d < 10
    ensures IsDigit(c) && DigitValue(c) == d
  {
    ('0' as int + d) as char
  }

  /** The value of a string of decimal digits, most significant digit first. */
  function DigitsValue(s: string): nat
    requires AllDigits(s)
  {
    if s == [] then 0 else DigitsValue(s[..|s| - 1]) * 10 + DigitValue(s[|s| - 1])
  }

  /** The digits of `n` without a sign and without leading zeros ("0" for zero). */
  function NatToDigits(n: nat): (s: string)
    ensures |s| >= 1 && AllDigits(s)
    ensures DigitsValue(s) == n
  {
    if n < 10 then [DigitChar(n)]
    else
      var prefix := NatToDigits(n / 10);
      assert (prefix + [DigitChar(n % 10)])[..|prefix|] == prefix;
      prefix + [DigitChar(n % 10)]
  }

  /** `"\(n)"`: a minus sign for negative values, then the digits of the magnitude. */
  function IntToString(n: int): (s: string)
    ensures |s| >= 1
    ensures n < 0 <==> s[0] == '-'
    ensures s[0] != '+'
  {
    if n < 0 then "-" + NatToDigits(-n) else NatToDigits(n)
  }

  /** Splits an optional leading sign off `s`: (is negative, rest). */
  function SplitSign(s: string): (r: (bool, string))
    ensures |r.1| <= |s|
  {
    if |s| > 0 && s[0] == '-' then (true, s[1..])
    else if |s| > 0 && s[0] == '+' then (false, s[1..])
    else (false, s)
  }

  /** `Int(s)`: nil unless `s` is a sign and one or more digits denoting a 64-bit value. */
  function ParseInt(s: string): (r: Option<int>)
    ensures r.Some? ==> IsInt64(r.value)
    ensures r.Some? ==> |s| >= 1 && (IsDigit(s[0]) || s[0] == '-' || s[0] == '+')
    ensures r.Some? ==> forall i :: 1 <= i < |s| ==> IsDigit(s[i])
  {
    var (negative, digits) := SplitSign(s);
    if |digits| == 0 || !AllDigits(digits) then None
    else
      var magnitude: int := DigitsValue(digits);
      var v: int := if negative then -magnitude else magnitude;
      if IsInt64(v) then Some(v) else None
  }

  /** Rendering a 64-bit integer and parsing it back gives the same integer. */
  lemma ParseIntRoundTrip(n: int)
    requires IsInt64(n)
    ensures ParseInt(IntToString(n)) == Some(n)
  {
    var s := IntToString(n);
    if n < 0 {
      assert SplitSign(s) == (true, NatToDigits(-n));
    } else {
      assert SplitSign(s) == (false, NatToDigits(n));
    }
  }

  /** A character that is neither a digit nor a leading sign makes `Int(s)` nil. */
  lemma ParseIntRejectsStray(s: string, i: nat)
    requires i < |s| && !IsDigit(s[i])
    requires i > 0 || (s[i] != '-' && s[i] != '+')
    ensures ParseInt(s) == None
  {
  }

  /** The empty string and a lone sign are not integers. */
  lemma ParseIntRejectsEmpty()
    ensures ParseInt("") == None && ParseInt("-") == None && ParseInt("+") == None
  {
  }

  /** Digits whose value lies outside the 64-bit range give nil, with or without a sign. */
  lemma ParseIntRejectsOutOfRange(digits: string)
    requires digits != "" && AllDigits(digits)
    ensures DigitsValue(digits) > INT64_MAX ==> ParseInt(digits) == None && ParseInt("+" + digits) == None
    ensures DigitsValue(digits) > -INT64_MIN ==> ParseInt("-" + digits) == None
  {
    assert SplitSign(digits) == (false, digits);
    assert SplitSign("+" + digits) == (false, digits);
    assert SplitSign("-" + digits) == (true, digits);
  }
}

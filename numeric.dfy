/** Fixed-width integer types and Rust's decimal `parse`/`to_string` for them.

    `str::parse` for an unsigned type accepts an optional leading `+` followed by one or more
    ASCII digits whose value fits the type; a signed type also accepts a leading `-`. Anything
    else (the empty string, a lone sign, a non-digit, an out-of-range value) is rejected.
    `to_string` writes the shortest decimal form, with `-` for negative values. */
module Numeric {
  import opened Xml

  const U32_LIMIT: nat := 0x1_0000_0000
  const I32_LIMIT: nat := 0x8000_0000
  /** `usize` on a 64-bit target. */
  const USIZE_LIMIT: nat := 0x1_0000_0000_0000_0000

  type U32 = n: int | 0 <= n < U32_LIMIT
  type I32 = n: int | -(I32_LIMIT as int) <= n < I32_LIMIT

  predicate IsDigit(c: char) { '0' <= c <= '9' }

  predicate AllDigits(s: string) { forall i :: 0 <= i < |s| ==> IsDigit(s[i]) }

  function DigitValue(c: char): (d: nat)
    requires IsDigit(c)
    ensures d < 10
  {
    c as int - '0' as int
  }

  function DigitChar(d: nat): (c: char)
    requires d < 10
    ensures IsDigit(c) && DigitValue(c) == d
  {
    ('0' as int + d) as char
  }

  /** The value of a string of decimal digits, most significant first. */
  function DigitsValue(s: string): nat
    requires AllDigits(s)
    decreases |s|
  {
    if s == [] then 0 else DigitsValue(s[..|s| - 1]) * 10 + DigitValue(s[|s| - 1])
  }

  /** `to_string` of a non-negative integer. */
  function NatToDecimal(n: nat): (s: string)
    ensures |s| > 0 && AllDigits(s) && DigitsValue(s) == n
    decreases n
  {
    if n < 10 then [DigitChar(n)]
    else
      var prefix := NatToDecimal(n / 10);
      var s := prefix + [DigitChar(n % 10)];
      assert s[..|s| - 1] == prefix;
      s
  }

  /** `to_string` of a signed integer. */
  function IntToDecimal(i: int): (s: string)
    ensures |s| > 0
    ensures i < 0 <==> s[0] == '-'
  {
    if i < 0 then "-" + NatToDecimal(-i) else NatToDecimal(i)
  }

  /** `parse` into an unsigned type whose values are those below `limit`. */
  function ParseUnsigned(s: string, limit: nat): (r: Option<nat>)
    ensures r.Some? ==> r.value < limit
  {
    var digits := if |s| > 0 && s[0] == '+' then s[1..] else s;
    if |digits| == 0 || !AllDigits(digits) then None
    else if DigitsValue(digits) < limit then Some(DigitsValue(digits))
    else None
  }

  /** `parse` into a signed type whose values lie in [-limit, limit). */
  function ParseSigned(s: string, limit: nat): (r: Option<int>)
    ensures r.Some? ==> -(limit as int) <= r.value < limit
  {
    var negative := |s| > 0 && s[0] == '-';
    var digits := if |s| > 0 && (s[0] == '+' || s[0] == '-') then s[1..] else s;
    if |digits| == 0 || !AllDigits(digits) then None
    else
      var v := if negative then -(DigitsValue(digits) as int) else DigitsValue(digits);
      if -(limit as int) <= v < limit then Some(v) else None
  }

  /** Parsing what `to_string` wrote gives the number back, for every value of the type. */
  lemma ParseUnsignedOfDecimal(n: nat, limit: nat)
    requires n < limit
    ensures ParseUnsigned(NatToDecimal(n), limit) == Some(n)
  {
  }

  lemma ParseSignedOfDecimal(i: int, limit: nat)
    requires -(limit as int) <= i < limit
    ensures ParseSigned(IntToDecimal(i), limit) == Some(i)
  {
    var s := IntToDecimal(i);
    if i < 0 {
      assert s[1..] == NatToDecimal(-i);
    }
  }

  /** A text is accepted only if, after an optional `+`, it is a non-empty run of digits. */
  lemma ParseUnsignedRejects(s: string, limit: nat)
    requires s == [] || s == "+" || (s[0] != '+' && !AllDigits(s))
    ensures ParseUnsigned(s, limit) == None
  {
  }
}

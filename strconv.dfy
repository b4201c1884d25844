/**
 * Decimal integer formatting and parsing as Go's `strconv` package does it
 * for base 10: `FormatInt(n, 10)` and `ParseInt(s, 10, 64)` (`Atoi` on a
 * 64-bit platform behaves as the latter).
 */
module Strconv {
  import opened Wrappers

  const MinInt64: int := -0x8000_0000_0000_0000
  const MaxInt64: int := 0x7fff_ffff_ffff_ffff

  /** Go's `int64` (and `int` on a 64-bit platform). */
  type Int64 = n: int | MinInt64 <= n <= MaxInt64

  predicate IsDigit(c: char) {
    '0' <= c <= '9'
  }

  predicate AllDigits(s: string) {
    forall i :: 0 <= i < |s| ==> IsDigit(s[i])
  }

  function DigitValue(c: char): (d: nat)
    requires IsDigit(c)
    ensures d < 10
  {
    (c as int) - ('0' as int)
  }

  function DigitChar(d: nat): (c: char)
    requires d < 10
    ensures IsDigit(c) && DigitValue(c) == d
  {
    ('0' as int + d) as char
  }

  /** The number a string of ASCII decimal digits denotes, most significant digit first. */
  function DecimalValue(s: string): nat
    requires AllDigits(s)
  {
    if s == [] then 0 else 10 * DecimalValue(s[..|s| - 1]) + DigitValue(s[|s| - 1])
  }

  /** The shortest decimal spelling of a natural number, as `strconv.FormatUint(n, 10)`. */
  function FormatNat(n: nat): (s: string)
    ensures |s| > 0 && AllDigits(s)
  {
    if n < 10 then [DigitChar(n)] else FormatNat(n / 10) + [DigitChar(n % 10)]
  }

  /** `strconv.FormatInt(n, 10)`: a minus sign for negative numbers, then the digits. */
  function FormatInt(n: Int64): string {
    if n < 0 then "-" + FormatNat(-(n as int)) else FormatNat(n)
  }

  /**
   * `strconv.ParseInt(s, 10, 64)`: an optional `+` or `-`, then at least one
   * ASCII digit and nothing else (leading zeros are allowed, underscores are
   * not in base 10), denoting a value inside the int64 range. `None` stands
   * for the `ErrSyntax` and `ErrRange` errors; in particular the empty string,
   * which is what a nil byte slice converts to, is a syntax error.
   */
  function ParseInt(s: string): (r: Option<Int64>)
    ensures r.Some? ==> s != [] && (IsDigit(s[0]) || s[0] == '+' || s[0] == '-')
  {
    if s == [] then None
    else
      var signed := s[0] == '+' || s[0] == '-';
      var digits := if signed then s[1..] else s;
      if digits == [] || !AllDigits(digits) then None
      else
        var v: int := if s[0] == '-' then 0 - DecimalValue(digits) as int else DecimalValue(digits);
        if MinInt64 <= v <= MaxInt64 then Some(v) else None
  }

  lemma {:induction false} DecimalValueOfFormatNat(n: nat)
    ensures DecimalValue(FormatNat(n)) == n
  {
    if n >= 10 {
      var s := FormatNat(n);
      assert s[..|s| - 1] == FormatNat(n / 10);
      DecimalValueOfFormatNat(n / 10);
    }
  }

  /** What `FormatInt` writes, `ParseInt` reads back unchanged. */
  lemma ParseFormatInt(n: Int64)
    ensures ParseInt(FormatInt(n)) == Some(n)
  {
    DecimalValueOfFormatNat(if n < 0 then -(n as int) else n);
    if n < 0 {
      assert ("-" + FormatNat(-(n as int)))[1..] == FormatNat(-(n as int));
    }
  }

  /** Distinct int64 values have distinct decimal spellings. */
  lemma FormatIntInjective(m: Int64, n: Int64)
    ensures FormatInt(m) == FormatInt(n) <==> m == n
  {
    ParseFormatInt(m);
    ParseFormatInt(n);
  }
}

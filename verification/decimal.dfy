/**
 * Decimal text for signed 64-bit integers: Rust's `i64::to_string` (ShowInt)
 * and `str::parse::<i64>` (ParseI64), which the counter operators of the
 * persistent engine use to store numbers as text.
 */
module Decimal {
  import opened Types

  const I64_MIN: int := -0x8000_0000_0000_0000
  const I64_MAX: int := 0x7FFF_FFFF_FFFF_FFFF

  /** Values an `i64` can hold. */
  predicate InI64(n: int) {
    I64_MIN <= n <= I64_MAX
  }

  predicate IsDigit(c: char) {
    '0' <= c <= '9'
  }

  predicate AllDigits(s: string) {
    forall i :: 0 <= i < |s| ==> IsDigit(s[i])
  }

  function DigitValue(c: char): (d: nat)
    requires IsDigit(c)
    ensures d < 10
  {
    c as int - '0' as int
  }

  function DigitChar(d: nat): (c: char)
    requires d < 10
    ensures IsDigit(c) && DigitValue(c) == d
  {
    ('0' as int + d) as char
  }

  /** The number a non-empty run of decimal digits denotes (most significant first). */
  function DigitsValue(s: string): nat
    requires AllDigits(s)
  {
    if s == [] then 0 else DigitsValue(s[..|s| - 1]) * 10 + DigitValue(s[|s| - 1])
  }

  /** Canonical decimal text of a natural number: at least one digit, nothing else. */
  function ShowNat(n: nat): (s: string)
    ensures |s| > 0 && AllDigits(s)
    ensures |s| > 1 ==> s[0] != '0'
  {
    if n < 10 then [DigitChar(n)] else ShowNat(n / 10) + [DigitChar(n % 10)]
  }

  /** `i64::to_string`: a minus sign for negative numbers, then the digits of the magnitude. */
  function ShowInt(n: int): (s: string)
    ensures |s| > 0
    ensures s[0] == '-' <==> n < 0
    ensures AllDigits(if n < 0 then s[1..] else s)
  {
    if n < 0 then "-" + ShowNat(-n) else ShowNat(n)
  }

  /**
   * `str::parse::<i64>`: an optional `+` or `-`, then one or more ASCII digits
   * (leading zeros allowed), whose value must fit in an `i64`.  A sign on its
   * own, the empty string, any other character and an out-of-range value are
   * all errors (None).
   */
  function ParseI64(s: string): (r: Option<int>)
    ensures r.Some? ==> InI64(r.value)
    ensures r.Some? ==> |s| > 0 && (s[0] == '-' || s[0] == '+' || IsDigit(s[0]))
    ensures r.Some? ==> var d := if s[0] == '+' || s[0] == '-' then s[1..] else s; |d| > 0 && AllDigits(d)
  {
    if |s| == 0 then None
    else
      var digits := if s[0] == '+' || s[0] == '-' then s[1..] else s;
      if |digits| == 0 || !AllDigits(digits) then None
      else
        var n: int := if s[0] == '-' then -(DigitsValue(digits) as int) else DigitsValue(digits);
        if InI64(n) then Some(n) else None
  }

  /** Reading back the digits ShowNat writes gives the number. */
  lemma {:induction false} ShowNatRoundTrip(n: nat)
    ensures DigitsValue(ShowNat(n)) == n
  {
    var s := ShowNat(n);
    if n >= 10 {
      ShowNatRoundTrip(n / 10);
      assert s[..|s| - 1] == ShowNat(n / 10);
    }
  }

  /** Every `i64` survives `to_string` followed by `parse::<i64>`. */
  lemma ParseShowRoundTrip(n: int)
    requires InI64(n)
    ensures ParseI64(ShowInt(n)) == Some(n)
  {
    var s := ShowInt(n);
    if n < 0 {
      assert s[1..] == ShowNat(-n);
      ShowNatRoundTrip(-n);
    } else {
      ShowNatRoundTrip(n);
    }
  }

  /** Text written by ShowInt is decimal text that names one number only. */
  lemma ShowIntInjective(m: int, n: int)
    requires InI64(m) && InI64(n)
    requires ShowInt(m) == ShowInt(n)
    ensures m == n
  {
    ParseShowRoundTrip(m);
    ParseShowRoundTrip(n);
  }

  /** The parser accepts a sign and leading zeros, so distinct texts can name one number. */
  lemma ParseIsLenient()
    ensures ParseI64("+7") == Some(7)
    ensures ParseI64("007") == Some(7)
    ensures ParseI64("-") == None && ParseI64("") == None && ParseI64("12a") == None
  {
    assert "+7"[1..] == "7" && "7"[..0] == "";
    assert "007"[..2] == "00" && "00"[..1] == "0" && "0"[..0] == "";
  }
}

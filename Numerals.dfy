/**
 * Decimal numerals as Java writes and reads them: `Long.toString`,
 * `Long.parseLong` and `Integer.parseInt`, over ASCII digits.
 */
module Numerals {
  import opened Wrappers

  const LONG_MIN: int := -0x8000_0000_0000_0000
  const LONG_MAX: int := 0x7FFF_FFFF_FFFF_FFFF
  const INT_MIN: int := -0x8000_0000
  const INT_MAX: int := 0x7FFF_FFFF

  /** Java's 64-bit `long`. */
  newtype Long = x: int | -0x8000_0000_0000_0000 <= x <= 0x7FFF_FFFF_FFFF_FFFF

  predicate IsDigit(c: char) { '0' <= c <= '9' }

  predicate AllDigits(s: string) { forall i :: 0 <= i < |s| ==> IsDigit(s[i]) }

  function DigitValue(c: char): nat
    requires IsDigit(c)
  {
    c as int - '0' as int
  }

  function DigitChar(d: nat): (c: char)
    requires d < 10
    ensures IsDigit(c) && DigitValue(c) == d
  {
    ('0' as int + d) as char
  }

  /** The number a string of digits denotes, most significant digit first. */
  function Value(s: string): nat
    requires AllDigits(s)
  {
    if s == [] then 0 else 10 * Value(s[..|s| - 1]) + DigitValue(s[|s| - 1])
  }

  /** The shortest decimal numeral of `n`, with no leading zeros. */
  function Decimal(n: nat): (s: string)
    ensures |s| > 0 && AllDigits(s)
    ensures Value(s) == n
    ensures |s| == 1 <==> n < 10
    ensures s[0] != '0' || n == 0
    decreases n
  {
    if n < 10 then [DigitChar(n)]
    else
      var p := Decimal(n / 10);
      var s := p + [DigitChar(n % 10)];
      assert s[..|s| - 1] == p;
      s
  }

  /** `Long.toString`: an optional minus sign, then the shortest numeral of the magnitude. */
  function Render(n: int): string
  {
    if n < 0 then "-" + Decimal(-n) else Decimal(n)
  }

  /**
   * The value of an optional sign followed by at least one digit, without a
   * range check: the syntax `Long.parseLong` and `Integer.parseInt` accept.
   */
  function Parse(s: string): Option<int>
  {
    if |s| > 1 && (s[0] == '-' || s[0] == '+') && AllDigits(s[1..]) then
      Some(if s[0] == '-' then 0 - Value(s[1..]) as int else Value(s[1..]) as int)
    else if |s| > 0 && AllDigits(s) then
      Some(Value(s))
    else
      None
  }

  /** `Long.parseLong`: None where Java throws NumberFormatException. */
  function ParseLong(s: string): (r: Option<Long>)
    ensures r.Some? <==> Parse(s).Some? && LONG_MIN <= Parse(s).value <= LONG_MAX
    ensures r.Some? ==> r.value as int == Parse(s).value
  {
    match Parse(s)
    case Some(n) => if LONG_MIN <= n <= LONG_MAX then Some(n as Long) else None
    case None => None
  }

  /** `Integer.parseInt`: None where Java throws NumberFormatException. */
  function ParseInt(s: string): (r: Option<int>)
    ensures r.Some? <==> Parse(s).Some? && INT_MIN <= Parse(s).value <= INT_MAX
    ensures r.Some? ==> r.value == Parse(s).value
  {
    match Parse(s)
    case Some(n) => if INT_MIN <= n <= INT_MAX then Some(n) else None
    case None => None
  }

  /** Reading back what `Long.toString` wrote gives the number again. */
  lemma ParseRender(n: int)
    ensures Parse(Render(n)) == Some(n)
  {
    if n < 0 {
      var s := Render(n);
      assert s[1..] == Decimal(-n);
    }
  }

  lemma ParseLongRender(n: Long)
    ensures ParseLong(Render(n as int)) == Some(n)
  {
    ParseRender(n as int);
  }

  /** A digit string is read by `Integer.parseInt` as its value, and rejected when that exceeds an int. */
  lemma ParseIntOfDigits(s: string)
    requires |s| > 0 && AllDigits(s)
    ensures ParseInt(s) == if Value(s) <= INT_MAX then Some(Value(s)) else None
  {
    assert !IsDigit('-') && !IsDigit('+');
    assert IsDigit(s[0]);
  }

  function Pow10(n: nat): nat
  {
    if n == 0 then 1 else 10 * Pow10(n - 1)
  }

  /** A numeral with no leading zero is at least ten to the power of its width less one. */
  lemma {:induction false} ValueLowerBound(s: string)
    requires |s| > 0 && AllDigits(s) && s[0] != '0'
    ensures Value(s) >= Pow10(|s| - 1)
  {
    if |s| > 1 {
      var p := s[..|s| - 1];
      assert p[0] == s[0];
      ValueLowerBound(p);
    } else {
      assert DigitValue(s[0]) >= 1;
    }
  }

  lemma {:induction false} Pow10Monotone(a: nat, b: nat)
    requires a <= b
    ensures Pow10(a) <= Pow10(b)
    decreases b
  {
    if a < b { Pow10Monotone(a, b - 1); }
  }

  /**
   * A numeral of eleven or more digits without a leading zero, such as a
   * current time in milliseconds, is beyond what `Integer.parseInt` accepts.
   */
  lemma WideNumeralExceedsInt(s: string)
    requires |s| >= 11 && AllDigits(s) && s[0] != '0'
    ensures Value(s) > INT_MAX
    ensures ParseInt(s) == None
  {
    ValueLowerBound(s);
    Pow10Monotone(10, |s| - 1);
    assert Pow10(10) == 10000000000;
    ParseIntOfDigits(s);
  }
}

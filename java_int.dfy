/**
 * The parts of Java's `int` that the demos rely on: 32-bit two's-complement
 * arithmetic (compound assignment wraps on overflow) and the decimal text
 * that string concatenation produces for an `int` (`Integer.toString`).
 */
module JavaInt {
  import opened Wrappers

  const INT_MIN: int := -0x8000_0000
  const INT_MAX: int := 0x7fff_ffff
  const MODULUS: int := 0x1_0000_0000

  predicate InRange(v: int) { INT_MIN <= v <= INT_MAX }

  /** A value of Java type `int`. */
  type Int32 = v: int | InRange(v)

  /** The `int` that an unbounded result `v` wraps to: the one congruent to `v` modulo 2^32. */
  function Wrap(v: int): (r: Int32)
    ensures InRange(v) ==> r == v
    ensures (v - r) % MODULUS == 0
  {
    (v - INT_MIN) % MODULUS + INT_MIN
  }

  /** Wrapping ignores whole multiples of 2^32. */
  lemma WrapShift(v: int, k: int)
    ensures Wrap(v + k * MODULUS) == Wrap(v)
  {
    assert (v + k * MODULUS - INT_MIN) % MODULUS == (v - INT_MIN) % MODULUS;
  }

  /** Adding `d` with wrap-around and then subtracting it again gives back the original `int`. */
  lemma WrapAddSub(a: Int32, d: int)
    ensures Wrap(Wrap(a + d) - d) == a
  {
    var w := Wrap(a + d);
    var k := (a + d - w) / MODULUS;
    assert a + d - w == k * MODULUS;
    WrapShift(a, -k);
    assert w - d == a + (-k) * MODULUS;
  }

  // ---------------------------------------------------------------------------
  // Decimal text of an int, as Java's `"" + n` writes it.
  // ---------------------------------------------------------------------------

  predicate IsDigit(c: char) { '0' <= c <= '9' }

  predicate AllDigits(s: string) { forall i :: 0 <= i < |s| ==> IsDigit(s[i]) }

  function DigitChar(d: nat): (c: char)
    requires d < 10
    ensures IsDigit(c) && DigitValue(c) == d
  {
    ('0' as int + d) as char
  }

  function DigitValue(c: char): nat
    requires IsDigit(c)
  {
    c as int - '0' as int
  }

  /** The shortest decimal numeral for `n`: no sign and no leading zero. */
  function NatToDecimal(n: nat): (s: string)
    ensures |s| >= 1 && AllDigits(s)
    ensures s[0] == '0' ==> n == 0
  {
    if n < 10 then [DigitChar(n)] else NatToDecimal(n / 10) + [DigitChar(n % 10)]
  }

  /** `Integer.toString(n)`: a minus sign before the digits of |n| when `n` is negative. */
  function IntToDecimal(n: int): (s: string)
    ensures |s| >= 1
    ensures (s[0] == '-') <==> n < 0
  {
    if n < 0 then "-" + NatToDecimal(-n) else NatToDecimal(n)
  }

  /** The value of a string of decimal digits. */
  function DecimalValue(s: string): nat
    requires AllDigits(s)
  {
    if s == [] then 0 else DecimalValue(s[..|s| - 1]) * 10 + DigitValue(s[|s| - 1])
  }

  /** Reads back an optionally signed decimal numeral; `None` for anything else. */
  function ParseInt(s: string): (r: Option<int>)
    ensures r.Some? ==> |s| >= 1 && (r.value < 0 ==> s[0] == '-')
  {
    if |s| >= 2 && s[0] == '-' && AllDigits(s[1..]) then Some(-(DecimalValue(s[1..]) as int))
    else if |s| >= 1 && AllDigits(s) then Some(DecimalValue(s))
    else None
  }

  lemma {:induction false} NatDecimalRoundTrip(n: nat)
    ensures DecimalValue(NatToDecimal(n)) == n
  {
    if n >= 10 {
      var s := NatToDecimal(n);
      NatDecimalRoundTrip(n / 10);
      assert s[..|s| - 1] == NatToDecimal(n / 10);
    }
  }

  /** The decimal text of an `int` reads back as that `int`. */
  lemma IntDecimalRoundTrip(n: int)
    ensures ParseInt(IntToDecimal(n)) == Some(n)
  {
    if n < 0 {
      var digits := NatToDecimal(-n);
      var s := "-" + digits;
      assert s == IntToDecimal(n);
      assert s[1..] == digits;
      NatDecimalRoundTrip(-n);
      assert |s| >= 2 && s[0] == '-' && AllDigits(s[1..]);
      assert ParseInt(s) == Some(-(DecimalValue(digits) as int));
    } else {
      var s := NatToDecimal(n);
      NatDecimalRoundTrip(n);
      assert s[0] != '-';
      assert ParseInt(s) == Some(DecimalValue(s));
    }
  }
}

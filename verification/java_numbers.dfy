/** Java's fixed-width integers as the service uses them: `int` and `long` ranges,
    the narrowing `Long.intValue()` (keeps the low 32 bits) and `Math.toIntExact`
    (throws instead), the `int` product that wraps around, and the decimal text
    written by `toString()` and read back by `Long.parseLong`. */
module JavaNumbers {
  import opened Outcomes

  const MIN_INT: int := -0x8000_0000
  const MAX_INT: int := 0x7FFF_FFFF
  const MIN_LONG: int := -0x8000_0000_0000_0000
  const MAX_LONG: int := 0x7FFF_FFFF_FFFF_FFFF
  const TWO_32: int := 0x1_0000_0000

  /** A Java `int` (or non-null `Integer`). */
  type Int32 = x: int | MIN_INT <= x <= MAX_INT

  /** A Java `long` (or non-null `Long`). */
  type Long = x: int | MIN_LONG <= x <= MAX_LONG

  /** Two's-complement truncation to 32 bits: the one `int` congruent to `x`
      modulo 2^32. */
  function Wrap32(x: int): (r: Int32)
    ensures (x - r) % TWO_32 == 0
    ensures MIN_INT <= x <= MAX_INT ==> r == x
  {
    var low := x % TWO_32;
    if low <= MAX_INT then low else low - TWO_32
  }

  /** Two values congruent modulo 2^32 truncate to the same `int`. */
  lemma {:induction false} Wrap32Congruent(x: int, y: int)
    requires (x - y) % TWO_32 == 0
    ensures Wrap32(x) == Wrap32(y)
  {
    var k := (x - y) / TWO_32;
    assert x - y == k * TWO_32;
    assert x % TWO_32 == y % TWO_32 by {
      ModShift(y, k);
    }
  }

  lemma {:induction false} ModShift(y: int, k: int)
    ensures (y + k * TWO_32) % TWO_32 == y % TWO_32
    decreases if k < 0 then -k else k
  {
    if k > 0 {
      ModShift(y, k - 1);
      assert y + k * TWO_32 == (y + (k - 1) * TWO_32) + TWO_32;
    } else if k < 0 {
      ModShift(y, k + 1);
      assert y + k * TWO_32 == (y + (k + 1) * TWO_32) - TWO_32;
    }
  }

  /** `Long.intValue()`: the low 32 bits of a long, read as an int. */
  function IntValue(x: Long): (r: Int32)
    ensures (x - r) % TWO_32 == 0
    ensures MIN_INT <= x <= MAX_INT ==> r == x
  {
    Wrap32(x)
  }

  /** `Math.toIntExact(long)`: the same number as an int, or an
      `ArithmeticException` when it does not fit. */
  function ToIntExact(x: Long): (r: Result<Int32>)
    ensures r.Ok? <==> MIN_INT <= x <= MAX_INT
    ensures r.Ok? ==> r.value == x
    ensures r.Err? ==> r.error == Arithmetic
  {
    if MIN_INT <= x <= MAX_INT then Ok(x) else Err(Arithmetic)
  }

  /** `a * b` on Java ints: the exact product truncated to 32 bits. */
  function MulInt(a: Int32, b: Int32): (r: Int32)
    ensures (a * b - r) % TWO_32 == 0
    ensures MIN_INT <= a * b <= MAX_INT ==> r == a * b
  {
    Wrap32(a * b)
  }

  predicate IsDigit(c: char) {
    '0' <= c <= '9'
  }

  predicate AllDigits(s: string) {
    forall i :: 0 <= i < |s| ==> IsDigit(s[i])
  }

  function DigitChar(d: nat): (c: char)
    requires d < 10
    ensures IsDigit(c)
  {
    ('0' as int + d) as char
  }

  function DigitValue(c: char): (d: nat)
    requires IsDigit(c)
    ensures d < 10 && DigitChar(d) == c
  {
    c as int - '0' as int
  }

  /** The decimal digits of `n`, most significant first, with no leading zero. */
  function Digits(n: nat): (s: string)
    ensures |s| > 0 && AllDigits(s)
    ensures s[0] == '0' ==> n == 0
  {
    if n < 10 then [DigitChar(n)] else Digits(n / 10) + [DigitChar(n % 10)]
  }

  /** The number a string of decimal digits denotes (leading zeros allowed). */
  function DigitsValue(s: string): nat
    requires AllDigits(s)
  {
    if s == [] then 0 else DigitsValue(s[..|s| - 1]) * 10 + DigitValue(s[|s| - 1])
  }

  /** Reading back the digits of `n` gives `n`. */
  lemma {:induction false} DigitsValueOfDigits(n: nat)
    ensures DigitsValue(Digits(n)) == n
  {
    if n >= 10 {
      var s := Digits(n);
      assert s[..|s| - 1] == Digits(n / 10);
      DigitsValueOfDigits(n / 10);
    }
  }

  /** `Integer.toString` / `Long.toString` (what `toString()` on a boxed number
      writes): a minus sign for negatives, then the digits. */
  function DecimalString(x: int): (s: string)
    ensures |s| > 0 && (s[0] == '-' || IsDigit(s[0]))
    ensures AllDigits(s) <==> x >= 0
  {
    if x < 0 then "-" + Digits(-x) else Digits(x)
  }

  /** `Long.parseLong(s)`: an optional `-` or `+` sign and at least one decimal
      digit, denoting a value in the long range; anything else throws a
      `NumberFormatException`. */
  function ParseLong(s: string): (r: Result<Long>)
    ensures r.Err? ==> r.error == NumberFormat
    ensures r.Ok? ==> |s| > 0 && (IsDigit(s[0]) || (|s| > 1 && (s[0] == '-' || s[0] == '+')))
    ensures r.Ok? ==> (r.value < 0 ==> s[0] == '-')
    ensures r.Ok? ==> AllDigits(if s[0] == '-' || s[0] == '+' then s[1..] else s)
  {
    if |s| == 0 then Err(NumberFormat)
    else
      var body := if s[0] == '-' || s[0] == '+' then s[1..] else s;
      if |body| == 0 || !AllDigits(body) then Err(NumberFormat)
      else
        var magnitude: int := DigitsValue(body);
        var v: int := if s[0] == '-' then -magnitude else magnitude;
        if MIN_LONG <= v <= MAX_LONG then Ok(v) else Err(NumberFormat)
  }

  /** Round trip: parsing what `toString()` writes for a long gives that long
      back. */
  lemma {:induction false} ParseLongOfDecimalString(x: Long)
    ensures ParseLong(DecimalString(x)) == Ok(x)
  {
    if x < 0 {
      var n: nat := -(x as int);
      var digits := Digits(n);
      DigitsValueOfDigits(n);
      ParseDigits(digits);
      assert DecimalString(x) == "-" + digits;
    } else {
      var digits := Digits(x);
      DigitsValueOfDigits(x);
      assert DecimalString(x) == digits;
      assert IsDigit(digits[0]);
    }
  }

  /** The value of any digit string, unsigned, with `+` or with `-`: the number
      it denotes, or its negation, whenever that fits a long, and a
      `NumberFormatException` otherwise. Leading zeros are accepted. */
  lemma {:induction false} ParseDigits(digits: string)
    requires |digits| > 0 && AllDigits(digits)
    ensures ParseLong(digits)
            == if DigitsValue(digits) <= MAX_LONG then Ok(DigitsValue(digits)) else Err(NumberFormat)
    ensures ParseLong("+" + digits) == ParseLong(digits)
    ensures ParseLong("-" + digits)
            == if DigitsValue(digits) <= -MIN_LONG then Ok(-(DigitsValue(digits) as int)) else Err(NumberFormat)
  {
    assert IsDigit(digits[0]);
    assert ("+" + digits)[1..] == digits;
    assert ("-" + digits)[1..] == digits;
  }
}

/**
 * Go's 64-bit `int` and `strconv.Atoi` (decimal, `int` of 64 bits). The
 * programs ignore Atoi's error, so what matters is the value it returns in
 * every case: 0 on a syntax error, the clamped bound on a range error.
 */
module GoNumbers {
  import opened Strings
  import opened Decimal

  const MaxUint64: int := 0xFFFF_FFFF_FFFF_FFFF
  const MaxInt64: int := 0x7FFF_FFFF_FFFF_FFFF
  const MinInt64: int := -0x8000_0000_0000_0000
  const TwoTo64: int := 0x1_0000_0000_0000_0000

  predicate IsInt64(x: int) {
    MinInt64 <= x <= MaxInt64
  }

  /** Go `int` addition: the mathematical sum wrapped into 64 bits two's complement. */
  function WrapInt64(x: int): (r: int)
    ensures IsInt64(r)
    ensures (r - x) % TwoTo64 == 0
    ensures IsInt64(x) ==> r == x
  {
    (x - MinInt64) % TwoTo64 + MinInt64
  }

  /** The part of an Atoi argument after an optional leading `+` or `-`. */
  function Unsigned(s: GoString): GoString {
    if |s| > 0 && (s[0] == '-' || s[0] == '+') then s[1..] else s
  }

  /** What Atoi accepts without error: an optional sign and at least one digit. */
  predicate IsSignedDecimal(s: GoString) {
    Unsigned(s) != [] && AllDigits(Unsigned(s))
  }

  /**
   * The value `strconv.Atoi(s)` returns, its error ignored. Go scans the
   * digits after the sign from the left and stops at the first character
   * that is not a digit (a syntax error: 0) or at the first digit that makes
   * the value exceed 64 bits (a range error: the value clamped to the int64
   * bound of the sign). An empty string or a lone sign is a syntax error.
   */
  function Atoi(s: GoString): (n: int)
    ensures IsInt64(n)
  {
    var neg := |s| > 0 && s[0] == '-';
    var body := Unsigned(s);
    if body == [] then 0
    else
      var k := FirstNonDigit(body);
      var v: int := DigitsValue(body[..k]);
      if v > MaxUint64 then (if neg then MinInt64 else MaxInt64)
      else if k < |body| then 0
      else if neg then (if v > -MinInt64 then MinInt64 else -v)
      else (if v > MaxInt64 then MaxInt64 else v)
  }

  lemma Pow10Of18()
    ensures Pow10(18) == 1_000_000_000_000_000_000
  {
    assert Pow10(1) == 10;
    assert Pow10(2) == 100;
    assert Pow10(3) == 1000;
    assert Pow10(4) == 10000;
    assert Pow10(5) == 100000;
    assert Pow10(6) == 1000000;
    assert Pow10(7) == 10000000;
    assert Pow10(8) == 100000000;
    assert Pow10(9) == 1000000000;
    assert Pow10(10) == 10000000000;
    assert Pow10(11) == 100000000000;
    assert Pow10(12) == 1000000000000;
    assert Pow10(13) == 10000000000000;
    assert Pow10(14) == 100000000000000;
    assert Pow10(15) == 1000000000000000;
    assert Pow10(16) == 10000000000000000;
    assert Pow10(17) == 100000000000000000;
    assert Pow10(18) == 1000000000000000000;
  }

  /** Atoi reads back every int64 from its decimal rendering. */
  lemma AtoiOfDecimal(x: int)
    requires IsInt64(x)
    ensures Atoi(IntToString(x)) == x
  {
    var s := IntToString(x);
    var digits := NatToString(if x < 0 then -x else x);
    assert Unsigned(s) == digits;
    assert FirstNonDigit(digits) == |digits|;
    assert digits[..|digits|] == digits;
  }

  /**
   * A short argument (at most 19 bytes, as every int64 rendering is) that is
   * not a sign followed by digits cannot overflow before its first bad
   * character, so Atoi returns 0 for it.
   */
  lemma AtoiRejects(s: GoString)
    requires |s| <= 19 && !IsSignedDecimal(s)
    ensures Atoi(s) == 0
  {
    var body := Unsigned(s);
    if body != [] {
      var k := FirstNonDigit(body);
      assert k < |body|;
      DigitsValueBound(body[..k]);
      Pow10Monotone(k, 18);
      Pow10Of18();
    }
  }
}

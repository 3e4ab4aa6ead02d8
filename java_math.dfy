/**
 * Java's fixed-width integer arithmetic, its casts and the small helpers of
 * java.lang.Math and Minecraft's Mth that the generator uses, written out on
 * Dafny's unbounded integers and reals.
 */
module JavaMath {
  const INT_MIN: int := -0x8000_0000
  const INT_MAX: int := 0x7fff_ffff
  const TWO_32: int := 0x1_0000_0000
  const TWO_64: int := 0x1_0000_0000_0000_0000

  predicate InInt32(i: int) {
    INT_MIN <= i <= INT_MAX
  }

  /** The value a Java `int` expression takes when its exact result is `i` (two's-complement wrap-around). */
  function Wrap32(i: int): (r: int)
    ensures InInt32(r)
    ensures (i - r) % TWO_32 == 0
    ensures InInt32(i) ==> r == i
  {
    (i - INT_MIN) % TWO_32 + INT_MIN
  }

  /** Two exact results that agree modulo 2^32 wrap to the same `int`. */
  lemma Wrap32Congruent(a: int, b: int)
    requires (a - b) % TWO_32 == 0
    ensures Wrap32(a) == Wrap32(b)
  {
    var k := (a - b) / TWO_32;
    assert a - INT_MIN == (b - INT_MIN) + k * TWO_32;
    ModAddMultiple(b - INT_MIN, k);
  }

  lemma ModAddMultiple(x: int, k: int)
    ensures (x + k * TWO_32) % TWO_32 == x % TWO_32
  {
    var q := x / TWO_32;
    var r := x % TWO_32;
    assert x + k * TWO_32 == (q + k) * TWO_32 + r;
  }

  /** Wrapping an intermediate result does not change a wrapped sum: `Wrap32(Wrap32(a) + b) == Wrap32(a + b)`. */
  lemma {:induction false} Wrap32Add(a: int, b: int)
    ensures Wrap32(Wrap32(a) + b) == Wrap32(a + b)
  {
    var w := Wrap32(a);
    var k := (a - w) / TWO_32;
    assert (a + b) - (w + b) == k * TWO_32;
    assert ((a + b) - (w + b)) % TWO_32 == 0;
    Wrap32Congruent(w + b, a + b);
  }

  /** Java's `(int)` cast of an integral double: out-of-range values saturate at the `int` bounds. */
  function SaturateInt32(i: int): (r: int)
    ensures InInt32(r)
    ensures InInt32(i) ==> r == i
  {
    if i < INT_MIN then INT_MIN else if i > INT_MAX then INT_MAX else i
  }

  /** Java's `(int)` cast of a double: truncation toward zero, then saturation (NaN is not modelled). */
  function DoubleToInt(v: real): (r: int)
    ensures InInt32(r)
  {
    SaturateInt32(if v >= 0.0 then v.Floor else -((-v).Floor))
  }

  /** A double lying between two `int` values casts to an `int` between them. */
  lemma DoubleToIntWithin(v: real, lo: int, hi: int)
    requires InInt32(lo) && InInt32(hi)
    requires lo as real <= v <= hi as real
    ensures lo <= DoubleToInt(v) <= hi
  {
  }

  /** A Java `long`, held as its 64-bit two's-complement pattern read as an unsigned number. */
  type Long64 = i: int | 0 <= i < TWO_64

  /** The `long` whose exact value is `i`: a widened `int` is sign-extended, wider results wrap. */
  function Long(i: int): (r: Long64)
    ensures (i - r) % TWO_64 == 0
  {
    i % TWO_64
  }

  /** `a + b` on `long`s. */
  function LongAdd(a: Long64, b: Long64): Long64 {
    Long(a + b)
  }

  /** `a * b` on `long`s. */
  function LongMul(a: Long64, b: Long64): Long64 {
    Long(a * b)
  }

  /** 2 to the power n. */
  function Pow2(n: nat): (r: nat)
    ensures r >= 1
  {
    if n == 0 then 1 else 2 * Pow2(n - 1)
  }

  /** The exclusive or of the lowest n bits of a and b, one bit at a time from the least significant. */
  function XorBits(a: nat, b: nat, n: nat): (r: nat)
    ensures r < Pow2(n)
  {
    if n == 0 then 0 else (a + b) % 2 + 2 * XorBits(a / 2, b / 2, n - 1)
  }

  /** Powers of two multiply by adding exponents. */
  lemma {:induction false} Pow2Add(m: nat, n: nat)
    ensures Pow2(m + n) == Pow2(m) * Pow2(n)
  {
    if m > 0 {
      Pow2Add(m - 1, n);
      assert Pow2(m + n) == 2 * Pow2(m - 1 + n);
    }
  }

  /** Doubling the exponent squares the power. */
  lemma Pow2Double(n: nat, v: nat)
    requires Pow2(n) == v
    ensures Pow2(n + n) == v * v
  {
    Pow2Add(n, n);
  }

  lemma Pow2Of64()
    ensures Pow2(64) == TWO_64
  {
    assert Pow2(1) == 2;
    Pow2Double(1, 2);
    Pow2Double(2, 4);
    Pow2Double(4, 16);
    Pow2Double(8, 256);
    Pow2Double(16, 0x1_0000);
    Pow2Double(32, 0x1_0000_0000);
  }

  /** `a ^ b` on `long`s. */
  function LongXor(a: Long64, b: Long64): Long64 {
    Pow2Of64();
    XorBits(a, b, 64)
  }

  /** A number written as its lowest bit plus twice the rest halves back into those two parts. */
  lemma HalveSplit(low: int, rest: int)
    requires 0 <= low < 2
    ensures (low + 2 * rest) / 2 == rest && (low + 2 * rest) % 2 == low
  {
  }

  /** Adding b to the bit `(a + b) % 2` restores the parity of a. */
  lemma ParityCancel(a: int, b: int, r: int, rest: int)
    requires r == (a + b) % 2 + 2 * rest
    ensures (r + b) % 2 == a % 2
  {
  }

  /** Halving a number below 2^n leaves it below 2^(n-1). */
  lemma HalfBelowPow2(a: nat, n: nat)
    requires 0 < n && a < Pow2(n)
    ensures a / 2 < Pow2(n - 1)
  {
  }

  /** Exclusive or with b twice is the identity on the lowest n bits. */
  lemma {:induction false} XorBitsCancel(a: nat, b: nat, n: nat)
    requires a < Pow2(n)
    ensures XorBits(XorBits(a, b, n), b, n) == a
  {
    if n > 0 {
      var low, rest := (a + b) % 2, XorBits(a / 2, b / 2, n - 1);
      var r := XorBits(a, b, n);
      assert r == low + 2 * rest;
      HalveSplit(low, rest);
      ParityCancel(a, b, r, rest);
      HalfBelowPow2(a, n);
      XorBitsCancel(a / 2, b / 2, n - 1);
      assert XorBits(r, b, n) == (r + b) % 2 + 2 * XorBits(r / 2, b / 2, n - 1);
    }
  }

  /** `(a ^ b) ^ b == a` on `long`s. */
  lemma LongXorCancel(a: Long64, b: Long64)
    ensures LongXor(LongXor(a, b), b) == a
  {
    Pow2Of64();
    XorBitsCancel(a, b, 64);
  }

  function Abs(i: int): nat {
    if i < 0 then -i else i
  }

  /** Java's `/` on integers: the quotient truncated toward zero. */
  function JavaDiv(a: int, b: int): int
    requires b != 0
  {
    var q := Abs(a) / Abs(b);
    if (a < 0) == (b < 0) then q else -q
  }

  /** Java's `%` on integers: the remainder takes the sign of the dividend. */
  function JavaRem(a: int, b: int): int
    requires b != 0
  {
    a - b * JavaDiv(a, b)
  }

  /** The remainder is smaller than the divisor in magnitude and never has the opposite sign to the dividend. */
  lemma JavaRemBounds(a: int, b: int)
    requires b > 0
    ensures a >= 0 ==> 0 <= JavaRem(a, b) < b && JavaDiv(a, b) == a / b
    ensures a <= 0 ==> -b < JavaRem(a, b) <= 0 && JavaDiv(a, b) == -((-a) / b)
  {
  }

  /** `Mth.clamp(value, min, max)`: `value < min ? min : Math.min(value, max)`. */
  function Clamp(value: real, lo: real, hi: real): (r: real)
    ensures lo <= hi ==> lo <= r <= hi
    ensures lo <= value <= hi ==> r == value
  {
    if value < lo then lo else Min(value, hi)
  }

  /** `Math.max` on doubles (NaN and signed zeros are not modelled). */
  function Max(a: real, b: real): (r: real)
    ensures r >= a && r >= b && (r == a || r == b)
  {
    if a >= b then a else b
  }

  /** `Math.min` on doubles (NaN and signed zeros are not modelled). */
  function Min(a: real, b: real): (r: real)
    ensures r <= a && r <= b && (r == a || r == b)
  {
    if a <= b then a else b
  }
}

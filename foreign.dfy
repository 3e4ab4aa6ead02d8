/**
 * The library calls the generator makes but does not define: java.lang.Math's
 * sqrt, exp and pow(., 1.5), Minecraft's RandomSource and the SimplexNoise
 * channels. They are passed around as one value of arrow-typed fields; `Valid`
 * states everything the model relies on about them.
 */
module Foreign {
  import opened JavaMath

  /** Java's `Math.PI`. */
  const PI: real := 3.141592653589793

  datatype Primitives = Primitives(
    /** `Math.sqrt` */
    sqrt: real -> real,
    /** `Math.exp` */
    exp: real -> real,
    /** `Math.pow(v, 1.5)` */
    pow15: real -> real,
    /** the k-th `nextDouble()` (k = 0, 1, ...) of a fresh `RandomSource.create(s)` */
    nextDouble: (Long64, nat) -> real,
    /** `new SimplexNoise(RandomSource.create(s)).getValue(a, b)` */
    noise: (Long64, real, real) -> real
  ) {
    ghost predicate Valid() {
      SqrtIsExact(sqrt) && ExpBounds(exp) && Pow15Bounds(pow15)
      && UnitDraws(nextDouble) && NoiseBounds(noise)
    }
  }

  /** `sqrt` is the non-negative square root on the non-negative reals. */
  ghost predicate SqrtIsExact(sqrt: real -> real) {
    forall r: real :: 0.0 <= r ==> 0.0 <= sqrt(r) && sqrt(r) * sqrt(r) == r
  }

  /** `exp` is positive everywhere and at most 1 on the non-positive reals. */
  ghost predicate ExpBounds(exp: real -> real) {
    (forall r: real :: 0.0 < exp(r))
    && (forall r: real :: r <= 0.0 ==> exp(r) <= 1.0)
  }

  /** `pow(., 1.5)` maps [0, 1] monotonically into [0, 1], with 0 to 0 and 1 to 1. */
  ghost predicate Pow15Bounds(pow15: real -> real) {
    pow15(0.0) == 0.0 && pow15(1.0) == 1.0
    && (forall r: real :: 0.0 <= r <= 1.0 ==> 0.0 <= pow15(r) <= 1.0)
    && (forall a: real, b: real :: 0.0 <= a <= b <= 1.0 ==> pow15(a) <= pow15(b))
  }

  /** `nextDouble()` lies in [0, 1). */
  ghost predicate UnitDraws(nextDouble: (Long64, nat) -> real) {
    forall s: Long64, k: nat :: 0.0 <= nextDouble(s, k) < 1.0
  }

  /** Simplex noise lies in [-1, 1]. */
  ghost predicate NoiseBounds(noise: (Long64, real, real) -> real) {
    forall s: Long64, a: real, b: real :: -1.0 <= noise(s, a, b) <= 1.0
  }

  /** The square root of a perfect square `n * n` is `n`. */
  lemma SqrtOfSquare(sqrt: real -> real, n: real)
    requires SqrtIsExact(sqrt) && 0.0 <= n
    ensures sqrt(n * n) == n
  {
    var s := sqrt(n * n);
    assert 0.0 <= s && s * s == n * n;
    if s < n {
      SquareStrictlyMonotone(s, n);
    } else if s > n {
      SquareStrictlyMonotone(n, s);
    }
  }

  /** Squaring is strictly increasing on the non-negative reals. */
  lemma SquareStrictlyMonotone(a: real, b: real)
    requires 0.0 <= a < b
    ensures a * a < b * b
  {
    var ab := a * b;
    assert a * a <= ab;
    assert ab < b * b;
  }

  /** A non-negative real whose square is at least `b * b` is at least `b`. */
  lemma SquareBoundsRoot(r: real, b: real)
    requires 0.0 <= r && 0.0 <= b && b * b <= r * r
    ensures b <= r
  {
    if r < b {
      SquareStrictlyMonotone(r, b);
    }
  }

  /** `sqrt` preserves order on the non-negative reals. */
  lemma SqrtMonotone(sqrt: real -> real, a: real, b: real)
    requires SqrtIsExact(sqrt) && 0.0 <= a <= b
    ensures sqrt(a) <= sqrt(b)
  {
    var sa, sb := sqrt(a), sqrt(b);
    assert 0.0 <= sa && sa * sa == a;
    assert 0.0 <= sb && sb * sb == b;
    SquareBoundsRoot(sb, sa);
  }

  /** Multiplying by a non-negative factor preserves order. */
  lemma MulMonotone(a: real, b: real, c: real)
    requires a <= b && 0.0 <= c
    ensures a * c <= b * c
  {
    var d := b - a;
    assert d * c >= 0.0;
    assert b * c == a * c + d * c;
  }

  /** A square is non-negative, and positive unless its root is zero. */
  lemma SquarePositive(a: real)
    ensures a * a >= 0.0
    ensures a != 0.0 ==> a * a > 0.0
  {
    if a < 0.0 {
      var b := -a;
      assert a * a == b * b;
    }
  }

  /** A product of non-negative factors grows when either factor grows. */
  lemma ProductMonotone(a: real, a': real, b: real, b': real)
    requires 0.0 <= a <= a' && 0.0 <= b <= b'
    ensures a * b <= a' * b'
  {
    MulMonotone(a, a', b);
    MulMonotone(b, b', a');
    assert a' * b == b * a';
    assert a' * b' == b' * a';
  }

  /** Multiplying by a positive factor preserves strict order. */
  lemma MulStrictMonotone(a: real, b: real, c: real)
    requires a < b && 0.0 < c
    ensures a * c < b * c
  {
    var d := b - a;
    assert d * c > 0.0;
    assert b * c == a * c + d * c;
  }

  /** A positive value scaled by a positive factor stays positive. */
  lemma ScaledPositive(u: real, s: real)
    requires 0.0 < u && 0.0 < s
    ensures u * s > 0.0
  {
  }

  /** A non-positive value scaled by a non-negative factor stays non-positive. */
  lemma ScaledNonPositive(u: real, s: real)
    requires u <= 0.0 && 0.0 <= s
    ensures u * s <= 0.0
  {
    MulMonotone(u, 0.0, s);
  }

  /** A factor in [0, 1] does not grow a non-negative value. */
  lemma ShrinkNonNegative(x: real, s: real)
    requires 0.0 <= x && 0.0 <= s <= 1.0
    ensures x * s <= x
  {
    var d := 1.0 - s;
    assert x * d >= 0.0;
    assert x * s + x * d == x;
  }

  /** A factor in [0, 1] does not shrink a non-positive value. */
  lemma ShrinkNonPositive(x: real, s: real)
    requires x <= 0.0 && 0.0 <= s <= 1.0
    ensures x <= x * s
  {
    var d := 1.0 - s;
    assert x * d <= 0.0;
    assert x * s + x * d == x;
  }

  /** Scaling by a factor in [0, 1] keeps a value below a non-negative bound it was below. */
  lemma ScaleBelow(u: real, s: real, hi: real)
    requires 0.0 <= hi && u <= hi && 0.0 <= s <= 1.0
    ensures u * s <= hi
  {
    MulMonotone(u, hi, s);
    ShrinkNonNegative(hi, s);
  }

  /** Scaling by a factor in [0, 1] keeps a value above a non-positive bound it was above. */
  lemma ScaleAbove(u: real, s: real, lo: real)
    requires lo <= 0.0 && lo <= u && 0.0 <= s <= 1.0
    ensures lo <= u * s
  {
    MulMonotone(lo, u, s);
    ShrinkNonPositive(lo, s);
  }

  /** A non-negative value divided by a positive one is non-negative. */
  lemma QuotientNonNegative(a: real, b: real)
    requires 0.0 <= a && 0.0 < b
    ensures 0.0 <= a / b
  {
    var q := a / b;
    assert q * b == a;
    if q < 0.0 {
      MulStrictMonotone(q, 0.0, b);
    }
  }

  /** Dividing by a positive value preserves order. */
  lemma QuotientMonotone(a1: real, a2: real, b: real)
    requires a1 <= a2 && 0.0 < b
    ensures a1 / b <= a2 / b
  {
    var q1, q2 := a1 / b, a2 / b;
    assert q1 * b == a1;
    assert q2 * b == a2;
    if q2 < q1 {
      MulStrictMonotone(q2, q1, b);
    }
  }

  /** A value at least as large as a positive divisor has a quotient of at least 1. */
  lemma QuotientAtLeastOne(a: real, b: real)
    requires 0.0 < b <= a
    ensures 1.0 <= a / b
  {
    var q := a / b;
    assert q * b == a;
    if q < 1.0 {
      MulStrictMonotone(q, 1.0, b);
    }
  }

  /** A value below a positive divisor has a quotient below 1. */
  lemma QuotientBelowOne(a: real, b: real)
    requires a < b && 0.0 < b
    ensures a / b < 1.0
  {
    var q := a / b;
    assert q * b == a;
    if 1.0 <= q {
      MulMonotone(1.0, q, b);
    }
  }
}

/** Rounding to 64-bit floating point: 53 significant bits, halves to even. Infinities
    and subnormal numbers do not occur where it is used. */
module Float64 {

  const MANTISSA := 4503599627370496.0
  const TWICE := 9007199254740992.0

  /** The relative error of one rounding. */
  const UNIT := 1.0 / 9007199254740992.0

  function NearestEven(x: real): int {
    var f := x.Floor;
    var rest := x - f as real;
    if rest < 0.5 || (rest == 0.5 && f % 2 == 0) then f else f + 1
  }

  lemma NearestIsClose(x: real)
    ensures x - 0.5 <= NearestEven(x) as real <= x + 0.5
  {
  }

  lemma HalvingHelps(x: real)
    requires 0.0 < x < MANTISSA
    ensures TWICE / (2.0 * x) <= TWICE / x - 1.0 && TWICE / x > 0.0
  {
    var y := TWICE / x;
    assert y * x == TWICE;
    if y <= 2.0 {
      Product(y, 2.0, x);
    }
    Cancel(TWICE, x);
  }

  lemma Product(a: real, b: real, x: real)
    requires a <= b && x > 0.0
    ensures a * x <= b * x
  {
  }

  lemma Cancel(a: real, x: real)
    requires x > 0.0
    ensures a / (2.0 * x) == a / x / 2.0
  {
    var q := a / x;
    assert q * x == a;
    assert q / 2.0 * (2.0 * x) == a;
  }

  /** The floating-point number nearest to x. */
  function Round(x: real): (r: real)
    requires x > 0.0
    decreases if x >= TWICE then x else TWICE / x
  {
    if x >= TWICE then
      2.0 * Round(x / 2.0)
    else if x < MANTISSA then
      HalvingHelps(x);
      Round(2.0 * x) / 2.0
    else NearestEven(x) as real
  }

  /** Rounding keeps 53 bits. */
  lemma {:induction false} RoundIsClose(x: real)
    requires x > 0.0
    ensures 0.0 < x - x * UNIT <= Round(x) <= x + x * UNIT
    decreases if x >= TWICE then x else TWICE / x
  {
    if x >= TWICE {
      RoundIsClose(x / 2.0);
    } else if x < MANTISSA {
      HalvingHelps(x);
      RoundIsClose(2.0 * x);
    } else {
      NearestIsClose(x);
    }
  }

  function PowerOfTwo(k: nat): (p: real)
    ensures p >= 1.0
  {
    if k == 0 then 1.0 else 2.0 * PowerOfTwo(k - 1)
  }

  /** Rounding by the exponent: x has k fractional bits, and p is the kth power of two. */
  lemma {:induction false} RoundScaled(x: real, k: nat, p: real, m: real)
    requires x > 0.0 && p == PowerOfTwo(k) && m == x * p && MANTISSA <= m < TWICE
    ensures Round(x) == NearestEven(m) as real / p
    decreases k
  {
    if k > 0 {
      var half := PowerOfTwo(k - 1);
      Halved(x, half, p, m, NearestEven(m) as real);
      RoundScaled(2.0 * x, k - 1, half, m);
      RoundBelow(x);
    } else {
      RoundWhole(x);
    }
  }

  lemma RoundWhole(x: real)
    requires MANTISSA <= x < TWICE
    ensures Round(x) == NearestEven(x) as real
  {
  }

  lemma RoundBelow(x: real)
    requires 0.0 < x < MANTISSA
    ensures Round(x) == Round(2.0 * x) / 2.0
  {
  }

  lemma Halved(x: real, half: real, p: real, m: real, a: real)
    requires x > 0.0 && half >= 1.0 && p == 2.0 * half && m == x * p < TWICE
    ensures m == 2.0 * x * half && x < MANTISSA && a / p == a / half / 2.0
  {
    Doubled(x, half);
    Below(x, half);
    Cancel(a, half);
  }

  lemma Doubled(x: real, p: real)
    ensures x * (2.0 * p) == 2.0 * x * p
  {
  }

  lemma Below(x: real, p: real)
    requires x > 0.0 && p >= 1.0 && 2.0 * x * p < TWICE
    ensures x < MANTISSA
  {
    Product(1.0, p, x);
    assert 2.0 * x * p == 2.0 * (p * x);
  }

  /** A number with at most 53 significant bits is not changed. */
  lemma RoundExact(x: real, k: nat, p: real, m: int)
    requires x > 0.0 && p == PowerOfTwo(k) && m as real == x * p && MANTISSA <= m as real < TWICE
    ensures Round(x) == x
  {
    RoundScaled(x, k, p, m as real);
    WholeIsNearest(m);
    Undo(x, p, m as real);
  }

  /** The number has at most 53 significant bits. */
  ghost predicate Fits(x: real) { exists k: nat, m: int :: FitsAt(x, k, m) }

  predicate FitsAt(x: real, k: nat, m: int) { m as real == x * PowerOfTwo(k) && MANTISSA <= m as real < TWICE }

  lemma FittingIsKept(x: real)
    requires x > 0.0 && Fits(x)
    ensures Round(x) == x
  {
    var k: nat, m: int :| FitsAt(x, k, m);
    RoundExact(x, k, PowerOfTwo(k), m);
  }

  /** Whole numbers below two to the 53rd fit. */
  lemma WholeFits(n: int)
    requires 0 < n && n as real < TWICE
    ensures Fits(n as real)
  {
    var k, m := Doubling(n, n, 0);
    assert FitsAt(n as real, k, m);
  }

  lemma {:induction false} Doubling(n: int, m: int, k: nat) returns (k': nat, m': int)
    requires 0 < m && m as real < TWICE && m as real == n as real * PowerOfTwo(k)
    ensures FitsAt(n as real, k', m')
    decreases 9007199254740992 - m
  {
    if m as real >= MANTISSA {
      k', m' := k, m;
    } else {
      TwiceTheProduct(n as real, m as real, PowerOfTwo(k));
      k', m' := Doubling(n, 2 * m, k + 1);
    }
  }

  lemma TwiceTheProduct(x: real, m: real, p: real)
    requires m == x * p
    ensures 2.0 * m == x * (2.0 * p)
  {
  }

  lemma WholeIsNearest(m: int)
    ensures NearestEven(m as real) == m
  {
  }

  lemma Undo(x: real, p: real, m: real)
    requires p > 0.0 && m == x * p
    ensures m / p == x
  {
  }

  lemma {:induction false} PowersMultiply(a: nat, b: nat)
    ensures PowerOfTwo(a + b) == PowerOfTwo(a) * PowerOfTwo(b)
  {
    if b > 0 {
      PowersMultiply(a, b - 1);
      assert PowerOfTwo(a) * (2.0 * PowerOfTwo(b - 1)) == 2.0 * (PowerOfTwo(a) * PowerOfTwo(b - 1));
    }
  }

  lemma PowerProduct(a: nat, b: nat, x: real, y: real)
    requires PowerOfTwo(a) == x && PowerOfTwo(b) == y
    ensures PowerOfTwo(a + b) == x * y
  {
    PowersMultiply(a, b);
  }

  lemma TwentyBits()
    ensures PowerOfTwo(3) == 8.0 && PowerOfTwo(20) == 1048576.0
  {
    assert PowerOfTwo(2) == 4.0;
    PowerProduct(2, 3, 4.0, 8.0);
    PowerProduct(5, 5, 32.0, 32.0);
    PowerProduct(10, 10, 1024.0, 1024.0);
  }

  lemma SomePowers()
    ensures PowerOfTwo(23) == 8388608.0 && PowerOfTwo(51) == 2251799813685248.0 && PowerOfTwo(52) == MANTISSA
  {
    TwentyBits();
    PowerProduct(20, 3, 1048576.0, 8.0);
    PowerProduct(23, 23, 8388608.0, 8388608.0);
    PowerProduct(46, 3, 70368744177664.0, 8.0);
    PowerProduct(49, 3, 562949953421312.0, 8.0);
    assert PowerOfTwo(52) == 2.0 * PowerOfTwo(51);
  }
}

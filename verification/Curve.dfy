/**
 The inflation curve in the figures it is called with. Up to the ideal stake it
 rises in a straight line; beyond, it is one over the exponential series at
 (stake - ideal) * ln 2 / falloff, and so halves with every falloff.
 */
module Curve {
  import opened Division
  import opened PerThing
  import opened Taylor
  import opened TaylorError
  import opened Exponential
  import opened Reciprocal
  import opened Inflation

  /** The argument of the exponential, exactly, to the 18 digits of ln 2 in the program. */
  ghost function Argument(stake: nat, idealStake: nat, falloff: nat): real
    requires idealStake <= stake && 0 < falloff
  {
    (stake - idealStake) as real * 0.693_147_180_559_945_309 / falloff as real
  }

  // ---- The rising and the unsupported branch -----------------------------

  /** Up to the ideal stake: the ratio of the two, truncated. */
  lemma RisesInALine(m: nat, stake: nat, idealStake: nat, falloff: nat)
    requires 100 <= m && stake <= idealStake && 0 < idealStake <= m
    ensures var c := ComputeInflation(m, stake, idealStake, falloff);
      idealStake * c <= m * stake < idealStake * c + idealStake
  {
    FromRationalNear(m, stake, idealStake);
  }

  /** Above it, a falloff of less than one percent is answered with zero. */
  lemma UnsupportedFalloff(m: nat, stake: nat, idealStake: nat, falloff: nat)
    requires 100 <= m && idealStake < stake && 100 * falloff + 100 <= m
    ensures ComputeInflation(m, stake, idealStake, falloff) == 0
  {
    hide SeriesPart;
    FromRationalSmall(m, 1, 100);
    Bounds(m, 100);
  }

  // ---- Truncating the argument -------------------------------------------

  /** The coefficient of the excess that the program computes, truncated twice. */
  lemma Coefficient(falloff: nat, q: nat)
    requires 0 < falloff && q == Quotient(693_147_180 * PERBILL, falloff)
    ensures falloff as real * q as real <= 693_147_180_000_000_000.0
    ensures 693_147_180_000_000_000.0 <= falloff as real * q as real + falloff as real
  {
    Bounds(693_147_180 * PERBILL, falloff);
    CastProduct(falloff, q);
  }

  /** With `e` the excess, `d` the falloff and `q` that coefficient: how far the argument falls short. */
  lemma ShortArgument(e: real, d: real, q: real, z: real, exact: real)
    requires 0.0 <= e <= 1_000_000_000.0 && 0.0 < d
    requires d * q <= 693_147_180_000_000_000.0 <= d * q + d
    requires z * 1_000_000_000_000_000_000.0 == e * q
    requires exact * d == e * 0.693_147_180_559_945_309
    ensures 0.0 <= exact - z <= 0.000_000_000_81 * exact + 0.000_000_001
  {
    var top, w, t := 693_147_180_000_000_000.0, d * q, z * d;
    assert e * w <= e * top && e * top <= e * w + e * d by {
      RealScale2(w, top, e);
      RealScale2(top, w + d, e);
      assert e * (w + d) == e * w + e * d;
    }
    assert t * 1_000_000_000_000_000_000.0 == e * w by {
      Assoc(e, q, d);
      assert z * 1_000_000_000_000_000_000.0 * d == t * 1_000_000_000_000_000_000.0;
      assert q * d == w;
    }
    assert e * d <= 1_000_000_000.0 * d by { RealScale2(e, 1_000_000_000.0, d); }
    ShortBy(exact, z, d, e, e * d, exact * d - t);
  }

  lemma ShortBy(exact: real, z: real, d: real, e: real, ed: real, gap: real)
    requires 0.0 < d && 0.0 <= e && gap == exact * d - z * d && exact * d == e * 0.693_147_180_559_945_309
    requires ed <= 1_000_000_000.0 * d
    requires 0.0 <= gap <= e * 0.000_000_000_559_945_309 + ed / 1_000_000_000_000_000_000.0
    ensures 0.0 <= exact - z <= 0.000_000_000_81 * exact + 0.000_000_001
  {
    var short := exact - z;
    var over := 0.000_000_000_81 * exact + 0.000_000_001 - short;
    assert short * d == gap;
    assert over * d == 0.000_000_000_81 * (exact * d) + 0.000_000_001 * d - gap;
    if short < 0.0 { PositiveTimes(-short, d); }
    if over < 0.0 { PositiveTimes(-over, d); }
  }

  lemma RealScale2(a: real, b: real, c: real)
    requires a <= b && 0.0 <= c
    ensures a * c <= b * c && c * a <= c * b
  {
    RealScale(0.0, b - a, c);
  }

  lemma ExactTimes(stake: nat, idealStake: nat, falloff: nat)
    requires idealStake <= stake && 0 < falloff
    ensures Argument(stake, idealStake, falloff) * falloff as real
         == (stake - idealStake) as real * 0.693_147_180_559_945_309
    ensures 0.0 <= Argument(stake, idealStake, falloff)
  {
    var n, d := (stake - idealStake) as real * 0.693_147_180_559_945_309, falloff as real;
    assert Argument(stake, idealStake, falloff) == n / d;
    NonnegativeQuotient(n, d);
  }

  /** The argument the program uses falls short of the exact one by about one part in 10^9. */
  lemma ArgumentNear(stake: nat, idealStake: nat, falloff: nat)
    requires idealStake < stake <= PERBILL && 0 < falloff
    ensures var z, exact := Z(SeriesParam(PERBILL, stake, idealStake, falloff)), Argument(stake, idealStake, falloff);
      0.0 <= exact - z <= 0.000_000_000_81 * exact + 0.000_000_001
  {
    hide FromRational;
    PerbillConstants();
    var p := SeriesParam(PERBILL, stake, idealStake, falloff);
    var e, q := stake - idealStake, p.ln2DivD;
    Coefficient(falloff, q);
    CastProduct(e, q);
    assert Z(p) == (e * q) as real / 1_000_000_000_000_000_000.0;
    ExactTimes(stake, idealStake, falloff);
    ShortArgument(e as real, falloff as real, q as real, Z(p), Argument(stake, idealStake, falloff));
  }

  // ---- Moving the argument -----------------------------------------------

  lemma {:induction false} SmallSum(n: nat, h: real)
    requires 0.0 <= h <= 1.0
    ensures 1 <= n ==> Sum(n, h) + Power(n, h) <= 1.0 + 2.0 * h
    ensures Sum(n, h) <= 1.0 + 2.0 * h
  {
    PowerNonnegative(n, h);
    if n == 1 {
      assert Power(0, h) == 1.0 && Sum(0, h) == 1.0;
      assert Power(1, h) == h;
    } else if n > 1 {
      SmallSum(n - 1, h);
      PowerNonnegative(n - 1, h);
      HalvesAtLeast(Power(n - 1, h), h, n);
    }
  }

  lemma ScaledMono(a: real, b: real, y: real, z: real, k: nat)
    requires 0.0 <= a <= b && 0.0 <= y <= z && 0 < k
    ensures TaylorError.Scaled(a, y, k) <= TaylorError.Scaled(b, z, k)
  {
    RealScale(a, b, y);
    RealScale(y, z, b);
    assert b * y == y * b && b * z == z * b;
    NonnegativeQuotient(b * z - a * y, k as real);
  }

  lemma {:induction false} SumMonotone(n: nat, y: real, z: real)
    requires 0.0 <= y <= z
    ensures Power(n, y) <= Power(n, z) && Sum(n, y) <= Sum(n, z)
  {
    if n > 0 {
      SumMonotone(n - 1, y, z);
      PowerNonnegative(n - 1, y);
      ScaledMono(Power(n - 1, y), Power(n - 1, z), y, z, n);
    }
  }

  lemma NotNegative(a: real, b: real, x: real)
    requires 0.0 < a && 0.0 < b && 0.0 <= a * (b * x)
    ensures 0.0 <= x
  {
    if x < 0.0 {
      Negated(a, b, x);
      PositiveTimes(b, -x);
      PositiveTimes(a, b * -x);
    }
  }

  lemma Negated(a: real, b: real, x: real)
    ensures a * (b * -x) == -(a * (b * x))
  {
    assert b * -x == -(b * x);
  }

  /** Two numbers a factor of `1 + 2h` apart have inverses close to each other. */
  lemma InversesClose(a: real, b: real, h: real, e: real)
    requires 1.0 <= a <= b <= a * (1.0 + 2.0 * h) && 0.0 <= h
    requires h <= e * a
    ensures 0.0 <= 1.0 / a - 1.0 / b <= 2.0 * e
  {
    var x, y := 1.0 / a, 1.0 / b;
    assert a * x == 1.0 && b * y == 1.0;
    var d := x - y;
    assert a * (b * d) == b - a by {
      assert b * d == b * x - b * y;
      assert a * (b * d) == a * (b * x) - a;
      assert a * (b * x) == b * (a * x);
    }
    assert b - a <= 2.0 * (h * a);
    assert h * a <= (e * a) * a by { RealScale2(h, e * a, a); }
    assert 0.0 <= e by { if e < 0.0 { PositiveTimes(-e, a); } }
    assert (e * a) * a <= (e * a) * b by { RealScale2(a, b, e * a) by { RealScale(0.0, e, a); } }
    var f := 2.0 * e - d;
    assert a * (b * f) == 2.0 * ((e * a) * b) - a * (b * d) by {
      assert b * f == 2.0 * (b * e) - b * d;
      assert a * (b * f) == 2.0 * (a * (b * e)) - a * (b * d);
      assert a * (b * e) == (e * a) * b;
    }
    NotNegative(a, b, f);
    NotNegative(a, b, d);
  }

  lemma InverseMoves(z: real, exact: real)
    requires 0.0 <= z && 0.0 <= exact - z <= 0.000_000_000_81 * exact + 0.000_000_001 && exact <= 70.0
    ensures 1.0 <= Sum(598, z) <= Sum(598, exact)
    ensures 0.0 <= 1.0 / Sum(598, z) - 1.0 / Sum(598, exact) <= 0.000_000_002_5
  {
    hide Sum;
    var h := exact - z;
    var a, b := Sum(598, z), Sum(598, exact);
    SumAtLeastLinear(598, z);
    SumMonotone(598, z, exact);
    SmallSum(598, h);
    SumOfSums(598, z, h);
    assert z + h == exact && b <= Product(Sum(598, h), a);
    SumAtLeastLinear(598, h);
    ProductMono(Sum(598, h), 1.0 + 2.0 * h, a);
    assert b <= a * (1.0 + 2.0 * h);
    assert h <= 0.000_000_001_25 * a;
    InversesClose(a, b, h, 0.000_000_001_25);
  }

  lemma InUnits(r: real, s: real, c: real)
    requires Abs(c - 1_000_000_000.0 * r) <= 151.0 && 0.0 <= r - s <= 0.000_000_002_5
    ensures Abs(c - 1_000_000_000.0 * s) <= 154.0
  {
  }

  lemma ArgumentBounded(stake: nat, idealStake: nat, falloff: nat)
    requires idealStake <= stake <= PERBILL && 10_000_000 <= falloff
    ensures 0.0 <= Argument(stake, idealStake, falloff) <= 69.5
  {
    var n, d := (stake - idealStake) as real * 0.693_147_180_559_945_309, falloff as real;
    ExactTimes(stake, idealStake, falloff);
    QuotientBelow(n, d, 69.5);
  }

  /**
   For Perbill, every supported falloff, every ideal stake and every stake above
   it: the curve is one over the exponential series at the exact argument, within
   154 of 10^9 units.
   */
  lemma FallsExponentially(stake: nat, idealStake: nat, falloff: nat)
    requires idealStake < stake <= PERBILL && 10_000_000 <= falloff
    ensures var z := (stake - idealStake) as real * 0.693_147_180_559_945_309 / falloff as real;
      1.0 <= Sum(598, z)
      && Abs(ComputeInflation(PERBILL, stake, idealStake, falloff) as real
             - 1_000_000_000.0 * (1.0 / Sum(598, z))) <= 154.0
  {
    hide ComputeInflation, Sum, Z, SeriesParam;
    PerbillConstants();
    var c := ComputeInflation(PERBILL, stake, idealStake, falloff) as real;
    var z, exact := Z(SeriesParam(PERBILL, stake, idealStake, falloff)), Argument(stake, idealStake, falloff);
    PerbillCurve(stake, idealStake, falloff);
    ArgumentNear(stake, idealStake, falloff);
    ArgumentBounded(stake, idealStake, falloff);
    ArgumentNonnegative(SeriesParam(PERBILL, stake, idealStake, falloff));
    InverseMoves(z, exact);
    BillionOver(Sum(598, z));
    InUnits(1.0 / Sum(598, z), 1.0 / Sum(598, exact), c);
  }

  lemma BillionOver(a: real)
    requires 1.0 <= a
    ensures 1_000_000_000.0 / a == 1_000_000_000.0 * (1.0 / a)
  {
  }

  // ---- Halving -----------------------------------------------------------

  /** ln 2 to 18 digits. */
  const LN_2: real := 0.693_147_180_559_945_309

  lemma NextWithin(k: nat, low: real, high: real, low': real, high': real)
    requires 0 < k && 0.0 <= low <= Power(k - 1, LN_2) <= high
    requires low' * k as real <= low * LN_2 && high * LN_2 <= high' * k as real
    ensures low' <= Power(k, LN_2) <= high'
  {
    var a, c := Power(k - 1, LN_2), k as real;
    var x := a * LN_2 / c;
    assert Power(k, LN_2) == x && x * c == a * LN_2;
    if x < low' { PositiveTimes(low' - x, c); }
    if x > high' { PositiveTimes(x - high', c); }
  }

  lemma FirstPowers()
    ensures Power(0, LN_2) == 1.0 && Power(1, LN_2) == LN_2
    ensures 0.240_226_506_959_1 <= Power(2, LN_2) <= 0.240_226_506_959_2
  {
    assert Power(1, LN_2) == 1.0 * LN_2 / 1.0;
    assert Power(2, LN_2) == LN_2 * LN_2 / 2.0;
  }

  lemma EarlyPowers()
    ensures 0.055_504_108_664_8 <= Power(3, LN_2) <= 0.055_504_108_664_9
    ensures 0.009_618_129_107_6 <= Power(4, LN_2) <= 0.009_618_129_107_7
    ensures 0.001_333_355_814_6 <= Power(5, LN_2) <= 0.001_333_355_814_7
    ensures 0.000_154_035_303_9 <= Power(6, LN_2) <= 0.000_154_035_304_0
    ensures 0.000_015_252_733_8 <= Power(7, LN_2) <= 0.000_015_252_733_9
  {
    hide Power;
    FirstPowers();
    NextWithin(3, 0.240_226_506_959_1, 0.240_226_506_959_2, 0.055_504_108_664_8, 0.055_504_108_664_9);
    NextWithin(4, 0.055_504_108_664_8, 0.055_504_108_664_9, 0.009_618_129_107_6, 0.009_618_129_107_7);
    NextWithin(5, 0.009_618_129_107_6, 0.009_618_129_107_7, 0.001_333_355_814_6, 0.001_333_355_814_7);
    NextWithin(6, 0.001_333_355_814_6, 0.001_333_355_814_7, 0.000_154_035_303_9, 0.000_154_035_304_0);
    NextWithin(7, 0.000_154_035_303_9, 0.000_154_035_304_0, 0.000_015_252_733_8, 0.000_015_252_733_9);
  }

  lemma LatePowers()
    ensures 0.000_001_321_548_6 <= Power(8, LN_2) <= 0.000_001_321_548_7
    ensures 0.000_000_101_780_8 <= Power(9, LN_2) <= 0.000_000_101_780_9
    ensures 0.000_000_007_054_9 <= Power(10, LN_2) <= 0.000_000_007_055_0
    ensures 0.000_000_000_444_5 <= Power(11, LN_2) <= 0.000_000_000_444_6
    ensures 0.000_000_000_025_6 <= Power(12, LN_2) <= 0.000_000_000_025_7
    ensures 0.000_000_000_001_3 <= Power(13, LN_2) <= 0.000_000_000_001_4
  {
    hide Power;
    EarlyPowers();
    NextWithin(8, 0.000_015_252_733_8, 0.000_015_252_733_9, 0.000_001_321_548_6, 0.000_001_321_548_7);
    NextWithin(9, 0.000_001_321_548_6, 0.000_001_321_548_7, 0.000_000_101_780_8, 0.000_000_101_780_9);
    NextWithin(10, 0.000_000_101_780_8, 0.000_000_101_780_9, 0.000_000_007_054_9, 0.000_000_007_055_0);
    NextWithin(11, 0.000_000_007_054_9, 0.000_000_007_055_0, 0.000_000_000_444_5, 0.000_000_000_444_6);
    NextWithin(12, 0.000_000_000_444_5, 0.000_000_000_444_6, 0.000_000_000_025_6, 0.000_000_000_025_7);
    NextWithin(13, 0.000_000_000_025_6, 0.000_000_000_025_7, 0.000_000_000_001_3, 0.000_000_000_001_4);
  }

  lemma {:induction false} SumFalls(n: nat, z: real)
    requires 0.0 <= z <= 1.0 && 13 <= n
    ensures Sum(13, z) <= Sum(n, z) && Sum(n, z) + Power(n, z) <= Sum(13, z) + Power(13, z)
  {
    if n > 13 {
      SumFalls(n - 1, z);
      PowerNonnegative(n - 1, z);
      PowerNonnegative(n, z);
      HalvesAtLeast(Power(n - 1, z), z, n);
    }
  }

  lemma SumUnfold(z: real)
    ensures Sum(13, z)
         == Power(0, z) + Power(1, z) + Power(2, z) + Power(3, z) + Power(4, z) + Power(5, z) + Power(6, z)
          + Power(7, z) + Power(8, z) + Power(9, z) + Power(10, z) + Power(11, z) + Power(12, z) + Power(13, z)
  {
    hide Power;
    assert Sum(1, z) == Power(0, z) + Power(1, z);
    assert Sum(2, z) == Sum(1, z) + Power(2, z);
    assert Sum(4, z) == Sum(2, z) + Power(3, z) + Power(4, z);
    assert Sum(6, z) == Sum(4, z) + Power(5, z) + Power(6, z);
    assert Sum(8, z) == Sum(6, z) + Power(7, z) + Power(8, z);
    assert Sum(10, z) == Sum(8, z) + Power(9, z) + Power(10, z);
    assert Sum(12, z) == Sum(10, z) + Power(11, z) + Power(12, z);
  }

  /** The series at ln 2 is two. */
  lemma SumIsTwo(n: nat)
    requires 13 <= n
    ensures Abs(Sum(n, LN_2) - 2.0) <= 0.000_000_000_01
  {
    hide Power, Sum;
    FirstPowers();
    EarlyPowers();
    LatePowers();
    SumUnfold(LN_2);
    SumFalls(n, LN_2);
    PowerNonnegative(n, LN_2);
  }

  // ---- One falloff further -----------------------------------------------

  lemma {:induction false} ConvolutionGrows(j: nat, n: nat, x: real, y: real)
    requires 0.0 <= x && 0.0 <= y && j <= n
    ensures 0.0 <= Convolution(j, n, x, y)
    ensures forall i :: 0 <= i <= j ==> Convolution(i, n, x, y) <= Convolution(j, n, x, y)
  {
    PowerNonnegative(j, x);
    SumGrows(n - j, n - j, y);
    ProductMono(0.0, Power(j, x), Sum(n - j, y));
    hide Product, Power;
    assert Product(0.0, Sum(n - j, y)) == 0.0 by { ProductSwap(0.0, Sum(n - j, y)); ProductOfZero(Sum(n - j, y)); }
    if j > 0 {
      ConvolutionGrows(j - 1, n, x, y);
    }
  }

  lemma {:induction false} ConvolutionAbove(j: nat, k: nat, n: nat, x: real, y: real)
    requires 0.0 <= x && 0.0 <= y && j <= k <= n
    ensures Product(Sum(n - k, y), Sum(j, x)) <= Convolution(j, n, x, y)
  {
    var s, a := Sum(n - k, y), Power(j, x);
    SumGrows(n - k, n - j, y);
    PowerNonnegative(j, x);
    ProductMono(s, Sum(n - j, y), a);
    ProductSwap(Sum(n - j, y), a);
    if j > 0 {
      hide Product, Power;
      ConvolutionAbove(j - 1, k, n, x, y);
      ProductSum(s, Sum(j - 1, x), a);
    }
  }

  /** The sum at x + y is at least the product of shorter sums at x and y. */
  lemma SumAtLeastProduct(k: nat, n: nat, x: real, y: real)
    requires 0.0 <= x && 0.0 <= y && k <= n
    ensures Product(Sum(n - k, y), Sum(k, x)) <= Sum(n, x + y)
  {
    hide Product, Sum, Convolution;
    ConvolutionIsSum(n, x, y);
    ConvolutionAbove(k, k, n, x, y);
    ConvolutionGrows(n, n, x, y);
  }

  /** Beyond its 299th term the sum hardly grows. */
  lemma ShortSum(z: real)
    requires 0.0 <= z <= 70.0
    ensures Sum(598, z) - 0.000_000_000_005 <= Sum(299, z) <= Sum(598, z)
  {
    hide Sum, Power, Product, RealPower;
    SumGrows(299, 598, z);
    TailDecays(299, 598, z, 70);
    PowerAtLeastOne(3.0, 70);
    TinyProduct(Sum(598, z) - Sum(299, z), 1.0);
    ProductOfOne(Sum(598, z) - Sum(299, z));
  }

  /** Adding ln 2 to the argument doubles the sum. */
  lemma SumDoubles(z: real)
    requires 0.0 <= z && z + LN_2 <= 70.0
    ensures 1.0 <= Sum(598, z)
    ensures Abs(Sum(598, z + LN_2) - 2.0 * Sum(598, z)) <= 0.000_000_000_1 * Sum(598, z)
  {
    hide Sum;
    var a, b := Sum(598, z), Sum(598, z + LN_2);
    var two, short := Sum(598, LN_2), Sum(299, LN_2);
    SumAtLeastLinear(598, z);
    SumOfSums(598, z, LN_2);
    SumAtLeastProduct(299, 598, z, LN_2);
    SumIsTwo(598);
    SumIsTwo(299);
    ShortSum(z);
    ProductMono(two, 2.000_000_000_01, a);
    ProductMono(1.999_999_999_99, short, Sum(299, z)) by { SumGrows(299, 299, z); }
  }

  lemma HalfInverse(a: real, b: real)
    requires 1.0 <= a && Abs(b - 2.0 * a) <= 0.000_000_000_1 * a
    ensures 1.0 <= b && Abs(2.0 * (1.0 / b) - 1.0 / a) <= 0.000_000_000_1
  {
    var x, y := 1.0 / a, 1.0 / b;
    assert a * x == 1.0 && b * y == 1.0;
    var d, e := 2.0 * y - x, 0.000_000_000_1;
    Expanded(a, b, x, y);
    var w, ab := a * (b * d), a * b;
    assert w == 2.0 * a - b && Abs(w) <= e * a;
    assert a <= ab by { RealScale2(1.0, b, a); }
    Shifted(a, b, d, e);
    NotNegative(a, b, e - d);
    NotNegative(a, b, e + d);
  }

  lemma Shifted(a: real, b: real, d: real, e: real)
    ensures a * (b * (e - d)) == e * (a * b) - a * (b * d)
    ensures a * (b * (e + d)) == e * (a * b) + a * (b * d)
  {
    assert b * (e - d) == b * e - b * d && b * (e + d) == b * e + b * d;
    assert a * (b * e) == e * (a * b);
  }

  lemma Expanded(a: real, b: real, x: real, y: real)
    requires a * x == 1.0 && b * y == 1.0
    ensures a * (b * (2.0 * y - x)) == 2.0 * a - b
  {
    assert b * (2.0 * y - x) == 2.0 - b * x;
    assert a * (2.0 - b * x) == 2.0 * a - a * (b * x);
    assert a * (b * x) == b * (a * x);
  }

  lemma QuotientIs(n: real, d: real, q: real)
    requires 0.0 < d && q * d == n
    ensures n / d == q
  {
    var v := n / d;
    assert v * d == n;
    ProductSwap(v, d);
    ProductSwap(q, d);
    CancelFactor(d, v, q);
  }

  lemma OneFalloffMore(stake: nat, idealStake: nat, falloff: nat)
    requires idealStake <= stake && 0 < falloff
    ensures Argument(stake + falloff, idealStake, falloff) == Argument(stake, idealStake, falloff) + LN_2
  {
    var d, e := falloff as real, (stake - idealStake) as real;
    var z := Argument(stake, idealStake, falloff);
    ExactTimes(stake, idealStake, falloff);
    assert (stake + falloff - idealStake) as real == e + d;
    var n := (e + d) * LN_2;
    assert (z + LN_2) * d == n by {
      assert (z + LN_2) * d == z * d + LN_2 * d;
      assert n == e * LN_2 + d * LN_2;
    }
    QuotientIs(n, d, z + LN_2);
  }

  /** The exact curve, at the ideal stake and above. */
  ghost function Exact(stake: nat, idealStake: nat, falloff: nat): real
    requires idealStake <= stake && 0 < falloff
  {
    var a := Sum(598, Argument(stake, idealStake, falloff));
    if a == 0.0 then 0.0 else 1.0 / a
  }

  lemma CurveIsExact(stake: nat, idealStake: nat, falloff: nat)
    requires 0 < idealStake <= stake <= PERBILL && 10_000_000 <= falloff
    ensures Abs(ComputeInflation(PERBILL, stake, idealStake, falloff) as real
                - 1_000_000_000.0 * Exact(stake, idealStake, falloff)) <= 154.0
  {
    hide ComputeInflation, Sum;
    if stake == idealStake {
      InflationAtIdeal(PERBILL, idealStake, falloff);
      assert Argument(stake, idealStake, falloff) == 0.0 by { ZeroOver(falloff as real); }
      SumAtZero(598);
    } else {
      FallsExponentially(stake, idealStake, falloff);
    }
  }

  lemma ZeroOver(d: real)
    requires d != 0.0
    ensures 0.0 * LN_2 / d == 0.0
  {
  }

  lemma ExactHalves(stake: nat, idealStake: nat, falloff: nat)
    requires idealStake <= stake && stake + falloff <= PERBILL && 10_000_000 <= falloff
    ensures Abs(2.0 * Exact(stake + falloff, idealStake, falloff)
                - Exact(stake, idealStake, falloff)) <= 0.000_000_000_1
  {
    hide Sum;
    var z := Argument(stake, idealStake, falloff);
    OneFalloffMore(stake, idealStake, falloff);
    ArgumentBounded(stake, idealStake, falloff);
    ArgumentBounded(stake + falloff, idealStake, falloff);
    SumDoubles(z);
    HalfInverse(Sum(598, z), Sum(598, z + LN_2));
  }

  /**
   For Perbill, at any positive ideal stake and from there on: one falloff further
   the curve is half of what it was, within 463 of 10^9 units.
   */
  lemma HalvesEveryFalloff(stake: nat, idealStake: nat, falloff: nat)
    requires 0 < idealStake <= stake && stake + falloff <= PERBILL && 10_000_000 <= falloff
    ensures Abs(2.0 * ComputeInflation(PERBILL, stake + falloff, idealStake, falloff) as real
                - ComputeInflation(PERBILL, stake, idealStake, falloff) as real) <= 463.0
  {
    hide ComputeInflation, Exact;
    CurveIsExact(stake, idealStake, falloff);
    CurveIsExact(stake + falloff, idealStake, falloff);
    ExactHalves(stake, idealStake, falloff);
  }

  lemma PowerOfTwoStep(k: nat)
    ensures 1.0 / Pow2(k + 1) as real == (1.0 / Pow2(k) as real) / 2.0
  {
    var p := Pow2(k) as real;
    assert Pow2(k + 1) as real == 2.0 * p;
    assert 1.0 / (2.0 * p) == (1.0 / p) / 2.0;
  }

  lemma {:induction false} ExactPowers(k: nat, idealStake: nat, falloff: nat)
    requires idealStake + k * falloff <= PERBILL && 10_000_000 <= falloff
    ensures Abs(Exact(idealStake + k * falloff, idealStake, falloff) - 1.0 / Pow2(k) as real) <= 0.000_000_000_1
  {
    if k == 0 {
      hide Sum;
      assert Argument(idealStake, idealStake, falloff) == 0.0 by { ZeroOver(falloff as real); }
      SumAtZero(598);
    } else {
      hide Exact, Pow2;
      assert k * falloff == (k - 1) * falloff + falloff;
      ExactPowers(k - 1, idealStake, falloff);
      ExactHalves(idealStake + (k - 1) * falloff, idealStake, falloff);
      PowerOfTwoStep(k - 1);
    }
  }

  /** So `k` falloffs above the ideal stake the curve is 2^-k, within 155 of 10^9 units. */
  lemma PowersOfTwo(k: nat, idealStake: nat, falloff: nat)
    requires 0 < idealStake && idealStake + k * falloff <= PERBILL && 10_000_000 <= falloff
    ensures Abs(ComputeInflation(PERBILL, idealStake + k * falloff, idealStake, falloff) as real
                - 1_000_000_000.0 * (1.0 / Pow2(k) as real)) <= 155.0
  {
    hide ComputeInflation, Exact, Pow2;
    CurveIsExact(idealStake + k * falloff, idealStake, falloff);
    ExactPowers(k, idealStake, falloff);
  }
}

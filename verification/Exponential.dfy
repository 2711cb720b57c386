/**
 Partial sums of the exponential series. Their product at z and -z is close to
 one, which locates the alternating sum also where its terms still grow.
 */
module Exponential {
  import opened TaylorError

  /** z^k / k!, by the recurrence of the terms. */
  ghost function Power(k: nat, z: real): real {
    if k == 0 then 1.0 else Scaled(Power(k - 1, z), z, k)
  }

  ghost function Sum(n: nat, z: real): real {
    if n == 0 then Power(0, z) else Sum(n - 1, z) + Power(n, z)
  }

  // ---- Products by name --------------------------------------------------

  ghost function Product(a: real, b: real): real { a * b }

  lemma ProductSwap(a: real, b: real)
    ensures Product(a, b) == Product(b, a)
  {
  }

  lemma ProductSum(e: real, a: real, b: real)
    ensures Product(e, a + b) == Product(e, a) + Product(e, b)
  {
  }

  lemma ProductAssoc(a: real, b: real, c: real)
    ensures Product(Product(a, b), c) == Product(a, Product(b, c))
  {
  }

  lemma ProductMono(a: real, b: real, c: real)
    requires 0.0 <= a <= b && 0.0 <= c
    ensures 0.0 <= Product(a, c) <= Product(b, c)
  {
    RealScale(a, b, c);
  }

  lemma AbsScale(d: real, e: real, a: real)
    requires Abs(d) <= e
    ensures Abs(Product(a, d)) <= Product(e, Abs(a))
  {
    var b := Abs(a);
    RealScale(0.0, e - d, b);
    RealScale(0.0, e + d, b);
    assert (e - d) * b == e * b - b * d;
    assert (e + d) * b == e * b + b * d;
    assert a * d == b * d || a * d == -(b * d);
  }

  lemma CancelFactor(n: real, x: real, y: real)
    requires 0.0 < n && Product(n, x) == Product(n, y)
    ensures x == y
  {
    assert n * (x - y) == 0.0;
  }

  // ---- Terms -------------------------------------------------------------

  lemma PowerTimes(k: nat, z: real)
    requires 0 < k
    ensures Product(k as real, Power(k, z)) == Product(z, Power(k - 1, z))
  {
    var x := Power(k - 1, z) * z;
    assert Power(k, z) == x / k as real;
  }

  lemma {:induction false} PowerNonnegative(k: nat, z: real)
    requires 0.0 <= z
    ensures 0.0 <= Power(k, z)
  {
    if k > 0 {
      PowerNonnegative(k - 1, z);
      RealScale(0.0, Power(k - 1, z), z);
      NonnegativeQuotient(Power(k - 1, z) * z, k as real);
    }
  }

  lemma NonnegativeQuotient(x: real, k: real)
    requires 0.0 <= x && 0.0 < k
    ensures 0.0 <= x / k
  {
  }

  lemma ScaledNegative(t: real, z: real, k: nat)
    requires 0 < k
    ensures Scaled(t, -z, k) == -Scaled(t, z, k) == Scaled(-t, z, k)
  {
    assert t * -z == -(t * z);
  }

  lemma PowerUnfold(k: nat, z: real)
    requires 0 < k
    ensures Power(k, z) == Scaled(Power(k - 1, z), z, k)
  {
    hide Scaled;
  }

  lemma PowerStart(z: real)
    ensures Power(0, z) == 1.0
  {
  }

  /** The terms at -z alternate in sign. */
  lemma {:induction false} PowerNegative(k: nat, z: real)
    ensures Power(k, -z) == if k % 2 == 0 then Power(k, z) else -Power(k, z)
  {
    hide Scaled, Power;
    if k == 0 {
      PowerStart(z);
      PowerStart(-z);
    } else {
      PowerUnfold(k, z);
      PowerUnfold(k, -z);
      PowerNegative(k - 1, z);
      ScaledNegative(Power(k - 1, z), z, k);
      ScaledNegative(-Power(k - 1, z), z, k);
    }
  }

  lemma PowerAbs(k: nat, z: real)
    requires 0.0 <= z
    ensures Abs(Power(k, -z)) == Power(k, z)
  {
    PowerNonnegative(k, z);
    PowerNegative(k, z);
  }

  // ---- The binomial theorem ----------------------------------------------

  /** The products of degree `n` whose first factor is of degree `j` at most. */
  ghost function Diagonal(j: nat, n: nat, x: real, y: real): real
    requires j <= n
  {
    (if j == 0 then 0.0 else Diagonal(j - 1, n, x, y)) + Product(Power(j, x), Power(n - j, y))
  }

  /** One product of the diagonal, times its degree. */
  lemma DegreeSplit(i: real, l: real, x: real, y: real, a: real, a': real, b: real, b': real)
    requires Product(i, a) == Product(x, a') && Product(l, b) == Product(y, b')
    ensures Product(i + l, Product(a, b)) == Product(x, Product(a', b)) + Product(y, Product(a, b'))
  {
    hide Product;
    var ab := Product(a, b);
    ProductSum(ab, i, l);
    ProductSwap(ab, i + l);
    ProductSwap(ab, i);
    ProductSwap(ab, l);
    ProductAssoc(i, a, b);
    ProductAssoc(x, a', b);
    ProductSwap(a, b);
    ProductAssoc(l, b, a);
    ProductAssoc(y, b', a);
    ProductSwap(b', a);
  }

  ghost function Before(j: nat, n: nat, x: real, y: real): real
    requires j <= n
  {
    if j == 0 then 0.0 else Diagonal(j - 1, n, x, y)
  }

  lemma DiagonalUnfold(j: nat, n: nat, x: real, y: real)
    requires j <= n
    ensures Diagonal(j, n, x, y) == Before(j, n, x, y) + Product(Power(j, x), Power(n - j, y))
  {
  }

  /** Times its degree, a diagonal is the one before times x + y, up to one product. */
  lemma {:induction false} DiagonalStep(j: nat, n: nat, x: real, y: real)
    requires j < n
    ensures Product(n as real, Diagonal(j, n, x, y))
         == Product(x + y, Before(j, n - 1, x, y)) + Product(y, Product(Power(j, x), Power(n - 1 - j, y)))
  {
    PowerTimes(n - j, y);
    if j == 0 {
      assert Diagonal(0, n, x, y) == Power(n, y);
    } else {
      hide Power, Product, Diagonal;
      var a, a', b, b' := Power(j, x), Power(j - 1, x), Power(n - j, y), Power(n - 1 - j, y);
      PowerTimes(j, x);
      DiagonalStep(j - 1, n, x, y);
      DegreeSplit(j as real, (n - j) as real, x, y, a, a', b, b');
      DiagonalUnfold(j, n, x, y);
      DiagonalUnfold(j - 1, n - 1, x, y);
      ProductSum(n as real, Diagonal(j - 1, n, x, y), Product(a, b));
      ProductSum(x + y, Before(j - 1, n - 1, x, y), Product(a', b));
      SumTimes(x, y, Product(a', b));
      assert j as real + (n - j) as real == n as real;
    }
  }

  lemma SumTimes(x: real, y: real, c: real)
    ensures Product(x + y, c) == Product(x, c) + Product(y, c)
  {
  }

  lemma DiagonalEnd(n: nat, x: real, y: real)
    requires 0 < n
    ensures Product(n as real, Diagonal(n, n, x, y)) == Product(x + y, Diagonal(n - 1, n - 1, x, y))
  {
    assert Power(0, y) == 1.0;
    PowerTimes(n, x);
    DiagonalStep(n - 1, n, x, y);
    hide Power, Diagonal;
    DiagonalUnfold(n, n, x, y);
    DiagonalUnfold(n - 1, n - 1, x, y);
    EndArithmetic(n as real, x, y, Power(n, x), Power(n - 1, x), Diagonal(n - 1, n, x, y), Before(n - 1, n - 1, x, y));
  }

  lemma EndArithmetic(n: real, x: real, y: real, a: real, a': real, d: real, e: real)
    requires Product(n, a) == Product(x, a')
    requires Product(n, d) == Product(x + y, e) + Product(y, Product(a', 1.0))
    ensures Product(n, d + Product(a, 1.0)) == Product(x + y, e + Product(a', 1.0))
  {
    ProductSum(n, d, a);
    ProductSum(x + y, e, a');
    SumTimes(x, y, a');
  }

  lemma {:induction false} Binomial(n: nat, x: real, y: real)
    ensures Diagonal(n, n, x, y) == Power(n, x + y)
  {
    if n > 0 {
      hide Power, Product, Diagonal;
      Binomial(n - 1, x, y);
      DiagonalEnd(n, x, y);
      PowerTimes(n, x + y);
      CancelFactor(n as real, Diagonal(n, n, x, y), Power(n, x + y));
    }
  }

  /** Terms at x against the partial sums at y they meet. */
  ghost function Convolution(j: nat, n: nat, x: real, y: real): real
    requires j <= n
  {
    (if j == 0 then 0.0 else Convolution(j - 1, n, x, y)) + Product(Power(j, x), Sum(n - j, y))
  }

  lemma {:induction false} ConvolutionStep(j: nat, n: nat, x: real, y: real)
    requires j < n
    ensures Convolution(j, n, x, y) == Convolution(j, n - 1, x, y) + Diagonal(j, n, x, y)
  {
    hide Power, Product;
    ProductSum(Power(j, x), Sum(n - 1 - j, y), Power(n - j, y));
    if j > 0 {
      ConvolutionStep(j - 1, n, x, y);
    }
  }

  /** The sum at x + y, degree by degree. */
  lemma {:induction false} ConvolutionIsSum(n: nat, x: real, y: real)
    ensures Convolution(n, n, x, y) == Sum(n, x + y)
  {
    if n > 0 {
      ConvolutionIsSum(n - 1, x, y);
      ConvolutionStep(n - 1, n, x, y);
      Binomial(n, x, y);
      assert Sum(0, y) == Power(0, y) == 1.0;
    }
  }

  // ---- Growth ------------------------------------------------------------

  lemma {:induction false} SumGrows(m: nat, n: nat, z: real)
    requires 0.0 <= z && m <= n
    ensures 1.0 <= Sum(m, z) <= Sum(n, z)
  {
    if m < n {
      SumGrows(m, n - 1, z);
      PowerNonnegative(n, z);
    } else if m > 0 {
      SumGrows(m - 1, m - 1, z);
      PowerNonnegative(m, z);
    }
  }

  lemma SumAtLeastLinear(n: nat, z: real)
    requires 0.0 <= z && 0 < n
    ensures 1.0 + z <= Sum(n, z)
  {
    SumGrows(1, n, z);
    assert Power(1, z) == z && Sum(0, z) == 1.0;
  }

  lemma {:induction false} ConvolutionAtMost(j: nat, n: nat, x: real, y: real)
    requires 0.0 <= x && 0.0 <= y && j <= n
    ensures Convolution(j, n, x, y) <= Product(Sum(n, y), Sum(j, x))
  {
    var s, a := Sum(n, y), Power(j, x);
    SumGrows(n - j, n, y);
    PowerNonnegative(j, x);
    ProductMono(Sum(n - j, y), s, a);
    ProductSwap(Sum(n - j, y), a);
    if j > 0 {
      hide Product, Power;
      ConvolutionAtMost(j - 1, n, x, y);
      ProductSum(s, Sum(j - 1, x), a);
    }
  }

  /** Partial sums of nonnegative arguments are submultiplicative. */
  lemma SumOfSums(n: nat, x: real, y: real)
    requires 0.0 <= x && 0.0 <= y
    ensures Sum(n, x + y) <= Product(Sum(n, y), Sum(n, x))
  {
    ConvolutionIsSum(n, x, y);
    ConvolutionAtMost(n, n, x, y);
  }

  lemma HalvesAtLeast(a: real, z: real, k: nat)
    requires 0.0 <= a && 0.0 <= z <= 1.0 && 2 <= k
    ensures 2.0 * Scaled(a, z, k) <= a
  {
    var x := a * z;
    var q := x / k as real;
    assert x <= a by { RealScale(z, 1.0, a); }
    assert 0.0 <= x by { RealScale(0.0, a, z); }
    NonnegativeQuotient(x, k as real);
    RealScale(2.0, k as real, q);
    assert k as real * q == x;
  }

  lemma {:induction false} SumAtMostThree(n: nat, z: real)
    requires 0.0 <= z <= 1.0
    ensures 1 <= n ==> Sum(n, z) + Power(n, z) <= 3.0
    ensures Sum(n, z) <= 3.0
  {
    PowerNonnegative(n, z);
    if n == 1 {
      assert Power(0, z) == 1.0 && Sum(0, z) == 1.0;
      assert Power(1, z) == z;
    } else if n > 1 {
      SumAtMostThree(n - 1, z);
      PowerNonnegative(n - 1, z);
      HalvesAtLeast(Power(n - 1, z), z, n);
    }
  }

  lemma {:induction false} PowerPositive(b: real, k: nat)
    requires 0.0 < b
    ensures 0.0 < RealPower(b, k)
  {
    if k > 0 {
      PowerPositive(b, k - 1);
    }
  }

  lemma {:induction false} SumAtMost(n: nat, z: real, m: nat)
    requires 0.0 <= z <= m as real
    ensures Sum(n, z) <= RealPower(3.0, m)
    decreases m
  {
    if z == 0.0 {
      SumAtZero(n);
      PowerAtLeastOne(3.0, m);
    } else if m == 1 {
      SumAtMostThree(n, z);
      assert RealPower(3.0, 1) == 3.0 * RealPower(3.0, 0);
    } else {
      var y := if z <= 1.0 then 0.0 else z - 1.0;
      SumAtMost(n, y, m - 1);
      SumAtMostThree(n, z - y);
      SumOfSums(n, y, z - y);
      SumGrows(n, n, y);
      SumGrows(n, n, z - y);
      ProductMono(Sum(n, z - y), 3.0, Sum(n, y));
      ProductMono(Sum(n, y), RealPower(3.0, m - 1), 3.0);
      ProductSwap(3.0, Sum(n, y));
      ProductSwap(RealPower(3.0, m - 1), 3.0);
      assert y + (z - y) == z;
    }
  }

  lemma {:induction false} PowerAtLeastOne(b: real, k: nat)
    requires 1.0 <= b
    ensures 1.0 <= RealPower(b, k)
  {
    if k > 0 {
      PowerAtLeastOne(b, k - 1);
      RealScale(1.0, b, RealPower(b, k - 1));
    }
  }

  lemma {:induction false} SumAtZero(n: nat)
    ensures Sum(n, 0.0) == 1.0
    ensures 0 < n ==> Power(n, 0.0) == 0.0
  {
    if n > 0 {
      SumAtZero(n - 1);
      assert Power(n - 1, 0.0) * 0.0 == 0.0;
    }
  }

  // ---- Tails -------------------------------------------------------------

  lemma {:induction false} PowerOfMultiple(k: nat, c: real, z: real)
    ensures Power(k, c * z) == Product(RealPower(c, k), Power(k, z))
  {
    if k > 0 {
      var r, a := RealPower(c, k - 1), Power(k - 1, z);
      PowerOfMultiple(k - 1, c, z);
      MultipleStep(r, a, c, z, k as real);
    }
  }

  lemma MultipleStep(r: real, a: real, c: real, z: real, k: real)
    requires k != 0.0
    ensures Product(r, a) * (c * z) / k == Product(c * r, a * z / k)
  {
    assert (r * a) * (c * z) == (c * r) * (a * z) by {
      Assoc(r, a, c * z);
      Assoc(c, r, a * z);
      assert a * (c * z) == c * (a * z);
      assert r * (c * (a * z)) == c * (r * (a * z));
    }
    DivideProduct(c * r, a * z, k);
  }

  lemma DivideProduct(x: real, y: real, k: real)
    requires k != 0.0
    ensures x * y / k == x * (y / k)
  {
  }

  /** A term is below the sum at four times the argument, over 4^k. */
  lemma TermDecays(k: nat, z: real, m: nat)
    requires 0.0 <= z <= m as real
    ensures Product(RealPower(4.0, k), Power(k, z)) <= RealPower(3.0, 4 * m)
  {
    PowerOfMultiple(k, 4.0, z);
    SumAtMost(k, 4.0 * z, 4 * m);
    if k > 0 {
      SumGrows(k - 1, k - 1, 4.0 * z);
    }
  }

  lemma {:induction false} TailDecays(k: nat, n: nat, z: real, m: nat)
    requires 0.0 <= z <= m as real && k <= n
    ensures Product(RealPower(4.0, k), Sum(n, z) - Sum(k, z)) <= RealPower(3.0, 4 * m)
    decreases n - k
  {
    var q, b := RealPower(4.0, k), RealPower(3.0, 4 * m);
    PowerAtLeastOne(3.0, 4 * m);
    if k < n {
      TailDecays(k + 1, n, z, m);
      TermDecays(k + 1, z, m);
      TailStep(q, Power(k + 1, z), Sum(n, z) - Sum(k + 1, z), b);
    }
  }

  lemma TailStep(q: real, a: real, rest: real, b: real)
    requires 0.0 <= b && Product(4.0 * q, a) <= b && Product(4.0 * q, rest) <= b
    ensures Product(q, a + rest) <= b
  {
    assert (4.0 * q) * a + (4.0 * q) * rest == 4.0 * (q * (a + rest));
  }
}

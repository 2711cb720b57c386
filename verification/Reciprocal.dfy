/**
 For arguments up to 70 the partial sum at -z, with as many terms as the loop
 computes, is the reciprocal of a partial sum at z up to one part in 10^11.
 */
module Reciprocal {
  import opened TaylorError
  import opened Exponential

  ghost predicate Near(x: real, t: real, total: real, bound: real) {
    Abs(x - Product(t, total)) <= bound
  }

  /** One more product: the factor met differs from the target by `e` at most. */
  lemma NearStep(x: real, t: real, total: real, bound: real, a: real, s: real, e: real)
    requires Near(x, t, total, bound) && Abs(s - t) <= e
    ensures Near(x + Product(a, s), t, total + a, bound + Product(e, Abs(a)))
  {
    hide Product;
    AbsScale(s - t, e, a);
    ProductSum(t, total, a);
    ProductSum(a, t, s - t);
    ProductSwap(a, t);
    assert t + (s - t) == s;
  }

  lemma NearNothing(t: real, e: real)
    ensures Near(0.0, t, 0.0, Product(e, 0.0))
  {
  }

  lemma Unfold(j: nat, t: nat, z: real)
    requires j <= t
    ensures Convolution(j, t, -z, z)
         == (if j == 0 then 0.0 else Convolution(j - 1, t, -z, z)) + Product(Power(j, -z), Sum(t - j, z))
    ensures Sum(j, z) == (if j == 0 then 0.0 else Sum(j - 1, z)) + Power(j, z)
    ensures Sum(j, -z) == (if j == 0 then 0.0 else Sum(j - 1, -z)) + Power(j, -z)
  {
    hide Power, Product;
  }

  /** A convolution that stops early is close to the product of the two sums. */
  lemma {:induction false} ConvolutionNear(j: nat, n: nat, t: nat, z: real)
    requires 0.0 <= z && j <= n <= t
    ensures Near(Convolution(j, t, -z, z), Sum(t, z), Sum(j, -z), Product(Sum(t, z) - Sum(t - n, z), Sum(j, z)))
  {
    hide Power, Product, Sum, Convolution, Near;
    var all, e, a := Sum(t, z), Sum(t, z) - Sum(t - n, z), Power(j, -z);
    var x := if j == 0 then 0.0 else Convolution(j - 1, t, -z, z);
    var total := if j == 0 then 0.0 else Sum(j - 1, -z);
    var sum := if j == 0 then 0.0 else Sum(j - 1, z);
    if j == 0 {
      NearNothing(all, e);
    } else {
      ConvolutionNear(j - 1, n, t, z);
    }
    SumGrows(t - n, t - j, z);
    SumGrows(t - j, t, z);
    Unfold(j, t, z);
    PowerAbs(j, z);
    NearStep(x, all, total, Product(e, sum), a, Sum(t - j, z), e);
    ProductSum(e, sum, Power(j, z));
  }

  lemma AbsProduct(a: real, b: real)
    requires 0.0 <= b
    ensures Abs(Product(a, b)) == Product(Abs(a), b)
  {
    if a < 0.0 {
      assert (-a) * b == -(a * b);
      RealScale(0.0, -a, b);
    } else {
      RealScale(0.0, a, b);
    }
  }

  lemma PositiveProduct(a: real, b: real)
    requires 0.0 < a && 0.0 < b
    ensures 0.0 < Product(a, b)
  {
  }

  lemma SmallerFactor(t: real, z: real, d: real, w: real)
    requires 0.0 <= z <= t && 0.0 < t && Product(t, d) == Product(z, w)
    ensures Abs(d) <= Abs(w)
  {
    hide Product;
    var x, y := Abs(d), Abs(w);
    ProductSwap(t, d);
    ProductSwap(z, w);
    AbsProduct(d, t);
    AbsProduct(w, z);
    ProductSwap(y, z);
    ProductSwap(x, t);
    ProductMono(z, t, y);
    if y < x {
      ProductSum(t, y, x - y);
      assert y + (x - y) == x;
      PositiveProduct(t, x - y);
    }
  }

  lemma DiagonalSmall(n: nat, t: nat, z: real)
    requires n < t && 0.0 <= z <= t as real
    ensures Abs(Diagonal(n, t, -z, z)) <= Product(Power(n, z), Power(t - 1 - n, z))
  {
    hide Power, Diagonal, Product;
    var d, w := Diagonal(n, t, -z, z), Product(Power(n, -z), Power(t - 1 - n, z));
    DiagonalStep(n, t, -z, z);
    assert -z + z == 0.0;
    ProductOfZero(Before(n, t - 1, -z, z));
    ProductSwap(0.0, Before(n, t - 1, -z, z));
    SmallerFactor(t as real, z, d, w);
    PowerNonnegative(t - 1 - n, z);
    PowerAbs(n, z);
    AbsProduct(Power(n, -z), Power(t - 1 - n, z));
  }

  /** Past the degree of the shorter sum the convolution hardly moves. */
  lemma {:induction false} ConvolutionSettles(n: nat, t: nat, z: real)
    requires n <= t && 0.0 <= z <= n as real
    ensures Abs(Convolution(n, t, -z, z) - 1.0) <= Product(Power(n, z), if t == n then 0.0 else Sum(t - 1 - n, z))
  {
    if t == n {
      ConvolutionIsSum(n, -z, z);
      SumAtZero(n);
      assert -z + z == 0.0;
    } else {
      hide Power, Product, Convolution, Diagonal;
      ConvolutionSettles(n, t - 1, z);
      ConvolutionStep(n, t, -z, z);
      DiagonalSmall(n, t, z);
      var a := Power(n, z);
      if t == n + 1 {
        assert Sum(0, z) == Power(0, z);
        assert Product(a, 0.0) == 0.0 by { ProductOfZero(a); }
      } else {
        ProductSum(a, Sum(t - 2 - n, z), Power(t - 1 - n, z));
      }
    }
  }

  lemma ProductOfZero(a: real)
    ensures Product(a, 0.0) == 0.0
  {
  }

  /** What the product of the two sums misses of one. */
  lemma ProductNearOne(n: nat, t: nat, z: real)
    requires 0.0 <= z <= n as real && n < t
    ensures Near(1.0, Sum(t, z), Sum(n, -z),
                 Product(Power(n, z), Sum(t, z)) + Product(Sum(t, z) - Sum(t - n, z), Sum(n, z)))
  {
    hide Power, Sum, Convolution, Product;
    ConvolutionNear(n, n, t, z);
    ConvolutionSettles(n, t, z);
    SumGrows(t - 1 - n, t, z);
    PowerNonnegative(n, z);
    ProductMono(Sum(t - 1 - n, z), Sum(t, z), Power(n, z));
    ProductSwap(Power(n, z), Sum(t - 1 - n, z));
    ProductSwap(Power(n, z), Sum(t, z));
  }

  // ---- Up to 70 ----------------------------------------------------------

  lemma {:induction false} PowerAdd(b: real, i: nat, j: nat)
    ensures RealPower(b, i + j) == Product(RealPower(b, i), RealPower(b, j))
  {
    if i > 0 {
      PowerAdd(b, i - 1, j);
      ProductAssoc(b, RealPower(b, i - 1), RealPower(b, j));
    }
  }

  lemma FifthPower(b: real)
    ensures RealPower(b, 5) == b * (b * (b * (b * b)))
    ensures RealPower(b, 4) == b * (b * (b * b))
  {
    assert RealPower(b, 1) == b * RealPower(b, 0);
    assert RealPower(b, 2) == b * b;
    assert RealPower(b, 3) == b * RealPower(b, 2);
    assert RealPower(b, 4) == b * RealPower(b, 3);
    assert RealPower(b, 5) == b * RealPower(b, 4);
  }

  /** Since 3^5 is less than 4^4. */
  lemma {:induction false} ThreesBelowFours(k: nat)
    ensures RealPower(3.0, 5 * k) <= RealPower(4.0, 4 * k)
  {
    if k > 0 {
      ThreesBelowFours(k - 1);
      PowerAdd(3.0, 5, 5 * (k - 1));
      PowerAdd(4.0, 4, 4 * (k - 1));
      FifthPower(3.0);
      FifthPower(4.0);
      PowerPositive(3.0, 5 * (k - 1));
      FoursStep(RealPower(3.0, 5 * (k - 1)), RealPower(4.0, 4 * (k - 1)));
    }
  }

  lemma FoursStep(x: real, y: real)
    requires 0.0 <= x <= y
    ensures Product(243.0, x) <= Product(256.0, y)
  {
  }

  lemma NineteenFours()
    ensures RealPower(4.0, 19) >= 200_000_000_000.0
  {
    FifthPower(4.0);
    PowerAdd(4.0, 5, 5);
    PowerAdd(4.0, 5, 4);
    PowerAdd(4.0, 10, 9);
  }

  /** A factor that 4^299 brings below 3^280, times one below 3^70. */
  lemma TinyProduct(a: real, s: real)
    requires 0.0 <= s <= RealPower(3.0, 70)
    requires Product(RealPower(4.0, 299), a) <= RealPower(3.0, 280) && 0.0 <= a
    ensures Product(a, s) <= 0.000_000_000_005
  {
    hide RealPower;
    var q, c, b, x := RealPower(4.0, 280), RealPower(4.0, 19), RealPower(3.0, 280), RealPower(3.0, 70);
    PowerAdd(4.0, 280, 19);
    PowerAdd(3.0, 280, 70);
    ThreesBelowFours(70);
    NineteenFours();
    PowerPositive(4.0, 280);
    PowerPositive(4.0, 299);
    TinyArithmetic(q, c, b, x, a, s);
  }

  lemma TinyArithmetic(q: real, c: real, b: real, x: real, a: real, s: real)
    requires 0.0 < q && 200_000_000_000.0 <= c && 0.0 <= s <= x && 0.0 <= a
    requires Product(Product(q, c), a) <= b && Product(b, x) <= q
    ensures Product(a, s) <= 0.000_000_000_005
  {
    var y := Product(a, s);
    ProductMono(0.0, a, s);
    hide Product;
    ProductAssoc(q, c, a);
    var d := Product(c, a);
    // q * (c * y) <= q
    assert Product(q, Product(c, y)) <= q by {
      ProductAssoc(c, a, s);
      ProductAssoc(q, d, s);
      ScaleBelow(q, d, s, b, x) by { NonnegativeProduct(c, a); }
    }
    Divide(q, c, y);
  }

  lemma NonnegativeProduct(a: real, b: real)
    requires 0.0 <= a && 0.0 <= b
    ensures 0.0 <= Product(a, b)
  {
    RealScale(0.0, a, b);
  }

  lemma ScaleBelow(q: real, d: real, s: real, b: real, x: real)
    requires 0.0 < q && 0.0 <= d && 0.0 <= s <= x && Product(q, d) <= b && Product(b, x) <= q
    ensures Product(Product(q, d), s) <= q
  {
    hide Product;
    NonnegativeProduct(q, d);
    ProductMono(Product(q, d), b, s);
    ProductMono(s, x, b);
    ProductSwap(s, b);
    ProductSwap(x, b);
  }

  lemma Divide(q: real, c: real, y: real)
    requires 0.0 < q && 200_000_000_000.0 <= c && 0.0 <= y && Product(q, Product(c, y)) <= q
    ensures y <= 0.000_000_000_005
  {
    var x := Product(c, y);
    RealScale(200_000_000_000.0, c, y);
    assert x <= 1.0 by {
      hide Product;
      if x > 1.0 {
        ProductSum(q, 1.0, x - 1.0);
        assert 1.0 + (x - 1.0) == x;
        ProductOfOne(q);
        PositiveProduct(q, x - 1.0);
      }
    }
  }

  lemma ProductOfOne(a: real)
    ensures Product(a, 1.0) == a
  {
  }

  /** The sum of 300 alternating terms, times the sum of 599 positive ones, is one up to 10^-11. */
  lemma NearlyReciprocal(z: real)
    requires 0.0 <= z <= 70.0
    ensures Near(1.0, Sum(598, z), Sum(299, -z), 0.000_000_000_01)
  {
    hide Power, Sum, Product, RealPower;
    var all, part := Sum(598, z), Sum(299, z);
    ProductNearOne(299, 598, z);
    SumAtMost(598, z, 70);
    SumAtMost(299, z, 70);
    SumGrows(299, 598, z);
    PowerNonnegative(299, z);
    TermDecays(299, z, 70);
    TailDecays(299, 598, z, 70);
    TinyProduct(Power(299, z), all);
    TinyProduct(all - part, part);
  }

  /** So the alternating sum lies between zero and, from an argument of one on, a little over one half. */
  lemma AlternatingLocated(z: real)
    requires 0.0 <= z <= 70.0
    ensures 0.0 <= Sum(299, -z)
    ensures 1.0 <= z ==> Sum(299, -z) <= 0.51
    ensures 1.0 <= Sum(598, z) && Abs(Sum(299, -z) - 1.0 / Sum(598, z)) <= 0.000_000_000_01
  {
    hide Sum, Product;
    NearlyReciprocal(z);
    SumAtLeastLinear(598, z);
    CloseInverse(Sum(299, -z), Sum(598, z));
    if 1.0 <= z {
      HalfAtMost(Sum(598, z));
    }
  }

  lemma HalfAtMost(all: real)
    requires 2.0 <= all
    ensures 1.0 / all <= 0.5
  {
    RealScale(2.0, all, 1.0 / all) by { NonnegativeQuotient(1.0, all); }
  }

  /** From the product to the quotient. */
  lemma CloseInverse(s: real, all: real)
    requires 1.0 <= all && Near(1.0, all, s, 0.000_000_000_01)
    ensures 0.0 <= s && Abs(s - 1.0 / all) <= 0.000_000_000_01
  {
    var d, r := s - 1.0 / all, 1.0 / all;
    assert Product(all, r) == 1.0;
    hide Product;
    ProductSum(all, r, d);
    assert r + d == s;
    ProductSwap(all, d);
    AbsProduct(d, all);
    ProductSwap(Abs(d), all);
    ProductMono(1.0, all, Abs(d));
    ProductSwap(1.0, Abs(d));
    ProductOfOne(Abs(d));
    if s < 0.0 {
      ProductSwap(all, s);
      NonnegativeProduct(-s, all);
      ProductNegated(s, all);
    }
  }

  lemma ProductNegated(a: real, b: real)
    ensures Product(-a, b) == -Product(a, b)
  {
  }
}

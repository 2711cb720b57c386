/**
 What truncating every term does to the alternating sum. A unit lost in one
 term is carried into all later ones with alternating signs, so it moves the
 sum by one unit at most, however large the terms grow in between.
 */
module Truncation {
  import opened Taylor
  import opened TaylorError
  import opened Exponential
  import opened Reciprocal

  /** How a unit lost in term `j` weighs in the sum of `n` terms. */
  ghost function Rest(j: nat, n: nat, z: real): real
    requires j <= n
    decreases n - j
  {
    if j == n then 1.0 else 1.0 - Scaled(Rest(j + 1, n, z), z, j + 1)
  }

  lemma RestCarries(j: nat, z: real, r: real)
    ensures Product(Power(j, -z), 1.0 - Scaled(r, z, j + 1)) == Power(j, -z) + Product(Power(j + 1, -z), r)
  {
    var a, k := Power(j, -z), j + 1;
    assert Power(j + 1, -z) == Scaled(a, -z, k);
    ScaledNegative(a, z, k);
    assert a * (1.0 - Scaled(r, z, k)) == a - a * Scaled(r, z, k);
    ScaledSwap(a, r, z, k);
    assert Product(-Scaled(a, z, k), r) == -(Scaled(a, z, k) * r);
  }

  lemma ScaledSwap(a: real, r: real, z: real, k: nat)
    requires 0 < k
    ensures a * Scaled(r, z, k) == Scaled(a, z, k) * r
  {
    var q, u, v := k as real, r * z / k as real, a * z / k as real;
    assert u * q == r * z && v * q == a * z;
    Assoc(a, u, q);
    Assoc(r, v, q);
    assert a * (r * z) == r * (a * z) by {
      Assoc(a, r, z);
      Assoc(r, a, z);
    }
    assert Product(q, a * u) == Product(q, v * r);
    CancelFactor(q, a * u, v * r);
  }

  /** From term `j` on the exact sum is term `j` times its weight. */
  lemma {:induction false} RestIsTail(j: nat, n: nat, z: real)
    requires j <= n
    ensures Product(Power(j, -z), Rest(j, n, z)) == Sum(n, -z) - (if j == 0 then 0.0 else Sum(j - 1, -z))
    decreases n - j
  {
    if j < n {
      RestIsTail(j + 1, n, z);
      RestCarries(j, z, Rest(j + 1, n, z));
    }
  }

  lemma UnitScaled(r: real, z: real, k: nat)
    requires 0.0 <= r <= 1.0 && 0.0 <= z <= k as real && 0 < k
    ensures 0.0 <= Scaled(r, z, k) <= 1.0
  {
    var x := r * z;
    RealScale(r, 1.0, z);
    NonnegativeQuotient(x, k as real);
    QuotientBelow(x, k as real, 1.0);
  }

  /** Beyond the argument the weights are found from the last one down. */
  lemma {:induction false} LateRest(j: nat, n: nat, z: real)
    requires 0.0 <= z <= j as real + 1.0 && j <= n
    ensures 0.0 <= Rest(j, n, z) <= 1.0
    decreases n - j
  {
    if j < n {
      LateRest(j + 1, n, z);
      UnitScaled(Rest(j + 1, n, z), z, j + 1);
    }
  }

  lemma Unscale(r: real, z: real, k: nat)
    requires 0 < k && k as real <= z && 0.0 <= Scaled(r, z, k) <= 1.0
    ensures 0.0 <= r <= 1.0
  {
    var x := r * z;
    assert Scaled(r, z, k) == x / k as real;
    UnscaleBetween(r, z, k as real, x / k as real);
  }

  lemma UnscaleBetween(r: real, z: real, c: real, q: real)
    requires 0.0 < c <= z && 0.0 <= q <= 1.0 && Product(q, c) == Product(r, z)
    ensures 0.0 <= r <= 1.0
  {
    hide Product;
    ProductMono(q, 1.0, c);
    ProductSwap(1.0, c);
    ProductOfOne(c);
    if r < 0.0 {
      ProductNegated(r, z);
      PositiveProduct(-r, z);
    } else if r > 1.0 {
      SumTimes(1.0, r - 1.0, z);
      assert 1.0 + (r - 1.0) == r;
      ProductSwap(1.0, z);
      ProductOfOne(z);
      PositiveProduct(r - 1.0, z);
    }
  }

  /** Up to the argument they are found from the first one up, which is the whole sum. */
  lemma {:induction false} EarlyRest(j: nat, n: nat, z: real)
    requires j as real <= z && j <= n && 0.0 <= Sum(n, -z) <= 1.0
    ensures 0.0 <= Rest(j, n, z) <= 1.0
  {
    if j == 0 {
      RestIsTail(0, n, z);
      assert Power(0, -z) == 1.0;
    } else {
      EarlyRest(j - 1, n, z);
      Unscale(Rest(j, n, z), z, j);
    }
  }

  /** Every lost unit weighs one at most. */
  lemma RestWithinOne(j: nat, z: real)
    requires 0.0 <= z <= 70.0 && j < CAP
    ensures 0.0 <= Rest(j, CAP - 1, z) <= 1.0
  {
    if z <= j as real + 1.0 {
      LateRest(j, CAP - 1, z);
    } else {
      AlternatingLocated(z);
      EarlyRest(j, CAP - 1, z);
    }
  }

  // ---- The error of the sum ----------------------------------------------

  /** What the truncations so far will have done to the whole sum. */
  ghost function Carried(j: nat, n: nat, p: Param): real
    requires p.Valid() && j <= n
  {
    var lost := ExactTerm(j, p) - Term(j, p) as real;
    var later := Product(lost, Rest(j, n, Z(p)) - 1.0);
    ExactAlternating(j, p) - Alternating(j, p) as real + (if j % 2 == 0 then later else -later)
  }

  lemma LossStep(e: real, t: real, q: real, z: real, k: nat, r: real)
    requires 0 < k
    ensures var lost := Scaled(e, z, k) - q;
      Product(e - t, -Scaled(r, z, k)) + lost == Product(Scaled(t, z, k) - q, r) - Product(lost, r - 1.0)
  {
    var a, b, x := Scaled(e, z, k), Scaled(t, z, k), Scaled(r, z, k);
    ScaledSwap(e, r, z, k);
    ScaledSwap(t, r, z, k);
    assert (e - t) * -x == t * x - e * x;
    assert (b - q) * r == b * r - q * r;
    assert (a - q) * (r - 1.0) == a * r - q * r - (a - q);
  }

  /** One more term adds its own loss, weighed, with the sign of the term. */
  lemma CarriedStep(j: nat, n: nat, p: Param)
    requires p.Valid() && 0 < j <= n
    ensures var loss := Product(Scaled(Term(j - 1, p) as real, Z(p), j) - Term(j, p) as real, Rest(j, n, Z(p)));
      Carried(j, n, p) == Carried(j - 1, n, p) + (if j % 2 == 0 then loss else -loss)
  {
    hide Product, Z, Scaled, ExactTerm, Term;
    var e, t, z := ExactTerm(j - 1, p), Term(j - 1, p) as real, Z(p);
    ExactIsScaled(j, p);
    LossStep(e, t, Term(j, p) as real, z, j, Rest(j, n, z));
    assert Rest(j - 1, n, z) - 1.0 == -Scaled(Rest(j, n, z), z, j);
  }

  lemma ExactIsScaled(j: nat, p: Param)
    requires p.Valid() && 0 < j
    ensures ExactTerm(j, p) == Scaled(ExactTerm(j - 1, p), Z(p), j)
  {
    ExactStep(p.accuracy as real, Z(p), j);
  }

  lemma LossBounded(t: real, q: nat, r: real)
    requires Brackets(q, t) && 0.0 <= r <= 1.0
    ensures 0.0 <= Product(t - q as real, r) <= 1.0
  {
    RealScale(0.0, t - q as real, r);
    RealScale(t - q as real, 1.0, r);
  }

  function Evens(j: nat): nat { j / 2 }

  function Odds(j: nat): nat { (j + 1) / 2 }

  lemma CountStep(j: nat)
    requires 0 < j
    ensures Evens(j) == Evens(j - 1) + (if j % 2 == 0 then 1 else 0)
    ensures Odds(j) == Odds(j - 1) + (if j % 2 == 0 then 0 else 1)
  {
  }

  /** Even terms raise the difference and odd ones lower it, by a unit at most each. */
  lemma {:induction false} CarriedBounded(j: nat, p: Param)
    requires p.Valid() && p.Weight() <= 70 * (p.accuracy * p.accuracy) && j < CAP
    ensures -(Odds(j) as real) <= Carried(j, CAP - 1, p) <= Evens(j) as real
  {
    if j == 0 {
      FirstCarried(p);
    } else {
      hide Product, Z, Scaled, Carried, Rest, Evens, Odds, Term;
      var z := Z(p);
      CarriedBounded(j - 1, p);
      CountStep(j);
      CarriedStep(j, CAP - 1, p);
      StepLoss(j, p);
    }
  }

  lemma StepLoss(j: nat, p: Param)
    requires p.Valid() && p.Weight() <= 70 * (p.accuracy * p.accuracy) && 0 < j < CAP
    ensures 0.0 <= Product(Scaled(Term(j - 1, p) as real, Z(p), j) - Term(j, p) as real, Rest(j, CAP - 1, Z(p))) <= 1.0
  {
    hide Product, Z, Scaled, Rest, NextTerm;
    ArgumentAtMost(p, 70);
    RestWithinOne(j, Z(p));
    NextBracket(j, Term(j - 1, p), p);
    LossBounded(Scaled(Term(j - 1, p) as real, Z(p), j), Term(j, p), Rest(j, CAP - 1, Z(p)));
  }

  lemma FirstCarried(p: Param)
    requires p.Valid()
    ensures Carried(0, CAP - 1, p) == 0.0
  {
    hide Rest, Z, ExactTerm;
    FirstIsExact(p);
  }

  lemma FirstIsExact(p: Param)
    requires p.Valid()
    ensures ExactTerm(0, p) == Term(0, p) as real == ExactAlternating(0, p) == Alternating(0, p) as real
  {
    assert RealPower(Z(p), 0) == 1.0 && Factorial(0) == 1;
  }

  /** The exact alternating sum is the partial sum of the exponential series at -z. */
  lemma {:induction false} ExactIsSum(n: nat, p: Param)
    requires p.Valid()
    ensures ExactTerm(n, p) == Product(p.accuracy as real, Power(n, Z(p)))
    ensures ExactAlternating(n, p) == Product(p.accuracy as real, Sum(n, -Z(p)))
  {
    var a, z := p.accuracy as real, Z(p);
    if n == 0 {
      FirstIsExact(p);
    } else {
      ExactIsSum(n - 1, p);
      ExactIsScaled(n, p);
      ScaledSwap(a, Power(n - 1, z), z, n);
      ScaledProduct(a, Power(n - 1, z), z, n);
      hide Product, ExactTerm, Scaled, Power;
      PowerNegative(n, z);
      ProductSum(a, Sum(n - 1, -z), Power(n, -z));
      ProductNegated(Power(n, z), a);
      ProductSwap(Power(n, z), a);
      ProductSwap(-Power(n, z), a);
    }
  }

  lemma ScaledProduct(a: real, x: real, z: real, k: nat)
    requires 0 < k
    ensures Scaled(Product(a, x), z, k) == Product(a, Scaled(x, z, k))
  {
    Assoc(a, x, z);
    DivideProduct(a, x * z, k as real);
  }

  /**
   For every accuracy and every argument up to 70, the 299 truncated terms sum
   to within 150 units of the exact ones.
   */
  lemma AlternatingAccurate(p: Param)
    requires p.Valid() && p.Weight() <= 70 * (p.accuracy * p.accuracy)
    ensures Abs(Alternating(CAP - 1, p) as real - ExactAlternating(CAP - 1, p)) <= 150.0
  {
    hide Alternating, ExactAlternating;
    CarriedBounded(CAP - 1, p);
    assert Rest(CAP - 1, CAP - 1, Z(p)) - 1.0 == 0.0;
    ProductOfZero(ExactTerm(CAP - 1, p) - Term(CAP - 1, p) as real);
  }

  lemma ScaleUp(a: real, s: real)
    requires 0.0 <= a && 0.0 <= s
    ensures 0.0 <= Product(a, s) && (s <= 0.51 ==> Product(a, s) <= 0.51 * a)
  {
    RealScale(0.0, s, a);
    if s <= 0.51 {
      RealScale(s, 0.51, a);
    }
  }

  /** The result of the loop, clamped at zero, is as close; and from an argument of one on it is far below one. */
  lemma SeriesAccurate(p: Param)
    requires p.Valid() && p.Weight() <= 70 * (p.accuracy * p.accuracy)
    ensures 0.0 <= ExactAlternating(CAP - 1, p)
    ensures Abs(SeriesPart(p) as real - ExactAlternating(CAP - 1, p)) <= 150.0
    ensures 1.0 <= Z(p) ==> SeriesPart(p) as real <= 0.51 * p.accuracy as real + 150.0
  {
    hide Alternating, ExactAlternating, Z, Sum, Product;
    AlternatingAccurate(p);
    ExactIsSum(CAP - 1, p);
    ArgumentAtMost(p, 70);
    AlternatingLocated(Z(p));
    ScaleUp(p.accuracy as real, Sum(CAP - 1, -Z(p)));
  }
}

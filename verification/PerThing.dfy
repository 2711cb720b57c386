/**
 Parts-per-`m` arithmetic with the rounding of `sp_arithmetic::PerThing`.
 The library is not part of this model: its rounding rules are assumed, as
 written here, for every accuracy `m` (10^9 for `Perbill`).
 */
module PerThing {
  import opened Division

  const PERBILL: nat := 1_000_000_000

  function Min(a: nat, b: nat): nat { if a < b then a else b }

  function Max(a: nat, b: nat): nat { if a < b then b else a }

  function DivCeil(x: nat, f: nat): nat
    requires 0 < f
  {
    x / f + (if x % f > 0 then 1 else 0)
  }

  /** The common divisor that brings a denominator down to `m` or less. */
  function Factor(m: nat, q: nat): (f: nat)
    requires 0 < m
    ensures 1 <= f
  {
    Max(DivCeil(q, m), 1)
  }

  lemma FactorAtMost(m: nat, q: nat)
    requires 0 < m && 0 < q
    ensures 1 <= q / Factor(m, q)
  {
    var f := Factor(m, q);
    Bounds(q, m);
    TimesMono(q / m, 1, m);
    assert f <= q;
    AtLeast(q, f, 1);
  }

  /** `from_rational`: the fraction is clamped to 1 and both sides are scaled down alike. */
  function FromRational(m: nat, p: nat, q: nat): nat
    requires 0 < m
  {
    var d := Max(q, 1);
    var n := Min(p, d);
    var f := Factor(m, d);
    FactorAtMost(m, d);
    Quotient(m * Quotient(n, f), Quotient(d, f))
  }

  /** Product of two fractions, truncated. */
  function Times(m: nat, a: nat, b: nat): nat
    requires 0 < m
  {
    a * b / m
  }

  /** Product of a fraction and a number, to the nearest, halves down. */
  function TimesNumber(m: nat, part: nat, n: nat): nat
    requires 0 < m
  {
    var w: nat := n / m;
    var rest: nat := n % m;
    var r: nat := rest * part;
    w * part + r / m + (if r % m > m / 2 then 1 else 0)
  }

  function SaturatingAdd(m: nat, a: nat, b: nat): nat { Min(a + b, m) }

  function SaturatingSub(a: nat, b: nat): nat { if a < b then 0 else a - b }

  // ---- Laws --------------------------------------------------------------

  lemma FromRationalAtMostOne(m: nat, p: nat, q: nat)
    requires 0 < m
    ensures FromRational(m, p, q) <= m
  {
    var d := Max(q, 1);
    var n := Min(p, d);
    var f := Factor(m, d);
    FactorAtMost(m, d);
    var e := d / f;
    Monotone(n, d, f);
    TimesMono(m, n / f, e);
    Monotone(m * (n / f), m * e, e);
    Exact(m, e);
  }

  lemma Exact(m: nat, e: nat)
    requires 0 < e
    ensures (m * e) / e == m
  {
    Unique(m * e, e, m);
  }

  lemma FromRationalOfEqual(m: nat, q: nat)
    requires 0 < m && 0 < q
    ensures FromRational(m, q, q) == m
  {
    FactorAtMost(m, q);
    var e: nat := q / Factor(m, q);
    assert FromRational(m, q, q) == Quotient(m * e, e) by {
      hide Factor;
    }
    Exact(m, e);
  }

  lemma FromRationalMonotone(m: nat, p: nat, p': nat, q: nat)
    requires 0 < m && p <= p'
    ensures FromRational(m, p, q) <= FromRational(m, p', q)
  {
    var d := Max(q, 1);
    var f := Factor(m, d);
    FactorAtMost(m, d);
    Monotone(Min(p, d), Min(p', d), f);
    TimesMono(m, Min(p, d) / f, Min(p', d) / f);
    Monotone(m * (Min(p, d) / f), m * (Min(p', d) / f), d / f);
  }

  lemma FactorSmall(m: nat, q: nat)
    requires 0 < q <= m
    ensures Factor(m, q) == 1
  {
    if q < m {
      Small(q, m);
    } else {
      Unique(q, m, 1);
    }
  }

  /** With a denominator of at most `m` the truncation is the only error. */
  lemma FromRationalSmall(m: nat, p: nat, q: nat)
    requires 0 < q <= m && p <= q
    ensures FromRational(m, p, q) == m * p / q
  {
    hide Factor, DivCeil;
    FactorSmall(m, q);
    assert Quotient(p, 1) == p && Quotient(q, 1) == q;
  }

  /** The common divisor is no larger than it has to be. */
  lemma FactorTight(m: nat, q: nat)
    requires 0 < m && 0 < q && Factor(m, q) > 1
    ensures m * (Factor(m, q) - 1) < q
  {
    var f := Factor(m, q);
    Bounds(q, m);
    if q % m > 0 {
      assert f == q / m + 1;
    } else {
      assert f == q / m;
      TimesPlus(m, f - 1, 1);
    }
  }

  lemma NearBelow(m: nat, n: nat, d: nat, f: nat, n': nat, d': nat, r: nat)
    requires f * n' <= n && d < f * d' + f && d' * r <= m * n' && r <= m
    ensures d * r <= m * n + f * m
  {
    TimesMono(r, d, f * d' + f);
    TimesPlus(r, f * d', f);
    assert r * (f * d') == f * (d' * r) by { TimesAssoc(f, d', r); }
    TimesMono(f, d' * r, m * n');
    assert f * (m * n') == m * (f * n') by {
      TimesAssoc(f, m, n');
      TimesAssoc(m, f, n');
    }
    TimesMono(m, f * n', n);
    TimesMono(f, r, m);
  }

  lemma NearAbove(m: nat, n: nat, d: nat, f: nat, n': nat, d': nat, r: nat)
    requires n < f * n' + f && f * d' <= d && m * n' < d' * r + d'
    ensures m * n <= d * r + d + f * m
  {
    TimesMono(r + 1, f * d', d);
    TimesPlus(d, r, 1);
    TimesPlus(d', r, 1);
    assert (r + 1) * (f * d') == f * (d' * (r + 1)) by { TimesAssoc(f, d', r + 1); }
    TimesMono(f, m * n', d' * (r + 1));
    assert f * (m * n') == m * (f * n') by {
      TimesAssoc(f, m, n');
      TimesAssoc(m, f, n');
    }
    TimesMono(m, n, f * n' + f);
    TimesPlus(m, f * n', f);
  }

  lemma FactorLoss(m: nat, d: nat, f: nat)
    requires 0 < m && 1 <= f && (f > 1 ==> m * (f - 1) < d)
    ensures f > 1 ==> f * m <= 2 * d
  {
    if f > 1 {
      TimesPlus(m, f - 1, 1);
      TimesMono(m, 1, f - 1);
    }
  }

  /** The fraction by its scaled parts: all that is needed of the three divisions. */
  lemma NearWhole(m: nat, p: nat, q: nat, f: nat, n': nat, d': nat, r: nat)
    requires 1 <= f && r <= m && (f > 1 ==> f * m <= 2 * q)
    requires f * n' <= p < f * n' + f && f * d' <= q < f * d' + f
    requires d' * r <= m * n' < d' * r + d'
    ensures m * p <= q * r + 3 * q && q * r <= m * p + 2 * q
    ensures f == 1 ==> q * r <= m * p < q * r + q
  {
    if f == 1 {
      assert n' == p && d' == q;
    } else {
      NearBelow(m, p, q, f, n', d', r);
      NearAbove(m, p, q, f, n', d', r);
    }
  }

  lemma Scaling(m: nat, p: nat, q: nat, f: nat, n': nat, d': nat, r: nat)
    requires 0 < m && 1 <= f && 1 <= d'
    requires n' == p / f && d' == q / f && r == m * n' / d'
    ensures f * n' <= p < f * n' + f && f * d' <= q < f * d' + f
    ensures d' * r <= m * n' < d' * r + d'
  {
    Bounds(p, f);
    Bounds(q, f);
    Bounds(m * n', d');
  }

  /**
   A fraction of any numerator and denominator: at most three units below and two
   above the exact one, however large the numbers that are scaled down.
   */
  lemma FromRationalNear(m: nat, p: nat, q: nat)
    requires 0 < m && 0 < q && p <= q
    ensures m * p <= q * FromRational(m, p, q) + 3 * q
    ensures q * FromRational(m, p, q) <= m * p + 2 * q
    ensures q <= m ==> q * FromRational(m, p, q) <= m * p < q * FromRational(m, p, q) + q
  {
    hide Factor, DivCeil;
    var f := Factor(m, q);
    FactorAtMost(m, q);
    FromRationalAtMostOne(m, p, q);
    if f > 1 { FactorTight(m, q); }
    FactorLoss(m, q, f);
    if q <= m { FactorSmall(m, q); }
    Scaling(m, p, q, f, p / f, q / f, FromRational(m, p, q));
    NearWhole(m, p, q, f, p / f, q / f, FromRational(m, p, q));
  }

  lemma TimesAtMost(m: nat, a: nat, b: nat)
    requires 0 < m && b <= m
    ensures Times(m, a, b) <= a
  {
    TimesMono(a, b, m);
    Monotone(a * b, a * m, m);
    Exact(a, m);
  }

  lemma TimesMonotone(m: nat, a: nat, b: nat, b': nat)
    requires 0 < m && b <= b'
    ensures Times(m, a, b) <= Times(m, a, b')
  {
    TimesMono(a, b, b');
    Monotone(a * b, a * b', m);
  }

  /** Rounding to nearest is off by at most half a unit. */
  lemma TimesNumberNearest(m: nat, part: nat, n: nat)
    requires 0 < m
    ensures -(m as int) <= 2 * (m * TimesNumber(m, part, n) - n * part) <= m
  {
    var w, r := n / m, (n % m) * part;
    Bounds(r, m);
    assert m * (r / m) + r % m == r;
    assert n == m * w + n % m;
    assert n * part == m * (w * part) + r by {
      assert n * part == (m * w) * part + (n % m) * part;
      TimesAssoc(m, w, part);
    }
    var up := if r % m > m / 2 then 1 else 0;
    assert m * (w * part + r / m + up) == m * (w * part) + m * (r / m) + m * up;
  }

  /** A fraction of at most 1 never enlarges a number. */
  lemma TimesNumberAtMost(m: nat, part: nat, n: nat)
    requires 0 < m && part <= m
    ensures TimesNumber(m, part, n) <= n
  {
    var t := TimesNumber(m, part, n);
    TimesNumberNearest(m, part, n);
    TimesMono(n, part, m);
    TimesPlus(m, n, 1);
    if n < t {
      TimesMono(m, n + 1, t);
    }
  }
}

/** Facts about products and truncating division of natural numbers. */
module Division {

  function Quotient(a: nat, d: nat): nat
    requires 0 < d
  {
    a / d
  }

  lemma TimesMono(c: nat, a: nat, b: nat)
    requires a <= b
    ensures c * a <= c * b
  {
    assert c * (b - a) >= 0;
  }

  lemma TimesPlus(c: nat, a: nat, b: nat)
    ensures c * (a + b) == c * a + c * b
  {
  }

  lemma TimesAssoc(a: nat, b: nat, c: nat)
    ensures (a * b) * c == a * (b * c)
  {
  }

  lemma Positive(a: nat, b: nat)
    requires 0 < a && 0 < b
    ensures 0 < a * b
  {
  }

  lemma ProductBelow(v: nat, w: nat, p: nat, q: nat)
    requires v < p && w < q
    ensures v * w < p * q
  {
    TimesMono(v, w, q);
    TimesMono(q, v + 1, p);
    TimesPlus(q, v, 1);
  }

  /** A quotient bounded by way of a lower bound on the divisor. */
  lemma BelowScaled(a: nat, d: nat, e: nat, q: nat)
    requires 0 < e <= d && a < e * q
    ensures a / d < q
  {
    TimesMono(q, e, d);
    Below(a, d, q);
  }

  lemma Bounds(a: nat, d: nat)
    requires 0 < d
    ensures d * (a / d) <= a < d * (a / d) + d
  {
  }

  /** Two multiples of `d` that bracket the same number are the same. */
  lemma SameBracket(a: nat, d: nat, q: nat, r: nat)
    requires d * q <= a < d * q + d
    requires d * r <= a < d * r + d
    ensures q == r
  {
    TimesPlus(d, q, 1);
    TimesPlus(d, r, 1);
    if q < r {
      TimesMono(d, q + 1, r);
    } else if r < q {
      TimesMono(d, r + 1, q);
    }
  }

  /** The quotient is the only number that fits. */
  lemma Unique(a: nat, d: nat, q: nat)
    requires 0 < d
    requires d * q <= a < d * q + d
    ensures a / d == q
  {
    Bounds(a, d);
    SameBracket(a, d, q, a / d);
  }

  lemma AtLeast(a: nat, d: nat, q: nat)
    requires 0 < d && d * q <= a
    ensures q <= a / d
  {
    var r := a / d;
    Bounds(a, d);
    TimesPlus(d, r, 1);
    if r < q {
      TimesMono(d, r + 1, q);
    }
  }

  lemma Below(a: nat, d: nat, q: nat)
    requires 0 < d && a < d * q
    ensures a / d < q
  {
    var r := a / d;
    Bounds(a, d);
    if q <= r {
      TimesMono(d, q, r);
    }
  }

  lemma Small(a: nat, d: nat)
    requires a < d
    ensures a / d == 0
  {
  }

  lemma Monotone(a: nat, b: nat, d: nat)
    requires 0 < d && a <= b
    ensures a / d <= b / d
  {
    var q := a / d;
    Bounds(a, d);
    AtLeast(b, d, q);
  }

  lemma NestedBracket(a: nat, b: nat, c: nat, q: nat, r: nat)
    requires b * q <= a < b * q + b
    requires c * r <= q < c * r + c
    ensures (b * c) * r <= a < (b * c) * r + b * c
  {
    TimesMono(b, c * r, q);
    TimesMono(b, q + 1, c * r + c);
    TimesPlus(b, q, 1);
    TimesPlus(b, c * r, c);
    TimesAssoc(b, c, r);
  }

  /** Two truncations in a row lose nothing against one. */
  lemma Nested(a: nat, b: nat, c: nat)
    requires 0 < b && 0 < c
    ensures 0 < b * c
    ensures (a / b) / c == a / (b * c)
  {
    var q := a / b;
    var r := q / c;
    var d := b * c;
    Positive(b, c);
    Bounds(a, b);
    Bounds(q, c);
    NestedBracket(a, b, c, q, r);
    Unique(a, d, r);
  }

  lemma ScaledBracket(a: nat, b: nat, m: nat, q: nat)
    requires 0 < m
    requires b * q <= a < b * q + b
    ensures (b * m) * q <= m * a < (b * m) * q + b * m
  {
    TimesMono(m, b * q, a);
    TimesMono(m, a + 1, b * q + b);
    TimesPlus(m, a, 1);
    TimesPlus(m, b * q, b);
    TimesAssoc(m, b, q);
  }

  /** Scaling the dividend up and the quotient down again changes nothing. */
  lemma Scaled(a: nat, b: nat, m: nat)
    requires 0 < b && 0 < m
    ensures (m * a / b) / m == a / b
  {
    var q := a / b;
    var d := b * m;
    Bounds(a, b);
    ScaledBracket(a, b, m, q);
    Positive(b, m);
    Unique(m * a, d, q);
    Nested(m * a, b, m);
  }

  /** Truncating the parts of a sum never exceeds truncating the sum. */
  lemma Superadditive(a: nat, b: nat, d: nat)
    requires 0 < d
    ensures a / d + b / d <= (a + b) / d
  {
    var q, r := a / d, b / d;
    Bounds(a, d);
    Bounds(b, d);
    TimesPlus(d, q, r);
    AtLeast(a + b, d, q + r);
  }

  /** A common factor cancels. */
  lemma Cancel(v: nat, k: nat, a: nat)
    requires 0 < k && 0 < a
    ensures 0 < k * a
    ensures (a * v) / (k * a) == v / k
  {
    Scaled(v, k, a);
    Nested(a * v, k, a);
  }

  /** Multiplying by at most `a` and dividing by `a` or more does not enlarge. */
  lemma ShrinkingFactor(t: nat, w: nat, a: nat, k: nat)
    requires w <= a && 0 < a && 0 < k
    ensures 0 < k * a
    ensures (t * w) / (k * a) <= t
  {
    var d := k * a;
    Positive(k, a);
    TimesMono(t, w, a);
    TimesMono(a, 1, k);
    TimesMono(t, a, d);
    if t < (t * w) / d {
      Bounds(t * w, d);
      TimesMono(d, t + 1, (t * w) / d);
      TimesPlus(d, t, 1);
    }
  }
}

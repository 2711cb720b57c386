/**
 How far the truncated series is from the exact one.
 With z = Weight / accuracy^2 the exact k-th term is accuracy * z^k / k!.
 */
module TaylorError {
  import opened Division
  import opened Taylor

  ghost function Z(p: Param): real
    requires p.Valid()
  {
    Positive(p.accuracy, p.accuracy);
    p.Weight() as real / (p.accuracy * p.accuracy) as real
  }

  ghost function RealPower(z: real, k: nat): real {
    if k == 0 then 1.0 else z * RealPower(z, k - 1)
  }

  ghost function Factorial(k: nat): (r: nat)
    ensures 0 < r
  {
    if k == 0 then 1
    else
      Positive(k, Factorial(k - 1));
      k * Factorial(k - 1)
  }

  ghost function ExactAt(a: real, z: real, k: nat): real {
    a * RealPower(z, k) / Factorial(k) as real
  }

  ghost function ExactTerm(k: nat, p: Param): real
    requires p.Valid()
  {
    ExactAt(p.accuracy as real, Z(p), k)
  }

  ghost function ExactAlternating(n: nat, p: Param): real
    requires p.Valid()
  {
    if n == 0 then ExactTerm(0, p)
    else if n % 2 == 0 then ExactAlternating(n - 1, p) + ExactTerm(n, p)
    else ExactAlternating(n - 1, p) - ExactTerm(n, p)
  }

  /** One step of either recurrence: t * z / k. */
  ghost function Scaled(t: real, z: real, k: nat): real
    requires 0 < k
  {
    t * z / k as real
  }

  /** The error recurrence e_k = e_{k-1} * z / k + 1. */
  ghost function ErrorBound(k: nat, z: real): real {
    if k == 0 then 0.0 else Scaled(ErrorBound(k - 1, z), z, k) + 1.0
  }

  ghost function ErrorSum(n: nat, z: real): real {
    if n == 0 then 0.0 else ErrorSum(n - 1, z) + ErrorBound(n, z)
  }

  // ---- Real arithmetic ---------------------------------------------------

  lemma CastProduct(a: nat, b: nat)
    ensures (a * b) as real == a as real * b as real
  {
  }

  lemma RealScale(a: real, b: real, c: real)
    requires 0.0 <= a <= b && 0.0 <= c
    ensures 0.0 <= a * c <= b * c
  {
  }

  lemma Assoc(a: real, b: real, c: real)
    ensures (a * b) * c == a * (b * c)
  {
  }

  /** (t * w) / (k * a) is t times w/a over k. */
  lemma Regroup(t: real, w: real, k: real, a: real)
    requires k != 0.0 && a != 0.0
    ensures k * a != 0.0
    ensures (t * w) / (k * a) == t * (w / a) / k
  {
    var z := w / a;
    var r := t * z / k;
    assert r * k == t * z;
    Assoc(r, k, a);
    Assoc(t, z, a);
    assert r * (k * a) == t * w;
  }

  lemma QuotientBetween(n: real, d: real, q: real)
    requires 0.0 < d && d * q <= n < d * q + d
    ensures q <= n / d < q + 1.0
  {
    var v := n / d;
    assert v * d == n;
    if v < q {
      RealScale(0.0, q - v, d);
    }
    if v >= q + 1.0 {
      RealScale(0.0, v - (q + 1.0), d);
    }
  }

  ghost predicate Brackets(q: nat, x: real) {
    q as real <= x < q as real + 1.0
  }

  /** Truncated division brackets the exact quotient. */
  lemma FloorBracket(n: nat, d: nat, q: nat)
    requires 0 < d && d * q <= n < d * q + d
    ensures Brackets(q, n as real / d as real)
  {
    CastProduct(d, q);
    QuotientBetween(n as real, d as real, q as real);
  }

  lemma BracketArithmetic(t: nat, w: nat, k: nat, a: nat, q: nat)
    requires 0 < k && 0 < a && 0 < k * a
    requires (k * a) * q <= t * w < (k * a) * q + k * a
    ensures Brackets(q, Scaled(t as real, w as real / a as real, k))
  {
    var n, d := t * w, k * a;
    var x := n as real / d as real;
    FloorBracket(n, d, q);
    assert Brackets(q, x);
    assert x == Scaled(t as real, w as real / a as real, k) by {
      CastProduct(t, w);
      CastProduct(k, a);
      Regroup(t as real, w as real, k as real, a as real);
    }
  }

  lemma QuotientBracket(t: nat, w: nat, k: nat, a: nat)
    requires 0 < k && 0 < a && 0 < k * a
    ensures Brackets((t * w) / (k * a), Scaled(t as real, w as real / a as real, k))
  {
    var q := (t * w) / (k * a);
    Bounds(t * w, k * a);
    BracketArithmetic(t, w, k, a, q);
  }

  lemma NextBracket(k: nat, t: nat, p: Param)
    requires 0 < k && p.Valid()
    ensures Brackets(NextTerm(k, t, p), Scaled(t as real, Z(p), k))
  {
    OneTruncation(k, t, p);
    Positive(p.accuracy, p.accuracy);
    QuotientBracket(t, p.Weight(), k, p.accuracy * p.accuracy);
  }

  lemma StepArithmetic(c: real, z: real, r: real, k: real, f: real)
    requires k != 0.0 && f != 0.0
    ensures k * f != 0.0
    ensures c * (z * r) / (k * f) == c * r / f * z / k
  {
    assert c * (z * r) == (c * r) * z;
    assert k * f == f * k;
    Regroup(z, c * r, k, f);
    assert z * (c * r) == (c * r) * z;
    assert z * ((c * r) / f) == (c * r) / f * z;
  }

  lemma ExactStep(a: real, z: real, k: nat)
    requires 0 < k
    ensures ExactAt(a, z, k) == Scaled(ExactAt(a, z, k - 1), z, k)
  {
    hide RealPower, Factorial;
    PowerStep(z, k);
    FactorialStep(k);
    StepArithmetic(a, z, RealPower(z, k - 1), k as real, Factorial(k - 1) as real);
  }

  lemma PowerStep(z: real, k: nat)
    requires 0 < k
    ensures RealPower(z, k) == z * RealPower(z, k - 1)
  {
  }

  lemma FactorialStep(k: nat)
    requires 0 < k
    ensures Factorial(k) as real == k as real * Factorial(k - 1) as real
  {
    CastProduct(k, Factorial(k - 1));
  }

  lemma ErrorStep(e: real, t: real, b: real, q: nat, z: real, k: nat)
    requires 0.0 <= z && 0 < k
    requires 0.0 <= e - t <= b
    requires Brackets(q, Scaled(t, z, k))
    ensures 0.0 <= Scaled(e, z, k) - q as real <= Scaled(b, z, k) + 1.0
  {
    var c := z / k as real;
    assert Scaled(e, z, k) == e * c && Scaled(t, z, k) == t * c && Scaled(b, z, k) == b * c;
    RealScale(e - t, b, c);
    assert (e - t) * c == e * c - t * c;
  }

  // ---- Main results ------------------------------------------------------

  lemma ArgumentNonnegative(p: Param)
    requires p.Valid()
    ensures 0.0 <= Z(p)
  {
    Positive(p.accuracy, p.accuracy);
  }

  /** Each truncated term lies below the exact one, by no more than its bound. */
  lemma {:induction false} TermError(k: nat, p: Param)
    requires p.Valid()
    ensures 0.0 <= ExactTerm(k, p) - Term(k, p) as real <= ErrorBound(k, Z(p))
  {
    if k > 0 {
      var t := Term(k - 1, p);
      TermError(k - 1, p);
      NextBracket(k, t, p);
      ExactStep(p.accuracy as real, Z(p), k);
      ArgumentNonnegative(p);
      ErrorStep(ExactTerm(k - 1, p), t as real, ErrorBound(k - 1, Z(p)), NextTerm(k, t, p), Z(p), k);
    }
  }

  ghost function Abs(x: real): real { if x < 0.0 then -x else x }

  /** The computed alternating sum is within the sum of the term errors of the exact one. */
  lemma {:induction false} SumError(n: nat, p: Param)
    requires p.Valid()
    ensures Abs(Alternating(n, p) as real - ExactAlternating(n, p)) <= ErrorSum(n, Z(p))
  {
    TermError(n, p);
    if n > 0 {
      SumError(n - 1, p);
    }
  }

  ghost function Clamped(x: real): real { if x < 0.0 then 0.0 else x }

  /** Clamping both sums at zero brings them no further apart. */
  lemma SeriesError(p: Param)
    requires p.Valid()
    ensures Abs(SeriesPart(p) as real - Clamped(ExactAlternating(CAP - 1, p))) <= ErrorSum(CAP - 1, Z(p))
  {
    SumError(CAP - 1, p);
  }

  /** A bound on the weight is one on the argument. */
  lemma ArgumentAtMost(p: Param, c: nat)
    requires p.Valid() && p.Weight() <= c * (p.accuracy * p.accuracy)
    ensures 0.0 <= Z(p) <= c as real
  {
    ArgumentNonnegative(p);
    Positive(p.accuracy, p.accuracy);
    var w, a := p.Weight(), p.accuracy * p.accuracy;
    CastProduct(c, a);
    QuotientBelow(w as real, a as real, c as real);
  }

  lemma QuotientBelow(w: real, a: real, c: real)
    requires 0.0 < a && w <= c * a
    ensures w / a <= c
  {
    var v := w / a;
    assert v * a == w;
    if v > c {
      PositiveTimes(v - c, a);
    }
  }

  lemma PositiveTimes(a: real, b: real)
    requires 0.0 < a && 0.0 < b
    ensures 0.0 < a * b
  {
  }
}

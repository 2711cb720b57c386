/**
 The decreasing branch of the inflation curve, 2^((x_ideal - x) / d), as an
 alternating Taylor series in fixed point with `accuracy` units to one.
 */
module Taylor {
  import opened Division
  import opened Limbs
  import opened Options

  datatype Param = Param(accuracy: nat, x: nat, xIdeal: nat, ln2DivD: nat) {
    predicate Valid() { 0 < accuracy }

    /** `x - x_ideal`, zero when it would underflow. */
    function Excess(): nat { if x < xIdeal then 0 else x - xIdeal }

    /** Numerator of the series argument z over `accuracy`^2. */
    function Weight(): nat { Excess() * ln2DivD }
  }

  /** The cap of the loop: terms 1 to 299 are computed at most. */
  const CAP: nat := 300

  /** The k-th term from the one before it: three truncations. */
  function NextTerm(k: nat, previous: nat, p: Param): nat
    requires 0 < k && p.Valid()
  {
    var product: nat := previous * p.Excess() * p.ln2DivD;
    Quotient(Quotient(Quotient(product, k), p.accuracy), p.accuracy)
  }

  function Term(k: nat, p: Param): nat
    requires p.Valid()
  {
    if k == 0 then p.accuracy else NextTerm(k, Term(k - 1, p), p)
  }

  /** Sum of (-1)^j times the j-th truncated term for j = 0 .. n. */
  function Alternating(n: nat, p: Param): int
    requires p.Valid()
  {
    if n == 0 then Term(0, p)
    else if n % 2 == 0 then Alternating(n - 1, p) + Term(n, p)
    else Alternating(n - 1, p) - Term(n, p)
  }

  function SeriesPart(p: Param): nat
    requires p.Valid()
  {
    var s := Alternating(CAP - 1, p);
    if s < 0 then 0 else s
  }

  /** Once a term is zero every later one is, so later sums do not move. */
  lemma {:induction false} ZeroStays(k: nat, n: nat, p: Param)
    requires p.Valid() && k <= n && Term(k, p) == 0
    ensures Term(n, p) == 0
    ensures Alternating(n, p) == Alternating(k, p)
  {
    if k < n {
      ZeroStays(k, n - 1, p);
      NextOfZero(n, p);
    }
  }

  lemma NextOfZero(k: nat, p: Param)
    requires 0 < k && p.Valid()
    ensures NextTerm(k, 0, p) == 0
  {
    Small(0, k);
    Small(0, p.accuracy);
  }

  // ---- The truncations ---------------------------------------------------

  /** The three truncations of a term are one truncation by k * accuracy^2. */
  lemma OneTruncation(k: nat, previous: nat, p: Param)
    requires 0 < k && p.Valid()
    ensures 0 < k * (p.accuracy * p.accuracy)
    ensures NextTerm(k, previous, p) == previous * p.Weight() / (k * (p.accuracy * p.accuracy))
  {
    var n, a := previous * p.Excess() * p.ln2DivD, p.accuracy;
    TimesAssoc(previous, p.Excess(), p.ln2DivD);
    Nested(n / k, a, a);
    Positive(a, a);
    Nested(n, k, a * a);
  }

  /** A term computed on limbs, division by division as `compute_taylor_term` does. */
  function TermOnLimbs(k: nat, previous: BigUint, x: BigUint, xIdeal: BigUint, ln2DivD: BigUint, accuracy: BigUint)
    : BigUint
    requires 0 < k
    requires accuracy != [] ==> accuracy[0] != 0
  {
    var excess := match Sub(x, xIdeal) case Some(v) => v case None => ZERO;
    var res := DivUnit(Mul(Mul(previous, excess), ln2DivD), k);
    Lstrip(DivByStripped(DivByStripped(res, accuracy), accuracy))
  }

  lemma LimbProduct(k: nat, previous: BigUint, excess: BigUint, ln2DivD: BigUint)
    requires 0 < k
    ensures Value(DivUnit(Mul(Mul(previous, excess), ln2DivD), k))
         == Value(previous) * Value(excess) * Value(ln2DivD) / k
  {
    assert Value(Mul(previous, excess)) == Value(previous) * Value(excess);
  }

  lemma LimbDivisions(res: BigUint, accuracy: BigUint)
    requires accuracy != [] && accuracy[0] != 0
    ensures Value(accuracy) > 0
    ensures Value(Lstrip(DivByStripped(DivByStripped(res, accuracy), accuracy)))
         == Value(res) / Value(accuracy) / Value(accuracy)
  {
    DivByStrippedIsDivision(res, accuracy);
    DivByStrippedIsDivision(DivByStripped(res, accuracy), accuracy);
    LstripValue(DivByStripped(DivByStripped(res, accuracy), accuracy));
  }

  /** Big-integer arithmetic computes exactly the term of the series on numbers. */
  lemma TermOnLimbsIsNextTerm(k: nat, previous: BigUint, x: BigUint, xIdeal: BigUint, ln2DivD: BigUint,
                              accuracy: BigUint)
    requires 0 < k && accuracy != [] && accuracy[0] != 0
    ensures Value(accuracy) > 0
    ensures Value(TermOnLimbs(k, previous, x, xIdeal, ln2DivD, accuracy))
         == NextTerm(k, Value(previous), Param(Value(accuracy), Value(x), Value(xIdeal), Value(ln2DivD)))
  {
    var excess := match Sub(x, xIdeal) case Some(v) => v case None => ZERO;
    var res := DivUnit(Mul(Mul(previous, excess), ln2DivD), k);
    assert Value(excess) == Param(Value(accuracy), Value(x), Value(xIdeal), Value(ln2DivD)).Excess() by {
      TenToTen();
    }
    LimbProduct(k, previous, excess, ln2DivD);
    LimbDivisions(res, accuracy);
  }

  /** The parameters as the program holds them. */
  function LimbParam(x: BigUint, xIdeal: BigUint, ln2DivD: BigUint, accuracy: BigUint): Param {
    Param(Value(accuracy), Value(x), Value(xIdeal), Value(ln2DivD))
  }

  /** A sign and a magnitude stand for an integer. */
  function SignedValue(positive: bool, sum: BigUint): int {
    if positive then Value(sum) else -(Value(sum) as int)
  }

  /** One step of the accumulator: add on equal signs, else take the smaller from the larger. */
  method Accumulate(positive: bool, sum: BigUint, termPositive: bool, term: BigUint)
    returns (positive': bool, sum': BigUint)
    ensures SignedValue(positive', sum') == SignedValue(positive, sum) + SignedValue(termPositive, term)
  {
    if positive == termPositive {
      return positive, Add(sum, term);
    }
    if AtLeastAs(sum, term) {
      return positive, Sub(sum, term).value;
    }
    return !positive, Sub(term, sum).value;
  }

  lemma AlternatingUnfold(k: nat, p: Param)
    requires 0 < k && p.Valid()
    ensures Alternating(k, p)
         == if k % 2 == 0 then Alternating(k - 1, p) + Term(k, p) else Alternating(k - 1, p) - Term(k, p)
    ensures Term(k, p) == NextTerm(k, Term(k - 1, p), p)
  {
  }

  /** The loop on big integers: a sign-magnitude accumulator with an early break. */
  method ComputeTaylorSeriePart(x: BigUint, xIdeal: BigUint, ln2DivD: BigUint, accuracy: BigUint)
    returns (result: BigUint)
    requires accuracy != [] && accuracy[0] != 0
    ensures Value(accuracy) > 0
    ensures Value(result) == SeriesPart(LimbParam(x, xIdeal, ln2DivD, accuracy))
    ensures |result| > 1 ==> result[0] != 0
  {
    hide Value, TermOnLimbs, NextTerm, Alternating, Term;
    ghost var p := LimbParam(x, xIdeal, ln2DivD, accuracy);
    AccuracyPositive(accuracy, p);
    var lastTerm := accuracy;
    var positive, sum := true, lastTerm;
    for k := 1 to CAP
      invariant Value(lastTerm) == Term(k - 1, p)
      invariant SignedValue(positive, sum) == Alternating(k - 1, p)
    {
      TermOnLimbsIsNextTerm(k, lastTerm, x, xIdeal, ln2DivD, accuracy);
      AlternatingUnfold(k, p);
      lastTerm := TermOnLimbs(k, lastTerm, x, xIdeal, ln2DivD, accuracy);
      ZeroIff(lastTerm);
      if IsZero(lastTerm) {
        ZeroStays(k, CAP - 1, p);
        break;
      }
      positive, sum := Accumulate(positive, sum, k % 2 == 0, lastTerm);
    }
    LstripValue(sum);
    if !positive {
      assert Value(ZERO) == 0 by { ZeroIff(ZERO); }
      return ZERO;
    }
    return Lstrip(sum);
  }

  lemma AccuracyPositive(accuracy: BigUint, p: Param)
    requires accuracy != [] && accuracy[0] != 0 && p.accuracy == Value(accuracy)
    ensures p.Valid() && Term(0, p) == Value(accuracy) && Alternating(0, p) == Value(accuracy)
  {
    ZeroIff(accuracy);
  }

  // ---- The cap -----------------------------------------------------------

  function Pow2(n: nat): (r: nat)
    ensures 0 < r
  {
    if n == 0 then 1 else 2 * Pow2(n - 1)
  }

  lemma {:induction false} Pow2Add(m: nat, n: nat)
    ensures Pow2(m + n) == Pow2(m) * Pow2(n)
  {
    if m > 0 {
      Pow2Add(m - 1, n);
      TimesAssoc(2, Pow2(m - 1), Pow2(n));
    }
  }

  /** How many bits the k-th step may add to a term: 70 <= k * 2^growth. */
  function Growth(k: nat): nat {
    if k <= 1 then 7 else if k == 2 then 6 else if k <= 4 then 5 else if k <= 8 then 4
    else if k <= 17 then 3 else if k <= 34 then 2 else if k <= 69 then 1 else 0
  }

  /** How many bits the k-th step takes from a term: 70 * 2^decay <= k. */
  function Decay(k: nat): nat {
    if k < 140 then 0 else if k < 280 then 1 else 2
  }

  /** Bits of the k-th term for a series that starts from less than 2^30. */
  function Bits(k: nat): nat {
    if k == 0 then 30
    else if k == 1 then 37
    else if k == 2 then 43
    else if k <= 4 then 43 + 5 * (k - 2)
    else if k <= 8 then 53 + 4 * (k - 4)
    else if k <= 17 then 69 + 3 * (k - 8)
    else if k <= 34 then 96 + 2 * (k - 17)
    else if k <= 69 then 130 + (k - 34)
    else if k < 140 then 165
    else if k < 280 then 165 - (k - 139)
    else if k <= 291 then 25 - 2 * (k - 279)
    else 0
  }

  lemma BitsStep(k: nat)
    requires 0 < k
    ensures k < 140 ==> Bits(k) == Bits(k - 1) + Growth(k)
    ensures k >= 140 ==> Bits(k) + Decay(k) >= Bits(k - 1)
    ensures k < 140 ==> 70 <= k * Pow2(Growth(k))
    ensures 70 * Pow2(Decay(k)) <= k || k < 140
  {
    assert Pow2(1) == 2 && Pow2(2) == 4 && Pow2(3) == 8;
    assert Pow2(4) == 16 && Pow2(5) == 32 && Pow2(6) == 64 && Pow2(7) == 128;
  }

  lemma GrowArithmetic(t: nat, k: nat, n: nat, q: nat)
    requires 0 < k && 0 < q && t < n && 70 <= k * q
    ensures t * 70 / k < n * q
  {
    var c := k * q;
    TimesMono(t, 70, c);
    TimesMono(c, t + 1, n);
    TimesPlus(c, t, 1);
    assert n * c == k * (n * q) by {
      TimesAssoc(k, n, q);
      TimesAssoc(n, k, q);
    }
    Below(t * 70, k, n * q);
  }

  lemma DecayArithmetic(t: nat, k: nat, n: nat, q: nat)
    requires 0 < k && 0 < q && t < n * q && 70 * q <= k
    ensures t * 70 / k < n
  {
    var c := 70 * q;
    TimesMono(n, c, k);
    TimesMono(70, t + 1, n * q);
    assert 70 * (n * q) == n * c by {
      TimesAssoc(70, n, q);
      TimesAssoc(n, 70, q);
    }
    Below(t * 70, k, n);
  }

  /** A term is at most 70/k times the one before when z is at most 70. */
  lemma AtMostSeventy(k: nat, previous: nat, p: Param)
    requires 0 < k && p.Valid() && p.Weight() <= 70 * (p.accuracy * p.accuracy)
    ensures NextTerm(k, previous, p) <= previous * 70 / k
  {
    var a, w := p.accuracy * p.accuracy, p.Weight();
    OneTruncation(k, previous, p);
    Positive(p.accuracy, p.accuracy);
    TimesMono(previous, w, 70 * a);
    Monotone(previous * w, previous * (70 * a), k * a);
    SeventyCancel(k, previous, a);
  }

  lemma SeventyCancel(k: nat, previous: nat, a: nat)
    requires 0 < k && 0 < a
    ensures 0 < k * a
    ensures previous * (70 * a) / (k * a) == previous * 70 / k
  {
    SeventyRegroup(previous, a);
    Cancel(previous * 70, k, a);
  }

  lemma SeventyRegroup(previous: nat, a: nat)
    ensures previous * (70 * a) == a * (previous * 70)
  {
  }

  lemma GrowingBits(t: nat, k: nat)
    requires 0 < k < 140 && t < Pow2(Bits(k - 1))
    ensures t * 70 / k < Pow2(Bits(k))
  {
    hide Pow2, Bits;
    BitsStep(k);
    GrowArithmetic(t, k, Pow2(Bits(k - 1)), Pow2(Growth(k)));
    Pow2Add(Bits(k - 1), Growth(k));
  }

  lemma DecayingBits(t: nat, k: nat)
    requires 140 <= k && t < Pow2(Bits(k - 1))
    ensures t * 70 / k < Pow2(Bits(k))
  {
    hide Pow2, Bits;
    BitsStep(k);
    var extra := Bits(k) + Decay(k) - Bits(k - 1);
    Pow2Add(Bits(k - 1), extra);
    TimesMono(Pow2(Bits(k - 1)), 1, Pow2(extra));
    Pow2Add(Bits(k), Decay(k));
    DecayArithmetic(t, k, Pow2(Bits(k)), Pow2(Decay(k)));
  }

  lemma {:induction false} TermBits(k: nat, p: Param)
    requires p.Valid() && p.accuracy < Pow2(30)
    requires p.Weight() <= 70 * (p.accuracy * p.accuracy)
    ensures Term(k, p) < Pow2(Bits(k))
  {
    hide Pow2, NextTerm;
    if k > 0 {
      var t := Term(k - 1, p);
      TermBits(k - 1, p);
      AtMostSeventy(k, t, p);
      if k < 140 {
        GrowingBits(t, k);
      } else {
        DecayingBits(t, k);
      }
    }
  }

  /**
   For a series argument of at most 70 the terms have died out before the cap,
   so a longer loop would give the same sum.
   */
  lemma CapIrrelevant(n: nat, p: Param)
    requires p.Valid() && p.accuracy < Pow2(30)
    requires p.Weight() <= 70 * (p.accuracy * p.accuracy)
    requires CAP - 1 <= n
    ensures Term(292, p) == 0
    ensures Alternating(n, p) == Alternating(CAP - 1, p)
  {
    TermBits(292, p);
    ZeroStays(292, CAP - 1, p);
    ZeroStays(292, n, p);
  }

  // ---- Small arguments ---------------------------------------------------

  lemma NotAboveThePrevious(k: nat, p: Param)
    requires 0 < k && p.Valid() && p.Weight() <= p.accuracy * p.accuracy
    ensures Term(k, p) <= Term(k - 1, p)
  {
    var a, t := p.accuracy * p.accuracy, Term(k - 1, p);
    OneTruncation(k, t, p);
    Positive(p.accuracy, p.accuracy);
    ShrinkingFactor(t, p.Weight(), a, k);
  }

  /**
   While the argument is at most 1 the terms decrease, so the accumulator never
   turns negative and the result is a fraction: no error branch is reached.
   */
  lemma {:induction false} SmallArgument(n: nat, p: Param)
    requires p.Valid() && p.Weight() <= p.accuracy * p.accuracy
    ensures n % 2 == 0 ==> Term(n, p) <= Alternating(n, p) <= p.accuracy
    ensures n % 2 == 1 ==> 0 <= Alternating(n, p) <= p.accuracy - Term(n, p)
  {
    if n > 0 {
      SmallArgument(n - 1, p);
      NotAboveThePrevious(n, p);
    }
  }
}

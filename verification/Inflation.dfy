/** The yearly inflation curve and the payout of one round. */
module Inflation {
  import opened Division
  import opened PerThing
  import opened Taylor
  import opened TaylorError
  import opened Exponential
  import opened Reciprocal
  import opened Truncation

  /** ln(2) in parts per 10^18. */
  const LN2: nat := 693_147_180_559_945_309

  const PERQUINTILL: nat := 1_000_000_000_000_000_000

  /** Milliseconds of a Julian year. */
  const MILLISECONDS_PER_YEAR: nat := 1000 * 3600 * 24 * 36525 / 100

  function FromPercent(m: nat, percent: nat): nat
    requires 0 < m
  {
    FromRational(m, Min(percent, 100), 100)
  }

  /** Every fraction type has an accuracy of a hundred parts at least. */
  lemma OnePercentIsPositive(m: nat)
    requires 100 <= m
    ensures 0 < FromPercent(m, 1)
  {
    FromRationalSmall(m, 1, 100);
    AtLeast(1 * m, 100, 1);
  }

  function SeriesParam(m: nat, stake: nat, idealStake: nat, falloff: nat): (p: Param)
    requires 0 < m && 0 < falloff
    ensures p.Valid() && p.accuracy == m
  {
    Param(m, stake, idealStake, Quotient(FromRational(m, LN2, PERQUINTILL) * m, falloff))
  }

  function ComputeInflation(m: nat, stake: nat, idealStake: nat, falloff: nat): nat
    requires 100 <= m
  {
    OnePercentIsPositive(m);
    if stake <= idealStake then FromRational(m, stake, idealStake)
    else if falloff < FromPercent(m, 1) then 0
    else
      var res := SeriesPart(SeriesParam(m, stake, idealStake, falloff));
      if res <= m then res else 0
  }

  function ComputeINpos(m: nat, i0: nat, iIdeal: nat, x: nat, xIdeal: nat, d: nat): nat
    requires 100 <= m
  {
    var ideal := Times(m, iIdeal, xIdeal);
    SaturatingAdd(m, i0, Times(m, SaturatingSub(ideal, i0), ComputeInflation(m, x, xIdeal, d)))
  }

  function ComputeTotalPayout(staked: nat, tokens: nat, i0: nat, iIdeal: nat, xIdeal: nat, d: nat, duration: nat): nat {
    var m := PERBILL;
    var rate := ComputeINpos(m, FromRational(m, i0, 1000), FromRational(m, iIdeal, 100),
                             FromRational(m, staked, tokens), FromRational(m, xIdeal, 100), FromRational(m, d, 100));
    TimesNumber(m, FromRational(m, duration, MILLISECONDS_PER_YEAR), TimesNumber(m, rate, tokens))
  }

  // ---- The curve ---------------------------------------------------------

  lemma InflationAtMostOne(m: nat, x: nat, xIdeal: nat, d: nat)
    requires 100 <= m
    ensures ComputeInflation(m, x, xIdeal, d) <= m
  {
    FromRationalAtMostOne(m, x, xIdeal);
  }

  lemma InflationAtIdeal(m: nat, xIdeal: nat, d: nat)
    requires 100 <= m && 0 < xIdeal
    ensures ComputeInflation(m, xIdeal, xIdeal, d) == m
  {
    FromRationalOfEqual(m, xIdeal);
  }

  /** The rate never falls below the minimum, never leaves the unit interval and peaks at the ideal stake. */
  lemma PeaksAtIdeal(m: nat, i0: nat, iIdeal: nat, x: nat, xIdeal: nat, d: nat)
    requires 100 <= m && i0 <= m && iIdeal <= m && x <= m && xIdeal <= m
    ensures i0 <= ComputeINpos(m, i0, iIdeal, x, xIdeal, d)
               <= ComputeINpos(m, i0, iIdeal, xIdeal, xIdeal, d)
               <= Max(i0, Times(m, iIdeal, xIdeal)) <= m
    ensures 0 < xIdeal ==> ComputeINpos(m, i0, iIdeal, xIdeal, xIdeal, d) == Max(i0, Times(m, iIdeal, xIdeal))
  {
    var ideal := Times(m, iIdeal, xIdeal);
    var gap := SaturatingSub(ideal, i0);
    var f, g := ComputeInflation(m, x, xIdeal, d), ComputeInflation(m, xIdeal, xIdeal, d);
    TimesAtMost(m, iIdeal, xIdeal);
    InflationAtMostOne(m, x, xIdeal, d);
    InflationAtMostOne(m, xIdeal, xIdeal, d);
    TimesAtMost(m, gap, f);
    TimesAtMost(m, gap, g);
    if xIdeal == 0 {
      Small(iIdeal * xIdeal, m);
      Small(gap * f, m);
      Small(gap * g, m);
    } else {
      InflationAtIdeal(m, xIdeal, d);
      TimesMonotone(m, gap, f, g);
      Exact(gap, m);
    }
  }

  /** The saturating addition of the rate never saturates. */
  lemma NeverSaturates(m: nat, i0: nat, iIdeal: nat, x: nat, xIdeal: nat, d: nat)
    requires 100 <= m && i0 <= m && iIdeal <= m && xIdeal <= m
    ensures ComputeINpos(m, i0, iIdeal, x, xIdeal, d)
         == i0 + Times(m, SaturatingSub(Times(m, iIdeal, xIdeal), i0), ComputeInflation(m, x, xIdeal, d))
  {
    TimesAtMost(m, iIdeal, xIdeal);
    InflationAtMostOne(m, x, xIdeal, d);
    TimesAtMost(m, SaturatingSub(Times(m, iIdeal, xIdeal), i0), ComputeInflation(m, x, xIdeal, d));
  }

  lemma RisesToIdeal(m: nat, i0: nat, iIdeal: nat, x: nat, x': nat, xIdeal: nat, d: nat)
    requires 100 <= m && x <= x' <= xIdeal
    ensures ComputeINpos(m, i0, iIdeal, x, xIdeal, d) <= ComputeINpos(m, i0, iIdeal, x', xIdeal, d)
  {
    var gap := SaturatingSub(Times(m, iIdeal, xIdeal), i0);
    FromRationalMonotone(m, x, x', xIdeal);
    TimesMonotone(m, gap, FromRational(m, x, xIdeal), FromRational(m, x', xIdeal));
  }

  /** A round never pays out more than the tokens there are. */
  lemma PayoutAtMostTokens(staked: nat, tokens: nat, i0: nat, iIdeal: nat, xIdeal: nat, d: nat, duration: nat)
    ensures ComputeTotalPayout(staked, tokens, i0, iIdeal, xIdeal, d, duration) <= tokens
  {
    var m := PERBILL;
    var i, j, x := FromRational(m, i0, 1000), FromRational(m, iIdeal, 100), FromRational(m, staked, tokens);
    var xi, e := FromRational(m, xIdeal, 100), FromRational(m, d, 100);
    var portion := FromRational(m, duration, MILLISECONDS_PER_YEAR);
    FromRationalAtMostOne(m, i0, 1000);
    FromRationalAtMostOne(m, iIdeal, 100);
    FromRationalAtMostOne(m, staked, tokens);
    FromRationalAtMostOne(m, xIdeal, 100);
    FromRationalAtMostOne(m, duration, MILLISECONDS_PER_YEAR);
    PeaksAtIdeal(m, i, j, x, xi, e);
    var rate := ComputeINpos(m, i, j, x, xi, e);
    TimesNumberAtMost(m, rate, tokens);
    TimesNumberAtMost(m, portion, TimesNumber(m, rate, tokens));
  }

  // ---- The series for Perbill --------------------------------------------

  lemma Pow2OfThirty()
    ensures PERBILL < Pow2(30)
  {
    assert Pow2(6) == 64;
    Pow2Add(6, 6);
    Pow2Add(12, 12);
    Pow2Add(24, 6);
  }

  lemma PerbillConstants()
    ensures FromPercent(PERBILL, 1) == 10_000_000
    ensures FromRational(PERBILL, LN2, PERQUINTILL) == 693_147_180
  {
  }

  /** With a supported falloff the series argument is at most 70. */
  lemma ArgumentAtMostSeventy(stake: nat, idealStake: nat, falloff: nat)
    requires stake <= PERBILL && FromPercent(PERBILL, 1) <= falloff
    ensures 0 < falloff
    ensures SeriesParam(PERBILL, stake, idealStake, falloff).Weight() <= 70 * (PERBILL * PERBILL)
  {
    PerbillConstants();
    var q := 693_147_180 * PERBILL / falloff;
    assert q <= 69_314_718_000 by {
      if q > 69_314_718_000 {
        Bounds(693_147_180 * PERBILL, falloff);
        ProductAtLeast(falloff, 10_000_000, q, 69_314_718_001);
      }
    }
    var p := SeriesParam(PERBILL, stake, idealStake, falloff);
    ProductAtLeast(PERBILL, p.Excess(), 69_314_718_000, q);
  }

  lemma ProductAtLeast(a: nat, b: nat, c: nat, d: nat)
    requires b <= a && d <= c
    ensures b * d <= a * c
  {
    TimesMono(b, d, c);
    TimesMono(c, b, a);
  }

  /** For every supported falloff and every stake the terms die out before the cap of the loop. */
  lemma CapNeverReached(stake: nat, idealStake: nat, falloff: nat, n: nat)
    requires stake <= PERBILL && FromPercent(PERBILL, 1) <= falloff && CAP - 1 <= n
    ensures 0 < falloff
    ensures Term(292, SeriesParam(PERBILL, stake, idealStake, falloff)) == 0
    ensures Alternating(n, SeriesParam(PERBILL, stake, idealStake, falloff))
         == Alternating(CAP - 1, SeriesParam(PERBILL, stake, idealStake, falloff))
  {
    ArgumentAtMostSeventy(stake, idealStake, falloff);
    Pow2OfThirty();
    CapIrrelevant(n, SeriesParam(PERBILL, stake, idealStake, falloff));
  }

  /** While the series argument is at most 1 the partial sums stay within the unit interval. */
  lemma SmallArgumentFits(p: Param)
    requires p.Valid() && p.Weight() <= p.accuracy * p.accuracy
    ensures SeriesPart(p) <= p.accuracy
  {
    SmallArgument(CAP - 1, p);
  }

  lemma LargeArgument(p: Param)
    requires p.Valid() && p.Weight() > p.accuracy * p.accuracy
    ensures 1.0 <= Z(p)
  {
    Positive(p.accuracy, p.accuracy);
    var w, a := p.Weight() as real, (p.accuracy * p.accuracy) as real;
    QuotientAbove(w, a);
  }

  lemma QuotientAbove(w: real, a: real)
    requires 0.0 < a <= w
    ensures 1.0 <= w / a
  {
    var v := w / a;
    assert v * a == w;
    if v < 1.0 {
      PositiveTimes(1.0 - v, a);
    }
  }

  lemma SeriesFits(p: Param)
    requires 400 <= p.accuracy && p.Weight() <= 70 * (p.accuracy * p.accuracy)
    ensures SeriesPart(p) <= p.accuracy
  {
    hide SeriesPart, Z, ExactAlternating;
    if p.Weight() <= p.accuracy * p.accuracy {
      SmallArgumentFits(p);
    } else {
      LargeArgument(p);
      SeriesAccurate(p);
    }
  }

  lemma SeriesBranch(m: nat, stake: nat, idealStake: nat, falloff: nat)
    requires 400 <= m && idealStake < stake && FromPercent(m, 1) <= falloff
    requires 0 < falloff && SeriesParam(m, stake, idealStake, falloff).Weight() <= 70 * (m * m)
    ensures var p := SeriesParam(m, stake, idealStake, falloff);
      && ComputeInflation(m, stake, idealStake, falloff) == SeriesPart(p)
      && Abs(ComputeInflation(m, stake, idealStake, falloff) as real - ExactAlternating(CAP - 1, p)) <= 150.0
  {
    hide ExactAlternating, SeriesPart, Z, SeriesParam, FromRational;
    var p := SeriesParam(m, stake, idealStake, falloff);
    SeriesFits(p);
    SeriesAccurate(p);
  }

  /** `c` units of accuracy `m` are the number `x`, up to some units. */
  ghost predicate WithinUnits(c: nat, m: nat, x: real, units: real) { Abs(c as real - m as real * x) <= units }

  /** excess * ln 2 / falloff, with the quotient of the last two truncated to the accuracy. */
  ghost function TruncatedArgument(m: nat, excess: nat, falloff: nat, ln2: nat): real
    requires 0 < m && 0 < falloff
  {
    (excess * (ln2 * m / falloff)) as real / (m * m) as real
  }

  /**
   On the falling branch, for a supported falloff and an argument of at most 70,
   no error branch is taken and the curve is within 150 units of the exact
   alternating series at (stake - ideal) times the truncated ln 2 over falloff,
   however large its terms grow.
   */
  lemma FallingBranchAccurate(m: nat, stake: nat, idealStake: nat, falloff: nat, ln2: nat)
    requires 400 <= m && idealStake < stake && 0 < falloff && FromPercent(m, 1) <= falloff
    requires ln2 == FromRational(m, 693_147_180_559_945_309, 1_000_000_000_000_000_000)
    requires (stake - idealStake) * (ln2 * m / falloff) <= 70 * (m * m)
    ensures WithinUnits(ComputeInflation(m, stake, idealStake, falloff), m,
                        Sum(299, -TruncatedArgument(m, stake - idealStake, falloff, ln2)), 150.0)
  {
    hide ExactAlternating, SeriesPart, FromRational, ComputeInflation, WithinUnits, Exponential.Product;
    var p := SeriesParam(m, stake, idealStake, falloff);
    SeriesBranch(m, stake, idealStake, falloff);
    ExactIsSum(CAP - 1, p);
    assert p.ln2DivD == ln2 * m / falloff;
    var z := TruncatedArgument(m, stake - idealStake, falloff, ln2);
    assert Z(p) == z;
    Within(ComputeInflation(m, stake, idealStake, falloff), m, Sum(299, -z), ExactAlternating(CAP - 1, p));
  }

  lemma Within(c: nat, m: nat, x: real, exact: real)
    requires exact == Exponential.Product(m as real, x) && Abs(c as real - exact) <= 150.0
    ensures WithinUnits(c, m, x, 150.0)
  {
  }

  lemma PerbillReciprocal(p: Param)
    requires p.accuracy == PERBILL && p.Weight() <= 70 * (PERBILL * PERBILL)
    ensures 1.0 <= Sum(598, Z(p))
    ensures Abs(ExactAlternating(CAP - 1, p) - 1_000_000_000.0 / Sum(598, Z(p))) <= 1.0
  {
    hide ExactAlternating, Sum, Z, Exponential.Product;
    ArgumentAtMost(p, 70);
    AlternatingLocated(Z(p));
    ExactIsSum(CAP - 1, p);
    Billionfold(Sum(CAP - 1, -Z(p)), Sum(598, Z(p)));
  }

  lemma Billionfold(s: real, all: real)
    requires 1.0 <= all && Abs(s - 1.0 / all) <= 0.000_000_000_01
    ensures Abs(Exponential.Product(PERBILL as real, s) - 1_000_000_000.0 / all) <= 1.0
  {
    var r := 1.0 / all;
    assert 1_000_000_000.0 / all == 1_000_000_000.0 * r;
  }

  /**
   For Perbill, every supported falloff and every stake above the ideal one: the
   curve is one over the growing exponential series, within 151 of 10^9 units.
   */
  lemma PerbillCurve(stake: nat, idealStake: nat, falloff: nat)
    requires idealStake < stake <= PERBILL && FromPercent(PERBILL, 1) <= falloff
    ensures 0 < falloff
    ensures var z := Z(SeriesParam(PERBILL, stake, idealStake, falloff));
      && 1.0 <= Sum(598, z)
      && Abs(ComputeInflation(PERBILL, stake, idealStake, falloff) as real - 1_000_000_000.0 / Sum(598, z)) <= 151.0
  {
    hide ExactAlternating, SeriesPart, Z, SeriesParam, FromPercent, ComputeInflation, Sum;
    ArgumentAtMostSeventy(stake, idealStake, falloff);
    SeriesBranch(PERBILL, stake, idealStake, falloff);
    PerbillReciprocal(SeriesParam(PERBILL, stake, idealStake, falloff));
  }
}

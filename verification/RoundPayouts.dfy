/**
 The payout of a round in figures: how it follows the curve, and the values that
 the program's own examples give for it.
 */
module RoundPayouts {
  import opened Division
  import opened PerThing
  import opened Taylor
  import opened TaylorError
  import opened Exponential
  import opened Reciprocal
  import opened Inflation
  import opened Curve
  import opened Staking
  import opened Shares

  /** The pallet's parameters as fractions. */
  lemma PalletParameters()
    ensures FromRational(PERBILL, 25, 1000) == 25_000_000
    ensures FromRational(PERBILL, 20, 100) == 200_000_000
    ensures FromRational(PERBILL, 50, 100) == 500_000_000
    ensures FromRational(PERBILL, 5, 100) == 50_000_000
  {
    FromRationalSmall(PERBILL, 25, 1000);
    FromRationalSmall(PERBILL, 20, 100);
    FromRationalSmall(PERBILL, 50, 100);
    FromRationalSmall(PERBILL, 5, 100);
  }

  /** The rate between 2.5% and 10%, along the curve. */
  lemma PalletRate(x: nat)
    ensures var c := ComputeInflation(PERBILL, x, 500_000_000, 50_000_000);
      && c <= PERBILL
      && ComputeINpos(PERBILL, 25_000_000, 200_000_000, x, 500_000_000, 50_000_000)
         == 25_000_000 + 75_000_000 * c / PERBILL
  {
    hide ComputeInflation;
    InflationAtMostOne(PERBILL, x, 500_000_000, 50_000_000);
  }

  /** The payout the program's examples call for. */
  function Example(staked: nat, tokens: nat, duration: nat): nat {
    ComputeTotalPayout(staked, tokens, 25, 20, 50, 5, duration)
  }

  lemma ExampleIs(staked: nat, tokens: nat, duration: nat)
    ensures var c := ComputeInflation(PERBILL, FromRational(PERBILL, staked, tokens), 500_000_000, 50_000_000);
      Example(staked, tokens, duration)
      == TimesNumber(PERBILL, FromRational(PERBILL, duration, 31_557_600_000),
                     TimesNumber(PERBILL, 25_000_000 + 75_000_000 * c / PERBILL, tokens))
  {
    hide FromRational, TimesNumber, ComputeINpos, ComputeInflation;
    PalletParameters();
    PalletRate(FromRational(PERBILL, staked, tokens));
  }

  // ---- Along the curve ---------------------------------------------------

  lemma RateNear(c: nat, r: nat)
    requires r == 25_000_000 + 75_000_000 * c / PERBILL
    ensures Abs(r as real - 1_000_000_000.0 * (0.025 + 0.075 * (c as real / 1_000_000_000.0))) <= 1.0
  {
    var q := 75_000_000 * c / PERBILL;
    Bounds(75_000_000 * c, PERBILL);
    assert PERBILL * q <= 75_000_000 * c < PERBILL * q + PERBILL;
  }

  /** A small difference, times a fraction. */
  lemma FractionOf(a: real, b: real, portion: real, e: real)
    requires Abs(a - b) <= e && 0.0 <= portion <= 1.0
    ensures Abs(Product(a, portion) - Product(b, portion)) <= e
  {
    hide Product;
    AbsScale(a - b, e, portion);
    ProductMono(portion, 1.0, e);
    ProductSwap(portion, e);
    ProductSwap(1.0, e);
    ProductOfOne(e);
    ProductSum(portion, b, a - b);
    assert b + (a - b) == a;
    ProductSwap(portion, a);
    ProductSwap(portion, b);
  }

  lemma PortionAtMostOne(v: nat, whole: nat)
    ensures 0.0 <= PartOf(v, whole) <= 1.0
  {
    var n, d := Min(v, Max(whole, 1)) as real, Max(whole, 1) as real;
    QuotientBelow(n, d, 1.0);
    NonnegativeQuotient(n, d);
  }

  lemma YearlyNear(c: nat, r: nat, issuance: nat)
    requires r == 25_000_000 + 75_000_000 * c / PERBILL && c <= PERBILL
    ensures Abs(TimesNumber(PERBILL, r, issuance) as real
                - Product(issuance as real, 0.025 + 0.075 * (c as real / 1_000_000_000.0)))
         <= 0.5 + 0.000_000_001 * issuance as real
    ensures TimesNumber(PERBILL, r, issuance) <= issuance
  {
    hide TimesNumber;
    RateNear(c, r);
    ShareNear(r, 0.025 + 0.075 * (c as real / 1_000_000_000.0), issuance, 1.0);
    Billionth(issuance as real, 1.0);
    TimesNumberAtMost(PERBILL, r, issuance);
  }

  lemma Billionth(a: real, e: real)
    ensures a * (e / 1_000_000_000.0) == 0.000_000_001 * e * a
  {
  }

  /** Of a yearly amount, the part that a round takes of the year. */
  lemma PortionNear(blocks: nat, y: nat)
    ensures var portion := PartOf(blocks * 6000, 31_557_600_000);
      Abs(TimesNumber(PERBILL, FromRational(PERBILL, blocks * 6000, 31_557_600_000), y) as real
          - Product(y as real, portion)) <= 0.5 + 0.000_000_003 * y as real
  {
    hide TimesNumber, FromRational, PartOf;
    FractionNear(blocks * 6000, 31_557_600_000);
    ShareNear(FromRational(PERBILL, blocks * 6000, 31_557_600_000), PartOf(blocks * 6000, 31_557_600_000), y, 3.0);
    Billionth(y as real, 3.0);
  }

  /**
   The payout of a round: the issuance, times 2.5% plus 7.5% of the curve at the
   staked part of it, times the part of the year the round takes; up to one unit
   and four parts in 10^9 of the issuance.
   */
  lemma PayoutFollowsTheCurve(blocks: nat, staked: nat, issuance: nat)
    ensures var x := FromRational(PERBILL, staked, issuance);
      var c := ComputeInflation(PERBILL, x, 500_000_000, 50_000_000);
      var yearly := Product(issuance as real, 0.025 + 0.075 * (c as real / 1_000_000_000.0));
      && Abs(x as real - 1_000_000_000.0 * PartOf(staked, issuance)) <= 3.0
      && Abs(RoundPayout(blocks)(staked, issuance) as real - Product(yearly, PartOf(blocks * 6000, 31_557_600_000)))
         <= 1.0 + 0.000_000_004 * issuance as real
  {
    hide FromRational, TimesNumber, ComputeTotalPayout, ComputeInflation, PartOf, Product;
    var x := FromRational(PERBILL, staked, issuance);
    var c := ComputeInflation(PERBILL, x, 500_000_000, 50_000_000);
    var r := 25_000_000 + 75_000_000 * c / PERBILL;
    var y := TimesNumber(PERBILL, r, issuance);
    var yearly := Product(issuance as real, 0.025 + 0.075 * (c as real / 1_000_000_000.0));
    FractionNear(staked, issuance);
    ExampleIs(staked, issuance, blocks * 6000);
    PalletRate(x);
    YearlyNear(c, r, issuance);
    PortionNear(blocks, y);
    PortionAtMostOne(blocks * 6000, 31_557_600_000);
    FractionOf(y as real, yearly, PartOf(blocks * 6000, 31_557_600_000), 0.5 + 0.000_000_001 * issuance as real);
  }

  // ---- The program's examples --------------------------------------------

  lemma Portions()
    ensures FromRational(PERBILL, 31_536_000_000, 31_557_600_000) == 999_315_537
    ensures FromRational(PERBILL, 86_400_000, 31_557_600_000) == 2_737_850
    ensures FromRational(PERBILL, 21_600_000, 31_557_600_000) == 684_462
    ensures FromRational(PERBILL, 3_600_000, 31_557_600_000) == 114_077
  {
  }

  /** The amount for a whole year when so many of 100000 tokens are staked. */
  function Yearly(staked: nat): nat {
    var c := ComputeInflation(PERBILL, 10_000 * staked, 500_000_000, 50_000_000);
    TimesNumber(PERBILL, 25_000_000 + 75_000_000 * c / PERBILL, 100_000)
  }

  lemma StakedPart(staked: nat)
    requires staked <= 100_000
    ensures FromRational(PERBILL, staked, 100_000) == 10_000 * staked
  {
    hide FromRational;
    FromRationalSmall(PERBILL, staked, 100_000);
    assert 1_000_000_000 * staked == 100_000 * (10_000 * staked);
    Unique(PERBILL * staked, 100_000, 10_000 * staked);
  }

  lemma FromYearly(staked: nat, duration: nat)
    requires staked <= 100_000
    ensures Example(staked, 100_000, duration)
         == TimesNumber(PERBILL, FromRational(PERBILL, duration, 31_557_600_000), Yearly(staked))
  {
    hide ComputeInflation, FromRational, TimesNumber, Example;
    StakedPart(staked);
    ExampleIs(staked, 100_000, duration);
  }

  lemma RisingCurve(staked: nat)
    requires staked <= 50_000
    ensures ComputeInflation(PERBILL, 10_000 * staked, 500_000_000, 50_000_000) == 20_000 * staked
  {
    hide ComputeInflation;
    RisesInALine(PERBILL, 10_000 * staked, 500_000_000, 50_000_000);
  }

  lemma RisingYears()
    ensures Yearly(0) == 2_500 && Yearly(5_000) == 3_250 && Yearly(25_000) == 6_250
    ensures Yearly(40_000) == 8_500 && Yearly(50_000) == 10_000
  {
    hide ComputeInflation;
    RisingCurve(0);
    RisingCurve(5_000);
    RisingCurve(25_000);
    RisingCurve(40_000);
    RisingCurve(50_000);
  }

  /** `k` falloffs of 5% above one half the curve is near a power of two. */
  lemma FallingCurve(k: nat, c: nat)
    requires k <= 10 && c == ComputeInflation(PERBILL, 500_000_000 + k * 50_000_000, 500_000_000, 50_000_000)
    ensures Abs(c as real - 1_000_000_000.0 * (1.0 / Pow2(k) as real)) <= 155.0
  {
    hide ComputeInflation, Pow2;
    PowersOfTwo(k, 500_000_000, 50_000_000);
  }

  lemma YearAt60()
    ensures Yearly(60_000) == 4_375
  {
    hide ComputeInflation;
    var c := ComputeInflation(PERBILL, 600_000_000, 500_000_000, 50_000_000);
    FallingCurve(2, c);
    assert Pow2(2) == 4;
    assert 249_999_845 <= c <= 250_000_155;
  }

  lemma YearAt75()
    ensures Yearly(75_000) == 2_734
  {
    hide ComputeInflation;
    var c := ComputeInflation(PERBILL, 750_000_000, 500_000_000, 50_000_000);
    FallingCurve(5, c);
    assert Pow2(5) == 32;
    assert 31_249_845 <= c <= 31_250_155;
  }

  lemma YearAt95()
    ensures Yearly(95_000) == 2_515
  {
    hide ComputeInflation;
    var c := ComputeInflation(PERBILL, 950_000_000, 500_000_000, 50_000_000);
    FallingCurve(9, c);
    assert Pow2(6) == 64;
    Pow2Add(6, 3);
    assert 1_952_970 <= c <= 1_953_280;
  }

  lemma YearAt100()
    ensures Yearly(100_000) == 2_507
  {
    hide ComputeInflation;
    var c := ComputeInflation(PERBILL, 1_000_000_000, 500_000_000, 50_000_000);
    FallingCurve(10, c);
    assert Pow2(5) == 32;
    Pow2Add(5, 5);
    assert 976_407 <= c <= 976_718;
  }

  const YEAR: nat := 365 * 24 * 60 * 60 * 1000

  const DAY: nat := 24 * 60 * 60 * 1000

  const SIX_HOURS: nat := 6 * 60 * 60 * 1000

  const HOUR: nat := 60 * 60 * 1000

  lemma Rising()
    ensures Example(0, 100_000, YEAR) == 2_498 && Example(5_000, 100_000, YEAR) == 3_248
    ensures Example(25_000, 100_000, YEAR) == 6_246 && Example(40_000, 100_000, YEAR) == 8_494
    ensures Example(50_000, 100_000, YEAR) == 9_993
  {
    hide FromRational, Example, Yearly;
    Portions();
    RisingYears();
    FromYearly(0, YEAR);
    FromYearly(5_000, YEAR);
    FromYearly(25_000, YEAR);
    FromYearly(40_000, YEAR);
    FromYearly(50_000, YEAR);
  }

  lemma Falling()
    ensures Example(60_000, 100_000, YEAR) == 4_372 && Example(75_000, 100_000, YEAR) == 2_732
    ensures Example(95_000, 100_000, YEAR) == 2_513 && Example(100_000, 100_000, YEAR) == 2_505
  {
    hide FromRational, Example, Yearly;
    Portions();
    YearAt60();
    YearAt75();
    YearAt95();
    YearAt100();
    FromYearly(60_000, YEAR);
    FromYearly(75_000, YEAR);
    FromYearly(95_000, YEAR);
    FromYearly(100_000, YEAR);
  }

  lemma OneDay()
    ensures Example(0, 100_000, DAY) == 7 && Example(25_000, 100_000, DAY) == 17
    ensures Example(50_000, 100_000, DAY) == 27 && Example(100_000, 100_000, DAY) == 7
  {
    hide FromRational, Example, Yearly;
    Portions();
    RisingYears();
    YearAt100();
    FromYearly(0, DAY);
    FromYearly(25_000, DAY);
    FromYearly(50_000, DAY);
    FromYearly(100_000, DAY);
  }

  lemma SixHours()
    ensures Example(0, 100_000, SIX_HOURS) == 2 && Example(25_000, 100_000, SIX_HOURS) == 4
    ensures Example(50_000, 100_000, SIX_HOURS) == 7 && Example(100_000, 100_000, SIX_HOURS) == 2
  {
    hide FromRational, Example, Yearly;
    Portions();
    RisingYears();
    YearAt100();
    FromYearly(0, SIX_HOURS);
    FromYearly(25_000, SIX_HOURS);
    FromYearly(50_000, SIX_HOURS);
    FromYearly(100_000, SIX_HOURS);
  }

  lemma Large()
    ensures Example(2_500_000_000_000_000_000_000_000_000, 5_000_000_000_000_000_000_000_000_000, HOUR)
         == 57_038_500_000_000_000_000_000
  {
    hide ComputeInflation, Example;
    Portions();
    assert FromRational(PERBILL, 2_500_000_000_000_000_000_000_000_000, 5_000_000_000_000_000_000_000_000_000)
        == 500_000_000;
    hide FromRational;
    ExampleIs(2_500_000_000_000_000_000_000_000_000, 5_000_000_000_000_000_000_000_000_000, HOUR);
    InflationAtIdeal(PERBILL, 500_000_000, 50_000_000);
  }

  /** All eighteen payouts that the program's tests list. */
  lemma DocumentedPayouts()
    ensures Example(0, 100_000, YEAR) == 2_498 && Example(5_000, 100_000, YEAR) == 3_248
    ensures Example(25_000, 100_000, YEAR) == 6_246 && Example(40_000, 100_000, YEAR) == 8_494
    ensures Example(50_000, 100_000, YEAR) == 9_993 && Example(60_000, 100_000, YEAR) == 4_372
    ensures Example(75_000, 100_000, YEAR) == 2_732 && Example(95_000, 100_000, YEAR) == 2_513
    ensures Example(100_000, 100_000, YEAR) == 2_505
    ensures Example(0, 100_000, DAY) == 7 && Example(25_000, 100_000, DAY) == 17
    ensures Example(50_000, 100_000, DAY) == 27 && Example(100_000, 100_000, DAY) == 7
    ensures Example(0, 100_000, SIX_HOURS) == 2 && Example(25_000, 100_000, SIX_HOURS) == 4
    ensures Example(50_000, 100_000, SIX_HOURS) == 7 && Example(100_000, 100_000, SIX_HOURS) == 2
    ensures Example(2_500_000_000_000_000_000_000_000_000, 5_000_000_000_000_000_000_000_000_000, HOUR)
         == 57_038_500_000_000_000_000_000
  {
    hide Example;
    Rising();
    Falling();
    OneDay();
    SixHours();
    Large();
  }
}

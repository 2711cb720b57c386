/**
 What one exposure is credited, against the exact shares: half of the own stake
 and half of the points for the collator, the whole stake for each other voter.
 */
module Shares {
  import opened Entities
  import opened PerThing
  import opened Staking
  import opened TaylorError
  import opened Exponential
  import opened Payouts

  /** The exact part of a whole; nothing is more than the whole, and nothing of nothing counts as one unit. */
  ghost function PartOf(v: nat, whole: nat): real {
    Min(v, Max(whole, 1)) as real / Max(whole, 1) as real
  }

  lemma QuotientNear(q: real, p: real, r: real, low: real, high: real)
    requires 0.0 < q
    requires 1_000_000_000.0 * p <= q * r + low * q && q * r <= 1_000_000_000.0 * p + high * q
    ensures -high <= 1_000_000_000.0 * (p / q) - r <= low
  {
    var x := p / q;
    assert x * q == p;
    var y := 1_000_000_000.0 * x - r;
    assert y * q == 1_000_000_000.0 * p - q * r;
    if y > low { PositiveTimes(y - low, q); }
    if y < -high { PositiveTimes(-high - y, q); }
  }

  /** A computed fraction is within three units of the exact part. */
  lemma FractionNear(v: nat, whole: nat)
    ensures Abs(FromRational(PERBILL, v, whole) as real - 1_000_000_000.0 * PartOf(v, whole)) <= 3.0
  {
    hide FromRational;
    var q, p := Max(whole, 1), Min(v, Max(whole, 1));
    var r := FromRational(PERBILL, p, q);
    SameFraction(v, whole);
    FromRationalNear(PERBILL, p, q);
    CastProduct(q, r);
    QuotientNear(q as real, p as real, r as real, 3.0, 2.0);
  }

  lemma SameFraction(v: nat, whole: nat)
    ensures FromRational(PERBILL, v, whole) == FromRational(PERBILL, Min(v, Max(whole, 1)), Max(whole, 1))
  {
    hide Factor;
  }

  /** A fraction of a number, rounded to the nearest. */
  lemma NumberNear(part: nat, n: nat)
    ensures Abs(TimesNumber(PERBILL, part, n) as real - Product(n as real, part as real / 1_000_000_000.0)) <= 0.5
  {
    hide TimesNumber;
    TimesNumberNearest(PERBILL, part, n);
    CastProduct(n, part);
    var x := n as real * (part as real / 1_000_000_000.0);
    assert 1_000_000_000.0 * x == n as real * part as real;
  }

  lemma Amplified(amount: real, units: real, target: real, e: real)
    requires 0.0 <= amount && Abs(units - 1_000_000_000.0 * target) <= e
    ensures Abs(Product(amount, units / 1_000_000_000.0) - Product(amount, target))
         <= Product(amount, e / 1_000_000_000.0)
  {
    var d, f := units / 1_000_000_000.0 - target, e / 1_000_000_000.0;
    assert Abs(d) <= f;
    hide Product;
    AbsScale(d, f, amount);
    ProductSwap(f, amount);
    ProductSum(amount, target, d);
    assert target + d == units / 1_000_000_000.0;
  }

  lemma Triangle(x: real, y: real, z: real, d: real, e: real)
    requires Abs(x - y) <= d && Abs(y - z) <= e
    ensures Abs(x - z) <= d + e
  {
  }

  /** From a fraction that is within `e` units of a target to the number it makes of an amount. */
  lemma ShareNear(part: nat, target: real, amount: nat, e: real)
    requires Abs(part as real - 1_000_000_000.0 * target) <= e
    ensures Abs(TimesNumber(PERBILL, part, amount) as real - Product(amount as real, target))
         <= 0.5 + Product(amount as real, e / 1_000_000_000.0)
  {
    hide TimesNumber, Product;
    var a, units := amount as real, part as real;
    NumberNear(part, amount);
    Amplified(a, units, target, e);
    Triangle(TimesNumber(PERBILL, part, amount) as real, Product(a, units / 1_000_000_000.0), Product(a, target),
             0.5, Product(a, e / 1_000_000_000.0));
  }

  /** Half of a fraction, truncated. */
  lemma HalfNear(v: nat, whole: nat)
    ensures var half := Times(PERBILL, FromRational(PERBILL, 50, 100), FromRational(PERBILL, v, whole));
      Abs(half as real - 1_000_000_000.0 * (PartOf(v, whole) / 2.0)) <= 2.0
  {
    HalfIsHalf();
    FractionNear(v, whole);
    hide FromRational, PartOf;
    var f := FromRational(PERBILL, v, whole);
    var half := Times(PERBILL, 500_000_000, f);
    assert 2 * half <= f <= 2 * half + 1;
  }

  /** Rounding: half a unit, and what three parts in 10^9 of the amount come to. */
  ghost function Tolerance(pay: Payout): real { 0.5 + 0.000_000_003 * pay.amount as real }

  lemma ToleranceCovers(pay: Payout, e: real)
    requires 0.0 <= e <= 3.0
    ensures 0.5 + pay.amount as real * (e / 1_000_000_000.0) <= Tolerance(pay)
  {
    RealScale(e / 1_000_000_000.0, 0.000_000_003, pay.amount as real);
  }

  /** The collator's own stake earns half its part of the amount. */
  lemma OwnShare(pay: Payout, own: nat)
    ensures Abs(pay.ExposurePart(own) as real
                - pay.amount as real * (PartOf(own, pay.totalStake) / 2.0)) <= Tolerance(pay)
  {
    hide FromRational, TimesNumber, Times, PartOf, Tolerance;
    ToleranceCovers(pay, 2.0);
    HalfNear(own, pay.totalStake);
    ShareNear(Times(PERBILL, FromRational(PERBILL, 50, 100), FromRational(PERBILL, own, pay.totalStake)),
              PartOf(own, pay.totalStake) / 2.0, pay.amount, 2.0);
  }

  function PointsOf(pay: Payout, c: Account): nat { if c in pay.points then pay.points[c] else 0 }

  /** Its blocks earn half the part of their points. */
  lemma CommissionShare(pay: Payout, c: Account)
    ensures Abs(pay.CommissionPart(c) as real
                - pay.amount as real * (PartOf(PointsOf(pay, c), pay.totalPoints) / 2.0)) <= Tolerance(pay)
  {
    hide FromRational, TimesNumber, Times, PartOf, Tolerance;
    ToleranceCovers(pay, 2.0);
    HalfNear(PointsOf(pay, c), pay.totalPoints);
    ShareNear(pay.CommissionPerbill(c), PartOf(PointsOf(pay, c), pay.totalPoints) / 2.0, pay.amount, 2.0);
  }

  /** The exact share of another voter. */
  ghost function FairShare(pay: Payout, value: nat): real { pay.amount as real * PartOf(value, pay.totalStake) }

  /** Another voter's stake earns its whole part. */
  lemma NominatorShare(pay: Payout, value: nat)
    ensures Abs(pay.NominatorPart(value) as real - FairShare(pay, value)) <= Tolerance(pay)
  {
    hide FromRational, TimesNumber, PartOf, Tolerance;
    ToleranceCovers(pay, 3.0);
    FractionNear(value, pay.totalStake);
    ShareNear(FromRational(PERBILL, value, pay.totalStake), PartOf(value, pay.totalStake), pay.amount, 3.0);
  }

  // ---- One exposure ------------------------------------------------------

  /** The exact shares an exposure gives an account, without rounding and without a minimum. */
  ghost function FairShares(pay: Payout, others: seq<Share>, a: Account): real {
    if others == [] then 0.0
    else
      var last := others[|others| - 1];
      FairShares(pay, others[..|others| - 1], a)
      + (if last.who == a then FairShare(pay, last.value) else 0.0)
  }

  /** The exact share of the collator: half for its own stake and half for its points. */
  ghost function FairPart(pay: Payout, c: Account, own: nat): real {
    pay.amount as real * (PartOf(own, pay.totalStake) / 2.0)
    + pay.amount as real * (PartOf(PointsOf(pay, c), pay.totalPoints) / 2.0)
  }

  ghost function FairCredit(pay: Payout, c: Account, e: Exposure, a: Account): real {
    (if c == a then FairPart(pay, c, e.own) else 0.0) + FairShares(pay, e.others, a)
  }

  /** How many of the shares are the account's. */
  function Occurs(others: seq<Share>, a: Account): nat {
    if others == [] then 0 else Occurs(others[..|others| - 1], a) + (if others[|others| - 1].who == a then 1 else 0)
  }

  /** The number of computed parts, and of payments made of them. */
  function Parts(c: Account, e: Exposure, a: Account): nat { (if c == a then 2 else 0) + Occurs(e.others, a) }

  function Payments(c: Account, e: Exposure, a: Account): nat { (if c == a then 1 else 0) + Occurs(e.others, a) }

  /** A payment is the whole amount if that exceeds the minimum, and nothing otherwise. */
  lemma MintedBounds(pay: Payout, v: nat)
    ensures pay.Minted(v) == v || (pay.Minted(v) == 0 && v <= pay.minimum)
    ensures pay.Minted(v) == 0 <==> v <= pay.minimum || v == 0
    ensures v > pay.minimum ==> pay.Minted(v) == v
  {
  }

  ghost function Multiple(n: nat, t: real): real { n as real * t }

  lemma MultipleSum(n: nat, k: nat, t: real)
    ensures Multiple(n + k, t) == Multiple(n, t) + Multiple(k, t)
    ensures Multiple(0, t) == 0.0 && Multiple(1, t) == t
  {
    assert (n + k) as real == n as real + k as real;
  }

  /** `x` is `fair` up to `parts` roundings, and may lack up to `payments` minima. */
  ghost predicate Close(pay: Payout, x: nat, fair: real, parts: nat, payments: nat) {
    fair - Multiple(parts, Tolerance(pay)) - Multiple(payments, pay.minimum as real)
    <= x as real
    <= fair + Multiple(parts, Tolerance(pay))
  }

  lemma CloseStep(pay: Payout, x: nat, fair: real, parts: nat, payments: nat, v: nat, share: real, more: nat)
    requires Close(pay, x, fair, parts, payments)
    requires Abs(v as real - share) <= Multiple(more, Tolerance(pay))
    ensures Close(pay, x + pay.Minted(v), fair + share, parts + more, payments + 1)
  {
    hide Multiple, Payout.Minted, Tolerance;
    MintedBounds(pay, v);
    MultipleSum(parts, more, Tolerance(pay));
    MultipleSum(payments, 1, pay.minimum as real);
  }

  lemma CloseNothing(pay: Payout)
    ensures Close(pay, 0, 0.0, 0, 0)
  {
    hide Multiple, Tolerance;
    MultipleSum(0, 0, Tolerance(pay));
    MultipleSum(0, 0, pay.minimum as real);
  }

  lemma {:induction false} SharesClose(pay: Payout, others: seq<Share>, a: Account)
    ensures Close(pay, pay.SharesTo(others, a), FairShares(pay, others, a), Occurs(others, a), Occurs(others, a))
  {
    if others == [] {
      CloseNothing(pay);
    } else {
      hide Close, Tolerance, FairShare, Payout.NominatorPart, Payout.Minted, Multiple;
      var init, last := others[..|others| - 1], others[|others| - 1];
      SharesClose(pay, init, a);
      if last.who == a {
        NominatorShare(pay, last.value);
        MultipleSum(0, 1, Tolerance(pay));
        CloseStep(pay, pay.SharesTo(init, a), FairShares(pay, init, a), Occurs(init, a), Occurs(init, a),
                  pay.NominatorPart(last.value), FairShare(pay, last.value), 1);
      }
    }
  }

  /**
   What one exposure credits to an account is its exact share: half for the own
   stake and half for the points if it is the collator, all of each of its
   shares; up to the rounding of each part and the minimum of each payment.
   */
  lemma CreditIsFair(pay: Payout, c: Account, e: Exposure, a: Account)
    ensures Close(pay, pay.CreditFrom(c, e, a), FairCredit(pay, c, e, a), Parts(c, e, a), Payments(c, e, a))
  {
    hide Close, Tolerance, FairPart, Multiple, FairShares;
    hide Payout.Minted, Payout.ExposurePart, Payout.CommissionPart, Payout.SharesTo;
    SharesClose(pay, e.others, a);
    if c == a {
      CollatorParts(pay, c, e.own);
      CloseStep(pay, pay.SharesTo(e.others, a), FairShares(pay, e.others, a), Occurs(e.others, a), Occurs(e.others, a),
                pay.ExposurePart(e.own) + pay.CommissionPart(c), FairPart(pay, c, e.own), 2);
    }
  }

  lemma CollatorParts(pay: Payout, c: Account, own: nat)
    ensures Abs((pay.ExposurePart(own) + pay.CommissionPart(c)) as real - FairPart(pay, c, own))
         <= Multiple(2, Tolerance(pay))
  {
    hide Tolerance, PartOf, Multiple, Payout.ExposurePart, Payout.CommissionPart;
    OwnShare(pay, own);
    CommissionShare(pay, c);
    MultipleSum(1, 1, Tolerance(pay));
  }

  // ---- The minimum -------------------------------------------------------

  lemma {:induction false} NoShareIff(pay: Payout, others: seq<Share>, a: Account)
    ensures pay.SharesTo(others, a) == 0 <==>
      forall i :: 0 <= i < |others| && others[i].who == a ==> pay.Minted(pay.NominatorPart(others[i].value)) == 0
  {
    hide Payout.NominatorPart, Payout.Minted;
    if others != [] {
      var init := others[..|others| - 1];
      NoShareIff(pay, init, a);
      assert forall i :: 0 <= i < |init| ==> init[i] == others[i];
    }
  }

  /**
   When an exposure credits an account nothing: its collator's two parts together,
   and each of its shares, are at or below the minimum (or are nothing).
   */
  lemma SuppressedIff(pay: Payout, c: Account, e: Exposure, a: Account)
    ensures pay.CreditFrom(c, e, a) == 0 <==>
      && (c == a ==> pay.ExposurePart(e.own) + pay.CommissionPart(c) <= pay.minimum)
      && (forall i :: 0 <= i < |e.others| && e.others[i].who == a ==>
            pay.NominatorPart(e.others[i].value) <= pay.minimum)
  {
    hide Payout.ExposurePart, Payout.CommissionPart, Payout.NominatorPart;
    NoShareIff(pay, e.others, a);
  }
}

/**
 Everything one payout mints. Nominators share the amount by stake, collators
 earn half of their own share and, on top, a commission by points: together up
 to one and a half times the amount.
 */
module TotalPayout {
  import opened Sums
  import opened Division
  import opened Entities
  import opened Currency
  import opened PerThing
  import opened Staking
  import opened Payouts

  // ---- Per collator ------------------------------------------------------

  /** All that the shares of one exposure mint. */
  function SharesMinted(pay: Payout, others: seq<Share>): nat {
    if others == [] then 0
    else SharesMinted(pay, others[..|others| - 1]) + pay.Minted(pay.NominatorPart(others[|others| - 1].value))
  }

  /** All that one collator's exposure mints, to whomever. */
  function EntryMinted(pay: Payout, c: Account, e: Exposure): nat {
    pay.Minted(pay.ExposurePart(e.own) + pay.CommissionPart(c)) + SharesMinted(pay, e.others)
  }

  function ShareFractions(pay: Payout, others: seq<Share>): nat {
    if others == [] then 0
    else
      ShareFractions(pay, others[..|others| - 1])
      + FromRational(PERBILL, others[|others| - 1].value, pay.totalStake)
  }

  lemma QuotientMono(a: nat, b: nat, d: nat)
    requires 0 < d && a <= b
    ensures Quotient(a, d) <= Quotient(b, d)
  {
    Monotone(a, b, d);
  }

  lemma ScaledQuotientSum(m: nat, a: nat, b: nat, f: nat, e: nat)
    requires 0 < f && 0 < e
    ensures Quotient(m * Quotient(a, f), e) + Quotient(m * Quotient(b, f), e) <= Quotient(m * Quotient(a + b, f), e)
  {
    hide Quotient;
    var x, y, z := Quotient(a, f), Quotient(b, f), Quotient(a + b, f);
    QuotientSum(a, b, f);
    QuotientSum(m * x, m * y, e);
    TimesPlus(m, x, y);
    TimesMono(m, x + y, z);
    QuotientMono(m * (x + y), m * z, e);
  }

  /** Truncated fractions of one whole are superadditive. */
  lemma FractionSum(m: nat, a: nat, b: nat, whole: nat)
    requires 0 < m && a + b <= whole
    ensures FromRational(m, a, whole) + FromRational(m, b, whole) <= FromRational(m, a + b, whole)
  {
    hide FromRational, Factor;
    var d := Max(whole, 1);
    var f := Factor(m, d);
    FactorAtMost(m, d);
    var e := Quotient(d, f);
    FromRationalUnfold(m, a, whole, f, e);
    FromRationalUnfold(m, b, whole, f, e);
    FromRationalUnfold(m, a + b, whole, f, e);
    ScaledQuotientSum(m, a, b, f, e);
  }

  lemma {:induction false} SharesOfStake(pay: Payout, own: nat, others: seq<Share>)
    requires own + SharesTotal(others) <= pay.totalStake
    ensures FromRational(PERBILL, own, pay.totalStake) + ShareFractions(pay, others)
         <= FromRational(PERBILL, own + SharesTotal(others), pay.totalStake)
  {
    hide FromRational;
    if others != [] {
      var init, v := others[..|others| - 1], others[|others| - 1].value;
      SharesOfStake(pay, own, init);
      FractionSum(PERBILL, own + SharesTotal(init), v, pay.totalStake);
    }
  }

  lemma MintedAtMost(pay: Payout, v: nat)
    ensures pay.Minted(v) <= v
  {
  }

  /** Each share is rounded to the nearest unit. */
  lemma {:induction false} SharesRounded(pay: Payout, others: seq<Share>)
    ensures 2 * (PERBILL * SharesMinted(pay, others))
         <= 2 * (pay.amount * ShareFractions(pay, others)) + PERBILL * |others|
  {
    hide FromRational, TimesNumber;
    if others != [] {
      var init, v := others[..|others| - 1], others[|others| - 1].value;
      var part := FromRational(PERBILL, v, pay.totalStake);
      SharesRounded(pay, init);
      TimesNumberNearest(PERBILL, part, pay.amount);
      RoundedStep(PERBILL, pay.amount, pay.NominatorPart(v), SharesMinted(pay, init), part,
                  ShareFractions(pay, init), |init|);
      MintedAtMost(pay, pay.NominatorPart(v));
    }
  }

  lemma OwnRounded(pay: Payout, own: nat)
    ensures 2 * (PERBILL * pay.ExposurePart(own))
         <= 2 * (pay.amount * FromRational(PERBILL, own, pay.totalStake)) + PERBILL
  {
    hide FromRational, TimesNumber;
    var part := FromRational(PERBILL, own, pay.totalStake);
    var half := Times(PERBILL, FromRational(PERBILL, 50, 100), part);
    HalfIsHalf();
    assert half <= part;
    TimesNumberNearest(PERBILL, half, pay.amount);
    TimesMono(pay.amount, half, part);
  }

  function StakeBehind(e: Exposure): nat { e.own + SharesTotal(e.others) }

  /** Half a unit per rounding: two for the collator, one for each share. */
  function Roundings(e: Exposure): nat { 2 + |e.others| }

  lemma EntryRounded(pay: Payout, c: Account, e: Exposure)
    requires StakeBehind(e) <= pay.totalStake
    ensures 2 * (PERBILL * EntryMinted(pay, c, e))
         <= 2 * (PERBILL * pay.CommissionPart(c))
            + 2 * (pay.amount * FromRational(PERBILL, StakeBehind(e), pay.totalStake)) + PERBILL * (1 + |e.others|)
  {
    hide FromRational, Payout.ExposurePart, Payout.CommissionPart, SharesMinted, ShareFractions;
    var own, all := FromRational(PERBILL, e.own, pay.totalStake), FromRational(PERBILL, StakeBehind(e), pay.totalStake);
    SharesOfStake(pay, e.own, e.others);
    SharesRounded(pay, e.others);
    OwnRounded(pay, e.own);
    TimesMono(pay.amount, own + ShareFractions(pay, e.others), all);
    TimesPlus(pay.amount, own, ShareFractions(pay, e.others));
  }

  // ---- Per payout --------------------------------------------------------

  function Entries(pay: Payout, clipped: map<Account, Exposure>): map<Account, nat> {
    map c | c in clipped :: EntryMinted(pay, c, clipped[c])
  }

  function StakesBehind(clipped: map<Account, Exposure>): map<Account, nat> {
    map c | c in clipped :: StakeBehind(clipped[c])
  }

  function SharesCounts(clipped: map<Account, Exposure>): map<Account, nat> {
    map c | c in clipped :: 1 + |clipped[c].others|
  }

  function AllRoundings(clipped: map<Account, Exposure>): map<Account, nat> {
    map c | c in clipped :: Roundings(clipped[c])
  }

  /** A bound that holds entry by entry holds of the sums. */
  lemma {:induction false} SumOfBounds(a: map<Account, nat>, b: map<Account, nat>, c: map<Account, nat>,
                                       d: map<Account, nat>, m: nat, amount: nat)
    requires a.Keys == b.Keys == c.Keys == d.Keys
    requires forall k :: k in a ==> 2 * (m * a[k]) <= 2 * (m * b[k]) + 2 * (amount * c[k]) + m * d[k]
    ensures 2 * (m * SumOver(a)) <= 2 * (m * SumOver(b)) + 2 * (amount * SumOver(c)) + m * SumOver(d)
    decreases |a|
  {
    hide SumOver;
    if a.Keys == {} {
      SumEmpty(a);
      SumEmpty(b);
      SumEmpty(c);
      SumEmpty(d);
    } else {
      var k :| k in a;
      SumSplit(a, k);
      SumSplit(b, k);
      SumSplit(c, k);
      SumSplit(d, k);
      SizeWithout(a, k);
      SumOfBounds(a - {k}, b - {k}, c - {k}, d - {k}, m, amount);
      BoundStep(m, amount, a[k], SumOver(a - {k}), b[k], SumOver(b - {k}),
                c[k], SumOver(c - {k}), d[k], SumOver(d - {k}));
    }
  }

  lemma BoundStep(m: nat, amount: nat, a: int, aa: int, b: int, bb: int, c: int, cc: int, d: int, dd: int)
    requires 2 * (m * a) <= 2 * (m * b) + 2 * (amount * c) + m * d
    requires 2 * (m * aa) <= 2 * (m * bb) + 2 * (amount * cc) + m * dd
    ensures 2 * (m * (a + aa)) <= 2 * (m * (b + bb)) + 2 * (amount * (c + cc)) + m * (d + dd)
  {
    Distribute(m, a, aa);
    Distribute(m, b, bb);
    Distribute(m, d, dd);
    Distribute(amount, c, cc);
  }

  /** The exposures of a round are within the stake it is shared by. */
  ghost predicate WithinStake(pay: Payout, clipped: map<Account, Exposure>) {
    SumOver(StakesBehind(clipped)) <= pay.totalStake
  }

  lemma EachWithinStake(pay: Payout, clipped: map<Account, Exposure>, c: Account)
    requires WithinStake(pay, clipped) && c in clipped
    ensures StakeBehind(clipped[c]) <= pay.totalStake
  {
    SumAtLeast(StakesBehind(clipped), c);
  }

  lemma EntriesBounded(pay: Payout, clipped: map<Account, Exposure>)
    requires WithinStake(pay, clipped)
    ensures 2 * (PERBILL * SumOver(Entries(pay, clipped)))
         <= 2 * (PERBILL * SumOver(CommissionCredits(pay, clipped)))
            + 2 * (pay.amount * SumOver(Fractions(PERBILL, StakesBehind(clipped), pay.totalStake)))
            + PERBILL * SumOver(SharesCounts(clipped))
  {
    hide SumOver, FromRational, Payout.CommissionPart, EntryMinted, StakeBehind, WithinStake;
    var a, b := Entries(pay, clipped), CommissionCredits(pay, clipped);
    var c, d := Fractions(PERBILL, StakesBehind(clipped), pay.totalStake), SharesCounts(clipped);
    forall k | k in a
      ensures 2 * (PERBILL * a[k]) <= 2 * (PERBILL * b[k]) + 2 * (pay.amount * c[k]) + PERBILL * d[k]
    {
      EachWithinStake(pay, clipped, k);
      EntryRounded(pay, k, clipped[k]);
    }
    SumOfBounds(a, b, c, d, PERBILL, pay.amount);
  }

  lemma CountRoundings(clipped: map<Account, Exposure>)
    ensures SumOver(AllRoundings(clipped)) == SumOver(SharesCounts(clipped)) + |clipped|
  {
    var ones: map<Account, nat> := map c | c in clipped :: 1;
    SumAdd(SharesCounts(clipped), ones, AllRoundings(clipped));
    SumOfOnes(ones);
    assert ones.Keys == clipped.Keys;
  }

  lemma {:induction false} SumOfOnes(m: map<Account, nat>)
    requires forall k :: k in m ==> m[k] == 1
    ensures SumOver(m) == |m|
    decreases |m|
  {
    if m.Keys == {} {
      SumEmpty(m);
    } else {
      var k :| k in m;
      SumSplit(m, k);
      SizeWithout(m, k);
      SumOfOnes(m - {k});
    }
  }

  lemma AllEntries(pay: Payout, clipped: map<Account, Exposure>)
    requires SumOver(pay.points) == pay.totalPoints && WithinStake(pay, clipped)
    ensures 2 * SumOver(Entries(pay, clipped)) <= 3 * pay.amount + SumOver(AllRoundings(clipped))
  {
    hide SumOver, Entries, CommissionCredits, Fractions, StakesBehind, SharesCounts;
    EntriesBounded(pay, clipped);
    CommissionAtMostHalf(pay, clipped);
    StakeFractions(pay, clipped);
    CountRoundings(clipped);
    Bounded(pay.amount, SumOver(Entries(pay, clipped)), SumOver(CommissionCredits(pay, clipped)),
            SumOver(Fractions(PERBILL, StakesBehind(clipped), pay.totalStake)),
            SumOver(SharesCounts(clipped)), |clipped|);
  }

  lemma StakeFractions(pay: Payout, clipped: map<Account, Exposure>)
    requires WithinStake(pay, clipped)
    ensures SumOver(Fractions(PERBILL, StakesBehind(clipped), pay.totalStake)) <= PERBILL
  {
    hide SumOver, FromRational, StakeBehind;
    var stakes := StakesBehind(clipped);
    forall c | c in stakes
      ensures stakes[c] <= pay.totalStake
    {
      EachWithinStake(pay, clipped, c);
    }
    FractionsSumToOne(PERBILL, stakes, pay.totalStake);
  }

  lemma Bounded(amount: nat, entries: int, commissions: int, fractions: int, counts: int, n: nat)
    requires 2 * (PERBILL * entries) <= 2 * (PERBILL * commissions) + 2 * (amount * fractions) + PERBILL * counts
    requires 2 * commissions <= amount + n && fractions <= PERBILL
    ensures 2 * entries <= 3 * amount + counts + n
  {
    assert amount * fractions <= amount * PERBILL;
  }

  // ---- Per account -------------------------------------------------------

  /** What the payout credits to each of some accounts. */
  ghost function CreditsTo(pay: Payout, clipped: map<Account, Exposure>, accounts: set<Account>): map<Account, int> {
    map a | a in accounts :: pay.Credits(clipped, a)
  }

  /** What one exposure credits to each of them. */
  ghost function CreditsFrom(pay: Payout, c: Account, e: Exposure, accounts: set<Account>): map<Account, int> {
    map a | a in accounts :: pay.CreditFrom(c, e, a)
  }

  ghost function SharesToEach(pay: Payout, others: seq<Share>, accounts: set<Account>): map<Account, int> {
    map a | a in accounts :: pay.SharesTo(others, a)
  }

  /** `v` to one account and nothing to the others. */
  ghost function Single(v: nat, who: Account, accounts: set<Account>): map<Account, int> {
    map a | a in accounts :: if a == who then v else 0
  }

  lemma {:induction false} SumOfZeros(m: map<Account, int>)
    requires forall k :: k in m ==> m[k] == 0
    ensures SumOver(m) == 0
    decreases |m|
  {
    if m.Keys == {} {
      SumEmpty(m);
    } else {
      var k :| k in m;
      SumSplit(m, k);
      SmallerWithout(m, k);
      SumOfZeros(m - {k});
    }
  }

  lemma SumOfSingle(v: nat, who: Account, accounts: set<Account>)
    ensures SumOver(Single(v, who, accounts)) == if who in accounts then v else 0
  {
    var m := Single(v, who, accounts);
    if who in accounts {
      SumSplit(m, who);
      SumOfZeros(m - {who});
    } else {
      SumOfZeros(m);
    }
  }

  lemma {:induction false} SharesSpread(pay: Payout, others: seq<Share>, accounts: set<Account>)
    ensures SumOver(SharesToEach(pay, others, accounts)) <= SharesMinted(pay, others)
    ensures (forall x :: x in others ==> x.who in accounts) ==>
              SumOver(SharesToEach(pay, others, accounts)) == SharesMinted(pay, others)
  {
    hide SumOver, Payout.NominatorPart;
    if others == [] {
      SumOfZeros(SharesToEach(pay, others, accounts));
    } else {
      var init, last := others[..|others| - 1], others[|others| - 1];
      var v := pay.Minted(pay.NominatorPart(last.value));
      SharesSpread(pay, init, accounts);
      SumOfSingle(v, last.who, accounts);
      SumAdd(SharesToEach(pay, init, accounts), Single(v, last.who, accounts), SharesToEach(pay, others, accounts));
    }
  }

  /** Everybody who has a part in an exposure. */
  ghost predicate Knows(c: Account, e: Exposure, accounts: set<Account>) {
    c in accounts && forall x :: x in e.others ==> x.who in accounts
  }

  lemma EntrySpread(pay: Payout, c: Account, e: Exposure, accounts: set<Account>)
    ensures SumOver(CreditsFrom(pay, c, e, accounts)) <= EntryMinted(pay, c, e)
    ensures Knows(c, e, accounts) ==> SumOver(CreditsFrom(pay, c, e, accounts)) == EntryMinted(pay, c, e)
  {
    hide SumOver, Payout.SharesTo, SharesMinted;
    var v := pay.Minted(pay.ExposurePart(e.own) + pay.CommissionPart(c));
    SumOfSingle(v, c, accounts);
    SharesSpread(pay, e.others, accounts);
    SumAdd(Single(v, c, accounts), SharesToEach(pay, e.others, accounts), CreditsFrom(pay, c, e, accounts));
  }

  lemma CreditsSplit(pay: Payout, clipped: map<Account, Exposure>, c: Account, a: Account)
    requires c in clipped
    ensures pay.Credits(clipped, a) == pay.CreditFrom(c, clipped[c], a) + pay.Credits(clipped - {c}, a)
  {
    hide SumOver, Payout.CreditFrom;
    SumSplit(pay.CreditMap(clipped, a), c);
    assert pay.CreditMap(clipped, a) - {c} == pay.CreditMap(clipped - {c}, a);
  }

  lemma NoCredits(pay: Payout, clipped: map<Account, Exposure>, a: Account)
    requires clipped.Keys == {}
    ensures pay.Credits(clipped, a) == 0
  {
    SumEmpty(pay.CreditMap(clipped, a));
  }

  /** Summed over accounts or over exposures: the same money. */
  lemma {:induction false} CreditsAreEntries(pay: Payout, clipped: map<Account, Exposure>, accounts: set<Account>)
    ensures SumOver(CreditsTo(pay, clipped, accounts)) <= SumOver(Entries(pay, clipped))
    ensures (forall c :: c in clipped ==> Knows(c, clipped[c], accounts)) ==>
              SumOver(CreditsTo(pay, clipped, accounts)) == SumOver(Entries(pay, clipped))
    decreases |clipped|
  {
    hide SumOver, Payout.Credits, Payout.CreditFrom, EntryMinted, Knows;
    if clipped.Keys == {} {
      forall a
        ensures pay.Credits(clipped, a) == 0
      {
        NoCredits(pay, clipped, a);
      }
      SumOfZeros(CreditsTo(pay, clipped, accounts));
      SumEmpty(Entries(pay, clipped));
    } else {
      var c :| c in clipped;
      var rest := clipped - {c};
      assert rest.Keys == clipped.Keys - {c};
      CreditsAreEntries(pay, rest, accounts);
      forall a | a in accounts
        ensures pay.Credits(clipped, a) == pay.CreditFrom(c, clipped[c], a) + pay.Credits(rest, a)
      {
        CreditsSplit(pay, clipped, c, a);
      }
      SumAdd(CreditsFrom(pay, c, clipped[c], accounts), CreditsTo(pay, rest, accounts),
             CreditsTo(pay, clipped, accounts));
      EntrySpread(pay, c, clipped[c], accounts);
      SumSplit(Entries(pay, clipped), c);
      assert Entries(pay, clipped) - {c} == Entries(pay, rest);
    }
  }

  /**
   When the exposures of a round are within its staked total, all credits of its
   payout together, to whatever accounts, are at most one and a half times the
   amount, plus half a unit for each rounding.
   */
  lemma PayoutAtMostThreeHalves(pay: Payout, clipped: map<Account, Exposure>, accounts: set<Account>)
    requires SumOver(pay.points) == pay.totalPoints && WithinStake(pay, clipped)
    ensures 2 * SumOver(CreditsTo(pay, clipped, accounts)) <= 3 * pay.amount + SumOver(AllRoundings(clipped))
  {
    hide SumOver, CreditsTo, Entries, AllRoundings, WithinStake;
    CreditsAreEntries(pay, clipped, accounts);
    AllEntries(pay, clipped);
  }

  /** For the payout a round switch makes from any reachable storage. */
  lemma ReachablePayout(p: Params, balances: Balances, stakers: seq<Staker>, issuance: nat, calls: seq<Call>,
                        round: nat, accounts: set<Account>)
    requires var s := Run(p, Genesis(p, balances, stakers, issuance), calls);
      WithinStake(PayoutOf(p, s, round), ClippedIn(s.rewards, round))
    ensures var s := Run(p, Genesis(p, balances, stakers, issuance), calls);
      var pay, clipped := PayoutOf(p, s, round), ClippedIn(s.rewards, round);
      2 * SumOver(CreditsTo(pay, clipped, accounts)) <= 3 * pay.amount + SumOver(AllRoundings(clipped))
  {
    hide Run, Genesis, CreditsTo, AllRoundings, WithinStake;
    ReachableBalance(p, balances, stakers, issuance, calls);
    var s := Run(p, Genesis(p, balances, stakers, issuance), calls);
    PayoutAtMostThreeHalves(PayoutOf(p, s, round), ClippedIn(s.rewards, round), accounts);
  }

  // ---- The bound is met --------------------------------------------------

  /** One author with a single backer that holds all the stake. */
  const ALL_BEHIND_ONE: map<Account, Exposure> := map[1 := Exposure(100, 0, [Share(2, 100)])]

  const THOUSAND: Payout := Payout(1000, 100, 20, map[1 := 20], 0)

  /** A payout of 1000 that mints 500 to the collator and 1000 to its backer. */
  lemma PayoutExceedsAmount()
    ensures WithinStake(THOUSAND, ALL_BEHIND_ONE) && SumOver(THOUSAND.points) == THOUSAND.totalPoints
    ensures THOUSAND.Credits(ALL_BEHIND_ONE, 1) == 500 && THOUSAND.Credits(ALL_BEHIND_ONE, 2) == 1000
  {
    hide FromRational, TimesNumber;
    var e := ALL_BEHIND_ONE[1];
    SumSplit(THOUSAND.points, 1);
    SumSplit(StakesBehind(ALL_BEHIND_ONE), 1);
    assert e.others[..0] == [];
    FromRationalOfEqual(PERBILL, 100);
    FromRationalOfEqual(PERBILL, 20);
    HalfIsHalf();
    assert FromRational(PERBILL, 0, 100) == 0 by { FromRationalSmall(PERBILL, 0, 100); }
    assert TimesNumber(PERBILL, 0, 1000) == 0 && TimesNumber(PERBILL, 500_000_000, 1000) == 500 by { SmallTimes(); }
    assert TimesNumber(PERBILL, PERBILL, 1000) == 1000 by { SmallTimes(); }
    assert THOUSAND.CreditFrom(1, e, 1) == 500 && THOUSAND.CreditFrom(1, e, 2) == 1000;
    forall a
      ensures THOUSAND.Credits(ALL_BEHIND_ONE, a) == THOUSAND.CreditFrom(1, e, a)
    {
      CreditsSplit(THOUSAND, ALL_BEHIND_ONE, 1, a);
      NoCredits(THOUSAND, ALL_BEHIND_ONE - {1}, a);
    }
  }

  lemma SmallTimes()
    ensures TimesNumber(PERBILL, 0, 1000) == 0 && TimesNumber(PERBILL, 500_000_000, 1000) == 500
    ensures TimesNumber(PERBILL, PERBILL, 1000) == 1000
  {
  }
}

/** Reward points, the commission they earn and the rounds that are paid. */
module Payouts {
  import opened Options
  import opened Sums
  import opened Division
  import opened Entities
  import opened Currency
  import opened PerThing
  import opened Inflation
  import opened Staking
  import opened Soundness

  // ---- Points ------------------------------------------------------------

  ghost predicate PointsBalance(r: Rewards) {
    forall round :: TotalPoint(r, round) == SumOver(PointsIn(r, round))
  }

  lemma NoteAuthorBalance(s: Storage, author: Account)
    requires PointsBalance(s.rewards)
    ensures PointsBalance(NoteAuthor(s, author).rewards)
  {
    hide SumOver;
    var r, now := s.rewards, s.round.index;
    var t := NoteAuthor(s, author).rewards;
    SumPut(PointsIn(r, now), author, PointOf(r, now, author) + 20);
    forall round
      ensures TotalPoint(t, round) == SumOver(PointsIn(t, round))
    {
      assert TotalPoint(r, round) == SumOver(PointsIn(r, round));
    }
  }

  /** Only the author notes change points. */
  lemma SwitchKeepsPoints(p: Params, s: Storage, now: nat)
    ensures BeforeElection(p, s, now).rewards.points == s.rewards.points
    ensures BeforeElection(p, s, now).rewards.totalPoints == s.rewards.totalPoints
  {
    hide DepositEach, UnreserveEach, SumOver;
  }

  lemma FinalizeKeepsPoints(p: Params, s: Storage, supports: Option<seq<Support>>, issuance: nat)
    ensures OnFinalize(p, s, supports, issuance).rewards.points == s.rewards.points
    ensures OnFinalize(p, s, supports, issuance).rewards.totalPoints == s.rewards.totalPoints
  {
    hide BeforeElection, Elected;
    SwitchKeepsPoints(p, s, s.block + 1);
  }

  lemma StepBalance(p: Params, s: Storage, call: Call)
    requires PointsBalance(s.rewards)
    ensures PointsBalance(Next(p, s, call).rewards)
  {
    hide PointsBalance, OnFinalize, NoteAuthor, Reserve, UnreserveBonds;
    hide Found, Lookup, Raised, Lowered, Without, LastAmount;
    match call
    case NoteAuthorOf(author) => NoteAuthorBalance(s, author);
    case Finalize(supports, issuance) =>
      FinalizeKeepsPoints(p, s, supports, issuance);
      SamePoints(s.rewards, OnFinalize(p, s, supports, issuance).rewards);
    case _ =>
  }

  lemma SamePoints(r: Rewards, t: Rewards)
    requires PointsBalance(r) && r.points == t.points && r.totalPoints == t.totalPoints
    ensures PointsBalance(t)
  {
    hide SumOver;
    forall round
      ensures TotalPoint(t, round) == SumOver(PointsIn(t, round))
    {
      assert TotalPoint(r, round) == SumOver(PointsIn(r, round));
    }
  }

  lemma {:induction false} RunBalance(p: Params, s: Storage, calls: seq<Call>)
    requires PointsBalance(s.rewards)
    ensures PointsBalance(Run(p, s, calls).rewards)
  {
    hide PointsBalance, Next;
    if calls != [] {
      RunBalance(p, s, calls[..|calls| - 1]);
      StepBalance(p, Run(p, s, calls[..|calls| - 1]), calls[|calls| - 1]);
    }
  }

  /** In every reachable storage the total of each round is the sum of its authors' points. */
  lemma ReachableBalance(p: Params, balances: Balances, stakers: seq<Staker>, issuance: nat, calls: seq<Call>)
    ensures PointsBalance(Run(p, Genesis(p, balances, stakers, issuance), calls).rewards)
  {
    GenesisBondsFresh(p, balances, stakers);
    RunBalance(p, Genesis(p, balances, stakers, issuance), calls);
  }

  // ---- Commission --------------------------------------------------------

  function Quotients(m: map<Account, nat>, d: nat): map<Account, nat>
    requires 0 < d
  {
    map k | k in m :: Quotient(m[k], d)
  }

  function Multiples(m: map<Account, nat>, c: nat): map<Account, nat> {
    map k | k in m :: c * m[k]
  }

  lemma SumNonnegative(m: map<Account, nat>)
    ensures 0 <= SumOver(m)
  {
    SumMono(map[], m);
  }

  lemma SizeWithout(m: map<Account, nat>, k: Account)
    requires k in m
    ensures |m - {k}| == |m| - 1
  {
    assert (m - {k}).Keys == m.Keys - {k};
  }

  lemma QuotientsWithout(m: map<Account, nat>, d: nat, k: Account)
    requires 0 < d
    ensures Quotients(m, d) - {k} == Quotients(m - {k}, d)
  {
  }

  lemma QuotientSum(a: nat, b: nat, d: nat)
    requires 0 < d
    ensures Quotient(a, d) + Quotient(b, d) <= Quotient(a + b, d)
  {
    Superadditive(a, b, d);
  }

  /** Pointwise truncation never exceeds truncation of the sum. */
  lemma {:induction false} SumOfQuotients(m: map<Account, nat>, d: nat)
    requires 0 < d
    ensures 0 <= SumOver(m) && SumOver(Quotients(m, d)) <= Quotient(SumOver(m), d)
    decreases |m|
  {
    hide SumOver, Quotient;
    SumNonnegative(m);
    if m.Keys == {} {
      SumEmpty(m);
      SumEmpty(Quotients(m, d));
    } else {
      var k :| k in m;
      SumSplit(m, k);
      SumSplit(Quotients(m, d), k);
      SizeWithout(m, k);
      QuotientsWithout(m, d, k);
      SumOfQuotients(m - {k}, d);
      QuotientSum(m[k], SumOver(m - {k}), d);
    }
  }

  lemma Distribute(c: nat, a: int, b: int)
    ensures c * (a + b) == c * a + c * b
  {
  }

  lemma MultiplesWithout(m: map<Account, nat>, c: nat, k: Account)
    requires k in m
    ensures Multiples(m, c) - {k} == Multiples(m - {k}, c)
    ensures k in Multiples(m, c) && Multiples(m, c)[k] == c * m[k]
  {
  }

  lemma NoMultiples(m: map<Account, nat>, c: nat)
    requires m.Keys == {}
    ensures SumOver(Multiples(m, c)) == 0 && SumOver(m) == 0
  {
    SumEmpty(m);
    SumEmpty(Multiples(m, c));
  }

  lemma MultipleStep(c: nat, v: nat, rest: int, sum: int, scaled: int)
    requires sum == v + rest && scaled == c * v + c * rest
    ensures scaled == c * sum
  {
    Distribute(c, v, rest);
  }

  lemma {:induction false} SumOfMultiples(m: map<Account, nat>, c: nat)
    ensures SumOver(Multiples(m, c)) == c * SumOver(m)
    decreases |m|
  {
    hide SumOver, Multiples;
    if m.Keys == {} {
      NoMultiples(m, c);
    } else {
      var k :| k in m;
      MultiplesWithout(m, c, k);
      SumSplit(m, k);
      SumSplit(Multiples(m, c), k);
      SizeWithout(m, k);
      SumOfMultiples(m - {k}, c);
      MultipleStep(c, m[k], SumOver(m - {k}), SumOver(m), SumOver(Multiples(m, c)));
    }
  }

  /** Scaling and truncating every part keeps the sum of the parts within the scaled whole. */
  lemma SumOfScaled(m: map<Account, nat>, c: nat, d: nat, whole: nat)
    requires 0 < d && SumOver(m) <= whole
    ensures SumOver(Quotients(Multiples(m, c), d)) <= Quotient(c * whole, d)
  {
    hide SumOver, Quotients, Multiples;
    SumNonnegative(m);
    SumOfMultiples(m, c);
    SumOfQuotients(Multiples(m, c), d);
    var total: nat := SumOver(m);
    TimesMono(c, total, whole);
    Monotone(c * total, c * whole, d);
  }

  /** The points of the collators that are paid. */
  function PaidPoints(pay: Payout, clipped: map<Account, Exposure>): map<Account, nat> {
    map c | c in clipped :: if c in pay.points then pay.points[c] else 0
  }

  lemma PaidPointsAtMost(pay: Payout, clipped: map<Account, Exposure>)
    requires SumOver(pay.points) == pay.totalPoints
    ensures SumOver(PaidPoints(pay, clipped)) <= pay.totalPoints
    ensures forall c :: c in clipped ==> PaidPoints(pay, clipped)[c] <= pay.totalPoints
  {
    SumMatched(PaidPoints(pay, clipped), pay.points);
    forall c | c in clipped
      ensures PaidPoints(pay, clipped)[c] <= pay.totalPoints
    {
      SumAtLeast(PaidPoints(pay, clipped), c);
    }
  }

  function Fractions(m: nat, parts: map<Account, nat>, whole: nat): map<Account, nat>
    requires 0 < m
  {
    map k | k in parts :: FromRational(m, parts[k], whole)
  }

  lemma FromRationalUnfold(m: nat, p: nat, q: nat, f: nat, e: nat)
    requires 0 < m && p <= Max(q, 1) && f == Factor(m, Max(q, 1)) && e == Quotient(Max(q, 1), f) && 0 < e
    ensures FromRational(m, p, q) == Quotient(m * Quotient(p, f), e)
  {
    hide Factor, Quotient;
  }

  lemma FractionsUnfold(m: nat, parts: map<Account, nat>, whole: nat, f: nat, e: nat)
    requires 0 < m && f == Factor(m, Max(whole, 1)) && e == Quotient(Max(whole, 1), f) && 0 < e
    requires forall k :: k in parts ==> parts[k] <= whole
    ensures Fractions(m, parts, whole) == Quotients(Multiples(Quotients(parts, f), m), e)
  {
    hide Factor, Quotient, FromRational;
    forall k | k in parts
      ensures FromRational(m, parts[k], whole) == Quotient(m * Quotient(parts[k], f), e)
    {
      FromRationalUnfold(m, parts[k], whole, f, e);
    }
  }

  /** Fractions of a whole, truncated by `from_rational`, sum to one at most. */
  lemma FractionsSumToOne(m: nat, parts: map<Account, nat>, whole: nat)
    requires 0 < m && SumOver(parts) <= whole
    requires forall k :: k in parts ==> parts[k] <= whole
    ensures SumOver(Fractions(m, parts, whole)) <= m
  {
    hide SumOver, Quotients, Multiples, Fractions, Factor;
    var d := Max(whole, 1);
    var f := Factor(m, d);
    FactorAtMost(m, d);
    var e := Quotient(d, f);
    SumOfQuotients(parts, f);
    var total: nat := SumOver(parts);
    Monotone(total, d, f);
    SumOfScaled(Quotients(parts, f), m, e, e);
    FractionsUnfold(m, parts, whole, f, e);
    Exact(m, e);
  }

  function Rounded(m: nat, parts: map<Account, nat>, amount: nat): map<Account, nat>
    requires 0 < m
  {
    map k | k in parts :: TimesNumber(m, parts[k], amount)
  }

  lemma RoundedWithout(m: nat, parts: map<Account, nat>, amount: nat, k: Account)
    requires 0 < m
    ensures Rounded(m, parts, amount) - {k} == Rounded(m, parts - {k}, amount)
  {
    hide TimesNumber;
  }

  /** Rounding each part to nearest adds half a unit per part at most. */
  lemma {:induction false} SumOfRounded(m: nat, parts: map<Account, nat>, amount: nat)
    requires 0 < m
    ensures 2 * (m * SumOver(Rounded(m, parts, amount))) <= 2 * (amount * SumOver(parts)) + m * |parts|
    decreases |parts|
  {
    hide SumOver, TimesNumber;
    if parts.Keys == {} {
      SumEmpty(parts);
      SumEmpty(Rounded(m, parts, amount));
    } else {
      var k :| k in parts;
      var n := parts - {k};
      SumSplit(parts, k);
      SumSplit(Rounded(m, parts, amount), k);
      SizeWithout(parts, k);
      RoundedWithout(m, parts, amount, k);
      SumOfRounded(m, n, amount);
      TimesNumberNearest(m, parts[k], amount);
      RoundedStep(m, amount, TimesNumber(m, parts[k], amount), SumOver(Rounded(m, n, amount)),
                  parts[k], SumOver(n), |n|);
    }
  }

  lemma RoundedStep(m: nat, amount: nat, t: int, ts: int, part: int, parts: int, n: nat)
    requires 2 * (m * ts) <= 2 * (amount * parts) + m * n
    requires 2 * (m * t - amount * part) <= m
    ensures 2 * (m * (t + ts)) <= 2 * (amount * (part + parts)) + m * (n + 1)
  {
    Distribute(m, t, ts);
    Distribute(amount, part, parts);
    Distribute(m, n, 1);
  }

  lemma HalfIsHalf()
    ensures FromRational(PERBILL, 50, 100) == 500_000_000
  {
    FromRationalSmall(PERBILL, 50, 100);
  }

  function Commissions(pay: Payout, clipped: map<Account, Exposure>): map<Account, nat> {
    map c | c in clipped :: pay.CommissionPerbill(c)
  }

  /** The commission fractions of the paid collators sum to one half at most. */
  lemma CommissionsSumToHalf(pay: Payout, clipped: map<Account, Exposure>)
    requires SumOver(pay.points) == pay.totalPoints
    ensures SumOver(Commissions(pay, clipped)) <= 500_000_000
  {
    hide FromRational, SumOver;
    var fractions := Fractions(PERBILL, PaidPoints(pay, clipped), pay.totalPoints);
    HalfIsHalf();
    PaidPointsAtMost(pay, clipped);
    FractionsSumToOne(PERBILL, PaidPoints(pay, clipped), pay.totalPoints);
    SumOfScaled(fractions, 500_000_000, PERBILL, PERBILL);
    assert Commissions(pay, clipped) == Quotients(Multiples(fractions, 500_000_000), PERBILL);
  }

  function CommissionCredits(pay: Payout, clipped: map<Account, Exposure>): map<Account, nat> {
    map c | c in clipped :: pay.CommissionPart(c)
  }

  /**
   The commissions of one payout: half the payout at most, plus half a unit of
   rounding for each collator.
   */
  lemma CommissionAtMostHalf(pay: Payout, clipped: map<Account, Exposure>)
    requires SumOver(pay.points) == pay.totalPoints
    ensures 2 * SumOver(CommissionCredits(pay, clipped)) <= pay.amount + |clipped|
  {
    hide FromRational, TimesNumber, Times, SumOver;
    var parts := Commissions(pay, clipped);
    assert parts.Keys == clipped.Keys;
    CommissionsSumToHalf(pay, clipped);
    SumOfRounded(PERBILL, parts, pay.amount);
    assert CommissionCredits(pay, clipped) == Rounded(PERBILL, parts, pay.amount);
    SumNonnegative(parts);
    var total: nat := SumOver(parts);
    TimesMono(pay.amount, total, 500_000_000);
  }

  /** For the payout a round switch makes from any reachable storage. */
  lemma ReachableCommission(p: Params, balances: Balances, stakers: seq<Staker>, issuance: nat,
                            calls: seq<Call>, round: nat)
    ensures var s := Run(p, Genesis(p, balances, stakers, issuance), calls);
      var pay, clipped := PayoutOf(p, s, round), ClippedIn(s.rewards, round);
      2 * SumOver(CommissionCredits(pay, clipped)) <= pay.amount + |clipped|
  {
    hide Run, Genesis;
    ReachableBalance(p, balances, stakers, issuance, calls);
    var s := Run(p, Genesis(p, balances, stakers, issuance), calls);
    CommissionAtMostHalf(PayoutOf(p, s, round), ClippedIn(s.rewards, round));
  }

  /** With the pallet's own inflation parameters a payout never exceeds the issuance it is computed from. */
  lemma RoundPayoutAtMostIssuance(blocksPerRound: nat, staked: nat, issuance: nat)
    ensures RoundPayout(blocksPerRound)(staked, issuance) <= issuance
  {
    hide ComputeTotalPayout;
    PayoutAtMostTokens(staked, issuance, 25, 20, 50, 5, blocksPerRound * 6000);
  }

  // ---- Paid once ---------------------------------------------------------

  /** The rounds whose exposures a run pays out and removes, in order. */
  ghost function PaidRounds(p: Params, s: Storage, calls: seq<Call>): seq<nat> {
    if calls == [] then []
    else
      var init := calls[..|calls| - 1];
      var t := Run(p, s, init);
      PaidRounds(p, s, init) +
      (if calls[|calls| - 1].Finalize? && t.round.ShouldGotoNextRound(t.block + 1)
          && t.round.index + 1 > p.payoutDuration
       then [t.round.index + 1 - p.payoutDuration] else [])
  }

  lemma StepIndex(p: Params, s: Storage, call: Call)
    ensures Next(p, s, call).round.index
         == s.round.index + (if call.Finalize? && s.round.ShouldGotoNextRound(s.block + 1) then 1 else 0)
  {
    hide BeforeElection, EnactElection, Reserve, UnreserveBonds, Found, Lookup, Raised, Lowered, Without, LastAmount;
    if call.Finalize? {
      AfterSwitch(p, s, s.block + 1);
      AfterElection(p, BeforeElection(p, s, s.block + 1), call.supports, call.issuance, s.block + 1);
    }
  }

  /** Over a whole run no round is paid twice. */
  lemma {:induction false} PaidAtMostOnce(p: Params, s: Storage, calls: seq<Call>)
    ensures forall i, j :: 0 <= i < j < |PaidRounds(p, s, calls)| ==>
              PaidRounds(p, s, calls)[i] < PaidRounds(p, s, calls)[j]
    ensures forall i :: 0 <= i < |PaidRounds(p, s, calls)| ==>
              PaidRounds(p, s, calls)[i] + p.payoutDuration <= Run(p, s, calls).round.index
  {
    hide Next;
    if calls != [] {
      PaidAtMostOnce(p, s, calls[..|calls| - 1]);
      StepIndex(p, Run(p, s, calls[..|calls| - 1]), calls[|calls| - 1]);
    }
  }

  /** A switch removes the exposures it pays. */
  lemma SwitchRemovesPaid(p: Params, s: Storage, now: nat)
    requires s.round.index + 1 > p.payoutDuration
    ensures BeforeElection(p, s, now).rewards.clipped
         == s.rewards.clipped - {s.round.index + 1 - p.payoutDuration}
  {
    hide DepositEach, UnreserveEach, SumOver;
  }
}

/**
 The exact account of the staked total. Against the ledger of collators,
 nominators and exits it gains whatever leaves the ledger without being taken
 off the total, and loses what an orphaned nomination adds.
 */
module StakedTotal {
  import opened Options
  import opened Sums
  import opened Entities
  import opened Currency
  import opened Staking
  import opened Soundness
  import opened Coverage

  // ---- One exit ----------------------------------------------------------

  /** The amounts a switch to `round` pays a leaver, in the order they are paid. */
  function PaidAmounts(l: Leaving, round: nat): seq<nat> {
    if l.when <= round then [l.remaining] + AllValues(l.unbonding) else ValuesUpTo(l.unbonding, round)
  }

  function AllValues(cs: seq<Chunk>): (vs: seq<nat>)
    ensures |vs| == |cs| && forall i :: 0 <= i < |cs| ==> vs[i] == cs[i].value
  {
    seq(|cs|, i requires 0 <= i < |cs| => cs[i].value)
  }

  /** The values of the chunks of round `round` or earlier. */
  function ValuesUpTo(cs: seq<Chunk>, round: nat): seq<nat> {
    if cs == [] then []
    else ValuesUpTo(cs[..|cs| - 1], round) + (if cs[|cs| - 1].round <= round then [cs[|cs| - 1].value] else [])
  }

  /** Every payment writes the total it started from less that payment, so the last one stands. */
  function LastOf(vs: seq<nat>): nat { if vs == [] then 0 else vs[|vs| - 1] }

  lemma {:induction false} AllValuesSum(cs: seq<Chunk>)
    ensures SumOf(AllValues(cs)) == Total(cs)
  {
    if cs != [] {
      AllValuesSum(cs[..|cs| - 1]);
      assert AllValues(cs)[..|cs| - 1] == AllValues(cs[..|cs| - 1]);
    }
  }

  lemma {:induction false} JoinSum(v: nat, vs: seq<nat>)
    ensures SumOf([v] + vs) == v + SumOf(vs)
  {
    if vs == [] {
      assert [v] + vs == [] + [v];
      SumPush([], v);
    } else {
      JoinSum(v, vs[..|vs| - 1]);
      assert ([v] + vs)[..|vs|] == [v] + vs[..|vs| - 1];
    }
  }

  lemma {:induction false} DueValues(cs: seq<Chunk>, round: nat)
    ensures ValuesUpTo(cs, round) == AllValues(Due(cs, round))
  {
    if cs != [] {
      DueValues(cs[..|cs| - 1], round);
    }
  }

  /**
   What a switch releases to a leaver is the sum of what it pays; what it takes
   off the staked total is the last of these payments, and nothing without one.
   */
  lemma LastPaymentIsTaken(l: Leaving, round: nat)
    ensures l.Release(round) == SumOf(PaidAmounts(l, round))
    ensures l.Deduction(round) == LastOf(PaidAmounts(l, round))
  {
    AllValuesSum(l.unbonding);
    AllValuesSum(Due(l.unbonding, round));
    DueValues(l.unbonding, round);
    JoinSum(l.remaining, AllValues(l.unbonding));
  }

  /** The last chunk of round `round` or earlier. */
  ghost predicate LastDue(cs: seq<Chunk>, i: int, round: nat) {
    0 <= i < |cs| && cs[i].round <= round && forall j :: i < j < |cs| ==> cs[j].round > round
  }

  lemma {:induction false} LastValueUpTo(cs: seq<Chunk>, round: nat)
    ensures forall i :: LastDue(cs, i, round) ==> LastOf(ValuesUpTo(cs, round)) == cs[i].value
    ensures (forall j :: 0 <= j < |cs| ==> cs[j].round > round) ==> ValuesUpTo(cs, round) == []
  {
    if cs != [] {
      var init := cs[..|cs| - 1];
      LastValueUpTo(init, round);
      forall i | LastDue(cs, i, round)
        ensures LastOf(ValuesUpTo(cs, round)) == cs[i].value
      {
        if i < |cs| - 1 {
          assert LastDue(init, i, round);
        }
      }
    }
  }

  /** Case by case: what an exit takes off the staked total. */
  lemma TakenOff(l: Leaving, round: nat)
    ensures l.when <= round && l.unbonding == [] ==> l.Deduction(round) == l.remaining
    ensures l.when <= round && l.unbonding != [] ==> l.Deduction(round) == l.unbonding[|l.unbonding| - 1].value
    ensures l.when > round ==> forall i :: LastDue(l.unbonding, i, round) ==> l.Deduction(round) == l.unbonding[i].value
    ensures l.when > round && (forall j :: 0 <= j < |l.unbonding| ==> l.unbonding[j].round > round) ==>
              l.Deduction(round) == 0
  {
    LastPaymentIsTaken(l, round);
    LastValueUpTo(l.unbonding, round);
  }

  /** What a leaver gets without its being taken off the staked total. */
  function Forgotten(l: Leaving, round: nat): nat
  {
    SumOf(AllButLast(PaidAmounts(l, round)))
  }

  function AllButLast(vs: seq<nat>): seq<nat> { if vs == [] then [] else vs[..|vs| - 1] }

  lemma {:induction false} SumZeroIff(vs: seq<nat>)
    ensures SumOf(vs) == 0 <==> forall i :: 0 <= i < |vs| ==> vs[i] == 0
  {
    if vs != [] {
      SumZeroIff(vs[..|vs| - 1]);
    }
  }

  lemma ForgottenIs(l: Leaving, round: nat)
    ensures Forgotten(l, round) == l.Release(round) - l.Deduction(round)
  {
    LastPaymentIsTaken(l, round);
  }

  /** Nothing is forgotten exactly when every payment before the last is of nothing. */
  lemma NothingForgottenIff(l: Leaving, round: nat)
    ensures Forgotten(l, round) == 0 <==>
      forall i :: 0 <= i < |PaidAmounts(l, round)| - 1 ==> PaidAmounts(l, round)[i] == 0
  {
    var vs := PaidAmounts(l, round);
    SumZeroIff(AllButLast(vs));
    assert forall i :: 0 <= i < |vs| - 1 ==> AllButLast(vs)[i] == vs[i];
  }

  // ---- One switch --------------------------------------------------------

  ghost function ForgottenBy(q: map<Account, Leaving>, round: nat): map<Account, int> {
    map a | a in q :: Forgotten(q[a], round)
  }

  /** What a switch to `round` takes out of the ledger and leaves on the staked total. */
  ghost function LeftOnTotal(s: Storage, round: nat): int {
    SumOver(CollatorDue(s.collators, round)) + SumOver(ForgottenBy(s.exitQueue, round))
  }

  lemma AdvancedTotalsExact(m: map<Account, Collator>, round: nat)
    ensures SumOver(CollatorTotals(Advanced(m, round)))
         == SumOver(CollatorTotals(m)) - SumOver(CollatorDue(m, round))
  {
    SumAdd(CollatorTotals(Advanced(m, round)), CollatorDue(m, round), CollatorTotals(m));
  }

  ghost function KeptAmounts(q: map<Account, Leaving>, round: nat): map<Account, int> {
    map a | a in q :: if q[a].when > round then Total(Kept(q[a].unbonding, round)) + q[a].remaining else 0
  }

  lemma {:induction false} SumOfSome(m: map<Account, int>, n: map<Account, int>)
    requires m.Keys <= n.Keys
    requires forall k :: k in n ==> n[k] == (if k in m then m[k] else 0)
    ensures SumOver(m) == SumOver(n)
    decreases |n|
  {
    if n == map[] {
      assert m == map[];
    } else {
      var k :| k in n;
      SumSplit(n, k);
      SmallerWithout(n, k);
      if k in m {
        SumSplit(m, k);
        SumOfSome(m - {k}, n - {k});
      } else {
        SumOfSome(m, n - {k});
      }
    }
  }

  lemma StillLeavingTotalsExact(q: map<Account, Leaving>, round: nat)
    ensures SumOver(ExitTotals(StillLeaving(q, round))) + SumOver(ExitDeduction(q, round))
         == SumOver(ExitTotals(q)) - SumOver(ForgottenBy(q, round))
  {
    var kept, taken, lost := KeptAmounts(q, round), ExitDeduction(q, round), ForgottenBy(q, round);
    var released: map<Account, int> := map a | a in q :: taken[a] + lost[a];
    SumOfSome(ExitTotals(StillLeaving(q, round)), kept);
    SumAdd(taken, lost, released);
    forall a | a in q
      ensures ExitTotals(q)[a] == kept[a] + released[a]
    {
      DeductionFits(q[a], round);
      ForgottenIs(q[a], round);
    }
    SumAdd(kept, released, ExitTotals(q));
  }

  /** A switch moves the staked total, against the ledger, by exactly what it forgets to take off. */
  lemma FinalizeExact(p: Params, s: Storage, supports: Option<seq<Support>>, issuance: nat)
    ensures Slack(OnFinalize(p, s, supports, issuance)) == Slack(s)
      + (if s.round.ShouldGotoNextRound(s.block + 1) then LeftOnTotal(s, s.round.index + 1) else 0)
  {
    hide SumOver, BeforeElection, EnactElection, CollatorDue, NominatorDue, ExitDeduction, ForgottenBy;
    var r, now := s.round.index + 1, s.block + 1;
    if s.round.ShouldGotoNextRound(now) {
      AfterSwitch(p, s, now);
      StakedAfterSwitch(p, s, now);
      AdvancedTotalsExact(s.collators, r);
      ConsolidatedTotals(s.nominators, r);
      StillLeavingTotalsExact(s.exitQueue, r);
      AfterElection(p, BeforeElection(p, s, now), supports, issuance, now);
    }
  }

  // ---- One step ----------------------------------------------------------

  /** What an exit drops from the ledger: the locked extra bond, and an earlier exit it overwrites. */
  function DroppedByExit(s: Storage, who: Account): nat {
    if who !in s.collators then 0
    else
      Total(s.collators[who].unlocking)
      + (if who in s.exitQueue then s.exitQueue[who].remaining + Total(s.exitQueue[who].unbonding) else 0)
  }

  lemma UnbondExact(p: Params, s: Storage, who: Account)
    requires Sound(p, s)
    ensures Slack(CollatorUnbond(s, who).0) == Slack(s) + DroppedByExit(s, who)
  {
    if who in s.collators {
      var c := s.collators[who];
      assert CollatorSound(p, s.round.index, c);
      CollatorGone(s.collators, who);
      ExitPut(s.exitQueue, who, Leaving(c.active, c.unbonding, WithdrawRound(s)));
    }
  }

  /** What a call leaves on the staked total beyond the ledger. */
  ghost function Unaccounted(p: Params, s: Storage, call: Call): int {
    if call.Finalize? && s.round.ShouldGotoNextRound(s.block + 1) then LeftOnTotal(s, s.round.index + 1)
    else if call.CallCollatorUnbond? then DroppedByExit(s, call.who)
    else if Orphans(p, s, call) then -(call.amount as int)
    else 0
  }

  /** The staked total moves against the ledger by exactly this, for every call however it ends. */
  lemma StepExact(p: Params, s: Storage, call: Call)
    requires Sound(p, s)
    ensures Slack(Next(p, s, call)) == Slack(s) + Unaccounted(p, s, call)
  {
    hide SumOver, OnFinalize, Nominate, CollatorUnbond, LeftOnTotal, DroppedByExit, Slack;
    match call
    case CallNominate(who, candidate, amount) => NominateSlack(p, s, who, candidate, amount);
    case CallCollatorUnbond(who) => UnbondExact(p, s, who);
    case Finalize(supports, issuance) => FinalizeExact(p, s, supports, issuance);
    case _ => OtherSlack(p, s, call);
  }

  // ---- Every run ---------------------------------------------------------

  ghost function UnaccountedBy(p: Params, s: Storage, calls: seq<Call>): int {
    if calls == [] then 0
    else
      var init := calls[..|calls| - 1];
      UnaccountedBy(p, s, init) + Unaccounted(p, Run(p, s, init), calls[|calls| - 1])
  }

  lemma {:induction false} RunExact(p: Params, s: Storage, calls: seq<Call>)
    requires Sound(p, s)
    ensures Slack(Run(p, s, calls)) == Slack(s) + UnaccountedBy(p, s, calls)
  {
    hide Sound, Slack, Next, Unaccounted;
    if calls != [] {
      var init := calls[..|calls| - 1];
      RunExact(p, s, init);
      RunSound(p, s, init);
      StepExact(p, Run(p, s, init), calls[|calls| - 1]);
    }
  }

  /** The amounts of genesis stakers whose bond was refused. */
  function RefusedTotal(p: Params, s: Storage, stakers: seq<Staker>): nat {
    if stakers == [] then 0
    else
      var init, last := stakers[..|stakers| - 1], stakers[|stakers| - 1];
      RefusedTotal(p, s, init)
      + (if last.who in GenesisBonds(p, s, init).collators || last.amount < p.minCollatorStake then last.amount else 0)
  }

  lemma {:induction false} GenesisBondsExact(p: Params, balances: Balances, stakers: seq<Staker>)
    ensures SumOver(CollatorTotals(GenesisBonds(p, Blank(balances), stakers).collators))
         == StakersTotal(stakers) - RefusedTotal(p, Blank(balances), stakers)
  {
    if stakers == [] {
      SumEmpty(CollatorTotals(map[]));
    } else {
      hide SumOver;
      var init, last := stakers[..|stakers| - 1], stakers[|stakers| - 1];
      GenesisBondsExact(p, balances, init);
      var s := GenesisBonds(p, Blank(balances), init);
      CollatorPut(s.collators, last.who, NewCollator(last.amount, s.round.NextRoundIndex()));
    }
  }

  lemma GenesisExact(p: Params, balances: Balances, stakers: seq<Staker>, issuance: nat)
    ensures Slack(Genesis(p, balances, stakers, issuance)) == RefusedTotal(p, Blank(balances), stakers)
  {
    hide SumOver;
    GenesisBondsFresh(p, balances, stakers);
    GenesisBondsExact(p, balances, stakers);
    SumEmpty(NominatorTotals(map[]));
    SumEmpty(ExitTotals(map[]));
  }

  /**
   After any run from any genesis: the staked total is what the ledger holds, plus
   the stakers refused at genesis, plus what exits and switches left on it, less
   what orphaned nominations added to the ledger alone.
   */
  lemma StakedTotalAccountedFor(p: Params, balances: Balances, stakers: seq<Staker>, issuance: nat, calls: seq<Call>)
    ensures var g := Genesis(p, balances, stakers, issuance);
      Run(p, g, calls).totalStaked
      == Stakes(Run(p, g, calls)) + RefusedTotal(p, Blank(balances), stakers) + UnaccountedBy(p, g, calls)
  {
    hide Genesis, Sound, Stakes;
    var g := Genesis(p, balances, stakers, issuance);
    GenesisSound(p, balances, stakers, issuance);
    GenesisExact(p, balances, stakers, issuance);
    RunExact(p, g, calls);
  }
}

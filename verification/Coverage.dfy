/**
 The staked total against what the ledger holds: collators, nominators and
 the exit queue. It may exceed their sum and must not fall below it, since the
 round switch subtracts from it without a check.
 */
module Coverage {
  import opened Options
  import opened Sums
  import opened Entities
  import opened Currency
  import opened Staking
  import opened Soundness

  ghost function CollatorTotals(m: map<Account, Collator>): map<Account, int> {
    map a | a in m :: m[a].total
  }

  ghost function NominatorTotals(m: map<Account, Nominator>): map<Account, int> {
    map a | a in m :: m[a].total
  }

  ghost function ExitTotals(m: map<Account, Leaving>): map<Account, int> {
    map a | a in m :: m[a].Amount()
  }

  ghost function Stakes(s: Storage): int {
    SumOver(CollatorTotals(s.collators)) + SumOver(NominatorTotals(s.nominators)) + SumOver(ExitTotals(s.exitQueue))
  }

  /** How far the staked total exceeds the ledger. */
  ghost function Slack(s: Storage): int { s.totalStaked - Stakes(s) }

  ghost predicate Covered(s: Storage) { 0 <= Slack(s) }

  /**
   The guard of the branch in which `nominate` fails after it has written the
   nominator's record: the search misses the candidate among the nominator's
   bonds and then finds the nominator among the candidate's.
   */
  predicate Orphans(p: Params, s: Storage, call: Call) {
    && call.CallNominate?
    && call.amount >= p.minNominatorStake
    && call.candidate in s.collators
    && s.collators[call.candidate].IsActive()
    && |s.collators[call.candidate].nominations| < p.maxNominations
    && NominatorAfter(s, call.who, call.candidate, call.amount).Some?
    && Found(s.collators[call.candidate].nominations, call.who)
  }

  // ---- Sums under updates ------------------------------------------------

  lemma CollatorPut(m: map<Account, Collator>, a: Account, c: Collator)
    ensures SumOver(CollatorTotals(m[a := c]))
         == SumOver(CollatorTotals(m)) + c.total - (if a in m then m[a].total else 0)
  {
    assert CollatorTotals(m[a := c]) == CollatorTotals(m)[a := c.total];
    SumPut(CollatorTotals(m), a, c.total);
  }

  lemma CollatorGone(m: map<Account, Collator>, a: Account)
    requires a in m
    ensures SumOver(CollatorTotals(m - {a})) == SumOver(CollatorTotals(m)) - m[a].total
  {
    assert CollatorTotals(m - {a}) == CollatorTotals(m) - {a};
    SumSplit(CollatorTotals(m), a);
  }

  lemma NominatorPut(m: map<Account, Nominator>, a: Account, n: Nominator)
    ensures SumOver(NominatorTotals(m[a := n]))
         == SumOver(NominatorTotals(m)) + n.total - (if a in m then m[a].total else 0)
  {
    assert NominatorTotals(m[a := n]) == NominatorTotals(m)[a := n.total];
    SumPut(NominatorTotals(m), a, n.total);
  }

  lemma ExitPut(m: map<Account, Leaving>, a: Account, l: Leaving)
    ensures SumOver(ExitTotals(m[a := l]))
         == SumOver(ExitTotals(m)) + l.Amount() - (if a in m then m[a].Amount() else 0)
  {
    assert ExitTotals(m[a := l]) == ExitTotals(m)[a := l.Amount()];
    SumPut(ExitTotals(m), a, l.Amount());
  }

  lemma AdvancedTotals(m: map<Account, Collator>, round: nat)
    ensures SumOver(CollatorTotals(Advanced(m, round))) <= SumOver(CollatorTotals(m))
  {
    SumMono(CollatorTotals(Advanced(m, round)), CollatorTotals(m));
  }

  lemma ConsolidatedTotals(m: map<Account, Nominator>, round: nat)
    ensures SumOver(NominatorTotals(Consolidated(m, round)))
         == SumOver(NominatorTotals(m)) - SumOver(NominatorDue(m, round))
  {
    SumAdd(NominatorTotals(Consolidated(m, round)), NominatorDue(m, round), NominatorTotals(m));
  }

  /** One leaver: what stays and what is deducted fit into what was there. */
  lemma DeductionFits(l: Leaving, round: nat)
    ensures (if l.when > round then l.(unbonding := Kept(l.unbonding, round)).Amount() else 0) + l.Deduction(round)
         <= l.Amount()
    ensures l.Release(round) + (if l.when > round then l.(unbonding := Kept(l.unbonding, round)).Amount() else 0)
         == l.Amount()
  {
    KeptAndDue(l.unbonding, round);
  }

  lemma StillLeavingTotals(m: map<Account, Leaving>, round: nat)
    ensures SumOver(ExitTotals(StillLeaving(m, round))) + SumOver(ExitDeduction(m, round)) <= SumOver(ExitTotals(m))
  {
    var after := ExitTotals(StillLeaving(m, round));
    var kept: map<Account, int> := map a | a in m :: if a in after then after[a] else 0;
    var spent: map<Account, int> := map a | a in m :: kept[a] + ExitDeduction(m, round)[a];
    SumMono(after, kept);
    SumAdd(kept, ExitDeduction(m, round), spent);
    forall a | a in m
      ensures spent[a] <= ExitTotals(m)[a]
    {
      DeductionFits(m[a], round);
    }
    SumMono(spent, ExitTotals(m));
  }

  // ---- One step ----------------------------------------------------------

  lemma StakedAfterSwitch(p: Params, s: Storage, now: nat)
    ensures BeforeElection(p, s, now).totalStaked
         == s.totalStaked - SumOver(NominatorDue(s.nominators, s.round.index + 1))
                          - SumOver(ExitDeduction(s.exitQueue, s.round.index + 1))
  {
    hide SumOver, DepositEach, UnreserveEach, NominatorDue, ExitDeduction;
  }

  lemma FinalizeSlack(p: Params, s: Storage, supports: Option<seq<Support>>, issuance: nat)
    ensures Slack(OnFinalize(p, s, supports, issuance)) >= Slack(s)
  {
    hide SumOver, BeforeElection, EnactElection;
    var r, now := s.round.index + 1, s.block + 1;
    if s.round.ShouldGotoNextRound(now) {
      AfterSwitch(p, s, now);
      StakedAfterSwitch(p, s, now);
      AdvancedTotals(s.collators, r);
      ConsolidatedTotals(s.nominators, r);
      StillLeavingTotals(s.exitQueue, r);
      AfterElection(p, BeforeElection(p, s, now), supports, issuance, now);
    }
  }

  lemma UnbondSlack(p: Params, s: Storage, who: Account)
    requires Sound(p, s)
    ensures Slack(CollatorUnbond(s, who).0) >= Slack(s)
  {
    if who in s.collators {
      var c := s.collators[who];
      assert CollatorSound(p, s.round.index, c);
      CollatorGone(s.collators, who);
      ExitPut(s.exitQueue, who, Leaving(c.active, c.unbonding, WithdrawRound(s)));
    }
  }

  lemma NominateSlack(p: Params, s: Storage, who: Account, candidate: Account, amount: nat)
    ensures Slack(Nominate(p, s, who, candidate, amount).0)
         == Slack(s) - (if Orphans(p, s, CallNominate(who, candidate, amount)) then amount else 0)
  {
    hide SumOver;
    var n := NominatorAfter(s, who, candidate, amount);
    if candidate in s.collators && n.Some? {
      NominatorPut(s.nominators, who, n.value);
      var c := s.collators[candidate];
      CollatorPut(s.collators, candidate, c.(nominations := c.nominations + [Bond(who, amount)]));
    }
  }

  /** Calls that change one collator and one nominator at most, and the staked total along with them. */
  lemma OtherSlack(p: Params, s: Storage, call: Call)
    requires !call.Finalize? && !call.CallNominate? && !call.CallCollatorUnbond?
    ensures Slack(Next(p, s, call)) == Slack(s)
  {
    hide SumOver, OnFinalize;
    var t := Next(p, s, call);
    match call {
      case CallBond(who, amount) =>
        if who in t.collators { CollatorPut(s.collators, who, t.collators[who]); }
      case CallForceOnboard(candidate) =>
        if candidate in t.collators { CollatorPut(s.collators, candidate, t.collators[candidate]); }
      case CallBondExtra(who, amount) =>
        if who in t.collators { CollatorPut(s.collators, who, t.collators[who]); }
      case CallBondLess(who, less) =>
        if who in t.collators { CollatorPut(s.collators, who, t.collators[who]); }
      case CallNominateExtra(who, candidate, amount) => OneOfEachSlack(s, t, candidate, who);
      case CallNominateLess(who, candidate, less) => OneOfEachSlack(s, t, candidate, who);
      case CallNominatorLeaveCollator(who, candidate) => OneOfEachSlack(s, t, candidate, who);
      case _ =>
    }
  }

  lemma OneOfEachSlack(s: Storage, t: Storage, c: Account, n: Account)
    requires t.exitQueue == s.exitQueue
    requires t == s ||
             (c in s.collators && c in t.collators && n in s.nominators && n in t.nominators
              && t.collators == s.collators[c := t.collators[c]]
              && t.nominators == s.nominators[n := t.nominators[n]]
              && t.collators[c].total == s.collators[c].total
              && t.totalStaked - s.totalStaked == t.nominators[n].total - s.nominators[n].total)
    ensures Slack(t) == Slack(s)
  {
    if t != s {
      CollatorPut(s.collators, c, t.collators[c]);
      NominatorPut(s.nominators, n, t.nominators[n]);
    }
  }

  /** The slack shrinks in one case only: an orphaning nomination, and by its amount. */
  lemma StepSlack(p: Params, s: Storage, call: Call)
    requires Sound(p, s)
    ensures Orphans(p, s, call) ==> Slack(Next(p, s, call)) == Slack(s) - call.amount
    ensures !Orphans(p, s, call) ==> Slack(Next(p, s, call)) >= Slack(s)
  {
    hide SumOver, OnFinalize, Nominate, CollatorUnbond;
    match call
    case CallNominate(who, candidate, amount) => NominateSlack(p, s, who, candidate, amount);
    case CallCollatorUnbond(who) => UnbondSlack(p, s, who);
    case Finalize(supports, issuance) => FinalizeSlack(p, s, supports, issuance);
    case _ => OtherSlack(p, s, call);
  }

  /** Exactly when one step keeps the staked total above the ledger. */
  lemma StepCoveredIff(p: Params, s: Storage, call: Call)
    requires Sound(p, s) && Covered(s)
    ensures Covered(Next(p, s, call)) <==> !(Orphans(p, s, call) && Slack(s) < call.amount)
  {
    hide Next, Stakes;
    StepSlack(p, s, call);
  }

  // ---- Every run ---------------------------------------------------------

  ghost predicate NoOrphans(p: Params, s: Storage, calls: seq<Call>) {
    calls == [] ||
    var init := calls[..|calls| - 1];
    NoOrphans(p, s, init) && !Orphans(p, Run(p, s, init), calls[|calls| - 1])
  }

  /** Every prefix of such a run is one too. */
  lemma {:induction false} NoOrphansPrefix(p: Params, s: Storage, calls: seq<Call>, i: nat)
    requires NoOrphans(p, s, calls) && i <= |calls|
    ensures NoOrphans(p, s, calls[..i])
  {
    hide Orphans, Run;
    if i == |calls| {
      assert calls[..i] == calls;
    } else {
      NoOrphansPrefix(p, s, calls[..|calls| - 1], i);
      assert calls[..|calls| - 1][..i] == calls[..i];
    }
  }

  lemma {:induction false} GenesisBondsCovered(p: Params, balances: Balances, stakers: seq<Staker>)
    ensures SumOver(CollatorTotals(GenesisBonds(p, Blank(balances), stakers).collators)) <= StakersTotal(stakers)
  {
    if stakers != [] {
      var init, last := stakers[..|stakers| - 1], stakers[|stakers| - 1];
      GenesisBondsCovered(p, balances, init);
      var s := GenesisBonds(p, Blank(balances), init);
      CollatorPut(s.collators, last.who, NewCollator(last.amount, s.round.NextRoundIndex()));
    }
  }

  lemma GenesisCovered(p: Params, balances: Balances, stakers: seq<Staker>, issuance: nat)
    ensures Covered(Genesis(p, balances, stakers, issuance))
  {
    GenesisBondsFresh(p, balances, stakers);
    GenesisBondsCovered(p, balances, stakers);
  }

  lemma {:induction false} RunCovered(p: Params, s: Storage, calls: seq<Call>)
    requires Sound(p, s) && Covered(s) && NoOrphans(p, s, calls)
    ensures Covered(Run(p, s, calls))
  {
    hide Sound, Covered, Next;
    if calls != [] {
      var init := calls[..|calls| - 1];
      RunCovered(p, s, init);
      RunSound(p, s, init);
      StepCoveredIff(p, Run(p, s, init), calls[|calls| - 1]);
    }
  }

  /** From any genesis, through any calls and switches, as long as no nomination orphans its record. */
  lemma ReachableCovered(p: Params, balances: Balances, stakers: seq<Staker>, issuance: nat, calls: seq<Call>)
    requires NoOrphans(p, Genesis(p, balances, stakers, issuance), calls)
    ensures Covered(Run(p, Genesis(p, balances, stakers, issuance), calls))
  {
    GenesisSound(p, balances, stakers, issuance);
    GenesisCovered(p, balances, stakers, issuance);
    RunCovered(p, Genesis(p, balances, stakers, issuance), calls);
  }
}

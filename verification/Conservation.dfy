/**
 The exact account of every reserve over a run, and of what an account owns.
 */
module Conservation {
  import opened Sums
  import opened Entities
  import opened Currency
  import opened Staking
  import opened Soundness
  import opened Mirror
  import opened Backing

  /** Exactly when leaving strands nothing. */
  lemma UnbondStrandsNothingIff(p: Params, s: Storage, who: Account)
    requires Sound(p, s) && Backed(s) && who in s.collators
    ensures Surplus(CollatorUnbond(s, who).0, who) == Surplus(s, who)
       <==> Total(s.collators[who].unlocking) == 0 && Exiting(s, who) == 0
  {
    hide Surplus;
    UnbondSurplus(p, s, who, who);
  }

  ghost function StrandedBy(p: Params, s: Storage, calls: seq<Call>, a: Account): nat {
    if calls == [] then 0
    else
      var init := calls[..|calls| - 1];
      StrandedBy(p, s, init, a) + Stranded(Run(p, s, init), calls[|calls| - 1], a)
  }

  ghost function UnfundedBy(p: Params, s: Storage, calls: seq<Call>, a: Account): nat {
    if calls == [] then 0
    else
      var init := calls[..|calls| - 1];
      UnfundedBy(p, s, init, a) + Unfunded(p, Run(p, s, init), calls[|calls| - 1], a)
  }

  ghost function OverdrawnBy(p: Params, s: Storage, calls: seq<Call>, a: Account): int {
    if calls == [] then 0
    else
      var init := calls[..|calls| - 1];
      OverdrawnBy(p, s, init, a) + Overdrawn(p, Run(p, s, init), calls[|calls| - 1], a)
  }

  lemma {:induction false} RunSurplus(p: Params, s: Storage, calls: seq<Call>, a: Account)
    requires Sound(p, s) && Backed(s) && FittingRun(p, s, calls)
    ensures Surplus(Run(p, s, calls), a) == Surplus(s, a)
      + StrandedBy(p, s, calls, a) - UnfundedBy(p, s, calls, a) - OverdrawnBy(p, s, calls, a)
  {
    hide Sound, Backed, Fits, Next, Surplus, Stranded, Unfunded, Overdrawn;
    if calls != [] {
      var init := calls[..|calls| - 1];
      RunSurplus(p, s, init, a);
      RunBackedIff(p, s, init);
      RunSound(p, s, init);
      StepSurplus(p, Run(p, s, init), calls[|calls| - 1], a);
    }
  }

  lemma {:induction false} ExactRunKeeps(p: Params, s: Storage, calls: seq<Call>, a: Account)
    requires Mirrored(s) && Tight(s) && ExactRun(p, s, calls) && FundedRun(p, s, calls)
    ensures UnfundedBy(p, s, calls, a) == 0 && OverdrawnBy(p, s, calls, a) == 0
  {
    hide Mirrored, Tight, Duplicates, Next, Step, Overdrawn;
    if calls != [] {
      var init := calls[..|calls| - 1];
      ExactRunKeeps(p, s, init, a);
      RunMirror(p, s, init);
      MirroredNotOverdrawn(p, Run(p, s, init), calls[|calls| - 1], a);
    }
  }

  lemma {:induction false} GenesisBondsSurplus(p: Params, balances: Balances, stakers: seq<Staker>, a: Account)
    requires GenesisFunded(p, Blank(balances), stakers)
    ensures Surplus(GenesisBonds(p, Blank(balances), stakers), a) == Reserved(balances, a)
  {
    hide Owed;
    if stakers == [] {
      BlankOwed(balances, a);
    } else {
      var init, last := stakers[..|stakers| - 1], stakers[|stakers| - 1];
      GenesisBondsSurplus(p, balances, init, a);
      var s := GenesisBonds(p, Blank(balances), init);
      if DoBond(p, s, last.who, last.amount).1 == Ok {
        DepositOwed(p, s, CallBond(last.who, last.amount), a);
      }
    }
  }

  /**
   The conservation law, from a genesis that could be built and over a run that
   never owes more than it holds: an account's reserve is what it was at the
   start, plus what is owed to it now, plus what its exits stranded, less what
   was owed to it without a reserve or overdrawn by leaving. When every reserve
   succeeds and every search on a nominator's list is exact, the last two are zero.
   */
  lemma ReserveAccountedFor(p: Params, balances: Balances, stakers: seq<Staker>, issuance: nat,
                            calls: seq<Call>, a: Account)
    requires GenesisFunded(p, Blank(balances), stakers)
    requires FittingRun(p, Genesis(p, balances, stakers, issuance), calls)
    ensures var g := Genesis(p, balances, stakers, issuance);
            Reserved(Run(p, g, calls).balances, a)
            == Reserved(balances, a) + Owed(Run(p, g, calls), a)
             + StrandedBy(p, g, calls, a) - UnfundedBy(p, g, calls, a) - OverdrawnBy(p, g, calls, a)
  {
    var g := Genesis(p, balances, stakers, issuance);
    GenesisSound(p, balances, stakers, issuance);
    GenesisBondsSurplus(p, balances, stakers, a);
    GenesisBacked(p, balances, stakers, issuance);
    RunSurplus(p, g, calls, a);
  }

  /** The law in the ordinary case. */
  lemma ExactReserve(p: Params, balances: Balances, stakers: seq<Staker>, issuance: nat, calls: seq<Call>, a: Account)
    requires GenesisFunded(p, Blank(balances), stakers)
    requires ExactRun(p, Genesis(p, balances, stakers, issuance), calls)
    requires FundedRun(p, Genesis(p, balances, stakers, issuance), calls)
    ensures var g := Genesis(p, balances, stakers, issuance);
            Reserved(Run(p, g, calls).balances, a)
            == Reserved(balances, a) + Owed(Run(p, g, calls), a) + StrandedBy(p, g, calls, a)
  {
    hide Genesis, Mirrored, Tight, BackedThroughout, Owed;
    var g := Genesis(p, balances, stakers, issuance);
    GenesisMirror(p, balances, stakers, issuance);
    ReachableBacked(p, balances, stakers, issuance, calls);
    ExactRunKeeps(p, g, calls, a);
    ReserveAccountedFor(p, balances, stakers, issuance, calls, a);
  }

  // ---- Wealth ------------------------------------------------------------

  /** No call of the pallet creates or destroys funds: free and reserved together stay put. */
  lemma CallsConserveWealth(p: Params, s: Storage, call: Call)
    requires !call.Finalize? && !call.SetFree?
    ensures SameWealth(s.balances, Next(p, s, call).balances)
  {
    hide OnFinalize, UnreserveBonds, Found, Lookup, Raised, Lowered, Without, LastAmount;
    if call.CallCollatorUnbond? && call.who in s.collators {
      UnbondWealth(s, call.who);
    }
  }

  lemma UnbondWealth(s: Storage, who: Account)
    requires who in s.collators
    ensures SameWealth(s.balances, CollatorUnbond(s, who).0.balances)
  {
    UnreserveBondsWealth(s.balances, s.collators[who].nominations);
  }

  lemma UnreserveEachWealth(b: Balances, due: map<Account, nat>)
    ensures SameWealth(b, UnreserveEach(b, due))
  {
  }

  /** What the payout of a switch credits to `a`, if the account exists. */
  ghost function CreditAtSwitch(p: Params, s: Storage, a: Account): nat {
    var r := s.round.index + 1;
    if a !in s.balances || r <= p.payoutDuration then 0
    else NonNegative(PayoutOf(p, s, r - p.payoutDuration).Credits(ClippedIn(s.rewards, r - p.payoutDuration), a))
  }

  ghost function Wealth(b: Balances, a: Account): nat { Free(b, a) + Reserved(b, a) }

  lemma PayoutWealth(p: Params, s: Storage, now: nat, a: Account)
    ensures var e := PayoutStakers(p, EnterRound(s, now));
      && (a in e.balances <==> a in s.balances)
      && Wealth(e.balances, a) == Wealth(s.balances, a) + CreditAtSwitch(p, s, a)
  {
    hide Payout.Credits;
  }

  /** A round switch adds to what an account owns its payout credits and nothing else. */
  lemma SwitchMintsCreditsOnly(p: Params, s: Storage, now: nat, a: Account)
    ensures Wealth(BeforeElection(p, s, now).balances, a) == Wealth(s.balances, a) + CreditAtSwitch(p, s, a)
  {
    hide SumOver, PayoutStakers, UnreserveEach, Advanced, Consolidated, StillLeaving, CreditAtSwitch;
    PayoutWealth(p, s, now, a);
    var e := PayoutStakers(p, EnterRound(s, now));
    var u := UpdateCollators(e);
    var v := UpdateNominators(u);
    UnreserveEachWealth(e.balances, CollatorDue(e.collators, e.round.index));
    UnreserveEachWealth(u.balances, NominatorDue(u.nominators, u.round.index));
    UnreserveEachWealth(v.balances, ExitRelease(v.exitQueue, v.round.index));
  }
}

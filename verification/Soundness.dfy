/** What every reachable storage satisfies, whatever calls were made and however they ended. */
module Soundness {
  import opened Options
  import opened Sums
  import opened Entities
  import opened Currency
  import opened Staking

  ghost predicate CollatorSound(p: Params, round: nat, c: Collator) {
    && c.total == c.active + Total(c.unlocking) + Total(c.unbonding)
    && (c.status == Active || c.status == Onboarding)
    && (c.status == Onboarding ==> c.unbonding == [] && c.total >= p.minCollatorStake)
    && (c.status == Active ==> c.active >= p.minCollatorStake)
    && NoneAfter(c.unlocking, round + 1)
    && NoneBefore(c.unbonding, round)
  }

  ghost predicate NominatorSound(round: nat, n: Nominator) {
    && n.total >= Bonded(n.nominations) + Total(n.unbonding)
    && NoneBefore(n.unbonding, round)
  }

  ghost predicate LeavingSound(round: nat, l: Leaving) {
    && l.when >= round
    && NoneBefore(l.unbonding, round)
  }

  ghost predicate CollatorsSound(p: Params, round: nat, m: map<Account, Collator>) {
    forall a :: a in m ==> CollatorSound(p, round, m[a])
  }

  ghost predicate NominatorsSound(round: nat, m: map<Account, Nominator>) {
    forall a :: a in m ==> NominatorSound(round, m[a])
  }

  ghost predicate LeaversSound(round: nat, m: map<Account, Leaving>) {
    forall a :: a in m ==> LeavingSound(round, m[a])
  }

  ghost predicate Sound(p: Params, s: Storage) {
    && CollatorsSound(p, s.round.index, s.collators)
    && NominatorsSound(s.round.index, s.nominators)
    && LeaversSound(s.round.index, s.exitQueue)
  }

  // ---- One record --------------------------------------------------------

  lemma NewCollatorSound(p: Params, round: nat, amount: nat)
    requires amount >= p.minCollatorStake
    ensures CollatorSound(p, round, NewCollator(amount, round + 1))
  {
    TotalPush([], Chunk(amount, round + 1));
    assert [] + [Chunk(amount, round + 1)] == [Chunk(amount, round + 1)];
  }

  lemma BondExtraSound(p: Params, round: nat, c: Collator, extra: nat)
    requires CollatorSound(p, round, c)
    ensures CollatorSound(p, round, c.BondExtra(extra, round + 1))
  {
    TotalPush(c.unlocking, Chunk(extra, round + 1));
    PushRounds(c.unlocking, Chunk(extra, round + 1), round + 1);
  }

  lemma BondLessSound(p: Params, round: nat, c: Collator, less: nat, withdraw: nat)
    requires CollatorSound(p, round, c) && c.status == Active && withdraw >= round
    requires c.BondLess(less, withdraw).Some? && c.BondLess(less, withdraw).value.active >= p.minCollatorStake
    ensures CollatorSound(p, round, c.BondLess(less, withdraw).value)
  {
    TotalPush(c.unbonding, Chunk(less, withdraw));
    PushRounds(c.unbonding, Chunk(less, withdraw), round);
  }

  /** Forcing keeps the equation because an onboarding collator has nothing unbonding. */
  lemma ForceBondSound(p: Params, round: nat, c: Collator)
    requires CollatorSound(p, round, c) && !c.IsActive()
    ensures CollatorSound(p, round, c.ForceBond())
  {
  }

  /**
   The switch to the next round: the equation survives, nothing stays locked,
   the collator is active with the minimum at stake and no unbonding is overdue.
   */
  lemma AdvanceSound(p: Params, round: nat, c: Collator)
    requires CollatorSound(p, round, c)
    ensures CollatorSound(p, round + 1, c.Advance(round + 1))
    ensures c.Advance(round + 1).IsActive() && c.Advance(round + 1).unlocking == []
    ensures 0 <= c.Advance(round + 1).total
  {
    AllDue(c.unlocking, round + 1);
    KeptAndDue(c.unbonding, round + 1);
    KeptRounds(c.unbonding, round + 1);
  }

  lemma AddNominationSound(round: nat, n: Nominator, bond: Bond)
    requires NominatorSound(round, n) && n.AddNomination(bond).Some?
    ensures NominatorSound(round, n.AddNomination(bond).value)
  {
    BondedPush(n.nominations, bond);
  }

  lemma RaisedBonded(bs: seq<Bond>, owner: Account, extra: nat)
    requires Lookup(bs, owner).Some?
    ensures Bonded(Raised(bs, owner, extra)) == Bonded(bs) + extra
    ensures forall a :: Held(Raised(bs, owner, extra), a) == Held(bs, a) + (if a == owner then extra else 0)
  {
    var i := First(bs, owner);
    BondedUpdate(bs, i, Bond(owner, bs[i].amount + extra));
  }

  lemma LoweredBonded(bs: seq<Bond>, owner: Account, less: nat)
    requires Lookup(bs, owner).Some? && Lookup(bs, owner).value > less
    ensures Bonded(Lowered(bs, owner, less)) == Bonded(bs) - less
    ensures forall a :: Held(Lowered(bs, owner, less), a) == Held(bs, a) - (if a == owner then less else 0)
  {
    var i := First(bs, owner);
    BondedUpdate(bs, i, Bond(owner, bs[i].amount - less));
  }

  lemma NominatorLessSound(round: nat, n: Nominator, candidate: Account, less: nat, withdraw: nat)
    requires NominatorSound(round, n) && withdraw >= round
    requires Lookup(n.nominations, candidate).Some? && Lookup(n.nominations, candidate).value > less
    ensures NominatorSound(round, n.(nominations := Lowered(n.nominations, candidate, less),
                                     unbonding := n.unbonding + [Chunk(less, withdraw)]))
  {
    LoweredBonded(n.nominations, candidate, less);
    TotalPush(n.unbonding, Chunk(less, withdraw));
    PushRounds(n.unbonding, Chunk(less, withdraw), round);
  }

  lemma NominatorLeaveSound(round: nat, n: Nominator, candidate: Account, withdraw: nat)
    requires NominatorSound(round, n) && withdraw >= round
    requires LastAmount(n.nominations, candidate).Some?
    ensures NominatorSound(round, n.(nominations := Without(n.nominations, candidate),
              unbonding := n.unbonding + [Chunk(LastAmount(n.nominations, candidate).value, withdraw)]))
  {
    BondedWithout(n.nominations, candidate);
    TotalPush(n.unbonding, Chunk(LastAmount(n.nominations, candidate).value, withdraw));
    PushRounds(n.unbonding, Chunk(LastAmount(n.nominations, candidate).value, withdraw), round);
  }

  lemma ConsolidateSound(round: nat, n: Nominator)
    requires NominatorSound(round, n)
    ensures NominatorSound(round + 1, n.ConsolidateUnbonded(round + 1))
    ensures 0 <= n.ConsolidateUnbonded(round + 1).total
  {
    KeptAndDue(n.unbonding, round + 1);
    KeptRounds(n.unbonding, round + 1);
  }

  lemma CollatorsPut(p: Params, round: nat, m: map<Account, Collator>, a: Account, c: Collator)
    requires CollatorsSound(p, round, m) && CollatorSound(p, round, c)
    ensures CollatorsSound(p, round, m[a := c])
  {
  }

  lemma NominatorsPut(round: nat, m: map<Account, Nominator>, a: Account, n: Nominator)
    requires NominatorsSound(round, m) && NominatorSound(round, n)
    ensures NominatorsSound(round, m[a := n])
  {
  }

  /** A change of a collator's bonds alone does not touch its soundness. */
  lemma NominationsDoNotMatter(p: Params, round: nat, m: map<Account, Collator>, a: Account, bonds: seq<Bond>)
    requires CollatorsSound(p, round, m) && a in m
    ensures CollatorsSound(p, round, m[a := m[a].(nominations := bonds)])
  {
    CollatorsPut(p, round, m, a, m[a].(nominations := bonds));
  }

  // ---- One step ----------------------------------------------------------

  lemma NominatorAfterSound(s: Storage, who: Account, candidate: Account, amount: nat)
    requires NominatorsSound(s.round.index, s.nominators)
    ensures var n := NominatorAfter(s, who, candidate, amount);
            n.Some? ==> NominatorSound(s.round.index, n.value)
  {
    if who in s.nominators {
      if s.nominators[who].AddNomination(Bond(candidate, amount)).Some? {
        AddNominationSound(s.round.index, s.nominators[who], Bond(candidate, amount));
      }
    } else {
      BondedPush([], Bond(candidate, amount));
      assert [] + [Bond(candidate, amount)] == [Bond(candidate, amount)];
    }
  }

  lemma NominateSound(p: Params, s: Storage, who: Account, candidate: Account, amount: nat)
    requires Sound(p, s)
    ensures Sound(p, Nominate(p, s, who, candidate, amount).0)
  {
    var n := NominatorAfter(s, who, candidate, amount);
    NominatorAfterSound(s, who, candidate, amount);
    if n.Some? && candidate in s.collators {
      NominatorsPut(s.round.index, s.nominators, who, n.value);
      NominationsDoNotMatter(p, s.round.index, s.collators, candidate,
                             s.collators[candidate].nominations + [Bond(who, amount)]);
    }
  }

  lemma NominateExtraSound(p: Params, s: Storage, who: Account, candidate: Account, extra: nat)
    requires Sound(p, s)
    ensures Sound(p, NominateExtra(s, who, candidate, extra).0)
  {
    var t := NominateExtra(s, who, candidate, extra);
    if t.1 == Ok {
      RaisedBonded(s.nominators[who].nominations, candidate, extra);
      NominatorsPut(s.round.index, s.nominators, who, t.0.nominators[who]);
      NominationsDoNotMatter(p, s.round.index, s.collators, candidate, t.0.collators[candidate].nominations);
    }
  }

  lemma NominateLessSound(p: Params, s: Storage, who: Account, candidate: Account, less: nat)
    requires Sound(p, s)
    ensures Sound(p, NominateLess(p, s, who, candidate, less).0)
  {
    var t := NominateLess(p, s, who, candidate, less);
    if t.1 == Ok {
      NominatorLessSound(s.round.index, s.nominators[who], candidate, less, WithdrawRound(s));
      NominatorsPut(s.round.index, s.nominators, who, t.0.nominators[who]);
      NominationsDoNotMatter(p, s.round.index, s.collators, candidate, t.0.collators[candidate].nominations);
    }
  }

  lemma NominatorLeaveCollatorSound(p: Params, s: Storage, who: Account, candidate: Account)
    requires Sound(p, s)
    ensures Sound(p, NominatorLeaveCollator(s, who, candidate).0)
  {
    var t := NominatorLeaveCollator(s, who, candidate);
    if t.1 == Ok {
      NominatorLeaveSound(s.round.index, s.nominators[who], candidate, WithdrawRound(s));
      NominatorsPut(s.round.index, s.nominators, who, t.0.nominators[who]);
      NominationsDoNotMatter(p, s.round.index, s.collators, candidate, t.0.collators[candidate].nominations);
    }
  }

  lemma BondSound(p: Params, s: Storage, who: Account, amount: nat)
    requires Sound(p, s)
    ensures Sound(p, DoBond(p, s, who, amount).0)
  {
    if amount >= p.minCollatorStake {
      NewCollatorSound(p, s.round.index, amount);
      CollatorsPut(p, s.round.index, s.collators, who, NewCollator(amount, s.round.NextRoundIndex()));
    }
  }

  lemma ForceOnboardSound(p: Params, s: Storage, candidate: Account)
    requires Sound(p, s)
    ensures Sound(p, ForceOnboard(s, candidate).0)
  {
    if candidate in s.collators && !s.collators[candidate].IsActive() {
      ForceBondSound(p, s.round.index, s.collators[candidate]);
      CollatorsPut(p, s.round.index, s.collators, candidate, s.collators[candidate].ForceBond());
    }
  }

  lemma BondMoreSound(p: Params, s: Storage, who: Account, extra: nat)
    requires Sound(p, s)
    ensures Sound(p, BondExtra(s, who, extra).0)
  {
    if who in s.collators {
      BondExtraSound(p, s.round.index, s.collators[who], extra);
      CollatorsPut(p, s.round.index, s.collators, who, s.collators[who].BondExtra(extra, s.round.NextRoundIndex()));
    }
  }

  lemma BondFewerSound(p: Params, s: Storage, who: Account, less: nat)
    requires Sound(p, s)
    ensures Sound(p, BondLess(p, s, who, less).0)
  {
    if BondLess(p, s, who, less).1 == Ok {
      BondLessSound(p, s.round.index, s.collators[who], less, WithdrawRound(s));
      CollatorsPut(p, s.round.index, s.collators, who, s.collators[who].BondLess(less, WithdrawRound(s)).value);
    }
  }

  lemma CollatorUnbondSound(p: Params, s: Storage, who: Account)
    requires Sound(p, s)
    ensures Sound(p, CollatorUnbond(s, who).0)
  {
  }

  /** The call finalises the block that ends a round. */
  ghost predicate Switches(s: Storage, call: Call) {
    call.Finalize? && s.round.ShouldGotoNextRound(s.block + 1)
  }

  /** `t` holds the records of `s` after a switch at block `now`. */
  ghost predicate Switched(s: Storage, t: Storage, now: nat) {
    var r := s.round.index + 1;
    && t.collators == Advanced(s.collators, r)
    && t.nominators == Consolidated(s.nominators, r)
    && t.exitQueue == StillLeaving(s.exitQueue, r)
    && t.round == RoundInfo(r, now, s.settings.blocksPerRound)
    && t.settings == s.settings
    && t.block == s.block
  }

  lemma AfterSwitch(p: Params, s: Storage, now: nat)
    ensures Switched(s, BeforeElection(p, s, now), now)
  {
    hide DepositEach, SumOver, UnreserveEach;
  }

  ghost predicate AllAtWork(p: Params, m: map<Account, Collator>) {
    forall a :: a in m ==> m[a].IsActive() && m[a].unlocking == [] && m[a].active >= p.minCollatorStake
  }

  lemma AdvancedSound(p: Params, round: nat, m: map<Account, Collator>)
    requires CollatorsSound(p, round, m)
    ensures CollatorsSound(p, round + 1, Advanced(m, round + 1))
    ensures AllAtWork(p, Advanced(m, round + 1))
  {
    forall a | a in m
      ensures CollatorSound(p, round + 1, m[a].Advance(round + 1))
      ensures m[a].Advance(round + 1).IsActive() && m[a].Advance(round + 1).unlocking == []
    {
      AdvanceSound(p, round, m[a]);
    }
  }

  lemma ConsolidatedSound(round: nat, m: map<Account, Nominator>)
    requires NominatorsSound(round, m)
    ensures NominatorsSound(round + 1, Consolidated(m, round + 1))
  {
    forall a | a in m
      ensures NominatorSound(round + 1, m[a].ConsolidateUnbonded(round + 1))
    {
      ConsolidateSound(round, m[a]);
    }
  }

  lemma StillLeavingSound(round: nat, m: map<Account, Leaving>)
    ensures LeaversSound(round, StillLeaving(m, round))
  {
    forall a | a in StillLeaving(m, round)
      ensures LeavingSound(round, StillLeaving(m, round)[a])
    {
      KeptRounds(m[a].unbonding, round);
    }
  }

  lemma SwitchedSound(p: Params, s: Storage, t: Storage, now: nat)
    requires Sound(p, s) && Switched(s, t, now)
    ensures Sound(p, t)
    ensures AllAtWork(p, t.collators)
  {
    hide Advanced, Consolidated, StillLeaving, CollatorsSound, NominatorsSound, LeaversSound, AllAtWork;
    AdvancedSound(p, s.round.index, s.collators);
    ConsolidatedSound(s.round.index, s.nominators);
    StillLeavingSound(s.round.index + 1, s.exitQueue);
  }

  /** At the moment of the election every collator is active with its whole stake at work. */
  lemma SwitchSound(p: Params, s: Storage, now: nat)
    requires Sound(p, s)
    ensures Sound(p, BeforeElection(p, s, now))
    ensures AllAtWork(p, BeforeElection(p, s, now).collators)
  {
    hide BeforeElection;
    AfterSwitch(p, s, now);
    SwitchedSound(p, s, BeforeElection(p, s, now), now);
  }

  /** The election and the bookkeeping after it touch rewards only. */
  lemma AfterElection(p: Params, s: Storage, supports: Option<seq<Support>>, issuance: nat, now: nat)
    ensures var t := RecordTotals(EnactElection(p, s, supports, issuance), issuance).(block := now);
            t == s.(rewards := t.rewards, block := now)
  {
    hide Elected;
  }

  lemma FinalizeSound(p: Params, s: Storage, supports: Option<seq<Support>>, issuance: nat)
    requires Sound(p, s)
    ensures Sound(p, OnFinalize(p, s, supports, issuance))
  {
    hide BeforeElection, EnactElection;
    var now := s.block + 1;
    SwitchSound(p, s, now);
    AfterElection(p, BeforeElection(p, s, now), supports, issuance, now);
  }

  lemma StepSound(p: Params, s: Storage, call: Call)
    requires Sound(p, s)
    ensures Sound(p, Next(p, s, call))
  {
    match call
    case CallBond(who, amount) => BondSound(p, s, who, amount);
    case CallForceOnboard(candidate) => ForceOnboardSound(p, s, candidate);
    case CallBondExtra(who, amount) => BondMoreSound(p, s, who, amount);
    case CallBondLess(who, less) => BondFewerSound(p, s, who, less);
    case CallCollatorUnbond(who) => CollatorUnbondSound(p, s, who);
    case CallNominate(who, candidate, amount) => NominateSound(p, s, who, candidate, amount);
    case CallNominateExtra(who, candidate, amount) => NominateExtraSound(p, s, who, candidate, amount);
    case CallNominateLess(who, candidate, less) => NominateLessSound(p, s, who, candidate, less);
    case CallNominatorLeaveCollator(who, candidate) => NominatorLeaveCollatorSound(p, s, who, candidate);
    case Finalize(supports, issuance) => FinalizeSound(p, s, supports, issuance);
    case _ =>
  }

  // ---- Every run ---------------------------------------------------------

  lemma {:induction false} GenesisBondsFresh(p: Params, balances: Balances, stakers: seq<Staker>)
    ensures var s := GenesisBonds(p, Blank(balances), stakers);
      && s.nominators == map[] && s.exitQueue == map[] && s.round.index == 0 && s.rewards == Blank(balances).rewards
      && (forall a :: a in s.collators ==>
            s.collators[a].total >= p.minCollatorStake
            && s.collators[a] == NewCollator(s.collators[a].total, 1))
  {
    if stakers != [] {
      GenesisBondsFresh(p, balances, stakers[..|stakers| - 1]);
    }
  }

  lemma GenesisSound(p: Params, balances: Balances, stakers: seq<Staker>, issuance: nat)
    ensures Sound(p, Genesis(p, balances, stakers, issuance))
  {
    GenesisBondsFresh(p, balances, stakers);
    var s := GenesisBonds(p, Blank(balances), stakers);
    forall a | a in s.collators
      ensures CollatorSound(p, 1, s.collators[a])
    {
      NewCollatorSound(p, 0, s.collators[a].total);
    }
  }

  lemma {:induction false} RunSound(p: Params, s: Storage, calls: seq<Call>)
    requires Sound(p, s)
    ensures Sound(p, Run(p, s, calls))
  {
    if calls != [] {
      var init := calls[..|calls| - 1];
      RunSound(p, s, init);
      StepSound(p, Run(p, s, init), calls[|calls| - 1]);
    }
  }

  /** In every reachable storage, from any genesis and through any calls. */
  lemma ReachableSound(p: Params, balances: Balances, stakers: seq<Staker>, issuance: nat, calls: seq<Call>)
    ensures Sound(p, Run(p, Genesis(p, balances, stakers, issuance), calls))
  {
    GenesisSound(p, balances, stakers, issuance);
    RunSound(p, Genesis(p, balances, stakers, issuance), calls);
  }
}

/** When rounds switch, and what the election is given at that moment. */
module Schedule {
  import opened Options
  import opened Entities
  import opened Currency
  import opened PerThing
  import opened Staking
  import opened Soundness

  /** The block that ends the current round: a round of length zero still takes one block. */
  function NextSwitch(s: Storage): nat { s.round.startIn + Max(s.round.length, 1) }

  ghost predicate OnSchedule(s: Storage) { s.round.startIn <= s.block < NextSwitch(s) }

  /** Within the schedule `now - start_in` cannot underflow, and decides the switch exactly. */
  lemma SwitchesExactly(s: Storage)
    requires OnSchedule(s)
    ensures s.round.startIn <= s.block + 1
    ensures s.round.ShouldGotoNextRound(s.block + 1) <==> s.block + 1 == NextSwitch(s)
  {
  }

  /** The prediction names that block exactly when rounds have a length. */
  lemma PredictionExactIff(s: Storage)
    ensures s.round.NextElectionPrediction() == NextSwitch(s) <==> s.round.length >= 1
  {
  }

  lemma StepSchedule(p: Params, s: Storage, call: Call)
    requires OnSchedule(s)
    ensures var t := Next(p, s, call);
      && OnSchedule(t)
      && (if call.Finalize? then t.block == s.block + 1 else t.block == s.block)
      && (if call.Finalize? && t.block == NextSwitch(s)
          then t.round == RoundInfo(s.round.index + 1, t.block, s.settings.blocksPerRound)
          else t.round == s.round)
  {
    hide OnFinalize, Reserve, UnreserveBonds, Found, Lookup, Raised, Lowered, Without, LastAmount;
    if call.Finalize? {
      FinalizeSchedule(p, s, call.supports, call.issuance);
    }
  }

  lemma FinalizeSchedule(p: Params, s: Storage, supports: Option<seq<Support>>, issuance: nat)
    requires OnSchedule(s)
    ensures var t := OnFinalize(p, s, supports, issuance);
      && OnSchedule(t)
      && t.block == s.block + 1
      && t.round == if t.block == NextSwitch(s)
                    then RoundInfo(s.round.index + 1, t.block, s.settings.blocksPerRound)
                    else s.round
  {
    hide BeforeElection, EnactElection;
    AfterSwitch(p, s, s.block + 1);
    AfterElection(p, BeforeElection(p, s, s.block + 1), supports, issuance, s.block + 1);
  }

  /**
   Whatever calls come in between, a change of the settings among them: the
   round index moves at the predicted block and not before.
   */
  lemma {:induction false} RunSchedule(p: Params, s: Storage, calls: seq<Call>)
    requires OnSchedule(s)
    ensures var t := Run(p, s, calls);
      && OnSchedule(t)
      && s.round.index <= t.round.index
      && s.block <= t.block
      && (t.round.index == s.round.index <==> t.block < NextSwitch(s))
      && (t.round.index == s.round.index ==> t.round == s.round)
  {
    hide Next;
    if calls != [] {
      RunSchedule(p, s, calls[..|calls| - 1]);
      StepSchedule(p, Run(p, s, calls[..|calls| - 1]), calls[|calls| - 1]);
    }
  }

  lemma ReachableOnSchedule(p: Params, balances: Balances, stakers: seq<Staker>, issuance: nat, calls: seq<Call>)
    ensures OnSchedule(Run(p, Genesis(p, balances, stakers, issuance), calls))
  {
    GenesisBlock(p, balances, stakers);
    RunSchedule(p, Genesis(p, balances, stakers, issuance), calls);
  }

  lemma {:induction false} GenesisBlock(p: Params, balances: Balances, stakers: seq<Staker>)
    ensures GenesisBonds(p, Blank(balances), stakers).block == 0
  {
    if stakers != [] {
      GenesisBlock(p, balances, stakers[..|stakers| - 1]);
    }
  }

  // ---- The election's data -----------------------------------------------

  /** The collators counted against the limit on targets. */
  function ActiveOnes(m: map<Account, Collator>): set<Account> {
    set a | a in m && m[a].IsActive()
  }

  /** The count that is checked is the length of the list that is returned exactly when all are active. */
  lemma CountMatchesIff(m: map<Account, Collator>)
    ensures |ActiveOnes(m)| == |m.Keys| <==> forall a :: a in m ==> m[a].IsActive()
  {
    assert ActiveOnes(m) <= m.Keys;
    Subset(ActiveOnes(m), m.Keys);
    if forall a :: a in m ==> m[a].IsActive() {
      assert ActiveOnes(m) == m.Keys;
    }
  }

  lemma {:induction false} Subset<T>(x: set<T>, y: set<T>)
    requires x <= y
    ensures |x| <= |y|
    ensures |x| == |y| ==> x == y
  {
    if x != {} {
      var e :| e in x;
      Subset(x - {e}, y - {e});
    }
  }

  /**
   At the election the counts checked against the limits are the lengths of the
   lists returned, of targets and of voters, and every collator has its whole
   stake, at least the minimum, at work.
   */
  lemma ElectionSeesEveryone(p: Params, balances: Balances, stakers: seq<Staker>, issuance: nat, calls: seq<Call>)
    ensures var s := Run(p, Genesis(p, balances, stakers, issuance), calls);
      var e := BeforeElection(p, s, s.block + 1);
      && |ActiveOnes(e.collators)| == |e.collators.Keys|
      && |e.nominators.Keys| + |ActiveOnes(e.collators)| == |e.collators.Keys| + |e.nominators.Keys|
      && AllAtWork(p, e.collators)
  {
    hide BeforeElection, Run, Genesis, Sound;
    var s := Run(p, Genesis(p, balances, stakers, issuance), calls);
    ReachableSound(p, balances, stakers, issuance, calls);
    SwitchSound(p, s, s.block + 1);
    CountMatchesIff(BeforeElection(p, s, s.block + 1).collators);
  }
}

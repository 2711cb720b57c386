/**
 The pallet in its own form: storage items as fields, calls that read, change
 and write them back, and round-switch loops that visit the entries of a map in
 whatever order the storage gives them.

 Every method is proved to make exactly the step of the state machine in
 Staking.dfy. The loops of the round switch also report whether an unsigned
 subtraction went below zero on the way.
 */
module Pallet {
  import opened Options
  import opened Sums
  import opened Entities
  import opened Currency
  import opened Staking
  import opened Soundness
  import opened Coverage
  import opened Schedule
  import opened Visiting

  class StakingPallet {
    const p: Params

    var collators: map<Account, Collator>
    var nominators: map<Account, Nominator>
    var exitQueue: map<Account, Leaving>
    var totalStaked: int
    var round: RoundInfo
    var settings: Settings
    var balances: Balances
    var clipped: map<nat, map<Account, Exposure>>
    var points: map<nat, map<Account, nat>>
    var totalPoints: map<nat, nat>
    var stakedAt: map<nat, int>
    var issuanceAt: map<nat, nat>
    var block: nat

    function Snapshot(): Storage
      reads this
    {
      Storage(collators, nominators, exitQueue, totalStaked, round, settings, balances,
              Rewards(clipped, points, totalPoints, stakedAt, issuanceAt), block)
    }

    /** `GenesisBuild::build`: panics unless every staker can pay. */
    constructor (p: Params, balances: Balances, stakers: seq<Staker>, issuance: nat)
      requires GenesisFunded(p, Blank(balances), stakers)
      ensures this.p == p
      ensures Snapshot() == Genesis(p, balances, stakers, issuance)
    {
      this.p := p;
      this.balances := balances;
      collators, nominators, exitQueue := map[], map[], map[];
      round, settings := RoundInfo(0, 0, 0), Settings(0, 0, 0);
      clipped, points, totalPoints, stakedAt, issuanceAt := map[], map[], map[], map[], map[];
      block, totalStaked := 0, 0;
      new;
      var total := BondStakers(stakers);
      GenesisBondsFresh(p, balances, stakers);
      totalStaked := total;
      round := RoundInfo(1, 0, p.blocksPerRound);
      stakedAt := stakedAt[1 := totalStaked];
      issuanceAt := issuanceAt[1 := issuance];
      settings := Settings(p.bondDuration, p.blocksPerRound, p.desiredTarget);
    }

    /** The loop of the genesis build. */
    method BondStakers(stakers: seq<Staker>) returns (total: nat)
      modifies this`collators, this`totalStaked, this`balances
      ensures total == StakersTotal(stakers)
      ensures Snapshot() == GenesisBonds(p, old(Snapshot()), stakers)
    {
      hide DoBond;
      total := 0;
      for i := 0 to |stakers|
        invariant total == StakersTotal(stakers[..i])
        invariant Snapshot() == GenesisBonds(p, old(Snapshot()), stakers[..i])
      {
        assert stakers[..i + 1][..i] == stakers[..i];
        total := total + stakers[i].amount;
        var _ := Bond(stakers[i].who, stakers[i].amount);
      }
      assert stakers[..|stakers|] == stakers;
    }

    // ---- Calls -----------------------------------------------------------

    method Config(newSettings: Settings) returns (r: Outcome)
      modifies this`settings
      ensures (Snapshot(), r) == Staking.Config(old(Snapshot()), newSettings)
    {
      settings := newSettings;
      r := Ok;
    }

    method Bond(who: Account, amount: nat) returns (r: Outcome)
      modifies this`collators, this`totalStaked, this`balances
      ensures (Snapshot(), r) == DoBond(p, old(Snapshot()), who, amount)
    {
      if who in collators { return Err(AlreadyBonded); }
      if amount < p.minCollatorStake { return Err(BondBelowMin); }
      collators := collators[who := NewCollator(amount, round.NextRoundIndex())];
      totalStaked := totalStaked + amount;
      balances := Reserve(balances, who, amount);
      r := Ok;
    }

    method ForceOnboard(candidate: Account) returns (r: Outcome)
      modifies this`collators
      ensures (Snapshot(), r) == Staking.ForceOnboard(old(Snapshot()), candidate)
    {
      if candidate !in collators { return Err(CandidateNotExist); }
      if collators[candidate].IsActive() { return Err(CandidateNotActive); }
      collators := collators[candidate := collators[candidate].ForceBond()];
      r := Ok;
    }

    method BondExtra(who: Account, extra: nat) returns (r: Outcome)
      modifies this`collators, this`totalStaked, this`balances
      ensures (Snapshot(), r) == Staking.BondExtra(old(Snapshot()), who, extra)
    {
      if who !in collators { return Err(BondNotExist); }
      var collator := collators[who];
      if !collator.IsActive() { return Err(CandidateNotActive); }
      collators := collators[who := collator.BondExtra(extra, round.NextRoundIndex())];
      totalStaked := totalStaked + extra;
      balances := Reserve(balances, who, extra);
      r := Ok;
    }

    method BondLess(who: Account, less: nat) returns (r: Outcome)
      modifies this`collators
      ensures (Snapshot(), r) == Staking.BondLess(p, old(Snapshot()), who, less)
    {
      if who !in collators { return Err(BondNotExist); }
      var collator := collators[who];
      if !collator.IsActive() { return Err(CandidateNotActive); }
      var after := collator.BondLess(less, round.index + settings.bondDuration);
      if after.None? { return Err(Underflow); }
      if after.value.active < p.minCollatorStake { return Err(BondBelowMin); }
      collators := collators[who := after.value];
      r := Ok;
    }

    method CollatorUnbond(who: Account) returns (r: Outcome)
      modifies this`collators, this`exitQueue, this`balances
      ensures (Snapshot(), r) == Staking.CollatorUnbond(old(Snapshot()), who)
    {
      if who !in collators { return Err(BondNotExist); }
      var collator := collators[who];
      var bonds := collator.nominations;
      for i := 0 to |bonds|
        invariant balances == UnreserveBonds(old(balances), bonds[..i])
        invariant collators == old(collators) && exitQueue == old(exitQueue)
      {
        assert bonds[..i + 1][..i] == bonds[..i];
        balances := Unreserve(balances, bonds[i].owner, bonds[i].amount);
      }
      assert bonds[..|bonds|] == bonds;
      exitQueue := exitQueue[who := Leaving(collator.active, collator.unbonding, round.index + settings.bondDuration)];
      collators := collators - {who};
      r := Ok;
    }

    method Nominate(who: Account, candidate: Account, amount: nat) returns (r: Outcome)
      modifies this`collators, this`nominators, this`totalStaked, this`balances
      ensures (Snapshot(), r) == Staking.Nominate(p, old(Snapshot()), who, candidate, amount)
    {
      if amount < p.minNominatorStake { return Err(NominateBelowMin); }
      if candidate !in collators { return Err(CandidateNotExist); }
      var collator := collators[candidate];
      if !collator.IsActive() { return Err(CandidateNotActive); }
      if |collator.nominations| >= p.maxNominations { return Err(TooManyNominations); }
      if who in nominators {
        var added := nominators[who].AddNomination(Entities.Bond(candidate, amount));
        if added.None? { return Err(AlreadyNominatedCollator); }
        nominators := nominators[who := added.value];
      } else {
        nominators := nominators[who := Nominator([Entities.Bond(candidate, amount)], amount, [])];
      }
      if Found(collator.nominations, who) { return Err(NominationNotExist); }
      collator := collator.(nominations := collator.nominations + [Entities.Bond(who, amount)]);
      collators := collators[candidate := collator];
      balances := Reserve(balances, who, amount);
      totalStaked := totalStaked + amount;
      r := Ok;
    }

    method NominateExtra(who: Account, candidate: Account, extra: nat) returns (r: Outcome)
      modifies this`collators, this`nominators, this`totalStaked, this`balances
      ensures (Snapshot(), r) == Staking.NominateExtra(old(Snapshot()), who, candidate, extra)
    {
      hide Raised, Lookup;
      if candidate !in collators { return Err(CandidateNotExist); }
      var collator := collators[candidate];
      if !collator.IsActive() { return Err(CandidateNotActive); }
      if who !in nominators { return Err(NominationNotExist); }
      var nominator := nominators[who];
      var mine, found := RaiseFirst(nominator.nominations, candidate, extra);
      if found.None? { return Err(CandidateNotExist); }
      nominator := nominator.(nominations := mine, total := nominator.total + extra);
      var theirs, present := RaiseFirst(collator.nominations, who, extra);
      if present.None? { return Err(NominationNotExist); }
      collators := collators[candidate := collator.(nominations := theirs)];
      nominators := nominators[who := nominator];
      balances := Reserve(balances, who, extra);
      totalStaked := totalStaked + extra;
      r := Ok;
    }

    method NominateLess(who: Account, candidate: Account, less: nat) returns (r: Outcome)
      modifies this`collators, this`nominators
      ensures (Snapshot(), r) == Staking.NominateLess(p, old(Snapshot()), who, candidate, less)
    {
      hide Lookup, Lowered;
      if candidate !in collators { return Err(CandidateNotExist); }
      var collator := collators[candidate];
      if !collator.IsActive() { return Err(CandidateNotActive); }
      if who !in nominators { return Err(NominationNotExist); }
      var nominator := nominators[who];
      var mine, after := LowerFirst(nominator.nominations, candidate, less);
      LoweredValue(nominator.nominations, candidate, less);
      if after.None? { return Err(CandidateNotExist); }
      if after.value.None? { return Err(Underflow); }
      if after.value.value < p.minNominatorStake { return Err(NominateBelowMin); }
      var theirs, left := LowerFirst(collator.nominations, who, less);
      LoweredValue(collator.nominations, who, less);
      if left.None? { return Err(NominationNotExist); }
      if left.value.None? { return Err(Underflow); }
      if left.value.value < p.minNominatorStake { return Err(NominateBelowMin); }
      collators := collators[candidate := collator.(nominations := theirs)];
      nominators := nominators[who := nominator.(nominations := mine,
                      unbonding := nominator.unbonding + [Chunk(less, round.index + settings.bondDuration)])];
      r := Ok;
    }

    method NominatorLeaveCollator(who: Account, candidate: Account) returns (r: Outcome)
      modifies this`collators, this`nominators
      ensures (Snapshot(), r) == Staking.NominatorLeaveCollator(old(Snapshot()), who, candidate)
    {
      hide Without, LastAmount;
      if who !in nominators { return Err(NominationNotExist); }
      if candidate !in collators { return Err(CandidateNotExist); }
      var nominator, collator := nominators[who], collators[candidate];
      var mine, last := RemoveAll(nominator.nominations, candidate);
      if last.None? { return Err(CandidateNotExist); }
      var theirs, present := RemoveAll(collator.nominations, who);
      if present.None? { return Err(NominationNotExist); }
      collators := collators[candidate := collator.(nominations := theirs)];
      nominators := nominators[who := nominator.(nominations := mine,
                      unbonding := nominator.unbonding + [Chunk(last.value, round.index + settings.bondDuration)])];
      r := Ok;
    }

    method NoteAuthor(author: Account)
      modifies this`points, this`totalPoints
      ensures Snapshot() == Staking.NoteAuthor(old(Snapshot()), author)
    {
      var r, now := Snapshot().rewards, round.index;
      var score := PointOf(r, now, author) + 20;
      points := points[now := PointsIn(r, now)[author := score]];
      totalPoints := totalPoints[now := TotalPoint(r, now) + 20];
    }

    // ---- Round switch ----------------------------------------------------

    method PayoutStakers()
      modifies this`balances, this`clipped
      ensures Snapshot() == Staking.PayoutStakers(p, old(Snapshot()))
    {
      hide Payout.ExposurePart, Payout.CommissionPart, DepositEach, PayoutOf, Deposit, DepositShares;
      if round.index <= p.payoutDuration { return; }
      var r := round.index - p.payoutDuration;
      var pay := PayoutOf(p, Snapshot(), r);
      var exposures := ClippedIn(Snapshot().rewards, r);
      clipped := clipped - {r};
      var todo := exposures.Keys;
      DepositEachNone(balances, pay, exposures - todo);
      while todo != {}
        invariant todo <= exposures.Keys && clipped == old(clipped) - {r}
        invariant balances == DepositEach(old(balances), pay, exposures - todo)
      {
        var acc :| acc in todo;
        var e := exposures[acc];
        DepositEachStep(old(balances), pay, exposures - todo, acc, e);
        assert exposures - (todo - {acc}) == (exposures - todo)[acc := e];
        todo := todo - {acc};
        var own := pay.ExposurePart(e.own) + pay.CommissionPart(acc);
        if own > pay.minimum {
          balances := Deposit(balances, acc, own);
        }
        PayNominators(pay, e.others);
      }
      assert exposures - {} == exposures;
    }

    method PayNominators(pay: Payout, others: seq<Share>)
      modifies this`balances
      ensures balances == DepositShares(old(balances), pay, others)
    {
      hide Payout.NominatorPart;
      assert DepositShares(balances, pay, others[..0]) == balances;
      for i := 0 to |others|
        invariant balances == DepositShares(old(balances), pay, others[..i])
      {
        DepositSharesPush(old(balances), pay, others, i);
        var v := pay.NominatorPart(others[i].value);
        if v > pay.minimum {
          balances := Deposit(balances, others[i].who, v);
        }
      }
      assert others[..|others|] == others;
    }

    /** Consolidates every collator and releases what has finished unbonding. */
    method UpdateCollators() returns (underflow: bool)
      modifies this`collators, this`balances
      ensures Snapshot() == Staking.UpdateCollators(old(Snapshot()))
      ensures CollatorsSuffice(old(collators)) ==> !underflow
    {
      hide Merge, UnreserveEach, SumOver, Unreserve, DueTotal, Collator.Advance;
      var r := round.index;
      var before, after, due := collators, Advanced(collators, r), CollatorDue(collators, r);
      var todo := before.Keys;
      underflow := false;
      MergeAll(before, after);
      NoneVisited(due);
      UnreserveEachNone(balances, due - todo);
      while todo != {}
        invariant todo <= before.Keys
        invariant collators == Merge(before, after, todo)
        invariant balances == UnreserveEach(old(balances), due - todo)
        invariant CollatorsSuffice(before) ==> !underflow
      {
        var acc :| acc in todo;
        MergeStep(before, after, todo, acc);
        VisitedStep(due, todo, acc);
        UnreserveEachStep(old(balances), due - todo, acc, due[acc]);
        var collator, released, low := ConsolidateCollator(collators[acc], r);
        underflow := underflow || low;
        balances := Unreserve(balances, acc, released);
        collators := collators[acc := collator];
        todo := todo - {acc};
      }
    }

    /** Consolidates every nominator; the staked total shrinks with each. */
    method UpdateNominators() returns (underflow: bool)
      modifies this`nominators, this`balances, this`totalStaked
      ensures Snapshot() == Staking.UpdateNominators(old(Snapshot()))
      ensures NominatorsSuffice(old(nominators), old(totalStaked)) ==> !underflow
    {
      hide Merge, UnreserveEach, SumOver, Unreserve, DueTotal, NominatorsSuffice, Nominator.ConsolidateUnbonded;
      var r := round.index;
      var before, after, due := nominators, Consolidated(nominators, r), NominatorDue(nominators, r);
      var todo := before.Keys;
      underflow := false;
      MergeAll(before, after);
      NoneVisited(due);
      UnreserveEachNone(balances, due - todo);
      while todo != {}
        invariant todo <= before.Keys
        invariant nominators == Merge(before, after, todo)
        invariant balances == UnreserveEach(old(balances), due - todo)
        invariant totalStaked == old(totalStaked) - SumOver(due - todo)
        invariant NominatorsSuffice(before, old(totalStaked)) ==> !underflow
      {
        var acc :| acc in todo;
        MergeStep(before, after, todo, acc);
        VisitedStep(due, todo, acc);
        UnreserveEachStep(old(balances), due - todo, acc, due[acc]);
        var nominator, unbonded, low := ConsolidateNominator(nominators[acc], r);
        underflow := underflow || low || totalStaked < unbonded;
        if NominatorsSuffice(before, old(totalStaked)) {
          NominatorFits(before, due, todo, acc, r, old(totalStaked));
        }
        totalStaked := totalStaked - unbonded;
        balances := Unreserve(balances, acc, unbonded);
        nominators := nominators[acc := nominator];
        todo := todo - {acc};
      }
    }

    /** Releases the due chunks of a leaver one by one; each write of the staked total starts from `current`. */
    method ReleaseDue(acc: Account, cs: seq<Chunk>, r: nat, current: int) returns (kept: seq<Chunk>, underflow: bool)
      modifies this`balances, this`totalStaked
      ensures kept == Kept(cs, r)
      ensures balances == Unreserve(old(balances), acc, DueTotal(cs, r))
      ensures totalStaked == LastWritten(old(totalStaked), current, Due(cs, r))
      ensures Total(cs) <= current ==> !underflow
    {
      hide Unreserve, UnreserveChunks;
      kept, underflow := [], false;
      UnreserveNothing(balances, acc);
      for i := 0 to |cs|
        invariant kept == Kept(cs[..i], r)
        invariant balances == UnreserveChunks(old(balances), acc, Due(cs[..i], r))
        invariant totalStaked == LastWritten(old(totalStaked), current, Due(cs[..i], r))
        invariant Total(cs) <= current ==> !underflow
      {
        assert cs[..i + 1][..i] == cs[..i];
        MemberAtMostTotal(cs, cs[i]);
        if cs[i].round > r {
          kept := kept + [cs[i]];
        } else {
          UnreserveChunksPush(old(balances), acc, Due(cs[..i], r), cs[i]);
          balances := Unreserve(balances, acc, cs[i].value);
          underflow := underflow || current < cs[i].value;
          totalStaked := current - cs[i].value;
        }
      }
      assert cs[..|cs|] == cs;
      UnreserveChunksIsTotal(old(balances), acc, Due(cs, r));
    }

    /** Releases all chunks of a leaver whose exit is due. */
    method ReleaseAll(acc: Account, cs: seq<Chunk>, current: int) returns (underflow: bool)
      modifies this`balances, this`totalStaked
      ensures balances == Unreserve(old(balances), acc, Total(cs))
      ensures totalStaked == LastWritten(old(totalStaked), current, cs)
      ensures Total(cs) <= current ==> !underflow
    {
      hide Unreserve, UnreserveChunks;
      underflow := false;
      UnreserveNothing(balances, acc);
      UnreserveChunksIsTotal(old(balances), acc, cs);
      for i := 0 to |cs|
        invariant balances == UnreserveChunks(old(balances), acc, cs[..i])
        invariant totalStaked == LastWritten(old(totalStaked), current, cs[..i])
        invariant Total(cs) <= current ==> !underflow
      {
        assert cs[..i + 1] == cs[..i] + [cs[i]];
        MemberAtMostTotal(cs, cs[i]);
        UnreserveChunksPush(old(balances), acc, cs[..i], cs[i]);
        balances := Unreserve(balances, acc, cs[i].value);
        underflow := underflow || current < cs[i].value;
        totalStaked := current - cs[i].value;
      }
      assert cs[..|cs|] == cs;
    }

    /** One leaver: either its due chunks, or everything once the exit round is reached. */
    method ExecuteExit(acc: Account, exit: Leaving) returns (underflow: bool)
      modifies this`exitQueue, this`balances, this`totalStaked
      ensures balances == Unreserve(old(balances), acc, exit.Release(round.index))
      ensures totalStaked == old(totalStaked) - exit.Deduction(round.index)
      ensures exitQueue == if exit.when > round.index
                           then old(exitQueue)[acc := exit.(unbonding := Kept(exit.unbonding, round.index))]
                           else old(exitQueue) - {acc}
      ensures exit.Amount() <= old(totalStaked) ==> !underflow
    {
      hide Unreserve, Kept, Due, Total;
      var current := totalStaked;
      if exit.when > round.index {
        var kept;
        kept, underflow := ReleaseDue(acc, exit.unbonding, round.index, current);
        exitQueue := exitQueue[acc := exit.(unbonding := kept)];
      } else {
        balances := Unreserve(balances, acc, exit.remaining);
        underflow := current < exit.remaining;
        totalStaked := current - exit.remaining;
        UnreserveTwice(old(balances), acc, exit.remaining, Total(exit.unbonding));
        var low := ReleaseAll(acc, exit.unbonding, current);
        underflow := underflow || low;
        exitQueue := exitQueue - {acc};
      }
    }

    method ExecuteExitQueue() returns (underflow: bool)
      modifies this`exitQueue, this`balances, this`totalStaked
      ensures Snapshot() == Staking.ExecuteExitQueue(old(Snapshot()))
      ensures SumOver(ExitTotals(old(exitQueue))) <= old(totalStaked) ==> !underflow
    {
      hide UnreserveEach, SumOver, Unreserve, StillLeaving, PartlyLeft, Leaving.Release, Leaving.Deduction;
      var r := round.index;
      var before, release, deduction := exitQueue, ExitRelease(exitQueue, r), ExitDeduction(exitQueue, r);
      var todo := before.Keys;
      underflow := false;
      PartlyLeftEnds(before, r);
      assert release.Keys == todo && deduction.Keys == todo;
      NoneVisited(release);
      NoneVisited(deduction);
      UnreserveEachNone(balances, release - todo);
      while todo != {}
        invariant todo <= before.Keys
        invariant exitQueue == PartlyLeft(before, r, todo)
        invariant balances == UnreserveEach(old(balances), release - todo)
        invariant totalStaked == old(totalStaked) - SumOver(deduction - todo)
        invariant SumOver(ExitTotals(before)) <= old(totalStaked) ==> !underflow
      {
        var acc :| acc in todo;
        PartlyLeftStep(before, r, todo, acc);
        VisitedStep(release, todo, acc);
        VisitedStep(deduction, todo, acc);
        UnreserveEachStep(old(balances), release - todo, acc, release[acc]);
        if SumOver(ExitTotals(before)) <= old(totalStaked) {
          LeaverFits(before, deduction, todo, acc, r, old(totalStaked));
        }
        var low := ExecuteExit(acc, exitQueue[acc]);
        underflow := underflow || low;
        todo := todo - {acc};
      }
    }

    // ---- Election --------------------------------------------------------

    /** Stores an exposure for every elected collator of the current round. */
    method EnactElection(supports: Option<seq<Support>>, issuance: nat)
      modifies this`clipped
      ensures Snapshot() == Staking.EnactElection(p, old(Snapshot()), supports, issuance)
    {
      hide ExposureOf;
      if supports.None? || supports.value == [] { return; }
      var sups, now := supports.value, round.index;
      ghost var before := ClippedIn(Snapshot().rewards, now);
      for i := 0 to |sups|
        invariant i == 0 ==> clipped == old(clipped)
        invariant i > 0 ==> clipped == old(clipped)[now := Elected(p, before, sups[..i], issuance)]
      {
        assert sups[..i + 1][..i] == sups[..i];
        assert sups[..0] == [];
        var e := CollectExposure(p, sups[i], issuance);
        var elected: map<Account, Exposure> := if now in clipped then clipped[now] else map[];
        clipped := clipped[now := elected[sups[i].who := e]];
      }
      assert sups[..|sups|] == sups;
    }

    /** Everything of a switch that comes before the election. */
    method SwitchRound(now: nat) returns (underflow: bool)
      modifies this
      ensures Snapshot() == BeforeElection(p, old(Snapshot()), now)
      ensures Sound(p, old(Snapshot())) && Covered(old(Snapshot())) ==> !underflow
    {
      hide Staking.PayoutStakers, Staking.UpdateCollators, Staking.UpdateNominators, Staking.ExecuteExitQueue;
      hide Sound, Covered, SumOver, CollatorsSuffice, NominatorsSuffice, ExitTotals;
      StageCover(p, Snapshot(), now);
      round := RoundInfo(round.index + 1, now, settings.blocksPerRound);
      assert Snapshot() == EnterRound(old(Snapshot()), now);
      PayoutStakers();
      var low1 := UpdateCollators();
      var low2 := UpdateNominators();
      var low3 := ExecuteExitQueue();
      underflow := low1 || low2 || low3;
    }

    method OnFinalize(supports: Option<seq<Support>>, issuance: nat) returns (underflow: bool)
      modifies this
      ensures Snapshot() == Staking.OnFinalize(p, old(Snapshot()), supports, issuance)
      ensures Sound(p, old(Snapshot())) && Covered(old(Snapshot())) ==> !underflow
    {
      hide BeforeElection, Staking.EnactElection, Sound, Covered;
      underflow := false;
      var now := block + 1;
      if round.ShouldGotoNextRound(now) {
        underflow := SwitchRound(now);
        EnactElection(supports, issuance);
        stakedAt := stakedAt[round.index := totalStaked];
        issuanceAt := issuanceAt[round.index := issuance];
      }
      block := now;
    }

    // ---- Runs ------------------------------------------------------------

    /** Balance changes made by others. */
    method SetFree(who: Account, free: nat)
      modifies this`balances
      ensures balances == old(balances)[who := AccountData(free, Reserved(old(balances), who))]
    {
      balances := balances[who := AccountData(free, Reserved(balances, who))];
    }

    /** One call or hook, as the runtime would dispatch it. */
    method Dispatch(call: Call) returns (r: Outcome, underflow: bool)
      modifies this
      ensures (Snapshot(), r) == Step(p, old(Snapshot()), call)
      ensures Sound(p, old(Snapshot())) && Covered(old(Snapshot())) ==> !underflow
    {
      hide Staking.Config, DoBond, Staking.ForceOnboard, Staking.BondExtra, Staking.BondLess, Staking.CollatorUnbond;
      hide Staking.Nominate, Staking.NominateExtra, Staking.NominateLess, Staking.NominatorLeaveCollator;
      hide Staking.NoteAuthor, Staking.OnFinalize, Sound, Covered;
      r, underflow := Ok, false;
      match call
      case CallConfig(s) => r := Config(s);
      case CallBond(who, amount) => r := Bond(who, amount);
      case CallForceOnboard(candidate) => r := ForceOnboard(candidate);
      case CallBondExtra(who, amount) => r := BondExtra(who, amount);
      case CallBondLess(who, less) => r := BondLess(who, less);
      case CallCollatorUnbond(who) => r := CollatorUnbond(who);
      case CallNominate(who, candidate, amount) => r := Nominate(who, candidate, amount);
      case CallNominateExtra(who, candidate, amount) => r := NominateExtra(who, candidate, amount);
      case CallNominateLess(who, candidate, less) => r := NominateLess(who, candidate, less);
      case CallNominatorLeaveCollator(who, candidate) => r := NominatorLeaveCollator(who, candidate);
      case NoteAuthorOf(author) => NoteAuthor(author);
      case Finalize(supports, issuance) => underflow := OnFinalize(supports, issuance);
      case SetFree(who, free) => SetFree(who, free);
    }

    /**
     A whole run. From a sound and covered storage, no subtraction of any of its
     round switches goes below zero, as long as no nomination orphans its record.
     */
    method Execute(calls: seq<Call>) returns (underflow: bool)
      modifies this
      ensures Snapshot() == Run(p, old(Snapshot()), calls)
      ensures Sound(p, old(Snapshot())) && Covered(old(Snapshot())) && NoOrphans(p, old(Snapshot()), calls) ==>
                !underflow
    {
      hide Step, Sound, Covered, Orphans;
      underflow := false;
      ghost var s := Snapshot();
      ghost var fine := Sound(p, s) && Covered(s) && NoOrphans(p, s, calls);
      for i := 0 to |calls|
        invariant Snapshot() == Run(p, s, calls[..i])
        invariant fine ==> !underflow
      {
        assert calls[..i + 1][..i] == calls[..i];
        if fine {
          NoOrphansPrefix(p, s, calls, i);
          RunSound(p, s, calls[..i]);
          RunCovered(p, s, calls[..i]);
        }
        var _, low := Dispatch(calls[i]);
        underflow := underflow || low;
      }
      assert calls[..|calls|] == calls;
    }

    // ---- Election data ---------------------------------------------------

    /** All collators, unless the active ones exceed the limit. */
    method Targets(maxLen: Option<nat>) returns (r: Option<seq<Account>>)
      ensures r.None? <==> maxLen.Some? && |ActiveOnes(collators)| > maxLen.value
      ensures r.Some? ==> (forall a :: a in r.value <==> a in collators) && |r.value| == |collators.Keys|
      ensures (forall a :: a in collators ==> collators[a].IsActive()) && r.Some? && maxLen.Some? ==>
                |r.value| <= maxLen.value
    {
      CountMatchesIff(collators);
      if maxLen.Some? && |ActiveOnes(collators)| > maxLen.value { return None; }
      var list := Enumerate(collators.Keys);
      return Some(list);
    }

    /** Every collator's self vote with its active stake, then every nominator with its total and its targets. */
    method Voters(maxLen: Option<nat>, issuance: nat) returns (r: Option<seq<Voter>>)
      ensures r.None? <==> maxLen.Some? && |nominators.Keys| + |ActiveOnes(collators)| > maxLen.value
      ensures r.Some? ==> |r.value| == |collators.Keys| + |nominators.Keys|
      ensures r.Some? ==> forall v :: v in r.value <==>
                (exists a :: VotesForItself(p, collators, issuance, v, a)) ||
                (exists a :: VotesForOthers(p, nominators, issuance, v, a))
      ensures (forall a :: a in collators ==> collators[a].IsActive()) && r.Some? && maxLen.Some? ==>
                |r.value| <= maxLen.value
    {
      hide SelfVote, NominatorVote, VotesForItself, VotesForOthers;
      CountMatchesIff(collators);
      if maxLen.Some? && |nominators.Keys| + |ActiveOnes(collators)| > maxLen.value { return None; }
      var cs := Enumerate(collators.Keys);
      var ns := Enumerate(nominators.Keys);
      var voters: seq<Voter> := [];
      for i := 0 to |cs|
        invariant |voters| == i && forall j :: 0 <= j < i ==> voters[j] == SelfVote(p, collators, issuance, cs[j])
      {
        voters := voters + [SelfVote(p, collators, issuance, cs[i])];
      }
      for i := 0 to |ns|
        invariant |voters| == |cs| + i
        invariant forall j :: 0 <= j < |cs| ==> voters[j] == SelfVote(p, collators, issuance, cs[j])
        invariant forall j :: 0 <= j < i ==> voters[|cs| + j] == NominatorVote(p, nominators, issuance, ns[j])
      {
        voters := voters + [NominatorVote(p, nominators, issuance, ns[i])];
      }
      VotersComplete(collators, nominators, p, issuance, cs, ns, voters);
      return Some(voters);
    }
  }
}

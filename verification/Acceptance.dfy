/**
 Which calls go through, with which error the others are refused, and what the
 checks keep true of every stored record.
 */
module Acceptance {
  import opened Options
  import opened Entities
  import opened Currency
  import opened Staking
  import opened Soundness

  // ---- The checks in order -----------------------------------------------

  datatype Check = Check(holds: bool, error: Error)

  function FailsFrom(checks: seq<Check>, i: nat): Outcome
    decreases |checks| - i
  {
    if i >= |checks| then Ok
    else if !checks[i].holds then Err(checks[i].error)
    else FailsFrom(checks, i + 1)
  }

  /** The error of the first check that fails. */
  function FirstFailure(checks: seq<Check>): Outcome { FailsFrom(checks, 0) }

  lemma Unrolled(checks: seq<Check>)
    requires |checks| <= 9
    ensures FirstFailure(checks) ==
      if |checks| > 0 && !checks[0].holds then Err(checks[0].error)
      else if |checks| > 1 && !checks[1].holds then Err(checks[1].error)
      else if |checks| > 2 && !checks[2].holds then Err(checks[2].error)
      else if |checks| > 3 && !checks[3].holds then Err(checks[3].error)
      else if |checks| > 4 && !checks[4].holds then Err(checks[4].error)
      else if |checks| > 5 && !checks[5].holds then Err(checks[5].error)
      else if |checks| > 6 && !checks[6].holds then Err(checks[6].error)
      else if |checks| > 7 && !checks[7].holds then Err(checks[7].error)
      else if |checks| > 8 && !checks[8].holds then Err(checks[8].error)
      else Ok
  {
    assert FailsFrom(checks, 9) == Ok;
    assert FailsFrom(checks, 7) == if |checks| > 7 && !checks[7].holds then Err(checks[7].error)
                                   else if |checks| > 8 && !checks[8].holds then Err(checks[8].error) else Ok;
    assert FailsFrom(checks, 5) == if |checks| > 5 && !checks[5].holds then Err(checks[5].error)
                                   else if |checks| > 6 && !checks[6].holds then Err(checks[6].error)
                                   else FailsFrom(checks, 7);
    assert FailsFrom(checks, 3) == if |checks| > 3 && !checks[3].holds then Err(checks[3].error)
                                   else if |checks| > 4 && !checks[4].holds then Err(checks[4].error)
                                   else FailsFrom(checks, 5);
    assert FailsFrom(checks, 1) == if |checks| > 1 && !checks[1].holds then Err(checks[1].error)
                                   else if |checks| > 2 && !checks[2].holds then Err(checks[2].error)
                                   else FailsFrom(checks, 3);
  }

  predicate Working(s: Storage, c: Account) { c in s.collators && s.collators[c].status == Active }

  predicate Backs(s: Storage, n: Account, c: Account) {
    n in s.nominators && exists i :: 0 <= i < |s.nominators[n].nominations| && s.nominators[n].nominations[i].owner == c
  }

  predicate BackedBy(s: Storage, c: Account, n: Account) {
    c in s.collators && exists i :: 0 <= i < |s.collators[c].nominations| && s.collators[c].nominations[i].owner == n
  }

  /** Amount of the first bond with the owner, zero without one. */
  function FirstAmount(bs: seq<Bond>, owner: Account): nat {
    if bs == [] then 0 else if bs[0].owner == owner then bs[0].amount else FirstAmount(bs[1..], owner)
  }

  function OwnBond(s: Storage, n: Account, c: Account): nat {
    if n in s.nominators then FirstAmount(s.nominators[n].nominations, c) else 0
  }

  function HeldBond(s: Storage, c: Account, n: Account): nat {
    if c in s.collators then FirstAmount(s.collators[c].nominations, n) else 0
  }

  /** Each call's checks, in the order in which they are made, with their errors. */
  function Checks(p: Params, s: Storage, call: Call): seq<Check> {
    match call
    case CallBond(who, amount) =>
      [Check(who !in s.collators, AlreadyBonded), Check(amount >= p.minCollatorStake, BondBelowMin)]
    case CallForceOnboard(candidate) =>
      [Check(candidate in s.collators, CandidateNotExist), Check(!Working(s, candidate), CandidateNotActive)]
    case CallBondExtra(who, amount) =>
      [Check(who in s.collators, BondNotExist), Check(Working(s, who), CandidateNotActive)]
    case CallBondLess(who, less) =>
      [Check(who in s.collators, BondNotExist), Check(Working(s, who), CandidateNotActive),
       Check(who in s.collators && less < s.collators[who].active, Underflow),
       Check(who in s.collators && less + p.minCollatorStake <= s.collators[who].active, BondBelowMin)]
    case CallCollatorUnbond(who) => [Check(who in s.collators, BondNotExist)]
    case CallNominate(who, candidate, amount) =>
      [Check(amount >= p.minNominatorStake, NominateBelowMin), Check(candidate in s.collators, CandidateNotExist),
       Check(Working(s, candidate), CandidateNotActive),
       Check(candidate in s.collators && |s.collators[candidate].nominations| < p.maxNominations, TooManyNominations),
       Check(who in s.nominators ==> !Found(s.nominators[who].nominations, candidate), AlreadyNominatedCollator),
       Check(candidate in s.collators ==> !Found(s.collators[candidate].nominations, who), NominationNotExist)]
    case CallNominateExtra(who, candidate, extra) =>
      [Check(candidate in s.collators, CandidateNotExist), Check(Working(s, candidate), CandidateNotActive),
       Check(who in s.nominators, NominationNotExist), Check(Backs(s, who, candidate), CandidateNotExist),
       Check(BackedBy(s, candidate, who), NominationNotExist)]
    case CallNominateLess(who, candidate, less) =>
      [Check(candidate in s.collators, CandidateNotExist), Check(Working(s, candidate), CandidateNotActive),
       Check(who in s.nominators, NominationNotExist), Check(Backs(s, who, candidate), CandidateNotExist),
       Check(less < OwnBond(s, who, candidate), Underflow),
       Check(less + p.minNominatorStake <= OwnBond(s, who, candidate), NominateBelowMin),
       Check(BackedBy(s, candidate, who), NominationNotExist),
       Check(less < HeldBond(s, candidate, who), Underflow),
       Check(less + p.minNominatorStake <= HeldBond(s, candidate, who), NominateBelowMin)]
    case CallNominatorLeaveCollator(who, candidate) =>
      [Check(who in s.nominators, NominationNotExist), Check(candidate in s.collators, CandidateNotExist),
       Check(Backs(s, who, candidate), CandidateNotExist), Check(BackedBy(s, candidate, who), NominationNotExist)]
    case _ => []
  }

  lemma {:induction false} FirstIsLookup(bs: seq<Bond>, owner: Account)
    ensures Lookup(bs, owner).Some? <==> exists i :: 0 <= i < |bs| && bs[i].owner == owner
    ensures Lookup(bs, owner).Some? ==> FirstAmount(bs, owner) == Lookup(bs, owner).value
    ensures Lookup(bs, owner).None? ==> FirstAmount(bs, owner) == 0
  {
    LookupPresent(bs, owner);
    if bs != [] && bs[0].owner != owner {
      FirstIsLookup(bs[1..], owner);
    }
  }

  lemma {:induction false} LastExists(bs: seq<Bond>, owner: Account)
    ensures LastAmount(bs, owner).Some? <==> exists i :: 0 <= i < |bs| && bs[i].owner == owner
  {
    if bs != [] {
      var init := bs[..|bs| - 1];
      LastExists(init, owner);
      if bs[|bs| - 1].owner != owner && exists i :: 0 <= i < |bs| && bs[i].owner == owner {
        var i :| 0 <= i < |bs| && bs[i].owner == owner;
        assert init[i].owner == owner;
      }
    }
  }

  lemma PlainOutcome(p: Params, s: Storage, call: Call)
    requires !call.CallNominateExtra? && !call.CallNominateLess? && !call.CallNominatorLeaveCollator?
    ensures Step(p, s, call).1 == FirstFailure(Checks(p, s, call))
  {
    hide OnFinalize, Reserve, UnreserveBonds, Found, FirstFailure;
    Unrolled(Checks(p, s, call));
  }

  lemma ExtraOutcome(p: Params, s: Storage, who: Account, candidate: Account, extra: nat)
    ensures NominateExtra(s, who, candidate, extra).1
         == FirstFailure(Checks(p, s, CallNominateExtra(who, candidate, extra)))
  {
    hide Reserve, Lookup, Raised, FirstFailure;
    Unrolled(Checks(p, s, CallNominateExtra(who, candidate, extra)));
    if who in s.nominators { LookupPresent(s.nominators[who].nominations, candidate); }
    if candidate in s.collators { LookupPresent(s.collators[candidate].nominations, who); }
  }

  lemma LessOutcome(p: Params, s: Storage, who: Account, candidate: Account, less: nat)
    ensures NominateLess(p, s, who, candidate, less).1
         == FirstFailure(Checks(p, s, CallNominateLess(who, candidate, less)))
  {
    hide Lookup, Lowered, FirstAmount, FirstFailure;
    Unrolled(Checks(p, s, CallNominateLess(who, candidate, less)));
    if who in s.nominators { FirstIsLookup(s.nominators[who].nominations, candidate); }
    if candidate in s.collators { FirstIsLookup(s.collators[candidate].nominations, who); }
  }

  lemma LeaveOutcome(p: Params, s: Storage, who: Account, candidate: Account)
    ensures NominatorLeaveCollator(s, who, candidate).1
         == FirstFailure(Checks(p, s, CallNominatorLeaveCollator(who, candidate)))
  {
    hide LastAmount, Without, FirstFailure;
    Unrolled(Checks(p, s, CallNominatorLeaveCollator(who, candidate)));
    if who in s.nominators { LastExists(s.nominators[who].nominations, candidate); }
    if candidate in s.collators { LastExists(s.collators[candidate].nominations, who); }
  }

  /** Every call ends as its first failing check says, and goes through exactly when all hold. */
  lemma OutcomeIsFirstFailure(p: Params, s: Storage, call: Call)
    ensures Step(p, s, call).1 == FirstFailure(Checks(p, s, call))
  {
    hide Checks, FirstFailure, OnFinalize, NominateExtra, NominateLess, NominatorLeaveCollator;
    match call
    case CallNominateExtra(who, candidate, extra) => ExtraOutcome(p, s, who, candidate, extra);
    case CallNominateLess(who, candidate, less) => LessOutcome(p, s, who, candidate, less);
    case CallNominatorLeaveCollator(who, candidate) => LeaveOutcome(p, s, who, candidate);
    case _ => PlainOutcome(p, s, call);
  }

  lemma {:induction false} NoFailureFrom(checks: seq<Check>, i: nat)
    ensures FailsFrom(checks, i) == Ok <==> forall j :: i <= j < |checks| ==> checks[j].holds
    decreases |checks| - i
  {
    if i < |checks| {
      NoFailureFrom(checks, i + 1);
    }
  }

  /** A call goes through exactly when all its checks hold. */
  lemma AcceptedIff(p: Params, s: Storage, call: Call)
    ensures Step(p, s, call).1 == Ok <==> forall i :: 0 <= i < |Checks(p, s, call)| ==> Checks(p, s, call)[i].holds
  {
    hide Step, Checks;
    OutcomeIsFirstFailure(p, s, call);
    NoFailureFrom(Checks(p, s, call), 0);
  }

  // ---- What the checks keep true -----------------------------------------

  ghost predicate AllAbove(bs: seq<Bond>, least: nat) {
    forall i :: 0 <= i < |bs| ==> bs[i].amount >= least
  }

  /**
   An onboarding collator waits with its whole first bond locked, and nothing has
   been done with it yet. Whatever is locked is locked for the next round; bonds
   made at genesis for the first one.
   */
  ghost predicate Waits(round: nat, c: Collator) {
    && (c.status == Onboarding ==>
          && c.active == 0 && c.nominations == [] && c.unbonding == []
          && |c.unlocking| == 1 && c.unlocking[0].value == c.total)
    && (forall i :: 0 <= i < |c.unlocking| ==>
          c.unlocking[i].round == round + 1 || (round == 1 && c.unlocking[i].round == 1))
  }

  lemma {:induction false} KeptNone(cs: seq<Chunk>, round: nat)
    requires forall i :: 0 <= i < |cs| ==> cs[i].round <= round
    ensures Kept(cs, round) == []
  {
    if cs != [] {
      KeptNone(cs[..|cs| - 1], round);
    }
  }

  lemma AdvanceInBounds(p: Params, round: nat, c: Collator)
    requires CollatorInBounds(p, round, c)
    ensures CollatorInBounds(p, round + 1, c.Advance(round + 1))
  {
    hide Kept, DueTotal, AllAbove;
    KeptNone(c.unlocking, round + 1);
  }

  ghost predicate CollatorInBounds(p: Params, round: nat, c: Collator) {
    AllAbove(c.nominations, p.minNominatorStake) && |c.nominations| <= p.maxNominations && Waits(round, c)
  }

  ghost predicate InBounds(p: Params, s: Storage) {
    && (forall a :: a in s.collators ==> CollatorInBounds(p, s.round.index, s.collators[a]))
    && (forall a :: a in s.nominators ==> AllAbove(s.nominators[a].nominations, p.minNominatorStake))
  }

  lemma RaisedAbove(bs: seq<Bond>, owner: Account, extra: nat, least: nat)
    requires AllAbove(bs, least)
    ensures AllAbove(Raised(bs, owner, extra), least) && |Raised(bs, owner, extra)| == |bs|
  {
  }

  lemma LoweredAbove(bs: seq<Bond>, owner: Account, less: nat, least: nat)
    requires AllAbove(bs, least) && Lookup(bs, owner).Some? && Lookup(bs, owner).value >= less + least
    ensures AllAbove(Lowered(bs, owner, less), least) && |Lowered(bs, owner, less)| == |bs|
  {
  }

  lemma {:induction false} WithoutAbove(bs: seq<Bond>, owner: Account, least: nat)
    requires AllAbove(bs, least)
    ensures AllAbove(Without(bs, owner), least) && |Without(bs, owner)| <= |bs|
  {
    if bs != [] {
      WithoutAbove(bs[..|bs| - 1], owner, least);
    }
  }

  lemma NominateInBounds(p: Params, s: Storage, who: Account, candidate: Account, amount: nat)
    requires InBounds(p, s)
    ensures InBounds(p, Nominate(p, s, who, candidate, amount).0)
  {
    hide Found, Reserve;
  }

  lemma NominateExtraInBounds(p: Params, s: Storage, who: Account, candidate: Account, extra: nat)
    requires InBounds(p, s)
    ensures InBounds(p, NominateExtra(s, who, candidate, extra).0)
  {
    hide Lookup, Raised, Reserve, AllAbove;
    if NominateExtra(s, who, candidate, extra).1 == Ok {
      RaisedAbove(s.nominators[who].nominations, candidate, extra, p.minNominatorStake);
      RaisedAbove(s.collators[candidate].nominations, who, extra, p.minNominatorStake);
    }
  }

  lemma NominateLessInBounds(p: Params, s: Storage, who: Account, candidate: Account, less: nat)
    requires InBounds(p, s)
    ensures InBounds(p, NominateLess(p, s, who, candidate, less).0)
  {
    hide Lookup, Lowered, AllAbove;
    if NominateLess(p, s, who, candidate, less).1 == Ok {
      LoweredAbove(s.nominators[who].nominations, candidate, less, p.minNominatorStake);
      LoweredAbove(s.collators[candidate].nominations, who, less, p.minNominatorStake);
    }
  }

  /** Nobody backs a collator that is still onboarding, so there is nothing to leave. */
  lemma LeaveInBounds(p: Params, s: Storage, who: Account, candidate: Account)
    requires InBounds(p, s)
    ensures InBounds(p, NominatorLeaveCollator(s, who, candidate).0)
  {
    hide AllAbove;
    if NominatorLeaveCollator(s, who, candidate).1 == Ok {
      WithoutAbove(s.nominators[who].nominations, candidate, p.minNominatorStake);
      WithoutAbove(s.collators[candidate].nominations, who, p.minNominatorStake);
    }
  }

  lemma SwitchInBounds(p: Params, s: Storage, t: Storage, now: nat)
    requires InBounds(p, s) && Switched(s, t, now)
    ensures InBounds(p, t)
  {
    hide AllAbove, CollatorInBounds;
    forall a | a in t.collators
      ensures CollatorInBounds(p, t.round.index, t.collators[a])
    {
      AdvanceInBounds(p, s.round.index, s.collators[a]);
    }
  }

  lemma FinalizeInBounds(p: Params, s: Storage, supports: Option<seq<Support>>, issuance: nat)
    requires InBounds(p, s)
    ensures InBounds(p, OnFinalize(p, s, supports, issuance))
  {
    hide BeforeElection, EnactElection, CollatorInBounds, AllAbove;
    var now := s.block + 1;
    if s.round.ShouldGotoNextRound(now) {
      AfterSwitch(p, s, now);
      SwitchInBounds(p, s, BeforeElection(p, s, now), now);
      AfterElection(p, BeforeElection(p, s, now), supports, issuance, now);
    }
  }

  lemma StepInBounds(p: Params, s: Storage, call: Call)
    requires InBounds(p, s)
    ensures InBounds(p, Next(p, s, call))
  {
    hide OnFinalize, Nominate, NominateExtra, NominateLess, NominatorLeaveCollator, Reserve, UnreserveBonds, AllAbove;
    NothingBelow(p.minNominatorStake);
    match call
    case CallNominate(who, candidate, amount) => NominateInBounds(p, s, who, candidate, amount);
    case CallNominateExtra(who, candidate, amount) => NominateExtraInBounds(p, s, who, candidate, amount);
    case CallNominateLess(who, candidate, less) => NominateLessInBounds(p, s, who, candidate, less);
    case CallNominatorLeaveCollator(who, candidate) => LeaveInBounds(p, s, who, candidate);
    case Finalize(supports, issuance) => FinalizeInBounds(p, s, supports, issuance);
    case _ =>
  }

  lemma NothingBelow(least: nat)
    ensures AllAbove([], least)
  {
  }

  lemma {:induction false} RunInBounds(p: Params, s: Storage, calls: seq<Call>)
    requires InBounds(p, s)
    ensures InBounds(p, Run(p, s, calls))
  {
    hide InBounds, Next;
    if calls != [] {
      RunInBounds(p, s, calls[..|calls| - 1]);
      StepInBounds(p, Run(p, s, calls[..|calls| - 1]), calls[|calls| - 1]);
    }
  }

  /**
   From any genesis and through any calls: every bond on either side is at least
   the minimum nomination, no collator has more than the allowed number, and an
   onboarding collator has its first bond locked until the next switch, whole and
   untouched.
   */
  lemma ReachableInBounds(p: Params, balances: Balances, stakers: seq<Staker>, issuance: nat, calls: seq<Call>)
    ensures InBounds(p, Run(p, Genesis(p, balances, stakers, issuance), calls))
  {
    hide Run;
    GenesisBondsFresh(p, balances, stakers);
    var g := Genesis(p, balances, stakers, issuance);
    forall a | a in g.collators
      ensures CollatorInBounds(p, 1, g.collators[a])
    {
      assert g.collators[a] == NewCollator(g.collators[a].total, 1);
    }
    RunInBounds(p, g, calls);
  }
}

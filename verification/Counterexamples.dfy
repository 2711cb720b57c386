/**
 Concrete runs that show where the pallet needs its hypotheses: each one starts
 from a genesis without stakers, uses calls any account (or the root) may make,
 and ends in a storage that breaks a property the other modules prove with an
 exact condition.
 */
module Counterexamples {
  import opened Options
  import opened Sums
  import opened Entities
  import opened Currency
  import opened Staking
  import opened Soundness
  import opened Coverage
  import opened Mirror
  import opened Backing
  import opened TimeLock
  import opened ExitQueue

  const P: Params := Params(10, 1, 5, 2, 20, 10, 1, 0, (staked, issuance) => 0,
                             (balance, issuance) => balance, (weight, issuance) => weight)

  const FUNDS: Balances := map[1 := AccountData(90, 0), 3 := AccountData(90, 0), 9 := AccountData(90, 0)]

  function Origin(): Storage { Genesis(P, FUNDS, [], 0) }

  lemma RunPush(s: Storage, calls: seq<Call>, c: Call)
    ensures Run(P, s, calls + [c]) == Next(P, Run(P, s, calls), c)
  {
    assert (calls + [c])[..|calls|] == calls;
  }

  function Working(nominations: seq<Bond>): Collator {
    Collator(10, 10, nominations, [], [], Active)
  }

  /** Two working collators and one nominator that backs 3 first and 1 second. */
  function TwoBacked(): Storage {
    Origin().(
      collators := map[1 := Working([Bond(9, 5)]), 3 := Working([Bond(9, 5)])],
      nominators := map[9 := Nominator([Bond(3, 5), Bond(1, 5)], 10, [])],
      totalStaked := 30,
      balances := FUNDS[1 := AccountData(80, 10)][3 := AccountData(80, 10)][9 := AccountData(80, 10)])
  }

  function Setup(): seq<Call> {
    [CallBond(1, 10)] + [CallBond(3, 10)] + [CallForceOnboard(1)] + [CallForceOnboard(3)]
    + [CallNominate(9, 3, 5)] + [CallNominate(9, 1, 5)]
  }

  lemma OriginIs()
    ensures Origin() == Storage(map[], map[], map[], 0, RoundInfo(1, 0, 20), Settings(10, 20, 1), FUNDS,
                                Rewards(map[], map[], map[], map[1 := 0], map[1 := 0]), 0)
  {
  }

  /** Two working collators that nobody backs yet. */
  function TwoWorking(): Storage {
    Origin().(
      collators := map[1 := Working([]), 3 := Working([])],
      totalStaked := 20,
      balances := FUNDS[1 := AccountData(80, 10)][3 := AccountData(80, 10)])
  }

  /** Two collators that have bonded and wait. */
  function TwoWaiting(): Storage {
    TwoWorking().(collators := map[1 := NewCollator(10, 2), 3 := NewCollator(10, 2)])
  }

  /** The first of them. */
  function OneWaiting(): Storage {
    Origin().(
      collators := map[1 := NewCollator(10, 2)],
      totalStaked := 10,
      balances := FUNDS[1 := AccountData(80, 10)])
  }

  lemma FirstBonds()
    ensures DoBond(P, Origin(), 1, 10).0 == OneWaiting()
  {
    hide Genesis;
    OriginIs();
    assert CanReserve(FUNDS, 1, 10);
    assert Reserve(FUNDS, 1, 10) == FUNDS[1 := AccountData(80, 10)];
    assert map[][1 := NewCollator(10, 2)] == map[1 := NewCollator(10, 2)];
  }

  lemma SecondBonds()
    ensures DoBond(P, OneWaiting(), 3, 10).0 == TwoWaiting()
  {
    hide Genesis;
    OriginIs();
    var t := DoBond(P, OneWaiting(), 3, 10).0;
    assert t.collators == TwoWaiting().collators;
    assert t.balances == TwoWaiting().balances;
  }

  lemma BothWork()
    ensures ForceOnboard(ForceOnboard(TwoWaiting(), 1).0, 3).0 == TwoWorking()
  {
    hide Origin;
    var s3 := ForceOnboard(TwoWaiting(), 1).0;
    assert s3.collators == map[1 := Working([]), 3 := NewCollator(10, 2)];
    var s4 := ForceOnboard(s3, 3).0;
    assert s4.collators == TwoWorking().collators;
  }

  lemma CollatorsWork()
    ensures Run(P, Origin(), [CallBond(1, 10)] + [CallBond(3, 10)] + [CallForceOnboard(1)] + [CallForceOnboard(3)])
         == TwoWorking()
  {
    hide OnFinalize, DoBond, ForceOnboard, Origin, TwoWorking, TwoWaiting, OneWaiting;
    var c1, c2, c3 := [CallBond(1, 10)], CallBond(3, 10), CallForceOnboard(1);
    RunPush(Origin(), [], CallBond(1, 10));
    assert [] + c1 == c1;
    RunPush(Origin(), c1, c2);
    RunPush(Origin(), c1 + [c2], c3);
    RunPush(Origin(), c1 + [c2] + [c3], CallForceOnboard(3));
    assert Run(P, Origin(), []) == Origin();
    hide Run;
    FirstBonds();
    SecondBonds();
    BothWork();
  }

  lemma NominatesTwice()
    ensures Nominate(P, Nominate(P, TwoWorking(), 9, 3, 5).0, 9, 1, 5).0 == TwoBacked()
  {
    hide Genesis;
    OriginIs();
    var s := Nominate(P, TwoWorking(), 9, 3, 5).0;
    assert [] + [Bond(9, 5)] == [Bond(9, 5)] && !Found([], 9);
    assert s.collators == map[1 := Working([]), 3 := Working([Bond(9, 5)])];
    assert s.nominators == map[9 := Nominator([Bond(3, 5)], 5, [])];
    assert [Bond(3, 5)] + [Bond(1, 5)] == [Bond(3, 5), Bond(1, 5)];
    var t := Nominate(P, s, 9, 1, 5).0;
    assert t.collators == TwoBacked().collators;
    assert t.nominators == TwoBacked().nominators;
    assert t.balances == TwoBacked().balances;
  }

  lemma SetupRuns()
    ensures Run(P, Origin(), Setup()) == TwoBacked()
  {
    hide OnFinalize, Nominate, TwoWorking, TwoBacked, Origin;
    CollatorsWork();
    var before := [CallBond(1, 10)] + [CallBond(3, 10)] + [CallForceOnboard(1)] + [CallForceOnboard(3)];
    RunPush(Origin(), before, CallNominate(9, 3, 5));
    RunPush(Origin(), before + [CallNominate(9, 3, 5)], CallNominate(9, 1, 5));
    hide Run;
    NominatesTwice();
  }

  /** The search for 3 in the list 3, 1 goes right and misses. */
  lemma SearchMisses()
    ensures !Found([Bond(3, 5), Bond(1, 5)], 3)
    ensures Found([Bond(9, 5)], 9)
  {
  }

  /** A second nomination of 3 fails, has been written all the same, and the staked total falls below the ledger. */
  lemma OrphanedNomination()
    ensures var again := CallNominate(9, 3, 5);
      && Step(P, TwoBacked(), again).1 == Err(NominationNotExist)
      && Orphans(P, TwoBacked(), again)
      && Next(P, TwoBacked(), again) != TwoBacked()
      && !Covered(Run(P, Origin(), Setup() + [again]))
  {
    hide OnFinalize, SumOver;
    var again := CallNominate(9, 3, 5);
    SearchMisses();
    SetupRuns();
    RunPush(Origin(), Setup(), again);
    var n := Nominator([Bond(3, 5), Bond(1, 5), Bond(3, 5)], 15, []);
    var t := TwoBacked().(nominators := map[9 := n]);
    assert [Bond(3, 5), Bond(1, 5)] + [Bond(3, 5)] == [Bond(3, 5), Bond(1, 5), Bond(3, 5)];
    assert Next(P, TwoBacked(), again) == t;
    SumOfTwo(CollatorTotals(t.collators), 1, 3);
    SumOfOne(NominatorTotals(t.nominators), 9);
    assert ExitTotals(t.exitQueue) == map[];
    SumEmpty(ExitTotals(t.exitQueue));
  }

  // ---- Backing -----------------------------------------------------------

  /** 3 leaves and comes back. */
  function Returning(): seq<Call> {
    Setup() + [CallCollatorUnbond(3)] + [CallBond(3, 10)] + [CallForceOnboard(3)]
  }

  function Returned(): Storage {
    TwoBacked().(
      collators := map[1 := Working([Bond(9, 5)]), 3 := Working([])],
      exitQueue := map[3 := Leaving(10, [], 11)],
      totalStaked := 40,
      balances := FUNDS[1 := AccountData(80, 10)][3 := AccountData(70, 20)][9 := AccountData(85, 5)])
  }

  /** 9's oldest bond is stale: the reduction was taken from it, and from the live bond on the other side. */
  function OutOfStep(): Storage {
    TwoBacked().(
      collators := map[1 := Working([Bond(9, 5)]), 3 := Working([Bond(9, 1)])],
      nominators := map[9 := Nominator([Bond(3, 4), Bond(1, 5), Bond(3, 2)], 12, [Chunk(1, 11)])],
      exitQueue := map[3 := Leaving(10, [], 11)],
      totalStaked := 42,
      balances := FUNDS[1 := AccountData(80, 10)][3 := AccountData(70, 20)][9 := AccountData(83, 7)])
  }

  lemma Returns()
    ensures ForceOnboard(DoBond(P, CollatorUnbond(TwoBacked(), 3).0, 3, 10).0, 3).0 == Returned()
  {
    hide Genesis;
    OriginIs();
    var s1 := CollatorUnbond(TwoBacked(), 3).0;
    assert [Bond(9, 5)][..0] == [];
    assert s1.balances == FUNDS[1 := AccountData(80, 10)][3 := AccountData(80, 10)][9 := AccountData(85, 5)];
    assert s1.collators == map[1 := Working([Bond(9, 5)])];
    assert s1.exitQueue == map[3 := Leaving(10, [], 11)];
    var s2 := DoBond(P, s1, 3, 10).0;
    assert s2.collators == map[1 := Working([Bond(9, 5)]), 3 := NewCollator(10, 2)];
    var s3 := ForceOnboard(s2, 3).0;
    assert s3.collators == Returned().collators;
    assert s3.balances == Returned().balances;
  }

  lemma ReturningRuns()
    ensures Run(P, Origin(), Returning()) == Returned()
  {
    hide OnFinalize, CollatorUnbond, DoBond, ForceOnboard, TwoBacked, Returned, Origin;
    SetupRuns();
    var c0, c1, c2 := Setup(), CallCollatorUnbond(3), CallBond(3, 10);
    RunPush(Origin(), c0, c1);
    RunPush(Origin(), c0 + [c1], c2);
    RunPush(Origin(), c0 + [c1] + [c2], CallForceOnboard(3));
    hide Run;
    Returns();
  }

  function BackedAgain(): Storage {
    Returned().(
      collators := map[1 := Working([Bond(9, 5)]), 3 := Working([Bond(9, 2)])],
      nominators := map[9 := Nominator([Bond(3, 5), Bond(1, 5), Bond(3, 2)], 12, [])],
      totalStaked := 42,
      balances := FUNDS[1 := AccountData(80, 10)][3 := AccountData(70, 20)][9 := AccountData(83, 7)])
  }

  lemma BacksAgain()
    ensures Nominate(P, Returned(), 9, 3, 2).0 == BackedAgain()
  {
    hide Genesis;
    OriginIs();
    SearchMisses();
    assert [] + [Bond(9, 2)] == [Bond(9, 2)] && !Found([], 9);
    assert [Bond(3, 5), Bond(1, 5)] + [Bond(3, 2)] == [Bond(3, 5), Bond(1, 5), Bond(3, 2)];
    var t := Nominate(P, Returned(), 9, 3, 2).0;
    assert t.collators == BackedAgain().collators;
    assert t.nominators == BackedAgain().nominators;
    assert t.balances == BackedAgain().balances;
  }

  lemma TakesBack()
    ensures NominateLess(P, BackedAgain(), 9, 3, 1).0 == OutOfStep()
  {
    hide Genesis;
    OriginIs();
    var mine, theirs := [Bond(3, 5), Bond(1, 5), Bond(3, 2)], [Bond(9, 2)];
    assert Lowered(mine, 3, 1) == [Bond(3, 4), Bond(1, 5), Bond(3, 2)];
    assert Lowered(theirs, 9, 1) == [Bond(9, 1)];
    assert [] + [Chunk(1, 11)] == [Chunk(1, 11)];
    var t := NominateLess(P, BackedAgain(), 9, 3, 1).0;
    assert t.collators == OutOfStep().collators;
    assert t.nominators == OutOfStep().nominators;
  }

  /** 9 backs it again with 2 and takes 1 of that back. */
  lemma OutOfStepIsReached()
    ensures Run(P, Origin(), Returning() + [CallNominate(9, 3, 2)] + [CallNominateLess(9, 3, 1)]) == OutOfStep()
  {
    hide OnFinalize, Nominate, NominateLess;
    ReturningRuns();
    RunPush(Origin(), Returning(), CallNominate(9, 3, 2));
    RunPush(Origin(), Returning() + [CallNominate(9, 3, 2)], CallNominateLess(9, 3, 1));
    hide Run, Returning, Returned, OutOfStep, BackedAgain;
    BacksAgain();
    TakesBack();
  }

  /** By then it has 3 in its list twice: the nomination was a duplicate, and the mirror is broken. */
  lemma DuplicateIsReached()
    ensures Run(P, Origin(), Returning()) == Returned()
    ensures Duplicates(P, Returned(), CallNominate(9, 3, 2))
    ensures !Mirrored(Next(P, Returned(), CallNominate(9, 3, 2))) && !Mirrored(OutOfStep())
  {
    hide OnFinalize, Nominate, Run;
    ReturningRuns();
    SearchMisses();
    DuplicateBreaks(P, Returned(), CallNominate(9, 3, 2));
    var mine := Nominations(OutOfStep(), 9);
    assert mine[0].owner == mine[2].owner;
    assert !Distinct(mine);
  }

  /** What 9 leaves behind on either side. */
  lemma LeavesTwoForOne()
    ensures LastAmount([Bond(3, 4), Bond(1, 5), Bond(3, 2)], 3) == Some(2)
    ensures LastAmount([Bond(9, 1)], 9) == Some(1)
    ensures Held([Bond(9, 1)], 9) == 1 && Held([Bond(9, 5)], 9) == 5
    ensures Total([Chunk(1, 11)]) == 1
  {
    assert [Bond(9, 5)][..0] == [] && [Bond(9, 1)][..0] == [] && [Chunk(1, 11)][..0] == [];
  }

  /** Then 9's reserve is exactly used up, and leaving would owe it one more: the backing breaks. */
  lemma StaleBondBreaksBacking()
    ensures NominatorLeaveCollator(OutOfStep(), 9, 3).1 == Ok
    ensures Owed(OutOfStep(), 9) == Reserved(OutOfStep().balances, 9) == 7
    ensures Owed(NominatorLeaveCollator(OutOfStep(), 9, 3).0, 9) == 8
    ensures !Backed(NominatorLeaveCollator(OutOfStep(), 9, 3).0)
  {
    hide SumOver, LastAmount, Held, Total, Without, Origin;
    var s := OutOfStep();
    LeavesTwoForOne();
    SumOfTwo(HeldBy(s.collators, 9), 1, 3);
    LeaveChangesOwed(s, 9, 3, 9);
    LeaveBalances(s, 9, 3);
  }

  // ---- Exits -------------------------------------------------------------

  /** Leaving, bonding again and leaving again overwrites the first exit: ten units stay reserved for good. */
  lemma SecondExitStrandsTheFirst()
    ensures var s := Run(P, Origin(), Returning());
      var t := Next(P, s, CallCollatorUnbond(3));
      && Overwrites(s, CallCollatorUnbond(3), AsLeaver, 3)
      && Stranded(s, CallCollatorUnbond(3), 3) == 10
      && Reserved(s.balances, 3) == Owed(s, 3) == 20
      && Reserved(t.balances, 3) == 20 && Owed(t, 3) == 10
  {
    hide OnFinalize;
    ReturningRuns();
    hide Run;
    hide Owed, Stranded, Reserved;
    OwedBefore();
    LeavesAgain();
  }

  lemma OwedBefore()
    ensures Reserved(Returned().balances, 3) == Owed(Returned(), 3) == 20
    ensures Stranded(Returned(), CallCollatorUnbond(3), 3) == 10
  {
    hide SumOver, Origin, Held, Total;
    NothingHeld();
    SumOfTwo(HeldBy(Returned().collators, 3), 1, 3);
  }

  lemma NothingHeld()
    ensures Held([], 3) == 0 && Held([Bond(9, 5)], 3) == 0 && Total([]) == 0
  {
    assert [Bond(9, 5)][..0] == [];
  }

  lemma LeavesAgain()
    ensures var t := CollatorUnbond(Returned(), 3).0;
      && Reserved(t.balances, 3) == 20 && Owed(t, 3) == 10
  {
    hide SumOver, Origin, Held, Total;
    var s := Returned();
    var t := CollatorUnbond(s, 3).0;
    NothingHeld();
    assert t.balances == s.balances;
    assert t.collators == map[1 := Working([Bond(9, 5)])];
    assert t.exitQueue[3] == Leaving(10, [], WithdrawRound(s));
    assert HeldBy(t.collators, 3) == map[1 := 0];
    SumOfOne(HeldBy(t.collators, 3), 1);
  }

  /** A collator that has taken 5 back in round 1, due in round 11. */
  function Withdrawing(): Storage {
    Origin().(
      collators := map[1 := Collator(20, 15, [], [], [Chunk(5, 11)], Active)],
      totalStaked := 20,
      balances := FUNDS[1 := AccountData(70, 20)])
  }

  lemma Withdraws()
    ensures var s1 := DoBond(P, Origin(), 1, 20).0;
      var s2 := ForceOnboard(s1, 1).0;
      BondLess(P, s2, 1, 5).0 == Withdrawing()
  {
    hide Genesis;
    OriginIs();
    var s1 := DoBond(P, Origin(), 1, 20).0;
    assert s1.collators == map[1 := NewCollator(20, 2)];
    var s2 := ForceOnboard(s1, 1).0;
    assert s2.collators == map[1 := Collator(20, 20, [], [], [], Active)];
    assert [] + [Chunk(5, 11)] == [Chunk(5, 11)];
    var s3 := BondLess(P, s2, 1, 5).0;
    assert s3.collators == Withdrawing().collators;
    assert s3.balances == Withdrawing().balances;
  }

  lemma WithdrawingIsReached()
    ensures Run(P, Origin(), [CallBond(1, 20)] + [CallForceOnboard(1)] + [CallBondLess(1, 5)]) == Withdrawing()
  {
    hide OnFinalize, DoBond, ForceOnboard, BondLess, Genesis;
    RunPush(Origin(), [], CallBond(1, 20));
    assert [] + [CallBond(1, 20)] == [CallBond(1, 20)];
    RunPush(Origin(), [CallBond(1, 20)], CallForceOnboard(1));
    RunPush(Origin(), [CallBond(1, 20)] + [CallForceOnboard(1)], CallBondLess(1, 5));
    Withdraws();
  }

  /** The storage in which it then leaves, after the bond duration has been cut to one round. */
  function CutShort(): Storage { Config(Withdrawing(), Settings(1, 10, 1)).0 }

  /**
   Shortening the bond duration between a withdrawal and an exit makes the bulk
   release early: whatever is called meanwhile, the switch to round 2 pays out
   everything, with the five units of round 11.
   */
  lemma ShorterDurationReleasesEarly(calls: seq<Call>, call: Call)
    requires CallCollatorUnbond(1) !in calls
    requires Switches(Run(P, CollatorUnbond(CutShort(), 1).0, calls), call)
    ensures var t := Run(P, CollatorUnbond(CutShort(), 1).0, calls);
      && (ReleasesEarly(t, call, AsCollator, 1) <==> t.round.index == 1)
      && (t.round.index == 1 ==>
            Released(t, call, AsCollator, 1) >= 5 && DueTotal(ExitChunks(t, 1), 2) == 0)
  {
    hide Run, CollatorUnbond, Genesis;
    OriginIs();
    var s := CutShort();
    var t := Run(P, CollatorUnbond(s, 1).0, calls);
    assert [Chunk(5, 11)][..0] == [];
    assert s.collators[1].unbonding == [Chunk(5, 11)] && BulkRound(s) == 2 && s.round.index == 1;
    ExitEarlyIff(P, s, 1, calls, call);
    ExitFollowed(P, s, 1, calls);
  }

  lemma SumOfOne(m: map<Account, int>, a: Account)
    requires m.Keys == {a}
    ensures SumOver(m) == m[a]
  {
    SumSplit(m, a);
    SumEmpty(m - {a});
  }

  lemma SumOfTwo(m: map<Account, int>, a: Account, b: Account)
    requires a != b && m.Keys == {a, b}
    ensures SumOver(m) == m[a] + m[b]
  {
    SumSplit(m, a);
    SumOfOne(m - {a}, b);
  }
}

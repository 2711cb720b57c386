/**
 The figures a round is paid by: the stake and the issuance recorded when it
 begins, the exposures of its election and the points of its blocks. Nothing
 changes them between then and the payout.
 */
module Records {
  import opened Options
  import opened Sums
  import opened Entities
  import opened Currency
  import opened Staking
  import opened Soundness
  import opened Schedule
  import opened Elections
  import opened Payouts

  // ---- A switch ----------------------------------------------------------

  lemma BeforeElectionRecords(p: Params, s: Storage, now: nat)
    ensures var r := s.round.index + 1;
      var before := BeforeElection(p, s, now).rewards;
      && before.stakedAt == s.rewards.stakedAt
      && before.issuanceAt == s.rewards.issuanceAt
      && before.clipped
         == (if r > p.payoutDuration then s.rewards.clipped - {r - p.payoutDuration} else s.rewards.clipped)
  {
    hide DepositEach, UnreserveEach, SumOver;
  }

  /** The exposures of a round after the election of that round. */
  ghost predicate Holds(p: Params, before: map<Account, Exposure>, after: map<Account, Exposure>,
                        supports: Option<seq<Support>>, issuance: nat) {
    if supports.None? || supports.value == [] then after == before
    else
      && (forall c, i :: LastSupport(supports.value, i, c) ==>
            c in after && Exposes(p, after[c], supports.value[i], issuance))
      && (forall c :: (forall i :: 0 <= i < |supports.value| ==> supports.value[i].who != c) ==>
            (c in after <==> c in before) && (c in before ==> after[c] == before[c]))
  }

  lemma ElectedHolds(p: Params, before: map<Account, Exposure>, sups: seq<Support>, issuance: nat)
    requires sups != []
    ensures Holds(p, before, Elected(p, before, sups, issuance), Some(sups), issuance)
  {
    hide Elected, Exposes;
    forall c
      ensures forall i :: LastSupport(sups, i, c) ==>
                c in Elected(p, before, sups, issuance)
                && Exposes(p, Elected(p, before, sups, issuance)[c], sups[i], issuance)
      ensures (forall i :: 0 <= i < |sups| ==> sups[i].who != c) ==>
                (c in Elected(p, before, sups, issuance) <==> c in before)
                && (c in before ==> Elected(p, before, sups, issuance)[c] == before[c])
    {
      ElectedAs(p, before, sups, issuance, c);
    }
  }

  /** What a switch records: totals and exposures of the round it begins; and it drops those of the round it pays. */
  ghost predicate Recorded(p: Params, s: Storage, t: Storage, supports: Option<seq<Support>>, issuance: nat) {
    var r := s.round.index + 1;
    && t.rewards.stakedAt == s.rewards.stakedAt[r := t.totalStaked]
    && t.rewards.issuanceAt == s.rewards.issuanceAt[r := issuance]
    && t.rewards.points == s.rewards.points
    && t.rewards.totalPoints == s.rewards.totalPoints
    && (r > p.payoutDuration && p.payoutDuration > 0 ==> ClippedIn(t.rewards, r - p.payoutDuration) == map[])
    && (forall k: nat :: k != r && k + p.payoutDuration != r ==> ClippedIn(t.rewards, k) == ClippedIn(s.rewards, k))
    && Holds(p, if p.payoutDuration == 0 then map[] else ClippedIn(s.rewards, r), ClippedIn(t.rewards, r),
             supports, issuance)
  }

  /** The election and the recording of totals, from the storage they see. */
  lemma ElectionRecords(p: Params, e: Storage, supports: Option<seq<Support>>, issuance: nat)
    ensures var t, now := RecordTotals(EnactElection(p, e, supports, issuance), issuance), e.round.index;
      && t.totalStaked == e.totalStaked
      && t.rewards.stakedAt == e.rewards.stakedAt[now := e.totalStaked]
      && t.rewards.issuanceAt == e.rewards.issuanceAt[now := issuance]
      && t.rewards.points == e.rewards.points && t.rewards.totalPoints == e.rewards.totalPoints
      && (forall k: nat :: k != now ==> ClippedIn(t.rewards, k) == ClippedIn(e.rewards, k))
      && Holds(p, ClippedIn(e.rewards, now), ClippedIn(t.rewards, now), supports, issuance)
  {
    hide Holds, Elected;
    var now := e.round.index;
    if supports.None? || supports.value == [] {
      NothingElected(p, ClippedIn(e.rewards, now), supports, issuance);
    } else {
      ElectedHolds(p, ClippedIn(e.rewards, now), supports.value, issuance);
    }
  }

  lemma SwitchRecords(p: Params, s: Storage, call: Call)
    requires Switches(s, call)
    ensures Recorded(p, s, Next(p, s, call), call.supports, call.issuance)
  {
    hide BeforeElection, EnactElection, RecordTotals, Holds;
    var e := BeforeElection(p, s, s.block + 1);
    AfterSwitch(p, s, s.block + 1);
    BeforeElectionRecords(p, s, s.block + 1);
    SwitchKeepsPoints(p, s, s.block + 1);
    ElectionRecords(p, e, call.supports, call.issuance);
  }

  lemma NothingElected(p: Params, before: map<Account, Exposure>, supports: Option<seq<Support>>, issuance: nat)
    requires supports.None? || supports.value == []
    ensures Holds(p, before, before, supports, issuance)
  {
  }

  /** Between switches only the notes of authors touch the rewards. */
  lemma OtherRecords(p: Params, s: Storage, call: Call)
    requires !Switches(s, call)
    ensures Next(p, s, call).rewards == (if call.NoteAuthorOf? then NoteAuthor(s, call.author).rewards else s.rewards)
  {
    hide BeforeElection, EnactElection, RecordTotals, NoteAuthor, Reserve, UnreserveBonds;
    hide Found, Lookup, Raised, Lowered, Without, LastAmount;
  }

  // ---- Points ------------------------------------------------------------

  /** Twenty points to the author and to the round's total, and nothing else. */
  lemma NoteIsTwentyPoints(s: Storage, author: Account, round: nat, a: Account)
    ensures var t := NoteAuthor(s, author);
      && t == s.(rewards := s.rewards.(points := t.rewards.points, totalPoints := t.rewards.totalPoints))
      && PointOf(t.rewards, round, a)
         == PointOf(s.rewards, round, a) + (if a == author && round == s.round.index then 20 else 0)
      && TotalPoint(t.rewards, round) == TotalPoint(s.rewards, round) + (if round == s.round.index then 20 else 0)
  {
  }

  /** The blocks of a round that a run notes for an author. */
  ghost function Authored(p: Params, s: Storage, calls: seq<Call>, round: nat, a: Account): nat {
    if calls == [] then 0
    else
      var init, last := calls[..|calls| - 1], calls[|calls| - 1];
      Authored(p, s, init, round, a)
      + (if last == NoteAuthorOf(a) && Run(p, s, init).round.index == round then 1 else 0)
  }

  /** All blocks noted in a round. */
  ghost function Noted(p: Params, s: Storage, calls: seq<Call>, round: nat): nat {
    if calls == [] then 0
    else
      var init, last := calls[..|calls| - 1], calls[|calls| - 1];
      Noted(p, s, init, round) + (if last.NoteAuthorOf? && Run(p, s, init).round.index == round then 1 else 0)
  }

  lemma StepPoints(p: Params, s: Storage, call: Call, round: nat, a: Account)
    ensures var t := Next(p, s, call).rewards;
      && PointOf(t, round, a)
         == PointOf(s.rewards, round, a) + (if call == NoteAuthorOf(a) && round == s.round.index then 20 else 0)
      && TotalPoint(t, round)
         == TotalPoint(s.rewards, round) + (if call.NoteAuthorOf? && round == s.round.index then 20 else 0)
  {
    hide Next, NoteAuthor, Holds;
    if Switches(s, call) {
      SwitchRecords(p, s, call);
    } else {
      OtherRecords(p, s, call);
      if call.NoteAuthorOf? {
        NoteIsTwentyPoints(s, call.author, round, a);
      }
    }
  }

  lemma {:induction false} RunPoints(p: Params, s: Storage, calls: seq<Call>, round: nat, a: Account)
    ensures var t := Run(p, s, calls).rewards;
      && PointOf(t, round, a) == PointOf(s.rewards, round, a) + 20 * Authored(p, s, calls, round, a)
      && TotalPoint(t, round) == TotalPoint(s.rewards, round) + 20 * Noted(p, s, calls, round)
  {
    hide Next, PointOf, TotalPoint;
    if calls != [] {
      RunPoints(p, s, calls[..|calls| - 1], round, a);
      StepPoints(p, Run(p, s, calls[..|calls| - 1]), calls[|calls| - 1], round, a);
    }
  }

  /** From any genesis: twenty points for each block noted, for its author and for the round as a whole. */
  lemma PointsAreTwentyPerBlock(p: Params, balances: Balances, stakers: seq<Staker>, issuance: nat, calls: seq<Call>,
                                round: nat, a: Account)
    ensures var g := Genesis(p, balances, stakers, issuance);
      var t := Run(p, g, calls).rewards;
      && PointOf(t, round, a) == 20 * Authored(p, g, calls, round, a)
      && TotalPoint(t, round) == 20 * Noted(p, g, calls, round)
  {
    hide Run, Authored, Noted;
    GenesisBondsFresh(p, balances, stakers);
    RunPoints(p, Genesis(p, balances, stakers, issuance), calls, round, a);
  }

  // ---- From the switch to the payout -------------------------------------

  function StakedAt(r: Rewards, round: nat): int { if round in r.stakedAt then r.stakedAt[round] else 0 }

  function IssuanceAt(r: Rewards, round: nat): nat { if round in r.issuanceAt then r.issuanceAt[round] else 0 }

  /** The records of a round that has begun stay, its exposures until they are paid, its points from its end on. */
  ghost predicate Frozen(p: Params, s: Storage, t: Storage, round: nat) {
    && s.round.index <= t.round.index
    && StakedAt(t.rewards, round) == StakedAt(s.rewards, round)
    && IssuanceAt(t.rewards, round) == IssuanceAt(s.rewards, round)
    && (t.round.index < round + p.payoutDuration ==> ClippedIn(t.rewards, round) == ClippedIn(s.rewards, round))
    && (round < s.round.index ==> PointsIn(t.rewards, round) == PointsIn(s.rewards, round)
                                  && TotalPoint(t.rewards, round) == TotalPoint(s.rewards, round))
  }

  lemma StepFrozen(p: Params, s: Storage, call: Call, round: nat)
    requires round <= s.round.index
    ensures Frozen(p, s, Next(p, s, call), round)
  {
    hide Next, Holds;
    StepIndex(p, s, call);
    if Switches(s, call) {
      SwitchRecords(p, s, call);
    } else {
      OtherRecords(p, s, call);
    }
  }

  lemma {:induction false} RunFrozen(p: Params, s: Storage, calls: seq<Call>, round: nat)
    requires round <= s.round.index
    ensures Frozen(p, s, Run(p, s, calls), round)
  {
    hide Next, StakedAt, IssuanceAt, ClippedIn, PointsIn, TotalPoint;
    if calls != [] {
      RunFrozen(p, s, calls[..|calls| - 1], round);
      StepFrozen(p, Run(p, s, calls[..|calls| - 1]), calls[|calls| - 1], round);
    }
  }

  /**
   A round is paid by its own figures. After the switch that begins it, whatever
   is called until its payout: the amount is the schedule of the stake and the
   issuance at that switch, shares are of that stake, and those paid are the ones
   its election exposed.
   */
  lemma PaidByItsOwnFigures(p: Params, s: Storage, call: Call, later: seq<Call>)
    requires Switches(s, call)
    ensures var t := Next(p, s, call);
      var r, u := s.round.index + 1, Run(p, t, later);
      && t.round.index == r
      && PayoutOf(p, u, r).amount == p.schedule(NonNegative(t.totalStaked), call.issuance)
      && PayoutOf(p, u, r).totalStake == NonNegative(t.totalStaked)
      && PayoutOf(p, u, r).minimum == p.minimumBalance
      && (u.round.index < r + p.payoutDuration ==>
            Holds(p, ClippedIn(s.rewards, r), ClippedIn(u.rewards, r), call.supports, call.issuance))
  {
    hide Next, Run, Holds;
    var t := Next(p, s, call);
    StepIndex(p, s, call);
    SwitchRecords(p, s, call);
    RunFrozen(p, t, later, s.round.index + 1);
  }

  // ---- Genesis -----------------------------------------------------------

  /** Genesis opens round 1 at block 0 with the configured settings and records its own total and issuance for it. */
  lemma GenesisOpens(p: Params, balances: Balances, stakers: seq<Staker>, issuance: nat)
    ensures var g := Genesis(p, balances, stakers, issuance);
      && g.round.index == 1 && g.round.startIn == 0 && g.round.length == p.blocksPerRound
      && g.settings.bondDuration == p.bondDuration
      && g.settings.blocksPerRound == p.blocksPerRound
      && g.settings.desiredTarget == p.desiredTarget
      && g.totalStaked == StakersTotal(stakers)
      && StakedAt(g.rewards, 1) == StakersTotal(stakers) && IssuanceAt(g.rewards, 1) == issuance
      && g.nominators == map[] && g.exitQueue == map[] && g.block == 0
  {
    GenesisBondsFresh(p, balances, stakers);
    GenesisBlock(p, balances, stakers);
  }

  // ---- Settings ----------------------------------------------------------

  /** The settings of the last configuration of a run, or those it started with. */
  ghost function LastSettings(s: Storage, calls: seq<Call>): Settings {
    if calls == [] then s.settings
    else if calls[|calls| - 1].CallConfig? then calls[|calls| - 1].settings
    else LastSettings(s, calls[..|calls| - 1])
  }

  lemma StepSettings(p: Params, s: Storage, call: Call)
    ensures Next(p, s, call).settings == if call.CallConfig? then call.settings else s.settings
    ensures Switches(s, call) ==> Next(p, s, call).round.length == s.settings.blocksPerRound
  {
    hide BeforeElection, EnactElection, Reserve, UnreserveBonds, Found, Lookup, Raised, Lowered, Without, LastAmount;
    if call.Finalize? {
      AfterSwitch(p, s, s.block + 1);
      AfterElection(p, BeforeElection(p, s, s.block + 1), call.supports, call.issuance, s.block + 1);
    }
  }

  lemma {:induction false} RunSettings(p: Params, s: Storage, calls: seq<Call>)
    ensures Run(p, s, calls).settings == LastSettings(s, calls)
  {
    hide Next;
    if calls != [] {
      RunSettings(p, s, calls[..|calls| - 1]);
      StepSettings(p, Run(p, s, calls[..|calls| - 1]), calls[|calls| - 1]);
    }
  }

  /**
   After any run from any genesis the last configuration is in force: what is put
   into unbonding is due that many rounds on, and a round that begins takes that
   many blocks.
   */
  lemma SettingsInForce(p: Params, balances: Balances, stakers: seq<Staker>, issuance: nat, calls: seq<Call>,
                        call: Call)
    ensures var g := Genesis(p, balances, stakers, issuance);
      var s, last := Run(p, g, calls), LastSettings(g, calls);
      && s.settings == last
      && WithdrawRound(s) == s.round.index + last.bondDuration
      && (Switches(s, call) ==> Next(p, s, call).round.length == last.blocksPerRound)
  {
    hide Genesis, Run, Next;
    var g := Genesis(p, balances, stakers, issuance);
    RunSettings(p, g, calls);
    StepSettings(p, Run(p, g, calls), call);
  }
}

/**
 Linear vesting of crowdloan rewards: contributors are registered for a reward
 period, native accounts are linked to relay-chain accounts by a signature, and
 a linked account may claim what has vested since the last claim.
 Signature checks and the treasury's transfer are parameters of the calls.
 */
module Crowdloan {
  import opened Division
  import opened PerThing

  type Account = nat

  type Relay = nat

  type U32 = n: nat | n < 0x1_0000_0000

  /** Balances are 128 bits wide. */
  const BALANCE_MAX: nat := 0xffff_ffff_ffff_ffff_ffff_ffff_ffff_ffff

  const TWO_TO_64: nat := 0x1_0000_0000_0000_0000

  function SaturatingMul(a: nat, b: nat): nat { Min(a * b, BALANCE_MAX) }

  function SaturatingPlus(a: nat, b: nat): nat { Min(a + b, BALANCE_MAX) }

  datatype RewardInfo = RewardInfo(total: nat, claimed: nat, lastPaid: nat)

  datatype Contribution = Contribution(account: Relay, amount: U32)

  datatype State = State(
    contributors: map<Relay, RewardInfo>,
    associated: map<Account, Relay>,
    endIn: nat,
    period: nat,
    now: nat)

  datatype Error =
    | InvalidEndBlock | AlreadyInitReward | InvalidSignature | AlreadyAssociated | AlreadyPaid
    | NoAssociatedAccount | NotContributedYet | BadRelayAccount | RewardFailed | ScantyReward

  /** `Panic` is a division by zero. */
  datatype Outcome = Ok | Err(error: Error) | Panic

  datatype Reply = Reply(state: State, outcome: Outcome, paid: nat)

  // ---- Calls -------------------------------------------------------------

  function NewReward(amount: U32, rate: U32, now: nat): RewardInfo {
    RewardInfo(SaturatingMul(amount, rate), 0, now)
  }

  function Registered(m: map<Relay, RewardInfo>, cs: seq<Contribution>, rate: U32, now: nat): map<Relay, RewardInfo> {
    if cs == [] then m
    else
      var last := cs[|cs| - 1];
      Registered(m, cs[..|cs| - 1], rate, now)[last.account := NewReward(last.amount, rate, now)]
  }

  function InitializeReward(s: State, cs: seq<Contribution>, rate: U32, endBlock: nat): Reply {
    if s.now >= endBlock then Reply(s, Err(InvalidEndBlock), 0)
    else if s.now < s.endIn then Reply(s, Err(AlreadyInitReward), 0)
    else
      Reply(s.(contributors := Registered(s.contributors, cs, rate, s.now),
               endIn := endBlock,
               period := endBlock - s.now),
            Ok, 0)
  }

  function AssociateAccount(s: State, who: Account, relay: Relay, signed: bool): Reply {
    if !signed then Reply(s, Err(InvalidSignature), 0)
    else if who in s.associated then Reply(s, Err(AlreadyAssociated), 0)
    else Reply(s.(associated := s.associated[who := relay]), Ok, 0)
  }

  function UpdateAssociateAccount(s: State, who: Account, from: Account, relay: Relay, signed: bool): Reply {
    if !signed then Reply(s, Err(InvalidSignature), 0)
    else if who in s.associated then Reply(s, Err(AlreadyAssociated), 0)
    else if from !in s.associated then Reply(s, Err(NoAssociatedAccount), 0)
    else if relay != s.associated[from] then Reply(s, Err(BadRelayAccount), 0)
    else Reply(s.(associated := (s.associated - {from})[who := relay]), Ok, 0)
  }

  /** What has vested since the last claim, as the program computes it. */
  function Claimable(info: RewardInfo, period: nat, now: nat): nat
    requires 0 < period
  {
    var perBlock := info.total / period;
    var elapsed := SaturatingSub(now, info.lastPaid);
    var left := SaturatingSub(info.total, info.claimed);
    if SaturatingMul(perBlock, elapsed) > left then left else SaturatingMul(perBlock, elapsed)
  }

  function AfterClaim(info: RewardInfo, period: nat, now: nat): RewardInfo
    requires 0 < period
  {
    info.(lastPaid := now, claimed := SaturatingPlus(info.claimed, Claimable(info, period, now)))
  }

  /** The record is written before the amount is checked and transferred. */
  function GetMoney(s: State, who: Account, minimum: nat, transferred: bool): Reply {
    if who !in s.associated then Reply(s, Err(NoAssociatedAccount), 0)
    else
      var relay := s.associated[who];
      if relay !in s.contributors then Reply(s, Err(NotContributedYet), 0)
      else
        var info := s.contributors[relay];
        if info.total <= info.claimed then Reply(s, Err(AlreadyPaid), 0)
        else if s.period == 0 then Reply(s, Panic, 0)
        else
          var amount := Claimable(info, s.period, s.now);
          var written := s.(contributors := s.contributors[relay := AfterClaim(info, s.period, s.now)]);
          if amount < minimum then Reply(written, Err(ScantyReward), 0)
          else if !transferred then Reply(written, Err(RewardFailed), 0)
          else Reply(written, Ok, amount)
  }

  datatype Call =
    | Initialize(contributions: seq<Contribution>, rate: U32, endBlock: nat)
    | Associate(who: Account, relay: Relay, signed: bool)
    | Update(who: Account, from: Account, relay: Relay, signed: bool)
    | Claim(who: Account, transferred: bool)
    | NextBlock

  function Step(s: State, minimum: nat, call: Call): Reply {
    match call
    case Initialize(cs, rate, endBlock) => InitializeReward(s, cs, rate, endBlock)
    case Associate(who, relay, signed) => AssociateAccount(s, who, relay, signed)
    case Update(who, from, relay, signed) => UpdateAssociateAccount(s, who, from, relay, signed)
    case Claim(who, transferred) => GetMoney(s, who, minimum, transferred)
    case NextBlock => Reply(s.(now := s.now + 1), Ok, 0)
  }

  const EMPTY: State := State(map[], map[], 0, 0, 0)

  function Run(minimum: nat, calls: seq<Call>): State {
    if calls == [] then EMPTY
    else Step(Run(minimum, calls[..|calls| - 1]), minimum, calls[|calls| - 1]).state
  }

  // ---- Invariant ---------------------------------------------------------

  /** The start of the current reward period. */
  function Start(s: State): int { s.endIn - s.period }

  ghost predicate InfoSound(s: State, info: RewardInfo) {
    info.claimed <= info.total < TWO_TO_64 && info.lastPaid <= s.now
  }

  ghost predicate Sound(s: State) {
    && (s.contributors != map[] ==> 0 < s.period)
    && (0 < s.period ==> 0 <= Start(s) <= s.now)
    && (forall r :: r in s.contributors ==> InfoSound(s, s.contributors[r]))
  }

  lemma ClaimableIs(info: RewardInfo, period: nat, now: nat)
    requires 0 < period && info.claimed <= info.total < TWO_TO_64 && info.lastPaid <= now
    ensures Claimable(info, period, now) == Min(info.total / period * (now - info.lastPaid), info.total - info.claimed)
    ensures AfterClaim(info, period, now).claimed
         == Min(info.claimed + info.total / period * (now - info.lastPaid), info.total)
  {
  }

  lemma NewRewardSound(amount: U32, rate: U32)
    ensures amount * rate < TWO_TO_64
  {
    ProductBelow(amount, rate, 0x1_0000_0000, 0x1_0000_0000);
  }

  lemma {:induction false} RegisteredSound(m: map<Relay, RewardInfo>, cs: seq<Contribution>, rate: U32, now: nat,
                                           r: Relay)
    requires r in Registered(m, cs, rate, now)
    ensures var info := Registered(m, cs, rate, now)[r];
      (r in m && info == m[r] && forall c :: c in cs ==> c.account != r) ||
      (info.claimed == 0 && info.lastPaid == now && info.total < TWO_TO_64 && exists c :: c in cs && c.account == r)
  {
    if cs != [] {
      var init, last := cs[..|cs| - 1], cs[|cs| - 1];
      assert cs == init + [last];
      if r == last.account {
        NewRewardSound(last.amount, rate);
        assert last in cs;
      } else {
        RegisteredSound(m, init, rate, now, r);
      }
    }
  }

  lemma StepSound(s: State, minimum: nat, call: Call)
    requires Sound(s)
    ensures Sound(Step(s, minimum, call).state)
    ensures Step(s, minimum, call).outcome != Panic
  {
    hide Registered, Claimable, AfterClaim;
    var t := Step(s, minimum, call).state;
    match call {
      case Initialize(cs, rate, endBlock) =>
        forall r | r in t.contributors
          ensures InfoSound(t, t.contributors[r])
        {
          if t != s { RegisteredSound(s.contributors, cs, rate, s.now, r); }
        }
      case Claim(who, transferred) =>
        if who in s.associated && s.associated[who] in s.contributors {
          ClaimSound(s, s.contributors[s.associated[who]]);
        }
      case _ =>
    }
  }

  lemma ClaimSound(s: State, info: RewardInfo)
    requires 0 < s.period && InfoSound(s, info)
    ensures InfoSound(s, AfterClaim(info, s.period, s.now))
    ensures AfterClaim(info, s.period, s.now).total == info.total
    ensures AfterClaim(info, s.period, s.now).claimed == info.claimed + Claimable(info, s.period, s.now)
  {
    ClaimableIs(info, s.period, s.now);
  }

  /** In every reachable state; in particular no claim divides by zero. */
  lemma {:induction false} ReachableSound(minimum: nat, calls: seq<Call>)
    ensures Sound(Run(minimum, calls))
  {
    if calls != [] {
      ReachableSound(minimum, calls[..|calls| - 1]);
      StepSound(Run(minimum, calls[..|calls| - 1]), minimum, calls[|calls| - 1]);
    }
  }

  /** A new period starts no earlier than the last one ended, and is not empty. */
  lemma PeriodsDoNotOverlap(minimum: nat, calls: seq<Call>, call: Call)
    requires call.Initialize? && Step(Run(minimum, calls), minimum, call).outcome == Ok
    ensures var s, t := Run(minimum, calls), Step(Run(minimum, calls), minimum, call).state;
      && s.endIn <= Start(t) == t.now < t.endIn
      && 0 < t.period
  {
    ReachableSound(minimum, calls);
  }

  lemma ProductFits(total: nat, period: nat, elapsed: nat)
    requires 0 < period && total < TWO_TO_64 && elapsed < TWO_TO_64
    ensures total / period * elapsed <= BALANCE_MAX
  {
    var perBlock: nat := total / period;
    Bounds(total, period);
    TimesMono(perBlock, 1, period);
    ProductBelow(perBlock, elapsed, TWO_TO_64, TWO_TO_64);
  }

  /** On reachable states, before block 2^64, none of the saturating operations saturates. */
  lemma NothingSaturates(minimum: nat, calls: seq<Call>, r: Relay)
    requires Run(minimum, calls).now < TWO_TO_64 && r in Run(minimum, calls).contributors
    ensures var s := Run(minimum, calls);
      var info := s.contributors[r];
      && 0 < s.period
      && info.lastPaid <= s.now
      && info.total / s.period * (s.now - info.lastPaid) <= BALANCE_MAX
      && info.claimed + Claimable(info, s.period, s.now) <= BALANCE_MAX
  {
    hide Run, Claimable, AfterClaim;
    ReachableSound(minimum, calls);
    var s := Run(minimum, calls);
    var info := s.contributors[r];
    assert InfoSound(s, info);
    ProductFits(info.total, s.period, s.now - info.lastPaid);
    ClaimSound(s, info);
  }

  // ---- Path independence -------------------------------------------------

  /** The relay accounts registered by the latest successful initialisation. */
  function RegisteredNow(minimum: nat, calls: seq<Call>): set<Relay> {
    if calls == [] then {}
    else
      var init, last := calls[..|calls| - 1], calls[|calls| - 1];
      if last.Initialize? && Step(Run(minimum, init), minimum, last).outcome == Ok then
        set c | c in last.contributions :: c.account
      else RegisteredNow(minimum, init)
  }

  /** What has vested of a reward at the time of the last claim. */
  function Vested(info: RewardInfo, period: nat, start: nat): int
    requires 0 < period
  {
    info.total / period * (info.lastPaid - start)
  }

  ghost predicate OnTheLine(s: State, r: Relay) {
    && r in s.contributors
    && 0 < s.period
    && 0 <= Start(s) <= s.contributors[r].lastPaid
    && s.contributors[r].claimed as int
       == MinInt(s.contributors[r].total, Vested(s.contributors[r], s.period, Start(s)))
  }

  function MinInt(a: int, b: int): int { if a < b then a else b }

  lemma LineArithmetic(total: nat, rate: nat, claimed: nat, d: nat, e: nat)
    requires claimed == Min(total, rate * d)
    ensures Min(claimed + rate * e, total) == Min(total, rate * (d + e))
  {
    TimesPlus(rate, d, e);
  }

  /** A claim moves along the line, also when it fails after the write. */
  lemma ClaimOnTheLine(s: State, r: Relay)
    requires Sound(s) && OnTheLine(s, r)
    ensures OnTheLine(s.(contributors := s.contributors[r := AfterClaim(s.contributors[r], s.period, s.now)]), r)
  {
    var info := s.contributors[r];
    assert InfoSound(s, info);
    ClaimableIs(info, s.period, s.now);
    var rate: nat := info.total / s.period;
    var d, e := info.lastPaid - Start(s), s.now - info.lastPaid;
    LineArithmetic(info.total, rate, info.claimed, d, e);
  }

  lemma {:induction false} RegisteredFresh(m: map<Relay, RewardInfo>, cs: seq<Contribution>, rate: U32, now: nat,
                                           r: Relay)
    requires exists c :: c in cs && c.account == r
    ensures var n := Registered(m, cs, rate, now);
      r in n && n[r].claimed == 0 && n[r].lastPaid == now
  {
    var init, last := cs[..|cs| - 1], cs[|cs| - 1];
    assert cs == init + [last];
    if last.account != r {
      RegisteredFresh(m, init, rate, now, r);
    }
  }

  lemma InitializeOnTheLine(s: State, cs: seq<Contribution>, rate: U32, endBlock: nat, r: Relay)
    requires InitializeReward(s, cs, rate, endBlock).outcome == Ok
    requires exists c :: c in cs && c.account == r
    ensures OnTheLine(InitializeReward(s, cs, rate, endBlock).state, r)
  {
    hide Registered;
    RegisteredFresh(s.contributors, cs, rate, s.now, r);
  }

  lemma QuietOnTheLine(s: State, t: State, r: Relay)
    requires OnTheLine(s, r)
    requires t.period == s.period && t.endIn == s.endIn && r in t.contributors && t.contributors[r] == s.contributors[r]
    ensures OnTheLine(t, r)
  {
  }

  /**
   For every contributor of the current period, after any sequence of claims at
   any blocks by any of its linked accounts: what has been claimed depends on the
   block of the last claim only.
   */
  lemma {:induction false} PathIndependence(minimum: nat, calls: seq<Call>, r: Relay)
    requires r in RegisteredNow(minimum, calls)
    ensures OnTheLine(Run(minimum, calls), r)
  {
    hide OnTheLine, AfterClaim, Claimable, Registered;
    var init, last := calls[..|calls| - 1], calls[|calls| - 1];
    var s := Run(minimum, init);
    var t := Step(s, minimum, last);
    if last.Initialize? && t.outcome == Ok {
      InitializeOnTheLine(s, last.contributions, last.rate, last.endBlock, r);
    } else {
      PathIndependence(minimum, init, r);
      ReachableSound(minimum, init);
      LineHas(s, r);
      if last.Claim? && last.who in s.associated && s.associated[last.who] == r {
        ClaimOnTheLine(s, r);
      } else {
        QuietOnTheLine(s, t.state, r);
      }
    }
  }

  lemma LineHas(s: State, r: Relay)
    requires OnTheLine(s, r)
    ensures r in s.contributors && 0 < s.period
  {
  }

  // ---- Payments ----------------------------------------------------------

  /** The call is a claim for relay account `r` that gets as far as the write. */
  predicate WritesClaim(s: State, call: Call, r: Relay) {
    && call.Claim?
    && call.who in s.associated
    && s.associated[call.who] == r
    && r in s.contributors
    && s.contributors[r].claimed < s.contributors[r].total
    && 0 < s.period
  }

  /** The two checks after the write: the amount is worth a transfer, and the transfer succeeds. */
  predicate PaysOut(s: State, minimum: nat, call: Call, r: Relay)
    requires WritesClaim(s, call, r)
  {
    Claimable(s.contributors[r], s.period, s.now) >= minimum && call.transferred
  }

  /** What a call pays out for relay account `r`. */
  function PaidFor(s: State, minimum: nat, call: Call, r: Relay): nat {
    if call.Claim? && call.who in s.associated && s.associated[call.who] == r then Step(s, minimum, call).paid else 0
  }

  /** What a claim that fails after the write records as claimed all the same. */
  function ForfeitedFor(s: State, minimum: nat, call: Call, r: Relay): nat {
    if WritesClaim(s, call, r) && !PaysOut(s, minimum, call, r) then
      Claimable(s.contributors[r], s.period, s.now)
    else 0
  }

  /** The call is an initialisation that goes through and registers `r` anew. */
  predicate Renews(s: State, minimum: nat, call: Call, r: Relay) {
    && call.Initialize?
    && Step(s, minimum, call).outcome == Ok
    && exists i :: 0 <= i < |call.contributions| && call.contributions[i].account == r
  }

  /** Everything paid to native accounts for `r` since it was last registered. */
  function PaidSince(minimum: nat, calls: seq<Call>, r: Relay): nat {
    if calls == [] then 0
    else
      var init, last := calls[..|calls| - 1], calls[|calls| - 1];
      if Renews(Run(minimum, init), minimum, last, r) then 0
      else PaidSince(minimum, init, r) + PaidFor(Run(minimum, init), minimum, last, r)
  }

  /** Everything its failing claims forfeited since then. */
  function ForfeitedSince(minimum: nat, calls: seq<Call>, r: Relay): nat {
    if calls == [] then 0
    else
      var init, last := calls[..|calls| - 1], calls[|calls| - 1];
      if Renews(Run(minimum, init), minimum, last, r) then 0
      else ForfeitedSince(minimum, init, r) + ForfeitedFor(Run(minimum, init), minimum, last, r)
  }

  lemma {:induction false} RegisteredKeeps(m: map<Relay, RewardInfo>, cs: seq<Contribution>, rate: U32, now: nat,
                                           r: Relay)
    requires r in m
    ensures r in Registered(m, cs, rate, now)
  {
    if cs != [] {
      RegisteredKeeps(m, cs[..|cs| - 1], rate, now, r);
    }
  }

  lemma InitializePaid(s: State, cs: seq<Contribution>, rate: U32, endBlock: nat, r: Relay)
    requires r in s.contributors && forall i :: 0 <= i < |cs| ==> cs[i].account != r
    ensures var t := InitializeReward(s, cs, rate, endBlock).state;
      r in t.contributors && t.contributors[r] == s.contributors[r]
  {
    RegisteredKeeps(s.contributors, cs, rate, s.now, r);
    RegisteredSound(s.contributors, cs, rate, s.now, r);
  }

  /** What the record of `r` says was claimed; nothing without a record. */
  function ClaimedOf(s: State, r: Relay): nat { if r in s.contributors then s.contributors[r].claimed else 0 }

  lemma RenewedIsFresh(s: State, minimum: nat, call: Call, r: Relay)
    requires Renews(s, minimum, call, r)
    ensures ClaimedOf(Step(s, minimum, call).state, r) == 0
  {
    hide Registered;
    RegisteredFresh(s.contributors, call.contributions, call.rate, s.now, r);
  }

  lemma OthersKept(s: State, minimum: nat, call: Call, r: Relay)
    requires call.Initialize? && !Renews(s, minimum, call, r)
    ensures ClaimedOf(Step(s, minimum, call).state, r) == ClaimedOf(s, r)
  {
    hide Registered;
    var t := Step(s, minimum, call).state;
    if t != s {
      if r in s.contributors {
        InitializePaid(s, call.contributions, call.rate, call.endBlock, r);
      } else if r in t.contributors {
        RegisteredSound(s.contributors, call.contributions, call.rate, s.now, r);
      }
    }
  }

  /** One call moves the record by what it pays and what it forfeits. */
  lemma StepClaimed(s: State, minimum: nat, call: Call, r: Relay)
    requires Sound(s) && !Renews(s, minimum, call, r)
    ensures ClaimedOf(Step(s, minimum, call).state, r)
         == ClaimedOf(s, r) + PaidFor(s, minimum, call, r) + ForfeitedFor(s, minimum, call, r)
  {
    hide Registered, Claimable, AfterClaim, Renews;
    assert forall k :: k in s.contributors ==> InfoSound(s, s.contributors[k]);
    if call.Initialize? {
      OthersKept(s, minimum, call, r);
    } else if call.Claim? && call.who in s.associated && s.associated[call.who] in s.contributors {
      ClaimSound(s, s.contributors[s.associated[call.who]]);
    }
  }

  /**
   Per relay account and registration: what the record says was claimed is
   exactly what the native accounts ever linked to it were paid, plus what the
   claims that failed after the write forfeited; and it stays within the reward.
   */
  lemma {:induction false} ClaimedIsPaidOrForfeited(minimum: nat, calls: seq<Call>, r: Relay)
    ensures ClaimedOf(Run(minimum, calls), r) == PaidSince(minimum, calls, r) + ForfeitedSince(minimum, calls, r)
    ensures var s := Run(minimum, calls); r in s.contributors ==> s.contributors[r].claimed <= s.contributors[r].total
  {
    ReachableSound(minimum, calls);
    var s := Run(minimum, calls);
    assert r in s.contributors ==> InfoSound(s, s.contributors[r]);
    if calls != [] {
      hide Step, Renews, PaidFor, ForfeitedFor, ClaimedOf, Sound;
      var init, last := calls[..|calls| - 1], calls[|calls| - 1];
      ClaimedIsPaidOrForfeited(minimum, init, r);
      ReachableSound(minimum, init);
      if Renews(Run(minimum, init), minimum, last, r) {
        RenewedIsFresh(Run(minimum, init), minimum, last, r);
      } else {
        StepClaimed(Run(minimum, init), minimum, last, r);
      }
    }
  }

  // ---- Errors ------------------------------------------------------------

  /** A failing claim leaves the storage alone exactly when it stops before the write or comes twice in a block. */
  lemma ErrorLeavesStorageIff(s: State, who: Account, minimum: nat, transferred: bool)
    requires Sound(s) && GetMoney(s, who, minimum, transferred).outcome.Err?
    ensures GetMoney(s, who, minimum, transferred).state == s <==>
      !(who in s.associated && s.associated[who] in s.contributors
        && s.contributors[s.associated[who]].claimed < s.contributors[s.associated[who]].total
        && s.contributors[s.associated[who]].lastPaid != s.now)
  {
    if who in s.associated && s.associated[who] in s.contributors {
      var r := s.associated[who];
      var info := s.contributors[r];
      assert InfoSound(s, info);
      ClaimSound(s, info);
      if info.lastPaid == s.now {
        ClaimableIs(info, s.period, s.now);
        assert AfterClaim(info, s.period, s.now) == info;
        assert s.contributors[r := info] == s.contributors;
      }
    }
  }

  /** A reachable claim that fails with its record written: what had vested is lost to the claimant. */
  lemma FailedClaimForfeits()
    ensures var calls := [Initialize([Contribution(7, 5)], 2, 10), Associate(1, 7, true), NextBlock, Claim(1, true)];
      && Step(Run(3, calls[..3]), 3, calls[3]).outcome == Err(ScantyReward)
      && 7 in Run(3, calls).contributors
      && Run(3, calls).contributors[7].claimed == 1
      && PaidSince(3, calls, 7) == 0
  {
    var c1, c2 := Initialize([Contribution(7, 5)], 2, 10), Associate(1, 7, true);
    var calls := [c1, c2, NextBlock, Claim(1, true)];
    assert calls[..1] == [c1] && calls[..2] == [c1, c2] && calls[..3] == [c1, c2, NextBlock];
    assert [c1][..0] == [] && [c1, c2][..1] == [c1] && [c1, c2, NextBlock][..2] == [c1, c2];
    var cs := [Contribution(7, 5)];
    assert cs[..0] == [];
    assert Registered(map[], cs, 2, 0) == map[7 := RewardInfo(10, 0, 0)];
    var s1 := State(map[7 := RewardInfo(10, 0, 0)], map[], 10, 10, 0);
    assert Run(3, [c1]) == s1;
    var s2 := s1.(associated := map[1 := 7]);
    assert Run(3, [c1, c2]) == s2;
    assert Run(3, [c1, c2, NextBlock]) == s2.(now := 1);
    assert PaidSince(3, [c1], 7) == 0;
    assert PaidSince(3, [c1, c2], 7) == 0;
    assert PaidSince(3, [c1, c2, NextBlock], 7) == 0;
  }

  // ---- The pallet --------------------------------------------------------

  /** The pallet's storage, changed in place by its calls. */
  class CrowdloanRewards {
    var contributors: map<Relay, RewardInfo>
    var associatedAccount: map<Account, Relay>
    var currentRewardEndIn: nat
    var rewardPeriod: nat
    var blockNumber: nat

    function Snapshot(): State
      reads this
    {
      State(contributors, associatedAccount, currentRewardEndIn, rewardPeriod, blockNumber)
    }

    constructor ()
      ensures Snapshot() == EMPTY
    {
      contributors, associatedAccount := map[], map[];
      currentRewardEndIn, rewardPeriod, blockNumber := 0, 0, 0;
    }

    method Initialize(cs: seq<Contribution>, rate: U32, endBlock: nat) returns (r: Outcome)
      modifies this`contributors, this`currentRewardEndIn, this`rewardPeriod
      ensures Reply(Snapshot(), r, 0) == InitializeReward(old(Snapshot()), cs, rate, endBlock)
    {
      var now := blockNumber;
      if now >= endBlock { return Err(InvalidEndBlock); }
      if now < currentRewardEndIn { return Err(AlreadyInitReward); }
      for i := 0 to |cs|
        invariant contributors == Registered(old(contributors), cs[..i], rate, now)
        invariant currentRewardEndIn == old(currentRewardEndIn) && rewardPeriod == old(rewardPeriod)
      {
        assert cs[..i + 1][..i] == cs[..i];
        var info := RewardInfo(SaturatingMul(cs[i].amount, rate), 0, now);
        contributors := contributors[cs[i].account := info];
      }
      assert cs[..|cs|] == cs;
      currentRewardEndIn := endBlock;
      rewardPeriod := endBlock - now;
      return Ok;
    }

    method Associate(who: Account, relay: Relay, signed: bool) returns (r: Outcome)
      modifies this`associatedAccount
      ensures Reply(Snapshot(), r, 0) == AssociateAccount(old(Snapshot()), who, relay, signed)
    {
      if !signed { return Err(InvalidSignature); }
      if who in associatedAccount { return Err(AlreadyAssociated); }
      associatedAccount := associatedAccount[who := relay];
      return Ok;
    }

    method UpdateAssociation(who: Account, from: Account, relay: Relay, signed: bool) returns (r: Outcome)
      modifies this`associatedAccount
      ensures Reply(Snapshot(), r, 0) == UpdateAssociateAccount(old(Snapshot()), who, from, relay, signed)
      ensures r == Ok ==> from !in associatedAccount && who in associatedAccount && associatedAccount[who] == relay
    {
      if !signed { return Err(InvalidSignature); }
      if who in associatedAccount { return Err(AlreadyAssociated); }
      if from !in associatedAccount { return Err(NoAssociatedAccount); }
      if relay != associatedAccount[from] { return Err(BadRelayAccount); }
      associatedAccount := associatedAccount - {from};
      associatedAccount := associatedAccount[who := relay];
      return Ok;
    }

    method Claim(who: Account, minimum: nat, transferred: bool) returns (r: Outcome, paid: nat)
      modifies this`contributors
      ensures Reply(Snapshot(), r, paid) == GetMoney(old(Snapshot()), who, minimum, transferred)
      ensures Sound(old(Snapshot())) ==> Sound(Snapshot()) && r != Panic
    {
      if Sound(Snapshot()) {
        StepSound(Snapshot(), minimum, Call.Claim(who, transferred));
      }
      if who !in associatedAccount { return Err(NoAssociatedAccount), 0; }
      var relay := associatedAccount[who];
      if relay !in contributors { return Err(NotContributedYet), 0; }
      var info := contributors[relay];
      if !(info.total > info.claimed) { return Err(AlreadyPaid), 0; }
      if rewardPeriod == 0 { return Panic, 0; }
      var perBlock := info.total / rewardPeriod;
      var elapsed := SaturatingSub(blockNumber, info.lastPaid);
      var amount := if SaturatingMul(perBlock, elapsed) > info.total - info.claimed
                    then info.total - info.claimed else SaturatingMul(perBlock, elapsed);
      info := info.(lastPaid := blockNumber);
      info := info.(claimed := SaturatingPlus(info.claimed, amount));
      contributors := contributors[relay := info];
      if amount < minimum { return Err(ScantyReward), 0; }
      if !transferred { return Err(RewardFailed), 0; }
      return Ok, amount;
    }
  }
}

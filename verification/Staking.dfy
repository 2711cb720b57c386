/**
 The staking pallet as a state machine: its storage, its calls and the switch
 to the next round, each as a function from the storage before to the storage
 after. The class in Pallet.dfy performs the same steps in place.
 */
module Staking {
  import opened Options
  import opened Sums
  import opened Entities
  import opened Currency
  import opened PerThing
  import opened Inflation

  /** Reads an unsigned amount: the value is negative only after an underflow. */
  function NonNegative(x: int): nat { if x < 0 then 0 else x }

  // ---- Storage -----------------------------------------------------------

  /**
   The constants of the pallet's configuration trait, with the payout of a round
   as a function of the staked total and the issuance, and the conversions
   between balances and vote weights as functions of the value and the issuance.
   `RoundPayout` is the schedule the pallet uses; nothing proved about the ledger
   depends on any of the three.
   */
  datatype Params = Params(
    minCollatorStake: nat,
    minNominatorStake: nat,
    maxNominations: nat,
    payoutDuration: nat,
    blocksPerRound: nat,
    bondDuration: nat,
    desiredTarget: nat,
    minimumBalance: nat,
    schedule: (nat, nat) -> nat,
    toVote: (nat, nat) -> nat,
    toCurrency: (nat, nat) -> nat)

  /** The inflation parameters of the pallet, for rounds of six-second blocks. */
  function RoundPayout(blocksPerRound: nat): (nat, nat) -> nat {
    (staked, issuance) => ComputeTotalPayout(staked, issuance, 25, 20, 50, 5, blocksPerRound * 6000)
  }

  datatype Settings = Settings(bondDuration: nat, blocksPerRound: nat, desiredTarget: nat)

  datatype Status = Validator | Nominating | Active | Onboarding | Idle | Leaves

  datatype Collator = Collator(
    total: int,
    active: nat,
    nominations: seq<Bond>,
    unlocking: seq<Chunk>,
    unbonding: seq<Chunk>,
    status: Status)
  {
    predicate IsActive() { status == Active }

    function BondExtra(extra: nat, nextRound: nat): Collator {
      this.(total := total + extra, unlocking := unlocking + [Chunk(extra, nextRound)])
    }

    function BondLess(less: nat, withdrawRound: nat): Option<Collator> {
      if active > less then
        Some(this.(active := active - less, unbonding := unbonding + [Chunk(less, withdrawRound)]))
      else None
    }

    function ForceBond(): Collator {
      this.(active := NonNegative(total), unlocking := [], status := Active)
    }

    /** Onboarding ends, unlocked funds become active, unbonded funds leave. */
    function Advance(round: nat): Collator {
      Collator(
        total - DueTotal(unbonding, round),
        active + DueTotal(unlocking, round),
        nominations,
        Kept(unlocking, round),
        Kept(unbonding, round),
        if status == Onboarding then Active else status)
    }
  }

  function NewCollator(amount: nat, nextRound: nat): Collator {
    Collator(amount, 0, [], [Chunk(amount, nextRound)], [], Onboarding)
  }

  datatype Nominator = Nominator(nominations: seq<Bond>, total: int, unbonding: seq<Chunk>) {

    function AddNomination(bond: Bond): Option<Nominator> {
      if Found(nominations, bond.owner) then None
      else Some(this.(nominations := nominations + [bond], total := total + bond.amount))
    }

    function ConsolidateUnbonded(round: nat): Nominator {
      this.(total := total - DueTotal(unbonding, round), unbonding := Kept(unbonding, round))
    }
  }

  datatype Leaving = Leaving(remaining: nat, unbonding: seq<Chunk>, when: nat) {
    /** What a switch to `round` releases to the account. */
    function Release(round: nat): nat {
      if when > round then DueTotal(unbonding, round) else remaining + Total(unbonding)
    }

    /** What the same switch takes off the staked total: the last amount written wins. */
    function Deduction(round: nat): nat {
      var paid := if when > round then Due(unbonding, round) else unbonding;
      if paid != [] then paid[|paid| - 1].value
      else if when > round then 0
      else remaining
    }

    function Amount(): nat { remaining + Total(unbonding) }
  }

  datatype RoundInfo = RoundInfo(index: nat, startIn: nat, length: nat) {
    function NextRoundIndex(): nat { index + 1 }

    /** `now - start_in` is unsigned in the program. */
    predicate ShouldGotoNextRound(now: nat) { now - startIn >= length }

    function NextElectionPrediction(): nat { startIn + length }
  }

  datatype Share = Share(who: Account, value: nat)

  datatype Exposure = Exposure(total: nat, own: nat, others: seq<Share>)

  /** An elected collator with the vote weight each voter puts behind it. */
  datatype Support = Support(who: Account, voters: seq<Share>)

  datatype Rewards = Rewards(
    clipped: map<nat, map<Account, Exposure>>,
    points: map<nat, map<Account, nat>>,
    totalPoints: map<nat, nat>,
    stakedAt: map<nat, int>,
    issuanceAt: map<nat, nat>)

  datatype Storage = Storage(
    collators: map<Account, Collator>,
    nominators: map<Account, Nominator>,
    exitQueue: map<Account, Leaving>,
    totalStaked: int,
    round: RoundInfo,
    settings: Settings,
    balances: Balances,
    rewards: Rewards,
    block: nat)

  // ---- Calls -------------------------------------------------------------

  datatype Error =
    | AlreadyBonded | BondNotExist | Underflow | BondBelowMin | NominateBelowMin
    | CandidateNotExist | NominationNotExist | AlreadyNominatedCollator
    | TooManyNominations | CandidateNotActive

  datatype Outcome = Ok | Err(error: Error)

  function WithdrawRound(s: Storage): nat { s.round.index + s.settings.bondDuration }

  function Config(s: Storage, settings: Settings): (Storage, Outcome) {
    (s.(settings := settings), Ok)
  }

  function DoBond(p: Params, s: Storage, who: Account, amount: nat): (Storage, Outcome) {
    if who in s.collators then (s, Err(AlreadyBonded))
    else if amount < p.minCollatorStake then (s, Err(BondBelowMin))
    else
      (s.(collators := s.collators[who := NewCollator(amount, s.round.NextRoundIndex())],
          totalStaked := s.totalStaked + amount,
          balances := Reserve(s.balances, who, amount)), Ok)
  }

  function ForceOnboard(s: Storage, candidate: Account): (Storage, Outcome) {
    if candidate !in s.collators then (s, Err(CandidateNotExist))
    else if s.collators[candidate].IsActive() then (s, Err(CandidateNotActive))
    else (s.(collators := s.collators[candidate := s.collators[candidate].ForceBond()]), Ok)
  }

  function BondExtra(s: Storage, who: Account, extra: nat): (Storage, Outcome) {
    if who !in s.collators then (s, Err(BondNotExist))
    else if !s.collators[who].IsActive() then (s, Err(CandidateNotActive))
    else
      (s.(collators := s.collators[who := s.collators[who].BondExtra(extra, s.round.NextRoundIndex())],
          totalStaked := s.totalStaked + extra,
          balances := Reserve(s.balances, who, extra)), Ok)
  }

  function BondLess(p: Params, s: Storage, who: Account, less: nat): (Storage, Outcome) {
    if who !in s.collators then (s, Err(BondNotExist))
    else if !s.collators[who].IsActive() then (s, Err(CandidateNotActive))
    else match s.collators[who].BondLess(less, WithdrawRound(s))
      case None => (s, Err(Underflow))
      case Some(c) =>
        if c.active < p.minCollatorStake then (s, Err(BondBelowMin))
        else (s.(collators := s.collators[who := c]), Ok)
  }

  function CollatorUnbond(s: Storage, who: Account): (Storage, Outcome) {
    if who !in s.collators then (s, Err(BondNotExist))
    else
      var c := s.collators[who];
      (s.(balances := UnreserveBonds(s.balances, c.nominations),
          exitQueue := s.exitQueue[who := Leaving(c.active, c.unbonding, WithdrawRound(s))],
          collators := s.collators - {who}), Ok)
  }

  /** The nominator's record after `nominate` has passed its first checks, if it is written at all. */
  function NominatorAfter(s: Storage, who: Account, candidate: Account, amount: nat): Option<Nominator> {
    if who in s.nominators then s.nominators[who].AddNomination(Bond(candidate, amount))
    else Some(Nominator([Bond(candidate, amount)], amount, []))
  }

  /** The nominator's record is written before the collator's list is checked. */
  function Nominate(p: Params, s: Storage, who: Account, candidate: Account, amount: nat): (Storage, Outcome) {
    if amount < p.minNominatorStake then (s, Err(NominateBelowMin))
    else if candidate !in s.collators then (s, Err(CandidateNotExist))
    else if !s.collators[candidate].IsActive() then (s, Err(CandidateNotActive))
    else if |s.collators[candidate].nominations| >= p.maxNominations then (s, Err(TooManyNominations))
    else match NominatorAfter(s, who, candidate, amount)
      case None => (s, Err(AlreadyNominatedCollator))
      case Some(n) =>
        var c := s.collators[candidate];
        var written := s.(nominators := s.nominators[who := n]);
        if Found(c.nominations, who) then (written, Err(NominationNotExist))
        else
          (written.(collators := s.collators[candidate := c.(nominations := c.nominations + [Bond(who, amount)])],
                    balances := Reserve(s.balances, who, amount),
                    totalStaked := s.totalStaked + amount), Ok)
  }

  function NominateExtra(s: Storage, who: Account, candidate: Account, extra: nat): (Storage, Outcome) {
    if candidate !in s.collators then (s, Err(CandidateNotExist))
    else if !s.collators[candidate].IsActive() then (s, Err(CandidateNotActive))
    else if who !in s.nominators then (s, Err(NominationNotExist))
    else
      var c, n := s.collators[candidate], s.nominators[who];
      if Lookup(n.nominations, candidate).None? then (s, Err(CandidateNotExist))
      else if Lookup(c.nominations, who).None? then (s, Err(NominationNotExist))
      else
        (s.(collators := s.collators[candidate := c.(nominations := Raised(c.nominations, who, extra))],
            nominators := s.nominators[who := n.(nominations := Raised(n.nominations, candidate, extra),
                                                 total := n.total + extra)],
            balances := Reserve(s.balances, who, extra),
            totalStaked := s.totalStaked + extra), Ok)
  }

  function NominateLess(p: Params, s: Storage, who: Account, candidate: Account, less: nat): (Storage, Outcome) {
    if candidate !in s.collators then (s, Err(CandidateNotExist))
    else if !s.collators[candidate].IsActive() then (s, Err(CandidateNotActive))
    else if who !in s.nominators then (s, Err(NominationNotExist))
    else
      var c, n := s.collators[candidate], s.nominators[who];
      var mine, theirs := Lookup(n.nominations, candidate), Lookup(c.nominations, who);
      if mine.None? then (s, Err(CandidateNotExist))
      else if mine.value <= less then (s, Err(Underflow))
      else if mine.value - less < p.minNominatorStake then (s, Err(NominateBelowMin))
      else if theirs.None? then (s, Err(NominationNotExist))
      else if theirs.value <= less then (s, Err(Underflow))
      else if theirs.value - less < p.minNominatorStake then (s, Err(NominateBelowMin))
      else
        (s.(collators := s.collators[candidate := c.(nominations := Lowered(c.nominations, who, less))],
            nominators := s.nominators[who := n.(nominations := Lowered(n.nominations, candidate, less),
                                                 unbonding := n.unbonding + [Chunk(less, WithdrawRound(s))])]), Ok)
  }

  function NominatorLeaveCollator(s: Storage, who: Account, candidate: Account): (Storage, Outcome) {
    if who !in s.nominators then (s, Err(NominationNotExist))
    else if candidate !in s.collators then (s, Err(CandidateNotExist))
    else
      var c, n := s.collators[candidate], s.nominators[who];
      var last := LastAmount(n.nominations, candidate);
      if last.None? then (s, Err(CandidateNotExist))
      else if LastAmount(c.nominations, who).None? then (s, Err(NominationNotExist))
      else
        var left := Chunk(last.value, WithdrawRound(s));
        (s.(collators := s.collators[candidate := c.(nominations := Without(c.nominations, who))],
            nominators := s.nominators[who := n.(nominations := Without(n.nominations, candidate),
                                                 unbonding := n.unbonding + [left])]), Ok)
  }

  // ---- Points and payouts ------------------------------------------------

  function PointsIn(r: Rewards, round: nat): map<Account, nat> {
    if round in r.points then r.points[round] else map[]
  }

  function PointOf(r: Rewards, round: nat, a: Account): nat {
    if a in PointsIn(r, round) then PointsIn(r, round)[a] else 0
  }

  function TotalPoint(r: Rewards, round: nat): nat {
    if round in r.totalPoints then r.totalPoints[round] else 0
  }

  function ClippedIn(r: Rewards, round: nat): map<Account, Exposure> {
    if round in r.clipped then r.clipped[round] else map[]
  }

  /** 20 points to the author of a block. */
  function NoteAuthor(s: Storage, author: Account): Storage {
    var r, now := s.rewards, s.round.index;
    s.(rewards := r.(points := r.points[now := PointsIn(r, now)[author := PointOf(r, now, author) + 20]],
                     totalPoints := r.totalPoints[now := TotalPoint(r, now) + 20]))
  }

  /** What a payout needs to know about its round. */
  datatype Payout = Payout(amount: nat, totalStake: nat, totalPoints: nat, points: map<Account, nat>, minimum: nat) {
    function ExposurePart(own: nat): nat {
      var half := FromRational(PERBILL, 50, 100);
      TimesNumber(PERBILL, Times(PERBILL, half, FromRational(PERBILL, own, totalStake)), amount)
    }

    function CommissionPerbill(a: Account): nat {
      var point := if a in points then points[a] else 0;
      Times(PERBILL, FromRational(PERBILL, 50, 100), FromRational(PERBILL, point, totalPoints))
    }

    function CommissionPart(a: Account): nat { TimesNumber(PERBILL, CommissionPerbill(a), amount) }

    function NominatorPart(value: nat): nat {
      TimesNumber(PERBILL, FromRational(PERBILL, value, totalStake), amount)
    }

    /** Amounts at or below the minimum balance are not minted. */
    function Minted(v: nat): nat { if v > minimum then v else 0 }

    function SharesTo(others: seq<Share>, a: Account): nat {
      if others == [] then 0
      else
        var last := others[|others| - 1];
        SharesTo(others[..|others| - 1], a) + (if last.who == a then Minted(NominatorPart(last.value)) else 0)
    }

    /** Everything one collator's exposure earns account `a`. */
    function CreditFrom(collator: Account, e: Exposure, a: Account): nat {
      (if collator == a then Minted(ExposurePart(e.own) + CommissionPart(collator)) else 0) + SharesTo(e.others, a)
    }

    function CreditMap(clipped: map<Account, Exposure>, a: Account): map<Account, nat> {
      map c | c in clipped :: CreditFrom(c, clipped[c], a)
    }

    ghost function Credits(clipped: map<Account, Exposure>, a: Account): int { SumOver(CreditMap(clipped, a)) }
  }

  ghost function DepositEach(b: Balances, pay: Payout, clipped: map<Account, Exposure>): Balances {
    map a | a in b :: AccountData(b[a].free + NonNegative(pay.Credits(clipped, a)), b[a].reserved)
  }

  function PayoutOf(p: Params, s: Storage, round: nat): Payout {
    var r := s.rewards;
    var staked := NonNegative(if round in r.stakedAt then r.stakedAt[round] else 0);
    var issuance := if round in r.issuanceAt then r.issuanceAt[round] else 0;
    Payout(p.schedule(staked, issuance), staked, TotalPoint(r, round), PointsIn(r, round), p.minimumBalance)
  }

  ghost function PayoutStakers(p: Params, s: Storage): Storage {
    if s.round.index <= p.payoutDuration then s
    else
      var round := s.round.index - p.payoutDuration;
      s.(balances := DepositEach(s.balances, PayoutOf(p, s, round), ClippedIn(s.rewards, round)),
         rewards := s.rewards.(clipped := s.rewards.clipped - {round}))
  }

  // ---- Round switch ------------------------------------------------------

  function CollatorDue(c: map<Account, Collator>, round: nat): map<Account, nat> {
    map a | a in c :: DueTotal(c[a].unbonding, round)
  }

  function Advanced(c: map<Account, Collator>, round: nat): map<Account, Collator> {
    map a | a in c :: c[a].Advance(round)
  }

  function UpdateCollators(s: Storage): Storage {
    s.(collators := Advanced(s.collators, s.round.index),
       balances := UnreserveEach(s.balances, CollatorDue(s.collators, s.round.index)))
  }

  function NominatorDue(n: map<Account, Nominator>, round: nat): map<Account, nat> {
    map a | a in n :: DueTotal(n[a].unbonding, round)
  }

  function Consolidated(n: map<Account, Nominator>, round: nat): map<Account, Nominator> {
    map a | a in n :: n[a].ConsolidateUnbonded(round)
  }

  ghost function UpdateNominators(s: Storage): Storage {
    s.(nominators := Consolidated(s.nominators, s.round.index),
       balances := UnreserveEach(s.balances, NominatorDue(s.nominators, s.round.index)),
       totalStaked := s.totalStaked - SumOver(NominatorDue(s.nominators, s.round.index)))
  }

  function ExitRelease(q: map<Account, Leaving>, round: nat): map<Account, nat> {
    map a | a in q :: q[a].Release(round)
  }

  function ExitDeduction(q: map<Account, Leaving>, round: nat): map<Account, nat> {
    map a | a in q :: q[a].Deduction(round)
  }

  function StillLeaving(q: map<Account, Leaving>, round: nat): map<Account, Leaving> {
    map a | a in q && q[a].when > round :: q[a].(unbonding := Kept(q[a].unbonding, round))
  }

  ghost function ExecuteExitQueue(s: Storage): Storage {
    var round := s.round.index;
    s.(exitQueue := StillLeaving(s.exitQueue, round),
       balances := UnreserveEach(s.balances, ExitRelease(s.exitQueue, round)),
       totalStaked := s.totalStaked - SumOver(ExitDeduction(s.exitQueue, round)))
  }

  function SharesTotal(vs: seq<Share>): nat {
    if vs == [] then 0 else SharesTotal(vs[..|vs| - 1]) + vs[|vs| - 1].value
  }

  function VotesOf(vs: seq<Share>, who: Account): seq<Share> {
    if vs == [] then []
    else
      var rest := VotesOf(vs[..|vs| - 1], who);
      if vs[|vs| - 1].who == who then rest + [vs[|vs| - 1]] else rest
  }

  function VotesOfOthers(vs: seq<Share>, who: Account): seq<Share> {
    if vs == [] then []
    else
      var rest := VotesOfOthers(vs[..|vs| - 1], who);
      if vs[|vs| - 1].who == who then rest else rest + [vs[|vs| - 1]]
  }

  /** Balances are 128 bits wide; sums of exposures saturate. */
  const BALANCE_MAX: nat := 0xffff_ffff_ffff_ffff_ffff_ffff_ffff_ffff

  function Saturated(v: nat): nat { Min(v, BALANCE_MAX) }

  /** Vote weights turned into stakes. */
  function AsStakes(p: Params, votes: seq<Share>, issuance: nat): seq<Share> {
    seq(|votes|, i requires 0 <= i < |votes| => Share(votes[i].who, p.toCurrency(votes[i].value, issuance)))
  }

  function ExposureOf(p: Params, sup: Support, issuance: nat): Exposure {
    var stakes := AsStakes(p, sup.voters, issuance);
    Exposure(Saturated(SharesTotal(stakes)), Saturated(SharesTotal(VotesOf(stakes, sup.who))),
             VotesOfOthers(stakes, sup.who))
  }

  function Elected(p: Params, before: map<Account, Exposure>, sups: seq<Support>, issuance: nat)
    : map<Account, Exposure>
  {
    if sups == [] then before
    else
      var last := sups[|sups| - 1];
      Elected(p, before, sups[..|sups| - 1], issuance)[last.who := ExposureOf(p, last, issuance)]
  }

  /** `None` stands for a failed election, which leaves the round without exposures. */
  function EnactElection(p: Params, s: Storage, supports: Option<seq<Support>>, issuance: nat): Storage {
    if supports.None? || supports.value == [] then s
    else
      var r, now := s.rewards, s.round.index;
      s.(rewards := r.(clipped := r.clipped[now := Elected(p, ClippedIn(r, now), supports.value, issuance)]))
  }

  function RecordTotals(s: Storage, issuance: nat): Storage {
    var r, now := s.rewards, s.round.index;
    s.(rewards := r.(stakedAt := r.stakedAt[now := s.totalStaked], issuanceAt := r.issuanceAt[now := issuance]))
  }

  function EnterRound(s: Storage, now: nat): Storage {
    s.(round := RoundInfo(s.round.index + 1, now, s.settings.blocksPerRound))
  }

  /** The storage the election sees. */
  ghost function BeforeElection(p: Params, s: Storage, now: nat): Storage {
    ExecuteExitQueue(UpdateNominators(UpdateCollators(PayoutStakers(p, EnterRound(s, now)))))
  }

  /** `on_finalize` of the block after the last finalised one. */
  ghost function OnFinalize(p: Params, s: Storage, supports: Option<seq<Support>>, issuance: nat): Storage {
    var now := s.block + 1;
    if s.round.ShouldGotoNextRound(now) then
      RecordTotals(EnactElection(p, BeforeElection(p, s, now), supports, issuance), issuance).(block := now)
    else s.(block := now)
  }

  // ---- Genesis -----------------------------------------------------------

  datatype Staker = Staker(who: Account, amount: nat)

  /** Bonds of the genesis stakers, made while the round index is still zero. */
  function GenesisBonds(p: Params, s: Storage, stakers: seq<Staker>): Storage {
    if stakers == [] then s
    else
      var last := stakers[|stakers| - 1];
      DoBond(p, GenesisBonds(p, s, stakers[..|stakers| - 1]), last.who, last.amount).0
  }

  function StakersTotal(stakers: seq<Staker>): nat {
    if stakers == [] then 0 else StakersTotal(stakers[..|stakers| - 1]) + stakers[|stakers| - 1].amount
  }

  /** Every staker must be able to pay when its turn comes; otherwise the build panics. */
  predicate GenesisFunded(p: Params, s: Storage, stakers: seq<Staker>) {
    stakers == [] ||
    var init, last := stakers[..|stakers| - 1], stakers[|stakers| - 1];
    GenesisFunded(p, s, init) && last.amount <= Free(GenesisBonds(p, s, init).balances, last.who)
  }

  function Blank(balances: Balances): Storage {
    Storage(map[], map[], map[], 0, RoundInfo(0, 0, 0), Settings(0, 0, 0), balances,
            Rewards(map[], map[], map[], map[], map[]), 0)
  }

  /** The staked total counts every staker, also those whose bond was refused. */
  function Genesis(p: Params, balances: Balances, stakers: seq<Staker>, issuance: nat): Storage {
    var s := GenesisBonds(p, Blank(balances), stakers);
    var total := StakersTotal(stakers);
    s.(totalStaked := total,
       round := RoundInfo(1, 0, p.blocksPerRound),
       settings := Settings(p.bondDuration, p.blocksPerRound, p.desiredTarget),
       rewards := s.rewards.(stakedAt := map[1 := total], issuanceAt := map[1 := issuance]))
  }

  // ---- Runs --------------------------------------------------------------

  datatype Call =
    | CallConfig(settings: Settings)
    | CallBond(who: Account, amount: nat)
    | CallForceOnboard(candidate: Account)
    | CallBondExtra(who: Account, amount: nat)
    | CallBondLess(who: Account, less: nat)
    | CallCollatorUnbond(who: Account)
    | CallNominate(who: Account, candidate: Account, amount: nat)
    | CallNominateExtra(who: Account, candidate: Account, amount: nat)
    | CallNominateLess(who: Account, candidate: Account, less: nat)
    | CallNominatorLeaveCollator(who: Account, candidate: Account)
    | NoteAuthorOf(author: Account)
    | Finalize(supports: Option<seq<Support>>, issuance: nat)
    | SetFree(who: Account, free: nat)  // transfers and deposits made by others

  ghost function Step(p: Params, s: Storage, call: Call): (Storage, Outcome) {
    match call
    case CallConfig(settings) => Config(s, settings)
    case CallBond(who, amount) => DoBond(p, s, who, amount)
    case CallForceOnboard(candidate) => ForceOnboard(s, candidate)
    case CallBondExtra(who, amount) => BondExtra(s, who, amount)
    case CallBondLess(who, less) => BondLess(p, s, who, less)
    case CallCollatorUnbond(who) => CollatorUnbond(s, who)
    case CallNominate(who, candidate, amount) => Nominate(p, s, who, candidate, amount)
    case CallNominateExtra(who, candidate, amount) => NominateExtra(s, who, candidate, amount)
    case CallNominateLess(who, candidate, less) => NominateLess(p, s, who, candidate, less)
    case CallNominatorLeaveCollator(who, candidate) => NominatorLeaveCollator(s, who, candidate)
    case NoteAuthorOf(author) => (NoteAuthor(s, author), Ok)
    case Finalize(supports, issuance) => (OnFinalize(p, s, supports, issuance), Ok)
    case SetFree(who, free) =>
      (s.(balances := s.balances[who := AccountData(free, Reserved(s.balances, who))]), Ok)
  }

  ghost function Next(p: Params, s: Storage, call: Call): Storage { Step(p, s, call).0 }

  /** The storage after a run; the last call is the latest. */
  ghost function Run(p: Params, s: Storage, calls: seq<Call>): Storage {
    if calls == [] then s else Next(p, Run(p, s, calls[..|calls| - 1]), calls[|calls| - 1])
  }
}

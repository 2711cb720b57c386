/**
 Reserved balances against what the pallet may ask an account's reserve to
 release: its stake as a collator, its bonds in live collators' lists, its
 unbonding chunks as a nominator and its entry in the exit queue.
 */
module Backing {
  import opened Options
  import opened Sums
  import opened Entities
  import opened Currency
  import opened Staking
  import opened Soundness
  import opened Coverage
  import opened Mirror

  ghost function HeldBy(m: map<Account, Collator>, a: Account): map<Account, int> {
    map c | c in m :: Held(m[c].nominations, a)
  }

  ghost function BackingOf(m: map<Account, Collator>, a: Account): int { SumOver(HeldBy(m, a)) }

  function CollatorStake(s: Storage, a: Account): int { if a in s.collators then s.collators[a].total else 0 }

  function NominatorUnbonding(s: Storage, a: Account): nat {
    if a in s.nominators then Total(s.nominators[a].unbonding) else 0
  }

  function Exiting(s: Storage, a: Account): nat { if a in s.exitQueue then s.exitQueue[a].Amount() else 0 }

  ghost function Owed(s: Storage, a: Account): int {
    CollatorStake(s, a) + BackingOf(s.collators, a) + NominatorUnbonding(s, a) + Exiting(s, a)
  }

  ghost predicate Backed(s: Storage) {
    forall a :: Owed(s, a) <= Reserved(s.balances, a)
  }

  /** What a reserve holds beyond what is owed. */
  ghost function Surplus(s: Storage, a: Account): int { Reserved(s.balances, a) - Owed(s, a) }

  /** A call that takes funds in, with the account and the amount. */
  predicate IsDeposit(call: Call) {
    call.CallBond? || call.CallBondExtra? || call.CallNominate? || call.CallNominateExtra?
  }

  /** The result of `reserve` is discarded; this says that it was a success. */
  ghost predicate Funded(p: Params, s: Storage, call: Call) {
    IsDeposit(call) && Step(p, s, call).1 == Ok ==> CanReserve(s.balances, call.who, call.amount)
  }

  // ---- Sums under updates ------------------------------------------------

  lemma BackingPut(m: map<Account, Collator>, c: Account, col: Collator, a: Account)
    ensures BackingOf(m[c := col], a)
         == BackingOf(m, a) + Held(col.nominations, a) - (if c in m then Held(m[c].nominations, a) else 0)
  {
    assert HeldBy(m[c := col], a) == HeldBy(m, a)[c := Held(col.nominations, a)];
    SumPut(HeldBy(m, a), c, Held(col.nominations, a));
  }

  lemma BackingGone(m: map<Account, Collator>, c: Account, a: Account)
    requires c in m
    ensures BackingOf(m - {c}, a) == BackingOf(m, a) - Held(m[c].nominations, a)
  {
    assert HeldBy(m - {c}, a) == HeldBy(m, a) - {c};
    SumSplit(HeldBy(m, a), c);
  }

  lemma BackingNonnegative(m: map<Account, Collator>, a: Account)
    ensures 0 <= BackingOf(m, a)
    ensures forall c :: c in m ==> Held(m[c].nominations, a) <= BackingOf(m, a)
  {
    SumMono(map[], HeldBy(m, a));
    forall c | c in m
      ensures Held(m[c].nominations, a) <= BackingOf(m, a)
    {
      SumAtLeast(HeldBy(m, a), c);
    }
  }

  lemma BackingAdvanced(m: map<Account, Collator>, round: nat, a: Account)
    ensures BackingOf(Advanced(m, round), a) == BackingOf(m, a)
  {
    assert HeldBy(Advanced(m, round), a) == HeldBy(m, a);
  }

  /** Every part of what is owed is nonnegative. */
  lemma PartsNonnegative(p: Params, s: Storage, a: Account)
    requires Sound(p, s)
    ensures 0 <= CollatorStake(s, a) && 0 <= BackingOf(s.collators, a)
  {
    BackingNonnegative(s.collators, a);
    if a in s.collators {
      assert CollatorSound(p, s.round.index, s.collators[a]);
    }
  }

  // ---- Deposits ----------------------------------------------------------

  lemma HeldNone(a: Account)
    ensures Held([], a) == 0 && Total([]) == 0
  {
  }

  lemma BondOwed(p: Params, s: Storage, call: Call, a: Account)
    requires (call.CallBond? || call.CallBondExtra?) && Step(p, s, call).1 == Ok
    ensures Owed(Next(p, s, call), a) == Owed(s, a) + (if a == call.who then call.amount else 0)
    ensures Next(p, s, call).balances == Reserve(s.balances, call.who, call.amount)
  {
    hide SumOver, OnFinalize, Reserve, BackingOf, Held, Total;
    HeldNone(a);
    BackingPut(s.collators, call.who, Next(p, s, call).collators[call.who], a);
  }

  lemma NominationOwed(p: Params, s: Storage, call: Call, a: Account)
    requires (call.CallNominate? || call.CallNominateExtra?) && Step(p, s, call).1 == Ok
    ensures Owed(Next(p, s, call), a) == Owed(s, a) + (if a == call.who then call.amount else 0)
    ensures Next(p, s, call).balances == Reserve(s.balances, call.who, call.amount)
  {
    hide SumOver, OnFinalize, Reserve, Found, BackingOf, Lookup, Raised, Held, Total;
    HeldNone(a);
    BackingPut(s.collators, call.candidate, Next(p, s, call).collators[call.candidate], a);
    if call.CallNominate? {
      BondedPush(s.collators[call.candidate].nominations, Bond(call.who, call.amount));
    } else {
      RaisedBonded(s.collators[call.candidate].nominations, call.who, call.amount);
    }
  }

  /** A deposit raises what is owed to the depositor by its amount, and nothing else. */
  lemma DepositOwed(p: Params, s: Storage, call: Call, a: Account)
    requires IsDeposit(call) && Step(p, s, call).1 == Ok
    ensures Owed(Next(p, s, call), a) == Owed(s, a) + (if a == call.who then call.amount else 0)
    ensures Next(p, s, call).balances == Reserve(s.balances, call.who, call.amount)
  {
    hide Step, Owed, Reserve;
    if call.CallBond? || call.CallBondExtra? {
      BondOwed(p, s, call, a);
    } else {
      NominationOwed(p, s, call, a);
    }
  }

  /** Exactly when a deposit keeps the backing: the reserve succeeded, or there was room already. */
  lemma DepositBackedIff(p: Params, s: Storage, call: Call)
    requires Backed(s) && IsDeposit(call) && Step(p, s, call).1 == Ok
    ensures Backed(Next(p, s, call)) <==>
              CanReserve(s.balances, call.who, call.amount)
              || Owed(s, call.who) + call.amount <= Reserved(s.balances, call.who)
  {
    hide Step, Owed;
    var t := Next(p, s, call);
    forall a
      ensures Owed(t, a) == Owed(s, a) + (if a == call.who then call.amount else 0)
    {
      DepositOwed(p, s, call, a);
    }
    DepositOwed(p, s, call, call.who);
  }

  // ---- Releases ----------------------------------------------------------

  lemma UnreserveEachReserved(b: Balances, due: map<Account, nat>, a: Account)
    ensures var d := if a in due then due[a] else 0;
            Reserved(UnreserveEach(b, due), a) == if d <= Reserved(b, a) then Reserved(b, a) - d else 0
  {
  }

  lemma DepositEachReserved(b: Balances, pay: Payout, clipped: map<Account, Exposure>, a: Account)
    ensures Reserved(DepositEach(b, pay, clipped), a) == Reserved(b, a)
  {
    hide SumOver;
  }

  function DueToCollator(s: Storage, round: nat, a: Account): nat {
    if a in s.collators then DueTotal(s.collators[a].unbonding, round) else 0
  }

  function DueToNominator(s: Storage, round: nat, a: Account): nat {
    if a in s.nominators then DueTotal(s.nominators[a].unbonding, round) else 0
  }

  function DueToLeaver(s: Storage, round: nat, a: Account): nat {
    if a in s.exitQueue then s.exitQueue[a].Release(round) else 0
  }

  function DueAt(s: Storage, round: nat, a: Account): nat {
    DueToCollator(s, round, a) + DueToNominator(s, round, a) + DueToLeaver(s, round, a)
  }

  lemma PayoutKeepsLedger(p: Params, s: Storage, a: Account)
    ensures var t := PayoutStakers(p, s); t == s.(balances := t.balances, rewards := t.rewards)
    ensures Reserved(PayoutStakers(p, s).balances, a) == Reserved(s.balances, a)
  {
    hide DepositEach, PayoutOf, Reserved;
    if s.round.index > p.payoutDuration {
      var round := s.round.index - p.payoutDuration;
      DepositEachReserved(s.balances, PayoutOf(p, s, round), ClippedIn(s.rewards, round), a);
    }
  }

  /** The three unreserve passes of a switch, one after the other. */
  lemma SwitchReserved(p: Params, s: Storage, now: nat, a: Account)
    ensures Reserved(BeforeElection(p, s, now).balances, a)
         == NonNegative(Reserved(s.balances, a) - DueAt(s, s.round.index + 1, a))
  {
    hide SumOver, DepositEach, UnreserveEach, PayoutStakers, Reserved;
    hide Advanced, Consolidated, StillLeaving;
    var r := s.round.index + 1;
    var e := PayoutStakers(p, EnterRound(s, now));
    PayoutKeepsLedger(p, EnterRound(s, now), a);
    var u := UpdateCollators(e);
    UnreserveEachReserved(e.balances, CollatorDue(s.collators, r), a);
    var v := UpdateNominators(u);
    UnreserveEachReserved(u.balances, NominatorDue(s.nominators, r), a);
    UnreserveEachReserved(v.balances, ExitRelease(s.exitQueue, r), a);
  }

  /** A switch lowers what is owed by exactly what it releases. */
  lemma SwitchOwed(p: Params, s: Storage, t: Storage, now: nat, a: Account)
    requires Sound(p, s) && Switched(s, t, now)
    ensures Owed(t, a) == Owed(s, a) - DueAt(s, s.round.index + 1, a)
    ensures DueAt(s, s.round.index + 1, a) <= Owed(s, a)
  {
    hide SumOver, BackingOf;
    var r := s.round.index + 1;
    BackingAdvanced(s.collators, r, a);
    PartsNonnegative(p, s, a);
    if a in s.collators {
      KeptAndDue(s.collators[a].unbonding, r);
      assert CollatorSound(p, s.round.index, s.collators[a]);
    }
    if a in s.nominators { KeptAndDue(s.nominators[a].unbonding, r); }
    if a in s.exitQueue { DeductionFits(s.exitQueue[a], r); }
  }

  /** At a switch every account gets exactly what is due to it: no release falls short. */
  lemma SwitchReleasesInFull(p: Params, s: Storage, now: nat, a: Account)
    requires Sound(p, s) && Backed(s)
    ensures Reserved(BeforeElection(p, s, now).balances, a)
         == Reserved(s.balances, a) - DueAt(s, s.round.index + 1, a)
    ensures Owed(BeforeElection(p, s, now), a) <= Reserved(BeforeElection(p, s, now).balances, a)
  {
    hide BeforeElection, Owed;
    AfterSwitch(p, s, now);
    SwitchReserved(p, s, now, a);
    SwitchOwed(p, s, BeforeElection(p, s, now), now, a);
  }

  /** A leaving collator's backers get their bonds back in full. */
  lemma UnbondReleasesInFull(p: Params, s: Storage, who: Account, a: Account)
    requires Sound(p, s) && Backed(s) && who in s.collators
    ensures Reserved(CollatorUnbond(s, who).0.balances, a)
         == Reserved(s.balances, a) - Held(s.collators[who].nominations, a)
    ensures Owed(CollatorUnbond(s, who).0, a) <= Reserved(CollatorUnbond(s, who).0.balances, a)
  {
    hide BackingOf, SumOver;
    var c := s.collators[who];
    UnreserveBondsReserved(s.balances, c.nominations, a);
    BackingGone(s.collators, who, a);
    BackingNonnegative(s.collators, a);
    PartsNonnegative(p, s, a);
    assert Owed(s, a) <= Reserved(s.balances, a);
    assert CollatorSound(p, s.round.index, c);
  }

  // ---- Other calls -------------------------------------------------------

  lemma NominateLessOwed(p: Params, s: Storage, who: Account, candidate: Account, less: nat, a: Account)
    ensures Owed(NominateLess(p, s, who, candidate, less).0, a) == Owed(s, a)
  {
    hide BackingOf, SumOver, Lookup, Lowered, Held, Total;
    var t := NominateLess(p, s, who, candidate, less);
    if t.1 == Ok {
      BackingPut(s.collators, candidate, t.0.collators[candidate], a);
      LoweredBonded(s.collators[candidate].nominations, who, less);
      TotalPush(s.nominators[who].unbonding, Chunk(less, WithdrawRound(s)));
    }
  }

  /** What leaving does to the account's claims when the two sides need not agree. */
  lemma LeaveChangesOwed(s: Storage, who: Account, candidate: Account, a: Account)
    requires NominatorLeaveCollator(s, who, candidate).1 == Ok
    ensures Owed(NominatorLeaveCollator(s, who, candidate).0, a) == Owed(s, a)
      + (if a == who then LastAmount(Nominations(s, who), candidate).value - Held(Backers(s, candidate), who) else 0)
  {
    hide BackingOf, SumOver, Lookup, Without, LastAmount, Held, Total, Bonded;
    var t := NominatorLeaveCollator(s, who, candidate).0;
    TotalPush(s.nominators[who].unbonding, Chunk(LastAmount(Nominations(s, who), candidate).value, WithdrawRound(s)));
    BondedWithout(Backers(s, candidate), who);
    BackingPut(s.collators, candidate, t.collators[candidate], a);
  }

  /** Calls that move nothing in or out. */
  lemma QuietOwed(p: Params, s: Storage, call: Call, a: Account)
    requires !IsDeposit(call) && !call.Finalize? && !call.CallCollatorUnbond? && !call.CallNominatorLeaveCollator?
    ensures Owed(Next(p, s, call), a) == Owed(s, a)
    ensures Reserved(Next(p, s, call).balances, a) == Reserved(s.balances, a)
  {
    hide BackingOf, SumOver, OnFinalize, NominateLess, NominatorLeaveCollator;
    var t := Next(p, s, call);
    match call {
      case CallForceOnboard(candidate) =>
        if candidate in t.collators { BackingPut(s.collators, candidate, t.collators[candidate], a); }
      case CallBondLess(who, less) =>
        if who in t.collators { BackingPut(s.collators, who, t.collators[who], a); }
      case CallNominateLess(who, candidate, less) =>
        NominateLessOwed(p, s, who, candidate, less, a);
        NominateLessBalances(p, s, who, candidate, less);
      case _ =>
    }
  }

  lemma NominateLessBalances(p: Params, s: Storage, who: Account, candidate: Account, less: nat)
    ensures NominateLess(p, s, who, candidate, less).0.balances == s.balances
  {
  }

  lemma LeaveBalances(s: Storage, who: Account, candidate: Account)
    ensures NominatorLeaveCollator(s, who, candidate).0.balances == s.balances
    ensures NominatorLeaveCollator(s, who, candidate).1 != Ok ==> NominatorLeaveCollator(s, who, candidate).0 == s
  {
  }

  /** A refused deposit owes nobody anything, even when it has written the nominator's record. */
  lemma RefusedOwed(p: Params, s: Storage, call: Call, a: Account)
    requires IsDeposit(call) && Step(p, s, call).1 != Ok
    ensures Owed(Next(p, s, call), a) == Owed(s, a)
    ensures Next(p, s, call).balances == s.balances
  {
    hide SumOver, OnFinalize, Reserve, Found, BackingOf, Lookup, Raised, Total;
    HeldNone(a);
  }

  // ---- What moves the surplus --------------------------------------------

  /** What a leaving collator strands in its reserve: no later call can release it. */
  function Stranded(s: Storage, call: Call, a: Account): nat {
    if call == CallCollatorUnbond(a) && a in s.collators then
      Total(s.collators[a].unlocking) + Exiting(s, a)
    else 0
  }

  /** What an accepted deposit owes without having reserved it. */
  ghost function Unfunded(p: Params, s: Storage, call: Call, a: Account): nat {
    if IsDeposit(call) && call.who == a && Step(p, s, call).1 == Ok && !CanReserve(s.balances, a, call.amount) then
      call.amount
    else 0
  }

  /** How much more leaving puts into unbonding, from the nominator's list, than the collator's list held. */
  ghost function Overdrawn(p: Params, s: Storage, call: Call, a: Account): int {
    if call.CallNominatorLeaveCollator? && call.who == a && Step(p, s, call).1 == Ok then
      LastAmount(Nominations(s, a), call.candidate).value - Held(Backers(s, call.candidate), a)
    else 0
  }

  ghost function Drift(p: Params, s: Storage, call: Call, a: Account): int {
    Stranded(s, call, a) - Unfunded(p, s, call, a) - Overdrawn(p, s, call, a)
  }

  lemma UnbondSurplus(p: Params, s: Storage, who: Account, a: Account)
    requires Sound(p, s) && Backed(s) && who in s.collators
    ensures Surplus(CollatorUnbond(s, who).0, a) == Surplus(s, a) + Stranded(s, CallCollatorUnbond(who), a)
  {
    hide BackingOf, SumOver;
    BackingGone(s.collators, who, a);
    UnbondReleasesInFull(p, s, who, a);
    assert CollatorSound(p, s.round.index, s.collators[who]);
  }

  lemma FinalizeSurplus(p: Params, s: Storage, supports: Option<seq<Support>>, issuance: nat, a: Account)
    requires Sound(p, s) && Backed(s)
    ensures Surplus(OnFinalize(p, s, supports, issuance), a) == Surplus(s, a)
  {
    hide BeforeElection, EnactElection, BackingOf, DueAt, Reserved, Backed;
    var now := s.block + 1;
    if s.round.ShouldGotoNextRound(now) {
      AfterSwitch(p, s, now);
      SwitchReleasesInFull(p, s, now, a);
      SwitchOwed(p, s, BeforeElection(p, s, now), now, a);
      AfterElection(p, BeforeElection(p, s, now), supports, issuance, now);
    }
  }

  lemma LeaveSurplus(p: Params, s: Storage, who: Account, candidate: Account, a: Account)
    ensures Surplus(NominatorLeaveCollator(s, who, candidate).0, a)
         == Surplus(s, a) - Overdrawn(p, s, CallNominatorLeaveCollator(who, candidate), a)
  {
    hide Owed, NominatorLeaveCollator, LastAmount, Held;
    LeaveBalances(s, who, candidate);
    if NominatorLeaveCollator(s, who, candidate).1 == Ok {
      LeaveChangesOwed(s, who, candidate, a);
    }
  }

  lemma DepositSurplus(p: Params, s: Storage, call: Call, a: Account)
    requires IsDeposit(call)
    ensures Surplus(Next(p, s, call), a) == Surplus(s, a) - Unfunded(p, s, call, a)
  {
    hide Owed, Step;
    if Step(p, s, call).1 == Ok {
      DepositOwed(p, s, call, a);
    } else {
      RefusedOwed(p, s, call, a);
    }
  }

  /** Three things move a surplus, whatever the call and however it ends, and by exactly these amounts. */
  lemma StepSurplus(p: Params, s: Storage, call: Call, a: Account)
    requires Sound(p, s) && Backed(s)
    ensures Surplus(Next(p, s, call), a) == Surplus(s, a) + Drift(p, s, call, a)
  {
    hide Owed, Sound, Backed, OnFinalize, CollatorUnbond, NominatorLeaveCollator;
    if call.Finalize? {
      FinalizeSurplus(p, s, call.supports, call.issuance, a);
    } else if call.CallCollatorUnbond? {
      UnbondAnySurplus(p, s, call.who, a);
    } else if call.CallNominatorLeaveCollator? {
      LeaveSurplus(p, s, call.who, call.candidate, a);
    } else if IsDeposit(call) {
      DepositSurplus(p, s, call, a);
    } else {
      QuietOwed(p, s, call, a);
    }
  }

  lemma UnbondAnySurplus(p: Params, s: Storage, who: Account, a: Account)
    requires Sound(p, s) && Backed(s)
    ensures Surplus(CollatorUnbond(s, who).0, a) == Surplus(s, a) + Stranded(s, CallCollatorUnbond(who), a)
  {
    hide Sound, Backed, Surplus;
    if who in s.collators {
      UnbondSurplus(p, s, who, a);
    }
  }

  /** An accepted deposit is reserved or fits into what is left over; so does what leaving overdraws. */
  ghost predicate Fits(p: Params, s: Storage, call: Call) {
    Step(p, s, call).1 == Ok ==>
      && (IsDeposit(call) ==>
            CanReserve(s.balances, call.who, call.amount) || call.amount <= Surplus(s, call.who))
      && (call.CallNominatorLeaveCollator? ==>
            LastAmount(Nominations(s, call.who), call.candidate).value
            <= Held(Backers(s, call.candidate), call.who) + Surplus(s, call.who))
  }

  /** Exactly when a step keeps every reserve above what is owed, for every call. */
  lemma StepBackedIff(p: Params, s: Storage, call: Call)
    requires Sound(p, s) && Backed(s)
    ensures Backed(Next(p, s, call)) <==> Fits(p, s, call)
  {
    var t := Next(p, s, call);
    assert forall a :: Surplus(t, a) == Surplus(s, a) + Drift(p, s, call, a) by {
      hide Surplus, Drift, Next, Sound, Backed;
      forall a
        ensures Surplus(t, a) == Surplus(s, a) + Drift(p, s, call, a)
      {
        StepSurplus(p, s, call, a);
      }
    }
    SurplusDecides(p, s, t, call);
  }

  lemma BackedMeans(s: Storage)
    ensures Backed(s) <==> forall a :: 0 <= Surplus(s, a)
  {
    hide Owed;
    if forall a :: 0 <= Surplus(s, a) {
      forall a
        ensures Owed(s, a) <= Reserved(s.balances, a)
      {
        assert 0 <= Surplus(s, a);
      }
    }
  }

  lemma SurplusDecides(p: Params, s: Storage, t: Storage, call: Call)
    requires Backed(s)
    requires forall a :: Surplus(t, a) == Surplus(s, a) + Drift(p, s, call, a)
    ensures Backed(t) <==> Fits(p, s, call)
  {
    hide Owed, Step, LastAmount, Held, CanReserve;
    BackedMeans(s);
    BackedMeans(t);
    if IsDeposit(call) || call.CallNominatorLeaveCollator? {
      assert Surplus(t, call.who) == Surplus(s, call.who) + Drift(p, s, call, call.who);
    }
  }

  /** Mirrored lists agree on what leaving moves. */
  lemma MirroredNotOverdrawn(p: Params, s: Storage, call: Call, a: Account)
    requires Mirrored(s)
    ensures Overdrawn(p, s, call, a) == 0
  {
    hide LastAmount, Held, Distinct, Without, Lookup;
    if call.CallNominatorLeaveCollator? && call.who == a && Step(p, s, call).1 == Ok {
      assert Distinct(Nominations(s, a)) && Distinct(Backers(s, call.candidate));
      assert Matches(s, call.candidate, a);
      DistinctHeld(Nominations(s, a), call.candidate);
      DistinctHeld(Backers(s, call.candidate), a);
    }
  }

  // ---- Every run ---------------------------------------------------------

  ghost predicate FittingRun(p: Params, s: Storage, calls: seq<Call>) {
    calls == [] ||
    var init := calls[..|calls| - 1];
    FittingRun(p, s, init) && Fits(p, Run(p, s, init), calls[|calls| - 1])
  }

  ghost predicate BackedThroughout(p: Params, s: Storage, calls: seq<Call>) {
    Backed(Run(p, s, calls)) && (calls == [] || BackedThroughout(p, s, calls[..|calls| - 1]))
  }

  lemma {:induction false} RunBackedIff(p: Params, s: Storage, calls: seq<Call>)
    requires Sound(p, s) && Backed(s)
    ensures BackedThroughout(p, s, calls) <==> FittingRun(p, s, calls)
  {
    hide Sound, Backed, Fits, Next;
    if calls != [] {
      var init := calls[..|calls| - 1];
      RunBackedIff(p, s, init);
      RunSound(p, s, init);
      if BackedThroughout(p, s, init) {
        StepBackedIff(p, Run(p, s, init), calls[|calls| - 1]);
      }
    }
  }

  ghost predicate FundedRun(p: Params, s: Storage, calls: seq<Call>) {
    calls == [] ||
    var init := calls[..|calls| - 1];
    FundedRun(p, s, init) && Funded(p, Run(p, s, init), calls[|calls| - 1])
  }

  /** Successful reserves and exact searches are enough. */
  lemma {:induction false} ExactRunFits(p: Params, s: Storage, calls: seq<Call>)
    requires Sound(p, s) && Mirrored(s) && Tight(s) && Backed(s)
    requires ExactRun(p, s, calls) && FundedRun(p, s, calls)
    ensures FittingRun(p, s, calls)
  {
    hide Sound, Mirrored, Tight, Backed, Fits, Funded, Next, Duplicates;
    if calls != [] {
      var init, last := calls[..|calls| - 1], calls[|calls| - 1];
      ExactRunFits(p, s, init);
      RunBackedIff(p, s, init);
      RunMirror(p, s, init);
      FundedFits(p, Run(p, s, init), last);
    }
  }

  lemma FundedFits(p: Params, s: Storage, call: Call)
    requires Mirrored(s) && Backed(s) && Funded(p, s, call)
    ensures Fits(p, s, call)
  {
    hide Mirrored, Step, Owed, LastAmount, Held, CanReserve;
    if call.CallNominatorLeaveCollator? {
      MirroredNotOverdrawn(p, s, call, call.who);
      assert 0 <= Surplus(s, call.who);
    }
  }

  lemma {:induction false} GenesisBondsBacked(p: Params, balances: Balances, stakers: seq<Staker>)
    requires GenesisFunded(p, Blank(balances), stakers)
    ensures Backed(GenesisBonds(p, Blank(balances), stakers))
  {
    hide Owed;
    if stakers == [] {
      forall a
        ensures Owed(Blank(balances), a) == 0
      {
        BlankOwed(balances, a);
      }
    } else {
      var init, last := stakers[..|stakers| - 1], stakers[|stakers| - 1];
      GenesisBondsBacked(p, balances, init);
      var s := GenesisBonds(p, Blank(balances), init);
      if DoBond(p, s, last.who, last.amount).1 == Ok {
        DepositBackedIff(p, s, CallBond(last.who, last.amount));
      }
    }
  }

  lemma BlankOwed(balances: Balances, a: Account)
    ensures Owed(Blank(balances), a) == 0
  {
    assert HeldBy(map[], a) == map[];
  }

  lemma GenesisBacked(p: Params, balances: Balances, stakers: seq<Staker>, issuance: nat)
    requires GenesisFunded(p, Blank(balances), stakers)
    ensures Backed(Genesis(p, balances, stakers, issuance))
  {
    GenesisBondsBacked(p, balances, stakers);
    forall a
      ensures Owed(Genesis(p, balances, stakers, issuance), a) == Owed(GenesisBonds(p, Blank(balances), stakers), a)
    {
    }
  }

  /**
   From any genesis that could be built: throughout a run each account's reserve
   covers all that is owed to it, exactly when every accepted deposit is reserved
   or fits into what is left over, and what leaving overdraws does too. That is so
   when every reserve succeeds and every search on a nominator's list is exact.
   */
  lemma ReachableBacked(p: Params, balances: Balances, stakers: seq<Staker>, issuance: nat, calls: seq<Call>)
    requires GenesisFunded(p, Blank(balances), stakers)
    ensures var g := Genesis(p, balances, stakers, issuance);
      && (BackedThroughout(p, g, calls) <==> FittingRun(p, g, calls))
      && (ExactRun(p, g, calls) && FundedRun(p, g, calls) ==> BackedThroughout(p, g, calls))
  {
    hide Genesis, Sound, Mirrored, Tight, Backed;
    var g := Genesis(p, balances, stakers, issuance);
    GenesisSound(p, balances, stakers, issuance);
    GenesisMirror(p, balances, stakers, issuance);
    GenesisBacked(p, balances, stakers, issuance);
    RunBackedIff(p, g, calls);
    if ExactRun(p, g, calls) && FundedRun(p, g, calls) {
      ExactRunFits(p, g, calls);
    }
  }
}

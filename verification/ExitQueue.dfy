/**
 Leaving collators. While the bond duration is never shortened, an exit never
 releases a chunk before its round; in general, exactly the chunks beyond the
 exit's own bulk release come early.
 */
module ExitQueue {
  import opened Options
  import opened Entities
  import opened Currency
  import opened PerThing
  import opened Staking
  import opened Soundness
  import opened TimeLock

  /** No chunk is due later than the bulk release of its owner could come. */
  ghost predicate CollatorsPunctual(m: map<Account, Collator>, bound: nat) {
    forall a :: a in m ==> NoneAfter(m[a].unbonding, bound)
  }

  ghost predicate LeaversPunctual(q: map<Account, Leaving>) {
    forall a :: a in q ==> NoneAfter(q[a].unbonding, q[a].when)
  }

  ghost predicate Punctual(s: Storage) {
    CollatorsPunctual(s.collators, WithdrawRound(s)) && LeaversPunctual(s.exitQueue)
  }

  lemma {:induction false} NoneAfterLater(cs: seq<Chunk>, r: nat, r': nat)
    requires NoneAfter(cs, r) && r <= r'
    ensures NoneAfter(cs, r')
  {
    if cs != [] {
      NoneAfterLater(cs[..|cs| - 1], r, r');
    }
  }

  lemma {:induction false} NoneAfterKept(cs: seq<Chunk>, round: nat, bound: nat)
    requires NoneAfter(cs, bound)
    ensures NoneAfter(Kept(cs, round), bound)
  {
    if cs != [] {
      NoneAfterKept(cs[..|cs| - 1], round, bound);
      PushRounds(Kept(cs[..|cs| - 1], round), cs[|cs| - 1], bound);
    }
  }

  lemma SwitchPunctual(p: Params, s: Storage, t: Storage, now: nat)
    requires Punctual(s) && Switched(s, t, now)
    ensures Punctual(t)
  {
    var r := s.round.index + 1;
    forall a | a in t.collators
      ensures NoneAfter(t.collators[a].unbonding, WithdrawRound(t))
    {
      NoneAfterKept(s.collators[a].unbonding, r, WithdrawRound(s));
      NoneAfterLater(t.collators[a].unbonding, WithdrawRound(s), WithdrawRound(t));
    }
    forall a | a in t.exitQueue
      ensures NoneAfter(t.exitQueue[a].unbonding, t.exitQueue[a].when)
    {
      NoneAfterKept(s.exitQueue[a].unbonding, r, s.exitQueue[a].when);
    }
  }

  lemma ConfigPunctual(s: Storage, settings: Settings)
    requires Punctual(s) && s.settings.bondDuration <= settings.bondDuration
    ensures Punctual(Config(s, settings).0)
  {
    forall a | a in s.collators
      ensures NoneAfter(s.collators[a].unbonding, s.round.index + settings.bondDuration)
    {
      NoneAfterLater(s.collators[a].unbonding, WithdrawRound(s), s.round.index + settings.bondDuration);
    }
  }

  lemma BondLessPunctual(p: Params, s: Storage, who: Account, less: nat)
    requires Punctual(s)
    ensures Punctual(BondLess(p, s, who, less).0)
  {
    if BondLess(p, s, who, less).1 == Ok {
      PushRounds(s.collators[who].unbonding, Chunk(less, WithdrawRound(s)), WithdrawRound(s));
    }
  }

  /** A call that does not shorten the bond duration. */
  predicate KeepsDuration(s: Storage, call: Call) {
    call.CallConfig? ==> s.settings.bondDuration <= call.settings.bondDuration
  }

  lemma StepPunctual(p: Params, s: Storage, call: Call)
    requires Punctual(s) && KeepsDuration(s, call)
    ensures Punctual(Next(p, s, call))
  {
    hide OnFinalize, NoneAfter, Reserve, UnreserveBonds, Found, Lookup, Raised, Lowered, Without, LastAmount;
    match call
    case CallConfig(settings) => ConfigPunctual(s, settings);
    case CallBond(who, amount) =>
      assert NoneAfter([], WithdrawRound(s)) by { NoneAfterIffAllDue([], WithdrawRound(s)); }
    case CallBondLess(who, less) => BondLessPunctual(p, s, who, less);
    case Finalize(supports, issuance) => FinalizePunctual(p, s, supports, issuance);
    case _ =>
  }

  lemma FinalizePunctual(p: Params, s: Storage, supports: Option<seq<Support>>, issuance: nat)
    requires Punctual(s)
    ensures Punctual(OnFinalize(p, s, supports, issuance))
  {
    hide BeforeElection, EnactElection, CollatorsPunctual, LeaversPunctual;
    var now := s.block + 1;
    if s.round.ShouldGotoNextRound(now) {
      AfterSwitch(p, s, now);
      SwitchPunctual(p, s, BeforeElection(p, s, now), now);
      AfterElection(p, BeforeElection(p, s, now), supports, issuance, now);
    }
  }

  ghost predicate DurationKept(p: Params, s: Storage, calls: seq<Call>) {
    calls == [] ||
    var init := calls[..|calls| - 1];
    DurationKept(p, s, init) && KeepsDuration(Run(p, s, init), calls[|calls| - 1])
  }

  lemma {:induction false} RunPunctual(p: Params, s: Storage, calls: seq<Call>)
    requires Punctual(s) && DurationKept(p, s, calls)
    ensures Punctual(Run(p, s, calls))
  {
    hide Punctual, Next, KeepsDuration;
    if calls != [] {
      var init := calls[..|calls| - 1];
      RunPunctual(p, s, init);
      StepPunctual(p, Run(p, s, init), calls[|calls| - 1]);
    }
  }

  lemma GenesisPunctual(p: Params, balances: Balances, stakers: seq<Staker>, issuance: nat)
    ensures Punctual(Genesis(p, balances, stakers, issuance))
  {
    GenesisBondsFresh(p, balances, stakers);
  }

  lemma PunctualNeverEarly(s: Storage, call: Call, side: Side, a: Account)
    requires Punctual(s)
    ensures !ReleasesEarly(s, call, side, a)
  {
    if Switches(s, call) && a in s.exitQueue && s.exitQueue[a].when <= s.round.index + 1 {
      NoneAfterLater(s.exitQueue[a].unbonding, s.exitQueue[a].when, s.round.index + 1);
    }
  }

  /** The account never leaves again while it is still leaving. */
  ghost predicate LeavesOnceAtATime(p: Params, s: Storage, calls: seq<Call>, a: Account) {
    calls == [] ||
    var init := calls[..|calls| - 1];
    && LeavesOnceAtATime(p, s, init, a)
    && !Overwrites(Run(p, s, init), calls[|calls| - 1], AsLeaver, a)
  }

  lemma {:induction false} RunUnbroken(p: Params, s: Storage, calls: seq<Call>, side: Side, a: Account)
    requires Punctual(s) && DurationKept(p, s, calls) && LeavesOnceAtATime(p, s, calls, a)
    ensures Unbroken(p, s, calls, side, a)
  {
    hide Punctual, Next, KeepsDuration, ReleasesEarly, Run;
    if calls != [] {
      var init, last := calls[..|calls| - 1], calls[|calls| - 1];
      RunUnbroken(p, s, init, side, a);
      RunPunctual(p, s, init);
      PunctualNeverEarly(Run(p, s, init), last, side, a);
    }
  }

  /**
   As long as the bond duration is never shortened and the account does not
   leave again while still leaving, its stake and all its chunks, also those
   carried through the exit queue, are released once and on time.
   */
  lemma ExitsOnTime(p: Params, balances: Balances, stakers: seq<Staker>, issuance: nat,
                    calls: seq<Call>, side: Side, a: Account)
    requires DurationKept(p, Genesis(p, balances, stakers, issuance), calls)
    requires LeavesOnceAtATime(p, Genesis(p, balances, stakers, issuance), calls, a)
    ensures OnTimeThroughout(p, Genesis(p, balances, stakers, issuance), calls, side, a)
    ensures Lost(p, Genesis(p, balances, stakers, issuance), calls, side, a) == 0
  {
    hide Genesis, OnTime, Punctual;
    var g := Genesis(p, balances, stakers, issuance);
    GenesisPunctual(p, balances, stakers, issuance);
    RunUnbroken(p, g, calls, side, a);
    ReleasedOnceAndOnTime(p, balances, stakers, issuance, calls, side, a);
    NothingLost(p, g, calls, side, a);
  }

  lemma {:induction false} NothingLost(p: Params, s: Storage, calls: seq<Call>, side: Side, a: Account)
    requires Unbroken(p, s, calls, side, a)
    ensures Lost(p, s, calls, side, a) == 0
  {
    hide Run, ReleasesEarly;
    if calls != [] {
      NothingLost(p, s, calls[..|calls| - 1], side, a);
      NothingDue(0);
    }
  }

  // ---- One exit, followed through any run --------------------------------

  /** The switch that ends the exit of a collator leaving now. */
  function BulkRound(s: Storage): nat { Max(WithdrawRound(s), s.round.index + 1) }

  /** What is left of a collator's chunks in a later round. */
  function LeftAt(s: Storage, who: Account, round: nat): seq<Chunk>
    requires who in s.collators
  {
    if round == s.round.index then s.collators[who].unbonding else Kept(s.collators[who].unbonding, round)
  }

  ghost predicate Follows(s: Storage, who: Account, t: Storage)
    requires who in s.collators
  {
    && s.round.index <= t.round.index
    && (who in t.exitQueue <==> t.round.index < BulkRound(s))
    && (who in t.exitQueue ==>
          t.exitQueue[who] == Leaving(s.collators[who].active, LeftAt(s, who, t.round.index), WithdrawRound(s)))
  }

  lemma {:induction false} KeptAgain(cs: seq<Chunk>, round: nat)
    ensures Kept(Kept(cs, round), round + 1) == Kept(cs, round + 1)
    ensures NoneAfter(Kept(cs, round), round + 1) <==> NoneAfter(cs, round + 1)
  {
    if cs != [] {
      var init, last := cs[..|cs| - 1], cs[|cs| - 1];
      KeptAgain(init, round);
      KeptPush(Kept(init, round), last, round + 1);
      PushRounds(Kept(init, round), last, round + 1);
    }
  }

  lemma SwitchFollows(p: Params, s: Storage, who: Account, t: Storage, call: Call)
    requires who in s.collators && Follows(s, who, t) && Switches(t, call)
    ensures Follows(s, who, Next(p, t, call))
  {
    hide BeforeElection, EnactElection, RecordTotals, Kept;
    AfterSwitch(p, t, t.block + 1);
    AfterElection(p, BeforeElection(p, t, t.block + 1), call.supports, call.issuance, t.block + 1);
    assert Next(p, t, call).exitQueue == StillLeaving(t.exitQueue, t.round.index + 1);
    KeptAgain(s.collators[who].unbonding, t.round.index);
  }

  /** Other calls leave the queue entry and the round alone. */
  lemma StepFollows(p: Params, s: Storage, who: Account, t: Storage, call: Call)
    requires who in s.collators && Follows(s, who, t) && call != CallCollatorUnbond(who)
    ensures Follows(s, who, Next(p, t, call))
  {
    hide BeforeElection, EnactElection, RecordTotals, Reserve, UnreserveBonds, LeftAt;
    hide Found, Lookup, Raised, Lowered, Without, LastAmount;
    if Switches(t, call) {
      SwitchFollows(p, s, who, t, call);
    }
  }

  /** From the exit on, whatever is called, until another exit of the same account. */
  lemma {:induction false} ExitFollowed(p: Params, s: Storage, who: Account, calls: seq<Call>)
    requires who in s.collators && CallCollatorUnbond(who) !in calls
    ensures Follows(s, who, Run(p, CollatorUnbond(s, who).0, calls))
  {
    hide Next, Follows;
    if calls == [] {
      FollowsAtOnce(s, who);
    } else {
      var init := calls[..|calls| - 1];
      ExitFollowed(p, s, who, init);
      StepFollows(p, s, who, Run(p, CollatorUnbond(s, who).0, init), calls[|calls| - 1]);
    }
  }

  lemma FollowsAtOnce(s: Storage, who: Account)
    requires who in s.collators
    ensures Follows(s, who, CollatorUnbond(s, who).0)
  {
    hide UnreserveBonds;
  }

  /**
   Which switch after an exit pays a chunk early, decided when the collator
   leaves: the one that ends the exit, if a chunk of the collator lies beyond it.
   */
  lemma ExitEarlyIff(p: Params, s: Storage, who: Account, calls: seq<Call>, call: Call)
    requires who in s.collators && CallCollatorUnbond(who) !in calls
    requires Switches(Run(p, CollatorUnbond(s, who).0, calls), call)
    ensures var t := Run(p, CollatorUnbond(s, who).0, calls);
      ReleasesEarly(t, call, AsCollator, who)
      <==> t.round.index + 1 == BulkRound(s) && !NoneAfter(s.collators[who].unbonding, BulkRound(s))
  {
    hide Run, CollatorUnbond, Kept, NoneAfter;
    var t := Run(p, CollatorUnbond(s, who).0, calls);
    ExitFollowed(p, s, who, calls);
    KeptAgain(s.collators[who].unbonding, t.round.index);
  }
}

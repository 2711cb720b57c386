/**
 The two sides of a nomination: every bond in a live collator's list is
 mirrored, with the same amount, in the nominator's own list. A leaving
 collator takes its list along, so the nominator's side may hold more.
 */
module Mirror {
  import opened Options
  import opened Entities
  import opened Currency
  import opened Staking
  import opened Soundness
  import opened Coverage

  /** The bonds a collator holds for its nominators; none when it is not live. */
  function Backers(s: Storage, c: Account): seq<Bond> {
    if c in s.collators then s.collators[c].nominations else []
  }

  /** The bonds a nominator keeps on its own side. */
  function Nominations(s: Storage, n: Account): seq<Bond> {
    if n in s.nominators then s.nominators[n].nominations else []
  }

  ghost predicate Matches(s: Storage, c: Account, n: Account) {
    Lookup(Backers(s, c), n).Some? ==> Lookup(Nominations(s, n), c) == Lookup(Backers(s, c), n)
  }

  ghost predicate Mirrored(s: Storage) {
    && (forall c :: Distinct(Backers(s, c)))
    && (forall n :: Distinct(Nominations(s, n)))
    && (forall c, n :: Matches(s, c, n))
  }

  /** Nothing of a nominator's total is unaccounted for. */
  ghost predicate Tight(s: Storage) {
    forall n :: n in s.nominators ==>
      s.nominators[n].total == Bonded(s.nominators[n].nominations) + Total(s.nominators[n].unbonding)
  }

  /**
   A nomination that passes the checks before the search, of a candidate the
   nominator backs already, which the binary search on the nominator's own,
   unsorted list misses.
   */
  predicate Duplicates(p: Params, s: Storage, call: Call) {
    && call.CallNominate?
    && call.amount >= p.minNominatorStake
    && call.candidate in s.collators
    && s.collators[call.candidate].IsActive()
    && |s.collators[call.candidate].nominations| < p.maxNominations
    && Lookup(Nominations(s, call.who), call.candidate).Some?
    && !Found(Nominations(s, call.who), call.candidate)
  }

  /** An ascending list is enough to rule that out. */
  lemma AscendingIsExact(p: Params, s: Storage, call: Call)
    requires call.CallNominate? && Ascending(Nominations(s, call.who))
    ensures !Duplicates(p, s, call)
  {
    FoundMeans(Nominations(s, call.who), call.candidate);
  }

  // ---- Errors ------------------------------------------------------------

  /** A failing call leaves the storage as it was, except where the guard of `Orphans` holds. */
  lemma ErrorLeavesStorageIff(p: Params, s: Storage, call: Call)
    requires Step(p, s, call).1.Err?
    ensures Next(p, s, call) == s <==> !Orphans(p, s, call)
  {
    hide OnFinalize, Reserve, UnreserveBonds, Found, Raised, Lowered, Without, LastAmount, Lookup;
    if Orphans(p, s, call) {
      var n := NominatorAfter(s, call.who, call.candidate, call.amount).value;
      assert Next(p, s, call).nominators[call.who] == n;
      if call.who in s.nominators {
        assert |n.nominations| == |s.nominators[call.who].nominations| + 1;
      }
    }
  }

  /** With mirrored lists and an exact search the early write is never orphaned. */
  lemma NeverOrphans(p: Params, s: Storage, call: Call)
    requires Mirrored(s) && !Duplicates(p, s, call)
    ensures !Orphans(p, s, call)
  {
    if call.CallNominate? {
      assert Matches(s, call.candidate, call.who);
      FoundMeans(Backers(s, call.candidate), call.who);
    }
  }

  // ---- One step ----------------------------------------------------------

  /** Steps that leave all nominations alone, or drop whole collators. */
  lemma MirrorFrame(s: Storage, t: Storage)
    requires Mirrored(s)
    requires forall c :: Backers(t, c) == Backers(s, c) || Backers(t, c) == []
    requires forall n :: Nominations(t, n) == Nominations(s, n)
    ensures Mirrored(t)
  {
    forall c, n
      ensures Matches(t, c, n)
    {
      assert Matches(s, c, n);
    }
  }

  /** Steps that change one bond on both sides. */
  lemma PairUpdate(s: Storage, t: Storage, c: Account, n: Account)
    requires Mirrored(s)
    requires forall x :: x != c ==> Backers(t, x) == Backers(s, x)
    requires forall x :: x != n ==> Nominations(t, x) == Nominations(s, x)
    requires Distinct(Backers(t, c)) && Distinct(Nominations(t, n))
    requires forall a :: a != n ==> Lookup(Backers(t, c), a) == Lookup(Backers(s, c), a)
    requires forall a :: a != c ==> Lookup(Nominations(t, n), a) == Lookup(Nominations(s, n), a)
    requires Lookup(Backers(t, c), n) == Lookup(Nominations(t, n), c)
    ensures Mirrored(t)
  {
    forall x, y
      ensures Matches(t, x, y)
    {
      assert Matches(s, x, y);
    }
  }

  lemma DistinctPush(bs: seq<Bond>, b: Bond)
    requires Distinct(bs) && Lookup(bs, b.owner).None?
    ensures Distinct(bs + [b])
  {
    assert forall i :: 0 <= i < |bs| ==> bs[i].owner != b.owner;
  }

  lemma NominateMirror(p: Params, s: Storage, who: Account, candidate: Account, amount: nat)
    requires Mirrored(s) && !Duplicates(p, s, CallNominate(who, candidate, amount))
    ensures Mirrored(Nominate(p, s, who, candidate, amount).0)
  {
    var call := CallNominate(who, candidate, amount);
    var t := Nominate(p, s, who, candidate, amount);
    NeverOrphans(p, s, call);
    if t.1 == Ok {
      NominatePair(p, s, who, candidate, amount);
    } else {
      assert t.0 == s;
    }
  }

  lemma NominatePair(p: Params, s: Storage, who: Account, candidate: Account, amount: nat)
    requires Mirrored(s) && !Duplicates(p, s, CallNominate(who, candidate, amount))
    requires Nominate(p, s, who, candidate, amount).1 == Ok
    ensures Mirrored(Nominate(p, s, who, candidate, amount).0)
  {
    hide Lookup, Found, Distinct, Reserve;
    var t := Nominate(p, s, who, candidate, amount).0;
    var mine, theirs := Nominations(s, who), Backers(s, candidate);
    assert Nominations(t, who) == mine + [Bond(candidate, amount)];
    assert Backers(t, candidate) == theirs + [Bond(who, amount)];
    assert Matches(s, candidate, who);
    AcceptedIsNew(p, s, who, candidate, amount);
    DistinctPush(mine, Bond(candidate, amount));
    DistinctPush(theirs, Bond(who, amount));
    LookupPush(mine, Bond(candidate, amount));
    LookupPush(theirs, Bond(who, amount));
    PairUpdate(s, t, candidate, who);
  }

  /** A nomination that is accepted, and no duplicate, is a new one. */
  lemma AcceptedIsNew(p: Params, s: Storage, who: Account, candidate: Account, amount: nat)
    requires !Duplicates(p, s, CallNominate(who, candidate, amount))
    requires Nominate(p, s, who, candidate, amount).1 == Ok
    ensures Lookup(Nominations(s, who), candidate).None?
  {
    hide Reserve, Found;
    LookupPresent(Nominations(s, who), candidate);
  }

  /** Accepted or orphaned, a duplicate is in the nominator's list twice. */
  lemma DuplicateBreaks(p: Params, s: Storage, call: Call)
    requires Duplicates(p, s, call)
    ensures !Mirrored(Next(p, s, call))
  {
    hide OnFinalize, Found, Reserve;
    var t := Next(p, s, call);
    var mine := Nominations(s, call.who);
    var after := Nominations(t, call.who);
    assert after == mine + [Bond(call.candidate, call.amount)];
    var i := First(mine, call.candidate);
    assert after[i].owner == after[|mine|].owner;
    assert !Distinct(after);
  }

  lemma RaisedLookup(bs: seq<Bond>, owner: Account, extra: nat)
    requires Lookup(bs, owner).Some?
    ensures forall a :: Lookup(Raised(bs, owner, extra), a)
                     == if a == owner then Some(Lookup(bs, owner).value + extra) else Lookup(bs, a)
    ensures Distinct(bs) ==> Distinct(Raised(bs, owner, extra))
  {
    var i := First(bs, owner);
    LookupUpdate(bs, i, Bond(owner, bs[i].amount + extra));
  }

  lemma LoweredLookup(bs: seq<Bond>, owner: Account, less: nat)
    requires Lookup(bs, owner).Some? && Lookup(bs, owner).value > less
    ensures forall a :: Lookup(Lowered(bs, owner, less), a)
                     == if a == owner then Some(Lookup(bs, owner).value - less) else Lookup(bs, a)
    ensures Distinct(bs) ==> Distinct(Lowered(bs, owner, less))
  {
    var i := First(bs, owner);
    LookupUpdate(bs, i, Bond(owner, bs[i].amount - less));
  }

  lemma NominateExtraMirror(s: Storage, who: Account, candidate: Account, extra: nat)
    requires Mirrored(s)
    ensures Mirrored(NominateExtra(s, who, candidate, extra).0)
  {
    var t := NominateExtra(s, who, candidate, extra);
    if t.1 == Ok {
      assert Matches(s, candidate, who);
      RaisedLookup(Nominations(s, who), candidate, extra);
      RaisedLookup(Backers(s, candidate), who, extra);
      PairUpdate(s, t.0, candidate, who);
    }
  }

  lemma NominateLessMirror(p: Params, s: Storage, who: Account, candidate: Account, less: nat)
    requires Mirrored(s)
    ensures Mirrored(NominateLess(p, s, who, candidate, less).0)
  {
    var t := NominateLess(p, s, who, candidate, less);
    if t.1 == Ok {
      assert Matches(s, candidate, who);
      LoweredLookup(Nominations(s, who), candidate, less);
      LoweredLookup(Backers(s, candidate), who, less);
      PairUpdate(s, t.0, candidate, who);
    }
  }

  lemma LeaveMirror(s: Storage, who: Account, candidate: Account)
    requires Mirrored(s)
    ensures Mirrored(NominatorLeaveCollator(s, who, candidate).0)
  {
    var t := NominatorLeaveCollator(s, who, candidate);
    if t.1 == Ok {
      LookupWithout(Nominations(s, who), candidate);
      LookupWithout(Backers(s, candidate), who);
      DistinctWithout(Nominations(s, who), candidate);
      DistinctWithout(Backers(s, candidate), who);
      PairUpdate(s, t.0, candidate, who);
    }
  }

  lemma FinalizeMirror(p: Params, s: Storage, supports: Option<seq<Support>>, issuance: nat)
    requires Mirrored(s)
    ensures Mirrored(OnFinalize(p, s, supports, issuance))
  {
    hide BeforeElection, EnactElection;
    var now := s.block + 1;
    var t := OnFinalize(p, s, supports, issuance);
    if s.round.ShouldGotoNextRound(now) {
      AfterSwitch(p, s, now);
      AfterElection(p, BeforeElection(p, s, now), supports, issuance, now);
    }
    MirrorFrame(s, t);
  }

  /** Exactly when a step keeps the two sides in step. */
  lemma StepMirrorIff(p: Params, s: Storage, call: Call)
    requires Mirrored(s)
    ensures Mirrored(Next(p, s, call)) <==> !Duplicates(p, s, call)
  {
    hide Mirrored, Next, Duplicates;
    if Duplicates(p, s, call) {
      DuplicateBreaks(p, s, call);
    } else {
      StepMirror(p, s, call);
    }
  }

  lemma StepMirror(p: Params, s: Storage, call: Call)
    requires Mirrored(s) && !Duplicates(p, s, call)
    ensures Mirrored(Next(p, s, call))
  {
    hide Mirrored, OnFinalize, Nominate, NominateExtra, NominateLess, NominatorLeaveCollator, Reserve, UnreserveBonds;
    var t := Next(p, s, call);
    match call {
      case CallNominate(who, candidate, amount) => NominateMirror(p, s, who, candidate, amount);
      case CallNominateExtra(who, candidate, amount) => NominateExtraMirror(s, who, candidate, amount);
      case CallNominateLess(who, candidate, less) => NominateLessMirror(p, s, who, candidate, less);
      case CallNominatorLeaveCollator(who, candidate) => LeaveMirror(s, who, candidate);
      case Finalize(supports, issuance) => FinalizeMirror(p, s, supports, issuance);
      case _ => MirrorFrame(s, t);
    }
  }

  // ---- Tight totals ------------------------------------------------------

  /** What leaving drops from the nominator's own list beyond the one amount it unbonds. */
  ghost function LeftBehind(p: Params, s: Storage, call: Call): int {
    if call.CallNominatorLeaveCollator? && Step(p, s, call).1 == Ok then
      var mine := Nominations(s, call.who);
      Held(mine, call.candidate) - LastAmount(mine, call.candidate).value
    else 0
  }

  lemma DistinctLeavesNothing(p: Params, s: Storage, call: Call)
    requires call.CallNominatorLeaveCollator? ==> Distinct(Nominations(s, call.who))
    ensures LeftBehind(p, s, call) == 0
  {
    hide LastAmount, Held, Without, Distinct;
    if call.CallNominatorLeaveCollator? {
      DistinctHeld(Nominations(s, call.who), call.candidate);
    }
  }

  lemma LeaveTight(p: Params, s: Storage, who: Account, candidate: Account)
    requires Tight(s)
    ensures Tight(NominatorLeaveCollator(s, who, candidate).0)
       <==> LeftBehind(p, s, CallNominatorLeaveCollator(who, candidate)) == 0
  {
    hide LastAmount, Held, Without, Bonded, Total;
    var t := NominatorLeaveCollator(s, who, candidate);
    if t.1 == Ok {
      var n := s.nominators[who];
      BondedWithout(n.nominations, candidate);
      TotalPush(n.unbonding, Chunk(LastAmount(n.nominations, candidate).value, WithdrawRound(s)));
      var m := t.0.nominators[who];
      assert m.total == Bonded(m.nominations) + Total(m.unbonding)
        <==> LeftBehind(p, s, CallNominatorLeaveCollator(who, candidate)) == 0;
    }
  }

  lemma NothingBonded()
    ensures Bonded([]) == 0 && Total([]) == 0
  {
  }

  lemma NominateTight(p: Params, s: Storage, who: Account, candidate: Account, amount: nat)
    requires Tight(s)
    ensures Tight(Nominate(p, s, who, candidate, amount).0)
  {
    hide Found, Reserve, Bonded, Total;
    NothingBonded();
    BondedPush(Nominations(s, who), Bond(candidate, amount));
    assert [] + [Bond(candidate, amount)] == [Bond(candidate, amount)];
  }

  lemma FinalizeTight(p: Params, s: Storage, supports: Option<seq<Support>>, issuance: nat)
    requires Tight(s)
    ensures Tight(OnFinalize(p, s, supports, issuance))
  {
    hide BeforeElection, EnactElection, Bonded, Total, Kept, DueTotal;
    var now := s.block + 1;
    var t := OnFinalize(p, s, supports, issuance);
    if s.round.ShouldGotoNextRound(now) {
      AfterSwitch(p, s, now);
      AfterElection(p, BeforeElection(p, s, now), supports, issuance, now);
      assert t.nominators == Consolidated(s.nominators, s.round.index + 1);
      forall n | n in t.nominators
        ensures t.nominators[n].total == Bonded(t.nominators[n].nominations) + Total(t.nominators[n].unbonding)
      {
        KeptAndDue(s.nominators[n].unbonding, s.round.index + 1);
      }
    }
  }

  lemma NominateLessTight(p: Params, s: Storage, who: Account, candidate: Account, less: nat)
    requires Tight(s)
    ensures Tight(NominateLess(p, s, who, candidate, less).0)
  {
    hide Lookup, Lowered, Bonded, Total;
    if NominateLess(p, s, who, candidate, less).1 == Ok {
      LoweredBonded(Nominations(s, who), candidate, less);
      TotalPush(s.nominators[who].unbonding, Chunk(less, WithdrawRound(s)));
    }
  }

  /** Exactly when a step keeps the nominators' totals tight. */
  lemma StepTightIff(p: Params, s: Storage, call: Call)
    requires Tight(s)
    ensures Tight(Next(p, s, call)) <==> LeftBehind(p, s, call) == 0
  {
    hide OnFinalize, Nominate, NominateLess, NominatorLeaveCollator, Reserve, UnreserveBonds, Bonded, Total;
    match call
    case CallNominate(who, candidate, amount) => NominateTight(p, s, who, candidate, amount);
    case CallNominateExtra(who, candidate, amount) =>
      if Lookup(Nominations(s, who), candidate).Some? { RaisedBonded(Nominations(s, who), candidate, amount); }
    case CallNominateLess(who, candidate, less) => NominateLessTight(p, s, who, candidate, less);
    case CallNominatorLeaveCollator(who, candidate) => LeaveTight(p, s, who, candidate);
    case Finalize(supports, issuance) => FinalizeTight(p, s, supports, issuance);
    case _ =>
  }

  // ---- Every run ---------------------------------------------------------

  /** Every search of the run on a nominator's own list was exact. */
  ghost predicate ExactRun(p: Params, s: Storage, calls: seq<Call>) {
    calls == [] ||
    var init := calls[..|calls| - 1];
    ExactRun(p, s, init) && !Duplicates(p, Run(p, s, init), calls[|calls| - 1])
  }

  lemma MirroredLeavesNothing(p: Params, s: Storage, call: Call)
    requires Mirrored(s)
    ensures LeftBehind(p, s, call) == 0
  {
    hide Distinct, LeftBehind;
    DistinctLeavesNothing(p, s, call);
  }

  lemma {:induction false} RunMirror(p: Params, s: Storage, calls: seq<Call>)
    requires Mirrored(s) && Tight(s) && ExactRun(p, s, calls)
    ensures Mirrored(Run(p, s, calls)) && Tight(Run(p, s, calls))
    ensures NoOrphans(p, s, calls)
  {
    hide Mirrored, Tight, Duplicates, Orphans, Next, LeftBehind;
    if calls != [] {
      var init, last := calls[..|calls| - 1], calls[|calls| - 1];
      RunMirror(p, s, init);
      StepMirror(p, Run(p, s, init), last);
      assert LeftBehind(p, Run(p, s, init), last) == 0 by { MirroredLeavesNothing(p, Run(p, s, init), last); }
      StepTightIff(p, Run(p, s, init), last);
      NeverOrphans(p, Run(p, s, init), last);
    }
  }

  lemma GenesisMirror(p: Params, balances: Balances, stakers: seq<Staker>, issuance: nat)
    ensures Mirrored(Genesis(p, balances, stakers, issuance))
    ensures Tight(Genesis(p, balances, stakers, issuance))
  {
    GenesisBondsFresh(p, balances, stakers);
    var g := Genesis(p, balances, stakers, issuance);
    assert forall c :: Backers(g, c) == [];
    assert forall n :: Nominations(g, n) == [];
  }

  /** In every reachable storage of a run with exact searches; and then the staked total covers the ledger too. */
  lemma ReachableMirror(p: Params, balances: Balances, stakers: seq<Staker>, issuance: nat, calls: seq<Call>)
    requires ExactRun(p, Genesis(p, balances, stakers, issuance), calls)
    ensures Mirrored(Run(p, Genesis(p, balances, stakers, issuance), calls))
    ensures Tight(Run(p, Genesis(p, balances, stakers, issuance), calls))
    ensures Covered(Run(p, Genesis(p, balances, stakers, issuance), calls))
  {
    hide Genesis, Covered;
    GenesisMirror(p, balances, stakers, issuance);
    RunMirror(p, Genesis(p, balances, stakers, issuance), calls);
    ReachableCovered(p, balances, stakers, issuance, calls);
  }
}

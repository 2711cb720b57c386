/**
 What the loops of the pallet keep while they are under way: maps of which some
 entries have been visited, balances of which some releases or credits have
 been made, and the work on a single entry.
 */
module Visiting {
  import opened Options
  import opened Sums
  import opened Entities
  import opened Currency
  import opened Staking
  import opened Soundness
  import opened Coverage
  import opened Elections

  // ---- Partially visited maps --------------------------------------------

  /** `after` where the entry has been visited, `before` where it is still to be. */
  function Merge<V>(before: map<Account, V>, after: map<Account, V>, todo: set<Account>): map<Account, V> {
    map a | a in before :: if a in todo || a !in after then before[a] else after[a]
  }

  lemma MergeStep<V>(before: map<Account, V>, after: map<Account, V>, todo: set<Account>, a: Account)
    requires a in todo && a in before && a in after
    ensures Merge(before, after, todo - {a}) == Merge(before, after, todo)[a := after[a]]
    ensures a in Merge(before, after, todo) && Merge(before, after, todo)[a] == before[a]
  {
  }

  lemma MergeAll<V>(before: map<Account, V>, after: map<Account, V>)
    requires before.Keys == after.Keys
    ensures Merge(before, after, before.Keys) == before
    ensures Merge(before, after, {}) == after
  {
  }

  lemma VisitedStep(due: map<Account, nat>, todo: set<Account>, a: Account)
    requires a in todo && a in due
    ensures due - (todo - {a}) == (due - todo)[a := due[a]]
    ensures a !in due - todo
    ensures SumOver(due - (todo - {a})) == SumOver(due - todo) + due[a]
  {
    assert due - (todo - {a}) == (due - todo)[a := due[a]];
    SumPut(due - todo, a, due[a]);
  }

  lemma UnreserveEachStep(b: Balances, due: map<Account, nat>, a: Account, v: nat)
    requires a !in due
    ensures UnreserveEach(b, due[a := v]) == Unreserve(UnreserveEach(b, due), a, v)
  {
  }

  lemma UnreserveEachNone(b: Balances, due: map<Account, nat>)
    requires due.Keys == {}
    ensures UnreserveEach(b, due) == b
  {
  }

  lemma NoneVisited(due: map<Account, nat>)
    ensures SumOver(due - due.Keys) == 0
    ensures (due - due.Keys).Keys == {}
    ensures due - {} == due
  {
    assert due - due.Keys == map[];
  }

  /** What has been deducted and one more amount never exceed what was there. */
  lemma DeductedSoFar(totals: map<Account, int>, due: map<Account, nat>, todo: set<Account>, a: Account, whole: int)
    requires due.Keys == totals.Keys && a in due && a in todo
    requires forall k :: k in due ==> due[k] <= totals[k]
    requires SumOver(totals) <= whole
    ensures totals[a] <= whole - SumOver(due - todo)
  {
    SumSplit(totals, a);
    var done := due - todo;
    assert a !in done;
    forall k | k in done
      ensures done[k] <= (totals - {a})[k]
    {
    }
    SumMono(done, totals - {a});
  }

  // ---- Credits of a payout -----------------------------------------------

  function DepositShares(b: Balances, pay: Payout, others: seq<Share>): Balances {
    map a | a in b :: AccountData(b[a].free + pay.SharesTo(others, a), b[a].reserved)
  }

  lemma DepositSharesPush(b: Balances, pay: Payout, others: seq<Share>, i: nat)
    requires i < |others|
    ensures var v := pay.NominatorPart(others[i].value);
      DepositShares(b, pay, others[..i + 1])
      == if v > pay.minimum then Deposit(DepositShares(b, pay, others[..i]), others[i].who, v)
         else DepositShares(b, pay, others[..i])
  {
    hide Payout.NominatorPart, Payout.ExposurePart, Payout.CommissionPart;
    assert others[..i + 1][..i] == others[..i];
  }

  lemma CreditsPut(pay: Payout, done: map<Account, Exposure>, c: Account, e: Exposure, a: Account)
    requires c !in done
    ensures pay.Credits(done[c := e], a) == pay.Credits(done, a) + pay.CreditFrom(c, e, a)
    ensures 0 <= pay.Credits(done, a)
  {
    hide Payout.NominatorPart, Payout.ExposurePart, Payout.CommissionPart;
    assert pay.CreditMap(done[c := e], a) == pay.CreditMap(done, a)[c := pay.CreditFrom(c, e, a)];
    SumPut(pay.CreditMap(done, a), c, pay.CreditFrom(c, e, a));
    SumMono(map[], pay.CreditMap(done, a));
  }

  /** One drained exposure: the collator's credit first, then its nominators'. */
  lemma DepositEachStep(b: Balances, pay: Payout, done: map<Account, Exposure>, c: Account, e: Exposure)
    requires c !in done
    ensures var own := pay.ExposurePart(e.own) + pay.CommissionPart(c);
      var first := if own > pay.minimum then Deposit(DepositEach(b, pay, done), c, own) else DepositEach(b, pay, done);
      DepositEach(b, pay, done[c := e]) == DepositShares(first, pay, e.others)
  {
    hide Payout.Credits, Payout.ExposurePart, Payout.CommissionPart, Payout.SharesTo;
    forall a | a in b
      ensures pay.Credits(done[c := e], a) == pay.Credits(done, a) + pay.CreditFrom(c, e, a)
      ensures 0 <= pay.Credits(done, a)
    {
      CreditsPut(pay, done, c, e, a);
    }
  }

  lemma DepositEachNone(b: Balances, pay: Payout, none: map<Account, Exposure>)
    requires none.Keys == {}
    ensures DepositEach(b, pay, none) == b
  {
    forall a | a in b
      ensures pay.Credits(none, a) == 0
    {
      assert pay.CreditMap(none, a) == map[];
    }
  }

  // ---- Election data -----------------------------------------------------

  datatype Voter = Voter(who: Account, weight: nat, targets: seq<Account>)

  /** `slashable_balance_of` a validator, its active stake if it is active, as a vote weight. */
  function SelfVote(p: Params, m: map<Account, Collator>, issuance: nat, a: Account): Voter {
    Voter(a, p.toVote(if a in m && m[a].IsActive() then m[a].active else 0, issuance), [a])
  }

  function Owners(bs: seq<Bond>): seq<Account> {
    seq(|bs|, i requires 0 <= i < |bs| => bs[i].owner)
  }

  function NominatorVote(p: Params, m: map<Account, Nominator>, issuance: nat, a: Account): Voter {
    if a in m then Voter(a, p.toVote(NonNegative(m[a].total), issuance), Owners(m[a].nominations))
    else Voter(a, p.toVote(0, issuance), [])
  }

  /** The keys of a map in some order, each once. */
  method Enumerate(keys: set<Account>) returns (list: seq<Account>)
    ensures forall a :: a in list <==> a in keys
    ensures |list| == |keys|
  {
    var todo := keys;
    list := [];
    while todo != {}
      invariant todo <= keys
      invariant forall a :: a in list <==> a in keys && a !in todo
      invariant |list| + |todo| == |keys|
    {
      var a :| a in todo;
      list := list + [a];
      todo := todo - {a};
    }
  }

  /** The fold of `collect_exposures` over one support, with its saturating additions. */
  method CollectExposure(p: Params, sup: Support, issuance: nat) returns (e: Exposure)
    ensures e == ExposureOf(p, sup, issuance)
    ensures Exposes(p, e, sup, issuance)
  {
    ExposureIsTheVotes(p, sup, issuance);
    var own, total, others := 0, 0, [];
    var vs := sup.voters;
    ghost var stakes := AsStakes(p, vs, issuance);
    for i := 0 to |vs|
      invariant total == Saturated(SharesTotal(stakes[..i]))
      invariant own == Saturated(SharesTotal(VotesOf(stakes[..i], sup.who)))
      invariant others == VotesOfOthers(stakes[..i], sup.who)
    {
      assert stakes[..i + 1] == stakes[..i] + [stakes[i]];
      VotesPush(stakes[..i], stakes[i], sup.who);
      hide SharesTotal, VotesOf, VotesOfOthers;
      var stake := p.toCurrency(vs[i].value, issuance);
      if vs[i].who == sup.who {
        own := Saturated(own + stake);
      } else {
        others := others + [Share(vs[i].who, stake)];
      }
      total := Saturated(total + stake);
    }
    assert stakes[..|vs|] == stakes;
    return Exposure(total, own, others);
  }

  lemma VotesPush(vs: seq<Share>, v: Share, who: Account)
    ensures SharesTotal(vs + [v]) == SharesTotal(vs) + v.value
    ensures SharesTotal(VotesOf(vs + [v], who)) == SharesTotal(VotesOf(vs, who)) + (if v.who == who then v.value else 0)
    ensures VotesOfOthers(vs + [v], who)
         == if v.who == who then VotesOfOthers(vs, who) else VotesOfOthers(vs, who) + [v]
  {
    assert (vs + [v])[..|vs|] == vs;
    var own := VotesOf(vs, who);
    assert (own + [v])[..|own|] == own;
  }

  lemma {:induction false} VotesSplit(vs: seq<Share>, who: Account)
    ensures SharesTotal(vs) == SharesTotal(VotesOf(vs, who)) + SharesTotal(VotesOfOthers(vs, who))
  {
    if vs != [] {
      var n := |vs| - 1;
      VotesSplit(vs[..n], who);
      var own, others := VotesOf(vs[..n], who), VotesOfOthers(vs[..n], who);
      assert (own + [vs[n]])[..|own|] == own && (others + [vs[n]])[..|others|] == others;
    }
  }

  /** Nothing is lost between a voter list and its exposure, unless the total saturates. */
  lemma ExposureConserves(p: Params, sup: Support, issuance: nat)
    ensures var e, all := ExposureOf(p, sup, issuance), SharesTotal(AsStakes(p, sup.voters, issuance));
      && (all <= BALANCE_MAX ==> e.own + SharesTotal(e.others) == e.total == all)
      && (all > BALANCE_MAX ==> e.total == BALANCE_MAX)
  {
    VotesSplit(AsStakes(p, sup.voters, issuance), sup.who);
  }

  // ---- Leaving -----------------------------------------------------------

  /** The staked total after a sequence of writes that all start from `current`. */
  function LastWritten(before: int, current: int, paid: seq<Chunk>): int {
    if paid == [] then before else current - paid[|paid| - 1].value
  }

  lemma UnreserveChunksPush(b: Balances, a: Account, cs: seq<Chunk>, c: Chunk)
    ensures UnreserveChunks(b, a, cs + [c]) == Unreserve(UnreserveChunks(b, a, cs), a, c.value)
  {
    assert (cs + [c])[..|cs|] == cs;
  }

  lemma UnreserveNothing(b: Balances, a: Account)
    ensures UnreserveChunks(b, a, []) == b
  {
  }

  /** The exit queue when the entries in `todo` are still to be visited. */
  function PartlyLeft(q: map<Account, Leaving>, round: nat, todo: set<Account>): map<Account, Leaving> {
    map a | a in q && (a in todo || q[a].when > round)
      :: if a in todo then q[a] else q[a].(unbonding := Kept(q[a].unbonding, round))
  }

  lemma PartlyLeftEnds(q: map<Account, Leaving>, round: nat)
    ensures PartlyLeft(q, round, q.Keys) == q
    ensures PartlyLeft(q, round, {}) == StillLeaving(q, round)
  {
    hide Kept;
  }

  lemma PartlyLeftStep(q: map<Account, Leaving>, round: nat, todo: set<Account>, a: Account)
    requires a in todo && a in q
    ensures a in PartlyLeft(q, round, todo) && PartlyLeft(q, round, todo)[a] == q[a]
    ensures PartlyLeft(q, round, todo - {a})
         == if q[a].when > round
            then PartlyLeft(q, round, todo)[a := q[a].(unbonding := Kept(q[a].unbonding, round))]
            else PartlyLeft(q, round, todo) - {a}
  {
    hide Kept;
  }

  lemma LeaverFits(q: map<Account, Leaving>, deduction: map<Account, nat>, todo: set<Account>, a: Account,
                   round: nat, staked: int)
    requires deduction == ExitDeduction(q, round) && a in todo && a in q
    requires SumOver(ExitTotals(q)) <= staked
    ensures q[a].Amount() <= staked - SumOver(deduction - todo)
  {
    hide SumOver;
    forall k | k in q
      ensures deduction[k] <= q[k].Amount()
    {
      DeductionFits(q[k], round);
    }
    DeductedSoFar(ExitTotals(q), deduction, todo, a, staked);
  }

  // ---- No underflow ------------------------------------------------------

  /** A covered, sound storage stays fit for each stage of the switch. */
  lemma StageCover(p: Params, s: Storage, now: nat)
    ensures Sound(p, s) && Covered(s) ==>
      var e := Staking.PayoutStakers(p, EnterRound(s, now));
      var u := Staking.UpdateCollators(e);
      var v := Staking.UpdateNominators(u);
      && CollatorsSuffice(e.collators)
      && NominatorsSuffice(u.nominators, u.totalStaked)
      && SumOver(ExitTotals(v.exitQueue)) <= v.totalStaked
  {
    hide SumOver, DepositEach, UnreserveEach, Sound, Covered, CollatorsSuffice, NominatorsSuffice;
    hide Advanced, Consolidated, NominatorDue, CollatorDue, NominatorTotals, ExitTotals;
    if Sound(p, s) && Covered(s) {
      LedgerFits(p, s);
      NominatorTotalsLeft(p, s);
    }
  }

  lemma LedgerFits(p: Params, s: Storage)
    requires Sound(p, s) && Covered(s)
    ensures CollatorsSuffice(s.collators)
    ensures NominatorsSuffice(s.nominators, s.totalStaked)
    ensures SumOver(NominatorTotals(s.nominators)) + SumOver(ExitTotals(s.exitQueue)) <= s.totalStaked
  {
    hide SumOver;
    assert forall a :: a in s.collators ==> CollatorSound(p, s.round.index, s.collators[a]);
    assert forall a :: a in s.nominators ==> NominatorSound(s.round.index, s.nominators[a]);
    var none: map<Account, int> := map[];
    SumEmpty(none);
    SumMono(none, CollatorTotals(s.collators));
    SumMono(none, ExitTotals(s.exitQueue));
  }

  lemma NominatorTotalsLeft(p: Params, s: Storage)
    requires Sound(p, s)
    ensures SumOver(NominatorDue(s.nominators, s.round.index + 1)) <= SumOver(NominatorTotals(s.nominators))
  {
    hide SumOver;
    var m, round := s.nominators, s.round.index;
    forall a | a in m
      ensures NominatorDue(m, round + 1)[a] <= NominatorTotals(m)[a]
    {
      assert NominatorSound(round, m[a]);
      KeptAndDue(m[a].unbonding, round + 1);
    }
    SumMono(NominatorDue(m, round + 1), NominatorTotals(m));
  }

  // ---- Consolidation -----------------------------------------------------

  /** No collator has more unbonding than it has in total. */
  ghost predicate CollatorsSuffice(m: map<Account, Collator>) {
    forall a :: a in m ==> Total(m[a].unbonding) <= m[a].total
  }

  /** The same of the nominators, and the staked total covers them. */
  ghost predicate NominatorsSuffice(m: map<Account, Nominator>, staked: int) {
    && (forall a :: a in m ==> Total(m[a].unbonding) <= m[a].total)
    && SumOver(NominatorTotals(m)) <= staked
  }

  /** `active_onboard`, `consolidate_active` and `consolidate_unbonded`, in this order. */
  method ConsolidateCollator(c: Collator, round: nat) returns (r: Collator, released: nat, underflow: bool)
    ensures r == c.Advance(round)
    ensures released == DueTotal(c.unbonding, round)
    ensures Total(c.unbonding) <= c.total ==> !underflow
  {
    hide Total, Kept, Due, DueTotal;
    r := c;
    if r.status == Onboarding { r := r.(status := Active); }
    var locked, unlocked := Consolidate(r.unlocking, round);
    r := r.(active := r.active + unlocked, unlocking := locked);
    var kept, due := Consolidate(r.unbonding, round);
    underflow := r.total < due;
    r := r.(total := r.total - due, unbonding := kept);
    released := due;
  }

  method ConsolidateNominator(n: Nominator, round: nat) returns (r: Nominator, released: nat, underflow: bool)
    ensures r == n.ConsolidateUnbonded(round)
    ensures released == DueTotal(n.unbonding, round)
    ensures Total(n.unbonding) <= n.total ==> !underflow
  {
    hide Total, Kept, Due, DueTotal;
    var kept, due := Consolidate(n.unbonding, round);
    underflow := n.total < due;
    r := n.(total := n.total - due, unbonding := kept);
    released := due;
  }

  lemma NominatorFits(m: map<Account, Nominator>, due: map<Account, nat>, todo: set<Account>, a: Account,
                      round: nat, staked: int)
    requires due == NominatorDue(m, round) && a in todo && a in m
    requires NominatorsSuffice(m, staked)
    ensures Total(m[a].unbonding) <= m[a].total
    ensures due[a] <= staked - SumOver(due - todo)
  {
    hide SumOver;
    forall k | k in m
      ensures due[k] <= m[k].total
    {
      KeptAndDue(m[k].unbonding, round);
    }
    DeductedSoFar(NominatorTotals(m), due, todo, a, staked);
  }

  /** What a lowered bond leaves. */
  lemma LoweredValue(bs: seq<Bond>, owner: Account, less: nat)
    ensures Lookup(bs, owner).Some? && Lookup(bs, owner).value > less ==>
              Lookup(Lowered(bs, owner, less), owner) == Some(Lookup(bs, owner).value - less)
  {
    var i := First(bs, owner);
    if i < |bs| && bs[i].amount > less {
      FirstIs(Lowered(bs, owner, less), owner, i);
    }
  }

  /** A collator at work votes for itself with its active stake; another one with nothing. */
  predicate VotesForItself(p: Params, m: map<Account, Collator>, issuance: nat, v: Voter, a: Account) {
    && a in m
    && v.who == a
    && v.targets == [a]
    && v.weight == p.toVote(if m[a].status == Active then m[a].active else 0, issuance)
  }

  /** A nominator votes with its total for the owners of its bonds, in order. */
  predicate VotesForOthers(p: Params, m: map<Account, Nominator>, issuance: nat, v: Voter, a: Account) {
    && a in m
    && v.who == a
    && v.weight == p.toVote(NonNegative(m[a].total), issuance)
    && |v.targets| == |m[a].nominations|
    && forall i :: 0 <= i < |v.targets| ==> v.targets[i] == m[a].nominations[i].owner
  }

  lemma VotesAre(p: Params, collators: map<Account, Collator>, nominators: map<Account, Nominator>, issuance: nat,
                 v: Voter, a: Account)
    ensures VotesForItself(p, collators, issuance, v, a) <==>
              a in collators && v == SelfVote(p, collators, issuance, a)
    ensures VotesForOthers(p, nominators, issuance, v, a) <==>
              a in nominators && v == NominatorVote(p, nominators, issuance, a)
  {
    if VotesForOthers(p, nominators, issuance, v, a) {
      assert v.targets == Owners(nominators[a].nominations);
    }
  }

  /** The list of voters is made of the two kinds of votes, each account once. */
  lemma VotersComplete(collators: map<Account, Collator>, nominators: map<Account, Nominator>,
                       p: Params, issuance: nat, cs: seq<Account>, ns: seq<Account>, voters: seq<Voter>)
    requires (forall a :: a in cs <==> a in collators) && (forall a :: a in ns <==> a in nominators)
    requires |voters| == |cs| + |ns|
    requires forall j :: 0 <= j < |cs| ==> voters[j] == SelfVote(p, collators, issuance, cs[j])
    requires forall j :: 0 <= j < |ns| ==> voters[|cs| + j] == NominatorVote(p, nominators, issuance, ns[j])
    ensures forall v :: v in voters <==>
              (exists a :: VotesForItself(p, collators, issuance, v, a)) ||
              (exists a :: VotesForOthers(p, nominators, issuance, v, a))
  {
    hide SelfVote, NominatorVote, VotesForItself, VotesForOthers;
    forall v
      ensures v in voters <==> (exists a :: VotesForItself(p, collators, issuance, v, a)) ||
                               (exists a :: VotesForOthers(p, nominators, issuance, v, a))
    {
      if v in voters {
        var j :| 0 <= j < |voters| && voters[j] == v;
        if j < |cs| {
          assert cs[j] in cs;
          VotesAre(p, collators, nominators, issuance, v, cs[j]);
        } else {
          assert ns[j - |cs|] in ns && v == voters[|cs| + (j - |cs|)];
          VotesAre(p, collators, nominators, issuance, v, ns[j - |cs|]);
        }
      }
      if a :| VotesForItself(p, collators, issuance, v, a) {
        VotesAre(p, collators, nominators, issuance, v, a);
        var j :| 0 <= j < |cs| && cs[j] == a;
        assert voters[j] == v;
      }
      if a :| VotesForOthers(p, nominators, issuance, v, a) {
        VotesAre(p, collators, nominators, issuance, v, a);
        var j :| 0 <= j < |ns| && ns[j] == a;
        assert voters[|cs| + j] == v;
      }
    }
  }
}

/**
 What an initialisation registers and what a claim pays, in the figures of the
 calls: amounts, rate and blocks.
 */
module CrowdloanVesting {
  import opened PerThing
  import opened Crowdloan

  /** The last contribution of a relay account decides. */
  predicate LastFor(cs: seq<Contribution>, i: int, r: Relay) {
    0 <= i < |cs| && cs[i].account == r && forall j :: i < j < |cs| ==> cs[j].account != r
  }

  lemma {:induction false} RegisteredAs(m: map<Relay, RewardInfo>, cs: seq<Contribution>, rate: U32, now: nat,
                                        i: nat, r: Relay)
    requires LastFor(cs, i, r)
    ensures var n := Registered(m, cs, rate, now);
      r in n && n[r] == RewardInfo(cs[i].amount * rate, 0, now)
  {
    NewRewardSound(cs[i].amount, rate);
    if i < |cs| - 1 {
      RegisteredAs(m, cs[..|cs| - 1], rate, now, i, r);
    }
  }

  lemma {:induction false} NotRegistered(m: map<Relay, RewardInfo>, cs: seq<Contribution>, rate: U32, now: nat,
                                         r: Relay)
    requires forall i :: 0 <= i < |cs| ==> cs[i].account != r
    ensures var n := Registered(m, cs, rate, now);
      (r in n <==> r in m) && (r in m ==> n[r] == m[r])
  {
    if cs != [] {
      NotRegistered(m, cs[..|cs| - 1], rate, now, r);
    }
  }

  /**
   An initialisation goes through exactly between periods and with an end ahead;
   it then gives each contributor amount times rate, nothing claimed yet, and
   opens the period from now to that end. Other records stay.
   */
  lemma InitializeOpens(s: State, cs: seq<Contribution>, rate: U32, endBlock: nat, r: Relay)
    ensures var reply := InitializeReward(s, cs, rate, endBlock);
      var t := reply.state;
      && (reply.outcome == Ok <==> s.endIn <= s.now < endBlock)
      && (reply.outcome != Ok ==> t == s)
      && (reply.outcome == Ok ==>
            && t.endIn == endBlock && t.period == endBlock - s.now && t.now == s.now && t.associated == s.associated
            && (forall i :: LastFor(cs, i, r) ==>
                  r in t.contributors && t.contributors[r] == RewardInfo(cs[i].amount * rate, 0, s.now))
            && ((forall i :: 0 <= i < |cs| ==> cs[i].account != r) ==>
                  (r in t.contributors <==> r in s.contributors)
                  && (r in s.contributors ==> t.contributors[r] == s.contributors[r])))
  {
    hide Registered;
    forall i | LastFor(cs, i, r)
      ensures r in Registered(s.contributors, cs, rate, s.now)
      ensures Registered(s.contributors, cs, rate, s.now)[r] == RewardInfo(cs[i].amount * rate, 0, s.now)
    {
      RegisteredAs(s.contributors, cs, rate, s.now, i, r);
    }
    if forall i :: 0 <= i < |cs| ==> cs[i].account != r {
      NotRegistered(s.contributors, cs, rate, s.now, r);
    }
  }

  /** A claim pays, and is recorded, exactly when these hold; otherwise it pays nothing. */
  lemma ClaimPaysIff(s: State, minimum: nat, who: Account, transferred: bool)
    requires Sound(s)
    ensures var call := Claim(who, transferred);
      var reply := Step(s, minimum, call);
      && (reply.outcome == Ok <==>
            who in s.associated && WritesClaim(s, call, s.associated[who])
            && PaysOut(s, minimum, call, s.associated[who]))
      && (reply.outcome != Ok ==> reply.paid == 0)
  {
    hide Claimable, AfterClaim;
    if who in s.associated && s.associated[who] in s.contributors {
      assert InfoSound(s, s.contributors[s.associated[who]]);
    }
  }

  /** Which refusal an initialisation or a claim meets; the last two come after the record is written. */
  lemma RewardRefusals(s: State, cs: seq<Contribution>, rate: U32, endBlock: nat,
                       who: Account, minimum: nat, transferred: bool)
    requires Sound(s)
    ensures var o := InitializeReward(s, cs, rate, endBlock).outcome;
      && (o == Err(InvalidEndBlock) <==> s.now >= endBlock)
      && (o == Err(AlreadyInitReward) <==> s.now < endBlock && s.now < s.endIn)
    ensures var reply := GetMoney(s, who, minimum, transferred);
      var o := reply.outcome;
      && (o == Err(NoAssociatedAccount) <==> who !in s.associated)
      && (o == Err(NotContributedYet) <==> who in s.associated && s.associated[who] !in s.contributors)
      && (o == Err(AlreadyPaid) <==>
            who in s.associated && s.associated[who] in s.contributors
            && s.contributors[s.associated[who]].claimed == s.contributors[s.associated[who]].total)
      && (who in s.associated && WritesClaim(s, Claim(who, transferred), s.associated[who]) ==>
            var amount := Claimable(s.contributors[s.associated[who]], s.period, s.now);
            && (o == Err(ScantyReward) <==> amount < minimum)
            && (o == Err(RewardFailed) <==> amount >= minimum && !transferred))
  {
    hide Registered, Claimable, AfterClaim;
    if who in s.associated && s.associated[who] in s.contributors {
      assert InfoSound(s, s.contributors[s.associated[who]]);
    }
  }

  /** What has vested of a reward after so many blocks of its period. */
  function VestedBy(total: nat, period: nat, elapsed: nat): nat
    requires 0 < period
  {
    var perBlock: nat := total / period;
    Min(total, perBlock * elapsed)
  }

  /** After the claim the record stands at what has vested since the start of the period, and the rest was paid. */
  ghost predicate CaughtUp(s: State, minimum: nat, call: Call, r: Relay)
    requires r in s.contributors
  {
    var reply := Step(s, minimum, call);
    var total := s.contributors[r].total;
    && 0 < s.period && 0 <= Start(s) <= s.now
    && r in reply.state.contributors
    && reply.state.contributors[r].claimed == VestedBy(total, s.period, s.now - Start(s))
    && reply.state.contributors[r].total == total
    && reply.state.contributors[r].lastPaid == s.now
    && (reply.outcome == Ok ==> reply.paid == reply.state.contributors[r].claimed - s.contributors[r].claimed)
  }

  /**
   Claiming catches up with the line: after a claim that is recorded, whatever was
   claimed before and whenever, the record stands at what has vested by now, and
   a claim that pays has paid the difference.
   */
  lemma ClaimCatchesUp(minimum: nat, calls: seq<Call>, call: Call, r: Relay)
    requires r in RegisteredNow(minimum, calls) && WritesClaim(Run(minimum, calls), call, r)
    ensures CaughtUp(Run(minimum, calls), minimum, call, r)
  {
    hide Run, OnTheLine, Sound, CaughtUp, RegisteredNow, WritesClaim;
    var s := Run(minimum, calls);
    PathIndependence(minimum, calls, r);
    ReachableSound(minimum, calls);
    CatchUp(s, minimum, call, r);
  }

  lemma CatchUp(s: State, minimum: nat, call: Call, r: Relay)
    requires Sound(s) && OnTheLine(s, r) && WritesClaim(s, call, r)
    ensures CaughtUp(s, minimum, call, r)
  {
    hide Claimable, AfterClaim;
    var info := s.contributors[r];
    assert InfoSound(s, info);
    ClaimSound(s, info);
    ClaimOnTheLine(s, r);
    AfterClaimIs(info, s.period, s.now);
  }

  lemma AfterClaimIs(info: RewardInfo, period: nat, now: nat)
    requires 0 < period
    ensures AfterClaim(info, period, now).lastPaid == now && AfterClaim(info, period, now).total == info.total
  {
  }

  /** A claim at the end of the period has everything, exactly when the blocks of the period divide the reward. */
  lemma FullyVestedIff(minimum: nat, calls: seq<Call>, call: Call, r: Relay)
    requires r in RegisteredNow(minimum, calls) && WritesClaim(Run(minimum, calls), call, r)
    requires Run(minimum, calls).now == Run(minimum, calls).endIn
    ensures var s := Run(minimum, calls);
      && 0 < s.period && r in Step(s, minimum, call).state.contributors
      && (Step(s, minimum, call).state.contributors[r].claimed == s.contributors[r].total
          <==> s.contributors[r].total % s.period == 0)
  {
    hide Run, OnTheLine, Sound, Step, RegisteredNow, WritesClaim;
    var s := Run(minimum, calls);
    ClaimCatchesUp(minimum, calls, call, r);
    WritesHas(s, call, r);
    WholeQuotient(s.contributors[r].total, s.period);
  }

  lemma WritesHas(s: State, call: Call, r: Relay)
    requires WritesClaim(s, call, r)
    ensures r in s.contributors && 0 < s.period
  {
  }

  lemma WholeQuotient(total: nat, period: nat)
    requires 0 < period
    ensures VestedBy(total, period, period) == total <==> total % period == 0
  {
    assert total == total / period * period + total % period;
  }
}

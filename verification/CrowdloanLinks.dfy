/**
 The links between native and relay-chain accounts: what each call does to
 them, how many there are, and who may claim through them.
 */
module CrowdloanLinks {
  import opened Crowdloan

  /** The native accounts linked to a relay account. */
  function LinkedTo(s: State, r: Relay): set<Account> {
    set a | a in s.associated && s.associated[a] == r
  }

  ghost predicate SameLink(s: State, t: State, a: Account) {
    (a in t.associated <==> a in s.associated) && (a in s.associated ==> t.associated[a] == s.associated[a])
  }

  // ---- One call ----------------------------------------------------------

  /** A first link needs a signature and an account without a link; it adds that link and touches nothing else. */
  lemma AssociateLinks(s: State, who: Account, relay: Relay, signed: bool)
    ensures var reply := AssociateAccount(s, who, relay, signed);
      var t := reply.state;
      && (reply.outcome == Ok <==> signed && who !in s.associated)
      && (reply.outcome != Ok ==> t == s)
      && (reply.outcome == Ok ==>
            && t == s.(associated := t.associated)
            && who in t.associated && t.associated[who] == relay
            && forall a :: a != who ==> SameLink(s, t, a))
  {
  }

  /** Moving a link: the old account loses it, the new one gets the same relay account, the rest stays. */
  lemma UpdateMoves(s: State, who: Account, from: Account, relay: Relay, signed: bool)
    ensures var reply := UpdateAssociateAccount(s, who, from, relay, signed);
      var t := reply.state;
      && (reply.outcome == Ok <==>
            signed && who !in s.associated && from in s.associated && s.associated[from] == relay)
      && (reply.outcome != Ok ==> t == s)
      && (reply.outcome == Ok ==>
            && t == s.(associated := t.associated)
            && from !in t.associated
            && who in t.associated && t.associated[who] == s.associated[from]
            && forall a :: a != who && a != from ==> SameLink(s, t, a))
  {
  }

  /** Which refusal a call about links meets: a bad signature first, then the new account, then the old one. */
  lemma LinkRefusals(s: State, who: Account, from: Account, relay: Relay, signed: bool)
    ensures var o := AssociateAccount(s, who, relay, signed).outcome;
      && (o == Err(InvalidSignature) <==> !signed)
      && (o == Err(AlreadyAssociated) <==> signed && who in s.associated)
    ensures var o := UpdateAssociateAccount(s, who, from, relay, signed).outcome;
      && (o == Err(InvalidSignature) <==> !signed)
      && (o == Err(AlreadyAssociated) <==> signed && who in s.associated)
      && (o == Err(NoAssociatedAccount) <==> signed && who !in s.associated && from !in s.associated)
      && (o == Err(BadRelayAccount) <==>
            signed && who !in s.associated && from in s.associated && s.associated[from] != relay)
  {
  }

  /** The relay accounts' holders: a first link adds one, a move replaces one, nothing else changes them. */
  lemma StepLinked(s: State, minimum: nat, call: Call, r: Relay)
    ensures var reply := Step(s, minimum, call);
      LinkedTo(reply.state, r) ==
        if reply.outcome == Ok && call.Associate? && call.relay == r then LinkedTo(s, r) + {call.who}
        else if reply.outcome == Ok && call.Update? && call.relay == r then LinkedTo(s, r) - {call.from} + {call.who}
        else LinkedTo(s, r)
  {
    hide Registered, Claimable, AfterClaim;
  }

  // ---- Every run ---------------------------------------------------------

  /** Successful first links to a relay account. */
  function Associations(minimum: nat, calls: seq<Call>, r: Relay): nat {
    if calls == [] then 0
    else
      var init, last := calls[..|calls| - 1], calls[|calls| - 1];
      Associations(minimum, init, r)
      + (if last.Associate? && last.relay == r && Step(Run(minimum, init), minimum, last).outcome == Ok then 1 else 0)
  }

  /** The number of accounts linked to a relay account is the number of first links: moves never add one. */
  lemma {:induction false} LinksAreCounted(minimum: nat, calls: seq<Call>, r: Relay)
    ensures |LinkedTo(Run(minimum, calls), r)| == Associations(minimum, calls, r)
  {
    if calls == [] {
      assert LinkedTo(EMPTY, r) == {};
    } else {
      hide LinkedTo;
      var init, last := calls[..|calls| - 1], calls[|calls| - 1];
      LinksAreCounted(minimum, init, r);
      LinkedStep(Run(minimum, init), minimum, last, r);
    }
  }

  lemma LinkedStep(s: State, minimum: nat, call: Call, r: Relay)
    ensures var reply := Step(s, minimum, call);
      |LinkedTo(reply.state, r)| == |LinkedTo(s, r)|
        + (if call.Associate? && call.relay == r && reply.outcome == Ok then 1 else 0)
  {
    hide Registered, Claimable, AfterClaim;
    StepLinked(s, minimum, call, r);
    if Step(s, minimum, call).outcome == Ok {
      if call.Associate? && call.relay == r {
        assert call.who !in LinkedTo(s, r);
      } else if call.Update? && call.relay == r {
        assert call.from in LinkedTo(s, r) && call.who !in LinkedTo(s, r);
      }
    }
  }

  /** The call links account `a` to relay account `r`, with a valid signature for it. */
  predicate SignedLink(call: Call, a: Account, r: Relay) {
    (call.Associate? || call.Update?) && call.who == a && call.relay == r && call.signed
  }

  /** Every link goes back to a call the account made with a signature for that relay account. */
  lemma {:induction false} EveryLinkSigned(minimum: nat, calls: seq<Call>, a: Account) returns (i: nat)
    requires a in Run(minimum, calls).associated
    ensures i < |calls| && SignedLink(calls[i], a, Run(minimum, calls).associated[a])
    ensures Step(Run(minimum, calls[..i]), minimum, calls[i]).outcome == Ok
  {
    hide Registered, Claimable, AfterClaim;
    var init, last := calls[..|calls| - 1], calls[|calls| - 1];
    var s := Run(minimum, init);
    if a in s.associated && SameLink(s, Run(minimum, calls), a) {
      i := EveryLinkSigned(minimum, init, a);
      assert init[..i] == calls[..i];
    } else {
      i := |calls| - 1;
    }
  }

  /** A call that would link the account again. */
  predicate Links(call: Call, a: Account) { (call.Associate? || call.Update?) && call.who == a }

  lemma StayUnlinked(s: State, minimum: nat, call: Call, a: Account)
    requires a !in s.associated && !Links(call, a)
    ensures a !in Step(s, minimum, call).state.associated
  {
    hide Registered, Claimable, AfterClaim;
  }

  lemma {:induction false} UnlinkedUntilLinked(minimum: nat, before: seq<Call>, later: seq<Call>, a: Account)
    requires a !in Run(minimum, before).associated
    requires forall i :: 0 <= i < |later| ==> !Links(later[i], a)
    ensures a !in Run(minimum, before + later).associated
  {
    if later == [] {
      assert before + later == before;
    } else {
      var init, last := later[..|later| - 1], later[|later| - 1];
      UnlinkedUntilLinked(minimum, before, init, a);
      assert (before + later)[..|before + later| - 1] == before + init;
      StayUnlinked(Run(minimum, before + init), minimum, last, a);
    }
  }

  /**
   An account whose link was moved away can claim nothing, whatever else is
   called, until it is linked again.
   */
  lemma MovedAwayClaimsNothing(minimum: nat, calls: seq<Call>, update: Call, later: seq<Call>, transferred: bool)
    requires update.Update? && Step(Run(minimum, calls), minimum, update).outcome == Ok
    requires forall i :: 0 <= i < |later| ==> !Links(later[i], update.from)
    ensures var reply := Step(Run(minimum, calls + [update] + later), minimum, Claim(update.from, transferred));
      reply.outcome == Err(NoAssociatedAccount) && reply.paid == 0
  {
    var before := calls + [update];
    assert before[..|before| - 1] == calls;
    UpdateMoves(Run(minimum, calls), update.who, update.from, update.relay, update.signed);
    UnlinkedUntilLinked(minimum, before, later, update.from);
  }
}

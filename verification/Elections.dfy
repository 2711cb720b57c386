/**
 What an election leaves behind, in terms of the votes it was given: the stakes
 behind each elected collator, and the figures its round will be paid by.
 */
module Elections {
  import opened Sums
  import opened Entities
  import opened Staking

  // ---- One support -------------------------------------------------------

  /** The values of the entries of `a`, in order. */
  function ValuesFor(vs: seq<Share>, a: Account): seq<nat> {
    if vs == [] then []
    else ValuesFor(vs[..|vs| - 1], a) + (if vs[|vs| - 1].who == a then [vs[|vs| - 1].value] else [])
  }

  /** Vote weights turned into stakes. */
  function ToStakes(p: Params, weights: seq<nat>, issuance: nat): (r: seq<nat>)
    ensures |r| == |weights| && forall i :: 0 <= i < |weights| ==> r[i] == p.toCurrency(weights[i], issuance)
  {
    seq(|weights|, i requires 0 <= i < |weights| => p.toCurrency(weights[i], issuance))
  }

  lemma ValuesPush(vs: seq<Share>, v: Share, a: Account)
    ensures ValuesFor(vs + [v], a) == ValuesFor(vs, a) + (if v.who == a then [v.value] else [])
  {
    assert (vs + [v])[..|vs|] == vs;
  }

  /** The stakes of an account are its votes, converted one by one. */
  lemma {:induction false} StakesFor(p: Params, votes: seq<Share>, issuance: nat, a: Account)
    ensures ValuesFor(AsStakes(p, votes, issuance), a) == ToStakes(p, ValuesFor(votes, a), issuance)
  {
    if votes != [] {
      var init := votes[..|votes| - 1];
      StakesFor(p, init, issuance, a);
      var stakes := AsStakes(p, votes, issuance);
      assert stakes[..|votes| - 1] == AsStakes(p, init, issuance);
    }
  }

  lemma {:induction false} OwnVotes(vs: seq<Share>, who: Account)
    ensures SharesTotal(VotesOf(vs, who)) == SumOf(ValuesFor(vs, who))
  {
    if vs != [] {
      var init, last := vs[..|vs| - 1], vs[|vs| - 1];
      OwnVotes(init, who);
      SumPush(ValuesFor(init, who), last.value);
      assert ValuesFor(init, who) + [] == ValuesFor(init, who);
      assert (VotesOf(init, who) + [last])[..|VotesOf(init, who)|] == VotesOf(init, who);
    }
  }

  lemma {:induction false} OtherVotes(vs: seq<Share>, who: Account, a: Account)
    ensures ValuesFor(VotesOfOthers(vs, who), a) == if a == who then [] else ValuesFor(vs, a)
  {
    if vs != [] {
      var init, last := vs[..|vs| - 1], vs[|vs| - 1];
      OtherVotes(init, who, a);
      ValuesPush(VotesOfOthers(init, who), last, a);
    }
  }

  lemma {:induction false} NotAmongOthers(vs: seq<Share>, who: Account)
    ensures forall x :: x in VotesOfOthers(vs, who) ==> x.who != who
  {
    if vs != [] {
      NotAmongOthers(vs[..|vs| - 1], who);
    }
  }

  /** All values, of whomever. */
  function AllOf(vs: seq<Share>): (r: seq<nat>)
    ensures |r| == |vs| && forall i :: 0 <= i < |vs| ==> r[i] == vs[i].value
  {
    seq(|vs|, i requires 0 <= i < |vs| => vs[i].value)
  }

  lemma {:induction false} AllVotes(vs: seq<Share>)
    ensures SharesTotal(vs) == SumOf(AllOf(vs))
  {
    if vs != [] {
      AllVotes(vs[..|vs| - 1]);
      assert AllOf(vs)[..|vs| - 1] == AllOf(vs[..|vs| - 1]);
    }
  }

  /** `e` is what the votes for an elected collator amount to. */
  ghost predicate Exposes(p: Params, e: Exposure, sup: Support, issuance: nat) {
    && e.own == Saturated(SumOf(ToStakes(p, ValuesFor(sup.voters, sup.who), issuance)))
    && e.total == Saturated(SumOf(ToStakes(p, AllOf(sup.voters), issuance)))
    && (forall x :: x in e.others ==> x.who != sup.who)
    && (forall a :: a != sup.who ==>
          ValuesFor(e.others, a) == ToStakes(p, ValuesFor(sup.voters, a), issuance))
  }

  /**
   The votes of the collator itself are its own stake; every other voter keeps
   its votes, converted and in order, among the others; all together are the total.
   */
  lemma ExposureIsTheVotes(p: Params, sup: Support, issuance: nat)
    ensures Exposes(p, ExposureOf(p, sup, issuance), sup, issuance)
  {
    var stakes := AsStakes(p, sup.voters, issuance);
    OwnVotes(stakes, sup.who);
    StakesFor(p, sup.voters, issuance, sup.who);
    NotAmongOthers(stakes, sup.who);
    AllVotes(stakes);
    assert AllOf(stakes) == ToStakes(p, AllOf(sup.voters), issuance);
    forall a | a != sup.who
      ensures ValuesFor(VotesOfOthers(stakes, sup.who), a) == ToStakes(p, ValuesFor(sup.voters, a), issuance)
    {
      OtherVotes(stakes, sup.who, a);
      StakesFor(p, sup.voters, issuance, a);
    }
  }

  // ---- All supports ------------------------------------------------------

  /** The last support of a collator decides. */
  ghost predicate LastSupport(sups: seq<Support>, i: int, c: Account) {
    0 <= i < |sups| && sups[i].who == c && forall j :: i < j < |sups| ==> sups[j].who != c
  }

  lemma {:induction false} ElectedAs(p: Params, before: map<Account, Exposure>, sups: seq<Support>, issuance: nat,
                                     c: Account)
    ensures var e := Elected(p, before, sups, issuance);
      && (forall i :: LastSupport(sups, i, c) ==> c in e && Exposes(p, e[c], sups[i], issuance))
      && ((forall i :: 0 <= i < |sups| ==> sups[i].who != c) ==>
            (c in e <==> c in before) && (c in before ==> e[c] == before[c]))
  {
    if sups != [] {
      hide Exposes, ExposureOf;
      var init, last := sups[..|sups| - 1], sups[|sups| - 1];
      ElectedAs(p, before, init, issuance, c);
      ExposureIsTheVotes(p, last, issuance);
      forall i | LastSupport(sups, i, c)
        ensures c in Elected(p, before, sups, issuance)
        ensures Exposes(p, Elected(p, before, sups, issuance)[c], sups[i], issuance)
      {
        if i < |sups| - 1 {
          assert LastSupport(init, i, c);
        }
      }
    }
  }
}

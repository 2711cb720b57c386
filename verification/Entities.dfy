/**
 The records a staking pallet stores: bonds, time-locked chunks, collators,
 nominators and leaving collators, with the operations on one record.
 Amounts are unsigned in the program. A field that is only ever decreased
 behind a guard is a `nat`; `total`, which is decreased unguarded, is an `int`
 so that an underflow shows up as a negative value.
 */
module Entities {
  import opened Options

  /** Account identifiers: any totally ordered type. */
  type Account = nat

  datatype Chunk = Chunk(value: nat, round: nat)

  datatype Bond = Bond(owner: Account, amount: nat)

  // ---- Chunks ------------------------------------------------------------

  function Total(cs: seq<Chunk>): nat {
    if cs == [] then 0 else Total(cs[..|cs| - 1]) + cs[|cs| - 1].value
  }

  /** The chunks that survive a switch to `round`. */
  function Kept(cs: seq<Chunk>, round: nat): seq<Chunk> {
    if cs == [] then []
    else
      var rest := Kept(cs[..|cs| - 1], round);
      if cs[|cs| - 1].round > round then rest + [cs[|cs| - 1]] else rest
  }

  /** The chunks released by a switch to `round`, in order. */
  function Due(cs: seq<Chunk>, round: nat): seq<Chunk> {
    if cs == [] then []
    else
      var rest := Due(cs[..|cs| - 1], round);
      if cs[|cs| - 1].round > round then rest else rest + [cs[|cs| - 1]]
  }

  function DueTotal(cs: seq<Chunk>, round: nat): nat { Total(Due(cs, round)) }

  lemma TotalPush(cs: seq<Chunk>, c: Chunk)
    ensures Total(cs + [c]) == Total(cs) + c.value
  {
    assert (cs + [c])[..|cs|] == cs;
  }

  /** A switch splits the chunks into those released and those kept. */
  lemma {:induction false} KeptAndDue(cs: seq<Chunk>, round: nat)
    ensures Total(Kept(cs, round)) + DueTotal(cs, round) == Total(cs)
  {
    if cs != [] {
      var init, last := cs[..|cs| - 1], cs[|cs| - 1];
      KeptAndDue(init, round);
      TotalPush(Kept(init, round), last);
      TotalPush(Due(init, round), last);
    }
  }

  ghost predicate NoneAfter(cs: seq<Chunk>, round: nat) {
    cs == [] || (NoneAfter(cs[..|cs| - 1], round) && cs[|cs| - 1].round <= round)
  }

  ghost predicate NoneBefore(cs: seq<Chunk>, round: nat) {
    cs == [] || (NoneBefore(cs[..|cs| - 1], round) && cs[|cs| - 1].round >= round)
  }

  lemma PushRounds(cs: seq<Chunk>, c: Chunk, round: nat)
    ensures NoneAfter(cs + [c], round) <==> NoneAfter(cs, round) && c.round <= round
    ensures NoneBefore(cs + [c], round) <==> NoneBefore(cs, round) && c.round >= round
  {
    assert (cs + [c])[..|cs|] == cs;
  }

  lemma {:induction false} KeptRounds(cs: seq<Chunk>, round: nat)
    ensures NoneBefore(Kept(cs, round), round)
  {
    if cs != [] {
      KeptRounds(cs[..|cs| - 1], round);
      PushRounds(Kept(cs[..|cs| - 1], round), cs[|cs| - 1], round);
    }
  }

  lemma {:induction false} AllDue(cs: seq<Chunk>, round: nat)
    requires NoneAfter(cs, round)
    ensures Kept(cs, round) == [] && Due(cs, round) == cs
  {
    if cs != [] {
      AllDue(cs[..|cs| - 1], round);
    }
  }

  lemma {:induction false} MemberAtMostTotal(cs: seq<Chunk>, c: Chunk)
    requires c in cs
    ensures c.value <= Total(cs)
  {
    var last := cs[|cs| - 1];
    if c != last {
      assert cs == cs[..|cs| - 1] + [last];
      MemberAtMostTotal(cs[..|cs| - 1], c);
    }
  }

  /**
   The closure passed to `filter` in the consolidation functions: walks the
   chunks, keeps those of a later round and adds up the rest.
   */
  method Consolidate(cs: seq<Chunk>, round: nat) returns (kept: seq<Chunk>, released: nat)
    ensures kept == Kept(cs, round)
    ensures released == DueTotal(cs, round)
    ensures released + Total(kept) == Total(cs)
  {
    kept, released := [], 0;
    for i := 0 to |cs|
      invariant kept == Kept(cs[..i], round)
      invariant released == DueTotal(cs[..i], round)
    {
      assert cs[..i + 1][..i] == cs[..i];
      if cs[i].round > round {
        kept := kept + [cs[i]];
      } else {
        TotalPush(Due(cs[..i], round), cs[i]);
        released := released + cs[i].value;
      }
    }
    assert cs[..|cs|] == cs;
    KeptAndDue(cs, round);
  }

  // ---- Bonds -------------------------------------------------------------

  function Bonded(bs: seq<Bond>): nat {
    if bs == [] then 0 else Bonded(bs[..|bs| - 1]) + bs[|bs| - 1].amount
  }

  /** Everything that `a` holds in the list. */
  function Held(bs: seq<Bond>, a: Account): nat {
    if bs == [] then 0
    else Held(bs[..|bs| - 1], a) + (if bs[|bs| - 1].owner == a then bs[|bs| - 1].amount else 0)
  }

  /** Position of the first bond of `owner`, or the length of the list. */
  function First(bs: seq<Bond>, owner: Account): (i: nat)
    ensures i <= |bs|
    ensures i < |bs| ==> bs[i].owner == owner
    ensures forall j :: 0 <= j < i ==> bs[j].owner != owner
  {
    if bs == [] || bs[0].owner == owner then 0 else 1 + First(bs[1..], owner)
  }

  lemma FirstIs(bs: seq<Bond>, owner: Account, i: nat)
    requires i <= |bs|
    requires i < |bs| ==> bs[i].owner == owner
    requires forall j :: 0 <= j < i ==> bs[j].owner != owner
    ensures First(bs, owner) == i
  {
  }

  /** Amount of the first bond of `owner`. */
  function Lookup(bs: seq<Bond>, owner: Account): Option<nat> {
    var i := First(bs, owner);
    if i < |bs| then Some(bs[i].amount) else None
  }

  ghost predicate Distinct(bs: seq<Bond>) {
    forall i, j :: 0 <= i < j < |bs| ==> bs[i].owner != bs[j].owner
  }

  /** The list after adding `extra` to the first bond of `owner`. */
  function Raised(bs: seq<Bond>, owner: Account, extra: nat): seq<Bond> {
    var i := First(bs, owner);
    if i < |bs| then bs[i := Bond(owner, bs[i].amount + extra)] else bs
  }

  /** The list after taking `less` from the first bond of `owner`, when that leaves something. */
  function Lowered(bs: seq<Bond>, owner: Account, less: nat): seq<Bond> {
    var i := First(bs, owner);
    if i < |bs| && bs[i].amount > less then bs[i := Bond(owner, bs[i].amount - less)] else bs
  }

  function Without(bs: seq<Bond>, owner: Account): seq<Bond> {
    if bs == [] then []
    else
      var rest := Without(bs[..|bs| - 1], owner);
      if bs[|bs| - 1].owner == owner then rest else rest + [bs[|bs| - 1]]
  }

  /** Amount of the last bond of `owner`: what `rm_nomination` reports. */
  function LastAmount(bs: seq<Bond>, owner: Account): Option<nat> {
    if bs == [] then None
    else if bs[|bs| - 1].owner == owner then Some(bs[|bs| - 1].amount)
    else LastAmount(bs[..|bs| - 1], owner)
  }

  /** What is reported, and unbonded, is the last bond of the owner, whatever the others held. */
  lemma {:induction false} LastIsLast(bs: seq<Bond>, owner: Account, i: nat)
    requires i < |bs| && bs[i].owner == owner
    requires forall j :: i < j < |bs| ==> bs[j].owner != owner
    ensures LastAmount(bs, owner) == Some(bs[i].amount)
  {
    if i < |bs| - 1 {
      LastIsLast(bs[..|bs| - 1], owner, i);
    }
  }

  /** The loop of both `nominate_extra` methods. */
  method RaiseFirst(bs: seq<Bond>, owner: Account, extra: nat) returns (r: seq<Bond>, found: Option<nat>)
    ensures r == Raised(bs, owner, extra)
    ensures found == Lookup(r, owner)
    ensures found.Some? <==> Lookup(bs, owner).Some?
  {
    for i := 0 to |bs|
      invariant forall j :: 0 <= j < i ==> bs[j].owner != owner
    {
      if bs[i].owner == owner {
        FirstIs(bs, owner, i);
        r := bs[i := Bond(owner, bs[i].amount + extra)];
        FirstIs(r, owner, i);
        return r, Some(bs[i].amount + extra);
      }
    }
    FirstIs(bs, owner, |bs|);
    return bs, None;
  }

  /** The loop of both `nominate_less` methods; the inner `None` is the refusal to reach zero. */
  method LowerFirst(bs: seq<Bond>, owner: Account, less: nat) returns (r: seq<Bond>, found: Option<Option<nat>>)
    ensures r == Lowered(bs, owner, less)
    ensures found.None? <==> Lookup(bs, owner).None?
    ensures found == Some(None) <==> Lookup(bs, owner).Some? && Lookup(bs, owner).value <= less
    ensures found.Some? && found.value.Some? ==> found.value == Lookup(r, owner)
  {
    for i := 0 to |bs|
      invariant forall j :: 0 <= j < i ==> bs[j].owner != owner
    {
      if bs[i].owner == owner {
        FirstIs(bs, owner, i);
        if bs[i].amount > less {
          r := bs[i := Bond(owner, bs[i].amount - less)];
          FirstIs(r, owner, i);
          return r, Some(Some(bs[i].amount - less));
        }
        return bs, Some(None);
      }
    }
    FirstIs(bs, owner, |bs|);
    return bs, None;
  }

  /** The `filter_map` of both `rm_nomination` methods. */
  method RemoveAll(bs: seq<Bond>, owner: Account) returns (r: seq<Bond>, last: Option<nat>)
    ensures r == Without(bs, owner)
    ensures last == LastAmount(bs, owner)
  {
    r, last := [], None;
    for i := 0 to |bs|
      invariant r == Without(bs[..i], owner)
      invariant last == LastAmount(bs[..i], owner)
    {
      assert bs[..i + 1][..i] == bs[..i];
      if bs[i].owner == owner {
        last := Some(bs[i].amount);
      } else {
        r := r + [bs[i]];
      }
    }
    assert bs[..|bs|] == bs;
  }

  lemma BondedPush(bs: seq<Bond>, b: Bond)
    ensures Bonded(bs + [b]) == Bonded(bs) + b.amount
    ensures forall a :: Held(bs + [b], a) == Held(bs, a) + (if b.owner == a then b.amount else 0)
  {
    assert (bs + [b])[..|bs|] == bs;
  }

  lemma {:induction false} BondedUpdate(bs: seq<Bond>, i: nat, b: Bond)
    requires i < |bs| && b.owner == bs[i].owner
    ensures Bonded(bs[i := b]) == Bonded(bs) - bs[i].amount + b.amount
    ensures forall a :: Held(bs[i := b], a)
                     == Held(bs, a) + (if b.owner == a then b.amount - bs[i].amount else 0)
  {
    var n := |bs| - 1;
    if i < n {
      BondedUpdate(bs[..n], i, b);
      assert bs[i := b][..n] == bs[..n][i := b];
    } else {
      assert bs[i := b][..n] == bs[..n];
    }
  }

  lemma {:induction false} BondedWithout(bs: seq<Bond>, owner: Account)
    ensures Bonded(Without(bs, owner)) == Bonded(bs) - Held(bs, owner)
    ensures forall a :: Held(Without(bs, owner), a) == if a == owner then 0 else Held(bs, a)
    ensures LastAmount(bs, owner).Some? ==> LastAmount(bs, owner).value <= Held(bs, owner)
  {
    if bs != [] {
      var init, last := bs[..|bs| - 1], bs[|bs| - 1];
      BondedWithout(init, owner);
      BondedPush(Without(init, owner), last);
    }
  }

  /** `First` and `Lookup` only look at owners, so membership decides them. */
  lemma LookupPresent(bs: seq<Bond>, owner: Account)
    ensures Lookup(bs, owner).Some? <==> exists i :: 0 <= i < |bs| && bs[i].owner == owner
  {
  }

  lemma {:induction false} LookupPush(bs: seq<Bond>, b: Bond)
    ensures forall a :: Lookup(bs + [b], a)
                     == if Lookup(bs, a).Some? then Lookup(bs, a)
                        else if a == b.owner then Some(b.amount) else None
  {
    forall a
      ensures Lookup(bs + [b], a)
           == if Lookup(bs, a).Some? then Lookup(bs, a)
              else if a == b.owner then Some(b.amount) else None
    {
      var i := First(bs, a);
      FirstIs(bs + [b], a, if i < |bs| || a == b.owner then i else i + 1);
    }
  }

  lemma LookupUpdate(bs: seq<Bond>, i: nat, b: Bond)
    requires i < |bs| && b.owner == bs[i].owner && i == First(bs, b.owner)
    ensures forall a :: Lookup(bs[i := b], a) == if a == b.owner then Some(b.amount) else Lookup(bs, a)
    ensures Distinct(bs) ==> Distinct(bs[i := b])
  {
    forall a
      ensures Lookup(bs[i := b], a) == if a == b.owner then Some(b.amount) else Lookup(bs, a)
    {
      FirstIs(bs[i := b], a, First(bs, a));
    }
  }

  lemma {:induction false} WithoutMember(bs: seq<Bond>, owner: Account, i: nat) returns (j: nat)
    requires i < |Without(bs, owner)|
    ensures j < |bs| && bs[j] == Without(bs, owner)[i]
  {
    j := |bs| - 1;
    if i < |Without(bs[..j], owner)| {
      j := WithoutMember(bs[..j], owner, i);
    }
  }

  lemma {:induction false} DistinctWithout(bs: seq<Bond>, owner: Account)
    requires Distinct(bs)
    ensures Distinct(Without(bs, owner))
  {
    if bs != [] {
      var n := |bs| - 1;
      var rest := Without(bs[..n], owner);
      DistinctWithout(bs[..n], owner);
      forall i | 0 <= i < |rest|
        ensures rest[i].owner != bs[n].owner
      {
        var j := WithoutMember(bs[..n], owner, i);
      }
    }
  }

  /** In a duplicate-free list the first, the last and the sum of an owner's bonds agree. */
  lemma {:induction false} DistinctHeld(bs: seq<Bond>, a: Account)
    requires Distinct(bs)
    ensures LastAmount(bs, a) == Lookup(bs, a)
    ensures Held(bs, a) == if Lookup(bs, a).Some? then Lookup(bs, a).value else 0
  {
    if bs != [] {
      var init, last := bs[..|bs| - 1], bs[|bs| - 1];
      DistinctHeld(init, a);
      assert bs == init + [last];
      LookupPush(init, last);
      LookupPresent(init, a);
    }
  }

  lemma {:induction false} LookupWithout(bs: seq<Bond>, owner: Account)
    ensures forall a :: Lookup(Without(bs, owner), a) == if a == owner then None else Lookup(bs, a)
  {
    if bs == [] {
    } else {
      var init, last := bs[..|bs| - 1], bs[|bs| - 1];
      LookupWithout(init, owner);
      assert bs == init + [last];
      LookupPush(init, last);
      LookupPush(Without(init, owner), last);
    }
  }

  // ---- slice::binary_search ----------------------------------------------

  /** The standard library's binary search on the owners of a slice of bonds. */
  function Search(bs: seq<Bond>, owner: Account, lo: nat, hi: nat): Option<nat>
    requires lo <= hi <= |bs|
    decreases hi - lo
  {
    if lo == hi then None
    else
      var mid := lo + (hi - lo) / 2;
      if bs[mid].owner < owner then Search(bs, owner, mid + 1, hi)
      else if bs[mid].owner > owner then Search(bs, owner, lo, mid)
      else Some(mid)
  }

  predicate Found(bs: seq<Bond>, owner: Account) {
    Search(bs, owner, 0, |bs|).Some?
  }

  ghost predicate Ascending(bs: seq<Bond>) {
    forall i, j :: 0 <= i < j < |bs| ==> bs[i].owner <= bs[j].owner
  }

  lemma {:induction false} SearchSound(bs: seq<Bond>, owner: Account, lo: nat, hi: nat)
    requires lo <= hi <= |bs|
    ensures var r := Search(bs, owner, lo, hi); r.Some? ==> lo <= r.value < hi && bs[r.value].owner == owner
    decreases hi - lo
  {
    if lo < hi {
      var mid := lo + (hi - lo) / 2;
      SearchSound(bs, owner, mid + 1, hi);
      SearchSound(bs, owner, lo, mid);
    }
  }

  lemma {:induction false} SearchComplete(bs: seq<Bond>, owner: Account, lo: nat, hi: nat)
    requires lo <= hi <= |bs|
    requires Ascending(bs)
    requires exists i :: lo <= i < hi && bs[i].owner == owner
    ensures Search(bs, owner, lo, hi).Some?
    decreases hi - lo
  {
    var i :| lo <= i < hi && bs[i].owner == owner;
    var mid := lo + (hi - lo) / 2;
    if bs[mid].owner < owner {
      SearchComplete(bs, owner, mid + 1, hi);
    } else if bs[mid].owner > owner {
      SearchComplete(bs, owner, lo, mid);
    }
  }

  /** A hit is always genuine; on an ascending list a miss is genuine too. */
  lemma FoundMeans(bs: seq<Bond>, owner: Account)
    ensures Found(bs, owner) ==> Lookup(bs, owner).Some?
    ensures Ascending(bs) ==> (Found(bs, owner) <==> Lookup(bs, owner).Some?)
  {
    SearchSound(bs, owner, 0, |bs|);
    if Ascending(bs) && Lookup(bs, owner).Some? {
      SearchComplete(bs, owner, 0, |bs|);
    }
  }
}

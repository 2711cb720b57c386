/**
 A small model of a reservable currency: per account a free and a reserved
 balance. `reserve` refuses when the free balance is too small, `unreserve`
 releases as much as there is. Locks, dust and the existential deposit are
 not part of this model.
 */
module Currency {
  import opened Entities

  datatype AccountData = AccountData(free: nat, reserved: nat) {
    function Unreserved(v: nat): AccountData {
      var actual := if v <= reserved then v else reserved;
      AccountData(free + actual, reserved - actual)
    }
  }

  type Balances = map<Account, AccountData>

  function Reserved(b: Balances, a: Account): nat { if a in b then b[a].reserved else 0 }

  function Free(b: Balances, a: Account): nat { if a in b then b[a].free else 0 }

  predicate CanReserve(b: Balances, a: Account, v: nat) { v <= Free(b, a) }

  function Reserve(b: Balances, a: Account, v: nat): Balances {
    if a in b && v <= b[a].free then b[a := AccountData(b[a].free - v, b[a].reserved + v)] else b
  }

  function Unreserve(b: Balances, a: Account, v: nat): Balances {
    if a in b then b[a := b[a].Unreserved(v)] else b
  }

  /** `deposit_into_existing`: accounts that do not exist get nothing. */
  function Deposit(b: Balances, a: Account, v: nat): Balances {
    if a in b then b[a := AccountData(b[a].free + v, b[a].reserved)] else b
  }

  /** Every account in `due` releases its amount. */
  function UnreserveEach(b: Balances, due: map<Account, nat>): Balances {
    map a | a in b :: if a in due then b[a].Unreserved(due[a]) else b[a]
  }

  function UnreserveChunks(b: Balances, a: Account, cs: seq<Chunk>): Balances {
    if cs == [] then b
    else Unreserve(UnreserveChunks(b, a, cs[..|cs| - 1]), a, cs[|cs| - 1].value)
  }

  function UnreserveBonds(b: Balances, bs: seq<Bond>): Balances {
    if bs == [] then b
    else Unreserve(UnreserveBonds(b, bs[..|bs| - 1]), bs[|bs| - 1].owner, bs[|bs| - 1].amount)
  }

  lemma UnreserveTwice(b: Balances, a: Account, v: nat, w: nat)
    ensures Unreserve(Unreserve(b, a, v), a, w) == Unreserve(b, a, v + w)
  {
  }

  /** Chunk by chunk or all at once: the account ends the same. */
  lemma {:induction false} UnreserveChunksIsTotal(b: Balances, a: Account, cs: seq<Chunk>)
    ensures UnreserveChunks(b, a, cs) == Unreserve(b, a, Total(cs))
  {
    if cs == [] {
      assert Unreserve(b, a, 0) == b;
    } else {
      UnreserveChunksIsTotal(b, a, cs[..|cs| - 1]);
      UnreserveTwice(b, a, Total(cs[..|cs| - 1]), cs[|cs| - 1].value);
    }
  }

  /** What an account keeps reserved when bonds are released. */
  lemma {:induction false} UnreserveBondsReserved(b: Balances, bs: seq<Bond>, a: Account)
    ensures Reserved(UnreserveBonds(b, bs), a)
         == if Held(bs, a) <= Reserved(b, a) then Reserved(b, a) - Held(bs, a) else 0
    ensures UnreserveBonds(b, bs).Keys == b.Keys
  {
    if bs != [] {
      UnreserveBondsReserved(b, bs[..|bs| - 1], a);
    }
  }

  /** Two books agree on what every account owns, free and reserved together. */
  ghost predicate SameWealth(b: Balances, c: Balances) {
    b.Keys == c.Keys && forall a :: a in b ==> b[a].free + b[a].reserved == c[a].free + c[a].reserved
  }

  lemma {:induction false} UnreserveBondsWealth(b: Balances, bs: seq<Bond>)
    ensures SameWealth(b, UnreserveBonds(b, bs))
  {
    if bs != [] {
      UnreserveBondsWealth(b, bs[..|bs| - 1]);
    }
  }
}

/**
 When unbonding funds come free. The history of a run lists every chunk an
 account put into unbonding, with the round it did so; the storage and the
 releases are then determined by the history and the current round alone,
 exactly as long as no exit overwrites an earlier one and no bulk release is early.
 */
module TimeLock {
  import opened Options
  import opened Entities
  import opened Currency
  import opened PerThing
  import opened Staking
  import opened Soundness
  import opened Mirror
  import opened Backing

  /** The three ways to wait for funds: what was taken off a stake, off a nomination, and a stake that leaves. */
  datatype Side = AsCollator | AsNominator | AsLeaver

  /** The chunks a leaving collator took along. */
  function ExitChunks(s: Storage, a: Account): seq<Chunk> {
    if a in s.exitQueue then s.exitQueue[a].unbonding else []
  }

  function CollatorChunks(s: Storage, a: Account): seq<Chunk> {
    if a in s.collators then s.collators[a].unbonding else []
  }

  /** What an account has in unbonding, oldest first. */
  function Bucket(s: Storage, side: Side, a: Account): seq<Chunk> {
    match side
    case AsCollator => ExitChunks(s, a) + CollatorChunks(s, a)
    case AsNominator => if a in s.nominators then s.nominators[a].unbonding else []
    case AsLeaver => if a in s.exitQueue then [Chunk(s.exitQueue[a].remaining, s.exitQueue[a].when)] else []
  }

  /** A chunk with the round in which it was put into unbonding. */
  datatype Entry = Entry(chunk: Chunk, at: nat) {
    /** The first round, after the one it was made in, that reaches the chunk's round. */
    function DueRound(): nat { Max(chunk.round, at + 1) }
  }

  /** The amount a call puts into unbonding: released `bondDuration` rounds on at the earliest. */
  ghost function MadeAmount(p: Params, s: Storage, call: Call, side: Side, a: Account): Option<nat> {
    if Step(p, s, call).1.Err? then None
    else match side
      case AsCollator => if call.CallBondLess? && call.who == a then Some(call.less) else None
      case AsNominator =>
        if call.CallNominateLess? && call.who == a then Some(call.less)
        else if call.CallNominatorLeaveCollator? && call.who == a then
          LastAmount(Nominations(s, a), call.candidate)
        else None
      case AsLeaver =>
        if call == CallCollatorUnbond(a) && a in s.collators then Some(s.collators[a].active) else None
  }

  ghost function Made(p: Params, s: Storage, call: Call, side: Side, a: Account): seq<Entry> {
    match MadeAmount(p, s, call, side, a)
    case None => []
    case Some(v) => [Entry(Chunk(v, WithdrawRound(s)), s.round.index)]
  }

  /** What a switch to `round` releases to `a` on one side; a due exit releases all its chunks at once. */
  ghost function ReleasedAt(s: Storage, round: nat, side: Side, a: Account): nat {
    match side
    case AsCollator =>
      (if a in s.exitQueue && s.exitQueue[a].when <= round then Total(ExitChunks(s, a))
       else DueTotal(ExitChunks(s, a), round)) + DueTotal(CollatorChunks(s, a), round)
    case AsNominator => DueTotal(Bucket(s, AsNominator, a), round)
    case AsLeaver => if a in s.exitQueue && s.exitQueue[a].when <= round then s.exitQueue[a].remaining else 0
  }

  ghost function Released(s: Storage, call: Call, side: Side, a: Account): nat {
    if Switches(s, call) then ReleasedAt(s, s.round.index + 1, side, a) else 0
  }

  /** Together the three sides release what the reserve is asked for at a switch, and get it. */
  lemma SidesAreTheRelease(p: Params, s: Storage, call: Call, a: Account)
    requires Sound(p, s) && Backed(s) && Switches(s, call)
    ensures Reserved(Next(p, s, call).balances, a) == Reserved(s.balances, a)
      - Released(s, call, AsCollator, a) - Released(s, call, AsNominator, a) - Released(s, call, AsLeaver, a)
  {
    hide BeforeElection, EnactElection, Backed;
    SwitchReleasesInFull(p, s, s.block + 1, a);
    AfterElection(p, BeforeElection(p, s, s.block + 1), call.supports, call.issuance, s.block + 1);
    NothingDue(s.round.index + 1);
  }

  lemma NothingDue(round: nat)
    ensures DueTotal([], round) == 0 && Kept([], round) == [] && Total([]) == 0
  {
  }

  ghost function History(p: Params, s: Storage, calls: seq<Call>, side: Side, a: Account): seq<Entry> {
    if calls == [] then []
    else
      var init := calls[..|calls| - 1];
      History(p, s, init, side, a) + Made(p, Run(p, s, init), calls[|calls| - 1], side, a)
  }

  ghost function Paid(p: Params, s: Storage, calls: seq<Call>, side: Side, a: Account): nat {
    if calls == [] then 0
    else
      var init := calls[..|calls| - 1];
      Paid(p, s, init, side, a) + Released(Run(p, s, init), calls[|calls| - 1], side, a)
  }

  // ---- What a history determines -----------------------------------------

  ghost function Outstanding(h: seq<Entry>, round: nat): seq<Chunk> {
    if h == [] then []
    else
      var rest := Outstanding(h[..|h| - 1], round);
      if h[|h| - 1].DueRound() > round then rest + [h[|h| - 1].chunk] else rest
  }

  ghost function Matured(h: seq<Entry>, round: nat): nat {
    if h == [] then 0
    else Matured(h[..|h| - 1], round) + (if h[|h| - 1].DueRound() > round then 0 else h[|h| - 1].chunk.value)
  }

  ghost predicate MadeBy(h: seq<Entry>, round: nat) {
    h == [] || (MadeBy(h[..|h| - 1], round) && h[|h| - 1].at <= round)
  }

  lemma {:induction false} MadeByLater(h: seq<Entry>, round: nat)
    requires MadeBy(h, round)
    ensures MadeBy(h, round + 1)
  {
    if h != [] {
      MadeByLater(h[..|h| - 1], round);
    }
  }

  /** A new entry is outstanding at once. */
  lemma HistoryPush(h: seq<Entry>, e: Entry, round: nat)
    requires e.at == round
    ensures Outstanding(h + [e], round) == Outstanding(h, round) + [e.chunk]
    ensures Matured(h + [e], round) == Matured(h, round)
    ensures MadeBy(h, round) ==> MadeBy(h + [e], round)
  {
    assert (h + [e])[..|h|] == h;
  }

  lemma KeptPush(cs: seq<Chunk>, c: Chunk, round: nat)
    ensures Kept(cs + [c], round) == if c.round > round then Kept(cs, round) + [c] else Kept(cs, round)
    ensures DueTotal(cs + [c], round) == DueTotal(cs, round) + (if c.round > round then 0 else c.value)
  {
    assert (cs + [c])[..|cs|] == cs;
    TotalPush(Due(cs, round), c);
  }

  /** A switch releases exactly the entries that become due with it. */
  lemma {:induction false} HistorySwitch(h: seq<Entry>, round: nat)
    requires MadeBy(h, round)
    ensures Outstanding(h, round + 1) == Kept(Outstanding(h, round), round + 1)
    ensures Matured(h, round + 1) == Matured(h, round) + DueTotal(Outstanding(h, round), round + 1)
  {
    if h != [] {
      var init, last := h[..|h| - 1], h[|h| - 1];
      HistorySwitch(init, round);
      KeptPush(Outstanding(init, round), last.chunk, round + 1);
    }
  }

  lemma {:induction false} KeptJoin(cs: seq<Chunk>, ds: seq<Chunk>, round: nat)
    ensures Kept(cs + ds, round) == Kept(cs, round) + Kept(ds, round)
    ensures DueTotal(cs + ds, round) == DueTotal(cs, round) + DueTotal(ds, round)
    ensures Total(cs + ds) == Total(cs) + Total(ds)
  {
    hide Kept, DueTotal, Total;
    NothingDue(round);
    if ds == [] {
      assert cs + ds == cs && Kept(cs, round) + [] == Kept(cs, round);
    } else {
      var init, last := ds[..|ds| - 1], ds[|ds| - 1];
      KeptJoin(cs, init, round);
      assert cs + ds == cs + init + [last] && ds == init + [last];
      KeptPush(cs + init, last, round);
      KeptPush(init, last, round);
      TotalPush(cs + init, last);
      TotalPush(init, last);
    }
  }

  lemma {:induction false} NoneAfterIffAllDue(cs: seq<Chunk>, round: nat)
    ensures NoneAfter(cs, round) <==> Kept(cs, round) == []
  {
    if cs != [] {
      NoneAfterIffAllDue(cs[..|cs| - 1], round);
    }
  }

  // ---- One step ----------------------------------------------------------

  /** An exit while an earlier one is still queued: the entry is replaced. */
  predicate Overwrites(s: Storage, call: Call, side: Side, a: Account) {
    && call == CallCollatorUnbond(a)
    && a in s.collators
    && a in s.exitQueue
    && (side == AsLeaver || (side == AsCollator && s.exitQueue[a].unbonding != []))
  }

  /** An exit due at a switch to `r` that still holds a chunk of a later round. */
  ghost predicate PaysEarly(s: Storage, r: nat, side: Side, a: Account) {
    side == AsCollator && a in s.exitQueue && s.exitQueue[a].when <= r && !NoneAfter(ExitChunks(s, a), r)
  }

  ghost predicate ReleasesEarly(s: Storage, call: Call, side: Side, a: Account) {
    Switches(s, call) && PaysEarly(s, s.round.index + 1, side, a)
  }

  ghost predicate Breaks(s: Storage, call: Call, side: Side, a: Account) {
    Overwrites(s, call, side, a) || ReleasesEarly(s, call, side, a)
  }

  /** `t` holds the records of `s` after a switch to `r`, as far as unbonding goes. */
  ghost predicate Moved(s: Storage, t: Storage, r: nat) {
    && t.collators == Advanced(s.collators, r)
    && t.nominators == Consolidated(s.nominators, r)
    && t.exitQueue == StillLeaving(s.exitQueue, r)
  }

  lemma SwitchMoves(p: Params, s: Storage, call: Call)
    requires Switches(s, call)
    ensures Moved(s, Next(p, s, call), s.round.index + 1)
    ensures Next(p, s, call).round.index == s.round.index + 1
  {
    hide BeforeElection, EnactElection, Advanced, Consolidated, StillLeaving;
    AfterSwitch(p, s, s.block + 1);
    AfterElection(p, BeforeElection(p, s, s.block + 1), call.supports, call.issuance, s.block + 1);
  }

  lemma SideSwitch(s: Storage, t: Storage, r: nat, side: Side, a: Account)
    requires Moved(s, t, r)
    ensures Bucket(t, side, a) == Kept(Bucket(s, side, a), r) <==> !PaysEarly(s, r, side, a)
    ensures !PaysEarly(s, r, side, a) ==> ReleasedAt(s, r, side, a) == DueTotal(Bucket(s, side, a), r)
    ensures Total(Bucket(t, side, a)) + ReleasedAt(s, r, side, a) == Total(Bucket(s, side, a))
  {
    match side
    case AsCollator =>
      hide Kept, DueTotal, Total, NoneAfter, Bucket, ReleasedAt;
      CollatorSwitch(s, t, r, a);
    case AsNominator => NominatorSwitch(s, t, r, a);
    case AsLeaver => LeaverSwitch(s, t, r, a);
  }

  lemma NominatorSwitch(s: Storage, t: Storage, r: nat, a: Account)
    requires t.nominators == Consolidated(s.nominators, r)
    ensures Bucket(t, AsNominator, a) == Kept(Bucket(s, AsNominator, a), r)
    ensures Total(Bucket(t, AsNominator, a)) + ReleasedAt(s, r, AsNominator, a) == Total(Bucket(s, AsNominator, a))
  {
    hide Kept, DueTotal, Total;
    NothingDue(r);
    KeptAndDue(Bucket(s, AsNominator, a), r);
  }

  lemma LeaverSwitch(s: Storage, t: Storage, r: nat, a: Account)
    requires t.exitQueue == StillLeaving(s.exitQueue, r)
    ensures Bucket(t, AsLeaver, a) == Kept(Bucket(s, AsLeaver, a), r)
    ensures ReleasedAt(s, r, AsLeaver, a) == DueTotal(Bucket(s, AsLeaver, a), r)
    ensures Total(Bucket(t, AsLeaver, a)) + ReleasedAt(s, r, AsLeaver, a) == Total(Bucket(s, AsLeaver, a))
  {
    hide Kept, DueTotal, Total;
    NothingDue(r);
    if a in s.exitQueue {
      var c := Chunk(s.exitQueue[a].remaining, s.exitQueue[a].when);
      assert [] + [c] == [c];
      KeptPush([], c, r);
      TotalPush([], c);
    }
  }

  lemma SwitchBucket(p: Params, s: Storage, call: Call, side: Side, a: Account)
    requires Switches(s, call)
    ensures Bucket(Next(p, s, call), side, a) == Kept(Bucket(s, side, a), s.round.index + 1)
       <==> !ReleasesEarly(s, call, side, a)
    ensures !ReleasesEarly(s, call, side, a) ==>
              Released(s, call, side, a) == DueTotal(Bucket(s, side, a), s.round.index + 1)
    ensures Total(Bucket(Next(p, s, call), side, a)) + Released(s, call, side, a) == Total(Bucket(s, side, a))
    ensures Next(p, s, call).round.index == s.round.index + 1
  {
    hide Next, Moved, Bucket, ReleasedAt, Kept, DueTotal, Total, NoneAfter;
    SwitchMoves(p, s, call);
    SideSwitch(s, Next(p, s, call), s.round.index + 1, side, a);
  }

  /** The chunks on the collator's side at a switch to `r`. */
  lemma CollatorSwitch(s: Storage, t: Storage, r: nat, a: Account)
    requires t.collators == Advanced(s.collators, r) && t.exitQueue == StillLeaving(s.exitQueue, r)
    ensures Bucket(t, AsCollator, a) == Kept(Bucket(s, AsCollator, a), r) <==> !PaysEarly(s, r, AsCollator, a)
    ensures !PaysEarly(s, r, AsCollator, a) ==>
              ReleasedAt(s, r, AsCollator, a) == DueTotal(Bucket(s, AsCollator, a), r)
    ensures Total(Bucket(t, AsCollator, a)) + ReleasedAt(s, r, AsCollator, a) == Total(Bucket(s, AsCollator, a))
  {
    hide Kept, DueTotal, Total, NoneAfter;
    var e, c := ExitChunks(s, a), CollatorChunks(s, a);
    NothingDue(r);
    KeptJoin(e, c, r);
    KeptAndDue(c, r);
    KeptAndDue(e, r);
    NoneAfterIffAllDue(e, r);
    KeptJoin(ExitChunks(t, a), CollatorChunks(t, a), r);
    assert CollatorChunks(t, a) == Kept(c, r);
    if a in s.exitQueue && s.exitQueue[a].when <= r {
      assert ExitChunks(t, a) == [];
      if NoneAfter(e, r) {
        AllDue(e, r);
        assert DueTotal(e, r) == Total(e);
      }
      assert |Bucket(t, AsCollator, a)| == |Kept(c, r)|;
    } else {
      assert ExitChunks(t, a) == Kept(e, r);
    }
  }

  function ChunksOf(es: seq<Entry>): seq<Chunk> {
    if es == [] then [] else ChunksOf(es[..|es| - 1]) + [es[|es| - 1].chunk]
  }

  lemma CallBucket(p: Params, s: Storage, call: Call, side: Side, a: Account)
    requires !Switches(s, call)
    ensures Bucket(Next(p, s, call), side, a) == Bucket(s, side, a) + ChunksOf(Made(p, s, call, side, a))
       <==> !Overwrites(s, call, side, a)
    ensures Next(p, s, call).round.index == s.round.index
  {
    hide Next, Made, MadeAmount, Bucket, ChunksOf;
    ChunksOfMade(p, s, call, side, a);
    if call == CallCollatorUnbond(a) && a in s.collators {
      ExitCallBucket(p, s, side, a);
    } else {
      OtherBucket(p, s, call, side, a);
    }
  }

  lemma ExitCallBucket(p: Params, s: Storage, side: Side, a: Account)
    requires a in s.collators
    ensures var call := CallCollatorUnbond(a);
      && (Bucket(Next(p, s, call), side, a) == Bucket(s, side, a) + ChunksOf(Made(p, s, call, side, a))
          <==> !Overwrites(s, call, side, a))
      && Next(p, s, call).round.index == s.round.index
  {
    hide UnreserveBonds, ChunksOf;
    ExitBucket(p, s, side, a);
    ChunksOfMade(p, s, CallCollatorUnbond(a), side, a);
    if side == AsCollator {
      assert |Bucket(s, side, a)| == |ExitChunks(s, a)| + |CollatorChunks(s, a)|;
    }
  }

  /** Between switches and exits every call is accounted for side by side. */
  lemma OtherBucket(p: Params, s: Storage, call: Call, side: Side, a: Account)
    requires !Switches(s, call) && !(call == CallCollatorUnbond(a) && a in s.collators)
    ensures Bucket(Next(p, s, call), side, a) == Bucket(s, side, a) + ChunksOf(Made(p, s, call, side, a))
    ensures Next(p, s, call).round.index == s.round.index
  {
    hide Made, ChunksOf, Next, Bucket, MadeAmount;
    ChunksOfMade(p, s, call, side, a);
    SameRound(p, s, call);
    var b := Bucket(s, side, a);
    assert b + [] == b;
    match side
    case AsCollator => CollatorPush(p, s, call, a);
    case AsNominator => NominatorPush(p, s, call, a);
    case AsLeaver => LeaverPush(p, s, call, a);
  }

  lemma SameRound(p: Params, s: Storage, call: Call)
    requires !Switches(s, call)
    ensures Next(p, s, call).round == s.round
  {
    hide BeforeElection, EnactElection, RecordTotals, Reserve, UnreserveBonds;
    hide Found, Lookup, Raised, Lowered, Without, LastAmount;
  }

  function Push(cs: seq<Chunk>, v: Option<nat>, round: nat): seq<Chunk> {
    if v.Some? then cs + [Chunk(v.value, round)] else cs
  }

  lemma CollatorPush(p: Params, s: Storage, call: Call, a: Account)
    requires !Switches(s, call) && !(call == CallCollatorUnbond(a) && a in s.collators)
    ensures Bucket(Next(p, s, call), AsCollator, a)
         == Push(Bucket(s, AsCollator, a), MadeAmount(p, s, call, AsCollator, a), WithdrawRound(s))
  {
    hide Next, MadeAmount;
    LivePush(p, s, call, a);
    LeaverPush(p, s, call, a);
    if MadeAmount(p, s, call, AsCollator, a).Some? {
      var c := Chunk(MadeAmount(p, s, call, AsCollator, a).value, WithdrawRound(s));
      assert ExitChunks(s, a) + (CollatorChunks(s, a) + [c]) == ExitChunks(s, a) + CollatorChunks(s, a) + [c];
    }
  }

  lemma LivePush(p: Params, s: Storage, call: Call, a: Account)
    requires !Switches(s, call) && !(call == CallCollatorUnbond(a) && a in s.collators)
    ensures CollatorChunks(Next(p, s, call), a)
         == Push(CollatorChunks(s, a), MadeAmount(p, s, call, AsCollator, a), WithdrawRound(s))
  {
    hide BeforeElection, EnactElection, RecordTotals, Reserve, UnreserveBonds;
    hide Found, Lookup, Raised, Lowered, Without, LastAmount;
  }

  lemma NominatorPush(p: Params, s: Storage, call: Call, a: Account)
    requires !Switches(s, call)
    ensures Bucket(Next(p, s, call), AsNominator, a)
         == Push(Bucket(s, AsNominator, a), MadeAmount(p, s, call, AsNominator, a), WithdrawRound(s))
  {
    hide BeforeElection, EnactElection, RecordTotals, Reserve, UnreserveBonds;
    hide Found, Lookup, Raised, Lowered, Without, LastAmount;
  }

  lemma LeaverPush(p: Params, s: Storage, call: Call, a: Account)
    requires !Switches(s, call) && !(call == CallCollatorUnbond(a) && a in s.collators)
    ensures Bucket(Next(p, s, call), AsLeaver, a)
         == Push(Bucket(s, AsLeaver, a), MadeAmount(p, s, call, AsLeaver, a), WithdrawRound(s))
    ensures ExitChunks(Next(p, s, call), a) == ExitChunks(s, a)
  {
    hide BeforeElection, EnactElection, RecordTotals, Reserve, UnreserveBonds;
    hide Found, Lookup, Raised, Lowered, Without, LastAmount;
  }

  lemma ExitBucket(p: Params, s: Storage, side: Side, a: Account)
    requires a in s.collators
    ensures var t := CollatorUnbond(s, a).0;
      match side
      case AsCollator => Bucket(t, side, a) == CollatorChunks(s, a)
      case AsNominator => Bucket(t, side, a) == Bucket(s, side, a)
      case AsLeaver => Bucket(t, side, a) == [Chunk(s.collators[a].active, WithdrawRound(s))]
  {
    hide UnreserveBonds;
  }

  /** A call makes one entry at most, in the current round. */
  lemma ChunksOfMade(p: Params, s: Storage, call: Call, side: Side, a: Account)
    ensures var made := Made(p, s, call, side, a);
      match MadeAmount(p, s, call, side, a)
      case None => made == [] && ChunksOf(made) == []
      case Some(v) => |made| == 1 && made[0].at == s.round.index && ChunksOf(made) == [Chunk(v, WithdrawRound(s))]
                      && made[0].chunk == Chunk(v, WithdrawRound(s))
  {
    hide MadeAmount;
    var made := Made(p, s, call, side, a);
    if made != [] {
      assert made[..0] == [];
    }
  }

  /** The bucket and the releases so far agree with the history. */
  ghost predicate Accounted(s: Storage, h: seq<Entry>, paid: nat, side: Side, a: Account) {
    && MadeBy(h, s.round.index)
    && Bucket(s, side, a) == Outstanding(h, s.round.index)
    && paid == Matured(h, s.round.index)
  }

  lemma SwitchAccounted(p: Params, s: Storage, call: Call, h: seq<Entry>, paid: nat, side: Side, a: Account)
    requires Accounted(s, h, paid, side, a) && Switches(s, call)
    ensures Accounted(Next(p, s, call), h, paid + Released(s, call, side, a), side, a)
       <==> !ReleasesEarly(s, call, side, a)
  {
    hide Next, Bucket, Outstanding, Matured, MadeBy, DueTotal, ReleasesEarly, Released, Switches;
    SwitchBucket(p, s, call, side, a);
    HistorySwitch(h, s.round.index);
    MadeByLater(h, s.round.index);
  }

  lemma CallAccounted(p: Params, s: Storage, call: Call, h: seq<Entry>, paid: nat, side: Side, a: Account)
    requires Accounted(s, h, paid, side, a) && !Switches(s, call)
    ensures Accounted(Next(p, s, call), h + Made(p, s, call, side, a), paid, side, a)
       <==> !Overwrites(s, call, side, a)
  {
    hide Next, Bucket, Made, MadeAmount, Outstanding, Matured, MadeBy, Overwrites, Switches;
    var made := Made(p, s, call, side, a);
    CallBucket(p, s, call, side, a);
    ChunksOfMade(p, s, call, side, a);
    if made == [] {
      assert h + made == h;
      assert Bucket(s, side, a) + [] == Bucket(s, side, a);
    } else {
      assert made == [made[0]];
      HistoryPush(h, made[0], s.round.index);
    }
  }

  /** Exactly when a step keeps that: the two guards above are the only ways to lose track of a chunk. */
  lemma StepTimeLockIff(p: Params, s: Storage, call: Call, h: seq<Entry>, paid: nat, side: Side, a: Account)
    requires Accounted(s, h, paid, side, a)
    ensures Accounted(Next(p, s, call), h + Made(p, s, call, side, a), paid + Released(s, call, side, a), side, a)
       <==> !Breaks(s, call, side, a)
  {
    hide Next, Made, Accounted, Released, Overwrites, ReleasesEarly;
    if Switches(s, call) {
      SwitchAccounted(p, s, call, h, paid, side, a);
      NothingMade(p, s, call, side, a);
      assert h + [] == h;
      NoOverwriteAtSwitch(s, call, side, a);
    } else {
      CallAccounted(p, s, call, h, paid, side, a);
      NothingReleased(s, call, side, a);
      NotEarlyBetween(s, call, side, a);
    }
  }

  lemma NothingMade(p: Params, s: Storage, call: Call, side: Side, a: Account)
    requires Switches(s, call)
    ensures Made(p, s, call, side, a) == []
  {
    hide OnFinalize;
  }

  lemma NothingReleased(s: Storage, call: Call, side: Side, a: Account)
    requires !Switches(s, call)
    ensures Released(s, call, side, a) == 0
  {
  }

  lemma NoOverwriteAtSwitch(s: Storage, call: Call, side: Side, a: Account)
    requires Switches(s, call)
    ensures !Overwrites(s, call, side, a)
  {
  }

  lemma NotEarlyBetween(s: Storage, call: Call, side: Side, a: Account)
    requires !Switches(s, call)
    ensures !ReleasesEarly(s, call, side, a)
  {
  }

  // ---- Every run ---------------------------------------------------------

  /** The law at the end of a run. */
  ghost predicate OnTime(p: Params, s: Storage, calls: seq<Call>, side: Side, a: Account) {
    Accounted(Run(p, s, calls), History(p, s, calls, side, a), Paid(p, s, calls, side, a), side, a)
  }

  ghost predicate OnTimeThroughout(p: Params, s: Storage, calls: seq<Call>, side: Side, a: Account) {
    OnTime(p, s, calls, side, a) && (calls == [] || OnTimeThroughout(p, s, calls[..|calls| - 1], side, a))
  }

  /** No step of the run overwrites an exit or pays a chunk early. */
  ghost predicate Unbroken(p: Params, s: Storage, calls: seq<Call>, side: Side, a: Account) {
    calls == [] ||
    var init := calls[..|calls| - 1];
    Unbroken(p, s, init, side, a) && !Breaks(Run(p, s, init), calls[|calls| - 1], side, a)
  }

  lemma OnTimeStep(p: Params, s: Storage, calls: seq<Call>, side: Side, a: Account)
    requires calls != [] && OnTime(p, s, calls[..|calls| - 1], side, a)
    ensures OnTime(p, s, calls, side, a) <==> !Breaks(Run(p, s, calls[..|calls| - 1]), calls[|calls| - 1], side, a)
  {
    hide Next, Made, Accounted, Released, Breaks;
    var init, last := calls[..|calls| - 1], calls[|calls| - 1];
    StepTimeLockIff(p, Run(p, s, init), last, History(p, s, init, side, a), Paid(p, s, init, side, a), side, a);
  }

  lemma {:induction false} RunTimeLockIff(p: Params, s: Storage, calls: seq<Call>, side: Side, a: Account)
    requires Bucket(s, side, a) == []
    ensures OnTimeThroughout(p, s, calls, side, a) <==> Unbroken(p, s, calls, side, a)
  {
    if calls != [] {
      hide OnTime, Breaks, Run;
      var init := calls[..|calls| - 1];
      RunTimeLockIff(p, s, init, side, a);
      if OnTimeThroughout(p, s, init, side, a) {
        OnTimeStep(p, s, calls, side, a);
      }
    } else {
      hide Bucket;
    }
  }

  lemma GenesisEmpty(p: Params, balances: Balances, stakers: seq<Staker>, issuance: nat, side: Side, a: Account)
    ensures Bucket(Genesis(p, balances, stakers, issuance), side, a) == []
  {
    GenesisBondsFresh(p, balances, stakers);
  }

  /**
   From any genesis, for the chunks an account took off its stake (carried into
   an exit or not), for those off its nominations and for the stake it leaves
   with: throughout the run those outstanding are exactly the ones of the
   history that are not due yet, in order, and what was released is exactly the
   sum of the others. So each is released once, never before its round, at the
   first switch that reaches it, and this holds exactly when no step of the run
   meets one of the two guards.
   */
  lemma ReleasedOnceAndOnTime(p: Params, balances: Balances, stakers: seq<Staker>, issuance: nat,
                              calls: seq<Call>, side: Side, a: Account)
    ensures var g := Genesis(p, balances, stakers, issuance);
      OnTimeThroughout(p, g, calls, side, a) <==> Unbroken(p, g, calls, side, a)
    ensures side == AsNominator ==> OnTime(p, Genesis(p, balances, stakers, issuance), calls, side, a)
  {
    hide Genesis, OnTime;
    var g := Genesis(p, balances, stakers, issuance);
    GenesisEmpty(p, balances, stakers, issuance, side, a);
    RunTimeLockIff(p, g, calls, side, a);
    if side == AsNominator {
      NominatorsUnbroken(p, g, calls, a);
    }
  }

  lemma {:induction false} NominatorsUnbroken(p: Params, s: Storage, calls: seq<Call>, a: Account)
    ensures Unbroken(p, s, calls, AsNominator, a)
  {
    if calls != [] {
      NominatorsUnbroken(p, s, calls[..|calls| - 1], a);
    }
  }

  // ---- Nothing is lost elsewhere -----------------------------------------

  /** What an exit overwrites. */
  function Overwritten(s: Storage, call: Call, side: Side, a: Account): nat {
    if call != CallCollatorUnbond(a) || a !in s.collators then 0
    else match side
      case AsCollator => Total(ExitChunks(s, a))
      case AsNominator => 0
      case AsLeaver => Total(Bucket(s, AsLeaver, a))
  }

  ghost function Lost(p: Params, s: Storage, calls: seq<Call>, side: Side, a: Account): nat {
    if calls == [] then 0
    else
      var init := calls[..|calls| - 1];
      Lost(p, s, init, side, a) + Overwritten(Run(p, s, init), calls[|calls| - 1], side, a)
  }

  lemma StepConserves(p: Params, s: Storage, call: Call, side: Side, a: Account)
    ensures Total(Bucket(s, side, a)) + Total(ChunksOf(Made(p, s, call, side, a)))
         == Total(Bucket(Next(p, s, call), side, a)) + Released(s, call, side, a) + Overwritten(s, call, side, a)
  {
    hide Next, Bucket, Made, MadeAmount, Released, Kept, DueTotal, Total;
    var made := Made(p, s, call, side, a);
    ChunksOfMade(p, s, call, side, a);
    NothingDue(0);
    if Switches(s, call) {
      SwitchBucket(p, s, call, side, a);
      NothingMade(p, s, call, side, a);
    } else {
      NothingReleased(s, call, side, a);
      if call == CallCollatorUnbond(a) && a in s.collators {
        ExitConserves(p, s, side, a);
      } else {
        CallBucket(p, s, call, side, a);
        KeptJoin(Bucket(s, side, a), ChunksOf(made), 0);
      }
    }
  }

  lemma ExitConserves(p: Params, s: Storage, side: Side, a: Account)
    requires a in s.collators
    ensures var call := CallCollatorUnbond(a);
      Total(Bucket(s, side, a)) + Total(ChunksOf(Made(p, s, call, side, a)))
      == Total(Bucket(Next(p, s, call), side, a)) + Overwritten(s, call, side, a)
  {
    hide Total, UnreserveBonds;
    ExitBucket(p, s, side, a);
    ChunksOfMade(p, s, CallCollatorUnbond(a), side, a);
    KeptJoin(ExitChunks(s, a), CollatorChunks(s, a), 0);
    NothingDue(0);
  }

  lemma {:induction false} ChunksJoin(h: seq<Entry>, made: seq<Entry>)
    ensures Total(ChunksOf(h + made)) == Total(ChunksOf(h)) + Total(ChunksOf(made))
  {
    if made == [] {
      assert h + made == h;
    } else {
      var init, last := made[..|made| - 1], made[|made| - 1];
      ChunksJoin(h, init);
      assert (h + made)[..|h + made| - 1] == h + init;
      TotalPush(ChunksOf(h + init), last.chunk);
      TotalPush(ChunksOf(init), last.chunk);
    }
  }

  lemma {:induction false} RunConserves(p: Params, s: Storage, calls: seq<Call>, side: Side, a: Account)
    requires Bucket(s, side, a) == []
    ensures Total(ChunksOf(History(p, s, calls, side, a)))
         == Total(Bucket(Run(p, s, calls), side, a)) + Paid(p, s, calls, side, a) + Lost(p, s, calls, side, a)
  {
    if calls != [] {
      hide Next, Bucket, Made, Released, Overwritten, ChunksOf, Total;
      var init, last := calls[..|calls| - 1], calls[|calls| - 1];
      RunConserves(p, s, init, side, a);
      StepConserves(p, Run(p, s, init), last, side, a);
      ChunksJoin(History(p, s, init, side, a), Made(p, Run(p, s, init), last, side, a));
    }
  }

  /** Over any run whatever: all that went into unbonding is waiting, was released or was overwritten by an exit. */
  lemma UnbondingConserved(p: Params, balances: Balances, stakers: seq<Staker>, issuance: nat,
                           calls: seq<Call>, side: Side, a: Account)
    ensures var g := Genesis(p, balances, stakers, issuance);
      Total(ChunksOf(History(p, g, calls, side, a)))
      == Total(Bucket(Run(p, g, calls), side, a)) + Paid(p, g, calls, side, a) + Lost(p, g, calls, side, a)
  {
    GenesisEmpty(p, balances, stakers, issuance, side, a);
    RunConserves(p, Genesis(p, balances, stakers, issuance), calls, side, a);
  }
}

# Verified model of the PolkaFoundry staking and crowdloan pallets

This project models the staking ledger and its round switch, the fixed-point
inflation curve behind its payouts, and the vesting of crowdloan rewards, and
proves what holds over whole runs. `dafny verify dfyconfig.toml` checks it.

## How it is built

- `Staking.dfy` is the staking pallet as a state machine: storage, calls, round
  switch, genesis and runs. `Pallet.dfy` is the same pallet as a class whose
  methods change storage maps in place and whose loops visit entries in any
  order; every method is proved to make exactly the step of the state machine.
- `Acceptance`, `Soundness`, `Coverage`, `StakedTotal`, `Mirror`, `Backing`,
  `Conservation`, `TimeLock`, `ExitQueue`, `Schedule` and `Records` prove what
  holds of every run from every genesis, or exactly when a step or a run keeps it;
  `Elections`, `Shares`, `Payouts` and `TotalPayout` do so for rewards.
  `Counterexamples` holds the runs that show where a hypothesis is needed.
- `Limbs`, `Taylor`, `PerThing` and `Inflation` are the numeric part;
  `TaylorError`, `Exponential`, `Reciprocal` and `Truncation` measure how far it
  is from the exact series, `Curve` and `RoundPayouts` say what curve it is.
- `Crowdloan.dfy` holds the vesting pallet, as a state machine and as a class;
  `CrowdloanVesting` and `CrowdloanLinks` say what its claims and links come to.
- `Entities`, `Currency`, `Sums`, `Division`, `Options` and `Visiting` are shared ground.

Totals that the program decreases without a check are integers here, so that an
underflow would show as a negative value; the loops of the class report it.

## What the proofs say about the code

- Reserved funds are accounted for to the unit. From a genesis whose stakers
  could pay, over a run that never owes more than it holds, an account's reserve
  is what it started with, plus what the pallet owes it, plus what its own exits
  stranded, less deposits whose discarded reserve failed and less what leaving a
  collator overdrew. The last two vanish when every reserve succeeds and every
  search on a nominator's own list is exact. Stranding is real: `collator_unbond`
  keeps `active` and `unbonding` but drops `unlocking`, and overwrites an earlier
  exit entry (the error `AlreadyInQueue` exists and is never raised).
- `nominate` writes the nominator's record before its last check. The binary
  search runs on a list that is only appended to, so it can miss; then the
  nominator lists a collator twice, or the call fails with its write in place
  and the staked total can fall below the ledger. With exact searches neither
  happens. Both directions are proved.
- Every unbonding chunk is released once and on time, through the exit queue
  too, exactly as long as no exit overwrites a queued one and no bulk release is
  early; the latter needs a shortened bond duration.
- The staked total is lowered by the last payment of an exit only, so it keeps
  what the exit was paid before; what collators are released is never taken off
  it. The equation for every step and every run says by how much it is too high.
- A payout may mint up to one and a half times its amount, since commissions
  come on top of the shares; a case that mints exactly that is given.
- The inflation series is accurate to 150 units for every supported falloff,
  although its terms grow far beyond the result: a truncation is carried into
  later terms with alternating signs, and its weight never exceeds one. So the
  curve halves with every falloff, and the payouts listed in the tests follow. (The
  test of the curve itself, pallets/polkafoundry-staking/src/inflation.rs:96-124,
  only declares an inner function and never calls it.)
- A claim in the last block of a reward period has everything exactly when the
  number of blocks divides the reward.
- A failing claim of a crowdloan reward still records the vested amount as
  claimed unless it repeats a claim in the same block.
- The comment on `total` of a collator (pallets/polkafoundry-staking/src/lib.rs:178-179)
  does not describe the code: unbonding stays inside the total until released.
- The comment that the ideal stake is positive on the rising branch
  (pallets/polkafoundry-staking/src/taylor_series.rs:63) misses equality at
  zero; the rate peaks at the ideal stake all the same.

## Model

| member | source | states |
|---|---|---|
| Soundness.ReachableSound | pallets/polkafoundry-staking/src/lib.rs:204-294 | From any genesis and through any calls, successful or not: every collator has total = active + unlocking + unbonding, is onboarding or active, has nothing unbonding while onboarding and the minimum at stake while active; every nominator's total is at least its bonds plus its unbonding; no chunk or exit is overdue |
| Soundness.StepSound | pallets/polkafoundry-staking/src/lib.rs:664-974 | Each call and each round switch keeps that invariant |
| Soundness.AdvanceSound | pallets/polkafoundry-staking/src/lib.rs:222-294 | A switch makes a collator active, unlocks everything, keeps the equation and leaves the total nonnegative |
| Soundness.ForceBondSound | pallets/polkafoundry-staking/src/lib.rs:332-336 | Forcing keeps the equation, because an onboarding collator has nothing unbonding |
| Soundness.SwitchSound | pallets/polkafoundry-staking/src/lib.rs:1107-1166 | The invariant after all passes of a switch, with every collator at work |
| Soundness.NominatorLeaveSound | pallets/polkafoundry-staking/src/lib.rs:494-518 | Removing all bonds of a collator while unbonding only the last keeps the total at least what is accounted for |
| Coverage.ReachableCovered | pallets/polkafoundry-staking/src/lib.rs:618-631 | In every run without an orphaned nomination the staked total is at least the sum of collator totals, nominator totals and exit-queue amounts |
| Coverage.StepCoveredIff | pallets/polkafoundry-staking/src/lib.rs:684-685 | One step keeps that exactly when it is not an orphaning nomination larger than the slack |
| Coverage.StepSlack | pallets/polkafoundry-staking/src/lib.rs:795-857 | The slack never shrinks except by the amount of an orphaned nomination |
| StakedTotal.StepExact | pallets/polkafoundry-staking/src/lib.rs:664-1166 | Every call and switch moves the staked total, against the ledger, by exactly what it leaves there: what collators are released, what an exit pays before its last payment, what an exit call drops or overwrites; less an orphaned nomination |
| StakedTotal.StakedTotalAccountedFor | pallets/polkafoundry-staking/src/lib.rs:617-1166 | After any run from any genesis the staked total is the ledger plus the stakers refused at genesis plus the sum of those amounts |
| StakedTotal.FinalizeExact | pallets/polkafoundry-staking/src/lib.rs:1107-1166 | The same for a switch alone, as an equation |
| StakedTotal.TakenOff | pallets/polkafoundry-staking/src/lib.rs:1138-1166 | What an exit takes off the staked total: the remaining stake if a due exit has no chunks, its last chunk if it has some, the last chunk that is due while it waits, nothing without one |
| StakedTotal.LastPaymentIsTaken | pallets/polkafoundry-staking/src/lib.rs:1138-1166 | An exit is released the sum of its payments, and the staked total is lowered by the last of them alone |
| StakedTotal.NothingForgottenIff | pallets/polkafoundry-staking/src/lib.rs:1138-1166 | The staked total follows a leaver exactly if and only if every payment before the last is of nothing |
| Coverage.GenesisCovered | pallets/polkafoundry-staking/src/lib.rs:617-646 | The genesis total counts refused stakers too, so it covers the bonds that were made |
| Mirror.ReachableMirror | pallets/polkafoundry-staking/src/lib.rs:829-853 | In every run whose searches on the nominator's own list are exact: lists are duplicate-free, every bond in a live collator's list is held with the same amount by its nominator, nominator totals are exact and the staked total covers the ledger |
| Mirror.StepMirrorIff | pallets/polkafoundry-staking/src/lib.rs:433-853 | A step from mirrored, duplicate-free lists keeps them so if and only if it is not a nomination, past the first checks, of a candidate already backed that the search on the nominator's own list misses |
| Mirror.NeverOrphans | pallets/polkafoundry-staking/src/lib.rs:837-851 | With mirrored lists and an exact search the nominator's early write is never followed by the failing check |
| Mirror.ErrorLeavesStorageIff | pallets/polkafoundry-staking/src/lib.rs:808-862 | A failing call leaves the storage unchanged if and only if it is not a nomination that fails after the early write |
| Mirror.StepTightIff | pallets/polkafoundry-staking/src/lib.rs:423-518 | A step keeps every nominator's total equal to its bonds plus its unbonding if and only if it does not remove bonds beyond the one amount it unbonds, which a duplicate-free own list rules out |
| Mirror.AscendingIsExact | pallets/polkafoundry-staking/src/lib.rs:433-442 | On a list in ascending order no nomination is such a duplicate |
| Entities.FoundMeans | pallets/polkafoundry-staking/src/lib.rs:299-305 | A hit of the binary search is genuine; on an ascending list a miss is genuine as well |
| Backing.ReachableBacked | pallets/polkafoundry-staking/src/lib.rs:664-974 | From a genesis that could be built, throughout a run each reserve covers the collator total, the bonds with live collators, the nominator unbonding and the exit entry of its account, if and only if every accepted deposit is reserved or fits what is left over and what leaving overdraws fits too; in particular when all reserves succeed and all searches are exact |
| Backing.DepositBackedIff | pallets/polkafoundry-staking/src/lib.rs:687-690 | A deposit keeps the backing exactly when its discarded reserve succeeded or the reserve had room already |
| Backing.SwitchReleasesInFull | pallets/polkafoundry-staking/src/lib.rs:1107-1166 | At a switch each account's reserve drops by exactly what is due to it: no release falls short |
| Backing.UnbondReleasesInFull | pallets/polkafoundry-staking/src/lib.rs:790-793 | The backers of a leaving collator get their bonds back in full |
| Backing.StepBackedIff | pallets/polkafoundry-staking/src/lib.rs:664-974 | Every step, failing calls and switches included, keeps the backing if and only if an accepted deposit is reserved or fits what is left over, and leaving unbonds no more than the collator's list held plus what is left over |
| Backing.StepSurplus | pallets/polkafoundry-staking/src/lib.rs:664-974 | The reserve beyond what is owed moves, for every call, by exactly what an exit strands, less an accepted deposit that was not reserved, less what leaving unbonds beyond what the collator's list held |
| Conservation.ReserveAccountedFor | pallets/polkafoundry-staking/src/lib.rs:664-974 | From a genesis that could be built and over a run that stays backed: an account's reserve is what it was, plus what is owed now, plus what exits stranded, less unreserved deposits and less what leaving overdrew |
| Conservation.ExactReserve | pallets/polkafoundry-staking/src/lib.rs:664-974 | When moreover all reserves succeed and all searches are exact: what it was, plus what is owed now, plus what exits stranded |
| Conservation.UnbondStrandsNothingIff | pallets/polkafoundry-staking/src/lib.rs:781-805 | An exit strands nothing exactly when the collator has nothing unlocking and no earlier exit entry is overwritten |
| Conservation.CallsConserveWealth | pallets/polkafoundry-staking/src/lib.rs:664-974 | No call changes what an account owns, free and reserved together |
| Conservation.SwitchMintsCreditsOnly | pallets/polkafoundry-staking/src/lib.rs:978-1166 | Over all passes of a switch, payout included, what an account owns, free and reserved, grows by its payout credits exactly |
| TimeLock.ReleasedOnceAndOnTime | pallets/polkafoundry-staking/src/lib.rs:238-294 | From any genesis and over any run, for chunks taken off a stake (also those an exit carries along), off nominations, and for a stake that leaves: throughout, what is waiting is the part of the history not due yet, in order, and the sum released is that of the rest, if and only if no step overwrites a queued exit or pays a queued chunk early; on the nominator side unconditionally |
| TimeLock.StepTimeLockIff | pallets/polkafoundry-staking/src/lib.rs:457-518 | One step keeps that agreement if and only if it meets neither of the two guards |
| TimeLock.UnbondingConserved | pallets/polkafoundry-staking/src/lib.rs:781-805 | Over any run whatever: all that went into unbonding is waiting, was released, or was overwritten by a second exit |
| TimeLock.SidesAreTheRelease | pallets/polkafoundry-staking/src/lib.rs:1107-1166 | At a switch the reserve of an account drops by exactly the sum of what the three sides release |
| ExitQueue.ExitsOnTime | pallets/polkafoundry-staking/src/lib.rs:1138-1166 | As long as the bond duration is never shortened and the account does not leave while still leaving, its stake and all its chunks are released once and on time, and none is lost |
| ExitQueue.ExitFollowed | pallets/polkafoundry-staking/src/lib.rs:787-797 | From an exit on, whatever is called until another exit of the account: the queue holds its stake and the chunks not due yet until the switch that reaches the exit round, and nothing afterwards |
| ExitQueue.ExitEarlyIff | pallets/polkafoundry-staking/src/lib.rs:1138-1166 | Over such a run the switch that pays a chunk early is the one that ends the exit, and only if a chunk of the leaving collator lies beyond it; decided when it leaves |
| Schedule.RunSchedule | pallets/polkafoundry-staking/src/lib.rs:551-563 | Whatever calls intervene, the round index moves at the predicted block and not before |
| Schedule.SwitchesExactly | pallets/polkafoundry-staking/src/lib.rs:557-559 | `now - start_in` does not underflow, and a switch happens exactly at start plus length, or after one block for length zero |
| Schedule.PredictionExactIff | pallets/polkafoundry-staking/src/lib.rs:561-563 | The prediction names the block of the next switch if and only if rounds have a length of at least one |
| Schedule.ReachableOnSchedule | pallets/polkafoundry-staking/src/lib.rs:90-114 | Every reachable storage lies between the start of its round and the next switch |
| Schedule.ElectionSeesEveryone | pallets/polkafoundry-staking/src/lib.rs:1210-1271 | When the election runs every collator is active with empty unlocking and the minimum at stake, and the counts checked against the limits are the numbers of targets and of voters returned |
| Schedule.CountMatchesIff | pallets/polkafoundry-staking/src/lib.rs:1249-1258 | The count of active collators is the length of the target list if and only if all collators are active |
| Payouts.ReachableBalance | pallets/polkafoundry-staking/src/lib.rs:1407-1412 | In every reachable storage the total points of each round are the sum of its authors' points |
| Payouts.ReachableCommission | pallets/polkafoundry-staking/src/lib.rs:1010-1024 | The commissions of one payout, from any reachable storage, sum to at most half the payout plus half a unit per collator |
| Payouts.CommissionAtMostHalf | pallets/polkafoundry-staking/src/lib.rs:1002-1024 | The same for any points that add up to their total |
| Payouts.FractionsSumToOne | pallets/polkafoundry-staking/src/lib.rs:1017-1020 | Truncated fractions of a whole sum to one at most, also when the denominator is scaled down |
| Payouts.PaidAtMostOnce | pallets/polkafoundry-staking/src/lib.rs:987-1011 | The rounds paid over a whole run are strictly increasing: none is paid twice |
| Payouts.SwitchRemovesPaid | pallets/polkafoundry-staking/src/lib.rs:1011-1011 | A switch removes exactly the exposures it pays |
| Payouts.RoundPayoutAtMostIssuance | pallets/polkafoundry-staking/src/lib.rs:993-1000 | With the pallet's parameters a payout never exceeds the issuance |
| TotalPayout.PayoutAtMostThreeHalves | pallets/polkafoundry-staking/src/lib.rs:1002-1039 | With exposures within the staked total, all credits of one payout together, commissions included and to any set of accounts, are at most one and a half times the amount plus half a unit per rounding |
| TotalPayout.CreditsAreEntries | pallets/polkafoundry-staking/src/lib.rs:1011-1039 | Credits summed over accounts are what the exposures mint, summed over collators |
| TotalPayout.ReachablePayout | pallets/polkafoundry-staking/src/lib.rs:978-1039 | The bound for the payouts of any reachable storage |
| TotalPayout.PayoutExceedsAmount | pallets/polkafoundry-staking/src/lib.rs:1010-1032 | A payout of 1000 that credits 1500: one author whose single backer holds all the stake |
| Counterexamples.OrphanedNomination | pallets/polkafoundry-staking/src/lib.rs:829-851 | A reachable nomination that fails with its record written and leaves the staked total below the ledger |
| Counterexamples.StaleBondBreaksBacking | pallets/polkafoundry-staking/src/lib.rs:494-518 | A reachable storage in which leaving a collator owes the nominator more than its reserve holds |
| Counterexamples.OutOfStepIsReached | pallets/polkafoundry-staking/src/lib.rs:781-949 | The calls that lead to that storage |
| Counterexamples.DuplicateIsReached | pallets/polkafoundry-staking/src/lib.rs:433-442 | On the way a nominator backs a collator it already lists, the search misses, and the lists are out of step from then on |
| Counterexamples.SecondExitStrandsTheFirst | pallets/polkafoundry-staking/src/lib.rs:797-797 | A second exit overwrites the first: before it 20 are reserved and owed, after it 20 are reserved and 10 are owed |
| Counterexamples.WithdrawingIsReached | pallets/polkafoundry-staking/src/lib.rs:665-778 | The calls that lead to a collator with a chunk due ten rounds on |
| Counterexamples.ShorterDurationReleasesEarly | pallets/polkafoundry-staking/src/lib.rs:1155-1162 | After a shortened bond duration, whatever is called meanwhile, the switch to round 2 pays a chunk of round 11 |
| Pallet.StakingPallet.constructor | pallets/polkafoundry-staking/src/lib.rs:617-645 | Building the genesis storage, staker by staker |
| Records.GenesisOpens | pallets/polkafoundry-staking/src/lib.rs:617-645 | Round 1 opens at block 0 with the configured length, bond duration and target, and records the total and the issuance of genesis |
| Pallet.StakingPallet.Config | pallets/polkafoundry-staking/src/lib.rs:651-662 | Replaces the settings and nothing else |
| Records.SettingsInForce | pallets/polkafoundry-staking/src/lib.rs:651-662 | After any run the last configuration is in force, for what is put into unbonding and for the next round |
| Acceptance.OutcomeIsFirstFailure | pallets/polkafoundry-staking/src/lib.rs:664-974 | Every call ends with the error of the first of its checks that fails, in the order of the source |
| Acceptance.AcceptedIff | pallets/polkafoundry-staking/src/lib.rs:664-974 | A call goes through if and only if all its checks hold |
| Acceptance.ReachableInBounds | pallets/polkafoundry-staking/src/lib.rs:664-974 | In every reachable storage each bond on either side is at least the minimum nomination, no collator exceeds the number of nominations, an onboarding collator is untouched, and whatever is locked is locked for the next round |
| Pallet.StakingPallet.Bond | pallets/polkafoundry-staking/src/lib.rs:665-696 | Makes exactly the bonding step of the state machine, errors included |
| Pallet.StakingPallet.ForceOnboard | pallets/polkafoundry-staking/src/lib.rs:699-718 | Makes exactly the forced onboarding step |
| Pallet.StakingPallet.BondExtra | pallets/polkafoundry-staking/src/lib.rs:721-749 | Makes exactly the extra bond step |
| Pallet.StakingPallet.BondLess | pallets/polkafoundry-staking/src/lib.rs:752-778 | Makes exactly the withdrawal step |
| Pallet.StakingPallet.CollatorUnbond | pallets/polkafoundry-staking/src/lib.rs:781-805 | Releases every backer's bond in a loop and moves the collator to the exit queue |
| Pallet.StakingPallet.Nominate | pallets/polkafoundry-staking/src/lib.rs:808-862 | Makes exactly the nomination step, with the nominator's record written before the last check |
| Pallet.StakingPallet.NominateExtra | pallets/polkafoundry-staking/src/lib.rs:865-900 | Raises the first matching bond on both sides |
| Pallet.StakingPallet.NominateLess | pallets/polkafoundry-staking/src/lib.rs:903-949 | Lowers the first matching bond on both sides, with all refusals in order |
| Pallet.StakingPallet.NominatorLeaveCollator | pallets/polkafoundry-staking/src/lib.rs:952-974 | Removes the bonds on both sides and unbonds the last amount |
| Pallet.StakingPallet.NoteAuthor | pallets/polkafoundry-staking/src/lib.rs:1407-1412 | Twenty points to the author and to the total of the round |
| Records.PointsAreTwentyPerBlock | pallets/polkafoundry-staking/src/lib.rs:1407-1412 | Over any run an author has twenty points for each block noted for it in a round, and the round has twenty for each block noted in it |
| Pallet.StakingPallet.PayoutStakers | pallets/polkafoundry-staking/src/lib.rs:978-1039 | Drains the exposures of the payout round in any order and credits what the state machine says |
| Shares.CreditIsFair | pallets/polkafoundry-staking/src/lib.rs:1006-1034 | What one exposure credits an account is the exact share: amount times half its part of the stake and half its part of the points if it is the collator, amount times the whole part of each of its shares; up to a half unit and 3 parts in 10^9 of the amount per part, and the minimum per payment |
| Shares.OwnShare | pallets/polkafoundry-staking/src/lib.rs:1006-1021 | The own stake earns own * amount / (2 * total stake), within that rounding |
| Shares.CommissionShare | pallets/polkafoundry-staking/src/lib.rs:1002-1024 | The points earn point * amount / (2 * total points), within that rounding |
| Shares.NominatorShare | pallets/polkafoundry-staking/src/lib.rs:1026-1034 | Another voter earns value * amount / total stake, within that rounding |
| Shares.SuppressedIff | pallets/polkafoundry-staking/src/lib.rs:979-985 | An exposure credits an account nothing if and only if the two collator parts together, and each of its shares, are at or below the minimum |
| Pallet.StakingPallet.UpdateCollators | pallets/polkafoundry-staking/src/lib.rs:1107-1121 | Visits collators in any order; no subtraction underflows when no collator has more unbonding than total |
| Pallet.StakingPallet.UpdateNominators | pallets/polkafoundry-staking/src/lib.rs:1123-1136 | Visits nominators in any order; no subtraction underflows when the staked total covers them |
| Pallet.StakingPallet.ExecuteExit | pallets/polkafoundry-staking/src/lib.rs:1138-1166 | One leaver: due chunks one by one, or everything, each write of the total starting from the value read first |
| Pallet.StakingPallet.ExecuteExitQueue | pallets/polkafoundry-staking/src/lib.rs:1138-1166 | Visits the exit queue in any order; no subtraction underflows when the staked total covers it |
| Pallet.StakingPallet.EnactElection | pallets/polkafoundry-staking/src/lib.rs:1041-1069 | Stores one exposure per elected collator under the current round |
| Records.SwitchRecords | pallets/polkafoundry-staking/src/lib.rs:90-114 | A switch records the staked total and the issuance for the round it begins, the exposures of its election, drops those of the round it pays, and touches no points and no other round |
| Records.PaidByItsOwnFigures | pallets/polkafoundry-staking/src/lib.rs:987-1024 | Whatever is called between the switch that begins a round and its payout: the amount is the schedule of the stake and issuance at that switch, shares are of that stake, and the exposures are those of its election |
| Pallet.StakingPallet.OnFinalize | pallets/polkafoundry-staking/src/lib.rs:90-114 | Runs payout, consolidation, exits and election in order; from a sound and covered storage nothing underflows |
| Pallet.StakingPallet.Execute | pallets/polkafoundry-staking/src/lib.rs:90-114 | A whole run equals the run of the state machine, and without orphaned nominations none of its subtractions underflows |
| Pallet.StakingPallet.Targets | pallets/polkafoundry-staking/src/lib.rs:1249-1258 | Refuses exactly when the active collators exceed the limit; otherwise lists every collator once, within the limit when all are active |
| Pallet.StakingPallet.Voters | pallets/polkafoundry-staking/src/lib.rs:1210-1271 | Refuses exactly when the counted voters exceed the limit; otherwise the list is all self votes and all nominators, weighted by the currency's conversion |
| Entities.Consolidate | pallets/polkafoundry-staking/src/lib.rs:274-283 | The filter of the consolidation functions: keeps later chunks, sums the rest, loses nothing |
| Entities.RaiseFirst | pallets/polkafoundry-staking/src/lib.rs:308-316 | Adds to the first bond of the owner and reports its new amount, or finds none |
| Entities.LowerFirst | pallets/polkafoundry-staking/src/lib.rs:318-330 | Takes from the first bond of the owner unless nothing would be left |
| Entities.RemoveAll | pallets/polkafoundry-staking/src/lib.rs:338-351 | Drops all bonds of the owner and reports the last amount |
| Entities.LastIsLast | pallets/polkafoundry-staking/src/lib.rs:494-518 | The amount reported, and unbonded, is that of the last bond of the owner |
| Entities.SearchComplete | pallets/polkafoundry-staking/src/lib.rs:434-441 | On an ascending slice the binary search finds a present owner |
| Entities.DistinctHeld | pallets/polkafoundry-staking/src/lib.rs:494-518 | In a duplicate-free list the first, the last and the sum of an owner's bonds agree |
| Visiting.CollectExposure | pallets/polkafoundry-staking/src/lib.rs:1083-1103 | The loop computes the exposure whose own stake are the converted votes of the collator, whose others are the converted votes of everybody else in order, and whose total are all of them |
| Elections.ExposureIsTheVotes | pallets/polkafoundry-staking/src/lib.rs:1083-1103 | The same of the specification, read off the votes account by account: no entry of the others is the collator, own stake and total saturate at 128 bits |
| Elections.ElectedAs | pallets/polkafoundry-staking/src/lib.rs:1061-1066 | After the election a collator has the exposure of its last support, and the one from before if it has none |
| Visiting.ExposureConserves | pallets/polkafoundry-staking/src/lib.rs:1088-1099 | Own stake and others add up to the total, unless the sum exceeds 128 bits, and then the total is the maximum |
| Visiting.ConsolidateCollator | pallets/polkafoundry-staking/src/lib.rs:1108-1118 | Onboards, unlocks and releases one collator; no underflow while its total covers its unbonding |
| Currency.UnreserveChunksIsTotal | pallets/polkafoundry-staking/src/lib.rs:1159-1162 | Releasing chunk by chunk ends like releasing the sum |
| Limbs.DivByStrippedIsDivision | pallets/polkafoundry-staking/src/taylor_series.rs:207-240 | Equals truncated division for every dividend and every divisor without leading zeros, in all limb-length branches |
| Limbs.DivisionsAreDefined | pallets/polkafoundry-staking/src/taylor_series.rs:219-239 | Every call to the long division meets its preconditions |
| Limbs.ScaledIsLonger | pallets/polkafoundry-staking/src/taylor_series.rs:223-228 | Scaling by 10^10 makes the dividend longer than the divisor |
| Taylor.ComputeTaylorSeriePart | pallets/polkafoundry-staking/src/taylor_series.rs:129-170 | The sign-magnitude loop on big integers, with its early break, returns without leading zeros the alternating sum of all 299 truncated terms, or zero if that is negative |
| Taylor.ZeroStays | pallets/polkafoundry-staking/src/taylor_series.rs:139-144 | Once a term is zero all later terms are, so sums no longer move |
| Taylor.OneTruncation | pallets/polkafoundry-staking/src/taylor_series.rs:186-202 | The three truncations of a term are one truncation by k times accuracy squared |
| Taylor.TermOnLimbsIsNextTerm | pallets/polkafoundry-staking/src/taylor_series.rs:186-202 | The term computed on limbs has the value of the term computed on numbers |
| Taylor.CapIrrelevant | pallets/polkafoundry-staking/src/taylor_series.rs:139-144 | For an argument of at most 70 the terms die out before the cap, and any longer sum is the same |
| Taylor.SmallArgument | pallets/polkafoundry-staking/src/taylor_series.rs:146-161 | For an argument of at most 1 the partial sums stay between 0 and the accuracy |
| TaylorError.TermError | pallets/polkafoundry-staking/src/taylor_series.rs:129-202 | Each term lies below the exact rational term by at most e_k, where e_k = e_{k-1} z / k + 1 |
| TaylorError.SumError | pallets/polkafoundry-staking/src/taylor_series.rs:129-170 | The alternating sum is within the sum of those errors of the exact partial series |
| TaylorError.SeriesError | pallets/polkafoundry-staking/src/taylor_series.rs:164-169 | The clamped result is as close to the clamped exact series |
| Inflation.CapNeverReached | pallets/polkafoundry-staking/src/taylor_series.rs:67-89 | For Perbill, a falloff of at least 1% and any stake, the term reaches zero before the cap |
| Inflation.FallingBranchAccurate | pallets/polkafoundry-staking/src/taylor_series.rs:57-110 | For a supported falloff and an argument up to 70 neither error branch is taken and the result is within 150 units of the exact alternating series at excess * ln 2 / falloff, ln 2 and the quotient truncated as in the program, for every accuracy of at least 400 |
| Curve.FallsExponentially | pallets/polkafoundry-staking/src/taylor_series.rs:57-110 | For Perbill, every supported falloff, every ideal stake and every stake above it: the result is one over the exponential series at (stake - ideal) * 0.693147180559945309 / falloff, within 154 of 10^9 units |
| Curve.HalvesEveryFalloff | pallets/polkafoundry-staking/src/taylor_series.rs:26-31 | One falloff further the curve is half of what it was, within 463 of 10^9 units |
| Curve.PowersOfTwo | pallets/polkafoundry-staking/src/taylor_series.rs:26-31 | k falloffs above the ideal stake the curve is 2^-k, within 155 of 10^9 units |
| Curve.RisesInALine | pallets/polkafoundry-staking/src/taylor_series.rs:62-65 | Up to the ideal stake the curve is stake / ideal, truncated |
| Curve.UnsupportedFalloff | pallets/polkafoundry-staking/src/taylor_series.rs:67-70 | Above it, a falloff below one percent gives zero |
| RoundPayouts.DocumentedPayouts | pallets/polkafoundry-staking/src/inflation.rs:126-155 | All eighteen payouts that the tests list, to the unit, falling branch included |
| RoundPayouts.PayoutFollowsTheCurve | pallets/polkafoundry-staking/src/inflation.rs:6-43 | The payout of a round is issuance times 2.5% plus 7.5% of the curve at the staked part, times the part of the year the round takes, up to a unit and 4 parts in 10^9 of the issuance |
| Truncation.AlternatingAccurate | pallets/polkafoundry-staking/src/taylor_series.rs:129-202 | For every accuracy and argument up to 70 the sum of the 299 truncated terms is within 150 units of the exact one, however large the terms grow in between |
| Truncation.RestWithinOne | pallets/polkafoundry-staking/src/taylor_series.rs:175-202 | That weight lies between 0 and 1 for every term and every argument up to 70 |
| Reciprocal.NearlyReciprocal | pallets/polkafoundry-staking/src/taylor_series.rs:175-180 | The 299-term sum at -z times the 598-term sum at z is one up to 10^-11, for arguments up to 70 |
| Exponential.Binomial | pallets/polkafoundry-staking/src/taylor_series.rs:175-180 | The terms z^k/k! obey the binomial theorem: the products of degree n sum to the term at x + y |
| Inflation.PeaksAtIdeal | pallets/polkafoundry-staking/src/inflation.rs:30-43 | Minimum rate <= rate at x <= rate at the ideal stake <= the larger of minimum and ideal rate <= 1, for every x |
| Inflation.NeverSaturates | pallets/polkafoundry-staking/src/inflation.rs:37-42 | The saturating addition never saturates |
| Inflation.RisesToIdeal | pallets/polkafoundry-staking/src/inflation.rs:37-42 | The rate is nondecreasing up to the ideal stake |
| Inflation.PayoutAtMostTokens | pallets/polkafoundry-staking/src/inflation.rs:6-28 | A payout never exceeds the total tokens |
| Inflation.InflationAtIdeal | pallets/polkafoundry-staking/src/taylor_series.rs:62-65 | The curve is 1 at a positive ideal stake |
| PerThing.TimesNumberNearest | pallets/polkafoundry-staking/src/inflation.rs:27-27 | A fraction of a number is rounded by half a unit at most |
| PerThing.FromRationalNear | pallets/polkafoundry-staking/src/lib.rs:1013-1030 | A fraction of any two numbers is at most three units below and two above the exact one, also when both are scaled down |
| Crowdloan.PathIndependence | pallets/crowdloan-rewards/src/lib.rs:164-187 | For a contributor of the current period, after any claims at any blocks, claimed is the smaller of the reward and floor(total / period) times the blocks from the start to the last claim |
| Crowdloan.ClaimedIsPaidOrForfeited | pallets/crowdloan-rewards/src/lib.rs:153-199 | Per relay account and registration, claimed is exactly what all linked accounts were paid plus what claims that failed after the write forfeited, and stays within the reward |
| Crowdloan.ReachableSound | pallets/crowdloan-rewards/src/lib.rs:59-80 | In every reachable state records are within bounds and a contributor implies a positive period |
| Crowdloan.StepSound | pallets/crowdloan-rewards/src/lib.rs:147-206 | Each call keeps that, and no claim divides by zero |
| Crowdloan.PeriodsDoNotOverlap | pallets/crowdloan-rewards/src/lib.rs:59-80 | A new reward period starts no earlier than the last one ended |
| Crowdloan.NothingSaturates | pallets/crowdloan-rewards/src/lib.rs:170-186 | Before block 2^64 neither the product nor the sum saturates |
| Crowdloan.ErrorLeavesStorageIff | pallets/crowdloan-rewards/src/lib.rs:185-199 | A failing claim leaves the storage unchanged if and only if it stops before the write or repeats a claim in the same block |
| Crowdloan.FailedClaimForfeits | pallets/crowdloan-rewards/src/lib.rs:187-192 | A reachable claim that fails with the vested amount recorded as claimed and nothing paid |
| CrowdloanVesting.InitializeOpens | pallets/crowdloan-rewards/src/lib.rs:52-82 | An initialisation goes through exactly between periods with an end ahead, gives each contributor amount times rate from its last entry, opens the period, and leaves other records alone |
| CrowdloanVesting.ClaimCatchesUp | pallets/crowdloan-rewards/src/lib.rs:147-206 | After a claim that is recorded the record stands at the smaller of the reward and floor(total / period) times the blocks since the start, and a claim that succeeds pays the difference |
| CrowdloanVesting.ClaimPaysIff | pallets/crowdloan-rewards/src/lib.rs:147-206 | A claim succeeds exactly for a linked account with a contribution not claimed in full, an amount of at least the minimum and a transfer that works; otherwise it pays nothing |
| CrowdloanVesting.FullyVestedIff | pallets/crowdloan-rewards/src/lib.rs:170-184 | A claim in the last block of the period has everything if and only if the period divides the reward |
| CrowdloanLinks.UpdateMoves | pallets/crowdloan-rewards/src/lib.rs:113-144 | Moving a link succeeds exactly with a signature, a new account without a link and an old one linked to that relay account; the old account loses the link, the new one gets it, all others keep theirs |
| CrowdloanLinks.AssociateLinks | pallets/crowdloan-rewards/src/lib.rs:85-110 | A first link succeeds exactly with a signature and no link yet, and adds that link alone |
| CrowdloanLinks.LinkRefusals | pallets/crowdloan-rewards/src/lib.rs:85-137 | Each refusal of the two link calls, with exactly when it is met |
| CrowdloanVesting.RewardRefusals | pallets/crowdloan-rewards/src/lib.rs:52-199 | Each refusal of an initialisation and of a claim, with exactly when it is met |
| CrowdloanLinks.LinksAreCounted | pallets/crowdloan-rewards/src/lib.rs:85-144 | Over any run as many accounts are linked to a relay account as first links were made: moves never add one |
| CrowdloanLinks.EveryLinkSigned | pallets/crowdloan-rewards/src/lib.rs:85-144 | Every link goes back to a successful call of that account with a valid signature for that relay account |
| CrowdloanLinks.MovedAwayClaimsNothing | pallets/crowdloan-rewards/src/lib.rs:137-155 | An account whose link was moved away can claim nothing, whatever is called, until it is linked again |
| Crowdloan.CrowdloanRewards.Initialize | pallets/crowdloan-rewards/src/lib.rs:52-82 | Registers every contribution in a loop and sets the period, with both refusals |
| Crowdloan.CrowdloanRewards.Associate | pallets/crowdloan-rewards/src/lib.rs:85-110 | Links an account once, on a valid signature |
| Crowdloan.CrowdloanRewards.UpdateAssociation | pallets/crowdloan-rewards/src/lib.rs:113-144 | Moves a link to a new account of the same relay account |
| Crowdloan.CrowdloanRewards.Claim | pallets/crowdloan-rewards/src/lib.rs:147-206 | Makes exactly the claim step, writing the record before the last checks, and never panics from a sound state |

## Left out

- The election algorithm: its supports are a parameter of the finalisation step, and the conversions between balances and vote weights are parameters of the configuration.
- Balances: existential deposits, dust and locks; `reserve` fails exactly when the free balance is too small, and other users of the currency change free balances only.
- Overflow: additions of 128-bit balances and of 32-bit rounds and points are unbounded here; only subtractions and the saturating operations of claims and exposures are modelled at their limits.
- Origins: calls are modelled after the root or signature check has passed.
- Iteration order: a loop over a storage map visits each entry present at its start once, in any order.
- Limbs.DivByStrippedIsDivision: addition, multiplication, subtraction, comparison and the two divisions of the big-integer library are given by the value and length their documentation promises, not by their algorithms.
- Curve.FallsExponentially: compares with a partial sum of 599 terms of the exponential series, which Curve.PowersOfTwo evaluates at whole falloffs; real powers between them are not defined here.
- TotalPayout.PayoutAtMostThreeHalves: takes the exposures of a round to be within its staked total, which is for the election to ensure.
- Signature verification and the treasury's transfer: flags of the crowdloan calls.
- Author inherent, treasury pallet, node, runtimes, events, weights, storage encoding and migrations: they would only add easy members.
- The list of claimed rounds in collator and nominator records, which nothing reads.

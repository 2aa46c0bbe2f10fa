# Moonbeam runtime pallets: a verified model

This project models the stateful cores of four runtime pallets and proves what they promise. Each call is
a function of the state; where the pallet changes storage in place, a class with the same fields does the
same step by step and is proved equal to that function. The theorems are about the functions: invariants
over every run, refinements, round trips and conservation.

- **Orbiters** (`CollatorPools`, `Orbiters` and the `Orbiters…` modules, `RoundAuthorTables`). Collators share
  authoring rights with a rotating pool. A pool is a vector with a pointer, proved to be a queue of turns.
  Storage-wide rotation is given in closed form, and its independence of the order in which storage yields the
  pools is characterised exactly, and so is when it keeps authoring rights exclusive. Over runs: rights are exclusive,
  every orbiter gets its turn, membership is backed by deposits, records say who is paid, at most once, and are kept
  for a bounded time.
- **Delegations** (`Staking…` modules, `OrderedSets`, `SortedRows`). Requests to revoke or decrease are scheduled,
  cancelled and executed; `lessTotal` caches what is pending. A joint invariant of bonds, totals, requests and
  auto-compound settings holds in every reachable state; from it, every due request executes, in any order with
  the same result.
- **ERC-20 withdrawals in XCM** (`XcmHolding`, `Erc20Bridge`, `EagerWithdrawal`). A withdrawal is only recorded in a
  queue per contract, and paid at the deposit. The plain design would first move the tokens to a holding account.
  Over every run, refused steps included, the two designs give the same outcomes if and only if a condition on the
  deferred state holds at every step, and then their ledgers stay related.
- **Foreign assets** (`ForeignAssets…` modules, `RevertMessage`, `Utf8`). Two maps between asset ids and locations, a
  freeze status mirrored in the pause flag of a contract, authority by location prefix, creation deposits: over every
  run all of it behaves as one book with a listing per asset. And the reading of revert reasons.

## Assumptions

- A call that returns an error leaves the state as it was, since calls run in a storage layer. The exception is
  the queue of ERC-20 origins, which is not storage: `deposit_asset` drains it before it pays, so a payment that
  fails leaves the entries drained. The model keeps that.
- Storage yields every pool exactly once in a rotation, in any order (`OrbitersRotation.Visits`).
- Authoring is exclusive over safe runs (`OrbitersExclusivity.SafeRun`): `Kept` where a rotation is due and
  `ClearsTogether` where a collator is removed. Both are exact, call by call. A caller who looks at memberships only
  can check three guards instead (`OrbitersExclusivity.Guarded`): who joins a pool is no collator, who becomes a
  collator is in no pool, and a collator is removed only while its current orbiter is in the vector. The code checks
  none of them (`pallets/moonbeam-orbiters/src/lib.rs:265-300`, `pallets/moonbeam-orbiters/src/lib.rs:386-424`).
  Without the first two, `OrbitersExamples.CollatorAsOrbiterSharesAuthority`; without the third,
  `OrbitersExamples.RemovedCollatorStillServed`.
- That an active orbiter does author needs one guard more (`OrbitersAuthority.FullyGuarded`): who joins a pool is in no
  other. The check for duplicates is per pool (`pallets/moonbeam-orbiters/src/lib.rs:279`); without the guard,
  `OrbitersExamples.SharedOrbiterMakesOrderVisible`.
- Payments are for rounds that are over and rounds do not go back (`OrbitersRecords.InTime`), as the staking pallet
  calls these hooks; where a lemma needs more, consecutive rounds or a block in every round, its run predicate
  says so. `AuthorIsRecorded` and `RunKeepsServed` need a positive archive length: with none, an initialisation
  prunes the records of the current round. A minimum deposit, whenever it is set, is positive.
- The candidate side of staking is consistent (`StakingRuns.Admissible`): a delegation it kicks exists, a candidate
  lists exactly its delegators, and locks keep bonded funds in the account. The minimum delegation is
  positive. Balances are at most 2^128-1.
- A byte slice has fewer than 2^64-1 bytes (`RevertMessage.ReportedExactly`), which holds of every slice in memory.

## What the code does and its comments do not say

- In `delegation_schedule_bond_decrease` the comment "Net Total is always >= MinDelegation" is right in every
  reachable state, and therefore the check after it never rejects (`StakingPreservation.NetTotalCheckIsRedundant`).
- `deposit_asset` of the ERC-20 bridge pays from accounts that may have spent the recorded tokens in between, for
  example in an internal transfer of the same message (`EagerWithdrawal.RecordedTokensCanBeSpent`).
- A frozen asset accepts deposits by XCM only if its contract mints while paused. The base contract that decides
  this is not part of this model, so it is a parameter of the configuration
  (`ForeignAssetsEffects.DepositAnswers`).
- An orbiter that leaves while it serves goes on serving, and its deposit stays reserved, until a due round finds
  somebody else in the vector or the collator is removed (`OrbitersFairness.RelievedExactly`,
  `OrbitersFairness.ServingKeepsDeposit`): from an emptied pool nobody relieves it until somebody joins.
- Revert data with an empty reason gives the base message without a trailing space, because the length test asks
  for more than 68 bytes (`RevertMessage.EmptyReasonIsDropped`). The selector and the offset are never looked at.

## Model

| member | source | states |
|---|---|---|
| `XcmHolding.DrainCharacterised` | pallets/erc20-xcm-bridge/src/xcm_holding_ext.rs:60-83 | for every queue and amount: a drain returns the shortest non-empty prefix that sums to the amount; without one it reports a split when some prefix overshoots, and not enough otherwise |
| `XcmHolding.DrainSucceedsExactly` | pallets/erc20-xcm-bridge/src/xcm_holding_ext.rs:60-83 | a drain succeeds if and only if some non-empty prefix sums to the amount, and reports not enough if and only if the queue is empty or sums to less |
| `XcmHolding.XcmHoldingErc20sOrigins.Insert` | pallets/erc20-xcm-bridge/src/xcm_holding_ext.rs:85-90 | the entry goes to the back of the queue of its contract, which is created when missing; no other queue changes |
| `XcmHolding.XcmHoldingErc20sOrigins.DrainInner` | pallets/erc20-xcm-bridge/src/xcm_holding_ext.rs:60-83 | the loop with the decreasing amount computes the recursive drain; a missing key is reported as not found |
| `XcmHolding.XcmHoldingErc20sOrigins.Drain` | pallets/erc20-xcm-bridge/src/xcm_holding_ext.rs:45-58 | what is drained plus what remains is the old queue, in order; every error leaves the map as it was |
| `Erc20Bridge.Bridge.CallTransfer` | pallets/erc20-xcm-bridge/src/lib.rs:99-153 | one ideal EIP-20 transfer: it succeeds if and only if the sender has the amount, and a failure changes nothing |
| `Erc20Bridge.Bridge.DepositAsset` | pallets/erc20-xcm-bridge/src/lib.rs:160-200 | for a fungible asset at the location of a contract: the shortest prefix of its queue that sums to the amount of the asset leaves the queue and is paid entry by entry, all or none; every other outcome is an error, in the order of the source, and no error changes a balance |
| `Erc20Bridge.Bridge.InternalTransferAsset` | pallets/erc20-xcm-bridge/src/lib.rs:202-225 | for a fungible asset at the location of a contract: exactly the amount of the asset moves, if and only if the sender has it; the matching and conversion errors otherwise |
| `Erc20Bridge.Bridge.WithdrawAsset` | pallets/erc20-xcm-bridge/src/lib.rs:235-254 | for a fungible asset at the location of a contract: the holder and the amount of the asset go to the back of the queue of that contract, and no other queue changes; the matching, conversion and context errors otherwise; the ledger is never touched |
| `EagerWithdrawal.TransferAllExactly` | pallets/erc20-xcm-bridge/src/lib.rs:178-189 | when a batch of transfers to one beneficiary can be paid, entry by entry, and the balance of every account afterwards |
| `EagerWithdrawal.CoveredIsPayable` | pallets/erc20-xcm-bridge/src/lib.rs:178-189 | if every account covers its own recorded amounts, any batch drained from the queue can be paid, also to one of the holders |
| `EagerWithdrawal.DepositStep` | pallets/erc20-xcm-bridge/src/lib.rs:160-200 | a deposit of the deferred design succeeds if and only if the amount is a prefix sum of the queue, and then keeps it related to the design with a holding account; a failed one changes nothing |
| `EagerWithdrawal.WithdrawStep` | pallets/erc20-xcm-bridge/src/lib.rs:227-254 | recording always succeeds; the eager withdrawal succeeds if and only if the balance covers this and all earlier recorded amounts |
| `EagerWithdrawal.StepSimulates` | pallets/erc20-xcm-bridge/src/lib.rs:160-254 | the designs answer a step alike if and only if they agree on it, a condition on queue and balances; both succeed if and only if it is covered; an agreed step, carried out or refused, keeps every real balance equal to the eager balance plus what is pending, and the eager holding equal to the sum pending |
| `EagerWithdrawal.RunSimulates` | pallets/erc20-xcm-bridge/src/lib.rs:160-254 | over every run of withdrawals, deposits and internal transfers, refused ones included: the two designs give the same outcomes, step by step, if and only if they agree on every step, and then end related |
| `EagerWithdrawal.MessageRefinesEager` | pallets/erc20-xcm-bridge/src/xcm_holding_ext.rs:115-126 | from the empty holding in which a message starts: the outcomes are those of the eager design if and only if the designs agree on every step, and then the ledgers agree on every contract with nothing pending at the end |
| `EagerWithdrawal.RecordedTokensCanBeSpent` | pallets/erc20-xcm-bridge/src/lib.rs:227-254 | an input outside the coverage condition: recorded tokens are spent before the deposit, which then fails and has already emptied the queue |
| `EagerWithdrawal.DepositExactly` | pallets/erc20-xcm-bridge/src/lib.rs:160-200 | in any state: when a deposit succeeds; a failed one changes no balance, and leaves the queue too unless it was the payment that failed |
| `EagerWithdrawal.RunIsFifo` | pallets/erc20-xcm-bridge/src/xcm_holding_ext.rs:45-90 | over every run, successful or not: queue before plus everything recorded equals everything drained, in order, plus the queue after |
| `EagerWithdrawal.DebitsAreRecorded` | pallets/erc20-xcm-bridge/src/lib.rs:160-254 | over every run, an account that makes no internal transfer of its own ends with at least its balance less what it recorded |
| `Erc20Bridge.MatchesExactly` | pallets/erc20-xcm-bridge/src/erc20_matcher.rs:51-71 | a location names a contract if and only if it is the prefix, then the key of that contract, then anything |
| `Erc20Bridge.FungiblesMatchExactly` | pallets/erc20-xcm-bridge/src/erc20_matcher.rs:27-41 | an asset matches as a contract and an amount if and only if it is fungible with that amount and its location names the contract; each of the two errors exactly when not |
| `Erc20Bridge.DepositMeans` | pallets/erc20-xcm-bridge/src/lib.rs:160-200 | every outcome of a deposit by prefix sums: missing queue, too little, split, payment failed, or paid |
| `SortedRows.BinarySearch` | pallets/parachain-staking/src/set.rs:52-78 | bisection on a strictly ascending vector finds the key or the position that keeps the vector ascending |
| `SortedRows.PutLaws` | pallets/parachain-staking/src/set.rs:52-61 | insertion at that position keeps the vector strictly ascending and changes the lookup of this key only |
| `SortedRows.DropLaws` | pallets/parachain-staking/src/set.rs:64-72 | removal keeps the vector strictly ascending and changes the lookup of this key only |
| `SortedRows.Canonical` | pallets/parachain-staking/src/set.rs:28-43 | two strictly ascending vectors that answer every lookup alike are equal |
| `OrderedSets.OrderedSet.From` | pallets/parachain-staking/src/set.rs:38-43 | sorting and removing duplicates gives the strictly ascending vector of the given elements |
| `OrderedSets.OrderedSet.Insert` | pallets/parachain-staking/src/set.rs:52-61 | true if and only if the element was absent, which is then inserted in order |
| `OrderedSets.OrderedSet.Remove` | pallets/parachain-staking/src/set.rs:64-72 | true if and only if the element was present, which is then removed |
| `OrderedSets.OrderedSet.Contains` | pallets/parachain-staking/src/set.rs:75-77 | bisection answers membership |
| `OrderedSets.BoundedOrderedSet.TryInsert` | pallets/parachain-staking/src/set.rs:127-132 | as insertion, refused when the element is new and the vector full |
| `OrderedSets.BoundedOrderedSet.Remove` | pallets/parachain-staking/src/set.rs:136-144 | as removal |
| `OrderedSets.VectorRefinesSet` | pallets/parachain-staking/src/set.rs:30-83 | over every sequence of operations the vector gives the answers of a mathematical set and represents it |
| `OrderedSets.RepresentationIsUnique` | pallets/parachain-staking/src/set.rs:30-83 | a set has exactly one representation |
| `StakingInvariant.DueRequestExecutes` | pallets/parachain-staking/src/delegation_requests.rs:276-426 | under the joint invariant no error branch of execution can be taken by a due request |
| `StakingInvariant.PendingFits` | pallets/parachain-staking/src/delegation_requests.rs:133-138 | the cached sum never exceeds the total and leaves room for every bond without a request |
| `StakingPreservation.ScheduleRevokeKeeps` | pallets/parachain-staking/src/delegation_requests.rs:99-145 | scheduling a revocation keeps the joint invariant of bonds, totals, requests and settings |
| `StakingPreservation.ScheduleDecreaseKeeps` | pallets/parachain-staking/src/delegation_requests.rs:148-227 | scheduling a decrease keeps it |
| `StakingPreservation.NetTotalCheckIsRedundant` | pallets/parachain-staking/src/delegation_requests.rs:192-202 | the net total is at least the minimum, as the comment there says, without saturation; and the check that follows can then never reject |
| `StakingPreservation.CancelKeeps` | pallets/parachain-staking/src/delegation_requests.rs:230-273 | cancelling keeps the joint invariant |
| `StakingPreservation.ExecuteKeeps` | pallets/parachain-staking/src/delegation_requests.rs:276-426 | executing keeps it, also when the last delegation goes and the delegator with it |
| `StakingPreservation.ExecutionKeepsNetTotal` | pallets/parachain-staking/src/delegation_requests.rs:276-426 | total minus cached sum is the same before and after an execution, and zero when the delegator leaves |
| `StakingPreservation.EndDelegationEnds` | pallets/parachain-staking/src/lib.rs:1597-1625 | dropping a delegation by a kick and by a leaving candidate is the same step, although they decide differently whether the delegator leaves |
| `StakingPreservation.KickKeeps` | pallets/parachain-staking/src/delegation_requests.rs:428-447 | dropping a delegation with its request and its setting keeps the joint invariant |
| `StakingPreservation.BondMoreKeeps` | pallets/parachain-staking/src/types.rs:1285-1331 | bonding more keeps the joint invariant without saturation |
| `StakingPreservation.DelegateKeeps` | pallets/parachain-staking/src/auto_compound.rs:157-257 | delegating keeps it |
| `StakingPreservation.SetAutoCompoundKeeps` | pallets/parachain-staking/src/auto_compound.rs:260-303 | changing a setting keeps it |
| `StakingRuns.LeaveKeeps` | pallets/parachain-staking/src/lib.rs:1576-1655 | a candidate that leaves returns every stake, after which nothing refers to it, and the joint invariant is kept |
| `StakingRuns.NothingLeft` | pallets/parachain-staking/src/lib.rs:1645-1647 | when every stake is returned no request and no setting of the candidate remains, so clearing its storage loses nothing |
| `StakingRuns.Reachable` | pallets/parachain-staking/src/delegation_requests.rs:97-447 | every admissible run from an empty state keeps the joint invariant |
| `StakingRuns.EveryDueRequestExecutes` | pallets/parachain-staking/src/delegation_requests.rs:276-426 | in every reachable state every due request executes: a revocation takes the whole bond, a decrease exactly its amount, and the request is gone |
| `StakingRuns.ExecuteMeans` | pallets/parachain-staking/src/delegation_requests.rs:276-426 | what an execution does to every pair of a candidate and a delegator; all other pairs are untouched |
| `StakingRuns.CachedSumIsExact` | pallets/parachain-staking/src/delegation_requests.rs:99-273 | in every reachable state the cached sum equals the sum of the delegator's requests over all collators, with at most one for each, and is at most the total |
| `StakingRuns.ScheduleThenCancel` | pallets/parachain-staking/src/delegation_requests.rs:99-273 | cancelling after scheduling restores the delegator and every list of requests |
| `StakingRuns.DelegateSetsAutoCompound` | pallets/parachain-staking/src/auto_compound.rs:157-257 | delegating with a percentage makes the lookup return it, zero included although nothing is written then, and zero for a delegation kicked to make room; no other lookup changes |
| `StakingRuns.SetAutoCompoundSets` | pallets/parachain-staking/src/auto_compound.rs:260-321 | setting a percentage makes the lookup return it, zero included, and changes no other lookup |
| `StakingRuns.AutoCompoundIsCanonical` | pallets/parachain-staking/src/auto_compound.rs:81-124 | in states that keep the invariant, equal lookups mean equal stored lists |
| `StakingOrder.ExecutionsCommute` | pallets/parachain-staking/src/delegation_requests.rs:294-346 | two due requests, of one delegator or of two, can be executed in either order with the same final state |
| `StakingOrder.MoveToFront` | pallets/parachain-staking/src/delegation_requests.rs:294-346 | moving one of any number of due requests to the front changes nothing |
| `StakingOrder.ExecutionOrderIsIrrelevant` | pallets/parachain-staking/src/delegation_requests.rs:294-346 | any two orders of the same due requests succeed and end in the same state |
| `StakingOrder.ReachableOrderIsIrrelevant` | pallets/parachain-staking/src/delegation_requests.rs:294-346 | the same for any distinct due requests of any reachable state |
| `StakingEffects.SchedulingSucceedsExactly` | pallets/parachain-staking/src/delegation_requests.rs:99-227 | when a revocation and a decrease can be scheduled; for the decrease the bound on the bond alone decides |
| `StakingEffects.ExecutionSucceedsExactly` | pallets/parachain-staking/src/delegation_requests.rs:230-426 | a request can be cancelled if and only if it exists, and executed if and only if it is due as well |
| `StakingEffects.BondMoreSucceedsExactly` | pallets/parachain-staking/src/lib.rs:2132-2180 | a bond can be raised if and only if it exists, is not being revoked, and the funds cover all bonds and the amount |
| `StakingEffects.DelegateSucceedsExactly` | pallets/parachain-staking/src/auto_compound.rs:157-257 | a delegation succeeds if and only if the funds cover all bonds and the amount, the amount is at least the minimum, there is no bond yet, the number of bonds is below the limit and within its count, a first-time delegator is no candidate, the candidate exists with sufficient counts and does not refuse, and a non-zero setting fits once room is made |
| `StakingEffects.SetAutoCompoundSucceedsExactly` | pallets/parachain-staking/src/auto_compound.rs:260-303 | a setting can be changed if and only if the delegation exists, both counts suffice, and a new non-zero one has room |
| `StakingEffects.LeavingSucceedsExactly` | pallets/parachain-staking/src/types.rs:357-367 | a candidate leaves if and only if it exists, is leaving, and its round has come; each error exactly when not |
| `StakingEffects.DecreaseInAnyState` | pallets/parachain-staking/src/delegation_requests.rs:148-227 | without the invariant: a decrease also has to leave the minimum of what is bonded and not pending |
| `StakingEffects.ExecutionInAnyState` | pallets/parachain-staking/src/delegation_requests.rs:294-426 | without the invariant: when a due request executes, action by action |
| `StakingEffects.BondMoreInAnyState` | pallets/parachain-staking/src/types.rs:1285-1331 | without the invariant: when a bond can be raised |
| `StakingEffects.RevokeRefusals` | pallets/parachain-staking/src/delegation_requests.rs:99-131 | every refusal to schedule a revocation, and the obstacle it reports |
| `StakingEffects.DecreaseRefusals` | pallets/parachain-staking/src/delegation_requests.rs:148-213 | every refusal to schedule a decrease, and the obstacle it reports |
| `StakingEffects.ExecutionRefusals` | pallets/parachain-staking/src/delegation_requests.rs:230-302 | every refusal to cancel or execute, and the obstacle it reports; no other error occurs |
| `StakingEffects.BondMoreRefusals` | pallets/parachain-staking/src/lib.rs:2132-2180 | every refusal to raise a bond, and the obstacle it reports |
| `StakingEffects.SetAutoCompoundRefusals` | pallets/parachain-staking/src/auto_compound.rs:260-303 | every refusal of a setting names an obstacle that is there, and changes nothing |
| `StakingEffects.DelegateRefusals` | pallets/parachain-staking/src/auto_compound.rs:157-257 | every refusal of a delegation names an obstacle that is there, and changes nothing |
| `StakingEffects.ScheduleMeans` | pallets/parachain-staking/src/delegation_requests.rs:133-140 | one request due after the delay, its amount in the cached sum, and nothing else |
| `StakingEffects.CancelMeans` | pallets/parachain-staking/src/delegation_requests.rs:257-273 | one request and its amount in the cached sum gone, and nothing else |
| `StakingEffects.BondMoreMeans` | pallets/parachain-staking/src/types.rs:1285-1331 | one bond and the total raised by the amount without saturation, and nothing else |
| `StakingEffects.DelegateMeans` | pallets/parachain-staking/src/auto_compound.rs:157-257 | one new bond of the amount, the total raised by it, the cached sum as before; the only other pair touched is one the candidate kicks to make room |
| `StakingEffects.KickMeans` | pallets/parachain-staking/src/types.rs:640-665 | bond, request and setting of one pair gone; the delegator goes if and only if it has no other bond |
| `StakingEffects.LeaveMeans` | pallets/parachain-staking/src/lib.rs:1576-1655 | a candidate that leaves takes its bonds, requests and settings with it; nothing with other candidates changes, and a delegator stays if and only if it has another bond |
| `StakingEffects.RevocationEndsDelegation` | pallets/parachain-staking/src/delegation_requests.rs:99-346 | as a run: a scheduled revocation left alone until it is due ends the delegation and touches no other bond |
| `StakingEffects.CancelledRevocationLeavesNothing` | pallets/parachain-staking/src/delegation_requests.rs:99-273 | as a run: cancelled right away it leaves every record and every request as it was |
| `StakingPallet.Position` | pallets/parachain-staking/src/delegation_requests.rs:261-263 | the search finds the delegator's first request, the one whose removal the specification describes |
| `StakingPallet.FilterBonds` | pallets/parachain-staking/src/types.rs:1254-1276 | the filtering loop removes the one bond with this owner and reports its amount |
| `StakingPallet.SetBond` | pallets/parachain-staking/src/delegation_requests.rs:354-358 | the loop over the bonds rewrites the amount of this owner's bond and keeps the order |
| `StakingPallet.AddDelegation` | pallets/parachain-staking/src/types.rs:1243-1252 | adds the bond in order and its amount to the total, unless the owner is there already |
| `StakingPallet.AutoCompoundDelegations.GetForDelegator` | pallets/parachain-staking/src/auto_compound.rs:81-86 | bisection answers the lookup |
| `StakingPallet.AutoCompoundDelegations.SetForDelegator` | pallets/parachain-staking/src/auto_compound.rs:90-113 | writes the setting in order, tells whether anything changed, and refuses a new one when full |
| `StakingPallet.AutoCompoundDelegations.RemoveForDelegator` | pallets/parachain-staking/src/auto_compound.rs:116-124 | removes the setting and tells whether there was one |
| `StakingPallet.Pallet.DelegationScheduleRevoke` | pallets/parachain-staking/src/delegation_requests.rs:99-145 | edits request list and delegator as specified, error by error |
| `StakingPallet.Pallet.DelegationScheduleBondDecrease` | pallets/parachain-staking/src/delegation_requests.rs:148-227 | likewise for a decrease |
| `StakingPallet.Pallet.DelegationCancelRequest` | pallets/parachain-staking/src/delegation_requests.rs:230-273 | likewise for a cancellation |
| `StakingPallet.Pallet.DelegationExecuteScheduledRequest` | pallets/parachain-staking/src/delegation_requests.rs:276-426 | likewise for an execution, both branches |
| `StakingPallet.Pallet.DelegationRemoveRequestWithState` | pallets/parachain-staking/src/delegation_requests.rs:430-447 | removes the request if there is one, from list and cached sum together |
| `StakingPallet.Pallet.DelegateWithAutoCompound` | pallets/parachain-staking/src/auto_compound.rs:157-257 | likewise for a delegation with its setting: the candidate may refuse it, or kick its lowest delegation, which is undone when the setting does not fit |
| `StakingPallet.Pallet.SetAutoCompoundFor` | pallets/parachain-staking/src/auto_compound.rs:260-303 | likewise for a change of the setting |
| `StakingPallet.Pallet.DelegationBondMore` | pallets/parachain-staking/src/types.rs:1285-1331 | likewise for a larger bond |
| `StakingPallet.Pallet.KickLowestBottom` | pallets/parachain-staking/src/types.rs:640-665 | the kicked delegation goes with its request and its setting; the delegator goes when it was the only one |
| `StakingPallet.Pallet.ReturnOneStake` | pallets/parachain-staking/src/lib.rs:1597-1626 | likewise for a stake returned by a leaving candidate; the delegator goes when nothing remains bonded |
| `StakingPallet.Pallet.ExecuteLeaveCandidates` | pallets/parachain-staking/src/lib.rs:1576-1655 | the candidate must exist, be leaving and be due; then every stake is returned in the order of the lists and its storage cleared |
| `CollatorPools.RotateServesHead` | pallets/moonbeam-orbiters/src/types.rs:117-138 | a rotation selects the head of the queue of turns and sends it to the back |
| `CollatorPools.RotateEmptied` | pallets/moonbeam-orbiters/src/types.rs:117-138 | rotating an emptied pool leaves the current orbiter in place |
| `CollatorPools.AddGoesLast` | pallets/moonbeam-orbiters/src/types.rs:68-73 | a newcomer goes to the back of the queue, as if it had had its turn, and nobody else moves |
| `CollatorPools.RemoveSkipsAtMostOne` | pallets/moonbeam-orbiters/src/types.rs:91-115 | a removal keeps the order of the others, except that the orbiter due next moves to the back when the removed one sat before the pointer |
| `CollatorPools.SelectedInTurn` | pallets/moonbeam-orbiters/src/types.rs:68-138 | over every run without removals, the orbiter with k others before it is selected at exactly rotation k+1 |
| `CollatorPools.SelectedInTime` | pallets/moonbeam-orbiters/src/types.rs:68-138 | over every run, removals included: an orbiter with k others before it that stays and is passed over by no removal is selected at rotation k+1 at the latest |
| `CollatorPools.FullCycleIsPermutation` | pallets/moonbeam-orbiters/src/types.rs:117-138 | as many rotations as there are orbiters select each of them once |
| `CollatorPools.CollatorPoolInfo.AddOrbiter` | pallets/moonbeam-orbiters/src/types.rs:68-73 | the vector, the pointer and the queue after an arrival |
| `CollatorPools.CollatorPoolInfo.ContainsOrbiter` | pallets/moonbeam-orbiters/src/types.rs:75-86 | the search loop answers membership, the current orbiter included |
| `CollatorPools.CollatorPoolInfo.RemoveOrbiter` | pallets/moonbeam-orbiters/src/types.rs:91-115 | removes the orbiter, and flags it when it is the current one |
| `CollatorPools.CollatorPoolInfo.RotateOrbiter` | pallets/moonbeam-orbiters/src/types.rs:117-138 | the pointer arithmetic of a rotation, and the old and the next orbiter it reports |
| `RoundAuthorTables.RoundAuthors.AddAuthor` | pallets/moonbeam-orbiters/src/types.rs:157-165 | one more block of this author in the ascending table |
| `RoundAuthorTables.TableIsHistogram` | pallets/moonbeam-orbiters/src/types.rs:156-171 | the table is the histogram of the author sequence, and its counters sum to the number of blocks |
| `RoundAuthorTables.TableForgetsOrder` | pallets/moonbeam-orbiters/src/types.rs:156-171 | the table does not depend on the order of the authors |
| `Orbiters.Pallet.AddOrbiterToPool` | pallets/moonbeam-orbiters/src/lib.rs:265-300 | the checks in their order, then one arrival in that pool |
| `Orbiters.Pallet.DoRemoveOrbiterFromPool` | pallets/moonbeam-orbiters/src/lib.rs:428-450 | one removal from that pool, or the error |
| `Orbiters.Pallet.Register` | pallets/moonbeam-orbiters/src/lib.rs:331-352 | the reserve becomes exactly the minimum deposit, topped up or paid back, or nothing changes |
| `Orbiters.Pallet.SomePoolContains` | pallets/moonbeam-orbiters/src/lib.rs:369-373 | the search over all pools, in whatever order storage yields them |
| `Orbiters.Pallet.Unregister` | pallets/moonbeam-orbiters/src/lib.rs:356-381 | refunds the whole reserve, unless some pool contains the account |
| `Orbiters.Pallet.AddCollatorToProgram` | pallets/moonbeam-orbiters/src/lib.rs:386-401 | a new empty pool |
| `Orbiters.Pallet.RemoveCollatorFromProgram` | pallets/moonbeam-orbiters/src/lib.rs:406-424 | the pool goes, and the overrides of the collator and of the accounts in the vector |
| `Orbiters.Pallet.RotatePool` | pallets/moonbeam-orbiters/src/lib.rs:453-516 | the closure given to translate: pool, overrides and records of one collator |
| `Orbiters.Pallet.FillRounds` | pallets/moonbeam-orbiters/src/lib.rs:491-501 | the while loop writes the selected orbiter for every round of the period, saturating at the last round |
| `Orbiters.Pallet.NewRound` | pallets/moonbeam-orbiters/src/lib.rs:524-537 | stores the round and rotates when forced or due |
| `Orbiters.Pallet.Initialize` | pallets/moonbeam-orbiters/src/lib.rs:186-201 | prunes the records of exactly one round |
| `Orbiters.Pallet.PayRewards` | pallets/moonbeam-orbiters/src/lib.rs:539-556 | takes the record and credits the orbiter when the account exists |
| `Orbiters.Pallet.LookupAccount` | pallets/moonbeam-orbiters/src/lib.rs:569-577 | reads the override after the inner lookup; while overrides belong to current orbiters, whoever it returns is the account itself or the collator it is serving |
| `Orbiters.Pallet.IsCollatorPoolWithActiveOrbiter` | pallets/moonbeam-orbiters/src/lib.rs:560-566 | true if and only if a payment for that round and collator would change the state |
| `OrbitersEffects.JoiningMeans` | pallets/moonbeam-orbiters/src/lib.rs:265-300 | every outcome of joining: each error exactly when, and on success the orbiter at the back of the queue of turns, the same current orbiter, and everything else as before |
| `OrbitersEffects.LeavingMeans` | pallets/moonbeam-orbiters/src/lib.rs:428-450 | every outcome of leaving: each error exactly when, and on success the queue of turns that is left, the current orbiter flagged if it is the one, and everything else as before |
| `OrbitersEffects.EnrollingMeans` | pallets/moonbeam-orbiters/src/lib.rs:386-401 | every outcome of enrolling: an empty pool that nobody serves, and everything else as before |
| `OrbitersEffects.RemovalMeans` | pallets/moonbeam-orbiters/src/lib.rs:406-424 | every outcome of a removal from the program: pool and listed overrides gone, and everything else as before |
| `OrbitersEffects.RotatesExactlyWhenDue` | pallets/moonbeam-orbiters/src/lib.rs:524-537 | every queue is served once, if and only if a rotation is forced or due, and the force is used up: the head becomes the current orbiter and goes to the back; an emptied pool keeps its current orbiter |
| `OrbitersFairness.RunIsTurns` | pallets/moonbeam-orbiters/src/lib.rs:265-537 | every run of the pallet is, for each collator that stays, a run of turns of its pool with the same selections |
| `OrbitersFairness.EverybodyIsAppointed` | pallets/moonbeam-orbiters/src/lib.rs:451-537 | from every reachable state and over every run: an orbiter with k others before it, who stays and is not passed over, becomes the current one at due round k+1 at the latest, whoever joins and leaves |
| `OrbitersFairness.NewcomerIsAppointed` | pallets/moonbeam-orbiters/src/lib.rs:265-300 | in particular whoever joins a pool of n is appointed within n+1 due rounds |
| `OrbitersFairness.AppointedInTurn` | pallets/moonbeam-orbiters/src/lib.rs:451-537 | from any state, while nobody leaves a pool, its orbiters are appointed in exactly the order of its queue |
| `OrbitersFairness.RelievedExactly` | pallets/moonbeam-orbiters/src/lib.rs:406-537 | one call ends the service of a current orbiter if and only if it removes the collator or is a due round with somebody else at the head of the queue |
| `OrbitersFairness.ServingKeepsDeposit` | pallets/moonbeam-orbiters/src/lib.rs:356-381 | over every run until it is relieved a current orbiter, even one that has left the vector, keeps serving and cannot unregister |
| `OrbitersFairness.RelievedGetsDepositBack` | pallets/moonbeam-orbiters/src/lib.rs:356-381 | once relieved and in no other pool it unregisters and gets the whole deposit back |
| `OrbitersRotation.RotationInClosedForm` | pallets/moonbeam-orbiters/src/lib.rs:451-522 | pools, overrides and records after visiting any distinct pools, each in terms of the state before |
| `OrbitersRotation.PoolsAndRecordsIgnoreOrder` | pallets/moonbeam-orbiters/src/lib.rs:451-522 | pools and records never depend on the order of the visits |
| `OrbitersRotation.OrderIrrelevantExactly` | pallets/moonbeam-orbiters/src/lib.rs:451-522 | the whole state is independent of the order if and only if no two pools write different values to one account's override |
| `OrbitersRotation.DisjointRotationIgnoresOrder` | pallets/moonbeam-orbiters/src/lib.rs:451-522 | with disjoint pools any two orders give the same state |
| `OrbitersExclusivity.RotationKeepsGrantedExactly` | pallets/moonbeam-orbiters/src/lib.rs:451-522 | from a state in which every override to a collator is its current orbiter's, all orders of a rotation keep that if and only if no collator is due next in its own pool and no other pool writes to a collator without writing to the orbiter that collator is about to appoint |
| `OrbitersExclusivity.RemovalKeepsGrantedExactly` | pallets/moonbeam-orbiters/src/lib.rs:406-424 | removing a collator keeps it if and only if every override to an account whose own override is cleared is cleared as well |
| `OrbitersExclusivity.RunKeepsGranted` | pallets/moonbeam-orbiters/src/lib.rs:265-537 | every run that meets these two conditions where they apply keeps it; the other calls need nothing |
| `OrbitersExclusivity.AuthoringIsExclusive` | pallets/moonbeam-orbiters/src/lib.rs:569-577 | after every such run from genesis at most one account resolves to a collator: its current orbiter, and then the collator resolves to nobody, or the collator itself |
| `OrbitersExclusivity.GuardedRunIsSafe` | pallets/moonbeam-orbiters/src/lib.rs:265-424 | guards a caller can check meet the two conditions: who joins is no collator, who enrols is in no pool, who is removed has its current orbiter in the vector; one orbiter may be in several pools |
| `OrbitersAuthority.RotationKeepsAuthority` | pallets/moonbeam-orbiters/src/lib.rs:451-522 | with disjoint pools a rotation also makes every orbiter not flagged removed author for its collator, and leaves no collator forbidden without one |
| `OrbitersAuthority.RemoveCollatorKeepsAuthority` | pallets/moonbeam-orbiters/src/lib.rs:406-424 | removing a collator whose current orbiter is in the vector keeps it |
| `OrbitersAuthority.StepKeepsDisjoint` | pallets/moonbeam-orbiters/src/lib.rs:265-424 | under guards on joining and enrolling that a caller can check, every call keeps the pools disjoint |
| `OrbitersAuthority.RunKeepsAuthority` | pallets/moonbeam-orbiters/src/lib.rs:265-537 | every run with these guards, in which who joins a pool is in no other, keeps both directions and the disjointness of the pools |
| `OrbitersAuthority.ActiveOrbitersServe` | pallets/moonbeam-orbiters/src/lib.rs:569-577 | after every such run from genesis an orbiter not flagged removed resolves to its collator and the collator to nobody; a collator without a current orbiter resolves to itself |
| `OrbitersAuthority.DanglingOverrideExactly` | pallets/moonbeam-orbiters/src/lib.rs:418-421 | removing a collator leaves an override to it if and only if its serving orbiter had left the vector |
| `OrbitersExamples.CollatorAsOrbiterSharesAuthority` | pallets/moonbeam-orbiters/src/lib.rs:265-300 | a well-formed run from genesis, for any three accounts: a collator is also an orbiter of another, and after a rotation both it and its current orbiter resolve to it, while it keeps its pool |
| `OrbitersExamples.RemovedCollatorStillServed` | pallets/moonbeam-orbiters/src/lib.rs:418-421 | a well-formed run from genesis, for any orbiter and collator, after which no pool is left and both the orbiter and the former collator resolve to the latter |
| `OrbitersExamples.SharedOrbiterMakesOrderVisible` | pallets/moonbeam-orbiters/src/lib.rs:279-281 | two well-formed runs from genesis that differ only in the order of the visits, for any orbiter and any two collators: the orbiter resolves to the collator visited last |
| `OrbitersDeposits.RunKeepsBacked` | pallets/moonbeam-orbiters/src/lib.rs:265-424 | every call and every run keep the invariant of pools, reserves and registrations |
| `OrbitersDeposits.MembershipIsBacked` | pallets/moonbeam-orbiters/src/lib.rs:265-381 | in every reachable state, however the minimum deposit was changed meanwhile, every account in any pool, as member or current orbiter, has a positive reserve; registered means exactly that; vectors are duplicate-free, within the maximum, and hold an unflagged current orbiter |
| `OrbitersDeposits.RunConserves` | pallets/moonbeam-orbiters/src/lib.rs:331-381 | over every run free plus reserved changes by what comes from outside, rewards and transfers, and by nothing else |
| `OrbitersDeposits.UnregisterRefundsExactly` | pallets/moonbeam-orbiters/src/lib.rs:356-381 | unregistering succeeds if and only if the count is sufficient and no pool contains the account, and then returns the whole deposit; each error exactly when; nobody else is touched |
| `OrbitersDeposits.RegisterReservesExactly` | pallets/moonbeam-orbiters/src/lib.rs:331-352 | registering succeeds if and only if free and reserved together cover the minimum deposit, and then reserves exactly that; each error exactly when; nobody else is touched |
| `OrbitersDeposits.JoiningSucceedsExactly` | pallets/moonbeam-orbiters/src/lib.rs:265-300 | joining succeeds if and only if the account is registered, not in that vector, and the pool has room |
| `OrbitersDeposits.LeavingSucceedsExactly` | pallets/moonbeam-orbiters/src/lib.rs:428-450 | leaving succeeds if and only if the account is in the vector; afterwards the pool contains it only while it is serving |
| `OrbitersRecords.RotationFillsExactly` | pallets/moonbeam-orbiters/src/lib.rs:491-501 | a rotation at any round up to the largest records the selected orbiter for exactly the rounds of the period that exist, for that collator, and touches no other record |
| `OrbitersRecords.ActiveOrbiterExactly` | pallets/moonbeam-orbiters/src/lib.rs:560-566 | after a new round a collator has an active orbiter for a round if and only if the rotation of that round selected one for it, or it had one before |
| `OrbitersRecords.RecordsChangeExactly` | pallets/moonbeam-orbiters/src/lib.rs:186-201 | every record after every call: written by a rotation, taken by a payment, pruned by an initialisation, or as before |
| `OrbitersRecords.PayoutsFollowRecords` | pallets/moonbeam-orbiters/src/lib.rs:539-556 | records of past rounds are never written again, and what is paid is what was recorded last |
| `OrbitersRecords.PaidAtMostOnce` | pallets/moonbeam-orbiters/src/lib.rs:539-556 | over every run each past round of each collator is paid at most once, and only to the orbiter recorded by the last rotation that wrote it |
| `OrbitersRecords.TurnIsShort` | pallets/moonbeam-orbiters/src/lib.rs:530-532 | between two rounds at which rotation is due there are fewer rounds than one rotation records |
| `OrbitersRecords.RunKeepsServed` | pallets/moonbeam-orbiters/src/lib.rs:451-537 | with consecutive rounds, a collator forbidden to author has its current orbiter recorded for every round up to the next rotation |
| `OrbitersRecords.AuthorIsRecorded` | pallets/moonbeam-orbiters/src/lib.rs:473-501 | over every run with exclusive rights and consecutive rounds, whoever authors for a collator by an override is the account recorded to be paid for the current round |
| `OrbitersRecords.RecordsAreBounded` | pallets/moonbeam-orbiters/src/lib.rs:186-201 | with a block in every round, after each initialisation all records lie strictly between the round minus the archive length and the round plus the period |
| `ForeignAssets.Pallet.DeployAndReserve` | pallets/moonbeam-foreign-assets/src/lib.rs:616-634 | contract and deposit come together; when the deposit cannot be reserved the contract is taken back and the state is as before |
| `ForeignAssets.Pallet.CreateAsset` | pallets/moonbeam-foreign-assets/src/lib.rs:586-652 | the checks in their order, a refusal by the EVM among them; contract, deposit and both maps change together, and every error leaves the state as before |
| `ForeignAssets.Pallet.Create` | pallets/moonbeam-foreign-assets/src/lib.rs:476-501 | authority over the location and the payer first; a sibling pays exactly the creation deposit from its sovereign account, governance nothing; afterwards both lookups find the asset, and every error leaves the state as before |
| `ForeignAssets.Pallet.ChangeLocation` | pallets/moonbeam-foreign-assets/src/lib.rs:508-524 | authority over both locations; afterwards both lookups give the new location and the old one is free; every error leaves the state as before |
| `ForeignAssets.Pallet.Freeze` | pallets/moonbeam-foreign-assets/src/lib.rs:529-541 | status and pause flag change together and no balance does, or the error and the state as before |
| `ForeignAssets.Pallet.Unfreeze` | pallets/moonbeam-foreign-assets/src/lib.rs:546-555 | likewise for unfreezing |
| `ForeignAssets.Pallet.DepositAsset` | pallets/moonbeam-foreign-assets/src/lib.rs:736-757 | mints unless deposits are forbidden; every error leaves the state as before |
| `ForeignAssets.Pallet.InternalTransferAsset` | pallets/moonbeam-foreign-assets/src/lib.rs:759-789 | transfers only while active, with the checks in their order; every error leaves the state as before |
| `ForeignAssets.Pallet.WithdrawAsset` | pallets/moonbeam-foreign-assets/src/lib.rs:800-816 | burns only while active; the account is converted before the status is looked at; every error leaves the state as before |
| `ForeignAssetsRuns.CreateKeepsSound` | pallets/moonbeam-foreign-assets/src/lib.rs:586-652 | creation keeps the maps inverse, the status mirrored and the number bounded; it fails in the contract only when the EVM does not deploy it |
| `ForeignAssetsRuns.ChangeKeepsSound` | pallets/moonbeam-foreign-assets/src/lib.rs:654-678 | a change of location keeps all that, and storage is never found corrupted |
| `ForeignAssetsRuns.FreezeKeepsSound` | pallets/moonbeam-foreign-assets/src/lib.rs:680-708 | freezing keeps all that, and the contract never refuses |
| `ForeignAssetsRuns.UnfreezeKeepsSound` | pallets/moonbeam-foreign-assets/src/lib.rs:710-729 | unfreezing keeps all that, and the contract never refuses |
| `ForeignAssetsRuns.LookupsAreInverse` | pallets/moonbeam-foreign-assets/src/lib.rs:819-826 | in every reachable state the two lookups are inverse to each other, the status is active exactly when the contract is not paused, and the number of assets is within the limit |
| `ForeignAssetsRuns.InternalErrorsUnreachable` | pallets/moonbeam-foreign-assets/src/lib.rs:660-720 | in every reachable state no call reports corrupted storage, a failed pause or unpause, or a contract address already taken |
| `ForeignAssetsRuns.UnfreezeUndoesFreeze` | pallets/moonbeam-foreign-assets/src/lib.rs:680-729 | freezing in either way and unfreezing restores the whole state |
| `ForeignAssetsRuns.MovingBackUndoesMoving` | pallets/moonbeam-foreign-assets/src/lib.rs:654-678 | moving an asset and moving it back restores the whole state |
| `ForeignAssets.CanModify` | pallets/moonbeam-foreign-assets/src/lib.rs:556-572 | an origin may modify a location if and only if it is governance, or the location has the parents of the origin's and its interior followed by anything |
| `ForeignAssets.DepositAccount` | pallets/moonbeam-foreign-assets/src/lib.rs:574-584 | governance pays no deposit; a sibling parachain pays from its sovereign account; any other origin, or one without an account, is refused |
| `ForeignAssetsRuns.AuthorityExactly` | pallets/moonbeam-foreign-assets/src/lib.rs:476-572 | a managing call is refused for its location if and only if the new location or that of the asset is not at or below the origin's |
| `ForeignAssetsRuns.SiblingsDoNotInterfere` | pallets/moonbeam-foreign-assets/src/lib.rs:476-572 | over every run in which one origin manages: assets not at or below its location keep location, status and pause flag, its own stay there, new ones are there |
| `ForeignAssetsRuns.SiblingParachainsAreApart` | pallets/moonbeam-foreign-assets/src/lib.rs:476-572 | over every run in which one parachain manages, every asset of another parachain keeps location, status and pause flag |
| `ForeignAssetsRuns.FrozenHolds` | pallets/moonbeam-foreign-assets/src/lib.rs:736-816 | over every run in which nobody who may modify a frozen asset unfreezes it, refused attempts allowed, no balance of it falls, and with deposits forbidden none changes |
| `ForeignAssetsRegistry.RunKeepsBook` | pallets/moonbeam-foreign-assets/src/lib.rs:476-729 | over every run the two maps, the deposit details, the contracts and the balances answer every managing call as a book with one listing per asset does, refused calls included, and stay in agreement with it |
| `ForeignAssetsRegistry.LookupsFollowBook` | pallets/moonbeam-foreign-assets/src/lib.rs:819-826 | from the start: location, status and creator of every asset, and the lookup by location, are what the book says after the same calls |
| `ForeignAssetsEffects.RunConservesBalances` | pallets/moonbeam-foreign-assets/src/lib.rs:611-630 | over every run, from any state, free plus reserved of every account changes only by what the rest of the runtime brings |
| `ForeignAssetsEffects.ReservesMatchAssets` | pallets/moonbeam-foreign-assets/src/lib.rs:611-630 | in every run an account's reserve is what the rest of the runtime reserved, plus one creation deposit for each asset recorded as created by it |
| `ForeignAssetsEffects.CallsSucceedExactly` | pallets/moonbeam-foreign-assets/src/lib.rs:476-555 | when creation, change, freeze and unfreeze succeed, in terms of lookups, limits, authority and the balance of the payer |
| `ForeignAssetsEffects.ManagingRefusals` | pallets/moonbeam-foreign-assets/src/lib.rs:476-729 | every refusal of a managing call names an obstacle that is there, and changes nothing |
| `ForeignAssetsEffects.DepositAnswers` | pallets/moonbeam-foreign-assets/src/lib.rs:736-757 | for any asset and account: a deposit succeeds if and only if the asset is handled, the account known, and the asset active, or frozen with deposits allowed by a contract that mints while paused; each refusal exactly when |
| `ForeignAssetsEffects.WithdrawalAnswers` | pallets/moonbeam-foreign-assets/src/lib.rs:800-816 | a withdrawal succeeds if and only if the asset is active, the account known and the balance sufficient; each refusal exactly when |
| `ForeignAssetsEffects.TransferAnswers` | pallets/moonbeam-foreign-assets/src/lib.rs:759-789 | likewise for a transfer, where the status comes before the accounts |
| `ForeignAssetsEffects.PausingMeans` | pallets/moonbeam-foreign-assets/resources/foreign_erc20.sol:23-29 | pausing is refused exactly when paused, unpausing exactly when not, and each undoes the other |
| `ForeignAssetsEffects.RunConservesTokens` | pallets/moonbeam-foreign-assets/src/lib.rs:736-816 | over every run the holdings of every asset change by what successful calls mint, burn and transfer, and by nothing else |
| `ForeignAssetsEffects.ChangeMeans` | pallets/moonbeam-foreign-assets/src/lib.rs:654-678 | the asset moves to the new location, the old one is free, every status stays |
| `Utf8.DecodeEncode` | pallets/moonbeam-foreign-assets/src/evm.rs:538-541 | every string survives encoding to UTF-8 and decoding |
| `Utf8.EncodeDecode` | pallets/moonbeam-foreign-assets/src/evm.rs:538-541 | bytes that decode are the one encoding of what they decode to |
| `RevertMessage.ExtractInvertsEncoding` | pallets/moonbeam-foreign-assets/src/evm.rs:520-542 | for every non-empty reason, extraction from its Error(string) encoding, whatever follows, gives the base message, a space and the reason |
| `RevertMessage.EmptyReasonIsDropped` | pallets/moonbeam-foreign-assets/src/evm.rs:524-527 | the encoding of an empty reason gives the base message |
| `RevertMessage.TruncatedDataIsDropped` | pallets/moonbeam-foreign-assets/src/evm.rs:529-535 | data cut anywhere before the end of the reason gives the base message |
| `RevertMessage.ReportedExactly` | pallets/moonbeam-foreign-assets/src/evm.rs:520-542 | for any data: a reason is reported if and only if the length word stands for bytes that are all there and they are the encoding of that reason |

## Left out

- Candidate side of staking: top and bottom delegation lists, candidate bonds, the total locked value and balance locks. What it decides about a call (refuse, take or kick a delegation, leave from which round) is a parameter; its other updates succeed.
- The status field of a delegator: none of the calls modelled looks at it.
- Events, weights, benchmarks, migrations, genesis lists, and the privileged-origin and account lookups before each call.
- The existential deposit and limits on named reserves: an account exists once it has a free balance entry, and a reserve succeeds when the free balance covers it.
- EVM execution, gas, and call encoding: contracts are ideal ledgers with a pause flag, without overflow of the token supply and without zero-address checks.
- `mint_into`, `transfer` and `approve` of the foreign assets pallet called by other pallets: they bypass the asset status.
- Decimals, token symbol and name inside the contract of a foreign asset; only the UTF-8 check of symbol and name is modelled.
- `gas_limit_of_erc20_transfer` and the asset test of the ERC-20 bridge: pure lookups that add only easy members.
- The rest of an XCM program: the executor holding of other assets, asset traps and fees.
- `BoundedOrderedSet::clear`, which cannot be applied usefully, since it consumes the set.
- Why the EVM deploys or refuses the contract of a foreign asset: its answer is a parameter of the configuration.
- Utf8.DecodeEncode: states the codec the revert message relies on; `core::str::from_utf8` itself is not part of this model.
- Inflation, the node, RPC, precompiles, and the other pallets of the runtime.

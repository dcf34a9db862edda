# Primora: a verified model

Primora mines a virtual currency, PRM, off-chain and settles it on-chain. This project
models the parts that decide who gets how much of it, and proves what they keep over whole
runs. `dafny verify dfyconfig.toml` checks everything.

- **On-chain custody and minting.** `PrimToken`, `MiningContract`, `NodeRegistry` and
  `StakingContract` each give the contract's storage as a value, every call as a function
  that returns or reverts, and the deployed contract as a class whose methods update the
  storage in place and agree with those functions, error by error. Each contract keeps the
  log of events it emits, and its safety results speak about that log alone. `World`
  composes the contracts over one token, wired as the deployment script does. For the mint
  contract and the registry `Answer` is a second, independent reading of each call, from the
  event log alone; for staking, `Position` reads a user's own calls alone. `FollowsHistory` and
  `FollowsPositions` prove that storage gives the same answers in every run.
- **Attestation.** `Attestation` has the seeded in-place shuffle and the loop that counts
  verified signers among arbitrary answers. Key recovery and the nodes' answers are
  parameters.
- **Backend protocols.** `EndSession` is a state machine of concurrent handlers,
  `SessionVisits` says how a handler finishes and `SessionRecords` what is held for a session;
  `RateLimiter`, `NonceStore` and `SessionHashrate` are the stores behind them.
- **Arithmetic.** `Payout` is the payout chain with explicit 128-bit overflow, `Boost` the
  cross-chain boost against the contracts' own, `Oracle` the price guard and the session
  average, `Settlement` the bridge from a session to the block ceiling.
- `Evm` and `Basics` hold what these share.

A reverting call changes nothing. Mappings are maps with a zero default, a mapping to `bool`
is the set of its true keys. Callers are any addresses other than the contracts themselves.
Where a contract writes storage before it calls the token, the model calls the token first;
without re-entrancy the two orders end in the same states.

## Where the code and its description differ

- The attestation result is described with the assigned node at index 0
  (`crates/common/src/lib.rs`, lines 268 and 346). The code has it there if and only if the
  assigned node's own answer was verified: `Attestation.AssignedFirst`. When the assigned node
  is the silent one of four, the attestation succeeds with another node at index 0:
  `Attestation.SilentLeadNotFirst`, and `Attestation.SilentLeadExample` for a concrete input.
- Slashing is described as a consensus of observing nodes on a proposal. `confirmSlash` checks
  neither that the proposal exists nor that the observer is a node, so two confirmations of an
  unused id slash the node with id zero: `NodeRegistry.UnproposedSlash`, with a run that burns
  tokens this way in `NodeRegistry.UnproposedBurn`. A caller can tell by
  the stored proposal time: `NodeRegistry.ProposedIffStamped`.
- Re-proposing a mint resets the approval count but not the recorded approvals. Quorum is not
  weakened (`MiningContract.EveryMintHasQuorum`), but signers that approved before cannot
  approve again: `MiningContract.QuorumReachable` says exactly when three approvals can still
  be reached, and `MiningContract.QuorumLost` gives a run after which they cannot.
- A node id can be slashed 255 times at most. `NodeRegistry.SlashesRunOut` gives a run that
  gets there, after which the checked 8-bit violation counter reverts the next slash;
  `NodeRegistry.NeverSlashedAgain` says that no continuation gets past it, and
  `World.SlashSolvent` when a slash goes through.
- With a zero minimum stake, revenue distribution can divide by zero:
  `StakingContract.ZeroMinimumCanDivideByZero`, and `StakingContract.DistributionExact` for
  the exact condition.
- One session is described as far below the block ceiling. The exact limit is 142,857 seconds,
  a little under 40 hours, at the highest rate and boost: `Payout.SessionBelowMillion` and
  `Payout.MillionIsTight`.

## Model

| member | source | states |
|---|---|---|
| `PrimToken.TransferEffect` | contracts/src/PrimToken.sol:14 | an ERC-20 transfer changes exactly the two balances by the amount and keeps supply = sum of balances, also when sender and receiver coincide |
| `PrimToken.TransferFromEffect` | contracts/src/PrimToken.sol:14 | a pull needs the allowance or the unlimited one, moves balances like a transfer, uses up that much of a limited allowance and none of the unlimited one, and touches no other |
| `PrimToken.MintEffect` | contracts/src/PrimToken.sol:74-79 | only the minter mints; supply and the receiver's balance grow by the amount and stay equal in sum |
| `PrimToken.BurnEffect` | contracts/src/PrimToken.sol:85-88 | only the burner burns; supply and the holder's balance shrink by the amount and stay equal in sum |
| `PrimToken.ApproveEffect` | contracts/src/PrimToken.sol:14 | an approval sets exactly its allowance |
| `PrimToken.CallsReturnIff` | contracts/src/PrimToken.sol:74-88 | transfer, pull, mint and burn go through if and only if tokens, allowance or role, room in the word and non-zero addresses are there |
| `PrimToken.AllowanceConserved` | contracts/src/PrimToken.sol:14 | in every run between two approvals, whatever anyone calls, the remaining allowance and what was pulled under it add up to what was approved |
| `PrimToken.Token.SetMinter` | contracts/src/PrimToken.sol:57-61 | only the owner changes the minter, never to the zero address |
| `PrimToken.Token.SetBurner` | contracts/src/PrimToken.sol:65-69 | only the owner changes the burner, never to the zero address |
| `PrimToken.Token.Transfer` | contracts/src/PrimToken.sol:14 | in-place transfer reaches the specified ledger or reverts and leaves it |
| `PrimToken.Token.TransferFrom` | contracts/src/PrimToken.sol:14 | in-place pull reaches the specified ledger or reverts with the allowance restored |
| `PrimToken.Token.Mint` | contracts/src/PrimToken.sol:74-79 | in-place mint reaches the specified ledger or reverts and leaves it |
| `PrimToken.Token.Burn` | contracts/src/PrimToken.sol:85-88 | in-place burn reaches the specified ledger or reverts and leaves it |
| `MiningContract.EveryMintHasQuorum` | contracts/src/MiningContract.sol:158-214 | in every run, each executed mint carries terms last written at least 48 hours earlier, which nothing rewrote, cancelled or executed in between, and which at least three distinct addresses approved since, each a signer when it approved |
| `MiningContract.SessionMintedOnce` | contracts/src/MiningContract.sol:164-212 | in every run no two executed mints settle the same session, whichever proposals name it and however ids are overwritten |
| `MiningContract.BlockCeiling` | contracts/src/MiningContract.sol:194-214 | in every run the counter of a block is the sum executed in it, and is within the ceiling in force at an execution in that block |
| `MiningContract.SignerCountExact` | contracts/src/MiningContract.sol:127-143 | in every run the signer counter is the size of the signer set, which is what additions and removals leave, at most five |
| `MiningContract.QuorumReachable` | contracts/src/MiningContract.sol:165-188 | approvals of overwritten terms stay spent: a pending proposal can reach three approvals without new signers or a rewrite if and only if its approvals plus the signers that never approved its id are at least three |
| `MiningContract.QuorumLost` | contracts/src/MiningContract.sol:165-188 | a reachable failing state: three signers approve a proposal, it is proposed again, and no continuation without a new signer or a third proposal gives it any approval |
| `MiningContract.FollowsHistory` | contracts/src/MiningContract.sol:127-224 | in every run each call answers as the event history alone demands, error by error and in numbers: it reverts with exactly that error, or emits exactly that event and mints exactly for an execution |
| `MiningContract.PerformKeepsInv` | contracts/src/MiningContract.sol:127-224 | every successful call keeps the invariant relating storage to the event log, and only an execution mints, to the stored recipient, the stored amount |
| `MiningContract.Mining.AddSigner` | contracts/src/MiningContract.sol:127-134 | in-place call agrees with its specification, error by error, and keeps the invariant |
| `MiningContract.Mining.RemoveSigner` | contracts/src/MiningContract.sol:138-143 | the same; under the invariant the counter never underflows |
| `MiningContract.Mining.SetMintCeiling` | contracts/src/MiningContract.sol:148-151 | the same |
| `MiningContract.Mining.ProposeMint` | contracts/src/MiningContract.sol:158-175 | the same; whatever was stored under the id is overwritten, recorded approvals are not |
| `MiningContract.Mining.ApproveMint` | contracts/src/MiningContract.sol:179-189 | the same |
| `MiningContract.Mining.ExecuteMint` | contracts/src/MiningContract.sol:194-214 | the same for the pair of contract and token: both change as specified or neither does |
| `MiningContract.Mining.CancelMint` | contracts/src/MiningContract.sol:218-224 | the same; an id never proposed can be cancelled |
| `NodeRegistry.EverySlashConfirmed` | contracts/src/NodeRegistry.sol:162-216 | in every run each executed slash has two distinct observers that confirmed its terms since they were last written, and comes at least 4 hours after that |
| `NodeRegistry.SlashTerminal` | contracts/src/NodeRegistry.sol:184-226 | in every run no proposal id is executed twice or both executed and vetoed, in either order, whatever is proposed under it again |
| `NodeRegistry.StakeConserved` | contracts/src/NodeRegistry.sol:131-216 | in every run deposits equal hand-backs plus burns plus held stake, overall and per node; a node is active exactly while it holds stake; its violation count is the number of slashes it ever had, at most 255 |
| `NodeRegistry.SlashEscalates` | contracts/src/NodeRegistry.sol:197-239 | in every run a registration finds no live stake; a logged slash on stake x burns x / 20 for downtime, and for an invalid attestation x / 10, x / 4 and then x, by the number of earlier slashes, across re-registrations |
| `NodeRegistry.SlashesRunOut` | contracts/src/NodeRegistry.sol:197-216 | a run reaches 255 violations of one node, and the next slash, confirmed and waited out, reverts |
| `NodeRegistry.NeverSlashedAgain` | contracts/src/NodeRegistry.sol:197-216 | in every continuation of every run that reached 255 violations of a node, no further slash of it is logged |
| `NodeRegistry.FollowsHistory` | contracts/src/NodeRegistry.sol:131-239 | in every run each call answers as the event history alone demands, error by error and in numbers, and moves exactly the tokens of the events it emits |
| `NodeRegistry.SlashLeaves` | contracts/src/NodeRegistry.sol:205-212 | a slash never exceeds the stake and takes all of it exactly for a third invalid attestation or an empty stake |
| `NodeRegistry.RegisterRoundTrip` | contracts/src/NodeRegistry.sol:131-154 | deregistering right after registering restores every balance |
| `NodeRegistry.UnproposedSlash` | contracts/src/NodeRegistry.sol:184-216 | an executed slash need not have been proposed: two confirmations of an untouched id slash the node with id zero |
| `NodeRegistry.UnproposedBurn` | contracts/src/NodeRegistry.sol:131-216 | a run from the empty registry: node zero registers, nothing is ever proposed, and a tenth of its stake is burned |
| `NodeRegistry.ProposedIffStamped` | contracts/src/NodeRegistry.sol:162-176 | with positive timestamps an id was proposed if and only if its stored proposal time is not zero |
| `NodeRegistry.PerformKeepsInv` | contracts/src/NodeRegistry.sol:131-226 | every successful call keeps the invariant relating nodes and proposals to the event log |
| `NodeRegistry.Registry.RegisterNode` | contracts/src/NodeRegistry.sol:131-141 | in-place call agrees with its specification for contract and token, error by error, and keeps the invariant |
| `NodeRegistry.Registry.DeregisterNode` | contracts/src/NodeRegistry.sol:145-154 | the same |
| `NodeRegistry.Registry.ProposeSlash` | contracts/src/NodeRegistry.sol:162-179 | the same; confirmations on record and terminal flags survive a rewrite |
| `NodeRegistry.Registry.ConfirmSlash` | contracts/src/NodeRegistry.sol:184-192 | the same |
| `NodeRegistry.Registry.ExecuteSlash` | contracts/src/NodeRegistry.sol:197-216 | the same for contract and token |
| `NodeRegistry.Registry.VetoSlash` | contracts/src/NodeRegistry.sol:220-226 | the same |
| `StakingContract.DistributionExact` | contracts/src/StakingContract.sol:196-214 | a distribution succeeds if and only if the owner pulls a positive amount, no product overflows and no staker is active while nothing is staked; then each active staker gets exactly the floor of its share, the owner pays the total, the contract keeps the rest, which is below the number of active stakers, and no other balance moves |
| `StakingContract.NeverDividesByZero` | contracts/src/StakingContract.sol:202-207 | with a positive minimum stake an active staker implies a positive total |
| `StakingContract.ZeroMinimumCanDivideByZero` | contracts/src/StakingContract.sol:120-146 | with a zero minimum one empty stake alone makes every distribution fail |
| `StakingContract.IndexAgrees` | contracts/src/StakingContract.sol:120-159 | in every run the total is the sum of the stakes, over the mapping and over the index; inactive stakes are empty; the index is free of repetition, matches the membership map and contains every active user |
| `StakingContract.LocksHold` | contracts/src/StakingContract.sol:123-152 | in every run a withdrawal happens only after the recorded lock; a chain without locks records 30 days and enforces none |
| `StakingContract.LockedUntil` | contracts/src/StakingContract.sol:120-152 | no run of calls before the chosen lock ends changes the stake in any field |
| `StakingContract.StakeRoundTrip` | contracts/src/StakingContract.sol:120-159 | unstaking after the lock restores every balance and the total |
| `StakingContract.PositionsExact` | contracts/src/StakingContract.sol:120-159 | in every run a user's stake is what its own successful calls made it, with 30, 90 or 180 days in seconds; nobody else's calls and no total play a part |
| `StakingContract.FollowsPositions` | contracts/src/StakingContract.sol:120-159 | in every run staking and unstaking answer by the caller's position alone, error by error, and move exactly its tokens |
| `StakingContract.IndexedIffStaked` | contracts/src/StakingContract.sol:137-141 | in every run the index membership is exactly that of everyone who ever had a stake |
| `StakingContract.BoostsInNumbers` | contracts/src/StakingContract.sol:165-188 | the effective boost for every stake and lock, in basis points |
| `StakingContract.Staking.Stake` | contracts/src/StakingContract.sol:120-146 | in-place call agrees with its specification for contract and token, error by error, and keeps the invariant |
| `StakingContract.Staking.Unstake` | contracts/src/StakingContract.sol:149-159 | the same; under the invariant the total never underflows |
| `StakingContract.Staking.DistributeRevenue` | contracts/src/StakingContract.sol:196-214 | in-place distribution, also when the reward token is the staked one, agrees with its specification, undoes all payments on failure, and counts the active stakers |
| `StakingContract.Staking.PayStakers` | contracts/src/StakingContract.sol:199-213 | the loop over the index pays as the recursive specification does |
| `World.SupplyAndCustody` | contracts/script/Deploy.s.sol:126-127 | in every run of all contracts by outside callers, PRM rewards included: supply = sum of balances = executed mints - slashed burns, the registry covers all node stakes, the staking contract covers everything staked, both together fit the supply |
| `World.UnstakeSolvent` | contracts/src/StakingContract.sol:149-159 | in every run unstaking succeeds if and only if the stake is active and unlocked, and pays it in full |
| `World.DeregisterSolvent` | contracts/src/NodeRegistry.sol:145-154 | in every run deregistering succeeds if and only if the caller operates the active node, and pays its whole stake |
| `World.SlashSolvent` | contracts/src/NodeRegistry.sol:197-214 | in every run a slash succeeds if and only if the owner calls, the proposal is open, confirmed twice and past its window, the node has fewer than 255 violations and the scaled stake fits a word: the burn itself never stops it |
| `World.MintSolvent` | contracts/src/MiningContract.sol:194-214 | in every run an execution goes through if and only if the owner calls it on a stored, open proposal with three approvals, 48 hours old, of a session not minted, within the block ceiling and the supply's word; the recipient gets exactly the stored amount |
| `World.CallsTakeEffect` | contracts/script/Deploy.s.sol:126-127 | a call that goes through changes its own contract and the token together and nothing else; one that reverts changes nothing |
| `Attestation.Shuffle` | crates/node-coordinator/src/lib.rs:131-136 | the in-place seeded swaps compute the specified reordering |
| `Attestation.ShuffleInvertible` | crates/node-coordinator/src/lib.rs:131-136 | for every seed the reordering can be undone |
| `Attestation.ShuffleKeeps` | crates/node-coordinator/src/lib.rs:131-136 | the reordering is a permutation |
| `Attestation.EveryOrderReachable` | crates/node-coordinator/src/lib.rs:131-136 | the seed decides: any order of a pool of up to 32 nodes has a seed that brings it about |
| `Attestation.ShuffleExample` | crates/node-coordinator/src/lib.rs:131-136 | which byte moves which node, in an example |
| `Attestation.OthersInOrder` | crates/node-coordinator/src/lib.rs:125-130 | filtering keeps the order of the pool |
| `Attestation.SelectNodes` | crates/node-coordinator/src/lib.rs:124-138 | filter, shuffle and truncation compute the specified selection |
| `Attestation.SelectionSound` | crates/node-coordinator/src/lib.rs:121-138 | three other nodes or all there are, eligible, never the excluded one, without repetition if the pool has none |
| `Attestation.Collect` | crates/node-coordinator/src/lib.rs:188-225 | the filtering loop lists exactly the answers that prove a registered address for the first time, with their nodes and addresses, in order |
| `Attestation.Collected` | crates/node-coordinator/src/lib.rs:188-225 | the listed signers are pairwise distinct, each the registered key of the node beside it, as many as there are distinct proven addresses |
| `Attestation.CountedDistinct` | crates/node-coordinator/src/lib.rs:214-224 | as many answers count as there are distinct proven addresses |
| `Attestation.CoordinateAttestation` | crates/node-coordinator/src/lib.rs:176-250 | succeeds if and only if at least three distinct registered addresses are proven, and reports the exact count otherwise; the signers of a success are pairwise distinct, each the registered key of the node listed beside it |
| `Attestation.OneFaultTolerated` | crates/node-coordinator/src/lib.rs:183-249 | with four distinct targets and distinct registered keys, three honest answers suffice whatever the fourth does and whichever nodes the seed selects |
| `Attestation.QuorumsIntersect` | crates/node-coordinator/src/lib.rs:22-25 | a sufficient attestation has at least two nodes besides any faulty one, and two sufficient ones over the same targets share at least two nodes |
| `Attestation.AssignedFirst` | crates/node-coordinator/src/lib.rs:183-224 | the assigned node is at index 0 of the result if and only if its own answer was proven |
| `Attestation.SilentLeadNotFirst` | crates/node-coordinator/src/lib.rs:183-224 | whenever the assigned node is silent and the other three are honest, the attestation is sufficient and another node is at index 0 |
| `Attestation.SilentLeadExample` | crates/node-coordinator/src/lib.rs:183-224 | a concrete setting in which that happens, for every seed |
| `Payout.SettleIdeal` | crates/payout-calculator/src/lib.rs:130-172 | a computation without overflow is the chain of floors; the three divisions of the redemption are one floor |
| `Payout.SettleInNumbers` | crates/payout-calculator/src/lib.rs:130-240 | each figure of the chain is the floor it should be, as two inequalities, with every commodity's difficulty and multiplier in numbers |
| `Payout.SettlesIff` | crates/payout-calculator/src/lib.rs:130-172 | the computation goes through if and only if each product in it fits 128 bits |
| `Payout.SettleMonotone` | crates/payout-calculator/src/lib.rs:130-172 | through all floors the payout grows with hashrate, duration, price and boost, shrinks with the edge, and overflows on no smaller input |
| `Payout.SplittingNeverPaysMore` | crates/verification-service/src/lib.rs:815-840 | for any partition of a duration on the same terms every piece settles, and the summed cents, and wei below saturation, are at most those of the whole |
| `Payout.NetPrecision` | crates/payout-calculator/src/lib.rs:257-286 | at prices up to $100,000 and boosts up to 40% the net never exceeds the exact rational formula and is less than 3 micro-dollars below it |
| `Payout.NoOverflowInRange` | crates/payout-calculator/src/lib.rs:130-172 | no 128-bit intermediate overflows for hashrate up to 5,000, ten years and $100,000 with the default coefficients |
| `Payout.SessionBelowMillion` | crates/payout-calculator/src/lib.rs:39-41 | at most 142,857 seconds mint at most 1,000,000 PRM |
| `Payout.MillionIsTight` | crates/payout-calculator/src/lib.rs:39-41 | one second more, at the highest rate and boost and any price up to $100,000, settles without overflow and exceeds it |
| `Payout.CalibrationExample` | crates/payout-calculator/src/lib.rs:85-105 | the documented gold example: redemption $18.455040, net $15.317683 |
| `Boost.EthereumAgrees` | crates/payout-calculator/src/lib.rs:226-240 | for a stake on Ethereum alone the backend's boost is the contract's |
| `Boost.PolygonAgreesIff` | crates/payout-calculator/src/lib.rs:226-240 | for a Polygon stake alone it is if and only if the tier grants nothing or the recorded lock is 30 days |
| `Boost.PolygonAgrees` | contracts/src/StakingContract.sol:123-131 | which holds in every run of a contract that requires no lock |
| `Boost.CombinedDominates` | crates/payout-calculator/src/lib.rs:213-240 | the combined boost is at least either chain's own and at most 4,000 |
| `Boost.BothChainsCount` | crates/payout-calculator/src/lib.rs:213-240 | stakes on both chains get what the contract grants to one stake of their sum under the Ethereum lock; a missing chain, a failed read and an inactive stake count as nothing |
| `Boost.ResolveChainStake` | crates/verification-service/src/lib.rs:579-611 | a chain is listed once if configured; a failed read or inactive stake counts as none |
| `Boost.BuildSummary` | crates/verification-service/src/lib.rs:617-639 | the summary lists Ethereum then Polygon, totals the active stakes saturating, and caps the boost |
| `Oracle.Aggregator.SubmitPrice` | contracts/src/OracleAggregator.sol:85-99 | in-place call agrees with its specification, the checked product included, and keeps stored prices positive, so the guard never divides by zero |
| `Oracle.Aggregator.ForceSubmitPrice` | contracts/src/OracleAggregator.sol:135-139 | the same without the guard |
| `Oracle.Aggregator.SetSubmitter` | contracts/src/OracleAggregator.sol:75-79 | the same |
| `Oracle.AcceptedIff` | contracts/src/OracleAggregator.sol:89-96 | the rounded 2% guard accepts exactly the prices strictly between 97.99% and 102.01% whose scaled difference fits a word, which all of them do for a stored price up to a 201st of a word |
| `Oracle.PriceCallsStore` | contracts/src/OracleAggregator.sol:75-139 | each call goes through if and only if its caller, value and, for a submission, the guard in numbers allow it, and then the store reads exactly the named price at that time and everything else as before |
| `Oracle.SubmissionRefused` | contracts/src/OracleAggregator.sol:85-96 | exactly which error refuses a submission, with the reported divergence in basis points, rounded down |
| `Oracle.StoredIsNamed` | contracts/src/OracleAggregator.sol:85-139 | in every run the store reads what the last accepted submission or override named |
| `Oracle.Drift` | contracts/src/OracleAggregator.sol:85-99 | in every run without an override, n accepted prices move the stored one by a factor between 0.9799^n and 1.0201^n |
| `Oracle.AveragePasses` | crates/twap-calculator/src/lib.rs:71-80 | if every sample would pass the guard against a stored price, so does their rounded average |
| `Oracle.AverageFloors` | crates/twap-calculator/src/lib.rs:71-80 | the average is the largest number that fits the sum once per sample |
| `Oracle.SumAdds` | crates/twap-calculator/src/lib.rs:71-80 | the sum is additive over samples |
| `Oracle.TwapCalculator.AddSample` | crates/twap-calculator/src/lib.rs:64-69 | samples from before the session are dropped, others appended in order |
| `Oracle.TwapCalculator.Calculate` | crates/twap-calculator/src/lib.rs:73-80 | the loop computes the average rounded down, or nothing without samples |
| `Oracle.SumFits` | crates/twap-calculator/src/lib.rs:77-79 | the sum stays within 128 bits while count times highest price does, as for any 10^25 samples up to $100,000 |
| `Oracle.TwapCalculator.Finalize` | crates/twap-calculator/src/lib.rs:100-109 | a result exists exactly with samples; validity is the 600-second span to the latest one |
| `RateLimiter.Limiter.Check` | crates/rate-limiter/src/lib.rs:72-92 | increment, first-request expiry and decision; no other key changes |
| `RateLimiter.KeysIndependent` | crates/rate-limiter/src/lib.rs:72-92 | a key's counter depends on the times of its own requests only |
| `RateLimiter.CounterIsPosition` | crates/rate-limiter/src/lib.rs:79-86 | the counter is the position in the window and its end never moves, whatever is denied |
| `RateLimiter.FirstOfWindowAllowed` | crates/rate-limiter/src/lib.rs:87-91 | each window allows exactly its first `limit` requests |
| `RateLimiter.AtMostTwoLimits` | crates/rate-limiter/src/lib.rs:72-92 | any closed interval of one window length holds at most 2 * limit allowed requests |
| `RateLimiter.TwoLimitsAttained` | crates/rate-limiter/src/lib.rs:72-92 | the bound is attained by two bursts of `limit` requests one window length apart |
| `RateLimiter.HalfOpenBound` | crates/rate-limiter/src/lib.rs:72-92 | any half-open one at most 2 * limit - 1 |
| `NonceStore.Store.Issue` | crates/verification-service/src/admin.rs:56-63 | expired entries are pruned, then the nonce is inserted |
| `NonceStore.Store.Consume` | crates/verification-service/src/admin.rs:67-73 | the entry is removed in any case; the answer is whether it was there and unexpired |
| `NonceStore.PruningInvisible` | crates/verification-service/src/admin.rs:56-73 | for every well-timed sequence the pruned store answers exactly as a history that never forgets, even when the issuing time was read before the lock |
| `NonceStore.SucceedsOnce` | crates/verification-service/src/admin.rs:65-73 | each issued nonce succeeds at most once |
| `NonceStore.SucceedsInTime` | crates/verification-service/src/admin.rs:65-73 | a nonce succeeds only after it was issued, and strictly within its lifetime |
| `SessionHashrate.Session.RecordAcceptedProof` | crates/session-manager/src/lib.rs:271-302 | the first proof anchors, later ones add work, a failing increment changes nothing; it succeeds exactly for a first proof or a sum within 64 signed bits |
| `SessionHashrate.Session.TouchLastActivity` | crates/session-manager/src/lib.rs:341-356 | only the activity time is written |
| `SessionHashrate.Session.GetSessionHashrate` | crates/session-manager/src/lib.rs:310-336 | the derived rate, within the client's maximum |
| `SessionHashrate.AccumulatorExact` | crates/session-manager/src/lib.rs:266-302 | for every sequence of accepted proofs the accumulator is the work after the first, as long as that fits 64 signed bits |
| `SessionHashrate.CountsOrNot` | crates/session-manager/src/lib.rs:289-302 | a later proof counts in full or, where its work would leave 64 signed bits, not at all |
| `SessionHashrate.SessionRate` | crates/session-manager/src/lib.rs:304-336 | the rate of a session in closed form, at most 400, 4,000 or 5,000 by client |
| `SessionHashrate.SessionMintBound` | crates/mint-ceiling/src/lib.rs:64-71 | no session of at most 142,857 seconds mints more than 1,000,000 PRM, whatever its proofs, client and boost |
| `Settlement.LoneSessionFitsBlock` | contracts/src/MiningContract.sol:205-208 | in every run of the backend, the mint proposed for a session of at most 142,857 seconds, alone in its block, is never refused for the deployed ceiling |
| `EndSession.AtMostOneProposal` | crates/verification-service/src/lib.rs:741-755 | under every interleaving of end requests a session gets at most one proposal |
| `EndSession.ProposalsFaithful` | crates/verification-service/src/lib.rs:792-907 | each proposal carries the wallet, commodity and chain fixed at creation; at least three distinct signers, each the key registered at start-up for its node, whose signatures are over the hash of the session's first stored proof; and the settlement of the average and duration of the one calculator taken for it, of the rate of the session's own proofs and of the wallet's boost; and fits the daily ceiling with the total its check read |
| `EndSession.ProposalInNumbers` | crates/verification-service/src/lib.rs:800-845 | each proposal's amount and cents are the chain in numbers on the closed-form rate of the proofs read, the boost that the staking contract grants to what both chains hold, the average taken, the commodity fixed at creation and the edge read |
| `EndSession.OneChainBoost` | crates/verification-service/src/lib.rs:617-639 | for a stake on one chain only that boost is the chain's own: on Ethereum for every lock, on Polygon for the recorded 30 days |
| `EndSession.ProposalBelowMillion` | crates/verification-service/src/lib.rs:800-840 | under every interleaving, whatever proofs and stakes, a session of at most 142,857 seconds gets a proposal of at most 1,000,000 PRM |
| `EndSession.SubmittedAveragePasses` | crates/verification-service/src/lib.rs:741-778 | if every sample taken for a session would pass the price store's guard, so does the average it submits, whether or not a proposal follows |
| `EndSession.OneHandlerOwns` | crates/verification-service/src/lib.rs:741-755 | once one handler has taken a session's samples no other ever gets past that point, so a failed attestation or ceiling check is final |
| `EndSession.CeilingCheckExact` | crates/verification-service/src/lib.rs:864-869 | the daily ceiling is three times users times average, in wei, with the token count saturating at 64 bits; it never saturates 128 bits, so the saturating check accepts exactly the true sums within it |
| `EndSession.RunKeepsInv` | crates/verification-service/src/lib.rs:374-396 | every interleaving of creation and end steps keeps the ownership invariant |
| `SessionVisits.VisitEnds` | crates/verification-service/src/lib.rs:710-940 | an undisturbed handler ends with the first of its conditions that fails, or completed, and its session gets a proposal if and only if it is completed |
| `SessionVisits.OthersLeave` | crates/verification-service/src/lib.rs:741-755 | no step of another handler, or around the handlers, moves a handler |
| `SessionVisits.CreationTakesEffect` | crates/verification-service/src/lib.rs:374-396 | a session can be ended from its creation on |
| `SessionVisits.ContextStays` | crates/verification-service/src/lib.rs:912-917 | and until it expires or a handler that stored its proposal deletes it |
| `SessionRecords.SessionsIndependent` | crates/verification-service/src/lib.rs:374-396 | a step changes what is held for its own session only |
| `SessionRecords.RecordsFaithful` | crates/verification-service/src/lib.rs:374-396 | in every run a session's context, accepted proofs, stored hashes and calculator are what its own steps put there |
| `SessionRecords.TakenFaithful` | crates/verification-service/src/lib.rs:741-755 | what was taken for a session is the calculator that its steps had built until the taking |

## Left out

- UUPS proxies, initializer guards, ownership transfer and the rest of OpenZeppelin: owners are fixed addresses, the token has the behaviour of the "Methods" section of EIP-20, and there is no re-entrancy.
- Token permits: a signed approval has the effect of an approval by the holder.
- Role changes in the composed runs: `World` keeps the minter and burner as deployed; another minter could of course mint.
- Additions on `uint256` timestamps and on `totalStaked` do not revert on overflow here; the model has only more runs than the contract. `World.SupplyAndCustody` bounds the staked total by the supply, which fits its word.
- `HouseEdge` and `Treasury`: their facts are settled by single branches; the edge is a parameter of the payout.
- What an overflowing payout does: the model stops there, the program panics or wraps depending on its build profile.
- Wei sums of split sessions beyond saturation: two unsaturated pieces can then exceed a saturated whole.
- Oracle.TwapCalculator.Calculate: a sum beyond 128 bits does not panic or wrap here; `Oracle.SumFits` says when that cannot happen.
- RateLimiter.Limiter.Check: increment and expiry are one atomic step, because a process lost between the two store commands is outside the model; `reset` is an administrative delete.
- SessionHashrate.Session.RecordAcceptedProof: the one-hour expiry of the keys is not modelled.
- Attestation.CoordinateAttestation: the digest of all proofs and the time stamp of the result are not modelled; transport, timeouts and missing clients are an absent answer.
- EndSession: session expiry is a step that may happen at any time; recording an accepted proof and touching the activity time are one step, and so is the read and write that appends to the stored proofs; the on-chain price submission, the choice of the seed, commit hashing and backend signing are reduced to their outcomes, and the handlers are a state machine on values rather than code on shared objects.
- A bound on all proposals of a day: the check compares one proposal with the rows confirmed in the last 24 hours, so only that is stated.
- Anomaly scoring, the proof pre-filter, wallet and commodity parsing, Pyth rescaling, admin tokens and SIWE messages, metrics, dashboards and scripts: they would only add easy members.

# A verified model of the Zebvix node

This project models the four parts of the Rust node in `zebvix-chain/src` whose correctness everything
else rests on, and proves properties of them for every input and every run:

- **consensus/**: the Tendermint-style state machine of a validator (`Fsm`), the pool of signed votes with
  its tallies and commit certificates (`Votes`, `Certificates`), the equivocation verifier (`Evidence`), the
  runtime that turns tallies into events (`Runtime`), and a network of honest and faulty nodes built from
  them (`Network`) over which agreement is proved (`Agreement`), with a run that shows what the certificate
  verifier does not exclude (`MixedRounds`).
- **zvm/**: the bytecode interpreter, with recursive CALL, CALLCODE, DELEGATECALL, STATICCALL and CREATE
  frames, buffered storage, snapshots and gas forwarding.
- **staking/**: the share ledger with slashing, unbonding, epoch rewards, locked-reward buckets and the
  reward split.
- **amm/** and **supply/**: the per-token pools, the native ZBX/zUSD pool with its fee bucket and loan, the
  Newton square root, and the halving schedule.

`common/` holds the machine integers, floor division and sums over maps the rest uses.

## How it is built

Where the source updates fields in place, there is a class with those fields (`FsmState`, `VotePool`,
`FsmRuntime`, `Interp`, `StakingModule`, `RewardsBook`, `Distributor`, `TokenPool`, `Pool`). Each of its methods is
proved equal, on every input and error path, to a function from the old value of the object to the new one.
What the source promises is then proved about those functions, over single operations and over runs.

Fixed-width integers are modelled: a saturating addition or multiplication is written out as one, and a
checked one has its error. Floor division is exact over the unbounded integers, as the 256-bit
intermediates of the source are. Signatures are terms that name their key and payload, so only a key's
owner can make one; block and code hashes are only compared. The database, the precompiles, hashing and
word arithmetic of the interpreter are functions given as parameters.

The network gives faulty validators less than a third of the power at each height, lets them sign
anything, delivers and re-delivers votes in any order, and feeds an honest machine any event at any time,
with two exceptions: a quorum event must first be found by a poll of that node's own pool, and an event that
would take one of the three saturating branches at round 2^32-1 or height 2^64-1 is never fed.

## Where the code does not keep a promise

Each of these is a theorem: an exact condition, or a family of inputs that breaks the promise.

- A round at 2^32-1 cannot advance, so a machine that bumps it votes twice in one slot
  (`FsmSafety.NeverMovesBack` is the exact condition, `FsmSafety.SaturatedRoundDoubleVotes` a run).
- `verify_last_commit_for_parent` adds up precommits of different rounds. With less than a third of the power
  faulty, a list of precommits that were really sent can then be accepted for one block while another is
  committed (`MixedRounds.MixedRoundsMislead`). An accepted list names the committed block if one of its rounds
  is a quorum on its own (`Agreement.OneRoundCertificateAgrees`), and any block is the committed one exactly when
  a single round backs it (`Agreement.CommittedIff`). What honest nodes store is safe: a node writes a
  certificate only when one slot has reached a quorum (`Agreement.StoredCertificateAgrees`).
- For the same reason a fork need not leave evidence: two accepted certificates convict exactly the signers
  that signed both blocks at one round (`Evidence.ForkConvictsIff`), which may be nobody
  (`Evidence.CrossRoundForkLeavesNoEvidence`).
- The pool reports a second signature over the same vote as a double sign, but no verifier accepts it as
  evidence (`Evidence.DoubleSignIsEvidence`).
- `redelegate` has already withdrawn the stake when its deposit fails. The total is kept exactly when nothing was
  withdrawn or the destination is there, not jailed and has room for the stake
  (`StakingConservation.FailedRedelegateLosesStake`). Its one caller writes the module back only on `Ok`
  (`state.rs:1110-1140`), so the loss is not persisted.
- The first deposit mints one share per wei only up to floor((2^128-1) / 10^18) wei
  (`StakingShares.BootstrapIsOneToOne`).
- `distribute_pool_rewards` does not bound its commission: above 100% it pays more than the pool
  (`RewardSplit.RatesAboveOneOverspend`). Its one caller passes the constant 1,000 basis points
  (`tokenomics.rs:291`, `state.rs:3081`).
- `settle_fees` says it takes exactly the loan's worth out of the bucket, but multiplies in 128 bits. Each side
  gives up its part exactly when its product with the loan stays within the last quotient, and less otherwise
  (`FeeFlow.RepaymentExactIff`): after one swap of the largest size, the last 150 zUSD of the loan are struck
  off for 1.134 zUSD (`FeeFlow.PartialRepaymentCanFallShort`).

Two opcodes are modelled as coded where the Yellow Paper differs: a push cut short by the end of the code
is right-aligned instead of padded on the right (`zvm_interp.rs:413-421`), and GAS reports the counter before
its own charge (`zvm_interp.rs:536`). An empty memory read or write past the end of memory slices out of
range, so it ends the model's run as a panic (`zvm_interp.rs:318-327`). `FsmSafety` does not claim that a
machine stays in Commit while a block is being committed (`fsm.rs:157-161`): round jumps leave it.

## Model

| member | source | states |
|---|---|---|
| ConsensusFsm.FsmState.Advance | zebvix-chain/src/fsm.rs:328-366 | One event changes the machine in place and answers with actions exactly as the transition function of its old state says; stale heights change nothing |
| ConsensusFsm.FsmState.HandleTick | zebvix-chain/src/fsm.rs:368-434 | Timeouts by step: propose prevotes the lock or nil, prevote precommits nil, precommit bumps the round, commit re-requests the commit |
| ConsensusFsm.FsmState.HandleProposal | zebvix-chain/src/fsm.rs:436-473 | A proposal of a later round jumps there, is remembered, and is prevoted from Propose only, subject to the lock |
| ConsensusFsm.FsmState.HandlePrevoteQuorum | zebvix-chain/src/fsm.rs:475-535 | A block quorum of any round tracks the valid block and may release the lock; one of the current round precommits the matching proposal and locks it |
| ConsensusFsm.FsmState.HandlePrecommitQuorum | zebvix-chain/src/fsm.rs:537-581 | A block quorum enters Commit and requests the commit; a nil quorum of the current round bumps the round unless committing |
| ConsensusFsm.FsmState.HandleBlockApplied | zebvix-chain/src/fsm.rs:583-595 | Only the block being committed, applied in Commit, advances the height and clears lock, valid block and proposal |
| FsmSafety.NeverMovesBack | zebvix-chain/src/fsm.rs:328-612 | A step leaves the machine at the same or a later (height, round, step) if and only if it takes none of the three branches whose saturating addition cannot move on |
| FsmSafety.StepCastsByTheRules | zebvix-chain/src/fsm.rs:285-326 | A step casts at most one ballot, in a slot not reached before; a prevote agrees with the lock, and a precommit for a block needs its prevote quorum of this round and takes the lock |
| FsmSafety.LockYieldsOnlyToQuorum | zebvix-chain/src/fsm.rs:475-535 | Within a height a lock is dropped only by a later round's prevote quorum for another block, or retaken on the current round's quorum |
| FsmSafety.CommitNeedsQuorum | zebvix-chain/src/fsm.rs:537-581 | A commit is requested, and a block kept as the one being committed, only on a precommit quorum of this height for it |
| FsmSafety.BallotsIncrease | zebvix-chain/src/fsm.rs:328-612 | Over any event sequence that does not saturate, the ballots cast are strictly increasing in (height, round, type): never two in one slot |
| FsmSafety.FarFromTheEndNeverSaturates | zebvix-chain/src/fsm.rs:328-612 | A run with fewer events than rounds and heights are left above its start and its announced rounds takes no saturating branch, so its ballots increase |
| FsmSafety.SaturatedRoundDoubleVotes | zebvix-chain/src/fsm.rs:368-434 | From any fresh machine and for any two blocks, five events at round 2^32-1 make it prevote both in one slot |
| VotingPower.QuorumsIntersect | zebvix-chain/src/vote.rs:143-187 | Two sets that each reach floor(2T/3)+1 share validators holding more than T/3 |
| Votes.VotePool.Add | zebvix-chain/src/vote.rs:143-187 | Checks chain, signature, membership and slot in order; a new vote is stored and the answer says whether its target has a quorum; a second different vote reports the first |
| Votes.VotePool.PowerFor | zebvix-chain/src/vote.rs:190-209 | The power of exactly the distinct validators in the slot that voted for the target |
| Votes.VotePool.HasQuorum | zebvix-chain/src/vote.rs:212-226 | True exactly when the set has power and the target's supporters reach floor(2T/3)+1 |
| Votes.VotePool.TallyFor | zebvix-chain/src/vote.rs:329-346 | One pass indexes every voted target with exactly the power its supporters have, and no other target |
| Votes.VotePool.GcBelow | zebvix-chain/src/vote.rs:228-245 | Removes exactly the slots below the height and answers how many |
| Votes.VotePool.CollectPrecommitsFor | zebvix-chain/src/vote.rs:265-281 | Every supporter of the block once, with its precommit of the highest round, strictly sorted by address |
| Certificates.VerifyLastCommitForParent | zebvix-chain/src/vote.rs:451-551 | The loop over the decoded votes returns the first fault in order, or accepts on quorum power |
| Certificates.VerdictIsProof | zebvix-chain/src/vote.rs:451-551 | Above height 0 a blob is accepted if and only if it decodes to distinct members' valid precommits for the parent whose power reaches the quorum |
| Certificates.QuorumYieldsCertificate | zebvix-chain/src/vote.rs:143-187 | Once adding a precommit for a block reports quorum, the collected list for that block is accepted as its parent certificate, if the precommits of that height come from its set; votes of other heights may come from anyone |
| Certificates.ConflictingCertificatesShareSigners | zebvix-chain/src/vote.rs:451-551 | Two accepted certificates of one height for different blocks share signers with more than T/3, each of whom signed both blocks |
| Certificates.AddAllHolds | zebvix-chain/src/vote.rs:143-187 | Adding acceptable, non-equivocating votes in any order and with repeats makes the pool hold exactly that set of votes |
| Certificates.HoldsIsUnique | zebvix-chain/src/vote.rs:143-187 | Only one pool holds a given set of votes |
| Certificates.CanonicalCertificate | zebvix-chain/src/vote.rs:265-281 | Two nodes that add the same set of votes in any order end with equal pools and collect the same list for a block |
| Certificates.OneQuorumPerSlot | zebvix-chain/src/vote.rs:329-346 | At most one target of a (height, round, type) reaches a quorum |
| Evidence.DoubleSignIsEvidence | zebvix-chain/src/evidence.rs:101-180 | A double sign reported by the pool is accepted by every verifier if and only if the two votes name different targets |
| Evidence.ForkEvidenceIff | zebvix-chain/src/evidence.rs:101-180 | Between two accepted certificates of a height for different blocks, whatever rounds they mix, a vote of one and a vote of the other are evidence if and only if one validator cast both at one round |
| Evidence.ForkConvictsIff | zebvix-chain/src/evidence.rs:101-180 | Such a fork convicts a validator, by any pair of its votes, if and only if that validator signed both blocks at some one round |
| Evidence.SameRoundForkConvicts | zebvix-chain/src/evidence.rs:101-180 | Two accepted certificates of one height and round for different blocks convict shared signers holding more than T/3 |
| Evidence.CrossRoundForkLeavesNoEvidence | zebvix-chain/src/evidence.rs:101-180 | For every validator set, certificates for two blocks at different rounds are both accepted and no pair of their votes convicts anyone |
| Runtime.PollIsComplete | zebvix-chain/src/fsm_runtime.rs:278-314 | A poll finds a quorum exactly when it is of the current height and round, is crossed, and was not announced |
| Runtime.FsmRuntime.PollVoteQuorums | zebvix-chain/src/fsm_runtime.rs:278-314 | Emits one event for each such quorum, each once, and remembers them |
| Runtime.FsmRuntime.CacheProposal | zebvix-chain/src/fsm_runtime.rs:250-264 | The cache keeps the highest heights up to its capacity, with the newest block per height |
| Runtime.FsmRuntime.HandleAction | zebvix-chain/src/fsm_runtime.rs:361-480 | An action changes chain, tip, cache and announcements in place, and answers, as `Handled` says of the old state, with each of its refusals |
| Runtime.FsmRuntime.TickOnce | zebvix-chain/src/fsm_runtime.rs:323-338 | A tick steps the machine and dispatches its actions in order up to the first that fails |
| Runtime.CommitAppliesIff | zebvix-chain/src/fsm_runtime.rs:369-438 | The chain grows if and only if the request is for the height above the tip, the block interval has passed, and the cached block has the requested hash, the tip as parent and passes its checks; then it grows by exactly that block |
| Runtime.ChainStaysLinked | zebvix-chain/src/state.rs:2811-2817 | Over any run of requests each applied block sits on the one below it up to the tip, and applications are at least a block interval apart |
| Agreement.NextKeepsInv | zebvix-chain/src/fsm.rs:436-576 | Every move of the network keeps the invariant: votes are authentic, pools and pending quorums are backed, precommitters stay locked or overtaken, and an overtaken block can no longer gather a quorum |
| Agreement.RunKeepsInv | zebvix-chain/src/fsm.rs:436-576 | So does every run |
| Agreement.PrecommitQuorumsAgree | zebvix-chain/src/fsm.rs:475-576 | In every reachable world, precommit quorums of one height, at any two rounds, are for one block |
| Agreement.Agreement | zebvix-chain/src/fsm.rs:436-576 | In every reachable world any two commits of one height by honest nodes name one block, whatever the rounds, timeouts, jumps and delivery order |
| Agreement.StoredCertificateAgrees | zebvix-chain/src/main.rs:1354-1369 | If adding a precommit for a block, against its height's set, ever reports a quorum to an honest node, which is when it stores that block's certificate, every commit of that height, then or later, by anyone, is of that block |
| Agreement.HeldQuorumsAgree | zebvix-chain/src/vote.rs:143-187 | The precommit quorums that any two honest nodes hold for a height, at any rounds, are for one block |
| Agreement.CommittedIff | zebvix-chain/src/vote.rs:451-551 | A block is the one committed at a height if and only if some single round's precommits for it, counting the faulty as signers, reach the quorum |
| Agreement.HonestNeverConvicted | zebvix-chain/src/evidence.rs:101-180 | No evidence made of votes of a reachable world, against any validator set, convicts an honest validator |
| Agreement.OneRoundCertificateAgrees | zebvix-chain/src/vote.rs:451-551 | A certificate accepted for a height where an honest node committed is for the committed block, if its votes of some one round reach the quorum |
| MixedRounds.MixedRoundsMislead | zebvix-chain/src/vote.rs:451-551 | For any two blocks there is a network within the fault bound and a reachable world in which one block is committed while precommits that were sent, of two rounds, are an accepted certificate for the other |
| ZvmJumpdests.ScanJumpdests | zebvix-chain/src/zvm_interp.rs:1518-1533 | Marks position k exactly when it is a 0x5b byte that sequential decoding from 0 arrives at |
| ZvmJumpdests.DataIsSkipped | zebvix-chain/src/zvm_interp.rs:1518-1533 | Nothing inside the data of a decoded push is ever a decoded position |
| ZvmMachine.Expand | zebvix-chain/src/zvm_interp.rs:290-316 | Memory growth only appends, makes the window addressable and never gains gas |
| ZvmMachine.BytesRoundTrip | zebvix-chain/src/zvm_interp.rs:845-860 | A word is recovered from its own big-endian bytes |
| ZvmOpcodes.LocalStep | zebvix-chain/src/zvm_interp.rs:407-562 | An opcode that opens no frame and writes no storage leaves the world as it was, and going on costs gas, stays within the stack limit and moves past its own data or to a marked destination |
| ZvmSemantics.PrepareCall | zebvix-chain/src/zvm_interp.rs:1204-1290 | A call that is entered has paid at least the base price counting what it sets aside, hands over at most 63 times what it keeps plus the stipend, and carries no value in a static frame |
| ZvmSemantics.OpCall | zebvix-chain/src/zvm_interp.rs:1204-1418 | Whatever the callee does, a call that returns leaves at least the base price less gas than before it |
| ZvmSemantics.OpCreate | zebvix-chain/src/zvm_interp.rs:999-1187 | Likewise a creation leaves at least 32,000 less |
| ZvmSemantics.Step | zebvix-chain/src/zvm_interp.rs:407-562 | Every step of every opcode either ends the frame or strictly lowers its gas |
| ZvmSemantics.Run | zebvix-chain/src/zvm_interp.rs:364-404 | For every bytecode and gas amount the run ends and reports at most the gas it was given |
| ZvmProperties.RunFollows | zebvix-chain/src/zvm_interp.rs:364-404 | At any nesting depth a successful run keeps every older journal entry, adds only code within the size limit and not starting with 0xEF, and never lowers the refund; if static it changes nothing |
| ZvmProperties.StaticFrameIsPure | zebvix-chain/src/zvm_interp.rs:341-358 | EIP-214: a static frame hands back storage, transient storage, journal and refunds unchanged |
| ZvmProperties.CallFollows | zebvix-chain/src/zvm_interp.rs:1204-1418 | A STATICCALL from any frame, and any call from a static frame, leaves the world unchanged |
| ZvmProperties.CreateFollows | zebvix-chain/src/zvm_interp.rs:999-1187 | A creation only adds journal entries, the deployed code last and within the limits |
| ZvmProperties.FailedCallRollsBack | zebvix-chain/src/zvm_interp.rs:1292-1418 | A call answers 0 or 1, and after 0 storage, transient storage, journal and refunds are exactly as before it |
| ZvmProperties.FailedCreateKeepsOnlyNonce | zebvix-chain/src/zvm_interp.rs:1061-1148 | After a creation that answers 0 the world is as before it, but for at most the entry that bumps the creator's nonce, unless the new address itself derives to 0 |
| ZvmProperties.StepStaysOnInstructions | zebvix-chain/src/zvm_interp.rs:373-420 | From an instruction start a step goes on to an instruction start |
| ZvmProperties.RunVisitsOnlyInstructions | zebvix-chain/src/zvm_interp.rs:373-420 | Every program counter a run visits inside the code is an instruction start, never push data |
| ZvmProperties.MstoreLoadsBack | zebvix-chain/src/zvm_interp.rs:845-860 | A word stored to memory at any offset loads back without further cost than the load |
| ZvmInterp.Interp.Run | zebvix-chain/src/zvm_interp.rs:364-404 | The interpreter object runs a frame in place exactly as specified, spends at most its gas, and if static and successful leaves its buffers as they were |
| ZvmInterp.Interp.OpCall | zebvix-chain/src/zvm_interp.rs:1204-1418 | Snapshot, transfer, child interpreter, adoption and rollback in place agree with the specification |
| ZvmInterp.Interp.OpCreate | zebvix-chain/src/zvm_interp.rs:999-1187 | Nonce entry, snapshot, child, deposit, deployment and rollback in place agree with the specification |
| ZvmInterp.Interp.Restore | zebvix-chain/src/zvm_interp.rs:1305-1311 | Putting the saved buffers back and truncating the journal restores the world the snapshot was taken of |
| ZvmInterp.Interp.MemExpand | zebvix-chain/src/zvm_interp.rs:290-316 | Grows memory in place at the quadratic price, with its refusals |
| ZvmInterp.Interp.StoreStorage | zebvix-chain/src/zvm_interp.rs:341-358 | SSTORE prices, refund, static refusal and buffered write, in place |
| Staking.StakingModule.StakeOn | zebvix-chain/src/staking.rs:375-389 | A stake below the minimum is refused; otherwise the deposit, with every partial update an overflow leaves |
| Staking.StakingModule.DepositUnchecked | zebvix-chain/src/staking.rs:391-411 | Shares minted at the current ratio, added field by field with checked additions |
| Staking.StakingModule.UnstakeFrom | zebvix-chain/src/staking.rs:413-444 | Shares leave at their current value, which is queued for seven epochs |
| Staking.StakingModule.RedelegateTo | zebvix-chain/src/staking.rs:446-489 | Withdraws, then deposits; an error of the deposit is reported with the withdrawal made |
| Staking.StakingModule.SlashValidator | zebvix-chain/src/staking.rs:550-580 | Cuts bonded stake and every queued entry of the validator, jails it and totals the cut |
| Staking.StakingModule.FinishEpoch | zebvix-chain/src/staking.rs:604-642 | Rewards active validators pro rata less commission, advances the epoch and pays the matured front of the queue |
| StakingConservation.StakeIsConserved | zebvix-chain/src/staking.rs:307-642 | From an empty ledger, over any run of operations, failed ones reverted, while ledger and next inflow together fit 128 bits: deposits plus distributed rewards equal stake, commission pools, unbonding, slashed and paid amounts exactly, and the ledger invariant holds |
| StakingConservation.OpKeeps | zebvix-chain/src/staking.rs:307-642 | Each operation keeps the invariant: shares are the sum of delegations, zero exactly when stake is, and the queue is ordered by maturity |
| StakingConservation.PopPays | zebvix-chain/src/staking.rs:630-641 | Popping removes exactly the matured prefix and moves its amounts into the payouts |
| StakingConservation.PopPaysEach | zebvix-chain/src/staking.rs:630-641 | Each delegator is paid exactly the sum of their matured entries |
| StakingConservation.MaturedAreFront | zebvix-chain/src/staking.rs:630-641 | In an ordered queue the matured entries are exactly the prefix the loop pops |
| StakingConservation.DistributedBound | zebvix-chain/src/staking.rs:604-628 | An epoch distributes at most the reward, short by less than one unit per active validator |
| StakingConservation.EvidenceBurnsOnce | zebvix-chain/src/staking.rs:525-544 | Evidence that was applied burns nothing when it is applied again, after any run of operations in between |
| StakingConservation.FailedRedelegateLosesStake | zebvix-chain/src/staking.rs:446-489 | After a redelegation whose deposit fails the source shares are gone, none are gained, the ledger invariant holds, and the total is kept if and only if nothing was withdrawn or the destination exists, is not jailed and has room for the stake |
| StakingShares.DelegatorsAreSolvent | zebvix-chain/src/staking.rs:662-668 | The values of a validator's delegations never sum above its stake, and fall short by less than one unit each |
| StakingShares.NoDilutionByDelegators | zebvix-chain/src/staking.rs:391-489 | Stake, unstake and redelegate by one delegator never lower another's value anywhere |
| StakingShares.NoDilutionByEpoch | zebvix-chain/src/staking.rs:604-628 | An epoch never lowers anyone's value |
| StakingShares.RoundTripGainsNothing | zebvix-chain/src/staking.rs:391-444 | Staking and unstaking the minted shares never returns more than was put in |
| StakingShares.BootstrapIsOneToOne | zebvix-chain/src/staking.rs:209-217 | The first deposit mints one share per wei if and only if it is at most floor((2^128-1) / 10^18), and that many otherwise |
| LockedRewards.RewardsBook.Unlock | zebvix-chain/src/staking.rs:726-770 | Settles the drip and the due bulk releases of a bucket in place |
| LockedRewards.RewardsBook.Preview | zebvix-chain/src/staking.rs:778-817 | The amounts and the heights of the next drip and bulk release shown to the holder, computed without changing the book |
| LockedRewards.PreviewPredictsSettle | zebvix-chain/src/staking.rs:726-817 | The preview states exactly what a settlement at that height releases and leaves |
| LockedRewards.PreviewPredictsNextBulk | zebvix-chain/src/staking.rs:726-817 | After a settlement that leaves something, the next bulk release falls due at the announced height and not before, and the drip restarts in the next block |
| LockedRewards.SettleIsIdempotent | zebvix-chain/src/staking.rs:726-770 | A second settlement at the same height releases 0, whatever the stake has become |
| LockedRewards.LockKeepsAccountIff | zebvix-chain/src/staking.rs:702-715 | Locking more keeps balance plus released equal to lifetime exactly while the sum fits, or nothing was ever released |
| LockedRewards.EveryBucketIsAccounted | zebvix-chain/src/staking.rs:702-770 | Over any run of locks, settlements and forced unlocks in which each lock fits its bucket's lifetime total, every bucket's balance plus released equals what it received |
| LockedRewards.ApplyKeepsAccountsIff | zebvix-chain/src/staking.rs:702-770 | One operation keeps every bucket accounted for if and only if the lock it makes, if any, fits |
| LockedRewards.TotalGivesRoom | zebvix-chain/src/staking.rs:702-770 | Locks fit over a whole run whenever everything ever locked can be counted in 128 bits |
| RewardSplit.SplitStaysWithinPool | zebvix-chain/src/staking.rs:868-941 | At rates up to 100% the specified commissions and cuts together never exceed the pool, and the rest is smaller than the number of active validators plus their delegations |
| RewardSplit.RatesAboveOneOverspend | zebvix-chain/src/staking.rs:868-941 | For every commission above 100% some ledger and pool pay out more than the pool |
| Distribution.Distributor.DistributePoolRewards | zebvix-chain/src/staking.rs:868-941 | The loops pay the founder all commissions and its own cuts, and lock for everyone else exactly the sum of their cuts; all they pay is at most the pool, short of it by less than one unit per active validator and delegation, and the locked total answered is exact |
| Isqrt.Sqrt | zebvix-chain/src/token_pool.rs:385-400 | The Newton loop ends on every n below 2^256 with the floor square root |
| TokenPool.TokenPool.Init | zebvix-chain/src/token_pool.rs:110-143 | A pool is founded with floor(sqrt(zbx * token)) shares, the founder credited all but 1000, or one of three refusals |
| TokenPool.TokenPool.AddLiquidity | zebvix-chain/src/token_pool.rs:151-213 | Takes matching sides within the offer and mints the lower of the two proportional share counts, with its eight refusals |
| TokenPool.TokenPool.RemoveLiquidity | zebvix-chain/src/token_pool.rs:221-250 | Burns shares for the floor of their part of each reserve, never the locked thousand |
| TokenPool.TokenPool.SwapZbxForToken | zebvix-chain/src/token_pool.rs:253-274 | Sells at the quoted price, the whole input joining the reserve |
| TokenPool.PartIsLess | zebvix-chain/src/token_pool.rs:221-250 | Burning part of the shares leaves the rest backed by at least their part of the reserve |
| LpValue.SwapIsExact | zebvix-chain/src/token_pool.rs:299-333 | The output keeps the reserve product over the fee-less input, and one unit more would break it |
| LpValue.WorthNeverFalls | zebvix-chain/src/token_pool.rs:151-296 | Over any run of adds, removes and swaps that fit, the reserve product over the squared share count never falls |
| LpValue.SwapKeepsWorthIff | zebvix-chain/src/token_pool.rs:253-296 | A swap, saturating or not, keeps the worth of a share if and only if the reserve has room for the input less its fee, or the output is no more than the room left was worth |
| LpValue.WorthWithinSupply | zebvix-chain/src/token_pool.rs:151-296 | With the pool and its users together holding no more than 2^128-1 of either token, and nobody spending what is not there, every operation fits and a share never loses worth |
| LpValue.SharesStayBacked | zebvix-chain/src/token_pool.rs:110-296 | From its founding on, a pool's squared share count stays within its reserve product and neither reserve reaches 0 |
| LpValue.NoFreeLunch | zebvix-chain/src/token_pool.rs:151-296 | No run that leaves as many shares and no more of one reserve leaves less of the other |
| LpValue.DepositWithinOffer | zebvix-chain/src/token_pool.rs:151-213 | A deposit takes no more than offered of either side, and the defensive ratio error never occurs |
| LpValue.DepositThenBurnGainsNothing | zebvix-chain/src/token_pool.rs:151-250 | Burning the minted shares at once never returns more of either side than was put in |
| NativePool.Pool.InitGenesis | zebvix-chain/src/pool.rs:101-123 | Founds the native pool with floor(sqrt(zbx * zusd)) shares and the zUSD side as the loan |
| NativePool.Pool.SwapZbxForZusd | zebvix-chain/src/pool.rs:178-204 | Limits, fee into the bucket, net input into the reserve, floor price out, oracle first |
| NativePool.Pool.SwapZusdForZbx | zebvix-chain/src/pool.rs:207-236 | The same the other way, with the output limit |
| NativePool.Pool.SettleFees | zebvix-chain/src/pool.rs:244-302 | Repays the loan with all or part of the bucket and splits the rest in halves, booking totals at the new price |
| FeeFlow.EveryTokenIsAccounted | zebvix-chain/src/pool.rs:178-302 | Over any run of swaps and settlements no token is made, the loan never rises and a payout means it is 0; each token is conserved across reserve, bucket, traders and admin if and only if every move fits 128 bits, and then the product never falls |
| FeeFlow.BoundedRunFits | zebvix-chain/src/pool.rs:178-302 | Every move fits whenever what the pool holds and all that is offered to it can be counted in 128 bits |
| FeeFlow.SettleRepaysFirst | zebvix-chain/src/pool.rs:244-302 | Even when additions saturate: the loan never rises, a payout leaves it 0, and a second settlement does nothing |
| FeeFlow.TradersPayForWhatTheyTake | zebvix-chain/src/pool.rs:178-302 | Reserves never reach 0, and if one did not rise over a run the other did not fall |
| FeeFlow.TotalsAgreeIff | zebvix-chain/src/pool.rs:244-302 | Fees collected stay equal to admin-paid plus reinvested if and only if their sum fits or only one of them earns |
| FeeFlow.TotalsAgreeOverRuns | zebvix-chain/src/pool.rs:244-302 | So over any run, of the sums booked by all its settlements; and the loan is paid down by no more than was booked as reinvested |
| FeeFlow.CappedDivisionExactIff | zebvix-chain/src/pool.rs:92-95 | A saturating product divides to the exact floor if and only if it stays below the next multiple of the divisor past 2^128-1 |
| FeeFlow.RepaymentExactIff | zebvix-chain/src/pool.rs:263-281 | A bucket worth more than the loan clears it, each side giving up at most its proportional part, and exactly that if and only if its product with the loan stays below the next multiple of the bucket's worth past 2^128-1 |
| FeeFlow.PartialRepaymentCanFallShort | zebvix-chain/src/pool.rs:266-281 | From an empty bucket and a loan of 150 zUSD, the largest zUSD swap and its settlement clear the loan for 1134274556403128211 units, and the admin is paid half the rest |
| Tokenomics.CumulativeSupply | zebvix-chain/src/tokenomics.rs:384-400 | The era-at-a-time loop ends, equals the block-by-block sum of rewards at every height, and stays below 150,000,000 ZBX |
| Tokenomics.SupplyCap | zebvix-chain/src/tokenomics.rs:384-400 | No height takes the minted sum to the cap |
| Tokenomics.RewardPaidIff | zebvix-chain/src/tokenomics.rs:372-381 | A block is rewarded if and only if its height is between 1 and 62 eras |
| Tokenomics.RewardNeverRises | zebvix-chain/src/tokenomics.rs:372-381 | The reward never rises with height |

## Left out

- Liveness, and restarts inside a height: the machine persists no lock, and progress depends on timing.
- Changes of the validator set within a height: the network takes the set as a function of the height.
- `max_round_seen`, `power_above_round` and the view-change trigger: no caller feeds them to the machine; round jumps are modelled as events that may come at any time.
- `FsmRuntime::run` and its locks and channels: the drain loop is modelled by the network feeding events in any order.
- Signing bytes, bincode and key hashing: payloads and blobs are values, a key's address is the key, and signatures are unforgeable terms.
- Summed voting power above 2^64-1 halves: sets whose doubled total does not fit are excluded, as the arithmetic of the source wraps there.
- Staking epoch counters above 2^64-1, and stake totals whose plain sum does not fit 128 bits, on which the source panics.
- Staking `active_set`, `total_delegated`, `end_epoch_locked` and the validator's description and key: they only read or recombine what is modelled.
- Locked buckets and the reward split are classes of their own over the staking module, where the source keeps them in one struct.
- `Pool::add_liquidity`, the single-sided admin deposits and `Pool::quote_*`: saturating products make proportionality undecided at genesis-sized reserves, and the deposits only raise a reserve.
- Spot prices of token pools and the pool address derivation: pure functions no operation depends on.
- `fee_bounds_wei`, `dynamic_gas_price_wei` and `usd_micro_to_zbx_wei`: pure reads of the spot price.
- The numeric meaning of ALU opcodes, EXP, SIGNEXTEND and the block environment: a function from operands to a word, which may also panic; their stack effect and gas are exact.
- ZVM logs: LOG keeps its static check, price and memory effect, but the records are not kept.
- ZVM sums that overflow a machine word end the model's run as a panic, as builds with overflow checks do; builds without them wrap.
- Memory allocation by the copy opcodes is assumed to succeed once its gas is paid.
- ZVM balances across `zvm::execute`, its refund cap and its intrinsic gas: only the interpreter is modelled.
- ZvmProperties.FailedCreateKeepsOnlyNonce: says nothing of a contract whose address derives to zero, for which the answer 0 also means success.
- LpValue.WorthNeverFalls: leaves open a deposit that saturates a reserve or the share count, which no supply under 2^128 allows (`LpValue.WorthWithinSupply`; token supply is a checked 128-bit sum at `state.rs:2106`, ZBX is capped far below). Swaps are decided even then: at a reserve of 2^128-1 each one lowers the worth of a share (`LpValue.SwapKeepsWorthIff`).
- FeeFlow.TradersPayForWhatTheyTake: asks that no addition saturates, which `FeeFlow.BoundedRunFits` gives.
- Agreement.Agreement: is about runs in which no honest machine is fed an event that takes one of the saturating branches; `Agreement.HonestNeverConvicted` and the certificate theorems inherit this.
- Runtime.FsmRuntime.HandleAction: checks height and parent of a block and takes the other checks of `apply_block` as one boolean; blocks that the older producer path applies beside it are not modelled.
- FsmSafety.BallotsIncrease: asks that no step takes one of the saturating branches `FsmSafety.NeverMovesBack` names; `FsmSafety.FarFromTheEndNeverSaturates` gives that from a check on the events.
- StakingConservation.StakeIsConserved: reverts failed operations, as their caller does (`state.rs:1130-1140`), and asks that the ledger's total and the next inflow fit 128 bits together.

# eLLM: a verified model of its KV store, scheduler and paged attention

This Dafny project models the core of eLLM, a variant of vLLM that keeps the KV cache of
a language model in layer groups, evicts old token blocks per group and recomputes them
when they are needed. It proves what the code promises its callers: that sequences which
share blocks never see each other's tokens, that the store leaks nothing on any error path,
that the admission answers mean what the scheduler takes them to mean, that the scheduler
keeps its budgets over whole runs, and that the two attention kernels compute the same
thing up to a factor stated exactly.

`dafny verify dfyconfig.toml` checks all of it.

## How it is organised

**The layer-grouped KV store** (`KVState` to `KVPlans`, `TokenLayerCache`, `KVMemory`,
`KVOwnership`, `KVLeases`, `KVCopies`, `KVStepOrder`).
`TokenLayerKVMap` is a class with the store's own fields: a free deque and a count array
per group, permanent and temporary entries keyed by (sequence, logical block, group), a
length and an evicted prefix per sequence. Every method is proved against a predicate on
the old and the new state (`Allocated`, `Appended`, `Forked`, `Evicted`, `Leased`,
`Freed`), with the exact condition under which it raises, and with strong exception
safety. The invariant `Inv` says that a block's count is the number of entries that name
it, that a free deque holds exactly the unreferenced blocks, once each, and that a live
sequence's keys are exactly its retained blocks, filled as its length demands. `Ledger`
carries the same counts through the loops, where an operation holds blocks that no entry
names yet. `Unchanged` compares free deques as sets, because a rollback returns blocks at
the other end. `KVMemory` puts a memory behind the blocks and shows that every run of
operations, with the block copies and moves they ask for, refines one private token list
per sequence; `KVOwnership` follows who owns the newest block of a sequence along such
runs. `KVLeases` lets leases be held while other operations run, and `KVStepOrder` shows
that a worker which performs a step's swap moves, then its copies, then its writes leaves
the memories as the operations in turn would.

**The block manager** (`ELLMSwap`, `ELLMSwapSteps`, `ELLMAdmission`, `ELLMBlockManager`,
`ELLMSoundness`, `RatioRuns`, `ELLMSwapAdmission`, `ELLMRuns`, `ELLMWitnesses`). The class
owns the store and the CPU side. The lemmas compare each `can_*` answer with what the operation
then does, first in any state and then along runs of operations. `ELLMWitnesses` holds
programs against the class that reach the states in which an answer misleads.

**Paged attention** (`CacheLayout`, `CacheWrites`, `RealSums`, `Softmax`,
`SoftmaxKernels`, `AttentionKernels`, `PagedAttention`, `PagedAttentionKernels`,
`PagedAttentionV2`, `AttentionOverTokens`, `AttentionOutputs`). The loops run over arrays
of reals, and `exp` is any positive function that turns sums into products. Outputs are
described by `Average`, the softmax average over a range of tokens, which no kernel
computes directly; `AttentionOutputs` restates them over plain key and value rows, with
plain exponentials.

**The scheduler and the cache policy** (`SchedulerQueues`, `Scheduler`, `EllmPolicy`,
`PolicyPlans`).
One step in the default mode is a method; its effect is a relation between the queues
before and after, and the lemmas follow runs in which steps alternate with arrivals,
aborts, finished groups and progress. The block manager's answers are an input of the
step, and `Explained` derives every decision of the step from them.

**Evictors and the conventional manager** (`Evictors`, `CachedAllocator`, `V1State`,
`V1Swap`, `V1Moves`, `V1Stops`, `V1Spec`, `V1Memory`, `BlockManagerV1`, `V1Witnesses`). Two
LRU scans, the hash-indexed allocator, and the reference-counted manager with its swapping.
`V1Memory` puts a memory behind its blocks, as `KVMemory` does for the layer-grouped store.
`V1Witnesses` holds programs that reach the states in which its counts go wrong.

## What the proofs found

Where the code does less than its comments or callers suggest, the model keeps the code
and states the exact condition.

- `can_append_slots` detects a new block by `len % block_size == 1`, which is never true
  for `block_size` 1. The answer is sound exactly from `block_size` 2 on
  (`AppendAdmission`, `UnsoundAtOne`).
- eLLM's `can_swap_in` reserves nothing for the append that the scheduler does right after
  the swap-in. `SwapInThenAppend` gives the exact room that would be enough; without it
  the appends cannot all complete. `AdmittedAppendRaises` reaches such a state for every
  configuration. The conventional manager does reserve (`SwapInReserves`).
- `can_swap_in`'s OK means success exactly when none of the sequences is live
  (`SwapInAdmission`). Along runs in which new sequences have new ids that is always so
  (`RunSwapInAdmission`); reusing an id breaks it (`AdmittedSwapInRaises`).
- Swapping out a sequence whose older swapped copy still exists loses that copy's CPU
  blocks for good (`SaveKeepsPool`, reached by `OverwrittenCopyLeaks`). With new ids this
  does not happen either (`RunIsSound`).
- Aborting a swapped group frees only the GPU side, where it owns nothing. Its CPU blocks
  stay with a copy that nobody will restore (`FreeStrands`, `AbortedSwapStrands`).
- `evict_to_cached_layer_ratio` raises when the policy selects so many more cached layers
  than before that the share to evict falls below what is gone (`RatioOutcome`,
  `RisenSettingRaises`). A setting that never rises never raises, whatever else happens to
  the sequences in between (`RaisesAfterRise`, `FallingNeverRaises`).
- `_schedule_default` sorts the waiting queue and then overwrites it with the queue from
  before the sort, so the sort has no effect on a step that returns (lines 875 and 899 of
  `vllm/core/scheduler.py`).
- While it evicts, `_schedule_running` takes the *current* group's sequences off the
  budget, not the victim's. The running total is still never exceeded, because no group is
  admitted in a step that evicts.
- The weight of the `dllm` policy cannot change an order (`WeightIsIdle`).
- The v1 evictor's early break finds the documented victim exactly when the lowest access
  times are in front (`EarlyBreakIsExact`).
- The conventional `allocate` gives every block the count of the whole group although only
  waiting sequences get a table; the counts are exact precisely when those coincide or
  there is nothing to allocate (`AllocateKeepsInvariant`, `SiblingCounted`).
- The conventional `fork` onto a child that already holds blocks leaks them
  (`ForkKeepsInvariant`, `ForkOntoHolder`).
- A swap round trip of the conventional manager restores the counts exactly when no
  sequence outside the group shares its blocks (`RoundTripCounts`, `OneSharerOutAndIn`).
- v2 attention with several partitions is v1 scaled by the factor S / (S + 1e-8); it
  equals v1 only for a single partition or a zero element (`V2AgainstV1`).
- The policy's capacity counts token-layer slots of the whole cache, while plans take
  their blocks from one layer group's pool. For a batch that lives alone a plan needs room
  for all its blocks in one pool, however much is evicted (`PlanOfWholeBatch`), so a
  feasible point guarantees the plans exactly when at most one group is not cached
  (`PolicyGuarantee`). `SelectedBatchHasNoPlan` follows the policy's own choice into a
  state without plans.
- The hash-indexed allocator's `update_hash` changes an unreferenced block's hash before
  it raises (`UpdateHash`, `HashOfFreeBlock`). Its callers pass referenced blocks.
- The conventional manager does not roll back: an allocation that runs out keeps every
  block that was free (`FailedAllocation`, `ExhaustedAllocation`). A swap that runs out
  leaves counts that match the tables exactly if the destination runs out between two
  sequences, which the tables and the free count before the call decide
  (`StoppedKeepsInvariant`, `SwapStopsInside`).

## Model

Paths are relative to the repository's root.

| member | source | states |
|---|---|---|
| TokenLayerCache.TokenLayerKVMap.constructor | vllm/core/ellm_cache.py:59-74 | The empty store: every group has all its blocks free, no sequence exists, and the number of pools is that of groups that cover the layers while one group fewer would not. |
| TokenLayerCache.TokenLayerKVMap.Create | vllm/core/ellm_cache.py:43-74 | ValueError exactly when a dimension is not positive; otherwise an empty, consistent store of those dimensions. |
| TokenLayerCache.TokenLayerKVMap.AllocateBlock | vllm/core/ellm_cache.py:76-85 | Raises exactly when the group has no free block; otherwise pops the oldest one. The second exception, a free block with references, is unreachable: the invariant excludes it. |
| TokenLayerCache.TokenLayerKVMap.RetainBlock | vllm/core/ellm_cache.py:87-91 | Adds one reference, and raises exactly for an unreferenced block. |
| TokenLayerCache.TokenLayerKVMap.FreeBlock | vllm/core/ellm_cache.py:93-101 | Raises exactly on a double free; otherwise drops one reference and queues the block at the tail when it was the last one. |
| TokenLayerCache.TokenLayerKVMap.RollBack | vllm/core/ellm_cache.py:148-152 | The hand-written rollback pops exactly the recorded keys and keeps every count equal to the number of entries. |
| TokenLayerCache.TokenLayerKVMap.AllocateSequence | vllm/core/ellm_cache.py:110-111 | Succeeds exactly when the id is new, the length positive and every group has a free block per logical block; any exception leaves entries, lengths, counts and free sets as they were. |
| TokenLayerCache.TokenLayerKVMap.AllocateSequenceWithEvictedPrefix | vllm/core/ellm_cache.py:113-155 | The same for a retained suffix, with the source's four argument errors (ValueError) told apart from exhaustion (RuntimeError). |
| TokenLayerCache.TokenLayerKVMap.AppendToken | vllm/core/ellm_cache.py:157-220 | Succeeds exactly when the tail is retained and each group that opens or copies a block has one free; the new state has one more token, a private tail block in every group, and the returned copies lead from the shared blocks to their replacements. Strong exception safety. |
| TokenLayerCache.TokenLayerKVMap.ForkSequence | vllm/core/ellm_cache.py:222-240 | Succeeds exactly for a new child of a live parent without temporaries; the child gets every retained entry of the parent, each with one more reference, and no block is taken. |
| TokenLayerCache.TokenLayerKVMap.EvictPrefix | vllm/core/ellm_cache.py:256-273 | Succeeds exactly when there is no temporary entry and the clamped prefix does not shrink; removes exactly the blocks between the old and the new prefix in every group, and returns the most tokens in whole blocks that are neither more than asked for nor more than the sequence has. |
| TokenLayerCache.TokenLayerKVMap.BeginRecompute | vllm/core/ellm_cache.py:275-305 | Succeeds exactly when the group exists, the sequence is live and, if it has an evicted prefix, owns no temporary and the group has that many free blocks. It never raises after its own allocation loop, so no temporary leaks; otherwise nothing changes. |
| TokenLayerCache.TokenLayerKVMap.GetRecomputeSlotMapping | vllm/core/ellm_cache.py:307-319 | Raises exactly when a prefix block has no temporary; otherwise lists all the slots of the prefix blocks in order. |
| TokenLayerCache.TokenLayerKVMap.GetDecodeSlot | vllm/core/ellm_cache.py:321-328 | Raises exactly when the block of the newest token is not retained; otherwise block * block_size + offset of that token. |
| TokenLayerCache.TokenLayerKVMap.GetRetainedBlockTable | vllm/core/ellm_cache.py:431-438 | Filtering and sorting the map gives the blocks evicted, evicted + 1, ... of the sequence, in order and without a gap. |
| TokenLayerCache.TokenLayerKVMap.GetDecodeBlockTable | vllm/core/ellm_cache.py:440-450 | Raises exactly when some logical block of the sequence is neither retained nor temporary; otherwise the table names the block of every logical index. |
| TokenLayerCache.TokenLayerKVMap.EndRecompute | vllm/core/ellm_cache.py:422-429 | Removes exactly the sequence's temporaries of one group. |
| TokenLayerCache.TokenLayerKVMap.AcquireLayerGroupPlan | vllm/core/ellm_cache.py:376-401 | Succeeds exactly when the batch is feasible in that group (PlanFeasible): newest blocks retained, no active or doubled temporary prefix, and free blocks for the sum of the evicted prefixes. On any exception the state is as before. |
| TokenLayerCache.TokenLayerKVMap.ReleaseLayerGroupPlan | vllm/core/ellm_cache.py:403-407 | Removes exactly the batch's temporaries of the group. |
| TokenLayerCache.TokenLayerKVMap.BuildLayerGroupPlans | vllm/core/ellm_cache.py:341-374 | Succeeds exactly when the batch is feasible in every group; there is one plan for each group that has layers, each the plan of a state in which the batch's prefixes sit on fresh blocks; and whether it returns or raises, entries, counts and free sets are as before. |
| TokenLayerCache.TokenLayerKVMap.FreeSequence | vllm/core/ellm_cache.py:467-474 | Removes every entry of the sequence, permanent and temporary, and its length; an unknown id changes nothing. |
| TokenLayerCache.TokenLayerKVMap.GetLayerGroup | vllm/core/ellm_cache.py:330-333 | ValueError exactly for a layer out of range; otherwise the one group, which exists, whose layers include it. |
| KVState.GroupsPartition | vllm/core/ellm_cache.py:63 | The groups cover all layers, and one group fewer would not. |
| KVState.GroupHasLayer | vllm/core/ellm_cache.py:63-68 | So every group has a first layer, which is below the number of layers ... |
| KVState.LayerInGroup | vllm/core/ellm_cache.py:330-333 | ... and every layer lies in one of the groups. |
| KVState.EntryAddress | vllm/core/ellm_cache.py:130-146 | In a consistent state every entry names its own sequence and block, starts at the first token of that block and at the first layer of its own group, a layer that exists, and says whether it is temporary. |
| KVState.MapsDeterminePools | vllm/core/ellm_cache.py:93-101 | In consistent states the entry maps determine all counts and, as sets, all free lists: whatever restores the maps has leaked nothing. |
| KVState.SoleHolder | vllm/core/ellm_cache.py:191-195 | A block with count one has no second holder, so writing it in place disturbs no other sequence. |
| KVState.FillBounds | vllm/core/ellm_cache.py:103-108 | Every covered block holds between one and block_size tokens and none beyond the length. |
| KVState.TokenInBlock | vllm/core/ellm_cache.py:106-108 | Token t of a sequence lies in block t / block_size, at an offset below that block's fill. |
| KVSpec.AllocatedKeepsInv | vllm/core/ellm_cache.py:113-155 | Allocation keeps the invariant: counts equal holders, free lists hold exactly the unreferenced blocks, and a live sequence's keys are exactly its retained blocks with the right fill and start. |
| KVSpec.RolledBack | vllm/core/ellm_cache.py:148-152 | Putting the maps back puts the pools back, up to deque order. |
| KVAppend.AppendKeepsInv | vllm/core/ellm_cache.py:157-220 | Appending keeps the invariant for every sequence, whichever of the three ways the tail is placed. |
| KVAppend.CowAppended | vllm/core/ellm_cache.py:185-218 | Taking copies first and then moving entries one group at a time amounts to one append. |
| KVSharing.ForkedInv | vllm/core/ellm_cache.py:222-240 | Forking keeps the invariant. |
| KVSharing.EvictedInv | vllm/core/ellm_cache.py:256-273 | Evicting a prefix keeps the invariant. |
| KVSharing.FreedInv | vllm/core/ellm_cache.py:467-474 | Freeing a sequence keeps the invariant. |
| KVRecompute.CachedBlocks | vllm/core/ellm_cache.py:440-450 | Of a live sequence exactly the blocks from its evicted prefix to its last are retained in each group, and temporaries fall below that prefix. |
| KVRecompute.LeasedCaches | vllm/core/ellm_cache.py:302-305 | With a prefix leased, every logical block of the sequence is cached, so the decode table of begin_recompute has no gap. |
| KVRecompute.LeasedInv | vllm/core/ellm_cache.py:275-305 | Leasing a prefix keeps the invariant. |
| KVRecompute.EndedInv | vllm/core/ellm_cache.py:422-429 | Ending a recompute keeps the invariant. |
| KVRecompute.SlotOfToken | vllm/core/ellm_cache.py:313-319 | The slot list has the slot of offset o of block i at index i * block_size + o. |
| KVPlans.FeasibleStep | vllm/core/ellm_cache.py:357-364 | A leased batch can be extended by one sequence exactly when the longer batch is feasible. |
| KVPlans.LeaseKeepsViews | vllm/core/ellm_cache.py:357-364 | Leasing one sequence leaves the tables already handed out for the others as they are. |
| KVPlans.AllReturned | vllm/core/ellm_cache.py:371-374 | Ending every lease of a batch restores entries, counts and free sets. |
| KVPlans.LeasedBlockIsPrivate | vllm/core/ellm_cache.py:275-305 | A leased temporary block belongs to no other entry of either kind. |
| KVPlans.RecomputeSlotsDistinct | vllm/core/ellm_cache.py:357-370 | All recompute slots of a plan are distinct. |
| KVPlans.RecomputeSlotsSpareRetained | vllm/core/ellm_cache.py:357-370 | No recompute slot of a plan lies in a block that any sequence retains. |
| KVPlans.RecomputeSlotAddress | vllm/core/ellm_cache.py:361-370 | The recompute slot of a prefix token is table[t / block_size] * block_size + t % block_size of the same plan's table. |
| KVPlans.DecodeSlotAddress | vllm/core/ellm_cache.py:363-370 | The decode slot is that formula at the newest token. |
| KVOwnership.StepKeepsOwner | vllm/core/ellm_cache.py:157-305 | A sequence that is the only user of its newest block stays so through every operation but a fork of itself: appends, allocations, forks, evictions, frees, swaps and recomputes of others, and its own evictions. Its own append, allocation or swap-in makes it so. |
| KVOwnership.RunKeepsOwner | vllm/core/ellm_cache.py:157-305 | So on every run a sequence that was not forked since its last append, allocation or swap-in is the only user of its newest block, in every group. |
| KVOwnership.PlanSlotsDistinct | vllm/core/ellm_cache.py:357-370 | The plan of a batch of such sequences has pairwise different decode slots, none of them among its recompute slots, in the leased state. |
| KVOwnership.RunPlanSlotsDistinct | vllm/core/ellm_cache.py:341-374 | On every run, for every feasible batch of distinct sequences not forked since their last append: in each group's plan all decode slots differ, all recompute slots differ, and the two lists are disjoint. |
| KVMemory.StepRefines | vllm/core/ellm_cache.py:110-474 | Copy-on-write refines private sequences. With a memory per (group, block, offset), every operation (allocate, append with its copies and the write at the decode slot, fork, evict, free, a recompute lease, swap-out and swap-in moves, and any that raised) keeps every live sequence reading its own token list, and the lists change as for private sequences. |
| KVMemory.RunRefines | vllm/core/ellm_cache.py:110-474 | The same over every run from the empty store, at every point. |
| KVMemory.ReadsOwnTokens | vllm/core/ellm_cache.py:431-438 | In such a state token tau of a live sequence is what the retained table of any group addresses. |
| KVOwnership.OthersKeepTokens | vllm/core/ellm_cache.py:110-474 | Across any operation that does not name it, every live sequence reads the same token at every retained position: the memory of after through the table of after gives what the memory of before gave through the table of before, in every group. |
| KVMemory.LeaseReadsWholeSequence | vllm/core/ellm_cache.py:409-420 | During a lease, after the prefix is recomputed, the decode table reads the whole sequence, prefix and suffix. |
| KVCopies.RefsHold | vllm/core/ellm_cache.py:185-218 | An append leaves every referenced block referenced, and no more often than before. |
| KVStepOrder.CollectedIsFresh | vllm/core/scheduler.py:1424-1444 | In each group the copies collected over a step have fresh targets, as long as no preemption releases the last hold on a block that an earlier append copies: no target is a source and none occurs twice, so that the copy kernel may perform them at once. |
| KVStepOrder.EngineOrder | vllm/worker/worker.py:214-226 | For every decode step (any appends, swap-outs, frees and swap-ins in any order, where nothing is preempted after it was appended to and nothing is swapped in by a step that preempts): performing all the swap moves first, then all the collected copies, then all the token writes leaves the GPU and the CPU memory, at every address, as performing each operation's moves, copies and write with the operation. |
| KVStepOrder.EngineStepRefines | vllm/core/scheduler.py:418-537 | So after the worker's traffic for such a step, started in any state that a run reaches, every live sequence reads its own tokens through its tables and every swapped one has them in its CPU blocks. |
| KVStepOrder.UntouchedStays | vllm/worker/worker.py:228-269 | A block that is the tail of no append of the step reads the same before, between and after the copies and the writes, so a swap-out from it may run alongside them; the asynchronous transfer waits for the others. |
| KVStepOrder.NobodyPreempted | vllm/core/scheduler.py:878-890 | In a step that preempts nobody every copied block stays referenced, so the condition on the copies holds. |
| KVLeases.HeldStepKeeps | vllm/core/ellm_cache.py:275-305 | Leases need not end before other operations run: while any number of them is held, every operation of the manager, every further lease and every release keeps all sequences reading their own tokens, each temporary block private to its key, and its recomputed tokens in place. |
| KVLeases.HeldReadsWholeSequence | vllm/core/ellm_cache.py:440-450 | At every point of every such run, while a sequence's lease in a group is held or it has nothing evicted, the decode table of that group reads the whole sequence as it is then, whatever was appended, forked, freed or swapped since the lease began. |
| KVMemory.SwapRoundTrip | vllm/core/ellm_block_manager.py:170-240 | Swap-out then swap-in restores length, evicted prefix and table shape, and the two block mappings composed carry the contents of every retained block back, whatever the GPU held in between. |
| ELLMBlockManager.ELLMBlockSpaceManager.constructor | vllm/core/ellm_block_manager.py:40-58 | The empty manager: every CPU block free in every group, nothing swapped. |
| ELLMBlockManager.ELLMBlockSpaceManager.CanAllocate | vllm/core/ellm_block_manager.py:63-73 | NEVER exactly when the blocks of all waiting sequences and the watermark exceed the pool, OK exactly when every group has them free. |
| ELLMBlockManager.ELLMBlockSpaceManager.Allocate | vllm/core/ellm_block_manager.py:75-84 | Allocates every waiting sequence exactly when all fit together; otherwise frees what it allocated and leaves the state as before. |
| ELLMBlockManager.ELLMBlockSpaceManager.CanAppendSlots | vllm/core/ellm_block_manager.py:86-103 | Raises exactly when a running sequence cannot be counted (unknown, or its tail block evicted); answers yes exactly when every group has the counted number of free blocks; refuses lookahead. |
| ELLMBlockManager.ELLMBlockSpaceManager.AppendSlots | vllm/core/ellm_block_manager.py:105-113 | Appends one token at a time until the store has caught up, and returns all the copies in order; if an append raises, the tokens appended before it stay. |
| ELLMBlockManager.ELLMBlockSpaceManager.GetLayerGroupBlockTables | vllm/core/ellm_block_manager.py:115-119 | One retained table per group. |
| ELLMBlockManager.ELLMBlockSpaceManager.EvictToCachedLayerRatio | vllm/core/ellm_block_manager.py:121-130 | Evicts exactly the blocks that the ratio asks for, and succeeds exactly when evict_prefix does for that count. |
| ELLMBlockManager.ELLMBlockSpaceManager.Free | vllm/core/ellm_block_manager.py:148-149 | Frees the GPU side of one sequence and leaves the swapped side alone. |
| ELLMBlockManager.ELLMBlockSpaceManager.Fork | vllm/core/ellm_block_manager.py:151-152 | Forks exactly as the store does. |
| ELLMBlockManager.ELLMBlockSpaceManager.CanSwapIn | vllm/core/ellm_block_manager.py:154-168 | NEVER exactly on lookahead or a sequence without a swapped copy, OK exactly when every group has as many free blocks as the copies hold. |
| ELLMBlockManager.ELLMBlockSpaceManager.CanSwapOut | vllm/core/ellm_block_manager.py:200-207 | Yes exactly when every group has a free CPU block for each retained block of the running sequences. |
| ELLMBlockManager.ELLMBlockSpaceManager.SwapIn | vllm/core/ellm_block_manager.py:170-198 | Restores every swapped sequence exactly when all fit and none is live, returns the block moves of the restores in order, and hands the CPU blocks back; otherwise frees what it restored and leaves everything as before. |
| ELLMBlockManager.ELLMBlockSpaceManager.SwapOut | vllm/core/ellm_block_manager.py:209-240 | Saves and then frees every running sequence exactly when the CPU has room and all are live, and returns the block moves; otherwise every CPU block taken goes back and the rest is untouched. |
| ELLMAdmission.AppendsNeverRaise | vllm/core/ellm_block_manager.py:105-113 | With room counted for all the sequences, appending to them in any order never raises, shared tails included. |
| ELLMAdmission.NeedShrinks | vllm/core/ellm_block_manager.py:95-103 | Appending to one sequence never makes another's append dearer: sharing only drops. |
| ELLMSoundness.CountedIsNeeded | vllm/core/ellm_block_manager.py:92-100 | For one more token and block_size >= 2 the counted groups are exactly those in which the append takes a block. |
| ELLMSoundness.AppendAdmission | vllm/core/ellm_block_manager.py:86-103 | A yes of can_append_slots means that appending to all the grown sequences, in any order, cannot raise, if and only if block_size >= 2. |
| ELLMSoundness.UnsoundAtOne | vllm/core/ellm_block_manager.py:95-97 | With block_size 1 the remainder is never 1, so new blocks are not counted: a full pool is admitted and the append raises. |
| ELLMSoundness.AllocateAdmission | vllm/core/ellm_block_manager.py:63-84 | An OK of can_allocate, for new sequences of positive length, means allocate cannot raise. |
| ELLMSoundness.EvictedShare | vllm/core/ellm_block_manager.py:124-128 | The number of evicted blocks is min(n - 1, floor(n * (L - c) / L)) for n >= 1 blocks and c of L layers cached. |
| ELLMSoundness.RetainedShare | vllm/core/ellm_block_manager.py:124-128 | What is retained of n blocks is the least number that makes up the cached layers' share, and at least one; one for a setting of no layers or fewer, all n for a setting of all layers or more. |
| ELLMSoundness.CeilComplement | vllm/core/ellm_block_manager.py:126-128 | Rounding the retained share up is the whole less the evicted share rounded down. |
| ELLMSoundness.EvictedMono | vllm/core/ellm_block_manager.py:124-128 | A longer sequence or a lower setting never evicts less. |
| ELLMSoundness.RatioAccepted | vllm/core/ellm_block_manager.py:121-130 | evict_prefix accepts the computed count exactly when no more than that is evicted already; it then evicts exactly that many blocks, which never reach the newest one. |
| RatioRuns.RatioOutcome | vllm/core/ellm_block_manager.py:121-130 | On every run of the manager from the empty store, with any operations of any sequences in between, evicting a live sequence to a setting raises exactly when the prefix that is gone exceeds the one asked for, and then changes nothing; otherwise just that prefix is gone and the newest block is retained. |
| RatioRuns.PrefixOrigins | vllm/core/scheduler.py:1310-1317 | On every such run each evicted prefix, of a live or of a swapped sequence, is empty or what an earlier call asked for at its setting and the length of then, of the sequence itself or an ancestor, and no longer than the sequence is now. |
| RatioRuns.RaisesAfterRise | vllm/core/scheduler.py:815-843 | So an eviction raises exactly when more is gone than its setting asks for, and only if an earlier call had a strictly lower setting: the policy must have selected more cached layers than before. |
| RatioRuns.FallingNeverRaises | vllm/core/scheduler.py:1310-1317 | As long as the setting never rises no eviction meets the shrink error (line 265 of the store), and each leaves the newest block. |
| ELLMWitnesses.RisenSettingRaises | vllm/core/ellm_block_manager.py:121-130 | A program from an empty manager, for every configuration with two layers and two blocks or more: a sequence of two blocks is evicted to a setting of one layer; when all layers may be cached again the next call raises ValueError. |
| ELLMSwap.SaveKeepsInv | vllm/core/ellm_block_manager.py:216-238 | Saving a sequence keeps the CPU blocks of different copies and the free ones apart. |
| ELLMSwap.RestoreKeepsInv | vllm/core/ellm_block_manager.py:177-188 | Restoring keeps them apart. |
| ELLMSwapAdmission.SwapInAdmission | vllm/core/ellm_block_manager.py:154-198 | An OK of can_swap_in means swap_in cannot raise, if and only if none of the swapped sequences is live already. |
| ELLMWitnesses.AdmittedSwapInRaises | vllm/core/ellm_block_manager.py:154-198 | A program from an empty manager, for every configuration with two blocks or more, in which can_swap_in says OK and swap_in raises, because the swapped sequence was allocated again. |
| ELLMRuns.RunSwapInAdmission | vllm/core/ellm_block_manager.py:154-198 | On every run of operations in which new sequences have new ids, the OK of can_swap_in means that swap_in cannot raise, without further condition. |
| ELLMRuns.OperationIsSound | vllm/core/ellm_block_manager.py:63-240 | Every operation, raised ones included, keeps live and swapped sequences apart and each group's CPU blocks partitioned between free list and swapped copies. |
| ELLMRuns.RunIsSound | vllm/core/ellm_block_manager.py:63-240 | So between the operations of every such run. |
| ELLMRuns.FreeStrands | vllm/core/ellm_block_manager.py:148-149 | Freeing a sequence for good, as an abort does, keeps every CPU block free or owned by a sequence that is still served exactly if the sequence was not swapped out with blocks. |
| ELLMWitnesses.AbortedSwapStrands | vllm/core/ellm_block_manager.py:148-149 | A program from an empty manager, for every configuration: the only sequence is swapped out and then aborted, after which a CPU block is neither free nor held for any sequence that is served. |
| ELLMSwapAdmission.SwapInThenAppend | vllm/core/ellm_block_manager.py:154-168 | After the swap in, one append per sequence never raises if and only if every group had the blocks of the copies and one more for each sequence whose last block is full; otherwise the appends never all complete. can_swap_in asks only for the first part. |
| ELLMWitnesses.AdmittedAppendRaises | vllm/core/ellm_block_manager.py:154-168 | A program from an empty manager, for every configuration, in which can_swap_in says OK, swap_in succeeds and the next append raises: one sequence fills the pool and its last block. |
| ELLMSwapAdmission.SaveKeepsPool | vllm/core/ellm_block_manager.py:237-239 | A save keeps every CPU block either free or owned, exactly unless it overwrites an older copy that owns blocks: those blocks are lost. |
| ELLMWitnesses.OverwrittenCopyLeaks | vllm/core/ellm_block_manager.py:209-239 | A program from an empty manager that swaps out an id twice: before the second time every CPU block is free or owned, after it one is neither. |
| ELLMSwapAdmission.SaveRunKeepsPool | vllm/core/ellm_block_manager.py:216-239 | A whole group's swap-out keeps each group's CPU blocks partitioned between free list and copies when no sequence of the group has an older copy. |
| ELLMSwapAdmission.DiscardRunKeepsPool | vllm/core/ellm_block_manager.py:194-197 | So does the return of the CPU blocks after a swap-in, always. |
| CacheLayout.KAddrBound | csrc/cpu/cache.cpp:54-69 | Every (slot, head, element) has its key address inside the cache. |
| CacheLayout.KAddrInjective | csrc/cpu/cache.cpp:54-69 | No two (slot, head, element) share a key address, for x dividing head_size. |
| CacheLayout.KAddrSurjective | csrc/cpu/cache.cpp:54-69 | Every key cell is the address of an element: the blocked layout is a bijection. |
| CacheLayout.VAddrBound | csrc/cpu/cache.cpp:59-78 | Every (slot, head, element) has its value address inside the cache. |
| CacheLayout.VAddrInjective | csrc/cpu/cache.cpp:59-78 | No two share a value address. |
| CacheLayout.VAddrSurjective | csrc/cpu/cache.cpp:59-78 | Every value cell is the address of an element. |
| CacheWrites.ReshapeAndCache | csrc/cpu/cache.cpp:45-81 | After the loops every cell holds the element of the last token written to its slot, or what it held before; tokens with a negative slot write nothing. |
| CacheWrites.OnlyWriter | csrc/cpu/cache.cpp:47-48 | A token that has its slot to itself is the slot's last writer. |
| CacheWrites.NoWriter | csrc/cpu/cache.cpp:47-48 | A slot that no token names has no writer. |
| CacheWrites.ReadBack | csrc/cpu/cache.cpp:45-81 | A token with a slot of its own is read back unchanged at every head and element. |
| CacheWrites.CopyBlocks | csrc/cpu/cache.cpp:16-32 | After the copies, block b of both caches holds what the block it descends from held before, in the order of the pairs. |
| CacheWrites.OriginIsSource | csrc/cpu/cache.cpp:17-31 | When no target is a source or a target of another pair, as for copy-on-write, the order does not matter and each target holds its source's first contents. |
| RealSums.LaneSums | csrc/cpu/attention.cpp:187-198 | Accumulating in lanes and adding the lanes up is the plain sum. |
| SoftmaxKernels.ReduceSoftmax | csrc/cpu/attention.cpp:62-70 | The data become exp(l - max) / sum, zeros up to the capacity, and the maximum and the sum are returned. |
| SoftmaxKernels.ReduceSoftmaxAlibi | csrc/cpu/attention.cpp:73-103 | The same for the logits with their position bias, whose size BiasByDistance states. |
| SoftmaxKernels.ReducePartitionSoftmax | csrc/cpu/attention.cpp:105-122 | The partition sums become the factors exp(m_p - m) * s_p / (S + 1e-8), where m and S are the maximum and the rescaled total. |
| AttentionKernels.ReduceQKBlock | csrc/cpu/attention.cpp:140-199 | Each logit of the block is the scaled dot product of the query with the key at the layout's address; nothing before the block's logits changes. |
| AttentionKernels.ReduceValueBlock | csrc/cpu/attention.cpp:202-216 | Each accumulator gains probability times value, lane by lane. |
| PagedAttention.ValuesAreAverage | csrc/cpu/attention.cpp:283-336 | Summing probability times value over all the blocks of a range, padding included, is the softmax average of the range. |
| PagedAttention.AttendRange | csrc/cpu/attention.cpp:269-336 | Scores, softmax and values of a range of tokens give the range's softmax average, its maximum and its mass. |
| PagedAttentionKernels.PagedAttentionV1 | csrc/cpu/attention.cpp:256-338 | For every sequence and head the output is softmax attention over the whole sequence, read through the block table; V1OutputIsPlain says what that is in plain rows. |
| Softmax.MassAtLeastOne | csrc/cpu/attention.cpp:113-118 | The sum of exp(l - max) is at least one. |
| Softmax.Rescale | csrc/cpu/attention.cpp:115-117 | Changing the reference point multiplies every weight by the same factor. |
| Softmax.MaxOfParts | csrc/cpu/attention.cpp:108-111 | The largest of the partitions' maxima is the maximum of the sequence. |
| Softmax.MassOfParts | csrc/cpu/attention.cpp:113-118 | The rescaled partition sums add up to the sum of a single pass. |
| Softmax.PartitionedIsScaled | csrc/cpu/attention.cpp:105-122 | The combination of the partitions is the single-pass average times S / (S + 1e-8), for every length, partition size and logit function. |
| Softmax.KeptAlmostAll | csrc/cpu/attention.cpp:119-121 | That factor is below one, by at most 1e-8. |
| PagedAttentionV2.AttendPartitions | csrc/cpu/attention.cpp:690-805 | Every started partition has its maximum, sum and average stored at its own index; a single partition goes straight to the output. |
| PagedAttentionV2.ReducePartitions | csrc/cpu/attention.cpp:807-824 | Every row with several partitions has its combination factors; rows with one are left alone. |
| PagedAttentionV2.CombinePartitions | csrc/cpu/attention.cpp:834-867 | Every such row of the output is the sum of averages times factors. |
| PagedAttentionV2.PagedAttentionV2 | csrc/cpu/attention.cpp:690-867 | The three phases together: the combined output for every sequence and head. |
| PagedAttentionV2.V2AgainstV1 | csrc/cpu/attention.cpp:690-867 | Element by element v2 is v1 when there is one partition and v1 times S / (S + 1e-8), with S >= 1, otherwise; so they are equal exactly for one partition or a zero element. For every length, partition count and block table, with or without alibi. |
| AttentionOverTokens.KernelAddress | csrc/cpu/attention.cpp:270-273 | The addresses that the kernels form from block table and offset are the addresses that the cache writer used for the token's slot. |
| AttentionOverTokens.ScoreIsPlain | csrc/cpu/attention.cpp:269-281 | For a token written to its own slot the score is the dot product with its plain [token][head][element] key row. |
| AttentionOverTokens.ValueIsPlain | csrc/cpu/attention.cpp:302-312 | And the values weighed are its plain value row. |
| AttentionOutputs.BiasByDistance | csrc/cpu/attention.cpp:73-85 | With slopes, the logit of token t is its scaled product less slope * (len - 1 - t): the newest token has no bias and older ones fall behind. Without slopes there is no bias. |
| AttentionOutputs.V1OutputIsPlain | csrc/cpu/attention.cpp:219-338 | Element [s][h][e] of v1's output is the softmax average, with plain exponentials over their sum, of the value rows written for the sequence's tokens, under the scaled products of the query with their key rows less the position bias, of the key and value head h / (num_heads / num_kv_heads). |
| AttentionOutputs.V2OutputIsPlain | csrc/cpu/attention.cpp:690-867 | Element [s][h][e] of v2's output is the same for a sequence that fits one partition, and otherwise that times S / (S + 1e-8) with S >= 1. |
| CacheLayout.KeyShape | csrc/cpu/attention.cpp:223-224 | The key address is the row-major index into [blocks][heads][head_size / x][block_size][x]. |
| CacheLayout.ValueShape | csrc/cpu/attention.cpp:225-226 | The value address is the row-major index into [blocks][heads][head_size][block_size]. |
| SchedulerQueues.SortSorts | vllm/core/policy.py:16-27 | Sorting permutes the queue into descending priority and keeps groups of equal priority in their order, as a stable reversed sort does. |
| SchedulerQueues.ArrivalOrder | vllm/core/policy.py:30-38 | First come, first served orders by arrival, whatever the clock says. |
| SchedulerQueues.WeightIsIdle | vllm/core/policy.py:41-51 | The weight of the dllm policy does not influence the order: strictly between 0 and 1 every weight ranks alike, at 0 and 1 all groups tie. |
| Scheduler.SchedulingBudget.CanSchedule | vllm/core/scheduler.py:65-69 | Asserts on zero requests; otherwise answers whether both limits hold afterwards. |
| Scheduler.SchedulingBudget.AddNumBatchedTokens | vllm/core/scheduler.py:74-79 | A request is charged once. |
| Scheduler.SchedulingBudget.SubtractNumBatchedTokens | vllm/core/scheduler.py:81-85 | Only what was charged is refunded. |
| Scheduler.SchedulingBudget.AddNumSeqs | vllm/core/scheduler.py:87-92 | A request is charged once. |
| Scheduler.SchedulingBudget.SubtractNumSeqs | vllm/core/scheduler.py:94-97 | Only what was charged is refunded. |
| Scheduler.Scheduler.constructor | vllm/core/scheduler.py:271-347 | Empty queues satisfy the invariant, given max_num_seqs <= max_num_batched_tokens. |
| Scheduler.Scheduler.Preempt | vllm/core/scheduler.py:1446-1527 | Without a setting, recomputes exactly the groups that may run one sequence and swaps the others out; RuntimeError exactly when a group to be swapped has no room on the CPU, AssertionError exactly for an invalid setting or the recomputation of a group that does not run exactly one sequence. |
| Scheduler.Scheduler.ScheduleRunning | vllm/core/scheduler.py:404-540 | The groups that run on, followed by the evicted ones in reverse order of eviction, are exactly the sorted queue; a group is evicted exactly when the group whose turn it is cannot append yet, and runs on as soon as it can (a group evicted for itself never could); both loops terminate, the tokens charged are those of the groups that run on, and the moves are those of the swapped ones. |
| Scheduler.Scheduler.SchedulePrefills | vllm/core/scheduler.py:675-800 | A prefix of the waiting queue is split, in order, into accepted and refused prompts: refused exactly if the length exceeds the limit or the manager says NEVER. It stops only if the delay has not passed, the manager says LATER, or the next prompt does not fit the tokens and sequences charged; acceptance keeps both budgets. |
| Scheduler.Scheduler.ScheduleSwapped | vllm/core/scheduler.py:542-658 | A prefix of the sorted swapped queue is split, in order, into restored and infeasible groups: infeasible exactly if the manager says NEVER. It stops only at a LATER or a group that does not fit either budget; restoring keeps both budgets and returns the groups' moves in order; it raises only if an admitted group cannot append. |
| Scheduler.Scheduler.ScheduleDefault | vllm/core/scheduler.py:802-934 | One step: where every group goes, what is charged, and that the invariant holds again. The manager's answers explain every decision of the step (accepted, refused, left waiting, kept, evicted, restored) and the moves returned; an exception has one of the listed causes in the queues before. |
| Scheduler.DroppedForGood | vllm/core/scheduler.py:727-768 | A step drops a request only if its prompt exceeds the model length or the token budget, or the manager answered NEVER for it. |
| Scheduler.EvictedForRoom | vllm/core/scheduler.py:445-517 | For each eviction of a step there is a running group of at least the victim's place in the order that could not append with the victims so far gone. |
| Scheduler.FirstPromptGoes | vllm/core/scheduler.py:675-800 | With nothing swapped out, a first waiting prompt that keeps the limits, may be allocated and whose delay has passed is scheduled by this step, whatever is running. |
| Scheduler.ReversePick | vllm/core/scheduler.py:899-900 | Prepending the victims one after the other puts them in front of the waiting queue in priority order. |
| Scheduler.NoInversion | vllm/core/scheduler.py:447-516 | Over one step: every running group that is kept ranks at least as high as every group that the step puts in front of the waiting queue or into the swapped one, and those in front of the waiting queue are in priority order. |
| Scheduler.StepConserves | vllm/core/scheduler.py:868-931 | One step turns waiting + running + swapped, as a multiset, into the new three queues + the ignored groups. |
| Scheduler.StepKeepsInvariant | vllm/core/scheduler.py:845-896 | One step keeps the queue invariant and both limits, although the running groups are charged without a check and batch sizes vary below the configured maximum; and it never yields blocks both to swap in and to swap out. |
| Scheduler.EnvironmentKeepsInvariant | vllm/core/scheduler.py:357-395 | Arrivals, aborts, finished groups and progress between steps keep the invariant, given that a group's maximum running count never grows and covers its running sequences. |
| Scheduler.RunKeepsInvariant | vllm/core/scheduler.py:802-934 | The invariant holds at every point of every run from empty queues. |
| Scheduler.AssertionsNeverFire | vllm/core/scheduler.py:894-896 | At every step of every run the batched tokens are within the token budget and the running groups' total within max_num_seqs; the conflict of swap directions never arises; and no group is lost or duplicated. |
| Scheduler.StepKeepsPrompts | vllm/core/scheduler.py:1511-1520 | A recomputed victim runs one sequence, so after a step every waiting group is still a single prompt. |
| Scheduler.RunKeepsPrompts | vllm/core/scheduler.py:719-722 | On every run into which only prompts arrive, every waiting group is a single prompt, which is what the assertion in the prompt phase checks. |
| Scheduler.NothingToAssertAbout | vllm/core/scheduler.py:1464-1516 | On such a run neither cause of an AssertionError of a step arises, unless recomputation is configured for all groups or the setting is invalid. |
| EllmPolicy.LayerChoices | vllm/core/ellm_policy.py:53-56 | The candidates are exactly the multiples of the group size up to the number of layers, and that number itself, in ascending order. |
| EllmPolicy.SelectEllmPolicy | vllm/core/ellm_policy.py:26-92 | ValueError exactly for invalid input, RuntimeError exactly when no point is feasible; otherwise a feasible point (b, c) such that b / max(work, 1), with work = (L - c) * sum of squared lengths + c * sum of lengths of its batch, is exceeded by no feasible point; of equals none has a larger batch, and of those none more cached layers. Work, resident and temporary slots of the result are stated by plain sums. |
| EllmPolicy.FeasibleMeans | vllm/core/ellm_policy.py:47-70 | A point is feasible exactly when the batch is between one and its limits, the layers are a multiple of the group size g or all of them, and the blocks that the batch's requests fill, times cached layers plus one more group (or what is left of it), are at most num_gpu_blocks * L. |
| EllmPolicy.WorkIsPlain | vllm/core/ellm_policy.py:71-74 | The accumulated work is (L - c) times the sum of the squared lengths plus c times their sum. |
| EllmPolicy.CountsExist | vllm/core/ellm_policy.py:22-23 | For every list of lengths there are block counts that just cover them, so that the statements about resident and temporary slots are about such counts. |
| EllmPolicy.ThroughputMono | vllm/core/ellm_policy.py:75-77 | For one batch, caching more layers never lowers the throughput. |
| EllmPolicy.LargestForItsBatch | vllm/core/ellm_policy.py:78-79 | The selected number of cached layers is the largest feasible for the selected batch. |
| EllmPolicy.FailsExactlyWhen | vllm/core/ellm_policy.py:69-91 | Some point is feasible exactly when ceil(len0 / bs) * min(2g, L) <= num_gpu_blocks * L, with g = min(layer_group_size, L). |
| PolicyPlans.FreeAndUsed | vllm/core/ellm_cache.py:76-101 | The free blocks of a group and the blocks that some entry names make up its pool. |
| PolicyPlans.PlanCondition | vllm/core/ellm_cache.py:341-374 | For distinct sequences with retained newest blocks and no active temporaries a group's plan can be built exactly when its used blocks and the batch's evicted blocks fit its pool together, which a caller can check before. |
| PolicyPlans.PlanOfWholeBatch | vllm/core/ellm_cache.py:341-374 | If the batch is all that lives and shares no block, that is exactly when all the blocks of its sequences fit one group's pool, however much is evicted. |
| PolicyPlans.PlansOfPolicyBatch | vllm/core/ellm_policy.py:58-70 | The same in the policy's terms: the number of cached layers makes no difference to whether the plans of its batch can be built. |
| PolicyPlans.FittingIsFeasible | vllm/core/ellm_policy.py:63-70 | Whatever fits one group's pool is feasible for every candidate number of cached layers. |
| PolicyPlans.PolicyGuarantee | vllm/core/ellm_policy.py:58-70 | Conversely, feasibility with c cached layers guarantees that the batch fits one group's pool, for all inputs, if and only if c + min(group size, L) >= L. |
| ELLMWitnesses.SelectedBatchHasNoPlan | vllm/core/ellm_policy.py:26-92 | A program in which the search selects four requests with four cached layers, the manager admits the first two and evicts to that setting, and then no plan can be built for them. |
| Evictors.LRUEvictorV2.Evict | vllm/core/evictor_v2.py:83-101 | Raises exactly on an empty table; otherwise removes the victim: the first block with the lowest access time and, among those, the most hashed tokens. |
| Evictors.LRUEvictorV2.Add | vllm/core/evictor_v2.py:103-107 | Inserts at the end, or replaces the data of a known block where it stands. |
| Evictors.LRUEvictorV2.Update | vllm/core/evictor_v2.py:109-110 | Changes the access time and not the place; KeyError for an unknown block. |
| Evictors.LRUEvictorV2.Remove | vllm/core/evictor_v2.py:112-116 | Removes a known block and keeps the order of the others. |
| Evictors.FullScanFindsVictim | vllm/core/evictor_v2.py:87-97 | The full scan finds the victim in every table. |
| Evictors.VictimUnique | vllm/core/evictor_v2.py:87-97 | There is one victim. |
| Evictors.EarlyBreakIsExact | vllm/core/evictor_v1.py:70-78 | The scan with the early break agrees with the full scan, for every choice of token counts, if and only if the lowest access times come first. |
| Evictors.SameVictim | vllm/core/evictor_v1.py:70-78 | On such a table the early break picks the victim. |
| Evictors.OrderedIsLowestFirst | vllm/core/evictor_v1.py:71-73 | A table in order of access has the lowest access times first. |
| CachedAllocator.LRUEvictor.Evict | vllm/core/evictor_v1.py:66-83 | Raises exactly on an empty table; otherwise removes the block that the early scan picks, under its own hash. |
| CachedAllocator.LRUEvictor.Add | vllm/core/evictor_v1.py:85-86 | Adds a new hash at the end; a hash that is there gets the new block where it stands. |
| CachedAllocator.LRUEvictor.Remove | vllm/core/evictor_v1.py:88-94 | Takes a known block out and keeps the order of the others; ValueError otherwise. |
| CachedAllocator.CachedBlockAllocator.constructor | vllm/core/block_manager_v1.py:79-90 | The empty allocator satisfies the pool invariant. |
| CachedAllocator.CachedBlockAllocator.AllocateBlock | vllm/core/block_manager_v1.py:92-105 | A block that was never used while there is one, then the evictor's victim under its new hash, for any hash; raises exactly when there is neither. |
| CachedAllocator.CachedBlockAllocator.Allocate | vllm/core/block_manager_v1.py:107-126 | Raises exactly when the hash is not held and there is neither room nor a victim; the block returned is the one recorded for the hash; a hash not held before gets a block with count one and computed false; in every case that block gains exactly one reference and no other block changes; the four assertions never fire. |
| CachedAllocator.CachedBlockAllocator.Free | vllm/core/block_manager_v1.py:128-137 | Raises exactly on a double free; otherwise the block loses exactly one reference and no other block changes; the last one moves it to the evictor under its own hash; the assertion never fires. |
| CachedAllocator.CachedBlockAllocator.GetNumFreeBlocks | vllm/core/block_manager_v1.py:139-141 | Free blocks and cached blocks add up to num_blocks. |
| CachedAllocator.CachedBlockAllocator.ContainsBlock | vllm/core/block_manager_v1.py:146-147 | In a consistent allocator, whether some created block carries the hash; and no two blocks carry the same one. |
| CachedAllocator.CachedBlockAllocator.UpdateHash | vllm/core/block_manager_v1.py:149-155 | AssertionError exactly when the new hash is held; otherwise moves a referenced block to it. For an unreferenced block it raises KeyError after the block's hash was changed, which leaves the allocator inconsistent. |
| V1Witnesses.HashOfFreeBlock | vllm/core/block_manager_v1.py:149-155 | A program that fails: allocate, free, update the hash of the unreferenced block; KeyError is raised and the allocator is inconsistent. |
| CachedAllocator.ReviveKeepsPool | vllm/core/block_manager_v1.py:112-119 | Bringing a freed block back keeps every block in exactly one of cached_blocks (referenced) and the evictor (unreferenced), under its own hash. |
| CachedAllocator.CreateKeepsPool | vllm/core/block_manager_v1.py:99-105 | So does creating a block. |
| CachedAllocator.RecycleKeepsPool | vllm/core/block_manager_v1.py:94-98 | So does recycling a victim, which ends with count one and computed false. |
| CachedAllocator.RetireKeepsPool | vllm/core/block_manager_v1.py:128-137 | So does dropping the last reference. |
| CachedAllocator.RehashKeepsPool | vllm/core/block_manager_v1.py:149-155 | So does a change of hash. |
| BlockManagerV1.UncachedBlockAllocator.constructor | vllm/core/block_manager_v1.py:166-190 | All blocks free and unreferenced. |
| BlockManagerV1.UncachedBlockAllocator.Allocate | vllm/core/block_manager_v1.py:192-204 | Raises exactly when none is free; otherwise the oldest free block with count one. |
| BlockManagerV1.UncachedBlockAllocator.Free | vllm/core/block_manager_v1.py:206-212 | Raises exactly on a double free; the last reference queues the block at the tail. |
| BlockManagerV1.BlockSpaceManagerV1.constructor | vllm/core/block_manager_v1.py:232-277 | The empty manager satisfies the invariant. |
| BlockManagerV1.BlockSpaceManagerV1.Allocate | vllm/core/block_manager_v1.py:300-336 | IndexError without a waiting sequence. Otherwise succeeds exactly when the prompt's blocks are free; every waiting sequence gets the same table and every block the count of the whole group. When it raises for want of blocks, all that were free are taken and counted, and no table changed. |
| V1Spec.FailedAllocation | vllm/core/block_manager_v1.py:309-336 | So a failed allocation keeps counts equal to holders exactly when nothing was free. |
| V1Witnesses.ExhaustedAllocation | vllm/core/block_manager_v1.py:309-336 | A program that fails: a prompt of two blocks on a device of one raises, the block is taken and no table names it. |
| V1Spec.AllocateKeepsInvariant | vllm/core/block_manager_v1.py:326-336 | That keeps counts equal to holders exactly when the whole group is waiting, or there is nothing to allocate. |
| V1Witnesses.SiblingCounted | vllm/core/scheduler.py:1511-1520 | A program that fails: one waiting sequence of a group of two, as preemption by recompute leaves behind when its sibling has finished, gets a block with count two and one holder. |
| V1Spec.AppendsNeverRaise | vllm/core/block_manager_v1.py:338-349 | A yes means that one append per running sequence, in any order and whatever they share, never raises: if the tables fit their logical blocks at the start, each append finds its table fitting and a block. |
| BlockManagerV1.BlockSpaceManagerV1.AppendSlots | vllm/core/block_manager_v1.py:417-461 | Returns exactly when the table lacks only the newest block, or ends in a GPU block, and a block is free if one is needed; grows, appends in place or copies the shared last block; keeps counts equal to holders; tells its four exceptions apart. The copy returned leads from the shared block to the new one (StepReads says why that matters). |
| BlockManagerV1.BlockSpaceManagerV1.Fork | vllm/core/block_manager_v1.py:463-474 | The child gets the parent's table, no block is taken, and counts stay equal to holders exactly when the child had no blocks before. |
| V1Spec.ForkKeepsInvariant | vllm/core/block_manager_v1.py:463-474 | Overwriting the table of a child that holds blocks loses their references; otherwise every shared block gains exactly one. |
| V1Witnesses.ForkOntoHolder | vllm/core/block_manager_v1.py:463-474 | A program that fails: forking onto a sequence that holds a block leaves that block counted and unheld. |
| BlockManagerV1.BlockSpaceManagerV1.Free | vllm/core/block_manager_v1.py:589-610 | The sequence is gone and its references are dropped, on whichever device; an unknown id changes nothing. |
| BlockManagerV1.BlockSpaceManagerV1.GetPhysicalBlocks | vllm/core/block_manager_v1.py:476-485 | The distinct blocks of the listed sequences; KeyError exactly when one has no table. |
| BlockManagerV1.BlockSpaceManagerV1.CanSwapIn | vllm/core/block_manager_v1.py:487-505 | NEVER exactly when the distinct blocks and one per swapped sequence exceed the pool, OK exactly when they are free above the watermark. |
| BlockManagerV1.BlockSpaceManagerV1.CanSwapOut | vllm/core/block_manager_v1.py:550-552 | Yes exactly when the CPU has a free block for each distinct block. |
| BlockManagerV1.BlockSpaceManagerV1.SwapIn | vllm/core/block_manager_v1.py:507-541 | Succeeds exactly when every listed sequence has a table and the distinct blocks fit; the tables move through a one-to-one mapping of exactly those blocks onto free ones; counts stay equal to holders. A sequence without a table raises KeyError with the ones before it moved. When the destination is used up, the sequences before the failing one have moved, and the failing one keeps its old table while its first blocks were already freed. |
| BlockManagerV1.BlockSpaceManagerV1.SwapOut | vllm/core/block_manager_v1.py:554-587 | The same in the other direction. |
| V1Stops.StopsWhereItRunsOut | vllm/core/block_manager_v1.py:507-587 | Where a swap that runs out of blocks stops is fixed by the state before it: at the first entry that is none of the blocks before it when those are as many as the destination has free. |
| V1Stops.RunsOutOnce | vllm/core/block_manager_v1.py:507-587 | There is only one such place. |
| V1Stops.StoppedKeepsInvariant | vllm/core/block_manager_v1.py:507-587 | After such an exception the counts are exact if and only if, before the call, some of the listed sequences from the first one on have together exactly as many distinct blocks as the destination has free and the next one starts with another block. |
| V1Witnesses.SwapStopsInside | vllm/core/block_manager_v1.py:554-587 | A program that fails: a table of two blocks swapped to a device of one stops inside the table and leaves counts that do not match. |
| V1Swap.ComposedMapping | vllm/core/block_manager_v1.py:507-587 | Out and back in composes to a one-to-one renaming of the group's blocks. |
| V1Swap.RoundTripTables | vllm/core/block_manager_v1.py:507-587 | The tables come back isomorphic: same lengths, and two entries are equal exactly when they were. |
| V1Swap.RoundTripCounts | vllm/core/block_manager_v1.py:507-587 | Every renamed block has its original's count if and only if only the group used the group's blocks. |
| V1Witnesses.OneSharerOutAndIn | vllm/core/block_manager_v1.py:507-587 | A program that fails: a forked sequence goes out and comes back without its sibling, and the block it shared comes back with another count. |
| V1Swap.RoundTripCpu | vllm/core/block_manager_v1.py:507-587 | The CPU counts and free set are as before. |
| V1Spec.SwapInReserves | vllm/core/block_manager_v1.py:487-505 | After an OK of can_swap_in the swap in fits, and then one append per swapped sequence never finds the GPU pool empty. |
| V1Spec.AppendRunFree | vllm/core/block_manager_v1.py:417-461 | A run of appends keeps the invariant and takes at most one block each. |
| V1Memory.StepReads | vllm/core/block_manager_v1.py:300-625 | Copy-on-write refines private sequences here too. With a memory per (block, offset), every operation that keeps the counts exact (the allocation of new sequences with their prompt, an append with its copy and its write, a fork onto a child without blocks, a free, a swap with its moves) keeps every sequence reading its own token list through its table, at every position. |
| V1Memory.RunReads | vllm/core/block_manager_v1.py:300-625 | The same at every point of every run from the empty manager, for the token lists that private sequences would have. |

## Left out

- BlockManagerV1.BlockSpaceManagerV1.SwapIn: takes distinct sequences whose tables, as far as they exist, lie on the source device, as their swapped or running state implies.
- BlockManagerV1.BlockSpaceManagerV1.SwapOut: takes distinct sequences whose tables, as far as they exist, lie on the source device, as their swapped or running state implies.
- TokenLayerCache.TokenLayerKVMap.GetRetainedBlockTable: takes a group in range, as its callers give it; the original returns an empty table otherwise.
- TokenLayerCache.TokenLayerKVMap.GetDecodeBlockTable: takes a group in range, as its callers give it.
- TokenLayerCache.TokenLayerKVMap.GetDecodeSlot: takes a group in range, as its callers give it.
- Scheduler.Scheduler.ScheduleDefault: the block manager's answers, the moves of each group and the prompt delay are arbitrary inputs, one for each question that a step can ask (none is asked twice: room to append is asked again only after an eviction, and the answer is per group and number of evictions); what the answers have to do with the blocks is stated only for the managers themselves.
- Dictionary order: loops over `_entries` and `_temporary_entries` pick keys in arbitrary order; nothing proved depends on it.
- Floating point: ceilings of quotients are exact, priorities, times and throughput are real numbers, and the kernels compute over reals; rounding, bf16, overflow and the accumulator width are not modelled.
- Kernels: vector width is a parameter, prefetching, unrolled token groups and OpenMP scheduling are dropped (iterations write disjoint places, which the frame conditions show); cache strides are contiguous; a sequence length of zero, for which the original reads an uninitialised logit, is excluded.
- Sequence statuses other than the one each call filters by, and the prefill and decode flags of a group: a group is its id, arrival, lengths and counts.
- Physical block objects: the hash-indexed allocator and the conventional manager name a block by number and keep its fields in one record per number, so aliasing of block objects is not part of the model.
- The conventional manager's `can_allocate`, whose layer scaling can make the requirement zero, its sliding window, and its prefix-caching branch.
- Lookahead slots of append, swap-in and swap-out, which the original refuses with NotImplementedError.
- The events with which the worker orders its asynchronous transfers: `KVStepOrder` shows which transfers may overlap, not that the events keep the others apart; and token writes use the slot of each append, which for a sequence appended to once in the step is the slot of its newest token.
- Chunked prefill, LoRA bookkeeping, artificial preemption, logging and metrics.
- Plain getters and sorted listings of entries, which follow from the fields.
- `get_opt_bs_and_layers_2` and `get_opt_bs_and_layers_backup`, which call a numerical optimiser and are not on the live path.
- `vllm/core/block_manager_v2.py`, whose block table and allocator are elsewhere.
- Fused attention kernels, the MLP and the other pointwise kernels, tokenisation, sampling, distribution, and everything that is input or output.

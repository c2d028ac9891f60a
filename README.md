# TensorRT-LLM paged KV cache, MoE plugin layout and LLaMA config, in Dafny

This project models three parts of TensorRT-LLM and proves properties of the model.

- **Paged KV-cache bookkeeping** (`kvCacheManager.h`). It is written as imperative Dafny:
  - `GenerationRequest` is a class. Its per-beam block-id lists are a `seq<seq<int>>` field that its methods reassign.
  - `BlockManager` is a class over an arena of `KVCacheBlock` records, indexed by block id. Its state is:
    - the two free queues (primary and secondary), as sequences of block ids;
    - the per-slot lists of allocated blocks;
    - the prefix tree of reusable blocks, a map from an exact token chunk to a child block id under a root map;
    - the allocation counters.
  - `BlockManager.Valid` is its invariant. Each free queue holds distinct, unreferenced blocks of its tier, and nothing else is queued. Every block's reference count equals the number of times the per-slot lists hold it. Every back link names a block of the arena; child ids are not bounded by the invariant.
  - `KVCacheManager` is the facade over one manager. It gives the statistics, the prepopulated-token query and the two page-size formulas.
  - The token-vector hash is a loop proved against a recursive specification. The hash-bucketed child map is shown to behave as an exact-key map.
- **Input/output tensor layout of the mixture-of-experts TensorRT plugin** (`mixtureOfExpertsPlugin.h`). It is written as pure functions:
  - the chain of index getters is kept as written;
  - it is compared with a reference layout, the present inputs in declaration order;
  - `GemmIDMoe` equality and its xor-fold hash over 64-bit words are included.
- **LLaMA configuration** (`config.py`). It is written as pure functions:
  - the `DenseReplaceConfig` validator and its dict round trip;
  - the invariants `LLaMAConfig.__init__` establishes and `to_dict`;
  - the vocabulary and intermediate-size arithmetic of `from_meta_ckpt`.

The header only declares most `BlockManager` members: release, allocation, reuse, eviction, onboarding and storing. Their behaviour here follows the doc comments on those declarations:
- allocation takes the first block of the primary free queue;
- a release appends at the back, or at the front when `toFront` is set;
- the eviction victim is the first queued primary block with no primary descendant;
- onboarding does nothing for a primary block;
- the reuse walk returns the number of tokens matched from cached blocks;
- scheduling release only simulates freeing.

Where the header gives no detail, the model makes these choices:
- `releaseBlocks` releases a sequence's blocks in the order they were allocated;
- `addNextBlock` keeps an existing child with the same key;
- a matched block is claimed before it is onboarded.

Files:
- `wrappers.dfy`: `Option` and `Result`.
- `token_hash.dfy`: the token-vector hash and the bucketed child map.
- `generation_request.dfy`: `GenerationRequest`.
- `block_pool.dfy`: `KVCacheBlock`, the pool-offset encoding, queue and tree definitions.
- `block_manager.dfy`: `BlockManager`.
- `kv_cache_manager.dfy`: `KVCacheManager`.
- `moe_plugin.dfy`: the MoE plugin.
- `llama_config.dfy`: the LLaMA configuration.

## Model

| member | source | states |
|---|---|---|
| TokenHash.HashTokens | cpp/include/tensorrt_llm/batch_manager/kvCacheManager.h:45-61 | the loop computes the hash specified by `TokenVecHash`. The seed starts at the vector length and each token is mixed in 32-bit and combined in 64-bit wrap-around arithmetic |
| TokenHash.AbsorbConcat | cpp/include/tensorrt_llm/batch_manager/kvCacheManager.h:51-58 | absorbing `a + b` is absorbing `a`, then `b` from the resulting seed |
| TokenHash.EmptyVectorHashesToZero | cpp/include/tensorrt_llm/batch_manager/kvCacheManager.h:50 | the empty token vector hashes to 0 |
| TokenHash.BucketOf | cpp/include/tensorrt_llm/batch_manager/kvCacheManager.h:76 | the bucket chosen by the hash is in range |
| TokenHash.FindInBucket | cpp/include/tensorrt_llm/batch_manager/kvCacheManager.h:134 | lookup inside a bucket succeeds iff an entry has exactly that key, and returns such an entry's value |
| TokenHash.Insert | cpp/include/tensorrt_llm/batch_manager/kvCacheManager.h:76 | inserting keeps the map well formed. Every key sits in its hash bucket, once |
| TokenHash.Erase | cpp/include/tensorrt_llm/batch_manager/kvCacheManager.h:128 | erasing keeps the map well formed |
| TokenHash.FindAfterInsert | cpp/include/tensorrt_llm/batch_manager/kvCacheManager.h:126 | after an insert, the lookup of that key gives the new value and every other key's lookup is unchanged |
| TokenHash.FindAfterErase | cpp/include/tensorrt_llm/batch_manager/kvCacheManager.h:128 | after an erase, the key is absent and every other key's lookup is unchanged |
| TokenHash.CollidingKeysStayApart | cpp/include/tensorrt_llm/batch_manager/kvCacheManager.h:76 | two distinct keys stay distinct entries even when their hashes collide |
| BlockPool.OffsetEncodingRoundTrip | cpp/include/tensorrt_llm/batch_manager/kvCacheManager.h:171-172 | tagging an offset with the secondary-pool flag (the sign bit of a 32-bit SizeType) is undone by the offset getter. `isPrimary` holds iff the flag was not set |
| BlockPool.NewBlock | cpp/include/tensorrt_llm/batch_manager/kvCacheManager.h:92 | a new block with index below the primary pool size is primary at that offset, otherwise secondary at the index minus the primary size. It has no references, no tokens, no children and no parent |
| BlockPool.RemoveFromDistinct | cpp/include/tensorrt_llm/batch_manager/kvCacheManager.h:165-166 | erasing a queued block through its iterator removes exactly that block and keeps the queue free of duplicates |
| BlockPool.FindMatching | cpp/include/tensorrt_llm/batch_manager/kvCacheManager.h:134 | a child matches iff its exact token chunk is a key and the child block is full. The match is that child |
| BlockPool.MatchFrom | cpp/include/tensorrt_llm/batch_manager/kvCacheManager.h:387-393 | the reuse path matches at most one block per chunk, and every block on it exists |
| BlockPool.MatchStep | cpp/include/tensorrt_llm/batch_manager/kvCacheManager.h:387-393 | the walk through the tree finds exactly the path's next block at each step before the path ends, and nothing at its end |
| BlockPool.FindMatchingShrunk | cpp/include/tensorrt_llm/batch_manager/kvCacheManager.h:137 | removing leaves from the tree never creates a match that was not there before |
| BlockPool.LeafIsCandidate | cpp/include/tensorrt_llm/batch_manager/kvCacheManager.h:396-399 | a block without children has no primary descendant, so it can be evicted |
| BlockPool.PrimaryChildBlocksEviction | cpp/include/tensorrt_llm/batch_manager/kvCacheManager.h:396-399 | a block with a primary child cannot be evicted |
| BlockManagers.Push | cpp/include/tensorrt_llm/batch_manager/kvCacheManager.h:303-305 | a released block goes to the back of its queue, or to the front when `toFront` |
| BlockManagers.FirstCandidate | cpp/include/tensorrt_llm/batch_manager/kvCacheManager.h:396-399 | the choice is a queued block with no primary descendant. There is none iff no queued block qualifies |
| BlockManagers.FrontFirst | cpp/include/tensorrt_llm/batch_manager/kvCacheManager.h:281 | when the front block qualifies, it is the one taken |
| BlockManagers.FirstCandidateIsFirst | cpp/include/tensorrt_llm/batch_manager/kvCacheManager.h:396-399 | no block ahead of the chosen one in the queue qualifies |
| BlockManagers.FreeLeaf | cpp/include/tensorrt_llm/batch_manager/kvCacheManager.h:136-137 | `freeLeafBlock` unlinks the block from its parent (the root, or another block) under its token key and clears its back link |
| BlockManagers.FreeLeafShrinks | cpp/include/tensorrt_llm/batch_manager/kvCacheManager.h:136-137 | unlinking only shrinks the tree and keeps the links consistent. Reference counts, queue membership and pool offsets are unchanged |
| BlockManagers.SchedReleaseBound | cpp/include/tensorrt_llm/batch_manager/kvCacheManager.h:316-317 | a simulated release frees at most as many blocks as the sequence holds |
| BlockManagers.SchedReleaseSoleOwner | cpp/include/tensorrt_llm/batch_manager/kvCacheManager.h:316-317 | when the sequence is the only holder of each of its distinct blocks, the simulation frees all of them |
| BlockManagers.SchedReleaseShared | cpp/include/tensorrt_llm/batch_manager/kvCacheManager.h:316-317 | a block another sequence still holds is not counted as freed |
| BlockManagers.AddNext | cpp/include/tensorrt_llm/batch_manager/kvCacheManager.h:126 | `addNextBlock` keeps every existing child and makes the key present. It binds the new block when the key was absent |
| BlockManagers.ReleaseAllOk | cpp/include/tensorrt_llm/batch_manager/kvCacheManager.h:313-314 | once a slot's blocks are released and the slot is emptied, the invariant holds again. Each block's count has fallen by its number of occurrences in the slot |
| BlockManagers.ReleaseAllSplit | cpp/include/tensorrt_llm/batch_manager/kvCacheManager.h:313-314 | releasing `l1 + l2` is releasing `l1`, then `l2`: the list is released in order |
| BlockManagers.ReleaseAllAppends | cpp/include/tensorrt_llm/batch_manager/kvCacheManager.h:313-314 | releasing a list only appends to each free queue, at the back. No block field other than the count and the queued flag changes |
| BlockManagers.ReleaseAllFrees | cpp/include/tensorrt_llm/batch_manager/kvCacheManager.h:313-314 | when every listed block is held at least as often as it is listed, each count falls by its multiplicity in the list and the tier is kept. A listed block whose count reaches zero is queued on its own tier's queue |
| BlockManagers.HeldNotQueued | cpp/include/tensorrt_llm/batch_manager/kvCacheManager.h:303-305 | a block that a sequence holds is on neither free queue |
| BlockManagers.FreshFromTake | cpp/include/tensorrt_llm/batch_manager/kvCacheManager.h:401-402 | a block taken off the primary queue and not yet in the slot's list extends the list's fresh blocks: all of them were queued when the walk began, none is queued now, and none repeats an earlier entry |
| BlockManagers.BlockManager.constructor | cpp/include/tensorrt_llm/batch_manager/kvCacheManager.h:289-291 | a new manager queues every primary block, then every secondary one, in index order. Nothing is referenced or cached, the counters are zero, the scheduling free counter is the primary pool size, and the block size is the volume of [numKvHeads, tokensPerBlock, sizePerHead] |
| BlockManagers.BlockManager.GetNumAllocatedBlocks | cpp/include/tensorrt_llm/batch_manager/kvCacheManager.h:332-335 | allocated plus free is the pool size |
| BlockManagers.BlockManager.HasFreeBlocks | cpp/include/tensorrt_llm/batch_manager/kvCacheManager.h:337-340 | true iff the primary free queue holds at least `numRequired` blocks |
| BlockManagers.BlockManager.SchedulingHasFreeBlocks | cpp/include/tensorrt_llm/batch_manager/kvCacheManager.h:342-345 | true iff the scheduling counter is at least `numRequired` |
| BlockManagers.BlockManager.FreeCountBounded | cpp/include/tensorrt_llm/batch_manager/kvCacheManager.h:322-335 | under the invariant, the free and allocated counts both lie between 0 and the pool size |
| BlockManagers.BlockManager.StartScheduling | cpp/include/tensorrt_llm/batch_manager/kvCacheManager.h:295 | every block's scheduling count is reset to its reference count, and the scheduling free counter to the primary queue length. Nothing else changes |
| BlockManagers.BlockManager.ReleaseBlock | cpp/include/tensorrt_llm/batch_manager/kvCacheManager.h:303-305 | releasing an unreferenced block is an error that changes nothing. Otherwise the count drops by one. At zero the block is queued in its tier's queue, at the back or at the front. The new free state is exactly `ReleaseOne` of the old |
| BlockManagers.BlockManager.ClaimBlock | cpp/include/tensorrt_llm/batch_manager/kvCacheManager.h:404-405 | a queued block is removed from its tier's queue, and an unqueued one is left in place. Nothing else changes |
| BlockManagers.BlockManager.FreeLeafBlock | cpp/include/tensorrt_llm/batch_manager/kvCacheManager.h:136-137 | the new state is `FreeLeaf` of the old. Queues, counts and allocation lists are unchanged |
| BlockManagers.BlockManager.FindBestGpuBlockToFree | cpp/include/tensorrt_llm/batch_manager/kvCacheManager.h:396-399 | the loop returns `FirstCandidate` of the primary queue |
| BlockManagers.BlockManager.GetFreeBlock | cpp/include/tensorrt_llm/batch_manager/kvCacheManager.h:401-402 | it fails, changing nothing, iff no queued primary block can be evicted. Otherwise it takes the first candidate out of the primary queue and unlinks it from the tree. Counts and offsets are untouched |
| BlockManagers.BlockManager.OnboardBlock | cpp/include/tensorrt_llm/batch_manager/kvCacheManager.h:374-376 | it does nothing for a primary block or with onboarding off. Otherwise a secondary block takes the pool offset of the first evictable primary block. That block moves to the back of the secondary queue with the old offset. It fails unchanged when there is none |
| BlockManagers.BlockManager.AddBlockToBeam | cpp/include/tensorrt_llm/batch_manager/kvCacheManager.h:379-380 | the block's count rises by one. It is appended to the slot's allocated list and to the beam's id list, and nothing else changes |
| BlockManagers.BlockManager.AddToEveryBeam | cpp/include/tensorrt_llm/batch_manager/kvCacheManager.h:307-309 | one block shared by all beams is appended to every beam, and the slot's list gains one copy per beam. The invariant is restored |
| BlockManagers.BlockManager.AddFreshToEveryBeam | cpp/include/tensorrt_llm/batch_manager/kvCacheManager.h:307-309 | the blocks taken are distinct and come out of the primary queue, which keeps the rest. Beam `i` gains the `i`-th of them and the slot's list gains them all, in beam order. It succeeds iff every beam got one; it stops at the first beam for which no primary block can be evicted, and the beams before it keep theirs |
| BlockManagers.BlockManager.FreshForBeam | cpp/include/tensorrt_llm/batch_manager/kvCacheManager.h:307-309 | it fails, changing nothing, iff no primary block can be evicted. Otherwise the first evictable block leaves the primary queue and is appended to that one beam and to the slot's list |
| BlockManagers.BlockManager.AllocateShared | cpp/include/tensorrt_llm/batch_manager/kvCacheManager.h:307-309 | it fails, changing nothing, iff no primary block can be evicted. Otherwise the first evictable block leaves the primary queue and one copy of it per beam is appended to the beams and to the slot's list |
| BlockManagers.BlockManager.AllocateBlock | cpp/include/tensorrt_llm/batch_manager/kvCacheManager.h:307-309 | too few free blocks is an error that changes nothing. Otherwise the shared case appends the first evictable primary block to every beam, and the unshared case appends distinct blocks taken out of the primary queue, one per beam. The slot's list gains exactly the appended blocks. It succeeds iff every beam was extended, and success counts the blocks as new allocations. A failure part-way leaves the blocks taken so far in place and the counters unchanged |
| BlockManagers.BlockManager.AddSequence | cpp/include/tensorrt_llm/batch_manager/kvCacheManager.h:300-301 | every beam keeps its old list as a prefix, and the slot's list gains exactly the blocks added, all taken from the primary queue. On success every beam grows by `numBlocks`: at positions other than `unsharedBlockIdx` all beams share one block, and at `unsharedBlockIdx` their blocks are distinct. The primary queue then shrinks by the shared blocks plus one block per beam at `unsharedBlockIdx` |
| BlockManagers.BlockManager.SchedulingReleaseBlocks | cpp/include/tensorrt_llm/batch_manager/kvCacheManager.h:316-317 | only scheduling counts and the scheduling free counter change, by `SchedRelease` of the slot's blocks |
| BlockManagers.BlockManager.ReleaseLastBlock | cpp/include/tensorrt_llm/batch_manager/kvCacheManager.h:319-320 | the slot's last block is dropped from the slot and from every beam. The new blocks and queues are exactly `ReleaseOne` of the old ones with `toFront` set: its count falls by one, and at zero it goes to the front of its tier's queue while the other queue and every other block are unchanged |
| BlockManagers.BlockManager.LinkBlock | cpp/include/tensorrt_llm/batch_manager/kvCacheManager.h:124-126 | the block records its chunk, its parent and whether it is full, and the parent gains it as a child unless the key is taken. The tree only grows |
| BlockManagers.BlockManager.StoreBlocks | cpp/include/tensorrt_llm/batch_manager/kvCacheManager.h:382-385 | after the already-cached prefix, the next chunk is a child of the last cached block, bound to its id when new. Each later chunk is a child of the previous stored block. The tree only grows and the bookkeeping is unchanged |
| BlockManagers.BlockManager.CountAllocation | cpp/include/tensorrt_llm/batch_manager/kvCacheManager.h:443 | each allocation adds one to the total and one to either the reused or the new counter |
| BlockManagers.BlockManager.LoadOrAllocateBlocks | cpp/include/tensorrt_llm/batch_manager/kvCacheManager.h:387-393 | see `ReuseDone` below. On success no block of the slot's list is on either free queue |
| BlockManagers.BlockManager.ReleaseHeld | cpp/include/tensorrt_llm/batch_manager/kvCacheManager.h:313-314 | the blocks, pool offsets, links and queues afterwards are exactly `ReleaseAll` of the old ones over the list: the blocks are released in list order, and each one that loses its last reference is appended at the back of its tier's queue. The queues and links stay consistent, and each count falls by its occurrences |
| BlockManagers.BlockManager.ReleaseBlocks | cpp/include/tensorrt_llm/batch_manager/kvCacheManager.h:313-314 | each block's count falls by its number of occurrences in the slot. The slot and every beam are emptied and the invariant holds. Without a request the tree is unchanged. With one, beam 0's blocks are first stored, giving the chain `StoredChain` states for `StoreBlocks`. The free queues afterwards are `ReleaseAll`, in the slot's list order, of the state after storing |
| BlockManagers.BlockManager.AddSequenceWithReuse | cpp/include/tensorrt_llm/batch_manager/kvCacheManager.h:297-298 | the reuse walk on beam 0 of the sequence's slot, with the `LoadOrAllocateBlocks` outcome. On success no block of the slot's list is on either free queue |
| GenerationRequests.GenerationRequest.constructor | cpp/include/tensorrt_llm/batch_manager/kvCacheManager.h:181-187 | the request holds the given slot, token count and beam width, with `beamWidth` empty block lists |
| GenerationRequests.GenerationRequest.AddNewTokens | cpp/include/tensorrt_llm/batch_manager/kvCacheManager.h:189-192 | the token count grows by `n` and nothing else changes |
| GenerationRequests.GenerationRequest.RemoveTokens | cpp/include/tensorrt_llm/batch_manager/kvCacheManager.h:194-199 | it succeeds iff `n <= numTokens` and the result is not negative. It then subtracts `n`, and otherwise changes nothing |
| GenerationRequests.GenerationRequest.AddCacheBlock | cpp/include/tensorrt_llm/batch_manager/kvCacheManager.h:221-224 | it succeeds iff the beam exists. It then appends to that beam's list only |
| GenerationRequests.GenerationRequest.ChangeCacheBlock | cpp/include/tensorrt_llm/batch_manager/kvCacheManager.h:226-229 | it succeeds iff the beam and the position exist. It then overwrites that one entry |
| GenerationRequests.GenerationRequest.ClearCacheBlocks | cpp/include/tensorrt_llm/batch_manager/kvCacheManager.h:231-237 | every beam's list is empty and the beam count is kept |
| GenerationRequests.GenerationRequest.RemoveLastBlock | cpp/include/tensorrt_llm/batch_manager/kvCacheManager.h:239-245 | every beam's list loses exactly its last entry |
| GenerationRequests.GenerationRequest.SetNumPrepopulatedTokens | cpp/include/tensorrt_llm/batch_manager/kvCacheManager.h:247-250 | the per-beam prepopulated counts are replaced and nothing else changes |
| KVCacheManagers.PageIsTwoBlocks | cpp/include/tensorrt_llm/batch_manager/kvCacheManager.h:537-541 | for a manager whose block size is the volume numKvHeads × tokensPerBlock × sizePerHead, a page is twice that manager's block size, for K and V |
| KVCacheManagers.PagesPerBlockOfTokens | cpp/include/tensorrt_llm/batch_manager/kvCacheManager.h:543-549 | the per-token size times tokensPerBlock equals numLayers pages |
| KVCacheManagers.KVCacheManager.constructor | cpp/include/tensorrt_llm/batch_manager/kvCacheManager.h:453-456 | a fresh manager has all slots empty. Its statistics are (primary + secondary, primary free, secondary used, tokensPerBlock), and its page size is twice its block size |
| KVCacheManagers.KVCacheManager.GetKvCacheStats | cpp/include/tensorrt_llm/batch_manager/kvCacheManager.h:480-489 | used plus free is the maximum, which is the pool size. Free is the primary queue length and the block length is the manager's |
| KVCacheManagers.KVCacheManager.StatsBounded | cpp/include/tensorrt_llm/batch_manager/kvCacheManager.h:470-478 | under the manager's invariant, free and used are each between 0 and the maximum |
| KVCacheManagers.KVCacheManager.GetNumPrepopulatedTokens | cpp/include/tensorrt_llm/batch_manager/kvCacheManager.h:555-559 | it succeeds iff the slot holds a sequence and either no count was recorded or the beam is in range. The result is 0 when nothing was recorded and the beam's stored count otherwise |
| KVCacheManagers.KVCacheManager.PrepopulatedRoundTrip | cpp/include/tensorrt_llm/batch_manager/kvCacheManager.h:555-559 | after counts are recorded, the query returns each beam's count |
| MoePlugin.FixedInputIndices | cpp/tensorrt_llm/plugins/mixtureOfExperts/mixtureOfExpertsPlugin.h:254-272 | input, routing and the two expert weights are at 0, 1, 2 and 3 |
| MoePlugin.IndexChainNonDecreasing | cpp/tensorrt_llm/plugins/mixtureOfExperts/mixtureOfExpertsPlugin.h:325-433 | each getter is at least its predecessor, and the dummy index is below `getNbInputs` |
| MoePlugin.GetExpertFP8Dequant1Index | cpp/tensorrt_llm/plugins/mixtureOfExperts/mixtureOfExpertsPlugin.h:360-363 | the index is at least both second-scale indices plus the fp8 flag, and is one of them plus that flag |
| MoePlugin.ScaleFamiliesStartAfterFinished | cpp/tensorrt_llm/plugins/mixtureOfExperts/mixtureOfExpertsPlugin.h:340-363 | either scale family starts right after the finished tensor. With both on they share the first index. With fp8 scales the dequant index lies past both families |
| MoePlugin.ConditionalLoraIndices | cpp/tensorrt_llm/plugins/mixtureOfExperts/mixtureOfExpertsPlugin.h:405-423 | the gated-LoRA indices advance iff LoRA is on with a gated activation. The host-context-length index advances iff padding removal and LoRA are both on |
| MoePlugin.GetNbInputs | cpp/tensorrt_llm/plugins/mixtureOfExperts/mixtureOfExpertsPlugin.h:430-433 | there are at least the four fixed inputs. With a side stream the dummy input is the last one |
| MoePlugin.GetNbOutputs | cpp/tensorrt_llm/plugins/mixtureOfExperts/mixtureOfExpertsPlugin.h:144-147 | two outputs iff `mSideStreamId > 0`, otherwise one |
| MoePlugin.GetOutputDummyTensorIndex | cpp/tensorrt_llm/plugins/mixtureOfExperts/mixtureOfExpertsPlugin.h:441-444 | the dummy output is the last output. It differs from the real output iff a side stream is used |
| MoePlugin.GetGemmShapeInnerDimIndex | cpp/tensorrt_llm/plugins/mixtureOfExperts/mixtureOfExpertsPlugin.h:449-453 | 1 iff int-quant scales are used, otherwise 2 |
| MoePlugin.GetGemmShapeOuterDimIndex | cpp/tensorrt_llm/plugins/mixtureOfExperts/mixtureOfExpertsPlugin.h:458-462 | 2 iff int-quant scales are used, otherwise 1 |
| MoePlugin.GemmShapeIndicesDistinct | cpp/tensorrt_llm/plugins/mixtureOfExperts/mixtureOfExpertsPlugin.h:449-462 | the inner and outer indices are distinct and are {1, 2} |
| MoePlugin.GetWeightPackedElements | cpp/tensorrt_llm/plugins/mixtureOfExperts/mixtureOfExpertsPlugin.h:467-470 | 2 iff int4 weights, otherwise 1 |
| MoePlugin.StageLengths | cpp/tensorrt_llm/plugins/mixtureOfExperts/mixtureOfExpertsPlugin.h:325-433 | each stage of the reference layout ends where the getter chain says. It is off by the two shared scale indices when both scale families are on |
| MoePlugin.LayoutLength | cpp/tensorrt_llm/plugins/mixtureOfExperts/mixtureOfExpertsPlugin.h:430-433 | `getNbInputs` is the number of present inputs |
| MoePlugin.BothScaleFamiliesUndercount | cpp/tensorrt_llm/plugins/mixtureOfExperts/mixtureOfExpertsPlugin.h:340-363 | with deepseek native-fp8 scales and int-quant scales both on, the chain counts two inputs fewer than are present |
| MoePlugin.LayoutOnlyPresent | cpp/tensorrt_llm/plugins/mixtureOfExperts/mixtureOfExpertsPlugin.h:274-323 | the layout lists only inputs whose flags are on |
| MoePlugin.LayoutIndex | cpp/tensorrt_llm/plugins/mixtureOfExperts/mixtureOfExpertsPlugin.h:325-428 | every present input's getter index is in range, and the layout holds that input at that index |
| MoePlugin.IndicesDistinct | cpp/tensorrt_llm/plugins/mixtureOfExperts/mixtureOfExpertsPlugin.h:325-428 | two different present inputs get different indices |
| MoePlugin.GemmIDMoeEquals | cpp/tensorrt_llm/plugins/mixtureOfExperts/mixtureOfExpertsPlugin.h:56-62 | the field-wise `operator==` holds iff the two ids are the same value |
| MoePlugin.StdHashInt | cpp/tensorrt_llm/plugins/mixtureOfExperts/mixtureOfExpertsPlugin.h:80 | `std::hash<int>` keeps the low word and sign-extends into the high word |
| MoePlugin.StdHashIntInjective | cpp/tensorrt_llm/plugins/mixtureOfExperts/mixtureOfExpertsPlugin.h:80-92 | two ints hash equally iff they are equal |
| MoePlugin.HashAgreesWithEquality | cpp/tensorrt_llm/plugins/mixtureOfExperts/mixtureOfExpertsPlugin.h:76-95 | equal ids have equal hashes |
| MoePlugin.HashIgnoresDeterminismMode | cpp/tensorrt_llm/plugins/mixtureOfExperts/mixtureOfExpertsPlugin.h:76-95 | flipping `determinism_mode` gives an unequal id with the same hash |
| MoePlugin.HashTruncatesDimensions | cpp/tensorrt_llm/plugins/mixtureOfExperts/mixtureOfExpertsPlugin.h:87-88 | `hidden` and `inter` are hashed as int, so their high 32 bits do not affect the hash |
| MoePlugin.HashSymmetricInParallelSizes | cpp/tensorrt_llm/plugins/mixtureOfExperts/mixtureOfExpertsPlugin.h:83-84 | swapping distinct `tp_size` and `ep_size` gives an unequal id with the same hash |
| MoePlugin.XorSwapAdjacent | cpp/tensorrt_llm/plugins/mixtureOfExperts/mixtureOfExpertsPlugin.h:80-93 | the order of two xor-fold steps does not matter |
| LlamaConfig.FloorDiv | tensorrt_llm/models/llama/config.py:270-272 | Python's `//` rounds toward minus infinity, for either sign of the divisor |
| LlamaConfig.TruncDiv | tensorrt_llm/models/llama/config.py:268 | `int()` of a quotient rounds toward zero |
| LlamaConfig.Validate | tensorrt_llm/models/llama/config.py:38-43 | it raises ValueError iff exactly one of the two fields is 0. Otherwise it returns the same config |
| LlamaConfig.ValidReplaceHasDenseSize | tensorrt_llm/models/llama/config.py:38-46 | a valid config that replaces layers has a dense size, and one with no dense size replaces none |
| LlamaConfig.DenseToDict | tensorrt_llm/models/llama/config.py:52-53 | `asdict` gives exactly the two field names with the field values |
| LlamaConfig.DenseFromDict | tensorrt_llm/models/llama/config.py:48-50 | `cls(**config)` raises iff there is an unknown key. Missing fields take their default 0 |
| LlamaConfig.DenseDictRoundTrip | tensorrt_llm/models/llama/config.py:48-53 | `from_dict(c.to_dict())` is `c` |
| LlamaConfig.DenseDictRoundTripBack | tensorrt_llm/models/llama/config.py:48-53 | a dict with exactly the two keys survives `from_dict`, then `to_dict` |
| LlamaConfig.DefaultDenseReplaceIsValid | tensorrt_llm/models/llama/config.py:93-96 | the default (0, 0) passes validation and replaces nothing |
| LlamaConfig.Pop | tensorrt_llm/models/llama/config.py:78-87 | `kwargs.pop(key, default)` returns the value or the default, and removes the key |
| LlamaConfig.LegacyMoe | tensorrt_llm/models/llama/config.py:75-87 | the expert count, top-k and shared-expert count come from their legacy keys, 0 when absent. The tp mode defaults to TENSOR_PARALLEL and the normalization mode to RENORMALIZE. Exactly the legacy keys are removed |
| LlamaConfig.NewLLaMAConfig | tensorrt_llm/models/llama/config.py:58-104 | construction succeeds iff the MoE config resolves and validates, the dense-replace config resolves and validates, and a replacement has MoE on. The result keeps its scalar arguments, its MoE part is the validated resolved config, its base is built from the kwargs left after the legacy pops, and its dense-replace part is the resolved one |
| LlamaConfig.DenseReplaceNeedsMoe | tensorrt_llm/models/llama/config.py:102 | requesting a dense replacement without MoE fails construction |
| LlamaConfig.AbsentDenseReplaceIsDefault | tensorrt_llm/models/llama/config.py:93-100 | without `dense_replace` the config gets the default, and construction succeeds whenever the MoE part validates |
| LlamaConfig.LegacyMoeKeysConsumed | tensorrt_llm/models/llama/config.py:75-87 | without `moe`, the legacy MoE keys are not passed on to the base config |
| LlamaConfig.ToDict | tensorrt_llm/models/llama/config.py:106-118 | the dict holds the base keys plus exactly the keys LLaMAConfig adds |
| LlamaConfig.ToDictCarriesSubDicts | tensorrt_llm/models/llama/config.py:106-118 | the `moe` and `dense_replace` entries are the sub-configs' dicts, the latter reading back to the same config. The scalar fields are carried |
| LlamaConfig.MetaVocabSize | tensorrt_llm/models/llama/config.py:257-262 | an absent or -1 vocab size becomes 32000. Any other value is kept |
| LlamaConfig.TruncReal | tensorrt_llm/models/llama/config.py:271 | `int()` of a number is its integer part, rounding toward zero for either sign |
| LlamaConfig.IntegralMultiplierIsExact | tensorrt_llm/models/llama/config.py:270-271 | an integer `ffn_dim_multiplier` scales `n_embd_` exactly |
| LlamaConfig.RoundedInterSize | tensorrt_llm/models/llama/config.py:267-272 | for any real `ffn_dim_multiplier`, the round-up fails, with ZeroDivisionError, iff `multiple_of` is 0 |
| LlamaConfig.FractionalMultiplierInterSize | tensorrt_llm/models/llama/config.py:267-272 | LLaMA-2-70B's params (dim 8192, `multiple_of` 4096, `ffn_dim_multiplier` 1.3) give 28672: int(21845 × 1.3) = 28398, rounded up |
| LlamaConfig.RoundedInterSizeIsLeastMultiple | tensorrt_llm/models/llama/config.py:267-272 | for a positive `multiple_of` it is the least multiple at or above `int(n_embd_ * ffn_dim_multiplier)`, so it is divisible and less than that value plus `multiple_of` |
| LlamaConfig.DefaultInterSizeIsScaledHidden | tensorrt_llm/models/llama/config.py:267-272 | for any params without `hidden_dim`, `multiple_of` or `ffn_dim_multiplier`, the size is `int(4 * dim * 2 / 3)` |
| LlamaConfig.ResolveDtype | tensorrt_llm/models/llama/config.py:274-280 | `auto` becomes bfloat16. bfloat16 falls back to float16 below compute capability 8, and any other dtype is kept |
| LlamaConfig.FromMetaCkpt | tensorrt_llm/models/llama/config.py:255-298 | it succeeds iff `dim`, `n_heads`, `n_layers` and `norm_eps` are present and the intermediate size computes, and a missing key raises KeyError naming it. The kv heads default to the heads, the vocab follows `MetaVocabSize`, `hidden_dim` is used when present, the rotary base is `rope_theta` or 10000, and the dtype follows `ResolveDtype` |
| LlamaConfig.MetaInterSizeRoundsUp | tensorrt_llm/models/llama/config.py:264-272 | without `hidden_dim`, the intermediate size is divisible by `multiple_of` and within `multiple_of` above `int(n_embd_ * ffn_dim_multiplier)` |

`ReuseDone`, the outcome of `LoadOrAllocateBlocks`, states several things:
- Up to `k` chunks reuse the blocks of the cached path, where `k` is the number reused; all of them are reused when onboarding is off.
- Every later chunk gets a freshly taken block.
- The slot's list and the beam's id list are extended by exactly those blocks.
- The tree only lost leaves.
- The matched-token count is the total length of the first `k` chunks.
- The counters grow by `k` reused, by `|chunks| - k` new, and by `|chunks|` in total.
- The fresh blocks, those after the `k` reused ones, are distinct and appear nowhere earlier in the slot's list. Each was in the primary free queue when the walk began and is not in it now (`FreshFrom`), and the primary queue only lost blocks.

## Left out

- replaceSharedBlock (kvCacheManager.h:311): declared with no body or doc comment, so there is no behaviour to model.
- getNeededBlocksOneStep and getNeededBlocksToCompletion: declared only, and they depend on LlmRequest, which is not part of this model.
- The KVCacheManager members that are declared only are not modelled:
  - startScheduling, addContextTokens, addToken, addSequence, removeSequence and schedulingRemoveSequence;
  - removeToken and rewindKVCache;
  - the block-pointer members.

  Their BlockManager counterparts are modelled.
- Physical storage is not modelled: getKOrVBlockPointer, computeBlockPointer, copyBlock, getPrimaryPool, CUDA streams, UVM and the data type. Block contents are opaque, so onboarding swaps pool offsets and moves no bytes.
- calculateMaxNumBlocks: it queries GPU memory.
- KVCacheManager.constructor: maxNumSequences and maxBlocksPerSeq are parameters. The header does not show how the source derives them from the beam width, attention window and sink tokens.
- BlockManagers.BlockManager.AddSequenceWithReuse: the caller passes the token chunks, so the chopping of the LlmRequest's tokens into blocks is not modelled. The prepopulated-token count is returned, not stored into the LlmRequest.
- BlockManagers.BlockManager.LoadOrAllocateBlocks: if the free blocks run out part-way, the source throws. The model returns a failure and only promises the invariant, with the blocks already taken set aside.
- BlockManagers.BlockManager.LoadOrAllocateBlocks: the exact free queues after the walk are not stated. The primary queue only loses blocks, including the fresh ones. A claimed matched block and an onboarding victim also leave it, and the victim moves to the back of the secondary queue; these steps are stated per call by ClaimBlock and OnboardBlock.
- BlockManagers.BlockManager.Valid: it states that back links name arena blocks, but it bounds neither the child ids in a block's children map nor those in the root map, and it does not state that a block's back link names the parent whose child map holds it under its own token key (kvCacheManager.h:156). Child ids are therefore unbounded in the model, and FindMatching checks that a child id is in range, a check the source does not need.
- BlockManagers.BlockManager.AllocateBlock, AddFreshToEveryBeam and AddSequence: when the primary queue runs out part-way, the blocks already taken stay with their beams. The header does not show whether the source rolls them back.
- The prefix tree's descendant test is bounded by the pool size as fuel, so the model has no acyclicity invariant.
- SizeType is 32 bits in the source. Counts, indices and the formulas are unbounded integers here, so overflow is not modelled, except for the secondary-pool flag bit, which is.
- std::hash<vector<int32_t>> assumes a 64-bit size_t.
- The model does not prove a round trip from storeBlocks back to loadOrAllocateBlocks, i.e. that blocks stored for one sequence are then reused by the next one with the same prefix. Only the pieces of it are proved: what StoreBlocks links, and what the walk matches.
- MoePlugin.LayoutIndex: requires that deepseek native-fp8 scales and int-quant scales are not both on. With both on, the getter chain gives the two families the same indices, as BothScaleFamiliesUndercount shows.
- MoePlugin.IndicesDistinct: same restriction as LayoutIndex, for the same reason.
- MoePlugin.LayoutLength: same restriction as LayoutIndex, for the same reason.
- MoePlugin: isGatedActivation and the QuantMode queries are booleans of the plugin record, because their definitions are not part of this model.
- The MoE plugin's TensorRT overrides (enqueue, configurePlugin, serialisation) and its profiler are not modelled.
- LlamaConfig: rotary_base, norm_eps, rope_theta and ffn_dim_multiplier are exact reals, and the rotary-scaling dict is an opaque value. No floating-point rounding is modelled, so `int(n_embd_ * ffn_dim_multiplier)` truncates the exact product.
- MoeConfig's validate, has_moe, from_dict and to_dict are given as parameters, because their module is not part of this model.
- PretrainedConfig's constructor and to_dict are given as parameters.
- LlamaConfig.ResolveDtype: the device's compute capability is a parameter in place of the torch.cuda query. The fallback warning is not modelled.
- from_hugging_face: it loads transformers configurations.
- Reading params.json: it is file I/O. Its parsed contents are the input.

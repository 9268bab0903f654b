# Verified model of the serving engine

A Dafny model of the engine's state machines and refinements, with proofs of what keeps tokens,
cache blocks, activations and tensors consistent. `dafny verify dfyconfig.toml` checks everything.

## What is modelled

- **Prefix cache** (`RadixLayout`, `RadixTree`, `PrefixCache`). The mutable radix tree with edge
  splitting, pruning and walks by cursor, beside the plain map from sequences to paths. The tree is
  described by a value (each node's path, edge, children and ids); heap methods are proved to
  update that value, and the pairs read from the tree always equal the map. The structural
  invariant is "no dead leaf": the tree is not re-compressed on removal.
- **Scheduler, allocator, engine loop** (`BlockAllocator`, `SchedulerSpec`, `SchedulerOwnership`,
  `SchedulerSteps`, `SchedulerDrain`, `Recycling`, `Scheduler`, `EngineRuns`, `StoryEnds`,
  `Preemption`, `Engine`). `SchedulerSpec` says what a step does, as functions on values; the `Scheduler` and `EngineLoop`
  objects are proved to compute them; the theorems about every step, run and event log are about the
  functions. The backend is an oracle: it fails, or offers each row a token, where sampling may fail
  on any row.
- **Paged key/value cache** (`PagedKv`, `KvPass`, `KvRuns`, `KvLengths`, `CandleKv`). Rows are written
  in chunks into shared physical blocks and read back by table. Over whole runs of engine and
  backend together, with blocks freed, reused and cleared, this is an append-only list per sequence
  and layer; that stored lengths and tables fit holds for every batch.
- **Rotation and quantisation** (`Hadamard`, `QuantizedKv`). The in-place construction of the
  rotation, its orthogonality, and the error of a score against a quantised key.
- **Graph** (`ModelMeta`, `GraphIr`, `Scan`, `GraphBuilder`, `GraphMeaning`, `GraphExecutor`). The scan
  of weight names, the builder as a small compiler whose program stands for the model written as one
  expression, and the executor that evicts activations after their last use.
- **Ring all-reduce** (`RingAllReduce`). Ranks on unbounded FIFO links in every interleaving, and
  one rank's program over its buffer. The terms are kept as they arise, so nothing is assumed of
  the operation.
- **Kernels, sampler, reader** (`PagedAttention`, `Rope`, `RopeAngles`, `Sampler`, `SamplingLaws`, `Gguf`,
  `Utf8`, `GgufLoader`, `GgufPlaces`).

`Types`, `Blocks`, `Grid` and `Sums` hold shared vocabulary: sequences, positions in blocks, flat
layouts and finite sums.

## Findings

These hold of the code as it is. Where a promise fails, the exact condition under which it is kept
is proved, in terms of what is known before the call.

- Inserting an id that is already stored under another path leaves the old tree entry behind:
  `InsertSequence` keeps tree and map in agreement if and only if the id is new or has that path.
- A head request larger than the pool blocks admission for good: `Drains` is an equivalence.
- A batch whose rows differ in length is reshaped wrongly, or not at all (`ReshapeRight` is an
  equivalence, `MixedBatchIsMisread` a concrete batch), and the lengths recorded then disagree with
  the rows written (`RecordedRight`, an equivalence).
- The gather-phase chunk indices subtract before adding; with overflow checks a rank stops exactly
  when two or more ranks follow it (`CheckedGatherTraps`), with wrapping arithmetic all indices are
  right (`IndicesAreResidues`).
- The scan of weight names depends on their order exactly when two names spell the number of the
  same part's layer differently (`ScanIgnoresOrder`).
- A sequence leaves without a flagged event exactly if it wants a block when the rows before it
  have taken all that were free (`ThrownOutWhen`, `StoriesEnd`). `ThrownOutUnflagged` is a run of one
  round in which this happens; it does not happen in runs whose requests fit the pool together
  (`AllStoriesFlagged`).
- The bounds check of the GGUF loader compares a sum that may wrap: without overflow checks a
  tensor whose offset lies far outside the file loads (`FarTensorLoads`); `LoadsIffInFile` says
  exactly which files load.
- A GGUF file that asks for alignment 0 makes loading panic (`LoadsAligned`).
- The RoPE kernel finds keys with the queries' number of heads: with fewer heads of keys its
  threads reach outside the key tensor (`KeysReached`, an equivalence).
- `docs/mlc-contracts.md` describes reuse of the shortest recycling sequence with a rollback; the
  code never rolls back and reports the sequence its walk has found. The model follows the code.

## Reading the assumptions

- Sequence ids are unique among all requests (`UniqueRequests`); block and batch sizes are positive.
- Square root, exponential, sine, cosine and powers are parameters with their laws as premises;
  arithmetic is over `real`. A repetition penalty is not zero where it divides, and positive where
  it meets a masked logit: anywhere else it yields an infinity or no number.
- A shared-layer count below the layer count (`FirstShared() > 0`) is assumed where sources are
  looked up.
- Machine words are 64 bits; `usize` wrap-around, the 32-bit reference count and the overflow of
  positions in the reader are written out.

## Model

| member | source | states |
|---|---|---|
| PrefixCaches.PrefixCache.InsertSequence | llm-scheduler/src/prefix_cache.rs:146-236 | The reported offset is the longest prefix shared with any sequence stored before, and the fork or reuse id attains exactly that length; a reuse id comes off the recycling list, a fork id was not on it, and the rest of the list keeps its order. Tree and map agree afterwards if and only if the id was new or had the same path. |
| PrefixCaches.PrefixCache.FindLongestMatch | llm-scheduler/src/prefix_cache.rs:157-196 | The walk stops at the maximum of the common-prefix lengths over all stored paths, and names a sequence attaining it whenever it is positive. |
| PrefixCaches.PrefixCache.MatchEdge | llm-scheduler/src/prefix_cache.rs:169-192 | An edge for the next token always agrees in at least one token, and some sequence below it shares every token matched so far: the missing-sequence results are unreachable. |
| PrefixCaches.PrefixCache.MatchSequence | llm-scheduler/src/prefix_cache.rs:353-393 | The matched length is the longest shared prefix; when positive, the ids returned are exactly those whose path starts with it, without repetition. |
| PrefixCaches.PrefixCache.WalkMatch | llm-scheduler/src/prefix_cache.rs:354-385 | The walk of a query ends where nothing stored shares more tokens, and what lies below its node is exactly what shares as many. |
| PrefixCaches.PrefixCache.NameMatch | llm-scheduler/src/prefix_cache.rs:202-235 | The sequence found is reused, and leaves the recycling list, if it is on it, and is forked otherwise. |
| PrefixCaches.PrefixCache.AddSequence | llm-scheduler/src/prefix_cache.rs:131-137 | A new id is stored at the empty path, a known one is left alone; tree and map still agree. |
| PrefixCaches.PrefixCache.ExtendSequence | llm-scheduler/src/prefix_cache.rs:239-255 | A stored path is replaced by its extension, in tree and map alike; unknown ids and empty extensions change nothing. |
| PrefixCaches.PrefixCache.ForkSequence | llm-scheduler/src/prefix_cache.rs:258-267 | A new id gets the parent's path cut at the offset (or whole); tree and map still agree. |
| PrefixCaches.PrefixCache.RollbackSequence | llm-scheduler/src/prefix_cache.rs:270-283 | The path loses its last tokens; when it loses all of them the id stays, at the empty path, and leaves the recycling list. |
| PrefixCaches.PrefixCache.RemoveSequence | llm-scheduler/src/prefix_cache.rs:286-293 | The id leaves tree, map and recycling list; everything else stays stored. |
| PrefixCaches.PrefixCache.RecycleSequence | llm-scheduler/src/prefix_cache.rs:296-309 | The list gains the id unless it is unknown or already listed, after the oldest entry has been evicted from list, map and tree when the list was full; with room for none the sequence is removed at once. The list stays duplicate-free, bounded and stored. |
| PrefixCaches.RecycledPlaces | llm-scheduler/src/prefix_cache.rs:296-309 | With room for some, a stored id is on the list afterwards, at its end if it was not on it before, unless it was itself the one evicted; only the oldest entry of a full list is evicted, from list and stored paths alike. |
| PrefixCaches.PrefixCache.EvictOldest | llm-scheduler/src/prefix_cache.rs:302-305 | Exactly the oldest recycled sequence leaves tree and map. |
| PrefixCaches.PrefixCache.TakeRecycled | llm-scheduler/src/prefix_cache.rs:152-155 | An id on the recycling list is taken off it, once; the others stay, in order. |
| PrefixCaches.PrefixCache.constructor | llm-scheduler/src/prefix_cache.rs:111-118 | An empty cache is valid. |
| Radix.RadixTree.InsertPath | llm-scheduler/src/prefix_cache.rs:43-86 | The walk terminates and adds exactly the pair (path, id); the tree keeps every structural property. |
| Radix.RadixTree.FollowEdge | llm-scheduler/src/prefix_cache.rs:54-76 | Following an edge, splitting it first when the path leaves it midway, consumes at least one token, keeps the set of stored pairs and lands on a node spelling the path so far. |
| Radix.RadixTree.SplitNode | llm-scheduler/src/prefix_cache.rs:88-98 | Splitting an edge gives the tree in which a new node takes over the lower half of the tokens, the children and the ids. |
| Radix.RadixTree.AddLeaf | llm-scheduler/src/prefix_cache.rs:77-84 | A new child carries the remaining tokens and adds exactly one pair. |
| Radix.RadixTree.PushId | llm-scheduler/src/prefix_cache.rs:46-51 | The id is added at the node spelling the path, once. |
| Radix.RadixTree.RemoveSeqId | llm-scheduler/src/prefix_cache.rs:311-315 | Removing and pruning take away exactly one pair and leave no branch without ids. |
| Radix.RadixTree.RemoveSeqIdFromNode | llm-scheduler/src/prefix_cache.rs:317-333 | The walk reaches the node spelling the path and takes the id out there; at most that node is left bare. |
| Radix.RadixTree.PrunePath | llm-scheduler/src/prefix_cache.rs:335-350 | Going back up the path, each child left without ids and children is unlinked; no stored pair is lost, and only the node it stopped at may be bare. |
| Radix.RadixTree.FindAnySequence | llm-scheduler/src/prefix_cache.rs:30-40 | Below any node but a bare root there is a sequence, and one is found. |
| Radix.RadixTree.CollectAllSequences | llm-scheduler/src/prefix_cache.rs:395-404 | Exactly the ids at and below the node are collected, each once. |
| Radix.RadixTree.MatchLen | llm-scheduler/src/prefix_cache.rs:55-62 | The token-by-token comparison yields the longest common prefix of edge and remaining path. |
| RadixLayout.Layout.SplitPairs | llm-scheduler/src/prefix_cache.rs:88-98 | Splitting an edge keeps the set of stored (path, id) pairs. |
| RadixLayout.Layout.SplitOk | llm-scheduler/src/prefix_cache.rs:88-98 | Splitting keeps shape, non-empty edges keyed by their first token, and the absence of dead leaves, and moves the cursor to the new inner node. |
| RadixLayout.Layout.NewLeafOk | llm-scheduler/src/prefix_cache.rs:77-84 | A leaf for tokens that no edge starts keeps the tree valid and adds one pair. |
| RadixLayout.Layout.DropLeafOk | llm-scheduler/src/prefix_cache.rs:344-347 | Dropping a node without ids and children keeps the pairs; only its parent may have become bare. |
| RadixLayout.Layout.DropIdOk | llm-scheduler/src/prefix_cache.rs:320-322 | Taking one id out removes exactly one pair and leaves at most one bare node. |
| RadixLayout.Layout.SamePathSameNode | llm-scheduler/src/prefix_cache.rs:317-333 | Two nodes spelling the same path are the same node. |
| RadixLayout.Layout.Descend | llm-scheduler/src/prefix_cache.rs:163-196 | A path that starts with another node's path goes through that node, along the child for its next token. |
| RadixLayout.Layout.SomeIdBelow | llm-scheduler/src/prefix_cache.rs:30-40 | Without dead leaves every node other than a bare root has an id at or below it. |
| RadixLayout.Layout.MatchEndsAtNode | llm-scheduler/src/prefix_cache.rs:164-196 | Where no edge continues the tokens, nothing stored shares more with them. |
| RadixLayout.Layout.MatchEndsInEdge | llm-scheduler/src/prefix_cache.rs:188-190 | Where tokens and edge part midway, nothing stored shares more than what has been matched. |
| BlockAllocators.BlockAllocator.constructor | llm-scheduler/src/block_allocator.rs:15-25 | All blocks are free with count 0. |
| BlockAllocators.BlockAllocator.Allocate | llm-scheduler/src/block_allocator.rs:28-35 | The oldest free block leaves the list with count 1; it fails exactly when none is free. |
| BlockAllocators.BlockAllocator.IncrementRef | llm-scheduler/src/block_allocator.rs:38-48 | Fails on ids out of range and on unallocated blocks; the allocator stays consistent if and only if the 32-bit count does not wrap. |
| BlockAllocators.BlockAllocator.Free | llm-scheduler/src/block_allocator.rs:53-69 | Fails on ids out of range and on double frees; a block returns to the end of the free list exactly when its count reaches 0. |
| BlockAllocators.Pool.AllocateOk | llm-scheduler/src/block_allocator.rs:28-35 | Allocation keeps a block free if and only if its count is 0, and the free list free of duplicates. |
| SchedulerOwnership.StepOwns | llm-scheduler/src/scheduler.rs:51-190 | After every step, Ok or Err, each block is once on the free list or once in one running table; an error can only come from packing, the backend or sampling, never from the allocator. |
| SchedulerOwnership.OwnedMeans | llm-scheduler/src/scheduler.rs:57-70 | What ownership says of one block: free with count 0, or in exactly one table with count 1; free blocks and tables add up to the capacity. |
| SchedulerOwnership.AbortOwns | llm-scheduler/src/scheduler.rs:193-200 | Aborting returns every block: the whole capacity is free and nothing runs. |
| SchedulerOwnership.InitOwns | llm-scheduler/src/block_allocator.rs:15-25 | The initial pool is owned by nobody. |
| SchedulerOwnership.FreeAllOwned | llm-scheduler/src/scheduler.rs:177-187 | A table's blocks can always be freed, and return to the end of the free list in table order. |
| SchedulerSteps.AdmitFifo | llm-scheduler/src/scheduler.rs:53-90 | Admission takes a prefix of the waiting queue, in order, each with enough blocks for its prompt, and stops only at a request that does not fit what is left. |
| SchedulerSteps.NeededCovers | llm-scheduler/src/scheduler.rs:55 | The blocks allocated for a prompt hold it, and one fewer would not. |
| SchedulerSteps.AdmitRunnable | llm-scheduler/src/scheduler.rs:53-90 | After admission every running row is freshly admitted or mid-decode with room, and no decode row lacks history: packing cannot fail. |
| SchedulerSteps.BatchRows | llm-scheduler/src/scheduler.rs:96-128 | The slice between consecutive cumulative lengths is the row's whole history for prefill and its last token for decode, next to the row's id and table. |
| SchedulerSteps.PostRowsEach | llm-scheduler/src/scheduler.rs:138-175 | With distinct ids each output row reaches its own sequence and emits one event, in order; the free blocks go, in the order of the rows, to those that want one; and a row is marked to leave exactly if it is done, or wants a block when the rows before it have taken all there were. |
| SchedulerDrain.RetireAllKeeps | llm-scheduler/src/scheduler.rs:177-187 | Cleanup removes exactly the rows marked to leave and keeps the order of the rest. |
| SchedulerDrain.Stayers | llm-scheduler/src/scheduler.rs:149-187 | A row leaves if and only if it is done, or wants a block when the rows before it have taken all that were free; and for that reason. |
| SchedulerDrain.ThrownOutWhen | llm-scheduler/src/scheduler.rs:149-172 | In a good step a sequence is thrown out if and only if its token neither is the end token nor uses up its allowance, its table has no room for another one, and at least as many rows before it are in that position as there are free blocks after admission. |
| SchedulerDrain.FlaggedWhen | llm-scheduler/src/scheduler.rs:149-156 | In a good step a row emits its token, flagged if and only if that is the end token or the last one the request allows, and leaves as finished exactly then. |
| SchedulerDrain.GoesOnAs | llm-scheduler/src/scheduler.rs:145-173 | Whatever runs after a good step was a row whose token did not end it: it has that token at the end of its history, is past prefill, and has one block more exactly if its table had no room for another token. |
| SchedulerDrain.StepInv | llm-scheduler/src/scheduler.rs:51-190 | A good step keeps blocks owned, ids unique, and every running sequence past prefill, unfinished and with table room for its history. |
| SchedulerDrain.StepShape | llm-scheduler/src/scheduler.rs:51-190 | A step succeeds if and only if nothing runs or every row gets a token; it then amounts to admission, rows and cleanup. |
| SchedulerDrain.StepWork | llm-scheduler/src/scheduler.rs:134-187 | Each good step uses up at least one unit of the tokens still allowed for every row that ran. |
| SchedulerDrain.Drains | llm-scheduler/src/scheduler.rs:53-90 | After as many good steps as the sum over requests of max(1, max_new_tokens), both queues are empty if and only if every waiting request fits the pool. |
| SchedulerDrain.StaysBlocked | llm-scheduler/src/scheduler.rs:83-89 | A request larger than the pool is never admitted: it stays waiting through every run of good steps. |
| Schedulers.Scheduler.Step | llm-scheduler/src/scheduler.rs:51-190 | The scheduler object computes the step of the specification, events and error results included, and keeps blocks, ids and prefix cache consistent in every outcome. The cache has stored the admitted prompts one by one; after a good step those that left are queued up on the recycling list, of which the last 64 remain, and the one that left last is at its end and still stored. |
| Schedulers.Scheduler.AddRequest | llm-scheduler/src/scheduler.rs:45-47 | A request with a new id joins the end of the waiting queue; nothing else changes. |
| Schedulers.Scheduler.StorePrompt | llm-scheduler/src/scheduler.rs:73 | An admitted prompt is stored, and the recycled sequence reused for it, if any, shares at least as much of it as anything stored; none is reused when nothing shares a token or a closest sequence is not on the list. |
| Schedulers.Scheduler.AdmitWaiting | llm-scheduler/src/scheduler.rs:53-90 | The admission loop computes the specified admission; each prompt is stored in the cache at its turn, and the recycled sequence it matches, if any, comes off the list. |
| Schedulers.Scheduler.AllocateBlocks | llm-scheduler/src/scheduler.rs:67-70 | The per-block allocation loop takes the first n free blocks and cannot fail when that many are free. |
| Schedulers.Scheduler.PackBatch | llm-scheduler/src/scheduler.rs:96-128 | The packing loop yields the specified batch, and fails exactly when a decode row has no history. |
| Schedulers.Scheduler.PostProcess | llm-scheduler/src/scheduler.rs:145-173 | One output row: history, counters, flag, growth of the table, or the out-of-blocks exit without a flag. |
| Schedulers.Scheduler.ProcessRows | llm-scheduler/src/scheduler.rs:138-175 | The row loop computes the specified outcome and stops at the first sampling failure with what has been done so far. |
| Schedulers.Scheduler.Cleanup | llm-scheduler/src/scheduler.rs:177-187 | Every leaving sequence is retired and its blocks freed without failure. The recycling list is then the old one followed by those that left, in order, without the oldest past 64, and exactly these oldest are no longer stored; the last that left is at the end of the list. |
| Schedulers.Scheduler.AbortAllRunning | llm-scheduler/src/scheduler.rs:193-200 | Everything running leaves, all its blocks are freed, and all that ran is queued up on the recycling list in order, the oldest past 64 going for good. |
| Schedulers.Scheduler.RetireOne | llm-scheduler/src/scheduler.rs:177-187 | One sequence leaves the running queue, its blocks return to the end of the free list, and the cache recycles its id. |
| Recycling.QueueOfRecycled | llm-scheduler/src/prefix_cache.rs:296-309 | Handing over sequences one by one makes the list a queue of the last 64: the old list followed by the new ids, without the oldest that do not fit, which are exactly the ones no longer stored. |
| Recycling.LastQueued | llm-scheduler/src/scheduler.rs:184 | The sequence handed over last is at the end of the list, and stored. |
| Recycling.ListAfter | llm-scheduler/src/scheduler.rs:53-90 | After admission everything stored before is stored under the same path, so are the admitted prompts, and the recycling list is the old one, in order, without the sequences reused. |
| Schedulers.RecycleKeepsCached | llm-scheduler/src/prefix_cache.rs:296-309 | Recycling evicts only sequences that have left: every running id stays stored under its prompt and off the recycling list. |
| Schedulers.InsertKeepsCached | llm-scheduler/src/scheduler.rs:73 | Storing a newly admitted prompt leaves the other running sequences stored as they were. |
| Schedulers.AbortFirst | llm-scheduler/src/scheduler.rs:194-199 | Aborting one sequence frees its blocks exactly as retiring it does: the ignored error never occurs. |
| EngineRuns.TickKeeps | llm-scheduler/src/engine.rs:63-105 | Every round of the loop, with any arrivals and any backend answer, keeps block ownership, readiness, arrival order and every request's story. |
| EngineRuns.StoriesEnd | llm-scheduler/src/engine.rs:84-100 | Once a request is no longer waiting or running, its events number between one and max(1, max_new_tokens), bear the generated tokens of its history in order (an abort's event bears token 0 and none of them), none but the last carries the flag, and the last one lacks it exactly for a sequence that wanted a block when the rows before it had taken all that were free. |
| StoryEnds.RunEndsRight | llm-scheduler/src/engine.rs:63-105 | Over any rounds, an event that bears the end token is flagged, and every story that is over has ended for its reason. |
| StoryEnds.StoriesEndFor | llm-scheduler/src/engine.rs:63-105 | In every run from a new engine, no event of a request but its last bears the end token; a request that has left without an abort ends, within max(1, max_new_tokens) events, in a flagged one if and only if that bears the end token or is the last it is allowed. |
| EngineRuns.AdmitTrace | llm-scheduler/src/scheduler.rs:53-90 | Requests leave the waiting queue in order of arrival, and admission changes nobody's events. |
| EngineRuns.RowsTrace | llm-scheduler/src/scheduler.rs:134-187 | A good step extends each running request's story by its own event, tokens in history order, and closes the stories of those who leave with the history they leave with. |
| EngineRuns.AbortTrace | llm-scheduler/src/engine.rs:92-99 | After an error every running request gets exactly one more event, flagged as its last. |
| EngineRuns.FailedStep | llm-scheduler/src/scheduler.rs:131-147 | A failed step has admitted its requests and left all of them running, so the abort reaches each; a row processed before the failure has one token more that is never published. |
| EngineRuns.Run | llm-scheduler/src/engine.rs:63-105 | The invariant holds after any number of rounds. |
| Preemption.NobodyStarves | llm-scheduler/src/scheduler.rs:158-172 | A step throws nobody out if and only if there is a free block for every row that wants one. |
| Preemption.NobodyThrownOut | llm-scheduler/src/scheduler.rs:158-172 | If all requests added so far, each with its prompt and all the tokens it may generate, fit the pool together, the step throws nobody out. |
| Preemption.AllStoriesFlagged | llm-scheduler/src/engine.rs:84-100 | In every run whose requests fit the pool together in that sense, every request that has left has ended with a flagged event. |
| Preemption.ThrownOutUnflagged | llm-scheduler/src/scheduler.rs:168-171 | From a new engine with one block of one token, a request with a prompt of one token is thrown out after its first token, whose event bears no flag. |
| Preemption.ServedWithin | llm-scheduler/src/scheduler.rs:65-82 | Distinct running sequences can need no more blocks together than the requests they serve. |
| Engines.EngineLoop.Round | llm-scheduler/src/engine.rs:63-105 | The loop body as an object computes the specified round and keeps scheduler and invariant valid. |
| Engines.EngineLoop.AddAll | llm-scheduler/src/engine.rs:76-81 | Arrivals join the waiting queue in order. |
| Engines.EngineLoop.AbortRound | llm-scheduler/src/engine.rs:92-99 | The final events name exactly the sequences then aborted. |
| ModelMetas.ModelMeta.KvSource | llm-core/src/types.rs:76-116 | A shared layer's source is an earlier, unshared layer: the nearest of the same sliding-window kind, with equal head dimension and window, whenever there is one of that kind, and otherwise layer 0. |
| ModelMetas.ModelMeta.GetKvSourceLayer | llm-core/src/types.rs:84-99 | The reverse search with early return finds the source layer. |
| ModelMetas.ModelMeta.SharedLayers | llm-core/src/types.rs:76-82 | The shared layers are the last ones, as many as the field says or all there are. |
| ModelMetas.ModelMeta.SlidingLayers | llm-core/src/types.rs:101-132 | A layer slides if and only if the pattern has an entry for it that says so; window, head dimension and rope base then come from their own fields or defaults. |
| PagedKv.UpdateBlockTensor | llm-core/src/backends/candle.rs:101-137 | The glued tensor has the new rows in place and every other row unchanged, in all four cases. |
| PagedKv.NewBlockZero | llm-core/src/backends/candle.rs:1466-1500 | A block written for the first time holds zeros wherever nothing has been written. |
| PagedKv.WriteAppends | llm-core/src/backends/candle.rs:1452-1534 | Writing new rows chunk by chunk after a sequence's history makes its table read as the longer history, whatever the blocks held. |
| PagedKv.WriteSpares | llm-core/src/backends/candle.rs:1452-1534 | Sequences with other blocks, and other layers, read as before. |
| PagedKv.GatherReads | llm-core/src/backends/candle.rs:1543-1577 | Laying out the active blocks and cutting to length returns exactly the history, stale rows and all else left out. |
| PagedKv.ActiveBlocksCover | llm-core/src/backends/candle.rs:1543-1546 | The number of blocks read is the least that covers the length. |
| KvPass.ReshapeRight | llm-core/src/backends/candle.rs:1120-1125 | The reshape into equal rows succeeds and gives each sequence its own tokens if and only if all rows of the batch are equally long. |
| KvPass.MixedBatchIsMisread | llm-core/src/backends/candle.rs:1124-1125 | A decode row packed with a prefill row is given a token of its neighbour. |
| KvPass.PassAppends | llm-core/src/backends/candle.rs:1440-1583 | From a consistent state a pass succeeds, and the cache then holds the appended history. Every row of every layer sees the newest rows of its source layer's history with the new rows: as many as its window allows, the j-th being row total - length + j. |
| KvPass.NewestIsSeen | llm-core/src/backends/candle.rs:1579-1583 | With a window of at least one, or none, the last row a row of the pass sees is its own newest one. |
| PagedKv.Window | llm-core/src/backends/candle.rs:1579-1583 | What a window leaves are the newest rows, the smaller of its length and all there are. |
| KvPass.PassRecords | llm-core/src/backends/candle.rs:1995-2001 | Each row's recorded length grows by its own tokens, its table is on record, and other sequences' lengths stay. |
| KvPass.RecordedRight | llm-core/src/backends/candle.rs:1995-2001 | After a pass that succeeds the recorded lengths agree with the rows written, for every row, if and only if all rows of the batch are equally long. |
| KvRuns.RowCapacity | llm-scheduler/src/scheduler.rs:96-172 | For any block size, what is cached plus what the row brings is the whole history and fits the row's table. |
| KvLengths.PassFits | llm-scheduler/src/scheduler.rs:96-128 | Whatever batch a step packs, of rows equally long or not: tables are disjoint and duplicate-free, the stored length is 0 for prefill and the history minus one for decode, and each row is the history from the stored length on, which fits the table. |
| KvLengths.RoundKeepsLengths | llm-core/src/backends/candle.rs:1995-2001 | Every round of engine and backend, whatever its batch and whether or not it succeeds, leaves each running sequence on record with all but its last token and nothing for requests not admitted. |
| KvLengths.RunFits | llm-core/src/backends/candle.rs:1995-2001 | In every run, with any batches, every row of every pass fits in that sense. |
| KvRuns.InitialServing | llm-core/src/backends/candle.rs:1985-2001 | Nothing running, nothing cached and nothing on record satisfies the invariant of the runs. |
| KvRuns.ClearSpares | llm-core/src/backends/candle.rs:257-271 | Clearing a finished sequence spares every sequence whose blocks it did not hold. |
| KvRuns.ClearAllForgets | llm-core/src/backends/candle.rs:257-271 | After a good step those that left are off the record, and exactly the blocks they had are gone from the cache, in every layer. |
| KvRuns.RoundKeeps | llm-core/src/backends/candle.rs:1440-1577 | Every round of engine and backend together keeps the cache equal to the append-only history of each running sequence, provided the rows of its batch are equally long if it succeeds; and then every row sees the newest rows of that history that its window allows. |
| KvRuns.RunRemembers | llm-core/src/backends/candle.rs:1440-1577 | In every state of every run whose served batches have rows equally long, the gathered keys and values of a running sequence are all rows it ever appended, with blocks reused, cleared and aborted in between; failed rounds may have any batch. |
| KvRuns.FailureKeeps | llm-scheduler/src/engine.rs:92-99 | A failed pass and the abort after it harm no later sequence, though the backend is not told to clear. |
| CandleKv.CandleBackend.ForwardPass | llm-core/src/backends/candle.rs:1440-1577 | The attention part of the forward pass, as loops over layers, rows and chunks on the shared maps, computes the specified pass. |
| CandleKv.CandleBackend.WriteRows | llm-core/src/backends/candle.rs:1452-1534 | The chunked write loop with its on-demand zero blocks performs the specified write; block indices stay within the table. |
| CandleKv.CandleBackend.ReadRows | llm-core/src/backends/candle.rs:1543-1577 | The read loop gathers the specified rows, and fails exactly on a block never written. |
| CandleKv.CandleBackend.ClearSequence | llm-core/src/backends/candle.rs:257-271 | The nested loops remove the sequence's blocks in every layer and its table, and no more. |
| CandleKv.CandleBackend.RecordLengths | llm-core/src/backends/candle.rs:1995-2001 | The recorded lengths grow row by row by the difference of cumulative lengths. |
| Hadamard.GenerateHadamardOrthogonal | llm-core/src/backends/candle.rs:31-62 | For every d of at least 1 the flat result is the scaled Sylvester matrix of the largest power of two up to d, padded with the identity. |
| Hadamard.BuildSylvester | llm-core/src/backends/candle.rs:38-50 | The doubling loop fills the whole square with the Sylvester matrix. |
| Hadamard.Double | llm-core/src/backends/candle.rs:41-48 | One doubling copies the filled square to the right, below and, negated, across, without disturbing it. |
| Hadamard.SylvesterOrthogonal | llm-core/src/backends/candle.rs:38-50 | Rows have inner product p2 with themselves and 0 with each other. |
| Hadamard.RotationOrthogonal | llm-core/src/backends/candle.rs:52-61 | The matrix times its transpose is the identity. |
| Hadamard.RotationEntries | llm-core/src/backends/candle.rs:31-62 | Within the largest power of two up to d each entry is, up to the scale, minus one to the number of binary digits its row and column share; past it the matrix is the identity. |
| Hadamard.SylvesterSigns | llm-core/src/backends/candle.rs:38-50 | The doubling construction gives every entry the sign of the digits its row and column share. |
| Hadamard.ScoresUnchanged | llm-core/src/backends/candle.rs:1401-1430 | Rotating query and key leaves their inner product unchanged, for all vectors. |
| QuantizedKv.CodesFit | llm-core/src/backends/candle.rs:64-87 | Every code lies in 1..255 (eight bits) or 1..15 (four bits), so the cast to a byte loses nothing. |
| QuantizedKv.EntryError | llm-core/src/backends/candle.rs:64-99 | Every entry comes back within half its row's scale. |
| QuantizedKv.EntryBound | llm-core/src/backends/candle.rs:64-99 | An eight-bit entry comes back within the row's largest magnitude over 254, a four-bit one within that magnitude over 14, each plus 0.000005. |
| QuantizedKv.ScoreError | llm-core/src/backends/candle.rs:1502-1560 | A score against a stored rotated key differs from the exact unrotated score by at most half the scale times the absolute sum of the rotated query. |
| QuantizedKv.AbsMax | llm-core/src/backends/candle.rs:66-67 | The row maximum is attained and bounds every magnitude. |
| RingAllReduce.AllReduceCorrect | llm-cluster/src/collective.rs:37-99 | In every interleaving a run has at most 4n(n-1) sends and receives, can be continued unless it has that many, and then every rank holds the same term in every chunk (the accumulation in ring order, whatever the operation) and its own elements past the chunks. |
| RingAllReduce.NeverStuck | llm-cluster/src/collective.rs:40-99 | Some rank can act unless all have sent and received everything. |
| RingAllReduce.ReadsExpected | llm-cluster/src/collective.rs:59-70 | The k-th message a rank reads is the chunk it expects at its k-th step, holding what the ranks before it have accumulated. |
| RingAllReduce.StepKeeps | llm-cluster/src/collective.rs:37-99 | Every send and receive of any rank keeps buffers and links as described, and is one unit of progress. |
| RingAllReduce.FullIsSum | llm-cluster/src/collective.rs:65-70 | With exact addition the common term is the sum over all ranks. |
| RingAllReduce.FoldOrder | llm-cluster/src/collective.rs:65-70 | In which order contributions are combined: each rank puts its own before what it receives, so chunk c lists the ranks backwards round the ring, ending with rank c. |
| RingAllReduce.LeftOut | llm-cluster/src/collective.rs:37 | Fewer entries than there are ranks lie past the chunks. |
| RingAllReduce.IndicesAreResidues | llm-cluster/src/collective.rs:41-42 | With wrapping arithmetic the four chunk-index expressions (lines 41-42 and 75-76) are r - k and r - k - 1 modulo n for the step k counted over both phases. |
| RingAllReduce.CheckedGatherTraps | llm-cluster/src/collective.rs:75-76 | With checked arithmetic a rank stops in the gather phase if and only if two or more ranks follow it. |
| RingAllReduce.CollectiveComm.AllReduce | llm-cluster/src/collective.rs:18-102 | One rank's program, with its two loops over the buffer in place, computes the fold of its inbox and sends at each step the slice due then; a world of one changes nothing. |
| RingAllReduce.CollectiveComm.Incoming | llm-cluster/src/collective.rs:63-70 | A message changes exactly its chunk, element by element. |
| RingAllReduce.ProgramsReduce | llm-cluster/src/collective.rs:37-99 | If each rank reads what its predecessor's program sends, every rank ends with the reduced buffer. |
| RingAllReduce.InboxesLinked | llm-cluster/src/collective.rs:37-99 | For every ring there are inboxes in which each rank reads what its predecessor's program sends. |
| GraphBuilders.BuildGraph | llm-core/src/graph/builder.rs:5-448 | For layers in strictly ascending order the operators form a single-assignment program in which every name read is fed or defined earlier, attention runs once per layer in order, `logits` is defined last, and it stands for the model written as one expression. |
| GraphBuilders.AddEmbedding | llm-core/src/graph/builder.rs:8-52 | The embedding part yields the embedded, spliced and scaled input and leaves all layer names free. |
| GraphBuilders.AddLayer | llm-core/src/graph/builder.rs:74-406 | A layer adds only names of its own, keeps all others, and its output stands for the whole layer applied to its input. |
| GraphBuilders.AddAttention | llm-core/src/graph/builder.rs:154-211 | A shared layer attends with its rotated query alone; any other with rotated query and key and the value. |
| GraphBuilders.AddMlp | llm-core/src/graph/builder.rs:244-333 | The feed-forward block, gated or not, with its optional norm. |
| GraphBuilders.AddFinish | llm-core/src/graph/builder.rs:335-403 | The output scale comes before the residual, or last when there are per-layer embeddings; deep-stack fusion comes at the end. |
| GraphBuilders.AddHead | llm-core/src/graph/builder.rs:408-445 | Final norm, head and optional cap; `logits` is the last output. |
| GraphMeanings.WeightsUsed | llm-core/src/graph/builder.rs:5-448 | No scanned weight goes unused: the logits depend on every weight of every layer, except keys and values of a layer that shares another's, a gate's bias without a gate, and per-layer weights that are not all there. |
| GraphMeanings.PlainLayer | llm-core/src/graph/builder.rs:74-406 | An unshared gated layer without optional tensors, written out: norm, projections, rope, attention, residual, norm, gated feed-forward, residual, with the canonical weights. |
| GraphMeanings.FullLayer | llm-core/src/graph/builder.rs:74-406 | An unshared layer with every optional tensor, written out: norms and biases everywhere, per-layer embeddings after the residual, the output scale after those, and the fusion with visual embeddings last. |
| GraphMeanings.RopeParameters | llm-core/src/graph/builder.rs:154-199 | A layer that skips rope gets none; any other turns by the base of its own kind, and a shared layer's queries by the same. |
| GraphBuilders.SourceAttendsEarlier | llm-core/src/graph/builder.rs:200-211 | With all layers present and not all shared, a shared layer's attention comes after that of the unshared layer whose keys and values it reads. |
| GraphIr.ComputeGraph.AddOp | llm-core/src/graph/ops.rs:134-136 | Appending an operator whose inputs are there and whose outputs are new keeps the program well formed and extends its meaning. |
| GraphIr.AudioFedPair | llm-core/src/graph/builder.rs:31-42 | The splice after an audio operator keeps an embedding alive that the operator may measure. |
| Scanning.ScanTensors | llm-core/src/graph/scan.rs:92-196 | The scanning loop computes the specified grouping. |
| Scanning.InOrderAscends | llm-core/src/graph/scan.rs:183-184 | The layers come out in strictly ascending order. |
| Scanning.InOrderHas | llm-core/src/graph/scan.rs:183-184 | Every layer mentioned comes out, with its tensors. |
| Scanning.ScanHolds | llm-core/src/graph/scan.rs:92-196 | The globals are the six named tensors that are there, a layer comes out if and only if a name mentions it, and a known part of it is the last name given for that part. |
| Scanning.ScanIgnoresOrder | llm-core/src/graph/scan.rs:92-196 | The result is the same for every order of the names if and only if no two names spell the number of the same layer's part differently. |
| Scanning.GgufNamesAgree | llm-core/src/graph/scan.rs:44-90 | GGUF layer names are renumbered canonically, so they never differ in spelling. |
| GraphExecutors.Execute | llm-core/src/backends/candle.rs:1198-1992 | Running with eviction returns what running without it returns, no operator ever misses a tensor, and what is held when the logits are taken are the logits and names that no operator declared once they were there. |
| GraphExecutors.ComputeLastUse | llm-core/src/backends/candle.rs:1198-1226 | The table gives each declared input the last operator that declares it. |
| GraphExecutors.FetchesSame | llm-core/src/backends/candle.rs:1237-1749 | What is left before an operator yields the same inputs as everything would, also for the audio operator's undeclared look at an embedding's width. |
| GraphExecutors.EvictSuffices | llm-core/src/backends/candle.rs:1979-1988 | Dropping the names last used here leaves all that is used later. |
| GraphExecutors.EvictLean | llm-core/src/backends/candle.rs:1979-1988 | After each operator nothing is held but logits, what is still to be used, and what never has been. |
| GraphExecutors.NeedsLittle | llm-core/src/backends/candle.rs:1675-1780 | Embeddings that are ready need no tensor; without sound only an embedding's width is looked up, or what would be spliced into. |
| GraphExecutors.KeepsOn | llm-core/src/backends/candle.rs:1702-1715 | Every defined name stays available without eviction, and the spliced embeddings keep the width of the text embeddings. |
| GraphExecutors.SymbolicRun | llm-core/src/backends/candle.rs:1229-1992 | Run on expressions, a well-formed program yields what its logits stand for. |
| GraphExecutors.RunsInOrder | llm-core/src/backends/candle.rs:1229-1992 | Each operator runs once, in the order of the program, on the state the one before it left. |
| PagedAttention.PagedAttentionKernel | llm-kernel/src/attention.rs:14-86 | A thread's output is softmax attention over the keys and values of its block table laid out flat; no other output changes, and threads out of range do nothing. |
| PagedAttention.OnePass | llm-kernel/src/attention.rs:22-51 | The single pass ends with a maximum no smaller than any score and the sum of exponentials relative to it. |
| PagedAttention.OneMore | llm-kernel/src/attention.rs:42-49 | Rescaling at a new maximum, or adding below it, keeps the sum right. |
| PagedAttention.ShiftedWeight | llm-kernel/src/attention.rs:72 | The second pass's weight does not depend on the maximum subtracted: it is the plain softmax weight. |
| PagedAttention.WeightsSumToOne | llm-kernel/src/attention.rs:53-81 | The weights are positive and add up to one. |
| PagedAttention.WeightRatio | llm-kernel/src/attention.rs:53-81 | One position weighs as much more than another as the exponential of how much higher it scores. |
| PagedAttention.ScoreScaled | llm-kernel/src/attention.rs:29-40 | A score is the inner product of query and key over the square root of the dimension. |
| PagedAttention.ReadsLaidOut | llm-kernel/src/attention.rs:29-40 | With the cache as blocks of rows of heads laid end to end, and the tables of all sequences end to end, row t of block b of a sequence is read from row t of the block its table names at b. |
| PagedAttention.WeighValues | llm-kernel/src/attention.rs:53-84 | The second pass adds up weight times value over the whole table. |
| PagedAttention.ComputeScore | llm-kernel/src/attention.rs:29-40 | The flat indices address the row of the physical block, within bounds. |
| Rotary.RunThreads | llm-kernel/src/rope.rs:11-44 | In any order of the threads every head of queries and keys is rotated in place. |
| Rotary.RopeKernel | llm-kernel/src/rope.rs:11-44 | A thread rotates its own head of both tensors and touches no other. |
| Rotary.FormsAgree | llm-core/src/backends/attention.rs:216-233 | The tensor form, step by step (reshape into pairs, narrow, combine with the broadcast angles, cat, reshape), fails exactly on a non-empty tensor of odd head dimension, and otherwise is the one tensor the kernel's threads can leave behind. |
| Rotary.InterleavedAt | llm-core/src/backends/attention.rs:225-232 | Entry by entry, the two narrowed halves come back side by side as the rotated pair of their own head. |
| Rotary.KeysReached | llm-kernel/src/rope.rs:28-41 | The kernel finds keys with the queries' number of heads: a thread reaches outside the key tensor if and only if there are fewer heads of keys, and every thread reaches the keys of its own token and head if and only if there are as many, or a single token. |
| Rotary.NormsKept | llm-kernel/src/rope.rs:33-41 | Rotation keeps the norm of every head. |
| Rotary.ScoresAreRelative | llm-kernel/src/rope.rs:20-41 | The score of a query at m with a key at n depends on m - n only. |
| RopeAngles.Frequencies | llm-kernel/src/rope.rs:20-24 | The first pair turns by the position, each next one slower by the base to the power two over the dimension, and one past the last by the position over the base. |
| RopeAngles.TurnsBy | llm-kernel/src/rope.rs:24-41 | A pair at some angle and distance is turned on by the position's angle and keeps its distance. |
| RopeAngles.AnglesAdd | llm-kernel/src/rope.rs:15-24 | Angles add up as positions do. |
| Rotary.BuildPositions | llm-core/src/backends/attention.rs:200-207 | Each token's position is its sequence's stored length plus its index in the row. |
| Grids.WriteEntry | llm-kernel/src/rope.rs:29-41 | Entries of different tokens, heads or dimensions never share a flat index. |
| Grids.EntryOfNested | llm-kernel/src/rope.rs:29-41 | The flat index finds the entries of a nested tensor of rows of heads laid end to end. |
| Sampling.SampleLogits | llm-core/src/sampler.rs:25-125 | Empty logits are an error; up to the greedy threshold the first of the largest penalised logits is returned; above it the token is drawn from the nucleus of the softmax of the prepared logits, for whatever order the sort has chosen among ties. |
| SamplingLaws.DrawnRatio | llm-core/src/sampler.rs:52-110 | Of two tokens that can be drawn, the weight of one is that of the other times the exponential of the difference of their penalised logits over the temperature; masked tokens have no weight. |
| SamplingLaws.PenaltyScales | llm-core/src/sampler.rs:128-147 | A repeated token's positive logit is the penalty times its new value, any other becomes the penalty times as large; other tokens and masked ones are unchanged. |
| SamplingLaws.PenaltyLowers | llm-core/src/sampler.rs:128-147 | A penalty above one never raises a repeated token's logit, lowers it unless it is zero, and keeps its sign. |
| SamplingLaws.NucleusScales | llm-core/src/sampler.rs:79-110 | Truncation divides all it keeps by the same number. |
| Sampling.NucleusIsShortestPrefix | llm-core/src/sampler.rs:79-110 | What is kept is the shortest prefix of the top k, in descending order, that reaches top-p; its weights add up to one, and any draw from 0 to 1 picks a token. |
| Sampling.SampledByInterval | llm-core/src/sampler.rs:112-124 | Unless everything is masked, a token is returned exactly for the draws in an interval as long as its weight (the first token also for 0), and tokens are distinct. |
| Sampling.DrawInterval | llm-core/src/sampler.rs:115-121 | A position is picked exactly for draws above the weights before it and not above its own. |
| Sampling.FallbackUnreachable | llm-core/src/sampler.rs:123-124 | The rounding fallback is reached if and only if the draw exceeds the total. |
| Sampling.SoftmaxTotal | llm-core/src/sampler.rs:55-71 | Softmax weights add up to one, or to zero exactly when every logit is masked. |
| Sampling.RenormalisedTotal | llm-core/src/sampler.rs:82-88 | Renormalised weights add up to one and keep their order. |
| Sampling.ApplyRepetitionPenalty | llm-core/src/sampler.rs:128-147 | Each token of the history is penalised once, however often it occurs; other logits stay. Penalties of either sign, wherever the result is a number or negative infinity. |
| Sampling.TopKInsideMask | llm-core/src/sampler.rs:160-173 | Tokens surviving the truncation to the top k are left alone by the mask over logits, however the two sorts break ties. |
| Sampling.ApplyTopK | llm-core/src/sampler.rs:160-173 | Exactly the logits below the k-th largest are masked. |
| Sampling.ApplyTopP | llm-core/src/sampler.rs:176-216 | Exactly the tokens outside the shortest prefix reaching top-p are masked; when everything is masked already nothing changes. |
| Sampling.FindCutoff | llm-core/src/sampler.rs:93-101 | The cumulative loop finds how many weights reach the threshold. |
| Sampling.Greedy | llm-core/src/sampler.rs:41-49 | The first of the largest logits. |
| Gguf.ReadsEncoded | llm-core/src/loader/gguf.rs:163-198 | Reading a value's encoding returns the value and consumes exactly its bytes, for arbitrarily nested arrays. |
| Gguf.ReadsString | llm-core/src/loader/gguf.rs:157-161 | Reading a string's encoding returns it, if it is UTF-8. |
| Gguf.ReadsPlain | llm-core/src/loader/gguf.rs:164-195 | Numbers of every width and sign, floats as bits and booleans survive the round trip. |
| Gguf.Reader.ReadValue | llm-core/src/loader/gguf.rs:163-198 | On arbitrary bytes reading terminates, with the position never decreasing or passing the end; errors and panics are as specified. |
| Gguf.Reader.ReadItems | llm-core/src/loader/gguf.rs:187-190 | The item loop reads the specified items and stops at the first failure. |
| Gguf.Reader.ReadBytes | llm-core/src/loader/gguf.rs:148-155 | Bytes within the file are returned and consumed; past the end is an error, and an overflowing length panics. |
| Gguf.ValueAt | llm-core/src/loader/gguf.rs:163-198 | A value read takes at least one byte, and no outcome leaves the file. |
| Utf8.ValidWhen | llm-core/src/loader/gguf.rs:157-161 | The strings accepted are exactly the UTF-8 encodings of sequences of Unicode scalar values. |
| GgufPlaces.LoadsAligned | llm-core/src/loader/gguf.rs:276-313 | Told by the file's own entries: alignment 0 panics; with any other the data section starts at its least multiple at or after the header, the file loads if and only if every tensor is found in it from there, and the last tensor of each name is stored that far in, the sum wrapping past a machine word. |
| GgufPlaces.AsksForOne | llm-core/src/loader/gguf.rs:277-282 | A file asks for exactly one alignment: the last entry of `general.alignment` decides, as U32, U8 or cast from I32, and 32 stands for no entry or another type. |
| GgufPlaces.OnlyGguf | llm-core/src/loader/gguf.rs:210-224 | A file that loads starts with the four magic characters and version 2 or 3. |
| GgufPlaces.OtherTypesRefused | llm-core/src/loader/gguf.rs:256-271 | A tensor of any type but F32, F16, Q4_0 and Q8_0 is an error, whatever else its entry says. |
| GgufPlaces.ValueEdges | llm-core/src/loader/gguf.rs:163-198 | Value types above 12 are an error, and every byte but 0 reads as true. |
| GgufPlaces.LongStrings | llm-core/src/loader/gguf.rs:148-161 | A string past the end is never read: an error, or a panic once its end passes a machine word. |
| GgufLoading.LoadsEncoded | llm-core/src/loader/gguf.rs:210-285 | Loading the encoding of a header returns its metadata and tensor infos, and the data section is counted from its end. |
| GgufLoading.LoadsIffInFile | llm-core/src/loader/gguf.rs:288-306 | With a positive alignment the file loads if and only if every tensor starts within it or, without overflow checks, at a sum with the section start that passes a machine word and wraps into it. |
| GgufLoading.LoadsWhen | llm-core/src/loader/gguf.rs:275-306 | A well-formed file loads if and only if its alignment is positive and the bounds check accepts every computed start; the last tensor of each name is then stored at its computed start. |
| GgufLoading.AcceptedMeans | llm-core/src/loader/gguf.rs:293-299 | The bounds check accepts exactly the tensors that start in the file and, without overflow checks, those whose sum wraps into it. |
| GgufLoading.FarTensorLoads | llm-core/src/loader/gguf.rs:291-306 | A file of 49 bytes with a tensor at offset 2^64 - 64 loads without overflow checks, the tensor at offset 0. |
| GgufLoading.PlacesWhen | llm-core/src/loader/gguf.rs:291-306 | Tensors are stored if and only if the bounds check accepts all of them. |
| GgufLoading.DataStartIsLeast | llm-core/src/loader/gguf.rs:284-286 | The data section starts at the least multiple of the alignment at or after the header, and computing it does not overflow. |
| GgufLoading.PlacesAll | llm-core/src/loader/gguf.rs:291-306 | The last tensor of each name is stored, at its computed start, and no other name is. |
| GgufLoading.LoadGguf | llm-core/src/loader/gguf.rs:201-313 | The header walk, loop by loop, computes the specified outcome, errors and panics included; `GgufPlaces.LoadsAligned` says what that outcome is for encoded headers. |

## Left out

- KvRuns.RoundKeeps: takes batches whose rows are equally long in rounds that succeed, because the backend reads any other batch wrongly (see `KvPass.ReshapeRight` and `KvPass.RecordedRight` for the exact condition).
- KvRuns.RunRemembers: the same premise for every batch that is served.
- Sampling.SampleLogits: infinities other than masked logits, NaN and rounding are not modelled.
- PagedAttention.PagedAttentionKernel: the kernel has no length or causal mask, so the result covers all rows of the table, written or not.
- Rotary.RopeKernel: queries and keys have the same number of heads (see `Rotary.KeysReached` for what the kernel's indexing does otherwise).
- Rotary.RunThreads: the same premise.
- RingAllReduce.CollectiveComm.AllReduce: the order of connecting and accepting, bounded socket buffers and byte serialisation; messages arrive whole.
- Gguf.Reader.ReadValue: running out of memory or stack; only the capacity a vector cannot have is a panic.
- GraphBuilders.BuildGraph: names are structured values, so that different names are different strings is taken for granted.
- HTTP server, command-line tools, chat rendering, foreign calls, hardware profiling: no invariant of their own.
- Tokio channels and broadcast lag: only the loop's order of add, step, publish and abort is kept.
- Tensor library internals, data types, device moves, GPU tiers, encoder forward passes: operators are parameters; a row stands for one token's keys or values as stored.
- Activations between operators, attention scores and masks of the Candle path: only keys and values enter the cache model.
- The `u32` overflow of cumulative lengths, and the capacity of collections other than the reader's.
- `free_capacity`, `get_sequence`, `RmsNorm`, `repeat_kv` and other one-expression members: nothing to add to their bodies.
- Prefix-cache reuse of key/value blocks: the scheduler discards the match result.
- The unused sliding-window argument of `insert_sequence`.
- Running sequences are values in a list that the scheduler reassigns, not separately updated objects.
- `analyzer.rs`, `moe.rs`, `tensor_parallel.rs`, `recovery.rs`, `quantization.rs`, `multimodal.rs`: small functions with short proofs.

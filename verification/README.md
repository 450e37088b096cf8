# Verified model of the streaming client, the incremental query rewrite and the PostgreSQL sink

A Dafny model of the parts of the repository whose correctness is a statement about whole runs, whole plans or
whole byte streams, with proofs of those statements. `dafny verify dfyconfig.toml` checks all files together.

**The transactional stream.** A server sends batches labelled with block ranges. The client validates them
(`validation.dfy`), turns them into data, watermark and reorg messages (`protocol.dfy`), and a state actor gives
each message a transaction id, keeps a buffer of watermarks in memory and in a store, and emits events
(`transactional.dfy` on values; `actor.dfy` and `store.dfy` as the objects that are updated in place). A consumer
applies each event to a table and then commits its id (`consumer.dfy`). `recovery.dfy` puts these together as a
step system: receive, execute, stop inside an execute, insert a chunk, finish an event, commit, crash, restart, in
any order. `exactly_once.dfy` and `pruning.dfy` prove invariants of every run of it, `reorg_outcome.dfy` says when a
reorg succeeds and what it leaves, and `durability.dfy` that what is committed stays. `range_order.dfy` is about every run
whose responses have one range, and `gap_free.dfy` about those whose server closes each range it opens.
`gap_examples.dfy` has runs that lose blocks; `runs.dfy` holds the beginning that the concrete runs share.

**Change data capture.** `batch_store.dfy` and `lmdb.dfy` are the two batch stores, proved against the same
contract; `cdc.dfy` forwards inserts and deletes and says, for every history handled without a crash, when the deletes
are complete. `cdc_recovery.dfy` shows which prunes are safe. `cdc_forwarding.dfy` puts the loop, the batch store and
its consumer on top of the step system, with crashes between any two of their actions, and says when the consumer
still ends with the right batches; `lost_delete.dfy` is a run in which it does not.

**Incremental queries.** `plan.dfy` has logical plans, their meaning as multisets of rows, and the rewrite of a plan
into the plan of one microbatch. `incremental.dfy` proves that the rewrite adds exactly what changed for plans with
inner joins over tables and constants. `surplus.dfy` and `exactness.dfy` cover every plan the rewrite accepts: they
define what a microbatch writes too much, and prove that it is exactly that. `block_num.dfy` is about the `_block_num`
column, and `propagation.dfy` about when adding it succeeds and which error it reports. A row carries the newest block among the source rows it stems from; constants stem from before block 0.

**Smaller algorithms.** `dfs.dfy` (dependency order), `memory_pool.dfy` (two-level memory accounting, alone and
under interleaving), `copy_format.dfy`, `numeric.dfy` and `copy_encoder.dfy` (PostgreSQL's COPY binary format and
NUMERIC, with an independent decoder written from the format description in PostgreSQL's manual).

Assumptions. Ids and block numbers stay below the 64-bit maximum; each locked `execute` or `commit` is one atomic
step, except that the process may also stop inside an `execute`, after its id is persisted or after the persisted
watermarks are truncated; a commit's store call succeeds or the process stops; a chunk insert is one transaction;
floating-point factors are exact rationals. Durations, retries, failures, lost transactions and prune successes are
parameters.

Where the code does not do what its comments or its design say, the model follows the code and the exact condition is
proved:

- A reorg that no buffered watermark ends right before loses the blocks between the watermark it recovers to and its
  start (`RangeOrder.ReorgGapExactly`): one into an open range (`GapExamples.GapExample`), one behind an open range
  (`GapExamples.GapOverOpenRange`), or one at a range that follows a hole between watermarks
  (`GapExamples.GapOverHole`). The repository's tests at `crates/client/src/tests/it_blockchain_reorg_test.rs:36-46` and
  `:133-148` have such ranges. Before the first watermark, a reorg loses everything before its start
  (`GapExamples.GapUnconfirmed`).
- Batches are pruned when a watermark is emitted, before it is committed, so after a crash a delete can miss a batch
  (`Cdc.ForwardingExact`, `CdcForwarding.ForwardingExactly`, `LostDelete.LostDeleteRun`).
- The delta rule is exact if and only if the plan has no surplus (`Exactness.ExactWithoutSurplus`). A semi-join row
  that matches both an old and a new row is surplus, although a comment calls semi joins projections of inner joins
  (`Exactness.LeftSemiExact`, `Exactness.SemiJoinRepeats`), and so is every row of a select without a table
  (`Exactness.OneRowRepeats`).
- The column count of a COPY tuple is truncated to 16 bits (`CopyFormat.CopyRoundTrip`); a decimal with a scale is
  written with the digits of its unscaled value, and a negative scale is refused by the reader
  (`Numerics.DecimalRoundTrip`); the 128-bit digit count is one too high
  from ten to the 36th on (`Numerics.CountDigitsI128`). Comments give the COPY signature 12 and the header 20 bytes;
  they have 11 and 19.

## Model

| member | source | states |
|---|---|---|
| Validation.ValidatePrevHash | crates/client/src/validation.rs:29-50 | accepted if and only if starting at block 0 coincides with having no parent hash (absent or zero) |
| Validation.FindDuplicate | crates/client/src/validation.rs:68-77 | names a network that occurs twice, and finds one if and only if there is one |
| Validation.FindUnexpected | crates/client/src/validation.rs:89-96 | names an incoming network that was not there before, and finds one if and only if there is one |
| Validation.FirstPrevHashError | crates/client/src/validation.rs:29-50 | of several ranges the first whose parent hash does not fit decides the error: genesis with a hash, or a named network and block without one |
| Validation.NetworkError | crates/client/src/validation.rs:67-100 | a repeated network is reported before a changed count, and that, with both counts, before a new network; the network named is that of the first such range |
| Validation.NetworksStayStable | crates/client/src/validation.rs:67-100 | accepted if and only if networks are distinct and, after the first response, the same set as before: count and membership together amount to set equality |
| Validation.CheckPosition | crates/client/src/validation.rs:143-184 | accepts exactly a repeat, a hash-linked continuation or an unlinked jump back |
| Validation.PositionError | crates/client/src/validation.rs:150-184 | which error a range that cannot follow gets: a gap names exactly the blocks between the two ranges, a mismatch both hashes, and the rest are linked jumps back |
| Validation.ValidateConsecutiveness | crates/client/src/validation.rs:133-188 | accepted if and only if every range follows the previous one of its network |
| Validation.FirstPositionError | crates/client/src/validation.rs:137-188 | the error is that of the first range that does not follow its predecessor |
| Protocol.ValidateExactly | crates/client/src/client.rs:171-187 | a response is valid if and only if all parent hashes fit, the networks are distinct and unchanged, and every range follows; violations are reported in that order |
| Protocol.Invalidations | crates/client/src/client.rs:189-206 | exactly the ranges of networks that jumped back, each from its new start |
| Protocol.InterpretExactly | crates/client/src/client.rs:171-227 | a response fails exactly when it is invalid; otherwise a reorg with both lists of ranges comes first exactly when a range jumped back, and a watermark last exactly when the response is complete |
| Protocol.ProtocolStream.Next | crates/client/src/client.rs:168-229 | the message loop equals the interpretation function; the remembered ranges change only on success |
| Protocol.InvalidationHitsPrevious | crates/client/src/client.rs:544-555 | every announced invalidation overlaps the previous range of its network and the incoming one that jumps back; it begins with the incoming range and ends with the one that ends later |
| Protocol.CoverageIsContiguous | crates/client/src/client.rs:168-229 | for every run of accepted responses, a consumer that drops replaced blocks and adds the incoming range holds one contiguous interval per network ending at the incoming end |
| Protocol.HashChain | crates/client/src/validation.rs:162-175 | between reorgs, consecutive accepted ranges of a network are linked by parent hash |
| Transactional.ExecuteAgrees | crates/client/src/transactional.rs:391-510 | every action keeps memory equal to the persisted buffer followed by the pending watermarks, with increasing ids below the counter |
| Transactional.CommitAgrees | crates/client/src/transactional.rs:513-550 | so does every commit, with any pruning it carries |
| Transactional.CommitExactly | crates/client/src/transactional.rs:513-550 | a commit moves exactly the pending watermarks up to its id to the store, and removes, there and in memory, exactly those at or below a prune point it carries |
| Transactional.OpenAgrees | crates/client/src/transactional.rs:328-341 | and reopening from the store |
| Transactional.CommitKeepsNewest | crates/client/src/transactional.rs:130-133 | a commit never prunes the newest watermark |
| Transactional.CommitOrderInsensitive | crates/client/src/transactional.rs:513-550 | any sequence of commit calls, repeated or out of order, leaves the machine and store of one call with the largest id |
| Transactional.RecoveryIndex | crates/client/src/transactional.rs:232-264 | the newest watermark that no reorg point affects; all newer ones are affected |
| ReorgOutcomes.AffectedExactly | crates/client/src/transactional.rs:232-264 | network by network: a watermark is affected if and only if it has a range that starts at or after the first invalid block of its network |
| ReorgOutcomes.SplitsExactly | crates/client/src/transactional.rs:466-480 | and split if and only if it has one that starts before that block and ends at or after it |
| ReorgOutcomes.ReorgExactly | crates/client/src/transactional.rs:449-504 | for any buffer of many networks, a reorg succeeds if and only if the buffer is empty or its newest unaffected watermark is not split; it is partial if and only if that one is split, and unrecoverable if and only if all are affected; an error changes nothing but the counters |
| ReorgOutcomes.RecoveryPoint | crates/client/src/transactional.rs:482-504 | a successful reorg undoes exactly the ids after its recovery watermark and keeps in buffer, store and queue exactly the watermarks up to it |
| ReorgOutcomes.ReorgSurvivedExactly | crates/client/src/transactional.rs:449-504 | in every run, with any number of networks, the stream survives the next reorg if and only if that condition holds of its buffer |
| ReorgOutcomes.OneRangeSurvivedExactly | crates/client/src/transactional.rs:449-504 | in every run of one-range responses, if and only if there is no watermark, or one ends before the replacing range and all newer ones start at or after its start |
| StateStore.InMemoryStateStore.Commit | crates/client/src/store/memory.rs:54-66 | pruned watermarks go, inserted ones are appended |
| StateStore.InMemoryStateStore.Truncate | crates/client/src/store/memory.rs:68-72 | exactly the watermarks below the bound remain |
| StateActor.FindRecoveryPoint | crates/client/src/transactional.rs:232-264 | the backwards loop returns the entry at the recovery index |
| StateActor.FindPruningPoint | crates/client/src/transactional.rs:278-316 | the forward loop with early exit returns the pruning point; required is exactly that every range the walk reaches has a cutoff, where the source panics |
| StateActor.CompressPending | crates/client/src/transactional.rs:109-136 | the loop computes the compressed commit |
| StateActor.StateActor.Execute | crates/client/src/transactional.rs:391-510 | object and store together make the transition of the state machine, errors included, which ReorgOutcomes.ReorgExactly and Pruning.PruningIsExact describe |
| StateActor.StateActor.Recover | crates/client/src/transactional.rs:449-504 | the reorg branch makes the transition that ReorgOutcomes.RecoveryPoint describes |
| StateActor.StateActor.Commit | crates/client/src/transactional.rs:513-550 | object and store together make the commit transition that Transactional.CommitExactly describes |
| Consumer.InsertCompose | crates/bin/ampsync/src/engine.rs:602-645 | overlapping or repeated chunks, inserted one after the other, equal one insert of their union |
| Consumer.AdaptiveBatchManager.RecordSuccess | crates/bin/ampsync/src/engine.rs:81-107 | the new chunk size follows from the average of at most ten samples and stays within its bounds |
| Consumer.AdjustedDirection | crates/bin/ampsync/src/engine.rs:158-185 | a slow average takes a tenth off and never enlarges the chunk, a fast one adds a fifth and any other a twentieth and neither shrinks it, all within the bounds |
| Consumer.AdaptiveBatchManager.RecordError | crates/bin/ampsync/src/engine.rs:110-127 | every third error in a row takes three tenths off, not below the minimum |
| Consumer.AdaptiveBatchManager.GetOptimalBatchSize | crates/bin/ampsync/src/engine.rs:130-139 | the largest size up to the current one that meets the memory target, or the minimum |
| Consumer.Engine.InsertChunk | crates/bin/ampsync/src/engine.rs:602-660 | any number of retries leaves the table of one insert |
| Consumer.Engine.InsertBatch | crates/bin/ampsync/src/engine.rs:484-566 | success leaves the table of one whole insert; the loop stops at the first chunk that fails, with the table of the chunks before it and perhaps that one; each success is recorded with its duration and rows, and the failure once |
| ExactlyOnce.RunKeeps | crates/client/src/transactional.rs:391-550 | the invariant of stream, actor, store, inbox and table holds in every run with crashes anywhere |
| ExactlyOnce.ExactlyOnceDelivery | crates/bin/ampsync/src/task.rs:294-405 | in every run, once the consumer has caught up its table holds exactly the rows of emitted batches that no emitted Undo covers |
| ExactlyOnce.RecoveryRestoresWatermark | crates/client/src/transactional.rs:693-740 | from any crash, reopening and applying the one rewind leaves exactly the surviving rows up to the last persisted watermark and nothing of later or half-inserted batches |
| ExactlyOnce.IdsNeverReused | crates/client/src/transactional.rs:398-402 | over all runs ids strictly increase, stay below the persisted counter, and buffers are ordered |
| ExactlyOnce.UndoRangesWellFormed | crates/client/src/transactional.rs:406-488 | every Undo ever emitted names a non-empty range of older ids, and no surviving watermark lies in it |
| ExactlyOnce.MemoryMatchesDisk | crates/client/src/transactional.rs:430-446 | in every reachable state memory is the persisted buffer followed by the pending watermarks |
| ExactlyOnce.ReorgHitsNewest | crates/client/src/transactional.rs:456-488 | a reorg affects or splits a watermark over exactly the previous ranges, so recovery never stops at the newest event |
| Durability.StepDurable | crates/client/src/transactional.rs:391-550 | from any state of the invariant, an id the store would resume after stays so, unless the step is a reorg that undoes it |
| Durability.CommitIsDurable | crates/client/src/transactional.rs:513-550 | in every run, committing an id the consumer has finished makes every watermark up to it that no undo covers durable, however many were pending |
| Durability.DurableStays | crates/client/src/transactional.rs:391-550 | over every continuation without such a reorg, crashes included, it stays durable and no new undo reaches it |
| Durability.CommittedIsNeverRewound | crates/client/src/transactional.rs:693-740 | so in every run a committed watermark lies before the point where any later restart resumes, and is undone by reorgs only |
| Pruning.CutoffLookupNeverMisses | crates/client/src/transactional.rs:300-305 | in every reachable state the walk over the buffer finds a cutoff for every range it reaches, so pruning for the next watermark never panics |
| Pruning.OutsideMeaning | crates/client/src/transactional.rs:285-305 | the saturating cutoff test means: every range ends more than the retention before the newest start |
| Pruning.PruneIsLongestSafePrefix | crates/client/src/transactional.rs:278-316 | a watermark is pruned if and only if it is not the newest and it and all older ones lie outside the window |
| Pruning.PruningIsExact | crates/client/src/transactional.rs:430-446 | in every reachable state, the next watermark carries, in its event and in the queue, a prune point that covers exactly the older watermarks outside the window it opens together with all before them, and never itself |
| RangeOrder.OrderedWatermarks | crates/client/src/transactional.rs:391-550 | in every run of one-range responses, each buffered watermark, in memory and on disk, repeats or comes after every older one |
| RangeOrder.ReorgGapExactly | crates/client/src/transactional.rs:449-504 | in every such run, the newest watermark that a successful reorg leaves ends right before the replacing range if and only if some buffered watermark does, and all surviving data ends with it; without watermarks, no block is lost if and only if the replacing range starts at or before all surviving data |
| GapFree.ContiguousWatermarks | crates/client/src/transactional.rs:391-550 | in every run of one-range responses whose server closes a range before it starts the next, buffered watermarks, in memory and on disk, cover consecutive ranges |
| GapFree.ReorgLeavesNoGap | crates/client/src/transactional.rs:449-504 | in every such run a successful reorg leaves a watermark ending one block before the replacing range and no surviving data at or past it; where there was no watermark, the replacing range starts at or before everything the table had data for |
| GapFree.GapFreeExactly | crates/client/src/transactional.rs:466-488 | where the watermarks are contiguous this is simpler, however many open ranges follow: no gap if and only if the reorg starts at most one block after the newest watermark, which otherwise stays the newest |
| RangeOrder.UnconfirmedReorg | crates/client/src/transactional.rs:453-460 | before the first watermark a reorg always succeeds, and no block is lost if and only if the replacing range starts at or before all surviving data |
| GapExamples.GapExample | crates/client/src/tests/it_blockchain_reorg_test.rs:133-148 | a run from the initial state in which a reorg to block 15 within the open range 11..20 leaves the newest watermark at block 10 and the stream going on at block 15, with no surviving data in between |
| GapExamples.GapOverOpenRange | crates/client/src/tests/it_blockchain_reorg_test.rs:36-46 | a run in which a reorg replaces the last of two open ranges from its start and blocks 11 to 20 of the other are lost |
| GapExamples.GapOverHole | crates/client/src/transactional.rs:466-488 | a run whose watermarks are 0..10 and 21..30 in which a reorg to block 21 recovers to block 10 and blocks 11 to 20 are lost |
| GapExamples.GapUnconfirmed | crates/client/src/transactional.rs:453-460 | a run without watermarks in which a reorg to block 11 loses the blocks before it |
| BatchStores.RangeKeys | crates/client/src/store/memory.rs:120-125 | the stored ids of an inclusive range, ascending and complete |
| BatchStores.RangeUnique | crates/client/src/store/mod.rs:139-152 | the contents determine the answer of a seek, so stores with equal contents agree |
| BatchStores.InMemoryBatchStore.Seek | crates/client/src/store/memory.rs:120-125 | the stored ids of the range, which must not be reversed |
| BatchStores.InMemoryBatchStore.Prune | crates/client/src/store/memory.rs:131-134 | exactly the batches above the cutoff remain |
| LmdbStore.KeyRoundTrip | crates/client/src/store/lmdb.rs:219-230 | decoding inverts encoding, and exactly the eight-byte keys decode |
| LmdbStore.KeyOrder | crates/client/src/store/lmdb.rs:215-221 | byte order of keys is numeric order of ids |
| LmdbStore.SeekIds | crates/client/src/store/lmdb.rs:251-287 | for any database contents, the scan with skip and early exit lists exactly the ids in range, and fails if and only if a malformed key lies in range |
| LmdbStore.CollectKeys | crates/client/src/store/lmdb.rs:312-331 | the scan collects exactly the keys at or below the bound |
| LmdbStore.LmdbBatchStore.Seek | crates/client/src/store/lmdb.rs:251-287 | refines the map store's range and never fails |
| LmdbStore.LmdbBatchStore.Prune | crates/client/src/store/lmdb.rs:305-344 | collecting and then deleting keys refines the map store's split |
| Cdc.DeleteBatchIterator.Next | crates/client/src/cdc.rs:84-97 | returns the next stored batch and leaves the rest; ends exactly when none is left |
| Cdc.CdcStream.Process | crates/client/src/cdc.rs:200-245 | data is stored and forwarded as an insert, an undo becomes a delete of exactly the stored ids of its range if there are any, and everything else stays internal |
| Cdc.StoreContents | crates/client/src/cdc.rs:205-242 | over every history the store holds exactly the inserted batches above the largest successful prune |
| Cdc.DeleteContents | crates/client/src/cdc.rs:213-226 | a drained delete yields, ascending, exactly the inserted batches of its range that were not pruned |
| Cdc.DeleteComplete | crates/client/src/cdc.rs:213-242 | it misses nothing if and only if no inserted batch of its range was pruned |
| Cdc.DownstreamContents | crates/client/src/cdc.rs:200-245 | the forwarding consumer holds a batch exactly if it was inserted and no undo reached it while it was stored |
| Cdc.ForwardingExact | crates/client/src/cdc.rs:200-245 | without crashes, the consumer ends with exactly the batches that no undo covers, if and only if every batch was still stored when the first undo that covers it was emitted |
| CdcRecovery.CommittedPruneIsFinal | crates/client/src/transactional.rs:513-550 | once a prune point is committed, no undo of any continuation, crashes included, reaches down to it |
| CdcForwarding.ForwardingExactly | crates/client/src/cdc.rs:200-245 | in every run with crashes between any two actions of loop, store and consumer, once the loop is idle the consumer holds exactly the batches that no undo of the whole history covers, if and only if every undo, when emitted, found each batch it covers and the consumer held still stored |
| CdcForwarding.ForwardingAcrossCrashes | crates/client/src/cdc.rs:213-226 | equivalently, if and only if no delete was finished while a batch of its range stayed with the consumer |
| CdcForwarding.CoveredIsExact | crates/client/src/cdc.rs:213-242 | that is so if no undo covers a batch that was inserted and pruned before |
| CdcForwarding.PromptForwardingExact | crates/client/src/cdc.rs:228-242 | and therefore in every run that commits its prunes before the next undo |
| LostDelete.LostDeleteRun | crates/client/src/cdc.rs:228-242 | a reachable run that crashes between prune and commit and leaves the consumer with an undone batch |
| Incrementality.RewriteSucceeds | crates/core/common/src/incrementalizer.rs:93-167 | the rewrite succeeds if and only if every operator is incremental, every table is a base table and no path crosses two joins (below a join: any join) |
| Incrementality.RewriteReports | crates/core/common/src/incrementalizer.rs:93-167 | otherwise the error is that of the first node at fault in the order of the walk |
| Incrementality.JoinFreeWindow | crates/core/common/src/incrementalizer.rs:195-220 | below joins the constrained scans select, in order, exactly the rows of the microbatch or of before it |
| Incrementality.JoinRule | crates/core/common/src/incrementalizer.rs:110-137 | the three terms of the update rule are, as a multiset, exactly the joined rows that appeared in the microbatch |
| Incrementality.MicrobatchWindow | crates/core/common/src/incrementalizer.rs:44-52 | the rewritten plan returns exactly the rows of the full plan whose newest source row lies in the microbatch |
| Incrementality.DeltaCorrect | crates/core/common/src/incrementalizer.rs:24-52 | rows before the microbatch plus the microbatch are the rows after it, as multisets, for every plan with inner joins |
| Incrementality.MicrobatchIgnoresFuture | crates/core/common/src/incrementalizer.rs:208-217 | a microbatch does not depend on rows of later blocks |
| Incrementality.Telescope | crates/core/common/src/incrementalizer.rs:154-161 | consecutive microbatches from block 0 write everything but the constants |
| Incrementality.MicrobatchesAddUp | crates/core/common/src/incrementalizer.rs:44-52 | however the blocks are cut, the microbatches together write the batch query's result, for plans without constants |
| Exactness.DeltaSurplus | crates/core/common/src/incrementalizer.rs:93-167 | for every plan the rewrite accepts, rows before plus microbatch are rows after plus the surplus, as multisets |
| Exactness.ExactWithoutSurplus | crates/core/common/src/incrementalizer.rs:93-167 | so the delta rule is exact if and only if the plan has no surplus |
| Exactness.MicrobatchesWithSurplus | crates/core/common/src/incrementalizer.rs:44-52 | however the blocks are cut, the microbatches write the batch query's result and the surplus of each |
| Surpluses.FourTermRule | crates/core/common/src/incrementalizer.rs:110-137 | for any four lists, what was joined before and the three terms are the whole join plus the rows of a semi join that match twice |
| Exactness.RowsAddUp | crates/core/common/src/incrementalizer.rs:263-265 | as sets of rows the delta rule is right for every plan the rewrite accepts |
| Exactness.SurplusWithin | crates/core/common/src/incrementalizer.rs:93-167 | the surplus only repeats rows that are there |
| Exactness.PlainHasNone | crates/core/common/src/incrementalizer.rs:110-137 | plans without semi joins and one-row leaves have none |
| Exactness.LeftSemiExact | crates/core/common/src/incrementalizer.rs:263-265 | as multisets it is right for a left semi join if and only if no left row matches both an old and a new right row |
| Exactness.RightSemiExact | crates/core/common/src/incrementalizer.rs:263-265 | the same for right semi joins, sides exchanged |
| Exactness.SemiJoinRepeats | crates/core/common/src/incrementalizer.rs:263-265 | a concrete database and microbatch in which a row is written a second time |
| Exactness.OneRowRepeats | crates/core/common/src/incrementalizer.rs:162 | a plan without tables is its own microbatch plan, and exact if and only if it returns nothing |
| BlockNumbers.BlockNumPropagator.Rewrite | crates/core/common/src/plan_visitors.rs:130-244 | the stateful post-order rewrite equals the propagation function that Propagation.PropagationExactly describes, error by error |
| Propagation.PropagationExactly | crates/core/common/src/plan_visitors.rs:130-244 | for every plan and starting state, propagation succeeds if and only if no node is at fault when the post-order walk reaches it, and otherwise reports the fault of the first |
| Propagation.GuardedSucceeds | crates/core/common/src/plan_visitors.rs:130-244 | it succeeds for every incremental plan whose joins are under projections and that does not select the column itself |
| BlockNumbers.BlockNumIsNewest | crates/core/common/src/plan_visitors.rs:90-109 | in a propagated plan every row's block number is the newest block among its source rows, through joins and unions |
| BlockNumbers.StackedJoinExactly | crates/core/common/src/plan_visitors.rs:90-109 | for joins over joins, however deep, a row gets the right number if and only if none of its block columns is greater than the first of each side |
| BlockNumbers.StackedJoinForgets | crates/core/common/src/plan_visitors.rs:90-109 | an example: a row from blocks 0, 5 and 0 is numbered 0 |
| BlockNumbers.MicrobatchIsBlockWindow | crates/core/common/src/plan_visitors.rs:246-251 | the microbatch of a propagated plan is exactly the rows of the full plan with start <= `_block_num` <= end |
| BlockNumbers.AcceptedIsGuarded | crates/core/common/src/incrementalizer.rs:104-109 | a plan both rewrites accept has every join under a projection, union inputs aside |
| BlockNumbers.PropagationKeepsRows | crates/core/common/src/plan_visitors.rs:190-193 | propagation changes no row except for its block number columns |
| BlockNumbers.PropagationIdempotent | crates/core/common/src/plan_visitors.rs:160-167 | propagating a propagated plan changes nothing |
| DepthFirst.Traversal.Visit | crates/core/common/src/utils.rs:26-50 | terminates; keeps the order topological without repeats, adds only reachable nodes, restores the path; an error names a reachable node that depends on itself |
| DepthFirst.DependencySort | crates/core/dataset-store/src/lib.rs:1159-1174 | lists exactly the needed nodes, each once and after its dependencies; fails if and only if a needed node depends on itself |
| DepthFirst.OrderHasNoCycle | crates/core/common/src/utils.rs:52-65 | a topological order excludes cycles, so a reachable cycle always ends in the error |
| MemoryPools.TieredMemoryPool.TryGrow | crates/core/common/src/memory_pool.rs:142-167 | succeeds if and only if both limits allow it; otherwise nothing changes |
| MemoryPools.MemoryConserved | crates/core/common/src/memory_pool.rs:129-167 | in every interleaving of calls on many children, the parent accounts for all children plus what calls under way hold |
| MemoryPools.ReportedIsChild | crates/core/common/src/memory_pool.rs:169-173 | at every moment the smaller account is the child's, and giving memory back never underflows the parent |
| MemoryPools.LimitsHold | crates/core/common/src/memory_pool.rs:142-167 | with fallible requests only, no interleaving exceeds a limit |
| MemoryPools.PeakWasReached | crates/core/common/src/memory_pool.rs:111-114 | a recorded peak never exceeds what the child had reserved at some moment |
| CopyFormat.CopyRoundTrip | crates/arrow-to-postgres/src/lib.rs:383-398 | decoding gives back exactly the rows if and only if there are none or the column count fits 16 bits |
| CopyFormat.HeaderBytes | crates/arrow-to-postgres/src/lib.rs:383-385 | the header written is the 19 bytes of the format description |
| CopyFormat.ListRoundTrip | crates/arrow-to-postgres/src/encoders.rs:905-926 | decoding a list payload gives back its element type and elements, nulls included |
| Numerics.CountIsExact | crates/arrow-to-postgres/src/encoders.rs:186-210 | the comparison chain counts the digits of every 64-bit value exactly |
| Numerics.CountDigitsI128 | crates/arrow-to-postgres/src/encoders.rs:214-258 | never below the real count; exact below ten to the 36th, one too many from there on |
| Numerics.NumericRoundTrip | crates/arrow-to-postgres/src/encoders.rs:285-312 | decoding a NUMERIC gives back the same integer, for every display scale the format allows, and refuses the others |
| Numerics.SignOnTheWire | crates/arrow-to-postgres/src/encoders.rs:302-307 | the sign word is 0x4000 for negative values and 0x0000 for others |
| Numerics.DecimalRoundTrip | crates/arrow-to-postgres/src/encoders.rs:427-480 | a decimal with a negative scale is refused; it is read back as itself if and only if it has no scale, or is zero with a positive one |
| CopyEncoder.EncodeField | crates/arrow-to-postgres/src/encoders.rs:847-872 | the length prefix is the length written; fails if and only if it does not fit |
| CopyEncoder.EncodeList | crates/arrow-to-postgres/src/encoders.rs:900-936 | the patched length is the number of bytes written after it; fails if and only if that does not fit |
| CopyEncoder.EncodedListReadsBack | crates/arrow-to-postgres/src/encoders.rs:900-936 | a list that was encoded is read back in place with the same elements |
| CopyEncoder.SplitDigits | crates/arrow-to-postgres/src/encoders.rs:285-293 | the array holds the digits in reverse and never overflows |
| CopyEncoder.EncodeNumeric | crates/arrow-to-postgres/src/encoders.rs:274-312 | the bytes written are the NUMERIC field, zero included |
| CopyEncoder.EncodeUInt64 | crates/arrow-to-postgres/src/encoders.rs:260-315 | five digits suffice and the value is read back |
| CopyEncoder.EncodeDecimal128 | crates/arrow-to-postgres/src/encoders.rs:421-482 | ten digits suffice; when the value is accepted and when it is read back |
| CopyEncoder.EncodeBatch | crates/arrow-to-postgres/src/lib.rs:343-408 | header, rows and trailer in column order; fails if and only if the column count differs or a field is too large; reads back if and only if the count fits 16 bits |

## Left out

- Flight transport, Arrow IPC, async scheduling and mutexes: every locked call is one step.
- The PostgreSQL state store and the LMDB state store: same contract as the in-memory one, so only easy members.
- Serialization of batches in the LMDB batch store: values are kept as they are; the database's own put, get and delete are plain functions on an ordered list.
- RangeOrder.ReorgGapExactly, GapFree.ContiguousWatermarks and GapFree.ReorgLeavesNoGap: single-network streams only, because the code checks only the networks of the invalidation list.
- Union inputs that are bare joins or bare constants, table scans that already have a projection, qualifiers of a user-selected `_block_num`, and type coercion in unions: schema checks of the query engine.
- `_block_num` of semi joins: the generated expression names a column the semi join does not return.
- Explain, analyze and describe nodes, and subqueries inside expressions: they are not relational operators.
- BlockNumbers.BlockNumIsNewest: joins directly over joins, which the other rewrite refuses, are the subject of BlockNumbers.StackedJoinExactly instead.
- MemoryPools.FailedTryChangesNothing: stated without interleaving, because another caller may see the memory that a failing try holds for a moment; MemoryPools.MemoryConserved accounts for it at every moment.
- Fair-spill pools: the pools here grant a request when it fits the limit.
- Timestamps, floats, binary and JSON encoders and all size hints except the digit counts: one-line conversions or capacity estimates.
- Configuration, authentication, command lines, SQL quoting and user interfaces.

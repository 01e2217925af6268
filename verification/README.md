# A verified model of Awex

Awex moves sharded model weights from training ranks to inference ranks. The ranks plan alone: every
process reads the same metadata, works out its own part of the transfer, and expects its peers to have
worked out the matching part. This project models that planning, the exchange protocols that carry it
out, and the layout conversions around it, and proves that the independently computed parts fit together.

The model has five strands, which meet in a few end-to-end results.

1. **Resharding.** Metadata is resolved into replicas with offsets (`ParamMeta`), pairs of shards are
   intersected into operations (`TransferPlan`), and the two ends keep sorted local lists
   (`PlanAgreement`). `Resharding`, `ModelResharding` and `ResolvedModel` prove that executing the plan
   writes each element of each inference shard exactly once with the right global element;
   `UnequalReplicas` says what a plan writes when the replicas do not describe one tensor.
2. **Exchange.** `Rendezvous` is a transition system of blocking batches in which a send and its
   receive fire together; `Barriers` adds a step that all ranks take at once. `RecursivePartition`,
   `ChunkedExchange` and `StagedExchange` show that every rank's program is the projection of one global
   event list, and get progress, termination and exact delivery over all interleavings. `TwoPhase` is the
   number theory behind the staged colouring. `Colocated` joins this strand to the first: run the ranks in any order,
   in one shot, in chunks or in stages with barriers, and the inference memory ends up holding the global tensor.
3. **Device lowering.** `StreamPartition`, `PeerLowering`, `Lowering`, `LoweringSchedule` and
   `BatchScheduler` follow a peer's tasks through one byte stream into channel parts, chunks, FIFO steps,
   fragments and batches. `LoweringTheorems` and `BatchFairness` prove conservation, FIFO order, agreement of the two
   ends, and fairness. `GinChannels` and `GinAgreement` are the per-rank channel budget and the exact
   condition under which two ranks' budgets agree.
4. **Layouts and device batches.** `TensorLayout`, `LayoutFragments`, `SingleFragment`, `Qwen3Layouts`,
   `DeviceBatch` and `DeviceStreams` cut rectangular slices of span layouts and build the per-peer task streams.
   `PlannedStreams` and `PlannedEnds` carry an operation from the metadata, through both ends' plans
   and batches, to the two lowered schedules, over any number of rounds.
5. **Conversions.** `QkvRegroup`, `QkvAlignment`, `GatedQkv`, `GdnPacking`, `PipelineLayers`,
   `TensorGroups`, `TensorRoundTrip` and `GroupLimits`.

`Basics`, `SequenceFacts`, `Sequences`, `PowersOfTwo` and `Chunks` hold shared definitions and lemmas.

Code that updates fields, lists or arrays in place is modelled by classes and methods with loops
(`StreamBatchTransport`, `NcclColocateTransport`, `TransferPlanBuilder`, `LoweringState`, `GinState`, `DeviceBatch`,
`ParameterShardMeta`); each is proved against a function, and the properties are proved about that function.
Tensor elements and rows are opaque. Run `dafny verify dfyconfig.toml`.

## Findings

Seven properties that the code or its comments promise do not hold for all inputs. Each has a concrete
failing input and the exact condition for success.

- **The two ends of a network pair can give the pair different channel counts.** Every rank runs the GIN
  channel budget on its own active peers and payloads, and nothing reconciles the results
  (`nccl_device_v2_ext.cu:447-460`, `device_v2_gin_config.h:91-149`). `GinAgreement.CountsAgree` is the exact
  condition on the two budgets; `GinAgreement.CountsDisagree` and `GinAgreement.EndsMayDisagree` give a pair with
  eight channels at one end and two at the other, whose lowered works for their one stream differ.
- **Device batches are cut alike only when the annotation fits.** An operation without span sizes that is
  served from a layout, or one with span sizes that is served from a dense tensor, is accepted at both ends
  (`nccl_device_v2.py:306-323`, `nccl_device_v2.py:410-422`). `DeviceBatch.PiecesAgreeIff` says exactly when the
  two cuts are equal; `DeviceBatch.UnannotatedLayoutDiffers` and `DeviceBatch.DenseAnnotatedDiffers` are failing inputs.
  An annotated layout of another shape than planned can be cut differently too: `DeviceBatch.OtherShapeDiffers`.
- **QKV conversion accepts head counts it cannot serve.** Only divisibility of the rank count by the key/value heads is
  looked at, and only when there are at least as many ranks (`mcore_converter.py:1197-1210`).
  `QkvAlignment.ConversionServesIffEven` is the exact condition for the even cut of the converted weight
  to serve every rank, `QkvAlignment.UnevenHeadsAreConverted` a failing input.
- **Empty tensors can be lost in the grouping round trip.** A group without elements is grouped and then refused
  (`tensor_util.py:332-337`). `TensorRoundTrip.RoundTrip` says exactly when; `TensorRoundTrip.EmptyTensorIsLost` is the smallest case.
- **The staged exchange's colouring fails on odd cycles.** The comment promises opposite colours on every
  edge (`nccl_comm.py:263-279`); `TwoPhase.OppositeUnlessOddWrap` gives the one edge per odd cycle where it fails, and
  `TwoPhase.OddCycleCollides` is the case of three ranks. Power-of-two worlds have no odd cycle.
- **Resolved metadata need not be consistent.** Offsets are summed within each replica, the global shape comes from the
  first replica alone, and nothing compares them (`meta_resolver.py:195-216`). `ModelResharding.ResolvedIffSameExtents` and
  `ResolvedModel.ResolvedIsReady` say exactly when the resolver's output describes one tensor. `UnequalReplicas.ResolveUnequal`
  resolves four shards whose second replica is a row short, and `UnequalReplicas.RowIsNotWritten` plans from the result:
  planning succeeds and an inference row is never written. `UnequalReplicas.WrittenIffFed` says, for any metadata, which
  elements are written.
- **Packed groups need not stay below the limit.** The docstring promises groups smaller than the limit and a separate group
  for a tensor that is too large (`tensor_util.py:190-191`), but a group is closed after the tensor that exceeds it
  (`tensor_util.py:239-246`). `GroupLimits.AllGroupsSmallerIff` and `GroupLimits.LargeTensorAloneIff` are the exact conditions,
  `GroupLimits.LargeTensorIsShared` fails both.

## Model

| member | source | states |
|---|---|---|
| `Rendezvous.Progress` | awex/transfer/nccl_stream_batch.py:379-399 | a state whose ranks all follow one event list is finished or has two ranks that can exchange, and is finished only when no event is left |
| `Rendezvous.FireKeepsPrograms` | awex/transfer/nccl_stream_batch.py:403-435 | any exchange that can happen is one event of the list, joins equal loads, and leaves the ranks on the list without it |
| `Rendezvous.RunInvariant` | awex/transfer/nccl_stream_batch.py:403-435 | every state reachable by any interleaving still follows a list of remaining events that accounts for the performed ones |
| `Rendezvous.DeadlockFree` | awex/transfer/nccl_stream_batch.py:379-399 | over all interleavings: no stuck state short of the end, runs bounded by the event list, per-pair order kept, a finished run performed each event exactly once |
| `RecursivePartition.StreamBatchTransport.ExecuteOpsConcurrent` | awex/transfer/nccl_stream_batch.py:359-436 | issues exactly one batch for each peer of the range with operations, in ascending peer order |
| `RecursivePartition.StreamBatchTransport.LocateHalf` | awex/transfer/nccl_stream_batch.py:295-311 | finds the rank's half of its partition and the ranks of the other half |
| `RecursivePartition.StreamBatchTransport.ExecutePhases` | awex/transfer/nccl_stream_batch.py:319-344 | the first half sends and then receives, the second half receives and then sends |
| `RecursivePartition.StreamBatchTransport.ExecuteRound` | awex/transfer/nccl_stream_batch.py:295-354 | one round issues the rank's two phases with the other half of its partition |
| `RecursivePartition.StreamBatchTransport.ExecuteRecursivePartition` | awex/transfer/nccl_stream_batch.py:261-357 | the loop over shrinking partitions issues exactly the rank's program |
| `RecursivePartition.MeetOnce` | awex/transfer/nccl_stream_batch.py:294-311 | two distinct ranks of a power-of-two world are in opposite halves in exactly one round |
| `RecursivePartition.WorldProjection` | awex/transfer/nccl_stream_batch.py:294-344 | every rank's program is its view of one global list of exchanges |
| `RecursivePartition.WorldBetween` | awex/transfer/nccl_stream_batch.py:294-344 | that list serves every ordered pair of distinct ranks, once, with the pair's whole operation list |
| `RecursivePartition.ProgramsOfWorld` | awex/transfer/nccl_stream_batch.py:294-344 | all ranks starting on their programs form a consistent start state |
| `RecursivePartition.ExchangeCompletes` | awex/transfer/nccl_stream_batch.py:261-357 | on a power-of-two world with matching tables no interleaving deadlocks and a finished run has exchanged every pair's operations, in one batch |
| `ChunkedExchange.ChunksConcat` | awex/transfer/nccl_stream_batch.py:685-706 | the chunks of a list put together are the slice of the list they span: nothing lost or repeated |
| `ChunkedExchange.ComputeLocalStep` | awex/transfer/nccl_stream_batch.py:594-606 | the step is what the budget allows for the largest aggregate per-index wire bytes over all peers, and at least one |
| `ChunkedExchange.ChunkWithinBudget` | awex/transfer/nccl_stream_batch.py:587-606 | a chunk of at most that step carries at most the budget, or the largest single index if that alone exceeds it |
| `ChunkedExchange.StepWithinBudget` | awex/transfer/nccl_stream_batch.py:587-642 | reducing the step over the ranks keeps every chunk of every rank within its budget |
| `ChunkedExchange.LongestList` | awex/transfer/nccl_stream_batch.py:644-649 | the longest send or receive list |
| `ChunkedExchange.AgreedChunksSuffice` | awex/transfer/nccl_stream_batch.py:644-677 | a chunk count no smaller than the rank's own covers every list of the rank |
| `ChunkedExchange.RunChunks` | awex/transfer/nccl_stream_batch.py:685-770 | the chunk loop issues, chunk by chunk, the rank's program on the sliced tables |
| `ChunkedExchange.RunChunked` | awex/transfer/nccl_stream_batch.py:594-770 | with the minimum step and maximum chunk count of all ranks, the rank issues its chunked program, covers all its lists, and stays within the budget unless the step is forced |
| `ChunkedExchange.ChunkedExchangeCompletes` | awex/transfer/nccl_stream_batch.py:612-770 | with a shared step and chunk count no interleaving deadlocks, chunk k only meets chunk k, and a finished run has exchanged whole lists in order |
| `Barriers.MeetKeepsPrograms` | awex/transfer/nccl_comm.py:184-210 | with barriers, an exchange joins equal loads and belongs to the phase that is open at both ranks |
| `Barriers.PassKeepsPrograms` | awex/transfer/nccl_comm.py:196-213 | the barrier can only be passed when its phase has nothing left to exchange |
| `Barriers.SegmentProgress` | awex/transfer/nccl_comm.py:184-213 | a consistent state is finished, at a barrier all ranks have reached, or has an exchange that can happen |
| `Barriers.BarrierInvariant` | awex/transfer/nccl_comm.py:184-213 | every reachable state is consistent with the phases not yet performed |
| `Barriers.BarrierDeadlockFree` | awex/transfer/nccl_comm.py:184-213 | over all interleavings of exchanges and barriers: no stuck state, bounded runs, and exact per-pair delivery at the end |
| `TwoPhase.CyclesFit` | awex/transfer/nccl_comm.py:271-274 | the greatest common divisor and the modular inverse that the colouring needs exist for every stage and world size |
| `TwoPhase.OppositeUnlessOddWrap` | awex/transfer/nccl_comm.py:263-279 | neighbours in a stage get opposite colours if and only if their edge does not close a cycle of odd length |
| `TwoPhase.OneRankPerPosition` | awex/transfer/nccl_comm.py:276-278 | each position of each cycle is held by exactly one rank |
| `TwoPhase.PowerOfTwoOpposite` | awex/transfer/nccl_comm.py:263-279 | on a power-of-two world all neighbours get opposite colours, in every stage |
| `TwoPhase.SendMeetsReceive` | awex/transfer/nccl_comm.py:180-210 | a send falls into the phase of its receive exactly when its edge does not close an odd cycle |
| `TwoPhase.PowerOfTwoMeets` | awex/transfer/nccl_comm.py:180-210 | on a power-of-two world every send falls into the phase of its receive |
| `TwoPhase.OddCycleCollides` | awex/transfer/nccl_comm.py:263-279 | three ranks in stage one: ranks 2 and 0 are neighbours with one colour |
| `StagedExchange.NcclColocateTransport.ExecuteBatch` | awex/transfer/nccl_comm.py:185-194 | issues one batch of sends or receives for a peer, or nothing |
| `StagedExchange.NcclColocateTransport.ExecutePhase` | awex/transfer/nccl_comm.py:184-198 | a rank of partition 0 sends in phase one and receives in phase two, a rank of partition 1 the other way round, and every phase ends in a barrier |
| `StagedExchange.NcclColocateTransport.ExecuteStage` | awex/transfer/nccl_comm.py:180-213 | one stage issues the rank's two phases with its colour |
| `StagedExchange.NcclColocateTransport.ExecuteStages` | awex/transfer/nccl_comm.py:169-214 | the loop over stages issues the rank's staged program, with nothing in stage zero |
| `StagedExchange.StagesProject` | awex/transfer/nccl_comm.py:90-98 | when all hops meet, every rank's staged program is its view of one global list of exchanges |
| `StagedExchange.StagesBetween` | awex/transfer/nccl_comm.py:90-98 | that list serves every ordered pair of distinct ranks in exactly one stage |
| `StagedExchange.StagedExchangeCompletes` | awex/transfer/nccl_comm.py:169-213 | on a power-of-two world the staged exchange would complete in every interleaving even without its barriers |
| `StagedExchange.BarrierExchangeCompletes` | awex/transfer/nccl_comm.py:169-213 | with its barriers it completes in every interleaving and has exchanged every pair's operations, in one batch |
| `OperationOrder.InterleaveByPeer` | awex/transfer/nccl_comm.py:491-521 | the interleaving loop yields the round robin over the peers' lists, peers ascending |
| `OperationOrder.RoundRobinKeepsOrder` | awex/transfer/nccl_comm.py:511-521 | reading one peer's operations off the round robin gives back that peer's list |
| `OperationOrder.RoundRobinLength` | awex/transfer/nccl_comm.py:508-521 | the round robin has as many operations as the lists together |
| `OperationOrder.InterleavingKeepsOrder` | awex/transfer/nccl_comm.py:491-521 | towards every peer the operations stay in their original order |
| `OperationOrder.TakePass` | awex/transfer/nccl_comm.py:395-420 | one pass takes the next operation of every unfinished list, local copies apart |
| `OperationOrder.BuildOps` | awex/transfer/nccl_comm.py:387-422 | the progress loop terminates with the round robin over the remote lists and the whole local list in order |
| `ParamMeta.CollectByRank` | awex/meta/meta_resolver.py:167-169 | collects each rank's shards in order of arrival |
| `ParamMeta.BuildColumns` | awex/meta/meta_resolver.py:178-190 | replica i takes the i-th shard of every rank, sorted by tensor-parallel rank |
| `ParamMeta.GroupIntoReplicas` | awex/meta/meta_resolver.py:144-190 | the resolver's grouping, for every kind of sharding |
| `ParamMeta.ReplicasPartitionShards` | awex/meta/meta_resolver.py:144-190 | every shard is in exactly one place of exactly one replica |
| `ParamMeta.ReplicasFailure` | awex/meta/meta_resolver.py:171-176 | grouping fails if and only if two ranks hold different numbers of shards of a sharded parameter |
| `ParamMeta.AssignOffsets` | awex/meta/meta_resolver.py:208-216 | each shard's stored offset is the sum of the extents before it in its replica, and zero in other dimensions |
| `ParamMeta.AssignAllOffsets` | awex/meta/meta_resolver.py:208-216 | offsets are assigned in every replica, none disturbing another |
| `ParamMeta.ResolveParameter` | awex/meta/meta_resolver.py:191-216 | a resolved parameter has the first replica's global shape and running offsets in all replicas, or grouping failed and no shard was touched |
| `ModelResharding.ResolvedIffSameExtents` | awex/meta/meta_resolver.py:197-216 | once offsets are assigned, a replica tiles the global shape if and only if its extents agree with the first replica's |
| `ResolvedModel.SideIsResolved` | awex/meta/meta_resolver.py:191-227 | the resolver's output is consistent if and only if all replicas describe one tensor |
| `ResolvedModel.SideHasNoDefect` | awex/transfer/transfer_plan.py:433-443 | resolver output never triggers the planner's offset errors |
| `ResolvedModel.ResolvedIsReady` | awex/meta/meta_resolver.py:144-216 | a parameter resolved on both sides with one global shape is ready for planning if and only if both sides are replicas of one tensor |
| `UnequalReplicas.WrittenIffFed` | awex/transfer/transfer_plan.py:345-404 | for any metadata, a plan writes an element if and only if the training replica dealt to one of its inference replicas holds its global coordinate |
| `UnequalReplicas.UnequalAreGrouped` | awex/meta/meta_resolver.py:167-190 | two ranks with two shards each, the last one a row short, are grouped into two replicas without complaint |
| `UnequalReplicas.UnequalIsNotOneTensor` | awex/meta/meta_resolver.py:197-216 | with their offsets assigned, those replicas do not describe one tensor |
| `UnequalReplicas.ResolveUnequal` | awex/meta/meta_resolver.py:144-216 | resolving those four shards succeeds with exactly that inconsistent metadata |
| `UnequalReplicas.RowIsNotWritten` | awex/transfer/transfer_plan.py:353-402 | planning from it to a consistent inference side succeeds, and no operation writes row 3 of the second inference rank |
| `TransferPlan.TransferPlanBuilder.EndOffset` | awex/transfer/transfer_plan.py:453-456 | the end of a shard, copied out of the shared buffer |
| `TransferPlan.TransferPlanBuilder.CreateShardOffsets` | awex/transfer/transfer_plan.py:406-467 | the placed shards of a replica, optionally of one rank, or the first defect in shard order |
| `TransferPlan.TransferPlanBuilder.FindOverlap` | awex/transfer/transfer_plan.py:488-508 | two boxes overlap in all dimensions, and then the overlap's corners |
| `TransferPlan.TransferPlanBuilder.FindOverlappingRegions` | awex/transfer/transfer_plan.py:478-520 | all overlaps of two lists, inference shards outermost |
| `TransferPlan.TransferPlanBuilder.RelativeOffset` | awex/transfer/transfer_plan.py:543-550 | offsets relative to a shard, copied out before the buffer is reused |
| `TransferPlan.TransferPlanBuilder.SlicesAt` | awex/transfer/transfer_plan.py:552-563 | slices of the overlap, copied out before the buffer is reused |
| `TransferPlan.TransferPlanBuilder.BuildRegionOperation` | awex/transfer/transfer_plan.py:522-591 | the operation of an overlap does not depend on what the shared buffer held |
| `TransferPlan.TransferPlanBuilder.BuildRegionsPlan` | awex/transfer/transfer_plan.py:398-402 | the operations of all overlaps despite the one shared buffer |
| `TransferPlan.DealtIsModulo` | awex/transfer/transfer_plan.py:353-357 | dealing replicas round and round is the remainder the code computes |
| `TransferPlan.TransferPlanBuilder.BuildPairPlan` | awex/transfer/transfer_plan.py:365-402 | the operations between an inference replica and its training replica, pruned or not |
| `TransferPlan.TransferPlanBuilder.BuildParameterPlan` | awex/transfer/transfer_plan.py:308-404 | the operations of a parameter over all engines and replicas, or the first error |
| `TransferPlan.TransferPlanBuilder.BuildNamesPlan` | awex/transfer/transfer_plan.py:287-306 | the operations of the listed parameters, in list order, or the first error |
| `TransferPlan.TransferPlanBuilder.BuildModelPlan` | awex/transfer/transfer_plan.py:217-306 | the operations of the common parameters in name order, nothing for empty metadata, an error for keys that do not match |
| `TransferPlan.TransferPlanBuilder.GroupOperationsByRank` | awex/transfer/transfer_plan.py:593-616 | operations by peer, each list sorted by name, send offset and receive offset |
| `TransferPlan.TransferPlanBuilder.KeepOperations` | awex/transfer/transfer_plan.py:673-683 | the operations that concern the rank, in order |
| `TransferPlan.TransferPlanBuilder.BuildLocalPlan` | awex/transfer/transfer_plan.py:618-689 | the local plan, from a pruned model plan when there are more than 10000 shards |
| `PlanAgreement.PruningIsInvisible` | awex/transfer/transfer_plan.py:646-689 | a rank's local plan from the pruned plan equals its local plan from the global one, errors included |
| `PlanAgreement.LocalPlanMeaning` | awex/transfer/transfer_plan.py:593-689 | what either end keeps for the other is the sorted list of the global plan's operations between the two |
| `PlanAgreement.BothEndsAgree` | awex/transfer/transfer_plan.py:618-689 | a training rank's list for an inference rank equals the inference rank's list for it, or both fail alike, pruned or not on either side |
| `PlanAgreement.PeerListsSorted` | awex/transfer/transfer_plan.py:603-611 | every peer list is sorted and loses no operation |
| `Resharding.OwnerByExtent` | awex/meta/meta_resolver.py:207-216 | in a resolved replica a shard holds exactly the coordinates of its own interval of the sharded dimension |
| `Resharding.ShardWrites` | awex/transfer/transfer_plan.py:478-591 | an inference shard's element is written once for each training shard that holds its global coordinate |
| `Resharding.PairWrites` | awex/transfer/transfer_plan.py:365-402 | a pair of resolved replicas writes every element of every inference shard once and nothing else |
| `Resharding.PairsWrite` | awex/transfer/transfer_plan.py:345-404 | over all replica pairs, an element is written once for each receiver that holds it |
| `Resharding.ParameterWrites` | awex/transfer/transfer_plan.py:308-404 | planning a parameter of one tensor succeeds and writes each element once for each inference shard holding it |
| `Resharding.PairsSound` | awex/transfer/transfer_plan.py:522-591 | every planned operation moves the overlap of a receiver and a training shard |
| `Resharding.ExecuteMeaning` | awex/transfer/transfer_plan.py:538-589 | an element ends with the value its writers agree on, and an unwritten one keeps its own |
| `Resharding.ParameterResharded` | awex/transfer/transfer_plan.py:308-591 | for any dimensions, shards, replicas and engines, executing a parameter's operations in any order writes each element of each shard exactly once, from the same global coordinate |
| `ModelResharding.ReceiversDistinct` | awex/transfer/transfer_plan.py:469-476 | shards on distinct ranks of an instance have distinct transfer ranks over all engines |
| `ModelResharding.NamesWrite` | awex/transfer/transfer_plan.py:287-306 | in a model's plan each parameter is written exactly as its own plan writes it |
| `ModelResharding.NamesSound` | awex/transfer/transfer_plan.py:287-306 | every operation of a model's plan belongs to one listed parameter and moves an overlap of its shards |
| `ModelResharding.ModelResharded` | awex/transfer/transfer_plan.py:217-591 | executing any permutation of what the plan addresses to a rank fills its shards of all parameters with the global tensors, each element once, and touches nothing else |
| `Colocated.TablesMatch` | awex/reader/nccl_reader.py:296-312 | send and receive tables built from the local plans through the device mapping match for every pair |
| `Colocated.OneShotExchanges` | awex/transfer/nccl_stream_batch.py:261-357 | a run of the one-shot exchange of a plan that cannot continue has exchanged every pair's operations |
| `Colocated.ChunkedExchanges` | awex/transfer/nccl_stream_batch.py:594-770 | so has a run of the chunked exchange |
| `Colocated.StagedExchanges` | awex/transfer/nccl_comm.py:90-213 | so has a run of the staged exchange with its barriers, on a power-of-two world |
| `Colocated.CollectivesSuffice` | awex/transfer/nccl_stream_batch.py:656-672 | the maximum of the ranks' chunk counts is enough for every rank of a plan |
| `Colocated.ColocatedUpdate` | awex/transfer/nccl_stream_batch.py:261-436 | the whole colocated update: however batches interleave, when nothing can continue every inference element is the global tensor's |
| `Colocated.ColocatedChunkedUpdate` | awex/transfer/nccl_stream_batch.py:594-770 | the same for the chunked update with the step and count from the two collectives, whatever the wire sizes and the forced step |
| `Colocated.ColocatedStagedUpdate` | awex/transfer/nccl_comm.py:90-213 | the same for the staged update with barriers: when neither a barrier nor an exchange is possible any more, every inference element is the global tensor's |
| `StreamPartition.PartsTile` | awex/transfer/nccl_device_v2/device_v2_lowering.h:106-117 | the parts of a stream start at zero, each begins where the last ended, and the last ends the stream |
| `StreamPartition.PartsAligned` | awex/transfer/nccl_device_v2/device_v2_lowering.h:106-117 | part bounds are multiples of 4096 except at the end of the stream |
| `StreamPartition.PartArithmeticBound` | awex/transfer/nccl_device_v2/device_v2_lowering.h:112-116 | the products in the bounds exceed the stream by less than 4097 bytes a part, which bounds when 64 bits are enough |
| `StreamPartition.ChannelsForBytes` | awex/transfer/nccl_device_v2/device_v2_lowering.h:119-137 | the widening loop terminates with the specified channel count |
| `StreamPartition.ChannelsForMeaning` | awex/transfer/nccl_device_v2/device_v2_lowering.h:119-137 | the count is at least one and at most the cap, and unless doubling it would pass the cap its parts are small enough |
| `StreamPartition.ReverseBits` | awex/transfer/nccl_device_v2/device_v2_lowering.h:153-159 | the shifting loop reverses the low bits |
| `StreamPartition.ReverseTwice` | awex/transfer/nccl_device_v2/device_v2_lowering.h:153-159 | reversing twice restores the low bits, so different low bits give different channels |
| `StreamPartition.LowBitsIsRemainder` | awex/transfer/nccl_device_v2/device_v2_lowering.h:153-159 | the low bits are the remainder by the channel total |
| `StreamPartition.BasesAgree` | awex/transfer/nccl_device_v2/device_v2_lowering.h:161-177 | both ends of a pair compute the same channel base, in range, on either transport |
| `StreamPartition.GinGroupsDisjoint` | awex/transfer/nccl_device_v2/device_v2_lowering.h:169-177 | network peers closer than the number of groups use disjoint channels, as the comment promises |
| `StreamPartition.PartsOnDistinctChannels` | awex/transfer/nccl_device_v2/device_v2_lowering.h:306-309 | the parts of a peer land on pairwise distinct channels, and every channel belongs to one part |
| `PeerLowering.FragmentsAreWindow` | awex/transfer/nccl_device_v2/device_v2_lowering.h:185-207 | a work's fragments, in order and end to end, address exactly the bytes of its range, whatever the tensor boundaries |
| `PeerLowering.FragmentCountBound` | awex/transfer/nccl_device_v2/device_v2_lowering.h:202-206 | a work has at most one fragment a span, so the 32-bit range error needs that many spans |
| `PeerLowering.WorksAreStream` | awex/transfer/nccl_device_v2/device_v2_lowering.h:318-336 | the works of a part tile it, take consecutive FIFO steps, are numbered in order, and the last alone is final |
| `PeerLowering.WorksLength` | awex/transfer/nccl_device_v2/device_v2_lowering.h:312-318 | there are exactly as many works as the chunk count announced in each of them |
| `Lowering.GeometryAgrees` | awex/transfer/nccl_device_v2/device_v2_lowering.h:287-304 | two ranks with equal settings and channel counts cut a stream of the same length alike |
| `Lowering.LoweringState.AppendFragments` | awex/transfer/nccl_device_v2/device_v2_lowering.h:185-207 | appends the fragments of a range, or reports an empty or too large one |
| `Lowering.LoweringState.LowerChunk` | awex/transfer/nccl_device_v2/device_v2_lowering.h:319-334 | one chunk becomes a sound work with the next steps; only too many spans are refused |
| `Lowering.LoweringState.LowerPart` | awex/transfer/nccl_device_v2/device_v2_lowering.h:310-336 | a part becomes its planned works with sound fragments and the recorded next step |
| `Lowering.LoweringState.BuildSpans` | awex/transfer/nccl_device_v2/device_v2_lowering.h:274-284 | the non-empty tasks end to end, or an overflow of 64 bits |
| `Lowering.LoweringState.PickChannel` | awex/transfer/nccl_device_v2/device_v2_lowering.h:309-309 | the channel of a part, which no other part of the peer gets |
| `Lowering.LoweringState.PlanPart` | awex/transfer/nccl_device_v2/device_v2_lowering.h:307-315 | the bounds and chunk size of a part give its specified works |
| `Lowering.LoweringState.LowerPartOnChannel` | awex/transfer/nccl_device_v2/device_v2_lowering.h:306-337 | lowering a part puts its works on its channel and leaves all other channels as they were |
| `Lowering.LoweringState.LowerPeer` | awex/transfer/nccl_device_v2/device_v2_lowering.h:273-338 | lowering a peer gives every channel its part; it fails only if the stream or a part is too large |
| `LoweringSchedule.CheckActive` | awex/transfer/nccl_device_v2/device_v2_lowering.h:248-255 | active peers are in the world, distinct, and not the rank itself |
| `LoweringSchedule.DenseMeaning` | awex/transfer/nccl_device_v2/device_v2_lowering.h:258-269 | tasks pass the checks if and only if peers are active, rows are sound, and each peer's ordinals are 0, 1, 2, ... |
| `LoweringSchedule.SplitTasks` | awex/transfer/nccl_device_v2/device_v2_lowering.h:257-269 | splits sound tasks by peer in order, or reports the first defect |
| `LoweringSchedule.LowerPeers` | awex/transfer/nccl_device_v2/device_v2_lowering.h:271-338 | every active peer is lowered on its own, the others keep their initial steps |
| `LoweringSchedule.ScheduleOne` | awex/transfer/nccl_device_v2/device_v2_lowering.h:343-376 | one channel's works and batches |
| `LoweringSchedule.ScheduleChannels` | awex/transfer/nccl_device_v2/device_v2_lowering.h:340-378 | works, batches and queue descriptors of all channels that have works, in channel order |
| `LoweringSchedule.LowerFixedTasks` | awex/transfer/nccl_device_v2/device_v2_lowering.h:212-384 | every defect is reported in the order of the checks, and sound input is lowered unless some peer is too large |
| `BatchScheduler.FillBatch` | awex/transfer/nccl_device_v2/device_v2_lowering.h:355-369 | the scan picks the pending peers from the cursor on, up to the limit, and counts them off |
| `BatchScheduler.FillOne` | awex/transfer/nccl_device_v2/device_v2_lowering.h:358-369 | one step of the scan takes the looked-at peer's next work, if it has one, and moves its cursor |
| `BatchScheduler.ScheduleChannel` | awex/transfer/nccl_device_v2/device_v2_lowering.h:351-376 | the loop terminates, never in its error branch, with the specified works and batches |
| `BatchScheduler.BatchIsNotEmpty` | awex/transfer/nccl_device_v2/device_v2_lowering.h:370-372 | while anything is pending a batch is not empty, so the no-progress error cannot happen |
| `BatchScheduler.BatchServesDistinctPeers` | awex/transfer/nccl_device_v2/device_v2_lowering.h:340-369 | a batch serves pending peers only, none twice, and no more than the limit |
| `BatchScheduler.EmittedByPeer` | awex/transfer/nccl_device_v2/device_v2_lowering.h:342-376 | reading one peer's works off the schedule gives back its queue: nothing lost, repeated or reordered |
| `BatchScheduler.SchedulerIsFair` | awex/transfer/nccl_device_v2/device_v2_lowering.h:351-376 | from any state a pending peer is served within ceil(peers / limit) batches |
| `BatchFairness.FairAfter` | awex/transfer/nccl_device_v2/device_v2_lowering.h:351-376 | after any number of batches a peer with works left is served within the next ceil(peers / limit) |
| `BatchFairness.LoweredIsFair` | awex/transfer/nccl_device_v2/device_v2_lowering.h:340-378 | in a finished schedule each batch serves at most eight peers, none twice, and no pending peer waits longer than ceil(active / 8) batches |
| `LoweringTheorems.ChannelKeepsQueues` | awex/transfer/nccl_device_v2/device_v2_lowering.h:342-378 | a channel's execution order contains each peer's queue exactly once and in order |
| `LoweringTheorems.ConnectionShape` | awex/transfer/nccl_device_v2/device_v2_lowering.h:306-337 | a connection carries exactly its part of the stream in consecutive steps |
| `LoweringTheorems.PeerBytesConserved` | awex/transfer/nccl_device_v2/device_v2_lowering.h:209-338 | reading a peer's channels in part order, work by work and fragment by fragment, gives every byte of its tasks exactly once, in order |
| `LoweringTheorems.NoStrayWorks` | awex/transfer/nccl_device_v2/device_v2_lowering.h:285-309 | channels without a part of a peer's stream carry none of its works and keep its steps |
| `LoweringTheorems.StepsAreFifo` | awex/transfer/nccl_device_v2/device_v2_lowering.h:329-336 | in execution order a connection's works take consecutive steps from the initial to the recorded next one, and the last alone is final |
| `LoweringTheorems.NextStepsAreSound` | awex/transfer/nccl_device_v2/device_v2_lowering.h:239-245 | the next steps of a schedule pass the checks on initial steps, so a next round is never refused for them |
| `LoweringTheorems.EndsAgree` | awex/transfer/nccl_device_v2/device_v2_lowering.h:212-384 | ranks that agree on their pair and on the stream length, but not on the tasks in it, execute the same works for each other on every channel |
| `LoweringTheorems.AgreementLasts` | awex/transfer/nccl_device_v2/device_v2_lowering.h:239-246 | feeding the next steps back in keeps the pair in agreement: the step from one round to the next |
| `GinChannels.RoundUp` | awex/transfer/nccl_device_v2/device_v2_gin_config.h:49-53 | the doubling loop terminates with the specified power |
| `GinChannels.PowerOfTwoUpFacts` | awex/transfer/nccl_device_v2/device_v2_gin_config.h:49-53 | it is the least power of two not below the value, or the channel maximum |
| `GinChannels.GinState.SelectPeers` | awex/transfer/nccl_device_v2/device_v2_gin_config.h:100-107 | the network peers among the active ones, in order, and their bytes |
| `GinChannels.GinState.AssignWindows` | awex/transfer/nccl_device_v2/device_v2_gin_config.h:114-124 | every network peer gets the channels its FIFO window demands, and the sum is counted |
| `GinChannels.GinState.DoubleWhileAffordable` | awex/transfer/nccl_device_v2/device_v2_gin_config.h:136-141 | the doubling loop of one peer terminates with the specified count and rest |
| `GinChannels.GinState.GrowPeers` | awex/transfer/nccl_device_v2/device_v2_gin_config.h:129-142 | the second pass spends the rest of the budget in the given order |
| `GinChannels.GinState.WidestOf` | awex/transfer/nccl_device_v2/device_v2_gin_config.h:145-148 | the widest count of a network peer, at least one |
| `GinChannels.GinState.ConfigureChannels` | awex/transfer/nccl_device_v2/device_v2_gin_config.h:91-149 | the channel table after both passes, with budget and widest count recorded |
| `GinChannels.SecondPassGrows` | awex/transfer/nccl_device_v2/device_v2_gin_config.h:129-142 | the second pass only doubles, spends what it adds, and leaves no served peer that its rest could double |
| `GinChannels.HeaviestFirst` | awex/transfer/nccl_device_v2/device_v2_gin_config.h:126-128 | the second pass visits peers in descending payload |
| `GinChannels.SharedChannelsSound` | awex/transfer/nccl_device_v2/device_v2_gin_config.h:113-143 | all counts are powers of two within the total, their sum within the budget or the first pass, nothing affordable is left undone, and other entries are untouched |
| `GinAgreement.GrowIsDoublings` | awex/transfer/nccl_device_v2/device_v2_gin_config.h:132-141 | one peer's loop reaches the greatest doubling within its room, its share and the total |
| `GinAgreement.SharedCount` | awex/transfer/nccl_device_v2/device_v2_gin_config.h:113-143 | with several network peers the i-th heaviest has the greatest doubling of its window channels within its limit |
| `GinAgreement.CountOf` | awex/transfer/nccl_device_v2/device_v2_gin_config.h:113-143 | so has every network peer, by name |
| `GinAgreement.SameDoublings` | awex/transfer/nccl_device_v2/device_v2_gin_config.h:136-141 | two limits give one count if and only if no doubling lies between them |
| `GinAgreement.SingleMeetsShared` | awex/transfer/nccl_device_v2/device_v2_gin_config.h:110-143 | an end with one network peer and an end with several agree if and only if the windows alone fill the total |
| `GinAgreement.CountsAgree` | awex/transfer/nccl_device_v2/device_v2_gin_config.h:91-149 | two ends of a pair get the same count if and only if both have one network peer, or one has and the windows fill the total, or neither has and no doubling lies between their limits |
| `GinAgreement.SpentBudgetsAgree` | awex/transfer/nccl_device_v2/device_v2_gin_config.h:129-143 | ends whose first pass spends the budget agree |
| `GinAgreement.BudgetedPairAgrees` | awex/transfer/nccl_device_v2/nccl_device_v2_ext.cu:447-460 | two network ranks that budget alone agree on their pair if and only if that condition holds |
| `GinAgreement.NetworkEndsAgree` | awex/transfer/nccl_device_v2/nccl_device_v2_ext.cu:582-598 | under that condition on their own active peers and payloads, two network ranks execute the same works for each other |
| `GinAgreement.CountsDisagree` | awex/transfer/nccl_device_v2/nccl_device_v2_ext.cu:447-460 | a pair with eight channels at one end and two at the other |
| `GinAgreement.SettingsAgreeCountsDoNot` | awex/transfer/nccl_device_v2/nccl_device_v2_ext.cu:582-596 | the two ranks have equal settings and do not agree as a pair |
| `GinAgreement.NearHasWorks` | awex/transfer/nccl_device_v2/device_v2_lowering.h:299-309 | the first rank puts works of the pair's stream on channel 8 |
| `GinAgreement.FarHasNone` | awex/transfer/nccl_device_v2/device_v2_lowering.h:299-309 | the second rank puts none there |
| `GinAgreement.EndsMayDisagree` | awex/transfer/nccl_device_v2/nccl_device_v2_ext.cu:582-598 | so any two lowerings of that stream execute different works for it |
| `TensorLayout.BoxRunsSelect` | awex/transfer/tensor_layout.py:57-84 | the flat runs of a box, one after the other, are its positions in row-major order, ascending and in range |
| `TensorLayout.PlainIsPicked` | awex/transfer/tensor_layout.py:158-163 | slicing a row-major tensor dimension by dimension picks exactly those positions |
| `LayoutFragments.NormalizeIndices` | awex/transfer/tensor_layout.py:46-55 | the first bad or empty dimension decides, otherwise the bounds of every dimension |
| `LayoutFragments.FindLastPartial` | awex/transfer/tensor_layout.py:57-60 | the last dimension that is not taken whole |
| `LayoutFragments.ComputeStrides` | awex/transfer/tensor_layout.py:64-69 | row-major strides |
| `LayoutFragments.FlatStart` | awex/transfer/tensor_layout.py:81-81 | the flat position of an index prefix |
| `LayoutFragments.EnumerateRuns` | awex/transfer/tensor_layout.py:71-84 | one run for each prefix, in row-major order |
| `LayoutFragments.SelectedFlatRuns` | awex/transfer/tensor_layout.py:34-84 | the flat runs of a slice, or its first defect |
| `LayoutFragments.SpanBounds` | awex/transfer/tensor_layout.py:104-108 | where each span starts and ends |
| `LayoutFragments.SkipSpans` | awex/transfer/tensor_layout.py:114-115 | the span cursor stops at the span that holds the position, always in range |
| `LayoutFragments.CutRun` | awex/transfer/tensor_layout.py:113-127 | a run is cut at the span boundaries and the cursor is left where the next run may start |
| `LayoutFragments.CutRuns` | awex/transfer/tensor_layout.py:110-128 | the two-pointer loop cuts all runs with one forward pass over the spans |
| `LayoutFragments.CutAllCovers` | awex/transfer/tensor_layout.py:110-128 | the fragments cover exactly the positions of the runs, in order; none is empty or crosses a span |
| `LayoutFragments.SliceLayoutFragments` | awex/transfer/tensor_layout.py:87-128 | bad spans or indices are reported, otherwise the fragments cover exactly the selected positions in order |
| `LayoutFragments.PiecesArePicked` | awex/transfer/tensor_layout.py:158-163 | the views of fragments that cover some positions hold the elements at those positions |
| `LayoutFragments.PiecesAreSlice` | awex/transfer/tensor_layout.py:158-163 | the views of a slice's fragments, joined, are the plain slice of the assembled tensor |
| `LayoutFragments.SliceLayout` | awex/transfer/tensor_layout.py:158-163 | slicing a layout equals slicing the tensor it stands for, for any rank and any span boundaries, in non-empty views |
| `SingleFragment.BoxIsOneFragment` | awex/transfer/tensor_layout.py:57-128 | a box is cut into one fragment if and only if it is one run inside one span |
| `SingleFragment.OneFragmentIff` | awex/transfer/tensor_layout.py:87-128 | a slice is cut into one fragment of n elements if and only if its shape, indices and spans select n consecutive elements of one span |
| `Qwen3Layouts.SplitBlocksAreLayoutBlocks` | awex/models/qwen3_moe.py:84-106 | the splitter's geometry checks accept only parameters that have a copy-only layout with the same groups |
| `Qwen3Layouts.AssembledIsSliced` | awex/models/qwen3.py:84-99 | the tensor a projection's spans stand for is the reshaped and sliced fused parameter |
| `Qwen3Layouts.LayoutsMatchSplit` | awex/models/qwen3.py:58-99 | whenever the materialising splitter accepts a parameter, the layouts exist and assemble to exactly its tensors |
| `Qwen3Layouts.SpanSizesAgree` | awex/models/qwen3.py:102-127 | the span sizes computed from a shard's shape alone are those of the sender's layout |
| `Qwen3Layouts.LayoutsCover` | awex/models/qwen3.py:95-99 | the layouts pass the layout constructor's checks |
| `DeviceBatch.BuildTransferChunks` | awex/transfer/transfer_plan.py:70-90 | the chunk list of a transfer |
| `DeviceBatch.ChunksTile` | awex/transfer/transfer_plan.py:70-90 | the chunks tile the transfer, whatever the chunk size |
| `DeviceBatch.PiecesAgree` | awex/transfer/nccl_device.py:399-417 | annotated operations are cut at the same places by sender and receiver |
| `DeviceBatch.TotalsAgree` | awex/transfer/nccl_device.py:586-599 | annotated or not, both ends count the same elements |
| `DeviceBatch.PiecesAgreeIff` | awex/transfer/nccl_device_v2.py:306-323 | whenever both ends accept an operation (an annotated layout having the planned shape), they cut it alike if and only if: dense and unannotated with equal sizes, spans at both ends, or a slice that is one run inside one span of the end that has spans |
| `DeviceBatch.UnannotatedLayoutDiffers` | awex/transfer/nccl_device_v2.py:306-315 | a layout of two spans without an annotation: accepted at both ends, cut differently |
| `DeviceBatch.DenseAnnotatedDiffers` | awex/transfer/nccl_device_v2.py:410-422 | a dense tensor of two elements annotated with two spans: both ends accept, and cut differently |
| `DeviceBatch.OtherShapeDiffers` | awex/transfer/nccl_device_v2.py:306-315 | a two by two layout where four rows of one were planned: the sizes of the spans match, both ends accept, and cut differently |
| `DeviceBatch.DeviceBatch.AppendTensorRange` | awex/transfer/nccl_device.py:305-359 | the chunks of a range become consecutive tasks, or some chunk of a contiguous tensor does not fall on element bounds |
| `DeviceBatch.DeviceBatch.AppendPieces` | awex/transfer/nccl_device.py:395-446 | a peer's ranges become one stream of tasks with running ordinals and offsets |
| `DeviceBatch.DeviceBatch.AppendPeer` | awex/transfer/nccl_device.py:394-448 | that stream, with the peer's task count and the region's largest size recorded |
| `DeviceBatch.DeviceBatch.AppendPeers` | awex/transfer/nccl_device.py:393-448 | all peers' streams, in peer order |
| `DeviceBatch.BuildBatch` | awex/transfer/nccl_device.py:371-462 | a batch holds exactly the streams of its peers with their counts and region sizes, or some range is misaligned |
| `DeviceStreams.SizesAgree` | awex/transfer/nccl_device_v2.py:304-350 | over a whole annotated operation list, both ends cut the stream at the same places |
| `DeviceStreams.StreamBytesAgree` | awex/transfer/nccl_device_v2.py:304-350 | annotated or not, both ends count the same bytes for the stream |
| `DeviceStreams.PeerStreamIsDense` | awex/transfer/nccl_device.py:395-446 | a peer's stream is dense in ordinals and contiguous from zero |
| `DeviceStreams.BatchByPeer` | awex/transfer/nccl_device.py:393-448 | picking one peer's tasks from a batch gives exactly that peer's stream |
| `DeviceStreams.BatchStreamsAgree` | awex/transfer/nccl_device.py:393-448 | from the same annotated operations, the two batches hold the same stream of ordinals, offsets and lengths for each other |
| `DeviceStreams.PlaceRegions` | awex/transfer/nccl_device.py:764-769 | the regions lie end to end |
| `DeviceStreams.RegionsAreDisjoint` | awex/transfer/nccl_device.py:750-773 | after the maximum over ranks, tasks stay in the window, different senders' tasks never overlap, and both ends of a task address the same bytes |
| `DeviceStreams.BatchPassesChecks` | awex/transfer/nccl_device_v2.py:244-277 | a whole batch passes the lowering's task checks if and only if all rows are sound, which only an empty contiguous range violates |
| `DeviceStreams.DeviceEndsAgree` | awex/transfer/nccl_device_v2.py:301-350 | ranks that list the same operations for each other lower their batches to the same works for each other |
| `PlannedStreams.PlannedIsInside` | awex/transfer/transfer_plan.py:538-563 | a planned operation takes its overlap from inside the training shard and puts it inside the inference shard |
| `PlannedStreams.PlannedCut` | awex/transfer/tensor_layout.py:87-128 | cutting a planned slice at any covering spans keeps all elements of the overlap |
| `PlannedStreams.DenseOperationAgrees` | awex/transfer/nccl_device_v2.py:316-323 | both ends accept a planned operation on a dense parameter and agree on it |
| `PlannedStreams.LaidOperationAgrees` | awex/transfer/nccl_device_v2.py:306-315 | both ends accept a planned operation annotated with its layout's spans and cut it alike |
| `PlannedStreams.AnnotatedOperationAgrees` | awex/models/qwen3.py:130-144 | the annotation computed from the shard's shape makes both ends cut every planned operation on a projection alike |
| `PlannedEnds.PlannedInside` | awex/transfer/transfer_plan.py:522-591 | every operation of a model's plan lies inside its sender's shard |
| `PlannedEnds.ServedStreamsAgree` | awex/transfer/nccl_device_v2.py:280-464 | operations served from dense tensors or annotated layouts are accepted at both ends and give one stream, cut alike |
| `PlannedEnds.PlannedAlike` | awex/transfer/transfer_plan.py:618-689 | two ranks plan the same operations with each other, whether either prunes |
| `PlannedEnds.PlannedEndsAgree` | awex/transfer/nccl_device_v2.py:301-464 | planned apart, served apart and lowered apart, two ranks that agree as a pair schedule the same works for each other and continue from the same steps |
| `PlannedEnds.PlannedNetworkEndsAgree` | awex/transfer/nccl_device_v2/nccl_device_v2_ext.cu:447-460 | network ranks with equal settings, each on its own channel budget, agree as a pair if and only if the budgets match, and then schedule the same works |
| `PlannedEnds.PlannedRoundsAgree` | awex/transfer/nccl_device_v2/device_v2_lowering.h:239-246 | over any number of rounds, each from the steps the last one ended with, the two ends schedule the same works in the last round |
| `Chunks.ChunkJoins` | awex/converter/mcore_converter.py:1202-1210 | splitting rows into chunks and joining them gives the rows back |
| `QkvRegroup.SeparateGroups` | awex/converter/mcore_converter.py:1115-1125 | the loop over groups collects all queries, then all keys, then all values |
| `QkvRegroup.SeparatesCompact` | awex/converter/mcore_converter.py:1110-1125 | separating the compact layout gives every query, key and value head in head order |
| `QkvRegroup.SelectsRepeated` | awex/converter/mcore_converter.py:1137-1146 | selecting the first head of every group undoes the replication |
| `QkvRegroup.DeduplicatesReplicated` | awex/converter/mcore_converter.py:1126-1147 | the replicated layout comes back as one key and one value head a group |
| `QkvRegroup.Transform` | awex/converter/mcore_converter.py:1092-1175 | the layout is recognised by row count in the code's order, compact before replicated |
| `QkvRegroup.MergeBlocks` | awex/converter/mcore_converter.py:1202-1218 | the merging loop joins the blocks of all inference ranks |
| `QkvRegroup.Convert` | awex/converter/mcore_converter.py:1178-1228 | the conversion as specified, with all its errors |
| `QkvRegroup.TrainShardsJoin` | awex/converter/mcore_converter.py:1219-1228 | the shards of the training ranks, in order, are the merged weight |
| `QkvRegroup.BlocksHoldHeads` | awex/converter/mcore_converter.py:1202-1218 | for even head counts every rank's block holds whole heads and all blocks have one size |
| `QkvRegroup.RanksReceiveHeads` | awex/converter/mcore_converter.py:1178-1228 | from the compact layout, an even cut of the result gives each inference rank its query, key and value heads |
| `QkvRegroup.HeadsMeet` | awex/converter/mcore_converter.py:1203-1210 | every query head finds its own key head in its block by local division, whether keys are split or replicated |
| `QkvAlignment.ConversionJoins` | awex/converter/mcore_converter.py:1178-1228 | the conversion of any compact weight whose rank count is accepted joins the ranks' blocks |
| `QkvAlignment.ServedIfEven` | awex/converter/mcore_converter.py:1197-1218 | even head counts give every rank an equal block in which every query head has its key and value head |
| `QkvAlignment.EvenIfServed` | awex/converter/mcore_converter.py:1197-1218 | rank blocks that serve every rank come from even head counts only |
| `QkvAlignment.EvenIfCutServed` | awex/converter/mcore_converter.py:1197-1228 | if an even cut of the merged rows serves every rank, the head counts are even: no uneven counts come out right by accident of the cut |
| `QkvAlignment.ConversionServesIffEven` | awex/converter/mcore_converter.py:1178-1228 | an even cut of the converted weight serves all ranks if and only if the rank count divides the query heads and divides or is divided by the key/value heads |
| `QkvAlignment.UnevenHeadsAreConverted` | awex/converter/mcore_converter.py:1197-1218 | six query heads and three key/value heads over two ranks: the weight is converted, and no even cut of the result serves both ranks |
| `GatedQkv.MergeHeads` | awex/models/qwen3_5.py:158-172 | the block loop joins each rank's query, key and value heads |
| `GatedQkv.HeadsOfGrouped` | awex/models/qwen3_5.py:125-137 | reading the training layout returns every head joined with its own gate |
| `GatedQkv.PacksExactly` | awex/models/qwen3_5.py:104-156 | packing succeeds if and only if the head and rank counts divide |
| `GatedQkv.RanksReceiveGatedHeads` | awex/models/qwen3_5.py:89-172 | and then an even cut gives each rank its gated query heads, its key heads and its value heads |
| `GdnPacking.SplitBlocks` | awex/models/qwen3_5.py:197-203 | the loops collect each category over the rank blocks |
| `GdnPacking.SplitParameter` | awex/models/qwen3_5.py:175-203 | the categories, or an error for sizes that do not divide |
| `GdnPacking.SplitInvertsPacking` | awex/models/qwen3_5.py:175-203 | splitting undoes the training ranks' packing |
| `GdnPacking.PackingInvertsSplit` | awex/models/qwen3_5.py:175-203 | packing what was split gives the parameter back |
| `GdnPacking.RanksReceiveShares` | awex/models/qwen3_5.py:219-227 | an even cut of packed rows gives every rank its share of each category, in order |
| `GdnPacking.TrainingDegreeIsInvisible` | awex/models/qwen3_5.py:206-227 | the packed input is the same for every training degree, and fails if and only if the inference degree does not divide |
| `GdnPacking.ConvDegreeIsInvisible` | awex/models/qwen3_5.py:230-274 | so is the packed convolution |
| `GdnPacking.ConvSameDegree` | awex/models/qwen3_5.py:230-274 | with equal degrees the convolution comes back unchanged |
| `PipelineLayers.CollectRank` | awex/meta/train_meta_resolver.py:253-259 | adds one rank's layer ids to their stages |
| `PipelineLayers.Collect` | awex/meta/train_meta_resolver.py:247-259 | the layer ids of every stage over all ranks |
| `PipelineLayers.AscendingUpTo` | awex/meta/train_meta_resolver.py:274-278 | sorted ids 0..n-1 are their own positions |
| `PipelineLayers.NumberStage` | awex/meta/train_meta_resolver.py:271-279 | a stage's sorted ids get the next numbers, and stages without ids are skipped |
| `PipelineLayers.NumberRow` | awex/meta/train_meta_resolver.py:270-279 | one virtual stage over all pipeline ranks |
| `PipelineLayers.NumberVirtualStage` | awex/meta/train_meta_resolver.py:269-279 | skipping virtual stages without layers changes no number |
| `PipelineLayers.NumberStages` | awex/meta/train_meta_resolver.py:266-280 | all stages are numbered |
| `PipelineLayers.BuildStageMap` | awex/meta/train_meta_resolver.py:244-280 | the stage map of the metadata |
| `PipelineLayers.NumbersAreOrdered` | awex/meta/train_meta_resolver.py:266-280 | the numbers follow virtual stage, then pipeline rank, then local id |
| `PipelineLayers.NumbersAreOnto` | awex/meta/train_meta_resolver.py:266-280 | the numbers are exactly those below the layer total |
| `PipelineLayers.StartOffset` | awex/converter/mcore_converter.py:306-315 | the nested loops with their break add up exactly the stages before |
| `PipelineLayers.ResolveLayerIds` | awex/converter/mcore_converter.py:285-324 | the converter's ids, or the error for a rank, stage or total that does not fit |
| `PipelineLayers.NumberingsAgree` | awex/converter/mcore_converter.py:306-324 | when stages report 0..count-1, resolver and converter number every layer alike |
| `TensorGroups.Bucket` | awex/util/tensor_util.py:220-225 | the tensors of every element type with their positions, types in order of appearance |
| `TensorGroups.RecordGroup` | awex/util/tensor_util.py:248-266 | one flat group and a record with offset and size for each of its tensors |
| `TensorGroups.AppendGroup` | awex/util/tensor_util.py:248-266 | appends a group with its index |
| `TensorGroups.CutBucket` | awex/util/tensor_util.py:235-293 | a group is closed by the tensor that takes it over the limit, and the last one at the end |
| `TensorGroups.GroupTensors` | awex/util/tensor_util.py:186-297 | groups and records of all tensors, type by type |
| `TensorGroups.GroupsOfFacts` | awex/util/tensor_util.py:239-293 | the groups of a type hold its tensors in order, each non-empty and within the limit without its last tensor |
| `TensorGroups.MaxIndex` | awex/util/tensor_util.py:318-320 | the number of result slots |
| `TensorGroups.RecordsByGroup` | awex/util/tensor_util.py:322-328 | the records of every group, in order |
| `TensorGroups.RebuildTensors` | awex/util/tensor_util.py:301-350 | every group's records are written to their positions, or a group is missing or empty |
| `TensorRoundTrip.GroupsAreBounded` | awex/util/tensor_util.py:231-293 | every group is within the limit without its last tensor, holds one element type, and every tensor is in some group |
| `GroupLimits.GroupsSmallerIff` | awex/util/tensor_util.py:239-293 | the groups of a type are all smaller than the limit if and only if its tensors together are |
| `GroupLimits.AllGroupsSmallerIff` | awex/util/tensor_util.py:186-297 | all groups are smaller than the limit if and only if the tensors of each element type together are |
| `GroupLimits.LargeTensorAloneIff` | awex/util/tensor_util.py:239-293 | a tensor over the limit is the last of its group, and alone in it if and only if it is the first of its type or the one before it closed a group |
| `GroupLimits.LargeTensorIsShared` | awex/util/tensor_util.py:186-204 | one byte and then five with a limit of four: one group of six bytes holds both |
| `TensorRoundTrip.EmptyGroupIffTail` | awex/util/tensor_util.py:239-293 | a type's groups include one without elements if and only if the type ends in an empty tail |
| `TensorRoundTrip.EmptyGroupIffSomeTail` | awex/util/tensor_util.py:231-293 | over all types likewise |
| `TensorRoundTrip.EmptyGroupStops` | awex/util/tensor_util.py:330-337 | a group without elements makes reading back fail |
| `TensorRoundTrip.FullGroupsRebuild` | awex/util/tensor_util.py:318-350 | groups that all have elements give every tensor back at its position |
| `TensorRoundTrip.RoundTrip` | awex/util/tensor_util.py:186-350 | grouping and reading back returns the tensors in order, and fails if and only if some type ends in an empty tail |
| `TensorRoundTrip.NonEmptyRoundTrip` | awex/util/tensor_util.py:186-350 | tensors that each have an element always come back in order |
| `TensorRoundTrip.EmptyTensorIsLost` | awex/util/tensor_util.py:332-337 | a single empty tensor does not come back |

## Left out

Weaker than the source in a named place:

- QkvRegroup.Transformed: a replicated weight whose hidden size is not the number of heads times the head size is an error here, though the reshape there may regroup columns instead.
- QkvRegroup.Transform: as `Transformed`.
- QkvRegroup.Convert: as `Transformed`.
- OperationOrder.BuildOps: the lists come in ascending peer order, as the local plan stores them; the set of unfinished ranks is that list of positions.
- ParamMeta.GroupIntoReplicas: a sharded parameter with one shard keeps all its shards in one replica, as the code does; what such a replica means for the global shape is not stated.
- ChunkedExchange.RunChunked: the minimum and maximum that the two collectives return are parameters; the branches that catch a failed collective and carry on with local values are not modelled, and neither are ranks that read different forced steps.
- DeviceBatch.BuildBatch: the parallel lists of a batch are one list of records; the receiver's copies back into tensors it could not write directly are left out.
- DeviceBatch.PiecesAgreeIff: an annotated layout whose shape is not the planned one is covered by the failing input alone, without an exact condition.
- GinChannels.HeaviestFirst: the sort is stable here; the order std::sort gives to equal payloads is unspecified.
- TransferPlan.TransferPlanBuilder.CreateShardOffsets: all shards of a replica have one number of dimensions, which the metadata of one tensor always has.
- TransferPlan.TransferPlanBuilder.BuildPairPlan: likewise for both replicas.
- TransferPlan.TransferPlanBuilder.BuildParameterPlan: likewise for all shards of the parameter.
- TransferPlan.TransferPlanBuilder.BuildNamesPlan: likewise for all shards of each parameter.
- TransferPlan.TransferPlanBuilder.BuildModelPlan: likewise for all shards of each parameter.
- TransferPlan.TransferPlanBuilder.BuildLocalPlan: likewise for all shards of each parameter.
- LoweringSchedule.LowerFixedTasks: the code's own overflow checks are explicit errors; other fixed-width wrap-around is not modelled.
- PlannedEnds.PlannedRoundsAgree: speaks of the lowering's interface, which takes initial steps and returns the next ones (device_v2_lowering.h:239-246); no caller in the repository sets them.

Whole areas:

- Fixed-width arithmetic: byte counts, steps and offsets are unbounded, with the code's own overflow checks kept as explicit errors; the two-dimensional next-step table is a table of rows.
- `& (total - 1)` is modelled as the remainder by the power-of-two total.
- Worlds that are not powers of two in the recursive partition; odd cycles are covered by the colouring's exact condition only.
- The local self-receive branch of the chunked transfer and the tensor copies of a rank to itself.
- CUDA kernels, NCCL calls, streams, windows, symmetric memory: a batch is one blocking rendezvous, a barrier one step that all ranks take together, and a collective a shared minimum or maximum.
- Multicast groups (nccl_device.py:471-542) and topology or NIC discovery.
- Tensor strides, row layout classification and staging copies: a view's row size and pitch are inputs.
- Element types, devices and contiguity of layout spans; numeric content and casts.
- Writing the annotation into the plan in place: the annotation is a function of the operation.
- Building the stage count table from a pipeline layout or split configuration (mcore_converter.py:132-268): the table is an input.
- Bias regrouping, which repeats the weight's regrouping on fewer columns.
- In the grouping round trip, a missing group object and shapes that do not match their element counts: data and shape travel together.
- Meta server, HTTP, retries, configuration, logging, name rewriting and sharding-strategy tables.

# AstraStorage, verified

A model, in Dafny, of AstraStorage: a metadata service (MDS) that keeps a directory tree, files,
chunks, upload sessions, storage nodes and replica plans in one repository; data nodes that keep
chunk bytes on disk; a gateway that cuts files into chunks of 4 MiB and reads them back; and the
background controllers of the MDS, which replace lost replicas (failover), move replicas off full
nodes (rebalance), copy bytes onto pending replicas (repair) and settle finished plans (clean-up).

`dafny verify dfyconfig.toml` checks the whole project.

## How it is built

- **Values.** `Metadata` has the records and the repository state. `Namespace`, `Upload`,
  `ReplicaStore` and `Coordinator` give each use case and each controller step as a function from
  state to state, with its errors. What the environment decides (which copies and deletes go
  through, which acknowledgements arrive, whether a task is published, what the clock says) is a
  parameter, so a statement for all parameters is one about everything the environment may do.
- **Laws.** `PlanningLaws`, `RepairLaws`, `PassLaws`, `NamespaceLaws`, `UploadContracts` and
  `GatewayLaws` say what these functions mean on the fields of the records, without naming the
  functions' own parts: exactly when a step is taken or a call accepted, with which error it is
  refused, and what is and is not changed.
- **Runs.** `ReplicaProtocol`, `NamespaceRuns`, `UploadRuns`, `RepairSchedule` and `Supervisor`
  define runs of such steps and prove what every run keeps. Each controller step is first
  classified (`Change` in `ReplicaProtocol`); the invariants are then proved once per class.
  `PlanningPass` and `RepairPass` say what one pass of a controller is, `UploadTraces` what one upload
  may leave behind wherever it stops. Clients take part in runs of the replica protocol: an upload
  writes its bytes under any id, recorded or not, and only its commit is guarded; a gateway delete
  removes copies; any other transaction may drop chunks. `NamespaceShape` is the invariant that
  holds with any names, `WellFormed` the one for names without slashes.
- **Programs.** `UploadService`, `NamespaceService`, `NamespaceDelete`, `ChunkLists`,
  `FailoverPlanner`, `RebalancePlanner`, `CleanupController`, `Repairer`, `DataNodes`,
  `GatewayUpload` and `GatewayDownload` follow the loops and in-place updates of the source and are
  proved to do what the functions say. A controller pass is proved to be a run of steps, so
  everything proved about runs holds of it.
- **Inputs.** `ReplicaScenarios`, `ReuseScenarios`, `UploadScenarios`, `PlanningScenarios` and
  `SlashNames` hold concrete runs, most of them ones on which expected guarantees fail.
- **End to end.** `RoundTrip` joins gateway, repository, data nodes and controllers: what was
  uploaded is what is downloaded.

## What turned out false

Each of these has an input on which it fails and the exact condition under which it holds.

- *A settled plan never loses data.* It does when a data node deletes its copy and the
  acknowledgement is lost: the replica stays recorded as ready (`ReplicaScenarios.LostAcknowledgement`).
  `ReplicaSafety.CleanupKeepsBytesIff` gives the condition; everything about stored bytes is proved
  for runs without such losses.
- *Committed bytes stay.* A data node takes any write, and the commit is checked only later: a write
  under a recorded id replaces bytes that are committed (`ReuseScenarios.WrittenOver`). A file
  deletion erases copies before records, and one that stops half-way leaves a ready replica without
  bytes (`ReuseScenarios.HalfDeleted`). `ReplicaSafety.WriteKeepsBytesIff`,
  `ReplicaSafety.EraseKeepsBytesIff` and `RoundTrip.WriteKeepsCopiesIff` give the condition for one
  step; results about a chunk's bytes over runs are for runs whose clients do neither to that chunk.
- *A plan whose target is ready gets settled.* `StrandedPlans.SettledIff` gives the condition.
  Failover planning ignores rebalance plans, so two plans can share a source; settling one strands
  the other if that is a failover plan, for good (`ReplicaScenarios.OverlapStrands`,
  `StrandedPlans.StrandedForever`). A rebalance plan is left behind by a lost acknowledgement, until
  a failover plan for the same source settles or a client renews or drops the chunk
  (`StrandedPlans.HollowKeptIff`). A plan whose chunk was deleted is never settled either
  (`ReplicaScenarios.DeletedFileStopsCleanup`). Where such a deleted chunk's plan, or a stranded plan
  whose target stays ready, is the oldest due one, clean-up passes never get past it
  (`HeadOfLine.StuckForever`, `HeadOfLine.PassStopsAtStuck`).
- *Cached paths are exact.* Not with a slash in a name, and the service accepts such names:
  `SlashNames.SlashNameCorruptsPath` and `SlashNames.RenameCutsInside`. `PathCache.CachesKeptIff`
  gives the condition for each request.
- *Stored sizes are exact and available files tiled.* Not after a commit of a chunk id that belongs
  to another file (`UploadScenarios.ChunkTakenAway`, `ReuseScenarios.AvailableFileRobbed`,
  `UploadLaws.ForeignCommit`, `UploadLaws.ForeignTiling`).
- *A file has one unfinished session.* Not after complete, retry or a retryable failure on an older
  session (`UploadScenarios.TwoUnfinishedSessions`, `UploadRuns.SessionsKeptIff`).
- *A download checks what it reads.* It does not: bytes left behind under an id by an upload that was
  never committed can be read later (`ReuseScenarios.StaleCopy`). Reads are right exactly when all
  copies agree (`GatewayDownload.ReadExactIff`), and after an upload that is so exactly when no
  target it did not reach held other bytes (`GatewayUpload.PlacedReadsExactIff`).
- *A node that is given a part has room for it.* Allocation asks for nodes that are not full, not for
  the size of the part (`PlanningScenarios.TargetWithoutRoom`, `GatewayLaws.TargetsHaveRoomIff`).
  Failover and rebalance do ask (`PlanningPass.PassGoes`).
- *A replica waits only for its own failures.* Not with ambiguous chunk ids
  (`RepairSchedule.HeldBackByAnother`, `RepairSchedule.SharedKeyIff`).
- *One leader's loops at a time.* Not if leading starts again while a stop is still waiting
  (`Supervisor.TwoGenerationsRun`, `Supervisor.EarlyStartOverlaps`).

## Model

| member | source | states |
|---|---|---|
| `Placement.SelectPlacementTargets` | internal/mds/allocator.go:31-75 | the filter, sort and cut return the best `count` eligible candidates, best first: free space descending, ties by id; every node returned is healthy, has an address, is not excluded and has the required bytes free, and if fewer than `count` are returned every other candidate lacks one of these |
| `Placement.PlacementUnique` | internal/mds/allocator.go:61-73 | at most one list is a placement, so the choice does not depend on the order of the candidates |
| `Placement.TakeIsPlacement` | internal/mds/allocator.go:70-74 | a prefix of the sorted eligible nodes is a placement: every node left out is worse than every node chosen |
| `Placement.PlacementHasRoom` | internal/mds/allocator.go:36-74 | the same of any placement: room on every node, nobody with room left out while nodes are missing, and nobody with room and more free space left out |
| `PlanningLaws.FitsIff` | internal/mds/allocator.go:36-60 | eligible for a chunk means: up, reachable, no replica of it, and room for its largest ready replica, or for its size if no ready replica holds anything |
| `PlanningLaws.BestTargetIff` | internal/mds/coordinator/failover.go:172-181 | the target of a plan is the node with room that has the most free space, ties by id |
| `PlanningLaws.TargetExistsIff` | internal/mds/coordinator/failover.go:172-181 | there is a target exactly when some candidate has room |
| `PlanningScenarios.NoRoomNoPlacement` | internal/mds/allocator.go:53-58 | a node with one byte free is not chosen for 50 bytes and is chosen for one (concrete) |
| `Listing.ListWhere` | internal/mds/store/memory_plan.go:92-122 | a list operation returns exactly the records that pass its filter, each once, in the given order if that order is strict |
| `ChunkLists.ListChunksByFile` | internal/mds/store/memory_chunk.go:107-117 | the chunks of a file, each once, in index order |
| `ChunkLists.ChunkListUnique` | internal/mds/store/memory_chunk.go:107-117 | that list is unique |
| `PlanningQueries.ListNodes` | internal/mds/store/memory_node.go:66-88 | all nodes, each once, by id |
| `PlanningQueries.ListChunksByNode` | internal/mds/store/memory_chunk.go:129-144 | exactly the chunks with a replica on the node, each once, by file id and then index |
| `PlanningQueries.HasActivePlan` | internal/mds/store/memory_plan.go:92-122 | true exactly when a plan for the chunk of one of the kinds is neither done nor failed |
| `PlanningQueries.CountEffectiveReadyReplicas` | internal/mds/allocator.go:96-109 | the number of ready replicas on healthy known nodes |
| `PlanningQueries.RequiredPlacementBytes` | internal/mds/allocator.go:77-94 | the largest stored size of a ready replica, else the chunk size, else 0 |
| `PlanningQueries.SelectTarget` | internal/mds/coordinator/failover.go:172-181 | the node with the most free space among those that have room for the chunk and no replica of it; none exactly when there is no such node |
| `ReplicaProtocol.RollbackRestores` | internal/mds/coordinator/failover.go:245-261 | rolling a plan back restores plans, replicas and replica count; only the policy's count field may differ |
| `ReplicaProtocol.PlanningChange` | internal/mds/coordinator/failover.go:187-207 | a planning step adds its plan and one pending replica, or leaves the records alone (refused or rolled back) |
| `ReplicaProtocol.PlannerActs` | internal/mds/coordinator/failover.go:137-207 | a planner that acts does so on a target new to the chunk, with no active plan of that kind nor any active failover plan |
| `PlanningLaws.FailoverCalledForIff` | internal/mds/coordinator/failover.go:102-181 | a replica calls for a replacement exactly when its node is down or silent for longer than the timeout, fewer than the wanted replicas are ready on healthy nodes, no failover plan for the chunk is unfinished, and some node has room |
| `PlanningLaws.FailoverGoes` | internal/mds/coordinator/failover.go:102-181 | a failover goes from such a node to the one with the most room |
| `PlanningLaws.WatermarksIff` | internal/mds/coordinator/rebalance.go:109-120 | the two pressure classes, said without dividing: used against watermark times capacity; a node without capacity counts as full |
| `PlanningLaws.RebalanceCalledForIff` | internal/mds/coordinator/rebalance.go:109-176 | a replica is to be moved exactly when its node is at or above the high watermark, enough replicas are ready on healthy nodes, no plan for the chunk is unfinished, and a node at or below the low watermark has room |
| `PlanningLaws.RebalanceGoes` | internal/mds/coordinator/rebalance.go:122-176 | a move goes from a node at or above the high watermark to the one with the most room among those below it and at or below the low one |
| `PlanningLaws.BetweenWatermarks` | internal/mds/coordinator/rebalance.go:109-120 | a node between the watermarks is neither source nor target |
| `PlanningLaws.PlanTakenIff` | internal/mds/store/memory_plan.go:23-62 | the store takes a plan exactly when its ids are set, source and target differ, and no plan has its id, nor an unfinished one its kind, chunk and target |
| `PlanningLaws.PlanRecorded` | internal/mds/coordinator/failover.go:183-243 | a plan that is taken and published is recorded as materialized, with a pending, empty replica on its target that is counted; nothing else changes |
| `PlanningLaws.StampSpells` | internal/mds/coordinator/failover.go:183-194 | the time in a plan's id is spelled in decimal, after a minus sign if negative |
| `PlanningLaws.PlannersRecord` | internal/mds/coordinator/failover.go:187-207 | both planners record their target as a secondary |
| `ReplicaProtocol.RepairChange` | internal/mds/coordinator/repairer.go:336-393 | repair never demotes a ready replica, adds or removes no replica, and keeps the recorded count exact |
| `RepairLaws.MayCopyIff` | internal/mds/coordinator/repairer.go:258-313 | a chunk is copied exactly when the source is ready (a primary if any primary is, else the smallest id), known, reachable and has the bytes, the due replicas are pending on known nodes, and one of these is up and not full |
| `RepairLaws.RepairWrites` | internal/mds/coordinator/repairer.go:314-335 | on the disks exactly the copies that arrive at such nodes become the source's bytes |
| `RepairLaws.RepairRecords` | internal/mds/coordinator/repairer.go:336-393 | if the answer comes back, the due replicas that arrived and were reported are ready with the chunk's size and checksum and the other due ones stay pending with what they had; nothing else changes |
| `ReplicaProtocol.CleanupChange` | internal/mds/coordinator/cleanup.go:131-226 | clean-up settles the plan (source out, plan done, only after the source is released) or changes at most a retry counter |
| `RepairLaws.SettlingRecords` | internal/mds/coordinator/cleanup.go:131-226 | a plan whose target is ready is settled exactly when its source is recorded and, for a rebalance plan, a known source acknowledges deleting a copy it has: source replica out, count down by one, plan done. Otherwise a rebalance plan counts a retry and a failover plan stays; nothing else changes |
| `RepairLaws.SettlingErases` | internal/mds/coordinator/cleanup.go:168-197 | the only copy that can go is the source's, when a rebalance plan is ripe and the delete is carried out |
| `ReplicaProtocol.StepChange` | internal/mds/coordinator/failover.go:64-86 | every step of every controller is one of these elementary changes |
| `ReplicaProtocol.StepConserves` | internal/mds/coordinator/cleanup.go:199-211 | one step that neither replaces nor drops a chunk's record keeps its replicas minus active plans |
| `ReplicaProtocol.Conservation` | internal/mds/coordinator/cleanup.go:168-211 | in every run in which no client replaces or drops a chunk's record, its replicas minus active plans is constant and its recorded replica count equals the number of replicas |
| `ReplicaProtocol.ReadyFloor` | internal/mds/coordinator/cleanup.go:131-166 | in every such run, whatever plans overlap and whatever copies and deletes fail, the ready replicas of the chunk never fall below replicas minus plans under way minus unattended replicas at the start |
| `ReplicaProtocol.ReadyNeverDrops` | internal/mds/coordinator/cleanup.go:131-166 | in every such run that starts without plans under way, the number of ready replicas of the chunk never drops below its starting value |
| `ReplicaSafety.PlansStayUnique` | internal/mds/store/memory_plan.go:23-62 | in every run a chunk has at most one active plan of each kind, and no plan's source is its target |
| `ReplicaSafety.StepKeepsUnique` | internal/mds/coordinator/rebalance.go:137-152 | each step keeps plan uniqueness |
| `ReplicaSafety.RepairKeepsBytes` | internal/mds/coordinator/repairer.go:322-372 | a replica becomes ready only by receiving the bytes the ready replicas hold |
| `ReplicaSafety.CleanupKeepsBytesIff` | internal/mds/coordinator/cleanup.go:168-197 | clean-up keeps every ready replica stored exactly when it does not lose the acknowledgement of a delete that was carried out |
| `ReplicaSafety.WriteKeepsBytesIff` | internal/datanode/store.go:82-118 | a write keeps the bytes of all ready replicas of a chunk exactly when it is for another id, writes the same bytes or reaches none of them |
| `ReplicaSafety.EraseKeepsBytesIff` | internal/gateway/http.go:668-710 | a gateway delete keeps them exactly when it is for another chunk or reaches none of them |
| `RepairLaws.WriteReaches` | internal/datanode/store.go:82-118 | a write puts the bytes under its id on its nodes and changes no other copy |
| `RepairLaws.DropReaches` | internal/datanode/store.go:147-171 | a delete removes the one copy |
| `RepairLaws.EraseReaches` | internal/gateway/http.go:668-710 | a gateway delete removes the copies under its id on its nodes and leaves the records alone |
| `RepairLaws.NodeReported` | internal/mds/store/memory_node.go:23-33 | a node's report replaces its record unless it names no node or negative sizes |
| `ReplicaScenarios.LostAcknowledgement` | internal/mds/coordinator/cleanup.go:168-197 | a run of three steps after which the source is recorded as a ready replica and has no bytes (concrete) |
| `ReplicaSafety.BytesSurvive` | internal/mds/coordinator/cleanup.go:168-197 | over every run without lost acknowledgements in which no client writes, deletes or drops this chunk, all its ready replicas keep holding the original bytes |
| `ReplicaSafety.DataIsNeverLost` | internal/mds/coordinator/cleanup.go:168-197 | over every such run, a chunk with a ready replica and no plan under way at the start still has a ready, stored, unaltered replica |
| `ReplicaSafety.ReadyMeansStored` | internal/mds/coordinator/repairer.go:336-372 | in every run without lost acknowledgements, and without writes under recorded ids that are not committed or deletes of recorded chunks, ready replicas are on disk and agree, for chunks uploaded or uploaded again during the run too |
| `ReplicaSafety.UploadStores` | internal/gateway/http.go:438-477 | a committed upload, under a new id or a recorded one, leaves all ready replicas of its chunk holding its bytes |
| `StrandedPlans.SettledIff` | internal/mds/coordinator/cleanup.go:168-211 | settling a failover or rebalance plan with a ready target completes it exactly when its source replica is still recorded and, for a rebalance plan, the source acknowledges deleting bytes it has |
| `StrandedPlans.StrandedForever` | internal/mds/coordinator/failover.go:156-163 | an active failover plan whose source replica is gone stays active in every run in which no client replaces or drops the chunk's record; the chunk never gets a new plan or a new replica |
| `StrandedPlans.SettlingStrands` | internal/mds/coordinator/cleanup.go:168-211 | of two plans with the same chunk and source, settling one strands the other (a failover plan) exactly when the source is released |
| `StrandedPlans.OverlapArises` | internal/mds/coordinator/failover.go:156-163 | such pairs arise: failover planning ignores an active rebalance plan with the same source |
| `ReplicaScenarios.OverlapStrands` | internal/mds/coordinator/failover.go:156-163 | a run from three nodes and one chunk in which the two plans overlap and the failover plan is stranded (concrete) |
| `StrandedPlans.LostAckHollows` | internal/mds/coordinator/cleanup.go:168-197 | a lost acknowledgement leaves a rebalance plan active whose source is recorded as ready and has no bytes |
| `StrandedPlans.HollowKeptIff` | internal/mds/coordinator/cleanup.go:131-166 | every step, of controllers and clients, leaves such a plan as it is, exactly unless it settles a failover plan for the same chunk and source, writes the chunk's bytes to the source again, replaces its record or drops it |
| `StrandedPlans.HollowForever` | internal/mds/coordinator/cleanup.go:131-166 | so in every run without such a step the plan stays active, its source ready without the bytes |
| `HeadOfLine.StuckForever` | internal/mds/coordinator/cleanup.go:108-120 | a stranded plan with a ready target that no plan moves away, or a plan whose chunk was deleted, once the oldest due plan, is so after every run in which plans are made later and the chunk id is not committed again |
| `HeadOfLine.PassStopsAtStuck` | internal/mds/coordinator/cleanup.go:103-129 | every clean-up pass then handles that plan and no other, fails and changes nothing |
| `ReplicaScenarios.DeletedFileStopsCleanup` | internal/mds/service_mutation.go:305-335 | deleting a file while a plan for its chunk is due leaves such a plan (concrete) |
| `CleanupController.ListDuePlans` | internal/mds/coordinator/cleanup.go:108-120 | the oldest due plans in order, at most the limit: nothing due is passed over for something younger |
| `PassLaws.WindowIsOldest` | internal/mds/store/memory_plan.go:92-122 | every plan looked at is an unfinished failover or rebalance plan with a recorded target, in order of age and then id, and older than every such plan not looked at |
| `PassLaws.NothingPassedOver` | internal/mds/coordinator/cleanup.go:108-120 | below the limit, all such plans are looked at |
| `PassLaws.BlocksIff` | internal/mds/coordinator/cleanup.go:131-166 | a pass fails at a plan exactly when its chunk is gone, or it is a failover plan with a ready target whose source replica is gone |
| `CleanupController.RemoveSource` | internal/mds/coordinator/cleanup.go:199-211 | one transaction: source replica out and plan done, or neither |
| `CleanupController.FinalizeCompletedPlan` | internal/mds/coordinator/cleanup.go:131-166 | records and disks change as the clean-up step says; an error is returned exactly when the chunk is gone or a failover source is no longer recorded |
| `CleanupController.Controller.CleanupOnce` | internal/mds/coordinator/cleanup.go:103-129 | a pass is a run of clean-up steps over the oldest due plans; it fails at the first plan that blocks, and only there |
| `FailoverPlanner.PlanTransaction` | internal/mds/coordinator/failover.go:209-261 | plan and pending replica are recorded together; a failed publication is rolled back; the error is the store's refusal or the failed publication, and there is none otherwise |
| `FailoverPlanner.PlanChunkFailover` | internal/mds/coordinator/failover.go:137-207 | does nothing exactly when the file is unknown (an error) or the chunk calls for no plan (none); otherwise it is a failover step onto the best target, with that step's error |
| `FailoverPlanner.PlanKeepsChunkDone` | internal/mds/coordinator/failover.go:156-163 | planning for one chunk never makes a further plan necessary |
| `FailoverPlanner.PlanNodeFailover` | internal/mds/coordinator/failover.go:115-135 | a run of failover steps for one node, each enabled where it is taken, within the budget; with budget left and no error nothing on the node calls for a plan |
| `FailoverPlanner.Planner.PlanOnce` | internal/mds/coordinator/failover.go:64-86 | a pass is a run of failover steps, each enabled where it is taken, from a node that is down or silent for longer than the timeout to the node with the most room, within the budget; without an error all were accepted and published, and with budget left every replica on such a node has enough others, an unfinished failover plan, or no node with room to go to; an error is the last step's, or a chunk's file is not recorded |
| `PlanningPass.PassGoes` | internal/mds/coordinator/failover.go:64-86 | every step of a pass of either planner goes that way, by the nodes as they were when the pass began |
| `FailoverPlanner.SeenNodeIsNoSource` | internal/mds/coordinator/failover.go:102-113 | no step of a pass replaces a replica on a healthy node that was seen within the timeout |
| `PlanningScenarios.SilentNodeReplaced` | internal/mds/coordinator/failover.go:102-113 | a node marked healthy but not heard of for longer than the timeout calls for a plan, the other node does not (concrete) |
| `PlanningScenarios.SilentNodeRun` | internal/mds/coordinator/failover.go:137-207 | the step that follows records the plan and a pending replica on the other node (concrete) |
| `PlanningScenarios.SeenNodeKept` | internal/mds/coordinator/failover.go:102-113 | heard of exactly the timeout ago, it calls for none (concrete) |
| `PlanningPass.PlanningLosesNoAck` | internal/mds/coordinator/failover.go:64-86 | planning passes delete nothing, so the guarantees for runs without lost acknowledgements hold of them |
| `RebalancePlanner.ClassifyNodePressure` | internal/mds/coordinator/rebalance.go:109-120 | healthy nodes whose use is at least the high watermark times their capacity, and healthy nodes below that whose use is at most the low watermark times their capacity |
| `RebalancePlanner.SelectReplicaToMove` | internal/mds/coordinator/rebalance.go:122-176 | the first chunk on the node, by file and index, that may move, with its best underfull target; none exactly when no chunk on the node may move |
| `RebalancePlanner.PlanReplicaMove` | internal/mds/coordinator/rebalance.go:178-230 | records the move; a failed publication is rolled back and not reported, a refusal by the store is |
| `RebalancePlanner.MoveKeepsImmovable` | internal/mds/coordinator/rebalance.go:137-152 | a move, recorded or rolled back, never makes another chunk movable |
| `RebalancePlanner.Planner.PlanOnce` | internal/mds/coordinator/rebalance.go:79-107 | a pass is a run of rebalance steps, each enabled where it is taken, from a node at or above the high watermark to the one with the most room at or below the low one, at most one per node and within the budget; with budget left and no error every node above the high watermark was tried, published or not, or has no chunk that may move, or no node below the low one has room for such a chunk; an error is the store's refusal of the last step |
| `RebalancePlanner.MiddleNodesSpared` | internal/mds/coordinator/rebalance.go:109-120 | in a whole pass a node between the watermarks neither gives nor takes a replica |
| `PlanningScenarios.MiddleNodeSpared` | internal/mds/coordinator/rebalance.go:109-120 | a node 70 per cent full takes nothing with watermarks 0.8 and 0.5, and does with 0.8 and 0.7 (concrete) |
| `Repairer.SelectRepairTargets` | internal/mds/coordinator/repairer.go:421-445 | a ready primary, else the ready replica with the smallest node id, none exactly when there is no ready replica with a name, and the pending replicas in order |
| `Repairer.Dispatch` | internal/mds/coordinator/repairer.go:275-313 | the due replicas split into those that are known, addressable and have space, and the rest |
| `Repairer.PendingReplicaRepairer.constructor` | internal/mds/coordinator/repairer.go:72-103 | back-off and budget defaults; an empty schedule |
| `Repairer.PendingReplicaRepairer.SelectDueTargets` | internal/mds/coordinator/repairer.go:478-493 | the first pending replicas, up to the limit, whose time has come |
| `Repairer.PendingReplicaRepairer.DeferTargets` | internal/mds/coordinator/repairer.go:495-505 | all these replicas wait for the back-off; no other entry changes |
| `Repairer.PendingReplicaRepairer.RecordAnswers` | internal/mds/coordinator/repairer.go:336-370 | targets reported ready become ready and lose their entry, the others stay pending and wait; the counts are exact |
| `Repairer.PendingReplicaRepairer.RecordSkipped` | internal/mds/coordinator/repairer.go:371-387 | due replicas no request was sent for stay pending and wait |
| `Repairer.PendingReplicaRepairer.ExecuteReplicaCopy` | internal/mds/coordinator/repairer.go:258-394 | disks and records change as the repair step says, the schedule as the attempt says; the account counts requests, successes, failures and deferrals exactly; an error exactly when a node is unknown, the source has no address or no answer arrives |
| `Repairer.PendingReplicaRepairer.RepairChunk` | internal/mds/coordinator/repairer.go:229-256 | nothing exactly when there is no budget, no source or nothing due; otherwise one repair step and one logged attempt at the first due replicas by node id, as many as the budget left |
| `PassLaws.FirstDueIs` | internal/mds/coordinator/repairer.go:478-493 | the replicas of an attempt are the pending ones whose entry is not in the future, those with the smallest ids if the limit does not allow all |
| `PassLaws.NoSourceIff` | internal/mds/coordinator/repairer.go:421-445 | where every node has a name, there is nothing to copy from exactly when no replica is ready |
| `PassLaws.AccountIff` | internal/mds/coordinator/repairer.go:258-394 | an account has one request per node that takes a copy, one success per copy that arrived and was reported, and everything else due as failed and deferred |
| `PassLaws.CopyFailsIff` | internal/mds/coordinator/repairer.go:258-394 | an attempt ends with an error exactly when a node is not known, the source has no address, or requests are due and the source has no bytes or does not answer |
| `PassLaws.TotalsAdd` | internal/mds/coordinator/repairer.go:186-227 | totals are sums of the accounts |
| `PassLaws.ScheduledAgain` | internal/mds/coordinator/repairer.go:495-511 | after an attempt replicas that became ready have no entry, the others one at now plus the back-off, and other keys keep theirs |
| `Repairer.PendingReplicaRepairer.RepairOnce` | internal/mds/coordinator/repairer.go:186-227 | a pass is a run of repair steps, each from a ready source onto exactly the first due replicas by node id, as many as the budget left at that point of the log, with its own log entry and account; the totals add these up, requests stay within the budget, an error is reported exactly when some copy failed, and with budget left every chunk of a recorded file had its turn: an entry of its own, or no source or nothing due at that point of the log |
| `RepairPass.RepairLosesNoAck` | internal/mds/coordinator/repairer.go:186-227 | a repair pass deletes nothing, so the guarantees for runs without lost acknowledgements hold of it |
| `RepairSchedule.BackoffHeld` | internal/mds/coordinator/repairer.go:478-505 | in every log of a repairer that consults its schedule, an attempt that follows a failed one at the same replica is at least the back-off later |
| `RepairSchedule.SharedKeyIff` | internal/mds/coordinator/repairer.go:513-515 | on any node, a chunk id shares a schedule key with a shorter non-empty one exactly when, after its first character, it has two colons in a row or ends in a colon |
| `RepairSchedule.KeyInjective` | internal/mds/coordinator/repairer.go:513-515 | otherwise, for non-empty ids, keys identify chunk and node |
| `RepairSchedule.HeldBackByOwnFailure` | internal/mds/coordinator/repairer.go:478-511 | with such ids a replica is held back only by its own last failure, and only until its back-off ends |
| `RepairSchedule.HeldBackByAnother` | internal/mds/coordinator/repairer.go:513-515 | with an ambiguous id a replica that was never tried is held back (concrete log) |
| `DataNodes.Cluster.Put` | internal/datanode/store.go:82-118 | the node holds the bytes under the chunk id; no other copy changes |
| `DataNodes.Cluster.Replicate` | internal/datanode/http.go:209-285 | the source's bytes reach exactly the targets delivered to; the answer names those that were acknowledged |
| `NamespaceTree.DescendsIffPrefix` | internal/mds/service_mutation.go:337-345 | an inode lies below a directory exactly when its path starts with the directory's path and a slash |
| `NamespaceTree.TreeShape` | internal/mds/store/memory_helpers.go:128-137 | every inode but the root lies below the root and none below itself |
| `NamespaceTree.PathCacheExact` | internal/mds/store/memory_helpers.go:162-167 | each cached path is the one the parent chain spells |
| `NamespaceTree.PathInjective` | internal/mds/store/memory_helpers.go:117-124 | no two inodes have the same path |
| `NamespaceLaws.ChildPath` | internal/mds/store/memory_helpers.go:162-167 | a child's path is its parent's path without the slashes at its end, a slash, and its name |
| `NamespaceMutation.FileSelectionExact` | internal/mds/service_mutation.go:256-279 | the file records whose paths are rewritten are exactly those below the directory, and each gets its new tree path |
| `NamespaceMutation.RenameKeepsWellFormed` | internal/mds/service_mutation.go:37-80 | rename keeps tree, path caches and file records consistent |
| `NamespaceMutation.MoveKeepsWellFormed` | internal/mds/service_mutation.go:82-139 | so does move |
| `NamespaceMutation.RenameAccepted` | internal/mds/service_mutation.go:37-80 | rename succeeds exactly when the inode exists, the name is not blank and no sibling has it |
| `NamespaceMutation.RenameEffect` | internal/mds/store/memory_inode.go:254-275 | rename changes one name; apart from path caches nothing else |
| `NamespaceMutation.MoveAccepted` | internal/mds/store/memory_inode.go:203-240 | move succeeds exactly when both inodes exist, the target is a directory neither equal to nor below the moved inode, and the name is free there |
| `NamespaceMutation.MoveEffect` | internal/mds/store/memory_inode.go:203-240 | move changes one parent link and name; apart from path caches nothing else |
| `NamespaceLaws.RenameRefusals` | internal/mds/service_mutation.go:37-80 | with which error a rename is refused: exact conditions on ids, names and siblings |
| `NamespaceLaws.MoveRefusals` | internal/mds/service_mutation.go:82-139 | with which error a move is refused: the target must be a directory, neither the inode nor below it, and the name free there |
| `NamespaceLaws.NotInThisState` | internal/mds/store/memory_inode.go:203-275 | an inode that is being deleted can be neither renamed nor moved |
| `NamespaceRuns.CreateDirectoryKeeps` | internal/mds/service_directory.go:25-67 | creating a directory keeps the tree consistent |
| `NamespaceRuns.CreateFileKeeps` | internal/mds/service_file.go:29-100 | so does creating a file |
| `NamespaceLaws.DirectoryMade` | internal/mds/service_directory.go:25-67 | a directory is made exactly when its id is new, its parent is a directory and its name free there; its inode is all that changes |
| `NamespaceLaws.FileMade` | internal/mds/service_file.go:29-100 | a file is made exactly when besides its file id is new and no record names its inode; its inode and a pending record of the given size and policy (three replicas, one readable, by default) are all that changes |
| `NamespaceRuns.DeleteFileIsPrune` | internal/mds/service_mutation.go:141-160 | deleting a file removes its inode, record, chunks and sessions, and nothing else |
| `NamespaceLaws.FileRemoved` | internal/mds/service_mutation.go:141-160 | deleting a file succeeds exactly when it is recorded, and takes exactly its inode, record, chunks and sessions |
| `NamespaceLaws.OccupiedFileKept` | internal/mds/store/memory_inode.go:289-301 | not if its inode has something below it |
| `NamespaceRuns.DeleteKeeps` | internal/mds/service_mutation.go:162-189 | deleting a directory keeps the tree consistent |
| `NamespaceLaws.EmptyDirectoryRemoved` | internal/mds/service_mutation.go:162-189 | a directory is deleted on its own exactly when it is not the root and everything in it is deleted; then its inode goes and nothing else. With anything else in it that is a conflict |
| `NamespaceRuns.RecursiveDeleteExact` | internal/mds/service_mutation.go:281-303 | a recursive delete removes exactly the inodes and files at or under the path, with the files' chunks and sessions |
| `NamespaceLaws.SubtreeRemoved` | internal/mds/service_mutation.go:281-303 | a recursive delete is accepted exactly for a directory other than the root, never ends in a conflict, and takes exactly the inodes and files at or under its path with the files' chunks and sessions |
| `NamespaceRuns.RunsKeepWellFormed` | internal/mds/service_mutation.go:37-189 | every run of namespace requests with slash-free names keeps the whole namespace consistent |
| `NamespaceRuns.PathCacheExactInEveryRun` | internal/mds/service_mutation.go:222-279 | from bootstrap on, every cached path is exact, paths are unique, the inodes form a tree and file records mirror their inodes |
| `NamespaceShape.ServeKeepsSturdy` | internal/mds/service_mutation.go:37-189 | any request, with any names, keeps the parent links a rooted tree of directories without cycles, and file records and file inodes paired one to one |
| `NamespaceShape.TreeInEveryRun` | internal/mds/service_mutation.go:37-189 | so does every run of requests |
| `NamespaceShape.TreeFromBootstrap` | internal/mds/service_mutation.go:37-189 | from bootstrap on, in every run, the namespace has that shape |
| `PathCache.CachesKeptIff` | internal/mds/service_mutation.go:37-189 | with any names: an accepted request leaves every cached path and file record exact exactly when it is harmless, a condition on the old state and the request alone: create and delete always, rename and move as below |
| `PathCache.RenameKeptIff` | internal/mds/service_mutation.go:37-80 | a rename exactly when the old name has nothing but slashes before its last slash (or none), and, for a directory, what is below it can be carried along and no other record is caught |
| `PathCache.MoveKeptIff` | internal/mds/service_mutation.go:82-139 | a move exactly when, for a directory, the same holds of what is below it and of all other records |
| `PathCache.PathsExactIff` | internal/mds/store/memory_inode.go:315-337 | the subtree update leaves all inode paths exact exactly when the changed inode's own path is, and each path below it has the old path as a prefix and the slashes at its end stay, or does not and all but those stays |
| `PathCache.RecordsExactIff` | internal/mds/service_mutation.go:256-279 | given that, the file records are exact exactly when the prefix test catches no record outside the directory (or catches it without effect) and the directory's path is not all slashes above a file |
| `PathCache.CarriedIffNoneCaught` | internal/mds/service_mutation.go:337-345 | for paths that do not end in a slash this is: no file record outside the directory has its path or one under it |
| `SlashPaths.RenamedExactIff` | internal/mds/store/memory_helpers.go:162-178 | replacing the base name gives the path the new name spells exactly when the old name is cut at its front |
| `SlashNames.SlashFreeIsHarmless` | internal/mds/service_mutation.go:37-189 | while no name has a slash, every accepted request is harmless |
| `SlashNames.SlashNameCorruptsPath` | internal/mds/service_mutation.go:256-279 | a concrete run with a slash in a name after which a file record and its inode disagree about the path |
| `SlashNames.RenameCutsInside` | internal/mds/store/memory_helpers.go:169-178 | a concrete rename after which an inode's own path is wrong |
| `NamespaceService.IsDescendant` | internal/mds/store/memory_helpers.go:128-137 | the walk up ends and answers exactly whether the candidate lies below the ancestor |
| `NamespaceService.UpdateSubtreePaths` | internal/mds/store/memory_inode.go:315-337 | whatever the order of the visit, exactly the paths below the root of the change are rewritten |
| `NamespaceService.SyncFiles` | internal/mds/service_mutation.go:256-279 | exactly the selected file records get their new path |
| `NamespaceService.Sync` | internal/mds/service_mutation.go:222-236 | the caches after one inode has changed |
| `NamespaceService.DoRename` | internal/mds/service_mutation.go:37-80 | whatever the names, slashes included, the rename transaction commits what the specification says or leaves the repository untouched with its error |
| `NamespaceService.DoMove` | internal/mds/service_mutation.go:82-139 | the same for move |
| `NamespaceDelete.DeleteFileCascade` | internal/mds/service_mutation.go:305-335 | file, inode, chunks and sessions go together |
| `NamespaceDelete.DeleteRecursive` | internal/mds/service_mutation.go:281-303 | whatever the names, the recursion ends, meets no conflict and removes exactly the subtree with everything that belongs to it |
| `NamespaceDelete.DoDeleteDirectory` | internal/mds/service_mutation.go:162-189 | whatever the names, the delete transaction commits what the specification says or leaves the repository untouched with its error |
| `UploadInvariants.ByteInOneChunk` | internal/mds/service_upload.go:759-793 | each byte of a tiled file lies in exactly one chunk, the one of index position / chunk size |
| `UploadInvariants.TilingHasNoGap` | internal/mds/service_upload.go:759-793 | the indices of a tiled file leave no gap, and its stored size is its size |
| `UploadContracts.StartAccepted` | internal/mds/service_upload.go:79-134 | a session starts exactly when its id is new, the file is not being deleted and all its other sessions are completed, failed or expired |
| `UploadContracts.StartLeaves` | internal/mds/service_upload.go:79-134 | it is pending with nothing uploaded and the file's latest; the file takes its size |
| `UploadContracts.CommitAccepted` | internal/mds/service_upload.go:137-230 | a chunk is committed exactly when the request is in order, its session is the file's latest and not completed, it lies on the 4 MiB grid, no other chunk of the file has its index or offset, and it does not reach past the size to reach |
| `UploadContracts.CommitLeaves` | internal/mds/service_upload.go:137-230 | the chunk is recorded as requested with references and policy filled in, the session stands at its end, the file's stored size is where its chunks end |
| `UploadContracts.CommitRefusals` | internal/mds/service_upload.go:137-230 | with which error a commit is refused |
| `UploadContracts.CompleteAccepted` | internal/mds/service_upload.go:233-328 | an upload is completed exactly when its chunks hold every byte of the file and none beyond, none is broken, and the session can go on |
| `UploadContracts.CompleteLeaves` | internal/mds/service_upload.go:233-328 | file, session and chunks wait for verification; a checksum that is verified is kept as such, another one as what to expect |
| `UploadContracts.VerifyAccepted` | internal/mds/service_upload.go:331-427 | an upload is verified exactly when its chunks hold the whole file, every chunk has a verified checksum and at least as many ready replicas as the policy wants readable, never fewer than one, a verified checksum of the file is at hand and every byte is confirmed |
| `UploadContracts.VerifyLeaves` | internal/mds/service_upload.go:331-427 | session completed, chunks and file available, and the file has the verified checksum given now, else the session's |
| `UploadContracts.FailAccepted` | internal/mds/service_upload.go:430-532 | a failure is recorded exactly when the report is in order and the chunk it names, if any, is the file's |
| `UploadContracts.FailLeaves` | internal/mds/service_upload.go:430-532 | the session can be retried exactly when the failure can be and attempts are left, from the start of the failed chunk; file and chunks have failed and the file has no checksum |
| `UploadContracts.RetryAccepted` | internal/mds/service_upload.go:535-625 | a retry is accepted exactly when the session was left to be retried at a place within the file |
| `UploadContracts.RetryLeaves` | internal/mds/service_upload.go:535-625 | exactly the file's chunks from that place on are gone, those before it are persisted, and the session goes on from there after the last of them |
| `UploadContracts.Missed` | internal/mds/service_upload.go:233-625 | an unknown session or file is reported as not found, a wrong file status as a conflict |
| `UploadContracts.NotReadyYet` | internal/mds/service_upload.go:759-835 | chunks that are missing, broken or short of ready replicas or checksums are refused as a conflict |
| `UploadInvariants.CommitKeeps` | internal/mds/service_upload.go:137-230 | committing an own or new chunk keeps the upload invariant: unique slots, exact stored sizes, available files tiled |
| `UploadInvariants.StartKeeps` | internal/mds/service_upload.go:79-134 | starting an upload keeps it |
| `UploadInvariants.CompleteKeeps` | internal/mds/service_upload.go:233-328 | completing an upload keeps it |
| `UploadInvariants.VerifyKeeps` | internal/mds/service_upload.go:331-427 | verifying an upload keeps it |
| `UploadInvariants.FailKeeps` | internal/mds/service_upload.go:430-532 | failing a verification keeps it |
| `UploadInvariants.RetryKeeps` | internal/mds/service_upload.go:535-625 | retrying keeps it |
| `UploadRuns.UploadsStayOk` | internal/mds/service_upload.go:79-625 | every run that mixes uploads and namespace requests keeps the upload invariant |
| `UploadRuns.SessionsKeptIff` | internal/mds/service_upload.go:745-757 | an accepted call keeps `at most one unfinished session per file, and it is the latest` exactly when it does not revive an older session |
| `UploadScenarios.TwoUnfinishedSessions` | internal/mds/service_upload.go:430-532 | four calls after which a file has two unfinished sessions (concrete) |
| `UploadRuns.SessionsStayOk` | internal/mds/service_upload.go:745-757 | over runs that revive only latest sessions this holds in every state |
| `UploadRuns.OneActiveSession` | internal/mds/service_upload.go:745-757 | from bootstrap on, two unfinished sessions of a file are the same session, and it is the one the file names |
| `UploadLaws.AvailableInEveryRun` | internal/mds/service_upload.go:331-427 | in every reachable state an available file is tiled, byte by byte, and its stored size is its size |
| `UploadLaws.FailThenRetry` | internal/mds/service_upload.go:430-625 | after a retryable failure the retry is accepted and resumes at the failed chunk: exactly the chunks before it are kept, all persisted, covering every byte before it |
| `UploadLaws.ForeignCommit` | internal/mds/service_upload.go:137-230 | committing a chunk id of another file keeps stored sizes exact exactly when that chunk was not the only one reaching the other file's stored size |
| `UploadLaws.ForeignTiling` | internal/mds/service_upload.go:137-230 | it leaves available files tiled exactly when the other file is not available, or the chunk is empty and not the file's only one |
| `UploadScenarios.ChunkTakenAway` | internal/mds/service_upload.go:137-230 | four calls after which a file has a stored size and no chunk (concrete) |
| `ReuseScenarios.AvailableFileRobbed` | internal/mds/service_upload.go:137-230 | an available file loses its only chunk to a commit for another file and stays available (concrete) |
| `ChunkLists.CurrentStoredSize` | internal/mds/service_upload.go:731-743 | the largest end of a chunk of the file |
| `ChunkLists.EnsureReadyForVerification` | internal/mds/service_upload.go:759-793 | the loop accepts exactly the lists whose chunks cover every byte of the expected size, reach no further and are readable |
| `UploadService.NormalizeReplicas` | internal/mds/service_upload.go:650-683 | refuses exactly the sets with an empty node id or a foreign reference; otherwise fills the references in |
| `UploadService.DoStartUpload` | internal/mds/service_upload.go:79-134 | the transaction commits what the specification says or leaves the repository untouched with its error |
| `UploadService.DoCommitChunk` | internal/mds/service_upload.go:137-230 | the same for commit |
| `UploadService.DoCompleteUpload` | internal/mds/service_upload.go:233-328 | the same for complete |
| `UploadService.DoVerifyUpload` | internal/mds/service_upload.go:331-427 | the same for verify |
| `UploadService.DoFailVerification` | internal/mds/service_upload.go:430-532 | the same for a failed verification |
| `UploadService.DoRetryUpload` | internal/mds/service_upload.go:535-625 | the same for retry |
| `Parts.PartIdInjective` | internal/gateway/http.go:769-774 | different parts of an upload have different chunk ids |
| `Parts.PartsMakeUp` | internal/gateway/http.go:421-431 | the parts, in order, make up the content |
| `Parts.PartIs` | internal/gateway/http.go:421-431 | up to 4 MiB one part under the base id; else part i is the bytes from i times 4 MiB on, at most 4 MiB, under the base id, a dash and its number |
| `UploadFlow.CommitAccepted` | internal/mds/service_upload.go:137-230 | the commit of the next part is always accepted |
| `UploadFlow.PartsTile` | internal/gateway/http.go:421-431 | the parts tile the file |
| `UploadFlow.FinishAccepted` | internal/gateway/http.go:498-515 | after the last part, complete and verify are accepted, make the file available and change no chunk but its status |
| `GatewayUpload.AllocateUploadTargets` | internal/mds/service_node.go:136-176 | the best nodes that can take a part, as many as the policy asks for or all there are, best first |
| `GatewayLaws.TargetsAreOpen` | internal/mds/service_node.go:136-176 | a part goes to nodes that are up, reachable and not full, the emptiest first, as many as asked for or all there are |
| `GatewayLaws.TargetsHaveRoomIff` | internal/mds/service_node.go:157-160 | all targets have room for the part exactly when as many such nodes have room as there are targets |
| `PlanningScenarios.TargetWithoutRoom` | internal/mds/service_node.go:157-160 | a node with one byte free is the target of a part of any size (concrete) |
| `GatewayLaws.GoesThroughIff` | internal/gateway/http.go:424-496 | a part goes through exactly when some node is up, reachable and not full, the first target stores it and says so, and the copies are answered unless there is no second such node |
| `GatewayLaws.AdmittedIff` | internal/gateway/http.go:358-417 | a file is admitted exactly when it has content, its ids are new, its parent is a directory and its name is free there |
| `GatewayUpload.BuildChunkReplicas` | internal/gateway/http.go:776-822 | a ready primary, a ready secondary exactly for each reported write and a pending one for each other target, with checksum and stored size |
| `GatewayUpload.UploadPart` | internal/gateway/http.go:424-496 | succeeds exactly when the writes go through and the commit is accepted; then the part is committed on its targets. In every case the part's bytes go to exactly the targets the writes reached and no other copy changes; a part that fails leaves the repository as it was |
| `GatewayUpload.PartIsUploadStep` | internal/gateway/http.go:424-496 | a placed part, under a new id or a recorded one, is an upload step of the replica protocol |
| `GatewayUpload.PlacedReadsExactIff` | internal/gateway/http.go:424-496 | after a part is placed every read of it is right or fails exactly when no target the part did not reach held other bytes under its id: what a caller can look up before the call |
| `GatewayUpload.UploadFile` | internal/gateway/http.go:324-532 | an upload succeeds exactly when the metadata service admits the file and every part goes through; then the file is available and every ready replica of every part holds it; every read is right or fails exactly when no target a part did not reach held other bytes under its id, which fresh ids guarantee. Finished or not, it leaves copies and records under other ids alone and every copy under a part's id is the old one or the part; without a slash in the name, and when no part's id is recorded before, it keeps the upload invariant |
| `GatewayUpload.TransferFile` | internal/gateway/http.go:421-515 | the part loop and the finish of an admitted upload, with the same promise |
| `UploadTraces.UploadKeeps` | internal/gateway/http.go:324-532 | a file upload with a new session, wherever it stops, keeps the upload invariant when none of its part ids is recorded before |
| `UploadTraces.OthersUntouched` | internal/gateway/http.go:324-532 | what an upload leaves behind changes no other chunk's copies: ready replicas keep their bytes, and copies agree exactly when they agreed before |
| `GatewayDownload.OrderedReplicaCandidates` | internal/mds/service_read.go:110-146 | every replica's node once: serving replicas first, then by role, then by id |
| `GatewayDownload.CandidateOrderIs` | internal/mds/service_read.go:110-146 | no node that cannot serve is ahead of one that can; among the others primaries, then secondaries, then witnesses; among equals the smaller id |
| `GatewayDownload.OrderedCandidateNodeIds` | internal/gateway/http.go:872-887 | the preferred node first, then the candidates, each node at its first occurrence |
| `GatewayDownload.EachOnce` | internal/gateway/http.go:872-887 | every node listed once, the first one first |
| `GatewayDownload.InOrder` | internal/gateway/http.go:872-887 | in the order of first occurrences |
| `GatewayDownload.AlreadyOrdered` | internal/gateway/http.go:872-887 | a list that starts with its preferred node and repeats nothing stays as it is |
| `GatewayDownload.FetchChunk` | internal/gateway/http.go:842-870 | the bytes of the first candidate that answers, when none before it does; nothing exactly when none does |
| `GatewayDownload.ReadExactIff` | internal/gateway/http.go:842-870 | whatever requests get through, a read of a chunk gives the right bytes or fails, exactly when all copies on its replicas' nodes agree with them |
| `ReuseScenarios.StaleCopy` | internal/gateway/http.go:424-496 | an upload whose first part is written and not answered, then one under the same id that reaches only the primary: a reader gets the bytes that were never committed (concrete) |
| `ReuseScenarios.WrittenOver` | internal/gateway/http.go:424-496 | a write under a recorded id that is never committed replaces the bytes a committed file is read from (concrete) |
| `ReuseScenarios.HalfDeleted` | internal/gateway/http.go:668-710 | a file deletion that stops half-way leaves a ready replica without bytes (concrete) |
| `GatewayDownload.Download` | internal/gateway/http.go:534-597 | for a file stored part by part: the content if every part has a replica that answers, nothing otherwise |
| `RoundTrip.WriteKeepsCopiesIff` | internal/datanode/store.go:82-118 | a write keeps every copy of a chunk right exactly when it is for another id, writes the same bytes or reaches no node |
| `RoundTrip.NeverCorrupted` | internal/gateway/http.go:534-597 | after any run of controllers and other clients, with any failures, in which no client uploads under this file's chunk ids or changes its chunk list, an uploaded file is still stored part by part: a download gives the uploaded content or nothing |
| `RoundTrip.PartStaysHeld` | internal/mds/coordinator/cleanup.go:131-166 | in every run without lost acknowledgements in which no client writes, deletes or drops the part's chunk, the part keeps a ready replica, and its ready replicas its bytes |
| `RoundTrip.AlwaysReadable` | internal/gateway/http.go:534-597 | after any run as for NeverCorrupted without lost acknowledgements and without gateway deletes of its chunks, one ready replica per part on a node that is up is enough for a download to give back the content |
| `Supervisor.HandOver` | internal/mds/coordinator/supervisor.go:31-95 | in every interleaving in which no StartLeading begins while a StopLeading waits, the loops of two generations never run together, and a StopLeading that returned took a generation that has ended |
| `Supervisor.EarlyStartOverlaps` | internal/mds/coordinator/supervisor.go:31-95 | the condition is exact: a StartLeading that begins while a StopLeading waits can be followed by two generations running together |
| `Supervisor.TwoGenerationsRun` | internal/mds/coordinator/supervisor.go:31-95 | the shortest such run from the start (concrete) |
| `Supervisor.OldestCanRun` | internal/mds/coordinator/supervisor.go:31-71 | the oldest generation that has not ended runs or can be spawned at once |
| `Supervisor.NoDeadlock` | internal/mds/coordinator/supervisor.go:31-95 | however StartLeading and StopLeading calls were interleaved, orderly or not, all loops can still end and all calls return without a further call |

## Left out

- Queue mode: publishing repair, failover, rebalance and clean-up tasks to RabbitMQ and executing
  them from there (`Execute*`). Only whether a planning task could be published is modelled.
- The read cache and its warm-up, and stale reads through it.
- The PostgreSQL repository; only the in-memory repository is modelled.
- Interleaving of two transactions: the in-memory repository runs each under one lock, so
  transactions are atomic steps here. Reads of a controller between its transactions see no other
  writer within one pass.
- gRPC, HTTP, JSON and base64 encoding, configuration, metrics and logs.
- Leader election in etcd; the supervisor is driven by any sequence of its two calls.
- SHA-256: a parameter, nothing is proved about it. The data node's check of a checksum on PUT.
- The file layout of the data node's store, and its atomic writes.
- Timestamps other than those the logic reads, content types, storage classes, labels, zones, the
  retry time of a plan, error codes and messages.
- 64-bit overflow: sizes and times are unbounded integers. Usage ratios are real numbers, not
  floating point.
- Addresses: a node is reached by its id; that two nodes could share an address is not modelled.
- The order in which a controller visits the files.
- CreateDirectory, CreateFile and DeleteFile are modelled on values only: they have no loops of
  their own, and in-place update would add nothing to what is stated about them.
- The gateway's handler for file deletion: its deletes of chunk copies and the transaction that drops
  the records are steps of runs, in any order and number, but its loop is not modelled.
- The gateway's directory listing; RegisterNode and HeartbeatNode beyond
  `any valid node record replaces the old one`.
- GatewayUpload.UploadFile: that it keeps the upload invariant is stated for names without a slash,
  because the invariant includes exact path caches, which a slash can break; the other promises hold
  for any name.
- Repairer.PendingReplicaRepairer.RepairOnce: a turn is an attempt at the first due replicas of a
  chunk, as many as the budget left at that moment, not at every due replica. The source promises no
  more: the due list is cut by the remaining budget, but only requests actually sent are charged to
  it, so a pass can end with budget left and due replicas passed over.

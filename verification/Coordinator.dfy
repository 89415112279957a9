/** One decision of each background controller, as a function on the world:
    failover planning, rebalance planning, repair of one chunk, clean-up of one plan.

    The environment's choices (which copies and deletes go through, which acknowledgements
    arrive, whether a task could be published) are parameters, so quantifying over the
    parameters quantifies over everything the environment may do. */
module Coordinator {
  import opened Wrappers
  import opened Metadata
  import opened Strings
  import opened Placement
  import opened ReplicaStore

  /** The repository together with what every data node has on disk. */
  datatype World = World(db: State, disks: map<NodeId, map<ChunkId, Bytes>>)

  function Disk(w: World, node: NodeId): map<ChunkId, Bytes> {
    if node in w.disks then w.disks[node] else map[]
  }

  function ReadyNodes(replicas: ReplicaSet): set<NodeId> {
    set n | n in replicas && replicas[n].state == Ready
  }

  function PendingNodes(replicas: ReplicaSet): set<NodeId> {
    set n | n in replicas && replicas[n].state == Pending
  }

  function NodeSet(s: State): set<Node> {
    set id | id in s.nodes :: s.nodes[id]
  }

  // ---------------------------------------------------------------- placement input

  function EffectiveReady(chunk: Chunk, nodes: map<NodeId, Node>): set<NodeId> {
    set n | n in chunk.replicas && chunk.replicas[n].state == Ready && n in nodes && nodes[n].healthy
  }

  /** The largest stored size among ready replicas, 0 if there is none above 0. */
  ghost function MaxReadyStored(replicas: ReplicaSet): (m: int)
    ensures m >= 0
    ensures forall n :: n in replicas && replicas[n].state == Ready ==> replicas[n].storedSize <= m
    ensures m == 0 || exists n :: n in replicas && replicas[n].state == Ready && replicas[n].storedSize == m
  {
    if replicas == map[] then 0
    else
      var n :| n in replicas;
      var rest := MaxReadyStored(replicas - {n});
      assert forall k :: k in replicas <==> k == n || k in replicas - {n};
      if replicas[n].state == Ready && replicas[n].storedSize > rest then replicas[n].storedSize else rest
  }

  ghost function RequiredBytes(chunk: Chunk): int {
    var m := MaxReadyStored(chunk.replicas);
    if m > 0 then m else if chunk.size > 0 then chunk.size else 0
  }

  /** `target` is what SelectPlacementTargets returns when asked for one node. */
  ghost predicate IsBestTarget(candidates: set<Node>, chunk: Chunk, target: NodeId) {
    exists n :: n in candidates && n.id == target
                && IsPlacement(candidates, chunk.replicas.Keys, RequiredBytes(chunk), 1, [n])
  }

  // ---------------------------------------------------------------- planning

  function ActivePlans(s: State, chunk: ChunkId, kinds: set<PlanType>): set<PlanId> {
    set id | id in s.plans && s.plans[id].chunkId == chunk && s.plans[id].kind in kinds
             && !Terminal(s.plans[id].state)
  }

  predicate Unavailable(node: Node, now: int, nodeTimeout: int) {
    || !node.healthy
    || (nodeTimeout > 0 && (node.lastSeenAt.None? || now - node.lastSeenAt.value > nodeTimeout))
  }

  function FailoverDesired(chunk: Chunk, file: File): int {
    if chunk.policy.desired > 0 then chunk.policy.desired
    else if file.policy.desired > 0 then file.policy.desired
    else DEFAULT_REPLICA_COUNT
  }

  function RebalanceDesired(chunk: Chunk): int {
    if chunk.policy.desired > 0 then chunk.policy.desired else DEFAULT_REPLICA_COUNT
  }

  function UsageRatio(node: Node): real {
    if node.capacity <= 0 then 1.0 else node.used as real / node.capacity as real
  }

  predicate Overfull(node: Node, high: real) {
    node.healthy && UsageRatio(node) >= high
  }

  predicate Underfull(node: Node, high: real, low: real) {
    node.healthy && UsageRatio(node) < high && UsageRatio(node) <= low
  }

  function UnderfullNodes(s: State, high: real, low: real): set<Node> {
    set n | n in NodeSet(s) && Underfull(n, high, low)
  }

  function Stamp(now: int): string {
    if now < 0 then "-" + Decimal(-now) else Decimal(now)
  }

  ghost function NewPlan(kind: PlanType, chunk: Chunk, source: NodeId, target: NodeId, now: int): Plan {
    Plan((if kind == Failover then "failover-" else "rebalance-") + chunk.id + "-" + target + "-" + Stamp(now),
         kind, chunk.id, chunk.fileId, source, target, RequiredBytes(chunk), Materialized, 0, now)
  }

  function PendingReplica(chunk: Chunk, target: NodeId, role: ReplicaRole): Replica {
    Replica(target, chunk.fileId, chunk.id, role, Pending, EMPTY_CHECKSUM, 0)
  }

  function PlanPatch(chunk: Chunk, target: NodeId, role: ReplicaRole): ReplicaPatch {
    var count := |chunk.replicas| + 1;
    var desired := if chunk.policy.desired <= 0 then DEFAULT_REPLICA_COUNT else chunk.policy.desired;
    ReplicaPatch(map[target := PendingReplica(chunk, target, role)], {}, Some(count),
                 Some(chunk.policy.(desired := desired, current := count)))
  }

  /** The planning transaction goes through. */
  predicate MayPlan(s: State, plan: Plan, chunk: Chunk) {
    PlanRefused(s, plan).None? && chunk.id in s.chunks
  }

  function WithPlansAndChunk(s: State, plans: map<PlanId, Plan>, id: ChunkId, chunk: Chunk): State {
    s.(plans := plans, chunks := s.chunks[id := chunk])
  }

  /** The planning transaction: record the plan and add a pending replica on its target. */
  function Materialize(s: State, plan: Plan, chunk: Chunk, role: ReplicaRole): State
    requires chunk.id in s.chunks
  {
    WithPlansAndChunk(s, s.plans[plan.id := plan], chunk.id,
                      Patched(s.chunks[chunk.id], PlanPatch(chunk, plan.target, role)))
  }

  function RollbackPatch(chunk: Chunk, target: NodeId): ReplicaPatch {
    var count := |chunk.replicas|;
    ReplicaPatch(map[], {target}, Some(count), Some(chunk.policy.(current := count)))
  }

  /** Undo of `Materialize` when the task could not be published; `chunk` is the chunk as
      it was before planning. */
  function Rollback(s: State, plan: Plan, chunk: Chunk): State
    requires chunk.id in s.chunks
  {
    WithPlansAndChunk(s, s.plans - {plan.id}, chunk.id,
                      Patched(s.chunks[chunk.id], RollbackPatch(chunk, plan.target)))
  }

  /** The records after planning: `allowed` says whether the planning transaction went through,
      `published` whether its task could then be published. */
  function PlanOutcome(s: State, plan: Plan, chunk: Chunk, role: ReplicaRole, allowed: bool, published: bool): State
    requires allowed ==> chunk.id in s.chunks
  {
    if !allowed then s
    else if published then Materialize(s, plan, chunk, role)
    else Rollback(Materialize(s, plan, chunk, role), plan, chunk)
  }

  function PlanAndPublish(s: State, plan: Plan, chunk: Chunk, role: ReplicaRole, published: bool): State {
    PlanOutcome(s, plan, chunk, role, MayPlan(s, plan, chunk), published)
  }

  ghost predicate CanFailover(s: State, chunk: ChunkId, failed: NodeId, target: NodeId, now: int, nodeTimeout: int) {
    && failed in s.nodes && Unavailable(s.nodes[failed], now, nodeTimeout)
    && chunk in s.chunks && failed in s.chunks[chunk].replicas
    && s.chunks[chunk].fileId in s.files
    && |EffectiveReady(s.chunks[chunk], s.nodes)| < FailoverDesired(s.chunks[chunk], s.files[s.chunks[chunk].fileId])
    && ActivePlans(s, chunk, {Failover}) == {}
    && IsBestTarget(NodeSet(s), s.chunks[chunk], target)
  }

  ghost function PlanFailover(s: State, chunk: ChunkId, failed: NodeId, target: NodeId, now: int, nodeTimeout: int,
                              published: bool): State {
    if !CanFailover(s, chunk, failed, target, now, nodeTimeout) then s
    else
      var c := s.chunks[chunk];
      var role := if |c.replicas| == 0 then Primary else Secondary;
      PlanAndPublish(s, NewPlan(Failover, c, failed, target, now), c, role, published)
  }

  ghost predicate CanRebalance(s: State, chunk: ChunkId, source: NodeId, target: NodeId, high: real, low: real) {
    && source in s.nodes && Overfull(s.nodes[source], high)
    && chunk in s.chunks && source in s.chunks[chunk].replicas
    && ActivePlans(s, chunk, {Failover, Rebalance}) == {}
    && |EffectiveReady(s.chunks[chunk], s.nodes)| >= RebalanceDesired(s.chunks[chunk])
    && IsBestTarget(UnderfullNodes(s, high, low), s.chunks[chunk], target)
  }

  ghost function PlanRebalance(s: State, chunk: ChunkId, source: NodeId, target: NodeId, now: int, high: real,
                               low: real, published: bool): State {
    if !CanRebalance(s, chunk, source, target, high, low) then s
    else
      var c := s.chunks[chunk];
      PlanAndPublish(s, NewPlan(Rebalance, c, source, target, now), c, Secondary, published)
  }

  // ---------------------------------------------------------------- repair

  /** What happens to one replicate request: whether its response reaches the repairer,
      which targets the bytes reach, and which of those are reported as ready. */
  datatype Net = Net(responded: bool, delivered: set<NodeId>, acked: set<NodeId>)

  /** A ready primary if there is one, else the ready replica with the smallest node id. */
  predicate IsRepairSource(replicas: ReplicaSet, source: NodeId) {
    var ready := ReadyNodes(replicas);
    && source in ready
    && (replicas[source].role == Primary
        || forall n :: n in ready ==> replicas[n].role != Primary && (n == source || Less(source, n)))
  }

  /** The due replicas that are actually sent to: known, addressable and with free space. */
  function Dispatched(s: State, due: set<NodeId>): set<NodeId> {
    set n | n in due && n in s.nodes && Eligible(s.nodes[n], {}, 0)
  }

  predicate CanCopy(w: World, chunk: ChunkId, source: NodeId, due: set<NodeId>) {
    && chunk in w.db.chunks
    && IsRepairSource(w.db.chunks[chunk].replicas, source)
    && due <= PendingNodes(w.db.chunks[chunk].replicas)
    && source in w.db.nodes && !Blank(w.db.nodes[source].address)
    && due <= w.db.nodes.Keys
    && Dispatched(w.db, due) != {}
    && chunk in Disk(w, source)
  }

  function CopyBytes(disks: map<NodeId, map<ChunkId, Bytes>>, chunk: ChunkId, data: Bytes, targets: set<NodeId>)
    : map<NodeId, map<ChunkId, Bytes>>
  {
    map n | n in disks.Keys + targets ::
      var disk := if n in disks then disks[n] else map[];
      if n in targets then disk[chunk := data] else disk
  }

  function RepairedReplica(chunk: Chunk, node: NodeId, ready: bool): Replica
    requires node in chunk.replicas
  {
    var before := chunk.replicas[node];
    Replica(node, chunk.fileId, chunk.id, Secondary, if ready then Ready else Pending, chunk.checksum,
            if ready then chunk.size else before.storedSize)
  }

  /** Repair of one chunk: the source sends its bytes to the dispatched targets; if it
      answers, acknowledged targets become ready and every other due replica stays pending. */
  function RepairChunk(w: World, chunk: ChunkId, source: NodeId, due: set<NodeId>, net: Net): World {
    if !CanCopy(w, chunk, source, due) then w
    else
      var c := w.db.chunks[chunk];
      var targets := Dispatched(w.db, due);
      var disks := CopyBytes(w.disks, chunk, Disk(w, source)[chunk], targets * net.delivered);
      if !net.responded then World(w.db, disks)
      else
        var done := targets * net.delivered * net.acked;
        var upserts := map n | n in due :: RepairedReplica(c, n, n in done);
        World(w.db.(chunks := w.db.chunks[chunk :=
                Patched(c, ReplicaPatch(upserts, {}, Some(|c.replicas|), None))]),
              disks)
  }

  // ---------------------------------------------------------------- clean-up

  /** The outcome of the DELETE sent to a rebalance source: carried out and acknowledged,
      not carried out, or carried out with the acknowledgement lost. */
  datatype Delete = Acknowledged | NotDone | AckLost

  predicate Finalizable(s: State, id: PlanId) {
    && id in s.plans
    && (s.plans[id].kind == Failover || s.plans[id].kind == Rebalance)
    && (s.plans[id].state == Materialized || s.plans[id].state == CopyReady || s.plans[id].state == CleanupReady)
    && s.plans[id].chunkId in s.chunks
    && s.plans[id].target in s.chunks[s.plans[id].chunkId].replicas
    && s.chunks[s.plans[id].chunkId].replicas[s.plans[id].target].state == Ready
  }

  /** One transaction: drop the source replica and mark the plan done. */
  function FinishPlan(s: State, plan: Plan): Result<State> {
    if plan.chunkId !in s.chunks || plan.source !in s.chunks[plan.chunkId].replicas || plan.id !in s.plans
    then Err(NotFound)
    else Ok(WithPlanState(s.(chunks := s.chunks[plan.chunkId := Without(s.chunks[plan.chunkId], plan.source)]),
                          plan.id, Done))
  }

  function FailOrRetry(s: State, plan: Plan): State {
    if plan.id in s.plans then WithRetryCount(s, plan.id, plan.retryCount + 1) else s
  }

  function DropFromDisk(disks: map<NodeId, map<ChunkId, Bytes>>, node: NodeId, chunk: ChunkId)
    : map<NodeId, map<ChunkId, Bytes>>
  {
    if node in disks then disks[node := disks[node] - {chunk}] else disks
  }

  /** The source replica may be dropped: always for a failover plan (its node is lost), for a
      rebalance plan only once the source has acknowledged deleting the bytes.  A node that
      does not hold the chunk answers 404, which counts as a failed delete. */
  predicate SourceReleased(w: World, plan: Plan, del: Delete) {
    || plan.kind == Failover
    || (plan.source in w.db.nodes && plan.chunkId in Disk(w, plan.source) && del == Acknowledged)
  }

  function FinalizeRecords(s: State, plan: Plan, released: bool): State {
    if released && FinishPlan(s, plan).Ok? then FinishPlan(s, plan).value
    else if plan.kind == Failover then s
    else FailOrRetry(s, plan)
  }

  /** Clean-up of one plan: nothing until its target is ready, then the source goes. */
  function FinalizePlan(w: World, id: PlanId, del: Delete): World {
    if !Finalizable(w.db, id) then w
    else
      var plan := w.db.plans[id];
      World(FinalizeRecords(w.db, plan, SourceReleased(w, plan, del)),
            if plan.kind == Rebalance && plan.source in w.db.nodes && del != NotDone
            then DropFromDisk(w.disks, plan.source, plan.chunkId) else w.disks)
  }
}

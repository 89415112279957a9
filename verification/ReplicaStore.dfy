/** The repository operations on replica sets and replica plans
    (internal/mds/store/memory_plan.go and the replica half of memory_chunk.go),
    as functions from one state to the next. */
module ReplicaStore {
  import opened Wrappers
  import opened Metadata
  import opened Strings

  predicate Terminal(state: PlanState) {
    state == Done || state == PlanFailed
  }

  predicate SameActiveTarget(existing: Plan, plan: Plan) {
    && existing.kind == plan.kind
    && existing.chunkId == plan.chunkId
    && existing.target == plan.target
    && !Terminal(existing.state)
  }

  predicate WellFormedPlan(plan: Plan) {
    && !Blank(plan.id)
    && plan.chunkId != "" && plan.fileId != ""
    && plan.source != "" && plan.target != ""
    && plan.source != plan.target
    && plan.requiredBytes >= 0
  }

  /** Why the store turns a new plan down, if it does. */
  function PlanRefused(s: State, plan: Plan): Option<StoreError> {
    if !WellFormedPlan(plan) then Some(InvalidArgument)
    else if plan.id in s.plans then Some(AlreadyExists)
    else if exists id :: id in s.plans && SameActiveTarget(s.plans[id], plan) then Some(AlreadyExists)
    else None
  }

  function WithPlanState(s: State, id: PlanId, state: PlanState): State
    requires id in s.plans
  {
    s.(plans := s.plans[id := s.plans[id].(state := state)])
  }

  function WithRetryCount(s: State, id: PlanId, retryCount: int): State
    requires id in s.plans
  {
    s.(plans := s.plans[id := s.plans[id].(retryCount := retryCount)])
  }

  /** ChunkReplicaPatch: upserts first, then removals, then the recorded count and policy. */
  datatype ReplicaPatch = ReplicaPatch(
    upserts: ReplicaSet,
    removals: set<NodeId>,
    replicaCount: Option<int>,
    policy: Option<ReplicaPolicy>)

  function Patched(chunk: Chunk, patch: ReplicaPatch): Chunk {
    var replicas := (chunk.replicas + patch.upserts) - patch.removals;
    chunk.(replicas := replicas,
           replicaCount := if patch.replicaCount.Some? then patch.replicaCount.value else |replicas|,
           policy := if patch.policy.Some? then patch.policy.value else chunk.policy)
  }

  function Without(chunk: Chunk, node: NodeId): Chunk {
    var replicas := chunk.replicas - {node};
    chunk.(replicas := replicas, replicaCount := |replicas|)
  }
}

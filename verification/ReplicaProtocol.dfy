/** The replica-plan protocol as a step system, and what every run of it guarantees.

    Several plans may overlap on one chunk: failover planning ignores active rebalance
    plans, and the target of one plan may be the source of another.  The guarantees
    therefore rest on counting, not on any one plan. */
module ReplicaProtocol {
  import opened Wrappers
  import opened Metadata
  import opened Placement
  import opened Sorting
  import opened ReplicaStore
  import opened Coordinator

  datatype Action =
    | FailoverAction(chunk: ChunkId, failed: NodeId, target: NodeId, now: int, nodeTimeout: int, published: bool)
    | RebalanceAction(chunk: ChunkId, source: NodeId, target: NodeId, now: int, high: real, low: real, published: bool)
    | RepairAction(chunk: ChunkId, source: NodeId, due: set<NodeId>, net: Net)
    | CleanupAction(plan: PlanId, del: Delete)
    | NodeReport(node: Node)                 // registration or heartbeat
    | UploadAction(record: Chunk, data: Bytes, nodes: set<NodeId>, committed: bool, db: State)
    | EraseAction(chunk: ChunkId, nodes: set<NodeId>)      // deletes sent for a file that is to go
    | OtherTransaction(db: State)            // any other transaction: it may drop chunks, and leaves the rest alone

  /** A client may have the record of a part committed whose bytes are on `nodes`, under any id:
      only nodes that were written to are ready. */
  predicate CanCommit(s: State, record: Chunk, nodes: set<NodeId>, db: State) {
    && db.plans == s.plans && db.nodes == s.nodes
    && db.chunks == s.chunks[record.id := record]
    && ReadyNodes(record.replicas) <= nodes
    && record.replicaCount == |record.replicas|
  }

  predicate SameReplication(s: State, db: State) {
    && db.plans == s.plans && db.nodes == s.nodes
    && db.chunks.Keys <= s.chunks.Keys
    && forall c :: c in db.chunks ==>
         && db.chunks[c].id == s.chunks[c].id
         && db.chunks[c].replicas == s.chunks[c].replicas
         && db.chunks[c].replicaCount == s.chunks[c].replicaCount
  }

  function Erased(disks: map<NodeId, map<ChunkId, Bytes>>, chunk: ChunkId, nodes: set<NodeId>)
    : map<NodeId, map<ChunkId, Bytes>>
  {
    map n | n in disks :: if n in nodes then disks[n] - {chunk} else disks[n]
  }

  /** Bytes reach the disks whether or not their record is committed then, and a data node does
      not ask whether the id is in use. */
  ghost function Step(w: World, a: Action): World {
    match a
    case FailoverAction(chunk, failed, target, now, nodeTimeout, published) =>
      World(PlanFailover(w.db, chunk, failed, target, now, nodeTimeout, published), w.disks)
    case RebalanceAction(chunk, source, target, now, high, low, published) =>
      World(PlanRebalance(w.db, chunk, source, target, now, high, low, published), w.disks)
    case RepairAction(chunk, source, due, net) => RepairChunk(w, chunk, source, due, net)
    case CleanupAction(plan, del) => FinalizePlan(w, plan, del)
    case NodeReport(node) =>
      if node.id == "" || node.capacity < 0 || node.used < 0 then w
      else World(w.db.(nodes := w.db.nodes[node.id := node]), w.disks)
    case UploadAction(record, data, nodes, committed, db) =>
      World(if committed && CanCommit(w.db, record, nodes, db) then db else w.db,
            CopyBytes(w.disks, record.id, data, nodes))
    case EraseAction(chunk, nodes) => World(w.db, Erased(w.disks, chunk, nodes))
    case OtherTransaction(db) => if SameReplication(w.db, db) then World(db, w.disks) else w
  }

  ghost function Run(w: World, actions: seq<Action>): World
    decreases |actions|
  {
    if actions == [] then w else Run(Step(w, actions[0]), actions[1..])
  }

  lemma {:induction false} RunAppend(w: World, xs: seq<Action>, ys: seq<Action>)
    ensures Run(w, xs + ys) == Run(Run(w, xs), ys)
    decreases |xs|
  {
    if xs == [] {
      assert xs + ys == ys;
    } else {
      assert (xs + ys)[0] == xs[0] && (xs + ys)[1..] == xs[1..] + ys;
      RunAppend(Step(w, xs[0]), xs[1..], ys);
    }
  }

  // ---------------------------------------------------------------- vocabulary

  /** Records are filed under their own ids. */
  predicate Keyed(s: State) {
    && (forall c :: c in s.chunks ==> s.chunks[c].id == c)
    && (forall p :: p in s.plans ==> s.plans[p].id == p)
    && (forall n :: n in s.nodes ==> s.nodes[n].id == n)
  }

  type Plans = map<PlanId, Plan>

  function Active(plans: Plans, chunk: ChunkId): set<PlanId> {
    set id | id in plans && plans[id].chunkId == chunk && !Terminal(plans[id].state)
  }

  predicate Awaited(plans: Plans, chunk: ChunkId, node: NodeId) {
    exists id :: id in Active(plans, chunk) && plans[id].target == node
  }

  /** Replicas that are not ready and that no active plan is going to make ready. */
  function Unattended(plans: Plans, chunk: ChunkId, replicas: ReplicaSet): set<NodeId> {
    set n | n in replicas && replicas[n].state != Ready && !Awaited(plans, chunk, n)
  }

  function Slack(plans: Plans, chunk: ChunkId, replicas: ReplicaSet): int {
    |replicas| - |Active(plans, chunk)|
  }

  function Replicas(s: State, chunk: ChunkId): ReplicaSet {
    if chunk in s.chunks then s.chunks[chunk].replicas else map[]
  }

  function ReadyCount(s: State, chunk: ChunkId): nat {
    |ReadyNodes(Replicas(s, chunk))|
  }

  predicate CountsExact(s: State) {
    forall c :: c in s.chunks ==> s.chunks[c].replicaCount == |s.chunks[c].replicas|
  }

  predicate Sound(s: State) {
    Keyed(s) && CountsExact(s)
  }

  /** What a step may do to the replicas and plans of one chunk. */
  predicate Balanced(plans: Plans, r: ReplicaSet, plans': Plans, r': ReplicaSet, chunk: ChunkId) {
    && Slack(plans', chunk, r') == Slack(plans, chunk, r)
    && Unattended(plans', chunk, r') <= Unattended(plans, chunk, r)
  }

  predicate Conserves(s: State, t: State, chunk: ChunkId) {
    && chunk in s.chunks && chunk in t.chunks
    && Balanced(s.plans, Replicas(s, chunk), t.plans, Replicas(t, chunk), chunk)
  }

  // ---------------------------------------------------------------- the elementary changes

  lemma MapSize<K, V>(m: map<K, V>)
    ensures |m| == |m.Keys|
  {
  }

  /** Same active plans and replica nodes, and no ready replica is demoted. */
  lemma PromotionBalanced(plans: Plans, r: ReplicaSet, plans': Plans, r': ReplicaSet, chunk: ChunkId)
    requires Active(plans', chunk) == Active(plans, chunk)
    requires forall id :: id in Active(plans, chunk) ==> plans'[id].target == plans[id].target
    requires r'.Keys == r.Keys
    requires ReadyNodes(r) <= ReadyNodes(r')
    ensures Balanced(plans, r, plans', r', chunk)
  {
    MapSize(r);
    MapSize(r');
    forall n | n in Unattended(plans', chunk, r') ensures n in Unattended(plans, chunk, r) {
      assert n !in ReadyNodes(r);
      assert forall id :: id in Active(plans, chunk) ==> id in Active(plans', chunk) && plans[id].target != n;
    }
  }

  /** One more active plan, and one more replica on its target. */
  lemma PlanBalanced(plans: Plans, r: ReplicaSet, plan: Plan, replica: Replica)
    requires plan.id !in plans && plan.target !in r && !Terminal(plan.state)
    ensures Balanced(plans, r, plans[plan.id := plan], r[plan.target := replica], plan.chunkId)
  {
    PlanAwaited(plans, plan);
    SizeOfAdded(r, plan.target, replica);
    NotMoreUnattended(plans, r, plans[plan.id := plan], plan.chunkId, plan.target, replica);
  }

  lemma NotMoreUnattended(plans: Plans, r: ReplicaSet, plans': Plans, chunk: ChunkId, target: NodeId, replica: Replica)
    requires Awaited(plans', chunk, target)
    requires forall n :: Awaited(plans, chunk, n) ==> Awaited(plans', chunk, n)
    ensures Unattended(plans', chunk, r[target := replica]) <= Unattended(plans, chunk, r)
  {
  }

  lemma SizeOfAdded<K, V>(m: map<K, V>, k: K, v: V)
    requires k !in m
    ensures |m[k := v]| == |m| + 1
  {
    assert m[k := v].Keys == m.Keys + {k};
    MapSize(m);
    MapSize(m[k := v]);
  }

  lemma PlanAwaited(plans: Plans, plan: Plan)
    requires plan.id !in plans && !Terminal(plan.state)
    ensures var plans', chunk := plans[plan.id := plan], plan.chunkId;
            && Active(plans', chunk) == Active(plans, chunk) + {plan.id}
            && Awaited(plans', chunk, plan.target)
            && forall n :: Awaited(plans, chunk, n) ==> Awaited(plans', chunk, n)
  {
    var plans', chunk := plans[plan.id := plan], plan.chunkId;
    assert Active(plans', chunk) == Active(plans, chunk) + {plan.id};
    assert plan.id in Active(plans', chunk) && plans'[plan.id].target == plan.target;
    forall n | Awaited(plans, chunk, n) ensures Awaited(plans', chunk, n) {
      var id :| id in Active(plans, chunk) && plans[id].target == n;
      assert id in Active(plans', chunk) && plans'[id].target == n;
    }
  }

  /** One active plan ends with its target ready, and its source replica goes. */
  lemma FinishBalanced(plans: Plans, r: ReplicaSet, id: PlanId)
    requires id in plans && !Terminal(plans[id].state)
    requires plans[id].target in r && r[plans[id].target].state == Ready
    requires plans[id].source in r
    ensures Balanced(plans, r, plans[id := plans[id].(state := Done)], r - {plans[id].source}, plans[id].chunkId)
  {
    var plan := plans[id];
    var plans', r', chunk := plans[id := plan.(state := Done)], r - {plan.source}, plan.chunkId;
    assert Active(plans', chunk) == Active(plans, chunk) - {id};
    assert r'.Keys == r.Keys - {plan.source};
    MapSize(r);
    MapSize(r');
    forall n | n in Unattended(plans', chunk, r') ensures n in Unattended(plans, chunk, r) {
      assert n != plan.target;
      assert forall k :: k in Active(plans, chunk) && k != id ==> k in Active(plans', chunk) && plans[k].target != n;
    }
  }

  /** Nothing about this chunk's active plans or replicas changes. */
  lemma UntouchedBalanced(plans: Plans, r: ReplicaSet, plans': Plans, chunk: ChunkId)
    requires forall id :: id in plans' && plans'[id].chunkId == chunk && !Terminal(plans'[id].state)
                          <==> id in plans && plans[id].chunkId == chunk && !Terminal(plans[id].state)
    requires forall id :: id in Active(plans, chunk) ==> plans'[id].target == plans[id].target
    ensures Balanced(plans, r, plans', r, chunk)
  {
    assert Active(plans', chunk) == Active(plans, chunk);
    PromotionBalanced(plans, r, plans', r, chunk);
  }

  // ---------------------------------------------------------------- what one step can change

  /** The ways in which one step can change the plan and replica records. */
  datatype Change =
    | Untouched
    | ChunkPut(record: Chunk)
    | ChunksDropped(gone: set<ChunkId>)
    | PlanAdded(plan: Plan, replica: Replica)
    | Promoted(chunk: ChunkId)
    | PlanFinished(id: PlanId)
    | PlanRetried(id: PlanId, retries: int)

  /** A client gives the chunk a new record, or drops it. */
  predicate Replaces(change: Change, c: ChunkId) {
    (change.ChunkPut? && change.record.id == c) || (change.ChunksDropped? && c in change.gone)
  }

  /** Only `chunk` changes, and its count matches its new replicas. */
  predicate ChunkBecomes(s: map<ChunkId, Chunk>, t: map<ChunkId, Chunk>, chunk: ChunkId, replicas: ReplicaSet) {
    && chunk in s && chunk in t
    && t == s[chunk := t[chunk]]
    && t[chunk].id == chunk && t[chunk].replicas == replicas && t[chunk].replicaCount == |replicas|
  }

  predicate ReplicasKept(s: map<ChunkId, Chunk>, t: map<ChunkId, Chunk>) {
    && t.Keys == s.Keys
    && forall c :: c in s ==>
         t[c].id == s[c].id && t[c].replicas == s[c].replicas && t[c].replicaCount == s[c].replicaCount
  }

  predicate NodesKept(s: map<NodeId, Node>, t: map<NodeId, Node>) {
    forall n :: n in t ==> t[n].id == n || (n in s && t[n] == s[n])
  }

  predicate Becomes(s: State, t: State, change: Change) {
    && NodesKept(s.nodes, t.nodes)
    && match change
       case Untouched => t.plans == s.plans && ReplicasKept(s.chunks, t.chunks)
       case ChunkPut(record) =>
         && t.plans == s.plans && record.replicaCount == |record.replicas|
         && t.chunks == s.chunks[record.id := record]
       case ChunksDropped(gone) => t.plans == s.plans && ReplicasKept(s.chunks - gone, t.chunks)
       case PlanAdded(plan, replica) =>
         && plan.id !in s.plans && plan.state == Materialized && replica.state == Pending
         && plan.chunkId in s.chunks && plan.target !in s.chunks[plan.chunkId].replicas
         && t.plans == s.plans[plan.id := plan]
         && ChunkBecomes(s.chunks, t.chunks, plan.chunkId, s.chunks[plan.chunkId].replicas[plan.target := replica])
       case Promoted(chunk) =>
         && t.plans == s.plans
         && chunk in s.chunks && chunk in t.chunks
         && ChunkBecomes(s.chunks, t.chunks, chunk, t.chunks[chunk].replicas)
         && t.chunks[chunk].replicas.Keys == s.chunks[chunk].replicas.Keys
         && ReadyNodes(s.chunks[chunk].replicas) <= ReadyNodes(t.chunks[chunk].replicas)
       case PlanFinished(id) =>
         && id in s.plans && !Terminal(s.plans[id].state) && s.plans[id].chunkId in s.chunks
         && var plan, r := s.plans[id], s.chunks[s.plans[id].chunkId].replicas;
            && plan.source in r && plan.target in r && r[plan.target].state == Ready
            && t.plans == s.plans[id := plan.(state := Done)]
            && ChunkBecomes(s.chunks, t.chunks, plan.chunkId, r - {plan.source})
       case PlanRetried(id, retries) =>
         && id in s.plans
         && t.plans == s.plans[id := s.plans[id].(retryCount := retries)]
         && t.chunks == s.chunks
  }

  // ---------------------------------------------------------------- planning

  lemma PatchedReplicas(c: Chunk, target: NodeId, role: ReplicaRole)
    ensures Patched(c, PlanPatch(c, target, role)).replicas == c.replicas[target := PendingReplica(c, target, role)]
    ensures Patched(c, PlanPatch(c, target, role)).replicaCount == |c.replicas| + 1
  {
  }

  lemma PatchedChunk(chunks: map<ChunkId, Chunk>, chunk: ChunkId, target: NodeId, role: ReplicaRole)
    requires chunk in chunks && chunks[chunk].id == chunk && target !in chunks[chunk].replicas
    ensures ChunkBecomes(chunks, chunks[chunk := Patched(chunks[chunk], PlanPatch(chunks[chunk], target, role))], chunk,
                         chunks[chunk].replicas[target := PendingReplica(chunks[chunk], target, role)])
  {
    PatchedReplicas(chunks[chunk], target, role);
    SizeOfAdded(chunks[chunk].replicas, target, PendingReplica(chunks[chunk], target, role));
  }

  lemma RollbackPatched(c: Chunk, target: NodeId, role: ReplicaRole)
    requires target !in c.replicas
    requires c.replicaCount == |c.replicas|
    ensures Patched(Patched(c, PlanPatch(c, target, role)), RollbackPatch(c, target))
            == c.(policy := c.policy.(current := |c.replicas|))
  {
    PatchedReplicas(c, target, role);
    assert (Patched(c, PlanPatch(c, target, role)).replicas + map[]) - {target} == c.replicas;
  }

  /** Rolling a plan back restores plans, replicas and replica counts; only the bookkeeping
      field of the chunk's replica policy may differ. */
  lemma RollbackRestores(s: State, plan: Plan, role: ReplicaRole)
    requires plan.chunkId in s.chunks && s.chunks[plan.chunkId].id == plan.chunkId && plan.id !in s.plans
    requires plan.target !in s.chunks[plan.chunkId].replicas
    requires s.chunks[plan.chunkId].replicaCount == |s.chunks[plan.chunkId].replicas|
    ensures var c := s.chunks[plan.chunkId];
            Rollback(Materialize(s, plan, c, role), plan, c)
            == s.(chunks := s.chunks[plan.chunkId := c.(policy := c.policy.(current := |c.replicas|))])
  {
    var c := s.chunks[plan.chunkId];
    var planned := Patched(c, PlanPatch(c, plan.target, role));
    assert Patched(planned, RollbackPatch(c, plan.target)) == c.(policy := c.policy.(current := |c.replicas|)) by {
      RollbackPatched(c, plan.target, role);
    }
    Overwritten(s, plan, planned, c.(policy := c.policy.(current := |c.replicas|)));
  }

  lemma Overwritten(s: State, plan: Plan, c: Chunk, d: Chunk)
    requires plan.id !in s.plans
    ensures var t := WithPlansAndChunk(s, s.plans[plan.id := plan], plan.chunkId, c);
            WithPlansAndChunk(t, t.plans - {plan.id}, plan.chunkId, d) == s.(chunks := s.chunks[plan.chunkId := d])
  {
    assert s.plans[plan.id := plan] - {plan.id} == s.plans;
    assert s.chunks[plan.chunkId := c][plan.chunkId := d] == s.chunks[plan.chunkId := d];
  }

  lemma MaterializeAdds(s: State, plan: Plan, role: ReplicaRole)
    requires plan.chunkId in s.chunks && s.chunks[plan.chunkId].id == plan.chunkId
    requires plan.target !in s.chunks[plan.chunkId].replicas && plan.state == Materialized && plan.id !in s.plans
    ensures var c := s.chunks[plan.chunkId];
            Becomes(s, Materialize(s, plan, c, role), PlanAdded(plan, PendingReplica(c, plan.target, role)))
  {
    PatchedChunk(s.chunks, plan.chunkId, plan.target, role);
  }

  lemma RollbackTouchesNothing(s: State, plan: Plan, role: ReplicaRole)
    requires plan.chunkId in s.chunks && s.chunks[plan.chunkId].id == plan.chunkId && plan.id !in s.plans
    requires plan.target !in s.chunks[plan.chunkId].replicas
    requires s.chunks[plan.chunkId].replicaCount == |s.chunks[plan.chunkId].replicas|
    ensures Becomes(s, Rollback(Materialize(s, plan, s.chunks[plan.chunkId], role), plan, s.chunks[plan.chunkId]),
                    Untouched)
  {
    var c := s.chunks[plan.chunkId];
    RollbackRestores(s, plan, role);
    PolicyIsUntouched(s, plan.chunkId, c.policy.(current := |c.replicas|));
  }

  lemma PolicyIsUntouched(s: State, chunk: ChunkId, policy: ReplicaPolicy)
    requires chunk in s.chunks
    ensures Becomes(s, s.(chunks := s.chunks[chunk := s.chunks[chunk].(policy := policy)]), Untouched)
  {
  }

  /** A planning step adds its plan and a pending replica, or leaves the records alone because
      it was refused or rolled back. */
  lemma PlanningChange(s: State, plan: Plan, role: ReplicaRole, allowed: bool, published: bool)
    returns (change: Change)
    requires plan.chunkId in s.chunks && s.chunks[plan.chunkId].id == plan.chunkId
    requires s.chunks[plan.chunkId].replicaCount == |s.chunks[plan.chunkId].replicas|
    requires plan.target !in s.chunks[plan.chunkId].replicas && plan.state == Materialized
    requires allowed ==> plan.id !in s.plans
    ensures change == Untouched || (change.PlanAdded? && change.plan == plan)
    ensures Becomes(s, PlanOutcome(s, plan, s.chunks[plan.chunkId], role, allowed, published), change)
  {
    if !allowed {
      change := Untouched;
    } else if published {
      change := PlanAdded(plan, PendingReplica(s.chunks[plan.chunkId], plan.target, role));
      MaterializeAdds(s, plan, role);
    } else {
      change := Untouched;
      RollbackTouchesNothing(s, plan, role);
    }
  }

  lemma BestTargetIsNew(candidates: set<Node>, chunk: Chunk, target: NodeId)
    requires IsBestTarget(candidates, chunk, target)
    ensures target !in chunk.replicas
  {
    var n :| n in candidates && n.id == target
             && IsPlacement(candidates, chunk.replicas.Keys, RequiredBytes(chunk), 1, [n]);
    PlacedIsEligible(candidates, chunk.replicas.Keys, RequiredBytes(chunk), n);
  }

  lemma PlacedIsEligible(candidates: set<Node>, excluded: set<NodeId>, required: int, n: Node)
    requires IsPlacement(candidates, excluded, required, 1, [n])
    ensures n.id !in excluded
  {
    assert n in [n];
    assert n in Elements([n]);
  }

  /** What the planners see to before they plan: the target is new to the chunk, and the chunk
      has no active plan of the same kind, nor any active failover plan. */
  predicate FreshPlan(s: State, plan: Plan) {
    && plan.chunkId in s.chunks && plan.state == Materialized
    && plan.target !in s.chunks[plan.chunkId].replicas && plan.source != plan.target
    && ActivePlans(s, plan.chunkId, {Failover, plan.kind}) == {}
  }

  lemma FailoverIsFresh(s: State, chunk: ChunkId, failed: NodeId, target: NodeId, now: int, nodeTimeout: int)
    requires Sound(s) && CanFailover(s, chunk, failed, target, now, nodeTimeout)
    ensures FreshPlan(s, NewPlan(Failover, s.chunks[chunk], failed, target, now))
  {
    BestTargetIsNew(NodeSet(s), s.chunks[chunk], target);
    assert {Failover, Failover} == {Failover};
  }

  lemma RebalanceIsFresh(s: State, chunk: ChunkId, source: NodeId, target: NodeId, now: int, high: real, low: real)
    requires Sound(s) && CanRebalance(s, chunk, source, target, high, low)
    ensures FreshPlan(s, NewPlan(Rebalance, s.chunks[chunk], source, target, now))
  {
    BestTargetIsNew(UnderfullNodes(s, high, low), s.chunks[chunk], target);
  }

  /** When a planner acts, it runs the planning transaction on a fresh plan. */
  lemma PlannerActs(w: World, a: Action) returns (plan: Plan, role: ReplicaRole, allowed: bool)
    requires Sound(w.db) && (a.FailoverAction? || a.RebalanceAction?) && Step(w, a) != w
    ensures FreshPlan(w.db, plan) && (allowed ==> plan.id !in w.db.plans) && plan.createdAt == a.now
    ensures Step(w, a).disks == w.disks
    ensures Step(w, a).db == PlanOutcome(w.db, plan, w.db.chunks[plan.chunkId], role, allowed, a.published)
  {
    var s := w.db;
    var c := s.chunks[a.chunk];
    if a.FailoverAction? {
      plan := NewPlan(Failover, c, a.failed, a.target, a.now);
      role := if |c.replicas| == 0 then Primary else Secondary;
      FailoverIsFresh(s, a.chunk, a.failed, a.target, a.now, a.nodeTimeout);
    } else {
      plan := NewPlan(Rebalance, c, a.source, a.target, a.now);
      role := Secondary;
      RebalanceIsFresh(s, a.chunk, a.source, a.target, a.now, a.high, a.low);
    }
    allowed := MayPlan(s, plan, c);
  }

  lemma PlannerChange(w: World, a: Action) returns (change: Change)
    requires Sound(w.db) && (a.FailoverAction? || a.RebalanceAction?)
    ensures Step(w, a).disks == w.disks
    ensures Becomes(w.db, Step(w, a).db, change) && (change.Untouched? || change.PlanAdded?)
    ensures change.PlanAdded? ==> FreshPlan(w.db, change.plan) && change.plan.createdAt == a.now
  {
    if Step(w, a) == w {
      change := Untouched;
    } else {
      var plan, role, allowed := PlannerActs(w, a);
      change := PlanningChange(w.db, plan, role, allowed, a.published);
    }
  }

  // ---------------------------------------------------------------- repair and clean-up

  /** Repair touches only the states of due replicas, and never demotes a ready one. */
  lemma RepairChange(w: World, chunk: ChunkId, source: NodeId, due: set<NodeId>, net: Net) returns (change: Change)
    requires Keyed(w.db)
    ensures change == Untouched || change == Promoted(chunk)
    ensures Becomes(w.db, RepairChunk(w, chunk, source, due, net).db, change)
  {
    change := Untouched;
    if CanCopy(w, chunk, source, due) && net.responded {
      change := Promoted(chunk);
      var c := w.db.chunks[chunk];
      var done := Dispatched(w.db, due) * net.delivered * net.acked;
      var upserts := map n | n in due :: RepairedReplica(c, n, n in done);
      PromotingPatch(c, upserts);
    }
  }

  lemma PromotingPatch(c: Chunk, upserts: ReplicaSet)
    requires forall n :: n in upserts ==> n in c.replicas && c.replicas[n].state == Pending
    ensures var d := Patched(c, ReplicaPatch(upserts, {}, Some(|c.replicas|), None));
            && d.id == c.id && d.replicas.Keys == c.replicas.Keys && d.replicaCount == |d.replicas|
            && ReadyNodes(c.replicas) <= ReadyNodes(d.replicas)
  {
    var d := Patched(c, ReplicaPatch(upserts, {}, Some(|c.replicas|), None));
    assert d.replicas == c.replicas + upserts;
    MapSize(c.replicas);
    MapSize(d.replicas);
  }

  /** Clean-up either completes the plan, or changes no replica and at most a retry counter. */
  lemma CleanupChange(w: World, id: PlanId, del: Delete) returns (change: Change)
    requires Sound(w.db)
    ensures change == Untouched || change == PlanFinished(id) || (change.PlanRetried? && change.id == id)
    ensures change == PlanFinished(id) ==> id in w.db.plans && SourceReleased(w, w.db.plans[id], del)
    ensures Becomes(w.db, FinalizePlan(w, id, del).db, change)
  {
    change := Untouched;
    if Finalizable(w.db, id) {
      var plan := w.db.plans[id];
      if SourceReleased(w, plan, del) && FinishPlan(w.db, plan).Ok? {
        change := PlanFinished(id);
        FinishEffect(w.db, plan);
      } else if plan.kind == Rebalance {
        change := PlanRetried(id, plan.retryCount + 1);
      }
    }
  }

  lemma FinishEffect(s: State, plan: Plan)
    requires Sound(s) && plan.id in s.plans && s.plans[plan.id] == plan && FinishPlan(s, plan).Ok?
    ensures var t := FinishPlan(s, plan).value;
            && t.nodes == s.nodes && t.plans == s.plans[plan.id := plan.(state := Done)]
            && ChunkBecomes(s.chunks, t.chunks, plan.chunkId, s.chunks[plan.chunkId].replicas - {plan.source})
  {
    SizeOfRemoved(s.chunks[plan.chunkId].replicas, plan.source);
  }

  lemma SizeOfRemoved<K, V>(m: map<K, V>, k: K)
    requires k in m
    ensures |m - {k}| == |m| - 1
  {
    assert (m - {k}).Keys == m.Keys - {k};
    MapSize(m);
    MapSize(m - {k});
  }

  // ---------------------------------------------------------------- each step

  lemma StepChange(w: World, a: Action) returns (change: Change)
    requires Sound(w.db)
    ensures Becomes(w.db, Step(w, a).db, change)
    ensures change.PlanAdded? ==> FreshPlan(w.db, change.plan)
    ensures change.PlanAdded? ==> (a.FailoverAction? || a.RebalanceAction?) && change.plan.createdAt == a.now
    ensures change.Promoted? ==> a.RepairAction?
    ensures change.ChunkPut? ==>
              a.UploadAction? && a.committed && change.record == a.record && CanCommit(w.db, a.record, a.nodes, a.db)
    ensures change.ChunksDropped? ==>
              a.OtherTransaction? && SameReplication(w.db, a.db) && change.gone == w.db.chunks.Keys - a.db.chunks.Keys
  {
    if a.FailoverAction? || a.RebalanceAction? {
      change := PlannerChange(w, a);
    } else if a.RepairAction? {
      change := RepairChange(w, a.chunk, a.source, a.due, a.net);
    } else if a.CleanupAction? {
      change := CleanupChange(w, a.plan, a.del);
    } else if a.UploadAction? && a.committed && CanCommit(w.db, a.record, a.nodes, a.db) {
      change := ChunkPut(a.record);
    } else if a.OtherTransaction? && SameReplication(w.db, a.db) {
      change := ChunksDropped(w.db.chunks.Keys - a.db.chunks.Keys);
    } else {
      change := Untouched;
    }
  }

  lemma ChangeConserves(s: State, t: State, change: Change, c: ChunkId)
    requires Becomes(s, t, change) && c in s.chunks && !Replaces(change, c)
    ensures Conserves(s, t, c)
  {
    match change
    case PlanAdded(plan, replica) =>
      if c == plan.chunkId {
        PlanBalanced(s.plans, s.chunks[c].replicas, plan, replica);
      } else {
        UntouchedBalanced(s.plans, Replicas(s, c), t.plans, c);
      }
    case Promoted(chunk) =>
      PromotionBalanced(s.plans, Replicas(s, c), t.plans, Replicas(t, c), c);
    case PlanFinished(id) =>
      if c == s.plans[id].chunkId {
        FinishBalanced(s.plans, s.chunks[c].replicas, id);
      } else {
        UntouchedBalanced(s.plans, Replicas(s, c), t.plans, c);
      }
    case _ =>
      UntouchedBalanced(s.plans, Replicas(s, c), t.plans, c);
  }

  lemma ChangeSound(s: State, t: State, change: Change)
    requires Sound(s) && Becomes(s, t, change)
    ensures Sound(t)
  {
  }

  /** No client replaces or drops the record of the chunk. */
  predicate LeavesRecord(a: Action, c: ChunkId) {
    && (a.UploadAction? && a.committed ==> a.record.id != c)
    && (a.OtherTransaction? ==> c in a.db.chunks)
  }

  predicate RecordLeft(actions: seq<Action>, c: ChunkId) {
    forall i :: 0 <= i < |actions| ==> LeavesRecord(actions[i], c)
  }

  lemma RecordLeftTail(actions: seq<Action>, c: ChunkId)
    requires actions != [] && RecordLeft(actions, c)
    ensures LeavesRecord(actions[0], c) && RecordLeft(actions[1..], c)
  {
    assert forall i :: 0 <= i < |actions[1..]| ==> actions[1..][i] == actions[i + 1];
  }

  lemma StepConserves(w: World, a: Action, c: ChunkId)
    requires Sound(w.db) && c in w.db.chunks && LeavesRecord(a, c)
    ensures Conserves(w.db, Step(w, a).db, c)
  {
    var change := StepChange(w, a);
    ChangeConserves(w.db, Step(w, a).db, change, c);
  }

  lemma StepSound(w: World, a: Action)
    requires Sound(w.db)
    ensures Sound(Step(w, a).db)
  {
    var change := StepChange(w, a);
    ChangeSound(w.db, Step(w, a).db, change);
  }

  // ---------------------------------------------------------------- every run

  /** Conservation: in every run in which no client replaces or drops the record of the chunk,
      replicas minus active plans is constant and the recorded replica count is the size of the
      replica map. */
  lemma {:induction false} Conservation(w: World, actions: seq<Action>, c: ChunkId)
    requires Sound(w.db) && c in w.db.chunks && RecordLeft(actions, c)
    ensures var t := Run(w, actions).db;
            Conserves(w.db, t, c) && Sound(t)
    decreases |actions|
  {
    if actions != [] {
      RecordLeftTail(actions, c);
      StepConserves(w, actions[0], c);
      StepSound(w, actions[0]);
      Conservation(Step(w, actions[0]), actions[1..], c);
    }
  }

  /** Each active plan excuses at most one replica from being ready. */
  lemma ReadyFromSlack(plans: Plans, r: ReplicaSet, c: ChunkId)
    ensures |ReadyNodes(r)| >= Slack(plans, c, r) - |Unattended(plans, c, r)|
  {
    var waiting := set n | n in r && r[n].state != Ready && Awaited(plans, c, n);
    assert r.Keys == ReadyNodes(r) + waiting + Unattended(plans, c, r);
    MapSize(r);
    UnionBound(ReadyNodes(r), waiting);
    UnionBound(ReadyNodes(r) + waiting, Unattended(plans, c, r));
    TargetsBound(plans, Active(plans, c), waiting);
  }

  lemma UnionBound<T>(a: set<T>, b: set<T>)
    ensures |a + b| <= |a| + |b|
  {
    assert a + b == a + (b - a);
    assert |a + (b - a)| == |a| + |b - a|;
    assert |b| == |b - a| + |b * a| by { assert b == (b - a) + (b * a); }
  }

  lemma {:induction false} TargetsBound(plans: Plans, ids: set<PlanId>, nodes: set<NodeId>)
    requires forall id :: id in ids ==> id in plans
    requires forall n :: n in nodes ==> exists id :: id in ids && plans[id].target == n
    ensures |nodes| <= |ids|
    decreases |nodes|
  {
    if nodes != {} {
      var n :| n in nodes;
      var id :| id in ids && plans[id].target == n;
      forall m | m in nodes - {n} ensures exists k :: k in ids - {id} && plans[k].target == m {
        var k :| k in ids && plans[k].target == m;
        assert k in ids - {id};
      }
      TargetsBound(plans, ids - {id}, nodes - {n});
    }
  }

  /** Ready floor: whatever plans overlap and whatever copies and deletes fail, a chunk never
      has fewer ready replicas than its replicas, less its plans already under way, less the
      replicas nobody was repairing when the run began. */
  lemma ReadyFloor(w: World, actions: seq<Action>, c: ChunkId)
    requires Sound(w.db) && c in w.db.chunks && RecordLeft(actions, c)
    ensures c in Run(w, actions).db.chunks
    ensures ReadyCount(Run(w, actions).db, c)
            >= Slack(w.db.plans, c, Replicas(w.db, c)) - |Unattended(w.db.plans, c, Replicas(w.db, c))|
  {
    Conservation(w, actions, c);
    var t := Run(w, actions).db;
    ReadyFromSlack(t.plans, Replicas(t, c), c);
    SubsetSize(Unattended(t.plans, c, Replicas(t, c)), Unattended(w.db.plans, c, Replicas(w.db, c)));
  }

  /** With no plan under way at the start, the number of ready replicas never drops below
      its starting value. */
  lemma ReadyNeverDrops(w: World, actions: seq<Action>, c: ChunkId)
    requires Sound(w.db) && c in w.db.chunks && RecordLeft(actions, c)
    requires Active(w.db.plans, c) == {}
    ensures c in Run(w, actions).db.chunks
    ensures ReadyCount(Run(w, actions).db, c) >= ReadyCount(w.db, c)
  {
    ReadyFloor(w, actions, c);
    var r := Replicas(w.db, c);
    var unready := set n | n in r && r[n].state != Ready;
    assert Unattended(w.db.plans, c, r) == unready;
    assert r.Keys == ReadyNodes(r) + unready && ReadyNodes(r) !! unready;
    MapSize(r);
    assert |r.Keys| == |ReadyNodes(r)| + |unready|;
  }
}

/** The failover planner (internal/mds/coordinator/failover.go): for every replica on an
    unavailable node it plans a replacement, within a budget per pass. */
module FailoverPlanner {
  import opened Wrappers
  import opened Metadata
  import opened Sorting
  import opened ReplicaStore
  import opened Coordinator
  import opened ReplicaProtocol
  import opened Store
  import opened PlanningQueries
  import opened PlanningLaws
  import opened PlanningPass

  /** The planning transaction, and its rollback if the task cannot be published. */
  method PlanTransaction(repo: Repository, plan: Plan, chunk: Chunk, role: ReplicaRole, published: bool)
    returns (err: Option<StoreError>)
    requires chunk.id in repo.state.chunks
    modifies repo
    ensures repo.state == PlanAndPublish(old(repo.state), plan, chunk, role, published)
    ensures err == PlanError(old(repo.state), plan, published)
  {
    var refused := PlanRefused(repo.state, plan);
    if refused.Some? {
      return refused;
    }
    var before := repo.state.chunks[chunk.id];
    repo.state := repo.state.(plans := repo.state.plans[plan.id := plan],
                              chunks := repo.state.chunks[chunk.id := Patched(before,
                                                                              PlanPatch(chunk, plan.target, role))]);
    if published {
      return None;
    }
    var planned := repo.state.chunks[chunk.id];
    repo.state := repo.state.(chunks := repo.state.chunks[chunk.id := Patched(planned,
                                                                              RollbackPatch(chunk, plan.target))],
                              plans := repo.state.plans - {plan.id});
    err := Some(PublishFailed);
  }

  type Pair = (ChunkId, NodeId)

  /** The replicas that call for no plan, by chunk and node. */
  ghost function Settled(s: State, now: int, timeout: int): iset<Pair> {
    iset p: Pair | ChunkDone(s, p.0, p.1, now, timeout)
  }

  ghost predicate ChunkDone(s: State, c: ChunkId, n: NodeId, now: int, timeout: int) {
    forall target :: !CanFailover(s, c, n, target, now, timeout)
  }

  /** No replica on node `n` calls for a plan. */
  ghost predicate NodeDone(s: State, n: NodeId, now: int, timeout: int) {
    forall c: ChunkId :: (c, n) in Settled(s, now, timeout)
  }

  /** Whether a chunk calls for a plan depends only on the nodes, files, the chunk and its plans. */
  lemma SameNeed(s: State, t: State, c: ChunkId, n: NodeId, target: NodeId, now: int, timeout: int)
    requires t.nodes == s.nodes && t.files == s.files
    requires (c in t.chunks) == (c in s.chunks) && (c in s.chunks ==> t.chunks[c] == s.chunks[c])
    requires ActivePlans(t, c, {Failover}) == ActivePlans(s, c, {Failover})
    ensures CanFailover(t, c, n, target, now, timeout) == CanFailover(s, c, n, target, now, timeout)
  {
  }

  /** Planning for one chunk never makes another plan necessary. */
  lemma PlanKeepsChunkDone(s: State, plan: Plan, chunk: Chunk, role: ReplicaRole, c: ChunkId, n: NodeId, now: int,
                           timeout: int)
    requires chunk.id == plan.chunkId && chunk.id in s.chunks && plan.id !in s.plans
    requires plan.kind == Failover && plan.state == Materialized
    requires c == plan.chunkId || ChunkDone(s, c, n, now, timeout)
    ensures ChunkDone(Materialize(s, plan, chunk, role), c, n, now, timeout)
  {
    var t := Materialize(s, plan, chunk, role);
    if c == plan.chunkId {
      assert plan.id in ActivePlans(t, c, {Failover});
    } else {
      PlansElsewhere(s, t, plan, c);
      forall target ensures !CanFailover(t, c, n, target, now, timeout) {
        SameNeed(s, t, c, n, target, now, timeout);
      }
    }
  }

  lemma PlansElsewhere(s: State, t: State, plan: Plan, c: ChunkId)
    requires t.plans == s.plans[plan.id := plan] && plan.chunkId != c && plan.id !in s.plans
    ensures ActivePlans(t, c, {Failover}) == ActivePlans(s, c, {Failover})
  {
  }

  /** Where to put a replacement for the chunk's replica on `failed`, if one is called for. */
  method SelectFailover(s: State, chunk: Chunk, failed: NodeId, now: int, ghost timeout: int)
    returns (target: Option<NodeId>)
    requires Keyed(s) && chunk.id in s.chunks && s.chunks[chunk.id] == chunk && chunk.fileId in s.files
    requires failed in chunk.replicas && failed in s.nodes && Unavailable(s.nodes[failed], now, timeout)
    ensures target.Some? ==> CanFailover(s, chunk.id, failed, target.value, now, timeout)
    ensures target.None? ==> ChunkDone(s, chunk.id, failed, now, timeout)
  {
    var nodes := ListNodes(s);
    var desired := FailoverDesired(chunk, s.files[chunk.fileId]);
    var effective := CountEffectiveReadyReplicas(chunk, s.nodes);
    if effective >= desired {
      return None;
    }
    var active := HasActivePlan(s, chunk.id, {Failover});
    if active {
      return None;
    }
    NodesById(s);
    var selected := SelectTarget(nodes, chunk);
    target := if selected.Some? then Some(selected.value.id) else None;
  }

  /** One replica on an unavailable node.  `acted` is the target the planner settled on, if any. */
  method PlanChunkFailover(repo: Repository, chunk: Chunk, failed: NodeId, now: int, published: bool,
                           ghost timeout: int)
    returns (planned: bool, err: Option<StoreError>, ghost acted: Option<NodeId>)
    requires Keyed(repo.state) && chunk.id in repo.state.chunks && repo.state.chunks[chunk.id] == chunk
    requires failed in chunk.replicas && failed in repo.state.nodes
             && Unavailable(repo.state.nodes[failed], now, timeout)
    modifies repo
    ensures planned <==> acted.Some? && err.None?
    ensures acted.None? ==> repo.state == old(repo.state)
    ensures acted.None? <==>
              chunk.fileId !in old(repo.state).files || (chunk.id, failed) in Settled(old(repo.state), now, timeout)
    ensures acted.None? ==> err == if chunk.fileId !in repo.state.files then Some(NotFound) else None
    ensures acted.Some? ==>
              && CanFailover(old(repo.state), chunk.id, failed, acted.value, now, timeout)
              && repo.state == PlanFailover(old(repo.state), chunk.id, failed, acted.value, now, timeout, published)
              && err == PlanError(old(repo.state), NewPlan(Failover, chunk, failed, acted.value, now), published)
  {
    if chunk.fileId !in repo.state.files {
      return false, Some(NotFound), None;
    }
    var selected := SelectFailover(repo.state, chunk, failed, now, timeout);
    acted := selected;
    if selected.None? {
      return false, None, None;
    }
    var target := selected.value;
    var required := RequiredPlacementBytes(chunk);
    var plan := Plan("failover-" + chunk.id + "-" + target + "-" + Stamp(now), Failover, chunk.id, chunk.fileId,
                     failed, target, required, Materialized, 0, now);
    var role := if |chunk.replicas| == 0 then Primary else Secondary;
    assert plan == NewPlan(Failover, chunk, failed, target, now);
    err := PlanTransaction(repo, plan, chunk, role, published);
    planned := err.None?;
  }

  /** Nodes, files and all other chunks stay as they were. */
  predicate OnlyChunk(s: State, t: State, chunk: ChunkId) {
    && t.nodes == s.nodes && t.files == s.files && t.chunks.Keys == s.chunks.Keys
    && forall c :: c in s.chunks && c != chunk ==> t.chunks[c] == s.chunks[c]
  }

  lemma OverwriteKeeps(s: State, plans: Plans, id: ChunkId, c: Chunk)
    requires id in s.chunks
    ensures OnlyChunk(s, WithPlansAndChunk(s, plans, id, c), id)
  {
  }

  lemma PlanOutcomeKeeps(s: State, plan: Plan, chunk: Chunk, role: ReplicaRole, allowed: bool, published: bool)
    requires chunk.id in s.chunks
    ensures OnlyChunk(s, PlanOutcome(s, plan, chunk, role, allowed, published), chunk.id)
  {
    if allowed {
      var t := Materialize(s, plan, chunk, role);
      OverwriteKeeps(s, t.plans, chunk.id, t.chunks[chunk.id]);
      OverwriteKeeps(t, t.plans - {plan.id}, chunk.id, Rollback(t, plan, chunk).chunks[chunk.id]);
    }
  }

  lemma FailoverStep(s: State, disks: map<NodeId, map<ChunkId, Bytes>>, a: Action)
    requires Sound(s) && a.FailoverAction? && CanFailover(s, a.chunk, a.failed, a.target, a.now, a.nodeTimeout)
    ensures var t := PlanFailover(s, a.chunk, a.failed, a.target, a.now, a.nodeTimeout, a.published);
            && Step(World(s, disks), a) == World(t, disks)
            && Sound(t) && OnlyChunk(s, t, a.chunk)
  {
    StepSound(World(s, disks), a);
    var c := s.chunks[a.chunk];
    var plan := NewPlan(Failover, c, a.failed, a.target, a.now);
    PlanOutcomeKeeps(s, plan, c, if |c.replicas| == 0 then Primary else Secondary, MayPlan(s, plan, c), a.published);
  }

  lemma PlannedKeepsDone(s: State, a: Action)
    requires Keyed(s) && a.FailoverAction? && a.published
    requires CanFailover(s, a.chunk, a.failed, a.target, a.now, a.nodeTimeout)
    requires MayPlan(s, NewPlan(Failover, s.chunks[a.chunk], a.failed, a.target, a.now), s.chunks[a.chunk])
    ensures var t := PlanFailover(s, a.chunk, a.failed, a.target, a.now, a.nodeTimeout, true);
            && Settled(s, a.now, a.nodeTimeout) <= Settled(t, a.now, a.nodeTimeout)
            && (a.chunk, a.failed) in Settled(t, a.now, a.nodeTimeout)
  {
    var chunk := s.chunks[a.chunk];
    var plan := NewPlan(Failover, chunk, a.failed, a.target, a.now);
    var role := if |chunk.replicas| == 0 then Primary else Secondary;
    var t := Materialize(s, plan, chunk, role);
    assert PlanFailover(s, a.chunk, a.failed, a.target, a.now, a.nodeTimeout, true) == t;
    PlanKeepsChunkDone(s, plan, chunk, role, a.chunk, a.failed, a.now, a.nodeTimeout);
    forall p: Pair | p in Settled(s, a.now, a.nodeTimeout) ensures p in Settled(t, a.now, a.nodeTimeout) {
      PlanKeepsChunkDone(s, plan, chunk, role, p.0, p.1, a.now, a.nodeTimeout);
    }
  }

  /** Failover steps at this time, with this timeout. */
  predicate FailoversAt(actions: seq<Action>, now: int, timeout: int) {
    forall i :: 0 <= i < |actions| ==>
      actions[i].FailoverAction? && actions[i].now == now && actions[i].nodeTimeout == timeout
  }

  /** `actions` lead from `start` to `s`. */
  ghost predicate LedTo(start: World, s: State, actions: seq<Action>, now: int, timeout: int) {
    && World(s, start.disks) == Run(start, actions)
    && Sound(s) && s.nodes == start.db.nodes && s.files == start.db.files
    && FailoversAt(actions, now, timeout)
  }

  /** So far every step of the pass has gone through. */
  ghost predicate Ran(start: World, s: State, actions: seq<Action>, now: int, timeout: int) {
    LedTo(start, s, actions, now, timeout) && AllAccepted(start, actions) && AllPublished(actions)
  }

  /** Some chunk on an unavailable node belongs to no recorded file. */
  predicate HasOrphan(s: State, now: int, timeout: int) {
    exists c, n :: c in s.chunks && n in s.chunks[c].replicas && n in s.nodes && Unavailable(s.nodes[n], now, timeout)
                   && s.chunks[c].fileId !in s.files
  }

  /** The pass has ended with an error: at a chunk of no recorded file, or at a last step that was
      refused or could not be published. */
  ghost predicate Broke(start: World, s: State, actions: seq<Action>, err: StoreError, now: int, timeout: int) {
    && LedTo(start, s, actions, now, timeout)
    && ((err == NotFound && AllAccepted(start, actions) && AllPublished(actions) && HasOrphan(s, now, timeout))
        || (LastFails(start, actions, err, true) && AllPublished(actions[..|actions| - 1])))
  }

  lemma LedOneMore(start: World, s: State, actions: seq<Action>, a: Action)
    requires a.FailoverAction? && LedTo(start, s, actions, a.now, a.nodeTimeout)
    requires CanFailover(s, a.chunk, a.failed, a.target, a.now, a.nodeTimeout)
    ensures LedTo(start, PlanFailover(s, a.chunk, a.failed, a.target, a.now, a.nodeTimeout, a.published), actions + [a],
                  a.now, a.nodeTimeout)
  {
    FailoverStep(s, start.disks, a);
    RunAppend(start, actions, [a]);
  }

  /** The next step goes through. */
  lemma RanOneMore(start: World, s: State, actions: seq<Action>, a: Action)
    requires a.FailoverAction? && Ran(start, s, actions, a.now, a.nodeTimeout) && Accepted(s, a) && a.published
    ensures Ran(start, PlanFailover(s, a.chunk, a.failed, a.target, a.now, a.nodeTimeout, true), actions + [a],
                a.now, a.nodeTimeout)
  {
    LedOneMore(start, s, actions, a);
    AcceptedOneMore(start, actions, a);
    PublishedOneMore(actions, a);
  }

  /** The next step breaks the pass off. */
  lemma BreaksOff(start: World, s: State, actions: seq<Action>, a: Action, err: StoreError)
    requires a.FailoverAction? && Ran(start, s, actions, a.now, a.nodeTimeout) && Enabled(s, a)
    requires PlanError(s, PlanOf(s, a), a.published) == Some(err)
    ensures Broke(start, PlanFailover(s, a.chunk, a.failed, a.target, a.now, a.nodeTimeout, a.published), actions + [a],
                  err, a.now, a.nodeTimeout)
  {
    LedOneMore(start, s, actions, a);
    FailsLast(start, actions, a, err, true);
    assert (actions + [a])[..|actions|] == actions;
  }

  /** The chunks from `i` on are still as listed, chunks without a replica on the node too. */
  predicate Ahead(start: State, s: State, chunks: seq<Chunk>, i: nat, node: NodeId) {
    && s.chunks.Keys == start.chunks.Keys
    && (forall j :: i <= j < |chunks| ==> chunks[j].id in s.chunks && s.chunks[chunks[j].id] == chunks[j])
    && (forall c :: c in start.chunks && node !in start.chunks[c].replicas ==> s.chunks[c] == start.chunks[c])
  }

  /** The chunks before `i` call for no plan, and nothing that was settled has come unsettled. */
  ghost predicate Behind(start: State, s: State, chunks: seq<Chunk>, i: nat, node: NodeId, now: int, timeout: int)
    requires i <= |chunks|
  {
    && Settled(start, now, timeout) <= Settled(s, now, timeout)
    && (forall j :: 0 <= j < i ==> (chunks[j].id, node) in Settled(s, now, timeout))
  }

  lemma AheadOneMore(start: State, s: State, t: State, chunks: seq<Chunk>, i: nat, node: NodeId)
    requires i < |chunks| && Ahead(start, s, chunks, i, node) && OnlyChunk(s, t, chunks[i].id)
    requires forall k, j :: 0 <= k < j < |chunks| ==> chunks[k].id != chunks[j].id
    requires chunks[i].id in start.chunks && node in start.chunks[chunks[i].id].replicas
    ensures Ahead(start, t, chunks, i + 1, node)
  {
  }

  lemma BehindOneMore(start: State, s: State, chunks: seq<Chunk>, i: nat, a: Action)
    requires Keyed(s) && i < |chunks| && a.FailoverAction? && a.published && a.chunk == chunks[i].id
    requires Behind(start, s, chunks, i, a.failed, a.now, a.nodeTimeout)
    requires CanFailover(s, a.chunk, a.failed, a.target, a.now, a.nodeTimeout)
    requires MayPlan(s, NewPlan(Failover, s.chunks[a.chunk], a.failed, a.target, a.now), s.chunks[a.chunk])
    ensures Behind(start, PlanFailover(s, a.chunk, a.failed, a.target, a.now, a.nodeTimeout, true), chunks, i + 1,
                   a.failed, a.now, a.nodeTimeout)
  {
    PlannedKeepsDone(s, a);
  }

  lemma BehindUnacted(start: State, s: State, chunks: seq<Chunk>, i: nat, node: NodeId, now: int, timeout: int)
    requires i < |chunks| && Behind(start, s, chunks, i, node, now, timeout)
    requires (chunks[i].id, node) in Settled(s, now, timeout)
    ensures Behind(start, s, chunks, i + 1, node, now, timeout)
  {
  }

  /** Nothing on the first `k` nodes calls for a plan. */
  ghost predicate NodesDone(s: State, nodes: seq<Node>, k: nat, now: int, timeout: int)
    requires k <= |nodes|
  {
    forall j :: 0 <= j < k ==> NodeDone(s, nodes[j].id, now, timeout)
  }

  lemma OneMoreNodeDone(s: State, t: State, nodes: seq<Node>, k: nat, now: int, timeout: int)
    requires k < |nodes| && Settled(s, now, timeout) <= Settled(t, now, timeout)
    requires NodesDone(s, nodes, k, now, timeout) && NodeDone(t, nodes[k].id, now, timeout)
    ensures NodesDone(t, nodes, k + 1, now, timeout)
  {
    NodesStayDone(s, t, nodes, k, now, timeout);
  }

  lemma NodesStayDone(s: State, t: State, nodes: seq<Node>, k: nat, now: int, timeout: int)
    requires k <= |nodes| && Settled(s, now, timeout) <= Settled(t, now, timeout)
             && NodesDone(s, nodes, k, now, timeout)
    ensures NodesDone(t, nodes, k, now, timeout)
  {
    forall j | 0 <= j < k ensures NodeDone(t, nodes[j].id, now, timeout) {
      NodeStaysDone(s, t, nodes[j].id, now, timeout);
    }
  }

  lemma NodeStaysDone(s: State, t: State, n: NodeId, now: int, timeout: int)
    requires Settled(s, now, timeout) <= Settled(t, now, timeout) && NodeDone(s, n, now, timeout)
    ensures NodeDone(t, n, now, timeout)
  {
  }

  lemma AvailableIsDone(s: State, n: NodeId, now: int, timeout: int)
    requires n in s.nodes ==> !Unavailable(s.nodes[n], now, timeout)
    ensures NodeDone(s, n, now, timeout)
  {
    forall c: ChunkId ensures (c, n) in Settled(s, now, timeout) {
      assert ChunkDone(s, c, n, now, timeout);
    }
  }

  lemma AllNodesDone(s: State, nodes: seq<Node>, now: int, timeout: int)
    requires Keyed(s) && Elements(nodes) == NodeSet(s)
    requires NodesDone(s, nodes, |nodes|, now, timeout)
    ensures forall n :: NodeDone(s, n, now, timeout)
  {
    forall n ensures NodeDone(s, n, now, timeout) {
      if n in s.nodes {
        assert s.nodes[n] in Elements(nodes);
        var j :| 0 <= j < |nodes| && nodes[j] == s.nodes[n];
        assert NodeDone(s, nodes[j].id, now, timeout);
      } else {
        AvailableIsDone(s, n, now, timeout);
      }
    }
  }

  /** `chunks` lists the chunks with a replica on the node. */
  predicate IsNodeList(s: State, node: NodeId, chunks: seq<Chunk>) {
    && (forall c :: c in chunks ==> c.id in s.chunks && s.chunks[c.id] == c && node in c.replicas)
    && (forall c :: c in s.chunks && node in s.chunks[c].replicas ==> s.chunks[c] in chunks)
    && (forall i, j :: 0 <= i < j < |chunks| ==> chunks[i].id != chunks[j].id)
  }

  /** The next chunk in the list; `first` is the state when the list was made. */
  method PlanNext(repo: Repository, chunks: seq<Chunk>, i: nat, node: NodeId, now: int, published: bool,
                  ghost timeout: int, ghost start: World, ghost actions: seq<Action>, ghost first: State)
    returns (planned: bool, err: Option<StoreError>, ghost actions': seq<Action>)
    requires i < |chunks| && IsNodeList(first, node, chunks)
    requires node in repo.state.nodes && Unavailable(repo.state.nodes[node], now, timeout)
    requires Ran(start, repo.state, actions, now, timeout)
    requires Ahead(first, repo.state, chunks, i, node) && Behind(first, repo.state, chunks, i, node, now, timeout)
    modifies repo
    ensures |actions| <= |actions'| <= |actions| + 1
    ensures err.Some? ==> Broke(start, repo.state, actions', err.value, now, timeout)
    ensures err.None? ==> Ran(start, repo.state, actions', now, timeout)
    ensures err.None? ==> |actions'| == |actions| + (if planned then 1 else 0)
    ensures err.None? ==> Ahead(first, repo.state, chunks, i + 1, node)
    ensures err.None? ==> Behind(first, repo.state, chunks, i + 1, node, now, timeout)
  {
    ghost var before := repo.state;
    var chunk := chunks[i];
    assert chunk in chunks;
    ghost var acted;
    planned, err, acted := PlanChunkFailover(repo, chunk, node, now, published, timeout);
    actions' := actions;
    if acted.Some? {
      ghost var a := FailoverAction(chunk.id, node, acted.value, now, timeout, published);
      ActedNext(start, first, before, repo.state, chunks, i, actions, a, err);
      actions' := actions + [a];
    } else if err.None? {
      BehindUnacted(first, before, chunks, i, node, now, timeout);
    } else {
      OrphanFound(before, chunk.id, node, now, timeout);
    }
  }

  /** A step for the next chunk in the list. */
  lemma ActedNext(start: World, first: State, s: State, t: State, chunks: seq<Chunk>, i: nat, actions: seq<Action>,
                  a: Action, err: Option<StoreError>)
    requires a.FailoverAction? && Ran(start, s, actions, a.now, a.nodeTimeout) && Enabled(s, a)
    requires i < |chunks| && IsNodeList(first, a.failed, chunks) && a.chunk == chunks[i].id
    requires Ahead(first, s, chunks, i, a.failed) && Behind(first, s, chunks, i, a.failed, a.now, a.nodeTimeout)
    requires t == PlanFailover(s, a.chunk, a.failed, a.target, a.now, a.nodeTimeout, a.published)
    requires err == PlanError(s, PlanOf(s, a), a.published)
    ensures err.Some? ==> Broke(start, t, actions + [a], err.value, a.now, a.nodeTimeout)
    ensures err.None? ==> Ran(start, t, actions + [a], a.now, a.nodeTimeout)
    ensures err.None? ==> Ahead(first, t, chunks, i + 1, a.failed)
    ensures err.None? ==> Behind(first, t, chunks, i + 1, a.failed, a.now, a.nodeTimeout)
  {
    if err.Some? {
      BreaksOff(start, s, actions, a, err.value);
    } else {
      RanOneMore(start, s, actions, a);
      FailoverStep(s, start.disks, a);
      assert chunks[i] in chunks;
      AheadOneMore(first, s, t, chunks, i, a.failed);
      BehindOneMore(first, s, chunks, i, a);
    }
  }

  lemma OrphanFound(s: State, c: ChunkId, n: NodeId, now: int, timeout: int)
    requires c in s.chunks && n in s.chunks[c].replicas && n in s.nodes && Unavailable(s.nodes[n], now, timeout)
    requires s.chunks[c].fileId !in s.files
    ensures HasOrphan(s, now, timeout)
  {
  }

  /** All replicas on one unavailable node, until the budget runs out or a step fails. */
  method PlanNodeFailover(repo: Repository, node: Node, now: int, budget: nat, publishes: ChunkId -> bool,
                          ghost timeout: int, ghost start: World, ghost actions: seq<Action>)
    returns (planned: nat, err: Option<StoreError>, ghost actions': seq<Action>)
    requires node.id in repo.state.nodes && Unavailable(repo.state.nodes[node.id], now, timeout)
    requires Ran(start, repo.state, actions, now, timeout)
    modifies repo
    ensures planned <= budget && |actions| + planned <= |actions'| <= |actions| + budget
    ensures err.Some? ==> Broke(start, repo.state, actions', err.value, now, timeout)
    ensures err.None? ==> Ran(start, repo.state, actions', now, timeout) && |actions'| == |actions| + planned
    ensures err.None? ==> Settled(old(repo.state), now, timeout) <= Settled(repo.state, now, timeout)
    ensures err.None? && planned < budget ==> NodeDone(repo.state, node.id, now, timeout)
  {
    var chunks := ListChunksByNode(repo.state, node.id);
    planned, err, actions' := 0, None, actions;
    ghost var first := repo.state;
    for i := 0 to |chunks|
      invariant Ran(start, repo.state, actions', now, timeout)
      invariant |actions'| == |actions| + planned && planned <= budget && err == None
      invariant Ahead(first, repo.state, chunks, i, node.id)
      invariant Behind(first, repo.state, chunks, i, node.id, now, timeout)
    {
      if planned == budget {
        return;
      }
      var ok;
      ok, err, actions' := PlanNext(repo, chunks, i, node.id, now, publishes(chunks[i].id), timeout, start, actions',
                                    first);
      if err.Some? {
        return;
      }
      if ok {
        planned := planned + 1;
      }
    }
    AllBehind(first, repo.state, chunks, node.id, now, timeout);
  }

  /** The next unavailable node in the list. */
  method PlanNode(repo: Repository, nodes: seq<Node>, i: nat, now: int, budget: nat, publishes: ChunkId -> bool,
                  ghost timeout: int, ghost start: World, ghost actions: seq<Action>)
    returns (planned: nat, err: Option<StoreError>, ghost actions': seq<Action>)
    requires i < |nodes| && nodes[i].id in repo.state.nodes && Unavailable(repo.state.nodes[nodes[i].id], now, timeout)
    requires Ran(start, repo.state, actions, now, timeout)
    requires NodesDone(repo.state, nodes, i, now, timeout)
    modifies repo
    ensures planned <= budget && |actions| + planned <= |actions'| <= |actions| + budget
    ensures err.Some? ==> Broke(start, repo.state, actions', err.value, now, timeout)
    ensures err.None? ==> Ran(start, repo.state, actions', now, timeout) && |actions'| == |actions| + planned
    ensures err.None? && planned < budget ==> NodesDone(repo.state, nodes, i + 1, now, timeout)
  {
    ghost var before := repo.state;
    planned, err, actions' := PlanNodeFailover(repo, nodes[i], now, budget, publishes, timeout, start, actions);
    if err.None? && planned < budget {
      OneMoreNodeDone(before, repo.state, nodes, i, now, timeout);
    }
  }

  lemma AllBehind(start: State, s: State, chunks: seq<Chunk>, node: NodeId, now: int, timeout: int)
    requires Keyed(start) && IsNodeList(start, node, chunks)
    requires Ahead(start, s, chunks, |chunks|, node) && Behind(start, s, chunks, |chunks|, node, now, timeout)
    ensures NodeDone(s, node, now, timeout)
  {
    forall c: ChunkId ensures (c, node) in Settled(s, now, timeout) {
      if c in start.chunks && node in start.chunks[c].replicas {
        assert start.chunks[c] in chunks;
        var j :| 0 <= j < |chunks| && chunks[j] == start.chunks[c];
        assert chunks[j].id == c;
      } else {
        assert ChunkDone(s, c, node, now, timeout);
      }
    }
  }

  /** With nothing left to plan, a replica on a failed node has enough others, a plan, or no node with
      room to go to. */
  lemma NothingReplaceable(s: State, now: int, timeout: int)
    requires Keyed(s) && forall n :: NodeDone(s, n, now, timeout)
    ensures forall c, n :: Replaceable(s, c, n, now, timeout) ==>
              forall m :: m in s.nodes ==> !Fits(s.nodes[m], s.chunks[c])
  {
    forall c, n | Replaceable(s, c, n, now, timeout)
      ensures forall m :: m in s.nodes ==> !Fits(s.nodes[m], s.chunks[c])
    {
      assert NodeDone(s, n, now, timeout) && (c, n) in Settled(s, now, timeout);
      FailoverCalledForIff(s, c, n, now, timeout);
    }
  }

  /** What both ends of a pass have in common. */
  lemma PassEnds(start: World, s: State, actions: seq<Action>, err: Option<StoreError>, now: int, timeout: int)
    requires Sound(start.db)
    requires err.None? ==> Ran(start, s, actions, now, timeout)
    requires err.Some? ==> Broke(start, s, actions, err.value, now, timeout)
    ensures AllGo(start, actions)
  {
    assert AllAccepted(start, actions) || LastFails(start, actions, err.value, true);
    PassGoes(start, actions);
  }

  /** A healthy node that was seen within the timeout is not replaced. */
  lemma SeenNodeIsNoSource(start: World, actions: seq<Action>, n: NodeId, now: int, timeout: int, k: nat)
    requires AllGo(start, actions) && FailoversAt(actions, now, timeout) && k < |actions|
    requires n in start.db.nodes && start.db.nodes[n].healthy
    requires timeout <= 0 || (start.db.nodes[n].lastSeenAt.Some? && now - start.db.nodes[n].lastSeenAt.value <= timeout)
    ensures actions[k].failed != n
  {
    assert StepGoes(start, actions, k);
  }

  class Planner {
    const nodeTimeout: int
    const maxPlansPerRun: nat

    constructor (nodeTimeout: int, maxPlansPerRun: int)
      ensures this.nodeTimeout == nodeTimeout
      ensures this.maxPlansPerRun == if maxPlansPerRun <= 0 then 32 else maxPlansPerRun
    {
      this.nodeTimeout := nodeTimeout;
      this.maxPlansPerRun := if maxPlansPerRun <= 0 then 32 else maxPlansPerRun;
    }

    /** A pass is a run of failover steps, each enabled where it is taken, from a failed node to the
        one with the most room.  Without an error all of them went through, and with budget left
        nothing is left to plan.  An error is that of the last step, or is due to a chunk of no
        recorded file. */
    method PlanOnce(repo: Repository, now: int, publishes: ChunkId -> bool,
                    ghost disks: map<NodeId, map<ChunkId, Bytes>>)
      returns (err: Option<StoreError>, ghost actions: seq<Action>)
      requires Sound(repo.state)
      modifies repo
      ensures |actions| <= maxPlansPerRun
      ensures err.None? ==> Ran(World(old(repo.state), disks), repo.state, actions, now, nodeTimeout)
      ensures err.Some? ==> Broke(World(old(repo.state), disks), repo.state, actions, err.value, now, nodeTimeout)
      ensures err.None? && |actions| < maxPlansPerRun ==> forall n :: NodeDone(repo.state, n, now, nodeTimeout)
      ensures err.None? && |actions| < maxPlansPerRun ==>
                forall c, n :: Replaceable(repo.state, c, n, now, nodeTimeout) ==>
                  forall m :: m in repo.state.nodes ==> !Fits(repo.state.nodes[m], repo.state.chunks[c])
      ensures AllGo(World(old(repo.state), disks), actions)
    {
      err, actions := PlanNodes(repo, now, publishes, disks);
      PassEnds(World(old(repo.state), disks), repo.state, actions, err, now, nodeTimeout);
      if err.None? && |actions| < maxPlansPerRun {
        NothingReplaceable(repo.state, now, nodeTimeout);
      }
    }

    /** The loop of the pass. */
    method PlanNodes(repo: Repository, now: int, publishes: ChunkId -> bool,
                     ghost disks: map<NodeId, map<ChunkId, Bytes>>)
      returns (err: Option<StoreError>, ghost actions: seq<Action>)
      requires Sound(repo.state)
      modifies repo
      ensures |actions| <= maxPlansPerRun
      ensures err.None? ==> Ran(World(old(repo.state), disks), repo.state, actions, now, nodeTimeout)
      ensures err.Some? ==> Broke(World(old(repo.state), disks), repo.state, actions, err.value, now, nodeTimeout)
      ensures err.None? && |actions| < maxPlansPerRun ==> forall n :: NodeDone(repo.state, n, now, nodeTimeout)
    {
      var nodes := ListNodes(repo.state);
      var remaining := maxPlansPerRun;
      err, actions := None, [];
      ghost var start := World(repo.state, disks);
      for i := 0 to |nodes|
        invariant Ran(start, repo.state, actions, now, nodeTimeout)
        invariant |actions| + remaining == maxPlansPerRun && err == None
        invariant remaining > 0 ==> NodesDone(repo.state, nodes, i, now, nodeTimeout)
      {
        if remaining == 0 {
          return;
        }
        assert nodes[i] in Elements(nodes);
        if Unavailable(nodes[i], now, nodeTimeout) {
          var planned;
          planned, err, actions := PlanNode(repo, nodes, i, now, remaining, publishes, nodeTimeout, start, actions);
          if err.Some? {
            return;
          }
          remaining := remaining - planned;
        } else {
          AvailableIsDone(repo.state, nodes[i].id, now, nodeTimeout);
          OneMoreNodeDone(repo.state, repo.state, nodes, i, now, nodeTimeout);
        }
      }
      if remaining > 0 {
        AllNodesDone(repo.state, nodes, now, nodeTimeout);
      }
    }
  }
}

/** The rebalance planner (internal/mds/coordinator/rebalance.go): moves at most one replica
    off each overfull node per pass. */
module RebalancePlanner {
  import opened Wrappers
  import opened Metadata
  import opened Strings
  import opened Sorting
  import opened ReplicaStore
  import opened Coordinator
  import opened ReplicaProtocol
  import opened Store
  import opened PlanningQueries
  import opened PlanningLaws
  import opened PlanningPass
  import FailoverPlanner

  type Disks = map<NodeId, map<ChunkId, Bytes>>

  /** Sort the healthy nodes into those above the high and those below the low watermark. */
  method ClassifyNodePressure(nodes: seq<Node>, high: real, low: real)
    returns (overfull: seq<Node>, underfull: seq<Node>)
    requires Distinct(nodes)
    ensures Distinct(underfull) && Distinct(overfull)
    ensures forall n :: n in overfull <==> n in nodes && Overfull(n, high)
    ensures forall n :: n in underfull <==> n in nodes && Underfull(n, high, low)
    ensures forall n :: n in overfull <==> n in nodes && Pressed(n, high)
    ensures forall n :: n in underfull <==> n in nodes && Relaxed(n, high, low)
  {
    overfull, underfull := [], [];
    for i := 0 to |nodes|
      invariant Distinct(underfull) && Distinct(overfull)
      invariant forall n :: n in overfull <==> n in nodes[..i] && Overfull(n, high)
      invariant forall n :: n in underfull <==> n in nodes[..i] && Underfull(n, high, low)
    {
      var node := nodes[i];
      assert nodes[..i + 1] == nodes[..i] + [node];
      if node.healthy {
        var ratio := UsageRatio(node);
        assert node !in nodes[..i];
        if ratio >= high {
          overfull := overfull + [node];
        } else if ratio <= low {
          underfull := underfull + [node];
        }
      }
    }
    assert nodes[..|nodes|] == nodes;
    forall n | n in nodes
      ensures Overfull(n, high) == Pressed(n, high) && Underfull(n, high, low) == Relaxed(n, high, low)
    {
      WatermarksIff(n, high, low);
    }
  }

  ghost predicate Immovable(s: State, c: ChunkId, source: NodeId, high: real, low: real) {
    forall target :: !CanRebalance(s, c, source, target, high, low)
  }

  /** Where one chunk may move, if anywhere. */
  method SelectMove(s: State, chunk: Chunk, source: NodeId, underfull: seq<Node>, high: real, low: real)
    returns (target: Option<NodeId>)
    requires Keyed(s) && source in s.nodes && Overfull(s.nodes[source], high)
    requires chunk.id in s.chunks && s.chunks[chunk.id] == chunk && source in chunk.replicas
    requires Distinct(underfull) && Elements(underfull) == UnderfullNodes(s, high, low)
    ensures target.Some? ==> CanRebalance(s, chunk.id, source, target.value, high, low)
    ensures target.None? ==> Immovable(s, chunk.id, source, high, low)
  {
    var active := HasActivePlan(s, chunk.id, {Failover, Rebalance});
    if active {
      return None;
    }
    var effective := CountEffectiveReadyReplicas(chunk, s.nodes);
    if effective < RebalanceDesired(chunk) {
      return None;
    }
    NodesById(s);
    var selected := SelectTarget(underfull, chunk);
    target := if selected.Some? then Some(selected.value.id) else None;
  }

  /** No chunk on the node that comes before this one, by file and index, may move. */
  ghost predicate NoneBefore(s: State, chunk: Chunk, source: NodeId, high: real, low: real) {
    forall c :: c in s.chunks && source in s.chunks[c].replicas && ByFileAndIndex(s.chunks[c], chunk) ==>
      Immovable(s, c, source, high, low)
  }

  lemma FirstInOrder(s: State, chunks: seq<Chunk>, i: nat, source: NodeId, high: real, low: real)
    requires i < |chunks| && Sorted(ByFileAndIndex, chunks) && Keyed(s)
    requires forall c :: c in chunks <==> c.id in s.chunks && s.chunks[c.id] == c && source in c.replicas
    requires forall j :: 0 <= j < i ==> Immovable(s, chunks[j].id, source, high, low)
    ensures NoneBefore(s, chunks[i], source, high, low)
  {
    forall c | c in s.chunks && source in s.chunks[c].replicas && ByFileAndIndex(s.chunks[c], chunks[i])
      ensures Immovable(s, c, source, high, low)
    {
      assert s.chunks[c] in chunks;
      var j :| 0 <= j < |chunks| && chunks[j] == s.chunks[c];
      assert i < j ==> ByFileAndIndex(chunks[i], chunks[j]);
      NotBothWays(chunks[i], chunks[j]);
    }
  }

  lemma NotBothWays(a: Chunk, b: Chunk)
    ensures !(ByFileAndIndex(a, b) && ByFileAndIndex(b, a))
  {
    LessIrreflexive(a.fileId);
    if Less(a.fileId, b.fileId) && Less(b.fileId, a.fileId) {
      LessTransitive(a.fileId, b.fileId, a.fileId);
    }
  }

  /** The first chunk on the source that may move, with its best target; none exactly when no
      chunk on the source may move anywhere. */
  method SelectReplicaToMove(s: State, source: NodeId, underfull: seq<Node>, high: real, low: real)
    returns (move: Option<(Chunk, NodeId)>)
    requires Keyed(s) && source in s.nodes && Overfull(s.nodes[source], high)
    requires Distinct(underfull) && Elements(underfull) == UnderfullNodes(s, high, low)
    ensures move.Some? ==> move.value.0.id in s.chunks && s.chunks[move.value.0.id] == move.value.0
    ensures move.Some? ==> CanRebalance(s, move.value.0.id, source, move.value.1, high, low)
    ensures move.None? ==> forall c :: Immovable(s, c, source, high, low)
    ensures move.Some? && SlotsUnique(s) ==> NoneBefore(s, move.value.0, source, high, low)
  {
    var chunks := ListChunksByNode(s, source);
    for i := 0 to |chunks|
      invariant forall j :: 0 <= j < i ==> Immovable(s, chunks[j].id, source, high, low)
    {
      assert chunks[i] in chunks;
      var target := SelectMove(s, chunks[i], source, underfull, high, low);
      if target.Some? {
        if SlotsUnique(s) {
          FirstInOrder(s, chunks, i, source, high, low);
        }
        return Some((chunks[i], target.value));
      }
    }
    move := None;
    forall c ensures Immovable(s, c, source, high, low) {
      if c in s.chunks && source in s.chunks[c].replicas {
        assert s.chunks[c] in chunks;
      }
    }
  }

  /** A failed publication is rolled back and not reported. */
  method PlanReplicaMove(repo: Repository, chunk: Chunk, source: NodeId, target: NodeId, now: int, published: bool,
                         ghost high: real, ghost low: real)
    returns (err: Option<StoreError>)
    requires chunk.id in repo.state.chunks && repo.state.chunks[chunk.id] == chunk
    requires CanRebalance(repo.state, chunk.id, source, target, high, low)
    modifies repo
    ensures repo.state == PlanRebalance(old(repo.state), chunk.id, source, target, now, high, low, published)
    ensures err == PlanRefused(old(repo.state), NewPlan(Rebalance, chunk, source, target, now))
  {
    var required := RequiredPlacementBytes(chunk);
    var plan := Plan("rebalance-" + chunk.id + "-" + target + "-" + Stamp(now), Rebalance, chunk.id, chunk.fileId,
                     source, target, required, Materialized, 0, now);
    assert plan == NewPlan(Rebalance, chunk, source, target, now);
    err := FailoverPlanner.PlanTransaction(repo, plan, chunk, Secondary, published);
    if err == Some(PublishFailed) {
      err := None;
    }
    RefusalIsNoPublication(old(repo.state), plan);
  }

  lemma RefusalIsNoPublication(s: State, plan: Plan)
    ensures PlanRefused(s, plan) != Some(PublishFailed)
  {
  }

  // ---------------------------------------------------------------- one move never enables another

  /** Whether a chunk may move depends only on the nodes, its replicas, size and wish, and its plans. */
  lemma SameChance(s: State, t: State, c: ChunkId, n: NodeId, target: NodeId, high: real, low: real)
    requires t.nodes == s.nodes && (c in t.chunks) == (c in s.chunks)
    requires c in s.chunks ==> t.chunks[c] == s.chunks[c].(policy := t.chunks[c].policy)
    requires c in s.chunks ==> t.chunks[c].policy.desired == s.chunks[c].policy.desired
    requires ActivePlans(t, c, {Failover, Rebalance}) == ActivePlans(s, c, {Failover, Rebalance})
    ensures CanRebalance(t, c, n, target, high, low) == CanRebalance(s, c, n, target, high, low)
  {
    assert UnderfullNodes(t, high, low) == UnderfullNodes(s, high, low);
  }

  lemma RecordedMove(s: State, plan: Plan, chunk: Chunk, c: ChunkId, n: NodeId, high: real, low: real)
    requires chunk.id == plan.chunkId && chunk.id in s.chunks && plan.id !in s.plans
    requires plan.kind == Rebalance && plan.state == Materialized && Immovable(s, c, n, high, low)
    ensures Immovable(Materialize(s, plan, chunk, Secondary), c, n, high, low)
  {
    var t := Materialize(s, plan, chunk, Secondary);
    if c == plan.chunkId {
      assert plan.id in ActivePlans(t, c, {Failover, Rebalance});
    } else {
      OtherPlans(s, plan, chunk, c);
      forall target ensures !CanRebalance(t, c, n, target, high, low) {
        SameChance(s, t, c, n, target, high, low);
      }
    }
  }

  lemma OtherPlans(s: State, plan: Plan, chunk: Chunk, c: ChunkId)
    requires chunk.id == plan.chunkId && chunk.id in s.chunks && plan.id !in s.plans && c != plan.chunkId
    ensures var t := Materialize(s, plan, chunk, Secondary);
            ActivePlans(t, c, {Failover, Rebalance}) == ActivePlans(s, c, {Failover, Rebalance})
  {
  }

  lemma RolledBackMove(s: State, plan: Plan, c: ChunkId, n: NodeId, high: real, low: real)
    requires Sound(s) && plan.chunkId in s.chunks && plan.id !in s.plans
    requires plan.target !in s.chunks[plan.chunkId].replicas && Immovable(s, c, n, high, low)
    ensures Immovable(Rollback(Materialize(s, plan, s.chunks[plan.chunkId], Secondary), plan, s.chunks[plan.chunkId]),
                      c, n, high, low)
  {
    RollbackRestores(s, plan, Secondary);
    var d := s.chunks[plan.chunkId];
    var t := s.(chunks := s.chunks[plan.chunkId := d.(policy := d.policy.(current := |d.replicas|))]);
    forall target ensures !CanRebalance(t, c, n, target, high, low) {
      SameChance(s, t, c, n, target, high, low);
    }
  }

  lemma MoveKeepsImmovable(s: State, a: Action, c: ChunkId, n: NodeId)
    requires Sound(s) && a.RebalanceAction? && CanRebalance(s, a.chunk, a.source, a.target, a.high, a.low)
    requires Immovable(s, c, n, a.high, a.low)
    ensures Immovable(PlanRebalance(s, a.chunk, a.source, a.target, a.now, a.high, a.low, a.published), c, n, a.high,
                      a.low)
  {
    var chunk := s.chunks[a.chunk];
    var plan := NewPlan(Rebalance, chunk, a.source, a.target, a.now);
    RebalanceIsFresh(s, a.chunk, a.source, a.target, a.now, a.high, a.low);
    if MayPlan(s, plan, chunk) {
      if a.published {
        RecordedMove(s, plan, chunk, c, n, a.high, a.low);
      } else {
        RolledBackMove(s, plan, c, n, a.high, a.low);
      }
    }
  }

  // ---------------------------------------------------------------- a pass

  /** No chunk on the node may move. */
  ghost predicate NodeSettled(s: State, n: NodeId, high: real, low: real) {
    forall c :: Immovable(s, c, n, high, low)
  }

  /** The pass settled on a move off the node and published it or not. */
  predicate Moves(actions: seq<Action>, n: NodeId, published: bool) {
    exists i :: 0 <= i < |actions| && actions[i].RebalanceAction? && actions[i].source == n
      && actions[i].published == published
  }

  predicate Tried(actions: seq<Action>, n: NodeId) {
    Moves(actions, n, true) || Moves(actions, n, false)
  }

  /** `actions` lead from `start` to `s`: rebalance steps of this pass, at most one per source. */
  ghost predicate LedTo(start: World, s: State, actions: seq<Action>, now: int, high: real, low: real) {
    && World(s, start.disks) == Run(start, actions)
    && Sound(s) && s.nodes == start.db.nodes
    && (forall i :: 0 <= i < |actions| ==>
          actions[i].RebalanceAction? && actions[i].now == now && actions[i].high == high && actions[i].low == low)
    && forall i, j :: 0 <= i < j < |actions| ==> actions[i].source != actions[j].source
  }

  /** So far every plan of the pass has been accepted. */
  ghost predicate Ran(start: World, s: State, actions: seq<Action>, now: int, high: real, low: real) {
    LedTo(start, s, actions, now, high, low) && AllAccepted(start, actions)
  }

  /** The pass has ended with an error: the last plan was refused. */
  ghost predicate Broke(start: World, s: State, actions: seq<Action>, err: StoreError, now: int, high: real,
                        low: real) {
    LedTo(start, s, actions, now, high, low) && LastFails(start, actions, err, false)
  }

  lemma LedOneMore(start: World, s: State, actions: seq<Action>, a: Action)
    requires a.RebalanceAction? && LedTo(start, s, actions, a.now, a.high, a.low) && !Tried(actions, a.source)
    requires CanRebalance(s, a.chunk, a.source, a.target, a.high, a.low)
    ensures LedTo(start, PlanRebalance(s, a.chunk, a.source, a.target, a.now, a.high, a.low, a.published),
                  actions + [a], a.now, a.high, a.low)
  {
    var w := World(s, start.disks);
    StepSound(w, a);
    var c := s.chunks[a.chunk];
    var plan := NewPlan(Rebalance, c, a.source, a.target, a.now);
    FailoverPlanner.PlanOutcomeKeeps(s, plan, c, Secondary, MayPlan(s, plan, c), a.published);
    RunAppend(start, actions, [a]);
    forall i | 0 <= i < |actions| ensures actions[i].source != a.source {
      assert !Moves(actions, a.source, actions[i].published);
    }
  }

  lemma RanOneMore(start: World, s: State, actions: seq<Action>, a: Action)
    requires a.RebalanceAction? && Ran(start, s, actions, a.now, a.high, a.low) && !Tried(actions, a.source)
             && Accepted(s, a)
    ensures Ran(start, PlanRebalance(s, a.chunk, a.source, a.target, a.now, a.high, a.low, a.published), actions + [a],
                a.now, a.high, a.low)
  {
    LedOneMore(start, s, actions, a);
    AcceptedOneMore(start, actions, a);
  }

  lemma BreaksOff(start: World, s: State, actions: seq<Action>, a: Action, err: StoreError)
    requires a.RebalanceAction? && Ran(start, s, actions, a.now, a.high, a.low) && !Tried(actions, a.source)
             && Enabled(s, a)
    requires PlanRefused(s, PlanOf(s, a)) == Some(err)
    ensures Broke(start, PlanRebalance(s, a.chunk, a.source, a.target, a.now, a.high, a.low, a.published),
                  actions + [a], err, a.now, a.high, a.low)
  {
    LedOneMore(start, s, actions, a);
    FailsLast(start, actions, a, err, false);
  }

  /** The first `k` nodes have had a move tried, or none of their chunks may move. */
  ghost predicate Handled(s: State, nodes: seq<Node>, k: nat, actions: seq<Action>, high: real, low: real)
    requires k <= |nodes|
  {
    forall j :: 0 <= j < k ==> Tried(actions, nodes[j].id) || NodeSettled(s, nodes[j].id, high, low)
  }

  lemma TriedOneMore(actions: seq<Action>, a: Action, n: NodeId)
    requires a.RebalanceAction?
    ensures Tried(actions + [a], n) <==> Tried(actions, n) || a.source == n
  {
    var more := actions + [a];
    forall p | Moves(actions, n, p) ensures Moves(more, n, p) {
      var i :| 0 <= i < |actions| && actions[i].RebalanceAction? && actions[i].source == n && actions[i].published == p;
      assert more[i] == actions[i];
    }
    forall p | Moves(more, n, p) ensures Moves(actions, n, p) || a.source == n {
      var i :| 0 <= i < |more| && more[i].RebalanceAction? && more[i].source == n && more[i].published == p;
      assert i < |actions| ==> more[i] == actions[i];
    }
    assert more[|actions|] == a;
    assert a.source == n ==> Moves(more, n, a.published);
  }

  lemma NodeStaysSettled(s: State, a: Action, n: NodeId)
    requires Sound(s) && a.RebalanceAction? && CanRebalance(s, a.chunk, a.source, a.target, a.high, a.low)
    requires NodeSettled(s, n, a.high, a.low)
    ensures NodeSettled(PlanRebalance(s, a.chunk, a.source, a.target, a.now, a.high, a.low, a.published), n, a.high,
                        a.low)
  {
    forall c ensures Immovable(PlanRebalance(s, a.chunk, a.source, a.target, a.now, a.high, a.low, a.published), c, n,
                               a.high, a.low)
    {
      MoveKeepsImmovable(s, a, c, n);
    }
  }

  lemma HandledOneMore(s: State, nodes: seq<Node>, k: nat, actions: seq<Action>, a: Action)
    requires Sound(s) && k < |nodes| && a.RebalanceAction? && a.source == nodes[k].id
    requires CanRebalance(s, a.chunk, a.source, a.target, a.high, a.low) && Handled(s, nodes, k, actions, a.high, a.low)
    ensures Handled(PlanRebalance(s, a.chunk, a.source, a.target, a.now, a.high, a.low, a.published), nodes, k + 1,
                    actions + [a], a.high, a.low)
  {
    var t := PlanRebalance(s, a.chunk, a.source, a.target, a.now, a.high, a.low, a.published);
    forall j | 0 <= j < k + 1 ensures Tried(actions + [a], nodes[j].id) || NodeSettled(t, nodes[j].id, a.high, a.low) {
      HandledNode(s, nodes[j].id, actions, a);
    }
  }

  lemma HandledNode(s: State, n: NodeId, actions: seq<Action>, a: Action)
    requires Sound(s) && a.RebalanceAction? && CanRebalance(s, a.chunk, a.source, a.target, a.high, a.low)
    requires a.source == n || Tried(actions, n) || NodeSettled(s, n, a.high, a.low)
    ensures Tried(actions + [a], n)
            || NodeSettled(PlanRebalance(s, a.chunk, a.source, a.target, a.now, a.high, a.low, a.published), n, a.high,
                           a.low)
  {
    TriedOneMore(actions, a, n);
    if !Tried(actions + [a], n) {
      NodeStaysSettled(s, a, n);
    }
  }

  /** One overfull node. */
  method MoveOne(repo: Repository, overfull: seq<Node>, k: nat, underfull: seq<Node>, now: int, high: real, low: real,
                 publishes: ChunkId -> bool, ghost start: World, ghost actions: seq<Action>)
    returns (moved: bool, err: Option<StoreError>, ghost actions': seq<Action>)
    requires k < |overfull| && Ran(start, repo.state, actions, now, high, low)
    requires Handled(repo.state, overfull, k, actions, high, low)
    requires overfull[k].id in repo.state.nodes && Overfull(repo.state.nodes[overfull[k].id], high)
    requires !Tried(actions, overfull[k].id)
    requires Distinct(underfull) && Elements(underfull) == UnderfullNodes(repo.state, high, low)
    modifies repo
    ensures |actions'| == |actions| + if moved then 1 else 0
    ensures err.Some? ==> Broke(start, repo.state, actions', err.value, now, high, low)
    ensures err.None? ==> Ran(start, repo.state, actions', now, high, low)
    ensures err.None? ==> Handled(repo.state, overfull, k + 1, actions', high, low)
    ensures forall n :: n != overfull[k].id && Tried(actions', n) ==> Tried(actions, n)
  {
    actions', moved, err := actions, false, None;
    var source := overfull[k].id;
    var move := SelectReplicaToMove(repo.state, source, underfull, high, low);
    if move.Some? {
      var chunk, target := move.value.0, move.value.1;
      ghost var before := repo.state;
      ghost var a := RebalanceAction(chunk.id, source, target, now, high, low, publishes(chunk.id));
      err := PlanReplicaMove(repo, chunk, source, target, now, publishes(chunk.id), high, low);
      ActedNext(start, before, repo.state, overfull, k, actions, a, err);
      actions', moved := actions + [a], true;
      forall n | n != source ensures Tried(actions', n) ==> Tried(actions, n) {
        TriedOneMore(actions, a, n);
      }
    }
  }

  lemma ActedNext(start: World, s: State, t: State, overfull: seq<Node>, k: nat, actions: seq<Action>, a: Action,
                  err: Option<StoreError>)
    requires a.RebalanceAction? && Ran(start, s, actions, a.now, a.high, a.low) && Enabled(s, a)
    requires k < |overfull| && a.source == overfull[k].id && !Tried(actions, a.source)
    requires Handled(s, overfull, k, actions, a.high, a.low)
    requires t == PlanRebalance(s, a.chunk, a.source, a.target, a.now, a.high, a.low, a.published)
    requires err == PlanRefused(s, PlanOf(s, a))
    ensures err.Some? ==> Broke(start, t, actions + [a], err.value, a.now, a.high, a.low)
    ensures err.None? ==> Ran(start, t, actions + [a], a.now, a.high, a.low)
    ensures err.None? ==> Handled(t, overfull, k + 1, actions + [a], a.high, a.low)
  {
    if err.Some? {
      BreaksOff(start, s, actions, a, err.value);
    } else {
      RanOneMore(start, s, actions, a);
      HandledOneMore(s, overfull, k, actions, a);
    }
  }

  /** Every node above the high watermark had its move planned, published or not, or has no chunk that
      may move, or no node below the low one has room for such a chunk. */
  ghost predicate Relieved(s: State, actions: seq<Action>, high: real, low: real) {
    forall n :: n in s.nodes && Pressed(s.nodes[n], high) ==>
      Moves(actions, n, true) || Moves(actions, n, false) || StaysPressed(s, n, high, low)
  }

  ghost predicate StaysPressed(s: State, n: NodeId, high: real, low: real) {
    forall c :: Movable(s, c, n, high) ==>
      forall m :: m in s.nodes && Relaxed(s.nodes[m], high, low) ==> !Fits(s.nodes[m], s.chunks[c])
  }

  lemma NothingMovable(s: State, n: NodeId, high: real, low: real)
    requires Keyed(s) && NodeSettled(s, n, high, low)
    ensures StaysPressed(s, n, high, low)
  {
    forall c | Movable(s, c, n, high)
      ensures forall m :: m in s.nodes && Relaxed(s.nodes[m], high, low) ==> !Fits(s.nodes[m], s.chunks[c])
    {
      assert Immovable(s, c, n, high, low);
      RebalanceCalledForIff(s, c, n, high, low);
    }
  }

  lemma AllRelieved(s: State, actions: seq<Action>, high: real, low: real)
    requires Keyed(s)
    requires forall n :: n in s.nodes && Overfull(s.nodes[n], high) ==>
               Moves(actions, n, true) || Moves(actions, n, false) || NodeSettled(s, n, high, low)
    ensures Relieved(s, actions, high, low)
  {
    forall n | n in s.nodes && Pressed(s.nodes[n], high)
      ensures Moves(actions, n, true) || Moves(actions, n, false) || StaysPressed(s, n, high, low)
    {
      WatermarksIff(s.nodes[n], high, low);
      if NodeSettled(s, n, high, low) {
        NothingMovable(s, n, high, low);
      }
    }
  }

  lemma PassEnds(start: World, s: State, actions: seq<Action>, err: Option<StoreError>, now: int, high: real, low: real)
    requires Sound(start.db)
    requires err.None? ==> Ran(start, s, actions, now, high, low)
    requires err.Some? ==> Broke(start, s, actions, err.value, now, high, low)
    ensures AllGo(start, actions)
  {
    assert AllAccepted(start, actions) || LastFails(start, actions, err.value, false);
    PassGoes(start, actions);
  }

  /** In a whole pass, a node between the watermarks neither gives nor takes a replica. */
  lemma MiddleNodesSpared(start: World, actions: seq<Action>, n: NodeId, high: real, low: real, k: nat)
    requires AllGo(start, actions) && k < |actions|
    requires actions[k].RebalanceAction? && actions[k].high == high && actions[k].low == low
    requires n in start.db.nodes && Between(start.db.nodes[n], high, low)
    ensures actions[k].source != n && actions[k].target != n
  {
    assert StepGoes(start, actions, k);
    BetweenIsNeither(start.db.nodes[n], high, low);
  }

  class Planner {
    const high: real
    const low: real
    const maxPlansPerRun: nat

    constructor (high: real, low: real, maxPlansPerRun: int)
      ensures this.high == (if high <= 0.0 then 0.85 else high) && this.low == if low <= 0.0 then 0.60 else low
      ensures this.maxPlansPerRun == if maxPlansPerRun <= 0 then 32 else maxPlansPerRun
    {
      this.high := if high <= 0.0 then 0.85 else high;
      this.low := if low <= 0.0 then 0.60 else low;
      this.maxPlansPerRun := if maxPlansPerRun <= 0 then 32 else maxPlansPerRun;
    }

    /** A pass is a run of rebalance steps, each enabled where it is taken, from a node above the high
        watermark to the one with the most room below the low one, at most one per node and within the
        budget.  Without an error all plans were accepted, and with budget left every
        overfull node had a move planned, or one that could not be published and was rolled
        back, or has no chunk that may move.  An error is the refusal of the last plan. */
    method PlanOnce(repo: Repository, now: int, publishes: ChunkId -> bool, ghost disks: Disks)
      returns (err: Option<StoreError>, ghost actions: seq<Action>)
      requires Sound(repo.state)
      modifies repo
      ensures |actions| <= maxPlansPerRun
      ensures err.None? ==> Ran(World(old(repo.state), disks), repo.state, actions, now, high, low)
      ensures err.Some? ==> Broke(World(old(repo.state), disks), repo.state, actions, err.value, now, high, low)
      ensures err.None? && |actions| < maxPlansPerRun ==>
                forall n :: n in repo.state.nodes && Overfull(repo.state.nodes[n], high) ==>
                  Moves(actions, n, true) || Moves(actions, n, false) || NodeSettled(repo.state, n, high, low)
      ensures err.None? && |actions| < maxPlansPerRun ==> Relieved(repo.state, actions, high, low)
      ensures AllGo(World(old(repo.state), disks), actions)
    {
      err, actions := PlanMoves(repo, now, publishes, disks);
      PassEnds(World(old(repo.state), disks), repo.state, actions, err, now, high, low);
      if err.None? && |actions| < maxPlansPerRun {
        AllRelieved(repo.state, actions, high, low);
      }
    }

    /** The loop of the pass. */
    method PlanMoves(repo: Repository, now: int, publishes: ChunkId -> bool, ghost disks: Disks)
      returns (err: Option<StoreError>, ghost actions: seq<Action>)
      requires Sound(repo.state)
      modifies repo
      ensures |actions| <= maxPlansPerRun
      ensures err.None? ==> Ran(World(old(repo.state), disks), repo.state, actions, now, high, low)
      ensures err.Some? ==> Broke(World(old(repo.state), disks), repo.state, actions, err.value, now, high, low)
      ensures err.None? && |actions| < maxPlansPerRun ==>
                forall n :: n in repo.state.nodes && Overfull(repo.state.nodes[n], high) ==>
                  Moves(actions, n, true) || Moves(actions, n, false) || NodeSettled(repo.state, n, high, low)
    {
      var nodes := ListNodes(repo.state);
      var overfull, underfull := ClassifyNodePressure(nodes, high, low);
      ghost var start := World(repo.state, disks);
      OverfullNames(start.db, nodes, overfull, underfull, high, low);
      var remaining := maxPlansPerRun;
      err, actions := None, [];
      for i := 0 to |overfull|
        invariant Ran(start, repo.state, actions, now, high, low)
                  && Handled(repo.state, overfull, i, actions, high, low)
        invariant |actions| + remaining == maxPlansPerRun && err == None
        invariant forall j :: i <= j < |overfull| ==> !Tried(actions, overfull[j].id)
      {
        if remaining == 0 {
          return;
        }
        assert UnderfullNodes(repo.state, high, low) == UnderfullNodes(start.db, high, low);
        var moved;
        moved, err, actions := MoveOne(repo, overfull, i, underfull, now, high, low, publishes, start, actions);
        if moved {
          remaining := remaining - 1;
        }
        if err.Some? {
          return;
        }
      }
      assert forall n :: n in start.db.nodes && Overfull(start.db.nodes[n], high) ==>
                           exists j :: 0 <= j < |overfull| && overfull[j].id == n;
    }
  }

  lemma OverfullNames(s: State, nodes: seq<Node>, overfull: seq<Node>, underfull: seq<Node>, high: real, low: real)
    requires Keyed(s) && Elements(nodes) == NodeSet(s) && Distinct(overfull)
    requires forall n :: n in overfull <==> n in nodes && Overfull(n, high)
    requires forall n :: n in underfull <==> n in nodes && Underfull(n, high, low)
    ensures Elements(underfull) == UnderfullNodes(s, high, low)
    ensures forall j :: 0 <= j < |overfull| ==>
              overfull[j].id in s.nodes && s.nodes[overfull[j].id] == overfull[j] && Overfull(overfull[j], high)
    ensures forall i, j :: 0 <= i < j < |overfull| ==> overfull[i].id != overfull[j].id
    ensures forall n :: n in s.nodes && Overfull(s.nodes[n], high) ==>
              exists j :: 0 <= j < |overfull| && overfull[j].id == n
  {
    assert forall n :: n in nodes <==> n in Elements(nodes);
    forall n | n in s.nodes && Overfull(s.nodes[n], high)
      ensures exists j :: 0 <= j < |overfull| && overfull[j].id == n
    {
      assert s.nodes[n] in NodeSet(s);
      assert s.nodes[n] in overfull;
    }
    forall j | 0 <= j < |overfull|
      ensures overfull[j].id in s.nodes && s.nodes[overfull[j].id] == overfull[j] && Overfull(overfull[j], high)
    {
      assert overfull[j] in overfull;
    }
  }
}

/** What calls for a plan, said on the fields of nodes, chunks and plans: when a node counts as
    failed, which node has room for a chunk, which side of the watermarks a move goes from and to,
    and what an accepted plan puts on record. */
module PlanningLaws {
  import opened Metadata
  import opened Strings
  import opened Placement
  import opened Sorting
  import opened ReplicaStore
  import opened Coordinator
  import opened ReplicaProtocol

  // ---------------------------------------------------------------- room for a chunk

  /** The node is up, can be reached, has no replica of the chunk, and has room for it: for the
      largest of its ready replicas, or for the chunk's own size if none of them holds anything. */
  predicate Fits(n: Node, c: Chunk) {
    && n.healthy && !Blank(n.address) && n.id !in c.replicas
    && 0 <= n.used < n.capacity
    && (forall m :: m in c.replicas && c.replicas[m].state == Ready ==>
          n.used + c.replicas[m].storedSize <= n.capacity)
    && (n.used + c.size <= n.capacity
        || exists m :: m in c.replicas && c.replicas[m].state == Ready && c.replicas[m].storedSize > 0)
  }

  lemma FitsIff(n: Node, c: Chunk)
    ensures Eligible(n, c.replicas.Keys, RequiredBytes(c)) <==> Fits(n, c)
  {
    var m := MaxReadyStored(c.replicas);
    if m > 0 {
      var k :| k in c.replicas && c.replicas[k].state == Ready && c.replicas[k].storedSize == m;
    }
  }

  /** The better of two nodes with room has more free space, or as much and the smaller id. */
  predicate Preferable(a: Node, b: Node) {
    a.capacity - a.used > b.capacity - b.used || (a.capacity - a.used == b.capacity - b.used && Less(a.id, b.id))
  }

  ghost predicate IsBest(candidates: set<Node>, c: Chunk, n: Node) {
    n in candidates && Fits(n, c) && forall m :: m in candidates && m != n && Fits(m, c) ==> Preferable(n, m)
  }

  lemma SoleTarget(candidates: set<Node>, c: Chunk, n: Node)
    requires n in candidates
    ensures IsPlacement(candidates, c.replicas.Keys, RequiredBytes(c), 1, [n]) <==> IsBest(candidates, c, n)
  {
    var eligible := EligibleNodes(candidates, c.replicas.Keys, RequiredBytes(c));
    forall m | m in candidates ensures m in eligible <==> Fits(m, c) {
      FitsIff(m, c);
    }
    assert Elements([n]) == {n} by {
      assert [n][0] == n;
    }
    if Fits(n, c) {
      SubsetSize({n}, eligible);
    }
    assert forall m :: m in eligible - {n} <==> m in candidates && m != n && Fits(m, c);
  }

  /** The target of a plan is the best of the candidates with room. */
  lemma BestTargetIff(candidates: set<Node>, c: Chunk, target: NodeId)
    ensures IsBestTarget(candidates, c, target) <==> exists n: Node :: n.id == target && IsBest(candidates, c, n)
  {
    forall n | n in candidates
      ensures IsPlacement(candidates, c.replicas.Keys, RequiredBytes(c), 1, [n]) <==> IsBest(candidates, c, n)
    {
      SoleTarget(candidates, c, n);
    }
  }

  lemma BestExists(candidates: set<Node>, c: Chunk, k: Node) returns (n: Node)
    requires DistinctIds(candidates) && k in candidates && Fits(k, c)
    ensures IsBest(candidates, c, n)
  {
    var fitting := set m | m in candidates && Fits(m, c);
    assert k in fitting;
    BetterStrictTotal(fitting);
    n := LeastExists(Better, fitting);
    forall m | m in candidates && m != n && Fits(m, c) ensures Preferable(n, m) {
      assert m in fitting && Better(n, m);
    }
  }

  /** A target can be chosen exactly when some candidate has room. */
  lemma TargetExistsIff(candidates: set<Node>, c: Chunk)
    requires DistinctIds(candidates)
    ensures (exists target :: IsBestTarget(candidates, c, target)) <==> exists n :: n in candidates && Fits(n, c)
  {
    if k :| k in candidates && Fits(k, c) {
      var n := BestExists(candidates, c, k);
      BestTargetIff(candidates, c, n.id);
    }
    if target :| IsBestTarget(candidates, c, target) {
      BestTargetIff(candidates, c, target);
    }
  }

  // ---------------------------------------------------------------- failover

  /** What the chunk asks for, else what its file asks for, else three. */
  function WantedReplicas(s: State, c: ChunkId): int
    requires c in s.chunks && s.chunks[c].fileId in s.files
  {
    if s.chunks[c].policy.desired > 0 then s.chunks[c].policy.desired
    else if s.files[s.chunks[c].fileId].policy.desired > 0 then s.files[s.chunks[c].fileId].policy.desired
    else 3
  }

  /** The node is down, or has been silent for longer than the timeout. */
  predicate Failed(n: Node, now: int, timeout: int) {
    !n.healthy || (timeout > 0 && (n.lastSeenAt.None? || n.lastSeenAt.value + timeout < now))
  }

  /** A replica on node `n` is to be replaced: the node has failed, too few of the chunk's replicas
      are ready on healthy nodes, and no failover plan for the chunk is under way. */
  predicate Replaceable(s: State, c: ChunkId, n: NodeId, now: int, timeout: int) {
    && n in s.nodes && c in s.chunks && n in s.chunks[c].replicas && s.chunks[c].fileId in s.files
    && Failed(s.nodes[n], now, timeout)
    && |ServedBy(s, c)| < WantedReplicas(s, c)
    && forall p :: p in s.plans && s.plans[p].chunkId == c && s.plans[p].kind == Failover ==>
         s.plans[p].state == Done || s.plans[p].state == PlanFailed
  }

  /** The healthy nodes with a ready replica of the chunk. */
  function ServedBy(s: State, c: ChunkId): set<NodeId>
    requires c in s.chunks
  {
    set m | m in s.nodes && s.nodes[m].healthy && m in s.chunks[c].replicas && s.chunks[c].replicas[m].state == Ready
  }

  lemma CanFailoverIff(s: State, c: ChunkId, n: NodeId, target: NodeId, now: int, timeout: int)
    ensures CanFailover(s, c, n, target, now, timeout) <==>
            Replaceable(s, c, n, now, timeout) && IsBestTarget(NodeSet(s), s.chunks[c], target)
  {
    NoActiveIff(s, c, {Failover});
    if c in s.chunks {
      assert EffectiveReady(s.chunks[c], s.nodes) == ServedBy(s, c);
    }
  }

  /** A plan is made for it exactly when, besides, some node has room for the chunk. */
  lemma FailoverCalledForIff(s: State, c: ChunkId, n: NodeId, now: int, timeout: int)
    requires Keyed(s)
    ensures (exists target :: CanFailover(s, c, n, target, now, timeout)) <==>
            Replaceable(s, c, n, now, timeout) && exists m :: m in s.nodes && Fits(s.nodes[m], s.chunks[c])
  {
    forall target
      ensures CanFailover(s, c, n, target, now, timeout) <==>
              Replaceable(s, c, n, now, timeout) && IsBestTarget(NodeSet(s), s.chunks[c], target)
    {
      CanFailoverIff(s, c, n, target, now, timeout);
    }
    if Replaceable(s, c, n, now, timeout) {
      NodesApart(s);
      TargetExistsIff(NodeSet(s), s.chunks[c]);
      SomeNodeFits(s, s.chunks[c]);
    }
  }

  lemma NodesApart(s: State)
    requires Keyed(s)
    ensures DistinctIds(NodeSet(s))
  {
  }

  lemma SomeNodeFits(s: State, c: Chunk)
    ensures (exists n :: n in NodeSet(s) && Fits(n, c)) <==> exists m :: m in s.nodes && Fits(s.nodes[m], c)
  {
    if m :| m in s.nodes && Fits(s.nodes[m], c) {
      assert s.nodes[m] in NodeSet(s);
    }
  }

  lemma NoActiveIff(s: State, c: ChunkId, kinds: set<PlanType>)
    ensures ActivePlans(s, c, kinds) == {} <==>
            forall p :: p in s.plans && s.plans[p].chunkId == c && s.plans[p].kind in kinds ==>
              s.plans[p].state == Done || s.plans[p].state == PlanFailed
  {
    forall p | p in s.plans && s.plans[p].chunkId == c && s.plans[p].kind in kinds
      ensures p in ActivePlans(s, c, kinds) <==> !(s.plans[p].state == Done || s.plans[p].state == PlanFailed)
    {
    }
  }

  /** What the chosen target offers. */
  lemma TargetFits(s: State, c: ChunkId, candidates: set<Node>, target: NodeId)
    requires Keyed(s) && c in s.chunks && candidates <= NodeSet(s) && IsBestTarget(candidates, s.chunks[c], target)
    ensures target in s.nodes && IsBest(candidates, s.chunks[c], s.nodes[target])
  {
    BestTargetIff(candidates, s.chunks[c], target);
    var n: Node :| n.id == target && IsBest(candidates, s.chunks[c], n);
    assert n in NodeSet(s);
  }

  /** A failover goes from a failed node to the node with the most room. */
  lemma FailoverGoes(s: State, c: ChunkId, n: NodeId, target: NodeId, now: int, timeout: int)
    requires Keyed(s) && CanFailover(s, c, n, target, now, timeout)
    ensures n in s.nodes && Failed(s.nodes[n], now, timeout)
    ensures target in s.nodes && IsBest(NodeSet(s), s.chunks[c], s.nodes[target])
  {
    TargetFits(s, c, NodeSet(s), target);
  }

  // ---------------------------------------------------------------- rebalance

  /** The share of a node that is in use, compared with a watermark without dividing. */
  lemma RatioIff(node: Node, mark: real)
    requires node.capacity > 0
    ensures UsageRatio(node) >= mark <==> node.used as real >= mark * node.capacity as real
    ensures UsageRatio(node) <= mark <==> node.used as real <= mark * node.capacity as real
  {
    Scaled(node.used as real, node.capacity as real, mark);
  }

  lemma Scaled(used: real, capacity: real, mark: real)
    requires capacity > 0.0
    ensures used / capacity >= mark <==> used >= mark * capacity
    ensures used / capacity <= mark <==> used <= mark * capacity
  {
    var ratio := used / capacity;
    assert ratio * capacity == used;
    if ratio > mark {
      assert (ratio - mark) * capacity > 0.0;
    } else if ratio < mark {
      assert (mark - ratio) * capacity > 0.0;
    }
  }

  /** At or above the high watermark; a node without capacity counts as full. */
  predicate Pressed(n: Node, high: real) {
    n.healthy && if n.capacity <= 0 then high <= 1.0 else n.used as real >= high * n.capacity as real
  }

  /** Below the high watermark and at or below the low one. */
  predicate Relaxed(n: Node, high: real, low: real) {
    && n.healthy
    && if n.capacity <= 0 then 1.0 < high && 1.0 <= low
       else n.used as real < high * n.capacity as real && n.used as real <= low * n.capacity as real
  }

  lemma WatermarksIff(n: Node, high: real, low: real)
    ensures Overfull(n, high) <==> Pressed(n, high)
    ensures Underfull(n, high, low) <==> Relaxed(n, high, low)
  {
    if n.capacity > 0 {
      RatioIff(n, high);
      RatioIff(n, low);
    }
  }

  /** A replica on node `n` is to be moved: the node is above the high watermark, the chunk has
      enough ready replicas on healthy nodes, and no plan for it is under way. */
  predicate Movable(s: State, c: ChunkId, n: NodeId, high: real) {
    && n in s.nodes && c in s.chunks && n in s.chunks[c].replicas
    && Pressed(s.nodes[n], high)
    && |ServedBy(s, c)| >= (if s.chunks[c].policy.desired > 0 then s.chunks[c].policy.desired else 3)
    && forall p :: p in s.plans && s.plans[p].chunkId == c && s.plans[p].kind != Cleanup ==>
         s.plans[p].state == Done || s.plans[p].state == PlanFailed
  }

  lemma CanRebalanceIff(s: State, c: ChunkId, n: NodeId, target: NodeId, high: real, low: real)
    ensures CanRebalance(s, c, n, target, high, low) <==>
            Movable(s, c, n, high) && IsBestTarget(UnderfullNodes(s, high, low), s.chunks[c], target)
  {
    NoActiveIff(s, c, {Failover, Rebalance});
    if n in s.nodes {
      WatermarksIff(s.nodes[n], high, low);
    }
    if c in s.chunks {
      assert EffectiveReady(s.chunks[c], s.nodes) == ServedBy(s, c);
    }
  }

  /** A move is planned for it exactly when, besides, a node below the low watermark has room. */
  lemma RebalanceCalledForIff(s: State, c: ChunkId, n: NodeId, high: real, low: real)
    requires Keyed(s)
    ensures (exists target :: CanRebalance(s, c, n, target, high, low)) <==>
            && Movable(s, c, n, high)
            && exists m :: m in s.nodes && Relaxed(s.nodes[m], high, low) && Fits(s.nodes[m], s.chunks[c])
  {
    forall target
      ensures CanRebalance(s, c, n, target, high, low) <==>
              Movable(s, c, n, high) && IsBestTarget(UnderfullNodes(s, high, low), s.chunks[c], target)
    {
      CanRebalanceIff(s, c, n, target, high, low);
    }
    if Movable(s, c, n, high) {
      NodesApart(s);
      TargetExistsIff(UnderfullNodes(s, high, low), s.chunks[c]);
      SomeRelaxedFits(s, s.chunks[c], high, low);
    }
  }

  lemma SomeRelaxedFits(s: State, c: Chunk, high: real, low: real)
    ensures (exists n :: n in UnderfullNodes(s, high, low) && Fits(n, c)) <==>
            exists m :: m in s.nodes && Relaxed(s.nodes[m], high, low) && Fits(s.nodes[m], c)
  {
    forall m | m in s.nodes ensures s.nodes[m] in UnderfullNodes(s, high, low) <==> Relaxed(s.nodes[m], high, low) {
      WatermarksIff(s.nodes[m], high, low);
    }
  }

  /** A move goes from a node at or above the high watermark to one below it and at or below the low
      one, which has a capacity and the most room of these. */
  lemma RebalanceGoes(s: State, c: ChunkId, n: NodeId, target: NodeId, high: real, low: real)
    requires Keyed(s) && CanRebalance(s, c, n, target, high, low)
    ensures n in s.nodes && Pressed(s.nodes[n], high)
    ensures target in s.nodes && Relaxed(s.nodes[target], high, low) && s.nodes[target].capacity > 0
    ensures IsBest(UnderfullNodes(s, high, low), s.chunks[c], s.nodes[target])
  {
    CanRebalanceIff(s, c, n, target, high, low);
    TargetFits(s, c, UnderfullNodes(s, high, low), target);
    WatermarksIff(s.nodes[target], high, low);
  }

  predicate Between(n: Node, high: real, low: real) {
    n.capacity > 0 && low * n.capacity as real < n.used as real < high * n.capacity as real
  }

  lemma BetweenIsNeither(n: Node, high: real, low: real)
    requires Between(n, high, low)
    ensures !Pressed(n, high) && !Relaxed(n, high, low)
  {
  }

  /** A node between the watermarks is neither the source of a move nor its target. */
  lemma BetweenWatermarks(s: State, c: ChunkId, n: NodeId, target: NodeId, high: real, low: real)
    requires Keyed(s) && CanRebalance(s, c, n, target, high, low)
    ensures n in s.nodes && !Between(s.nodes[n], high, low)
    ensures target in s.nodes && !Between(s.nodes[target], high, low)
  {
    RebalanceGoes(s, c, n, target, high, low);
    if Between(s.nodes[n], high, low) {
      BetweenIsNeither(s.nodes[n], high, low);
    }
    if Between(s.nodes[target], high, low) {
      BetweenIsNeither(s.nodes[target], high, low);
    }
  }

  // ---------------------------------------------------------------- what is put on record

  /** The chunk with one more replica: pending, empty, and counted. */
  predicate ReplicaAdded(c: Chunk, d: Chunk, target: NodeId, role: ReplicaRole) {
    && d.replicas == c.replicas[target := Replica(target, c.fileId, c.id, role, Pending, EMPTY_CHECKSUM, 0)]
    && d.replicaCount == |c.replicas| + 1
    && d.policy == ReplicaPolicy(if c.policy.desired > 0 then c.policy.desired else 3, c.policy.minimum,
                                 |c.replicas| + 1)
    && d == c.(replicas := d.replicas, replicaCount := d.replicaCount, policy := d.policy)
  }

  lemma PatchAdds(c: Chunk, target: NodeId, role: ReplicaRole)
    ensures ReplicaAdded(c, Patched(c, PlanPatch(c, target, role)), target, role)
  {
    var added := PendingReplica(c, target, role);
    assert (c.replicas + map[target := added]) - {} == c.replicas[target := added];
  }

  /** The time in a plan's id: its digits, after a minus sign if it is negative. */
  lemma StampSpells(now: int)
    ensures now >= 0 ==> NumberOf(Stamp(now)) == now
    ensures now < 0 ==> Stamp(now) != "" && Stamp(now)[0] == '-' && NumberOf(Stamp(now)[1..]) == -now
  {
    if now >= 0 {
      DecimalSpells(now);
    } else {
      DecimalSpells(-now);
      assert Stamp(now)[1..] == Decimal(-now);
    }
  }

  /** What an accepted and published plan puts on record, and that it changes nothing else. */
  lemma PlanRecorded(s: State, kind: PlanType, chunk: Chunk, source: NodeId, target: NodeId, role: ReplicaRole,
                     now: int)
    requires chunk.id in s.chunks && s.chunks[chunk.id] == chunk && kind != Cleanup
    requires PlanRefused(s, NewPlan(kind, chunk, source, target, now)).None?
    ensures var t := PlanAndPublish(s, NewPlan(kind, chunk, source, target, now), chunk, role, true);
            var id := (if kind == Failover then "failover-" else "rebalance-")
                      + chunk.id + "-" + target + "-" + Stamp(now);
            && t == s.(plans := t.plans, chunks := t.chunks) && id !in s.plans
            && t.plans == s.plans[id := Plan(id, kind, chunk.id, chunk.fileId, source, target, RequiredBytes(chunk),
                                             Materialized, 0, now)]
            && chunk.id in t.chunks && t.chunks == s.chunks[chunk.id := t.chunks[chunk.id]]
            && ReplicaAdded(chunk, t.chunks[chunk.id], target, role)
  {
    PatchAdds(chunk, target, role);
  }

  /** Both planners record their plan with a secondary replica on the target. */
  lemma PlannersRecord(s: State, c: ChunkId, source: NodeId, target: NodeId, now: int, timeout: int, high: real,
                       low: real, published: bool)
    ensures CanFailover(s, c, source, target, now, timeout) ==>
              PlanFailover(s, c, source, target, now, timeout, published) ==
              PlanAndPublish(s, NewPlan(Failover, s.chunks[c], source, target, now), s.chunks[c], Secondary, published)
    ensures CanRebalance(s, c, source, target, high, low) ==>
              PlanRebalance(s, c, source, target, now, high, low, published) ==
              PlanAndPublish(s, NewPlan(Rebalance, s.chunks[c], source, target, now), s.chunks[c], Secondary, published)
  {
    if CanFailover(s, c, source, target, now, timeout) {
      assert source in s.chunks[c].replicas && |s.chunks[c].replicas| != 0;
    }
  }

  /** The store takes a plan exactly when its ids are set, source and target differ, and no plan has
      its id, nor an unfinished one its kind, chunk and target. */
  lemma PlanTakenIff(s: State, plan: Plan)
    ensures PlanRefused(s, plan).None? <==>
            && !Blank(plan.id) && plan.chunkId != "" && plan.fileId != "" && plan.source != "" && plan.target != ""
            && plan.source != plan.target && plan.requiredBytes >= 0 && plan.id !in s.plans
            && forall p :: p in s.plans && s.plans[p].kind == plan.kind && s.plans[p].chunkId == plan.chunkId
                           && s.plans[p].target == plan.target ==>
                 s.plans[p].state == Done || s.plans[p].state == PlanFailed
  {
  }
}

/** Plans that are never settled although their target is ready.  Failover planning ignores active
    rebalance plans, so two plans may share a source; whichever settles first takes the source
    replica away, and a failover plan whose source is gone is stranded.  A rebalance plan is stuck
    once its source has deleted its bytes without being able to say so. */
module StrandedPlans {
  import opened Metadata
  import opened ReplicaStore
  import opened Coordinator
  import opened ReplicaProtocol
  import opened ReplicaSafety

  /** An active failover plan whose source replica is no longer recorded. */
  predicate Stranded(s: State, id: PlanId) {
    && id in s.plans && s.plans[id].kind == Failover && !Terminal(s.plans[id].state)
    && s.plans[id].chunkId in s.chunks
    && s.plans[id].source !in s.chunks[s.plans[id].chunkId].replicas
  }

  /** Settling a plan whose target is ready completes it exactly when its source replica is still
      recorded and, for a rebalance plan, the source acknowledges deleting bytes that it has. */
  lemma SettledIff(w: World, id: PlanId, del: Delete)
    requires Sound(w.db) && Finalizable(w.db, id)
    ensures id in FinalizePlan(w, id, del).db.plans
    ensures FinalizePlan(w, id, del).db.plans[id].state == Done <==>
            && w.db.plans[id].source in Replicas(w.db, w.db.plans[id].chunkId)
            && SourceReleased(w, w.db.plans[id], del)
  {
    var change := CleanupChange(w, id, del);
  }

  // ---------------------------------------------------------------- failover: the source is gone

  lemma ChangeKeepsStranded(s: State, t: State, change: Change, id: PlanId)
    requires Stranded(s, id) && Becomes(s, t, change) && !Replaces(change, s.plans[id].chunkId)
    requires change.PlanAdded? ==> FreshPlan(s, change.plan)
    ensures Stranded(t, id) && t.plans[id].chunkId == s.plans[id].chunkId && t.plans[id].source == s.plans[id].source
    ensures Active(t.plans, s.plans[id].chunkId) <= Active(s.plans, s.plans[id].chunkId)
    ensures forall n :: n in Replicas(t, s.plans[id].chunkId) ==> n in Replicas(s, s.plans[id].chunkId)
  {
    assert change.PlanAdded? ==> change.plan.chunkId != s.plans[id].chunkId by {
      var kind := if change.PlanAdded? then change.plan.kind else Failover;
      assert id in ActivePlans(s, s.plans[id].chunkId, {Failover, kind});
    }
  }

  /** A stranded plan stays active in every run in which no client replaces or drops its chunk.  No
      new plan is ever made for the chunk and no node ever joins its replicas again: the chunk is
      out of reach of failover. */
  lemma {:induction false} StrandedForever(w: World, actions: seq<Action>, id: PlanId)
    requires Sound(w.db) && Stranded(w.db, id) && RecordLeft(actions, w.db.plans[id].chunkId)
    ensures var t := Run(w, actions).db;
            && Stranded(t, id) && t.plans[id].chunkId == w.db.plans[id].chunkId
            && Active(t.plans, w.db.plans[id].chunkId) <= Active(w.db.plans, w.db.plans[id].chunkId)
            && forall n :: n in Replicas(t, w.db.plans[id].chunkId) ==> n in Replicas(w.db, w.db.plans[id].chunkId)
    decreases |actions|
  {
    if actions != [] {
      var v := Step(w, actions[0]);
      var change := StepChange(w, actions[0]);
      RecordLeftTail(actions, w.db.plans[id].chunkId);
      ChangeKeepsStranded(w.db, v.db, change, id);
      StepSound(w, actions[0]);
      StrandedForever(v, actions[1..], id);
    }
  }

  /** Two plans of a chunk that share a source strand the failover one of them as soon as the
      other is settled. */
  lemma SettlingStrands(w: World, other: PlanId, del: Delete, id: PlanId)
    requires Sound(w.db) && SharesSource(w.db, id, other)
    requires Finalizable(w.db, other) && w.db.plans[other].source in Replicas(w.db, w.db.plans[other].chunkId)
    ensures Stranded(FinalizePlan(w, other, del).db, id) <==> SourceReleased(w, w.db.plans[other], del)
  {
    var change := CleanupChange(w, other, del);
  }

  /** Such pairs arise: a failover plan can be made beside an active rebalance plan that has
      the failed node as its source. */
  lemma OverlapArises(w: World, chunk: ChunkId, failed: NodeId, target: NodeId, now: int, nodeTimeout: int,
                      other: PlanId)
    requires Sound(w.db) && CanFailover(w.db, chunk, failed, target, now, nodeTimeout)
    requires other in w.db.plans && w.db.plans[other].chunkId == chunk && w.db.plans[other].source == failed
    requires MayPlan(w.db, NewPlan(Failover, w.db.chunks[chunk], failed, target, now), w.db.chunks[chunk])
    ensures var t := Step(w, FailoverAction(chunk, failed, target, now, nodeTimeout, true)).db;
            SharesSource(t, NewPlan(Failover, w.db.chunks[chunk], failed, target, now).id, other)
            && other in t.plans && t.plans[other] == w.db.plans[other]
  {
    var c := w.db.chunks[chunk];
    var plan := NewPlan(Failover, c, failed, target, now);
    var role := if |c.replicas| == 0 then Primary else Secondary;
    assert Step(w, FailoverAction(chunk, failed, target, now, nodeTimeout, true)).db
           == Materialize(w.db, plan, c, role);
    PlannedBeside(w.db, plan, c, role, other);
  }

  predicate SharesSource(t: State, id: PlanId, other: PlanId) {
    && id != other && id in t.plans && other in t.plans
    && t.plans[id].kind == Failover && !Terminal(t.plans[id].state)
    && t.plans[id].chunkId == t.plans[other].chunkId && t.plans[id].source == t.plans[other].source
  }

  lemma PlannedBeside(s: State, plan: Plan, c: Chunk, role: ReplicaRole, other: PlanId)
    requires c.id in s.chunks && plan.id !in s.plans && plan.kind == Failover && plan.state == Materialized
    requires other in s.plans && s.plans[other].chunkId == plan.chunkId && s.plans[other].source == plan.source
    ensures var t := Materialize(s, plan, c, role);
            SharesSource(t, plan.id, other) && other in t.plans && t.plans[other] == s.plans[other]
  {
  }

  // ---------------------------------------------------------------- rebalance: the bytes are gone

  /** An active rebalance plan whose source replica is recorded as ready but not on disk. */
  predicate Hollow(w: World, id: PlanId) {
    && id in w.db.plans && w.db.plans[id].kind == Rebalance && !Terminal(w.db.plans[id].state)
    && var plan := w.db.plans[id];
       && plan.source in ReadyNodes(Replicas(w.db, plan.chunkId))
       && plan.chunkId !in Disk(w, plan.source)
  }

  /** A delete that is carried out but not acknowledged leaves such a plan behind. */
  lemma LostAckHollows(w: World, id: PlanId)
    requires Sound(w.db) && id in w.db.plans && LosesReplica(w, id, AckLost, w.db.plans[id].chunkId)
    ensures Hollow(FinalizePlan(w, id, AckLost), id)
  {
    LostDelete(w, id, w.db.plans[id].chunkId);
  }

  /** The step settles a failover plan for the same chunk and source. */
  predicate SettlesFailover(s: State, a: Action, chunk: ChunkId, source: NodeId) {
    && a.CleanupAction? && Finalizable(s, a.plan)
    && s.plans[a.plan].kind == Failover && s.plans[a.plan].chunkId == chunk && s.plans[a.plan].source == source
  }

  lemma PlanningKeepsHollow(w: World, a: Action, id: PlanId)
    requires Sound(w.db) && Hollow(w, id) && (a.FailoverAction? || a.RebalanceAction?)
    ensures SamePlan(w, Step(w, a), id) && Hollow(Step(w, a), id)
  {
    var change := PlannerChange(w, a);
    RecordsKeepHollow(w, Step(w, a), change, id);
  }

  lemma RecordsKeepHollow(w: World, v: World, change: Change, id: PlanId)
    requires Becomes(w.db, v.db, change) && (change.Untouched? || change.PlanAdded?) && v.disks == w.disks
    requires Hollow(w, id)
    ensures SamePlan(w, v, id) && Hollow(v, id)
  {
  }

  /** The plan keeps its chunk and source. */
  predicate SamePlan(w: World, v: World, id: PlanId) {
    && id in w.db.plans && id in v.db.plans
    && v.db.plans[id].chunkId == w.db.plans[id].chunkId && v.db.plans[id].source == w.db.plans[id].source
  }

  /** Repair sends bytes to pending replicas only. */
  lemma RepairKeepsHollow(w: World, chunk: ChunkId, source: NodeId, due: set<NodeId>, net: Net, id: PlanId)
    requires Sound(w.db) && Hollow(w, id)
    ensures var v := RepairChunk(w, chunk, source, due, net); SamePlan(w, v, id) && Hollow(v, id)
  {
    var v := RepairChunk(w, chunk, source, due, net);
    var change := RepairChange(w, chunk, source, due, net);
    if CanCopy(w, chunk, source, due) {
      var targets := Dispatched(w.db, due) * net.delivered;
      DiskAfterCopy(w, v.db, chunk, Disk(w, source)[chunk], targets, w.db.plans[id].source);
    }
  }

  lemma CleanupHollowIff(w: World, plan: PlanId, del: Delete, id: PlanId)
    requires Sound(w.db) && Hollow(w, id)
    ensures var v := FinalizePlan(w, plan, del);
            && SamePlan(w, v, id)
            && (Hollow(v, id) <==>
                  !SettlesFailover(w.db, CleanupAction(plan, del), w.db.plans[id].chunkId, w.db.plans[id].source))
  {
    var c, source := w.db.plans[id].chunkId, w.db.plans[id].source;
    if SettlesFailover(w.db, CleanupAction(plan, del), c, source) {
      SettledElsewhere(w, plan, del, id);
    } else {
      NotSettled(w, plan, del, id);
    }
  }

  lemma SettledElsewhere(w: World, plan: PlanId, del: Delete, id: PlanId)
    requires Sound(w.db) && Hollow(w, id)
    requires SettlesFailover(w.db, CleanupAction(plan, del), w.db.plans[id].chunkId, w.db.plans[id].source)
    ensures var v := FinalizePlan(w, plan, del); SamePlan(w, v, id) && !Hollow(v, id)
  {
    assert FinishPlan(w.db, w.db.plans[plan]).Ok?;
  }

  lemma NotSettled(w: World, plan: PlanId, del: Delete, id: PlanId)
    requires Sound(w.db) && Hollow(w, id)
    requires !SettlesFailover(w.db, CleanupAction(plan, del), w.db.plans[id].chunkId, w.db.plans[id].source)
    ensures var v := FinalizePlan(w, plan, del); SamePlan(w, v, id) && Hollow(v, id)
  {
    var change := CleanupChange(w, plan, del);
    DropOnly(w, plan, del, w.db.plans[id].source, w.db.plans[id].chunkId);
  }

  /** Clean-up puts nothing on a disk. */
  lemma DropOnly(w: World, plan: PlanId, del: Delete, n: NodeId, c: ChunkId)
    ensures c in Disk(FinalizePlan(w, plan, del), n) ==> c in Disk(w, n)
  {
  }

  /** A client writes to the source under the chunk's id, has a new record committed under it, or
      drops the chunk. */
  predicate Renews(s: State, a: Action, chunk: ChunkId, source: NodeId) {
    || (a.UploadAction? && a.record.id == chunk
        && (source in a.nodes || (a.committed && CanCommit(s, a.record, a.nodes, a.db))))
    || (a.OtherTransaction? && SameReplication(s, a.db) && chunk !in a.db.chunks)
  }

  lemma UploadHollowIff(w: World, a: Action, id: PlanId)
    requires Sound(w.db) && Hollow(w, id) && a.UploadAction?
    ensures SamePlan(w, Step(w, a), id)
    ensures Hollow(Step(w, a), id) <==> !Renews(w.db, a, w.db.plans[id].chunkId, w.db.plans[id].source)
  {
    DiskAfterCopy(w, Step(w, a).db, a.record.id, a.data, a.nodes, w.db.plans[id].source);
  }

  lemma OtherHollowIff(w: World, a: Action, id: PlanId)
    requires Sound(w.db) && Hollow(w, id) && (a.NodeReport? || a.EraseAction? || a.OtherTransaction?)
    ensures SamePlan(w, Step(w, a), id)
    ensures Hollow(Step(w, a), id) <==> !Renews(w.db, a, w.db.plans[id].chunkId, w.db.plans[id].source)
  {
  }

  /** What ends a hollow plan: a failover plan for the same chunk and source is settled, or a client
      renews the chunk. */
  predicate Relieves(s: State, a: Action, chunk: ChunkId, source: NodeId) {
    SettlesFailover(s, a, chunk, source) || Renews(s, a, chunk, source)
  }

  /** One step of any kind leaves the plan hollow exactly unless it relieves it. */
  lemma HollowKeptIff(w: World, a: Action, id: PlanId)
    requires Sound(w.db) && Hollow(w, id)
    ensures SamePlan(w, Step(w, a), id)
    ensures Hollow(Step(w, a), id) <==> !Relieves(w.db, a, w.db.plans[id].chunkId, w.db.plans[id].source)
  {
    if a.FailoverAction? || a.RebalanceAction? {
      PlanningKeepsHollow(w, a, id);
    } else if a.RepairAction? {
      RepairKeepsHollow(w, a.chunk, a.source, a.due, a.net, id);
    } else if a.CleanupAction? {
      CleanupHollowIff(w, a.plan, a.del, id);
    } else if a.UploadAction? {
      UploadHollowIff(w, a, id);
    } else {
      OtherHollowIff(w, a, id);
    }
  }

  /** No step of the run relieves plans for this chunk and source. */
  ghost predicate NoneRelieves(w: World, actions: seq<Action>, chunk: ChunkId, source: NodeId)
    decreases |actions|
  {
    actions == [] ||
    (!Relieves(w.db, actions[0], chunk, source) && NoneRelieves(Step(w, actions[0]), actions[1..], chunk, source))
  }

  /** In every run in which no failover plan for the chunk and source settles and no client renews
      the chunk, the source stays recorded as ready without having the bytes, and the plan stays
      active. */
  lemma {:induction false} HollowForever(w: World, actions: seq<Action>, id: PlanId)
    requires Sound(w.db) && Hollow(w, id)
    requires NoneRelieves(w, actions, w.db.plans[id].chunkId, w.db.plans[id].source)
    ensures Hollow(Run(w, actions), id) && SamePlan(w, Run(w, actions), id)
    decreases |actions|
  {
    if actions != [] {
      HollowKeptIff(w, actions[0], id);
      StepSound(w, actions[0]);
      HollowForever(Step(w, actions[0]), actions[1..], id);
    }
  }
}

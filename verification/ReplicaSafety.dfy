/** What the replica protocol guarantees about plans and about the stored bytes. */
module ReplicaSafety {
  import opened Wrappers
  import opened Metadata
  import opened ReplicaStore
  import opened Coordinator
  import opened ReplicaProtocol

  // ---------------------------------------------------------------- plans

  predicate BothActive(p: Plan, q: Plan) {
    p.chunkId == q.chunkId && p.kind == q.kind && !Terminal(p.state) && !Terminal(q.state)
  }

  /** A chunk has at most one active plan of each kind, and no plan moves a replica onto its own source. */
  predicate PlansUnique(plans: Plans) {
    && (forall p :: p in plans ==> plans[p].source != plans[p].target)
    && (forall p, q :: p in plans && q in plans && BothActive(plans[p], plans[q]) ==> p == q)
  }

  lemma NewPlanUnique(plans: Plans, plan: Plan)
    requires PlansUnique(plans) && plan.id !in plans && plan.source != plan.target
    requires forall p :: p in plans ==> !BothActive(plans[p], plan)
    ensures PlansUnique(plans[plan.id := plan])
  {
  }

  lemma NoneActive(plans: Plans, s: State, plan: Plan)
    requires plans == s.plans && ActivePlans(s, plan.chunkId, {Failover, plan.kind}) == {}
    ensures forall p :: p in plans ==> !BothActive(plans[p], plan)
  {
    forall p | p in plans ensures !BothActive(plans[p], plan) {
      assert p !in ActivePlans(s, plan.chunkId, {Failover, plan.kind});
    }
  }

  /** Finishing or retrying a plan makes no plan active. */
  lemma SettledUnique(plans: Plans, id: PlanId, plan: Plan)
    requires PlansUnique(plans) && id in plans
    requires plan == plans[id].(state := Done) || plan == plans[id].(retryCount := plan.retryCount)
    ensures PlansUnique(plans[id := plan])
  {
    var plans' := plans[id := plan];
    forall p, q | p in plans' && q in plans' && BothActive(plans'[p], plans'[q]) ensures p == q {
      assert BothActive(plans[p], plans[q]);
    }
  }

  lemma ChangeKeepsUnique(s: State, t: State, change: Change)
    requires Becomes(s, t, change) && PlansUnique(s.plans)
    requires change.PlanAdded? ==> FreshPlan(s, change.plan)
    ensures PlansUnique(t.plans)
  {
    match change
    case PlanAdded(plan, _) =>
      NoneActive(s.plans, s, plan);
      NewPlanUnique(s.plans, plan);
    case PlanFinished(id) => SettledUnique(s.plans, id, t.plans[id]);
    case PlanRetried(id, _) => SettledUnique(s.plans, id, t.plans[id]);
    case _ =>
  }

  lemma StepKeepsUnique(w: World, a: Action)
    requires Sound(w.db) && PlansUnique(w.db.plans)
    ensures PlansUnique(Step(w, a).db.plans)
  {
    var change := StepChange(w, a);
    ChangeKeepsUnique(w.db, Step(w, a).db, change);
  }

  // ---------------------------------------------------------------- bytes

  /** Every ready replica of the chunk is on its node's disk and holds exactly `data`. */
  predicate AllHold(w: World, c: ChunkId, data: Bytes) {
    forall n :: n in ReadyNodes(Replicas(w.db, c)) ==> c in Disk(w, n) && Disk(w, n)[c] == data
  }

  /** Ready means stored: the ready replicas of each chunk are on disk, with the same bytes. */
  ghost predicate Stored(w: World) {
    forall c :: c in w.db.chunks ==> exists data :: AllHold(w, c, data)
  }

  /** No new ready replica, and the disks of the ready ones keep this chunk. */
  lemma QuietKeepsBytes(w: World, v: World, c: ChunkId, data: Bytes)
    requires AllHold(w, c, data)
    requires ReadyNodes(Replicas(v.db, c)) <= ReadyNodes(Replicas(w.db, c))
    requires forall n :: n in ReadyNodes(Replicas(v.db, c)) && c in Disk(w, n)
                         ==> c in Disk(v, n) && Disk(v, n)[c] == Disk(w, n)[c]
    ensures AllHold(v, c, data)
  {
  }

  /** Except by promotion, no replica of a recorded chunk becomes ready. */
  lemma ChangeAddsNoReady(s: State, t: State, change: Change, c: ChunkId)
    requires Becomes(s, t, change) && !change.Promoted? && c in s.chunks && !Replaces(change, c)
    ensures ReadyNodes(Replicas(t, c)) <= ReadyNodes(Replicas(s, c))
  {
  }

  lemma RecordsKeepBytes(w: World, v: World, change: Change, c: ChunkId, data: Bytes)
    requires Becomes(w.db, v.db, change) && !change.Promoted? && !Replaces(change, c) && v.disks == w.disks
    requires c in w.db.chunks && AllHold(w, c, data)
    ensures AllHold(v, c, data)
  {
    ChangeAddsNoReady(w.db, v.db, change, c);
    QuietKeepsBytes(w, v, c, data);
  }

  lemma PlanningKeepsBytes(w: World, a: Action, c: ChunkId, data: Bytes)
    requires Sound(w.db) && (a.FailoverAction? || a.RebalanceAction?) && c in w.db.chunks
    requires AllHold(w, c, data)
    ensures AllHold(Step(w, a), c, data)
  {
    var change := PlannerChange(w, a);
    RecordsKeepBytes(w, Step(w, a), change, c, data);
  }

  lemma DiskAfterCopy(w: World, db: State, chunk: ChunkId, data: Bytes, targets: set<NodeId>, n: NodeId)
    ensures Disk(World(db, CopyBytes(w.disks, chunk, data, targets)), n)
            == if n in targets then Disk(w, n)[chunk := data] else Disk(w, n)
  {
  }

  lemma RepairReady(c: Chunk, due: set<NodeId>, done: set<NodeId>)
    requires due <= c.replicas.Keys
    ensures var upserts := map n | n in due :: RepairedReplica(c, n, n in done);
            ReadyNodes(Patched(c, ReplicaPatch(upserts, {}, Some(|c.replicas|), None)).replicas)
            <= ReadyNodes(c.replicas) + done
  {
  }

  /** A repaired replica becomes ready only by receiving the bytes of a ready one. */
  lemma RepairKeepsBytes(w: World, chunk: ChunkId, source: NodeId, due: set<NodeId>, net: Net, c: ChunkId, data: Bytes)
    requires AllHold(w, c, data)
    ensures AllHold(RepairChunk(w, chunk, source, due, net), c, data)
  {
    var v := RepairChunk(w, chunk, source, due, net);
    if CanCopy(w, chunk, source, due) {
      var targets := Dispatched(w.db, due) * net.delivered;
      var sent := Disk(w, source)[chunk];
      assert c == chunk ==> sent == data by {
        assert source in ReadyNodes(w.db.chunks[chunk].replicas);
      }
      RepairReady(w.db.chunks[chunk], due, targets * net.acked);
      assert ReadyNodes(Replicas(v.db, c)) <= ReadyNodes(Replicas(w.db, c)) + if c == chunk then targets else {};
      forall n | n in ReadyNodes(Replicas(v.db, c)) ensures c in Disk(v, n) && Disk(v, n)[c] == data {
        DiskAfterCopy(w, v.db, chunk, sent, targets, n);
      }
    }
  }

  /** A write to data nodes, committed or not, keeps the stored bytes of a chunk exactly when it is
      under another id, or the same bytes, or reaches no ready replica of the chunk. */
  lemma WriteKeepsBytesIff(w: World, id: ChunkId, bytes: Bytes, nodes: set<NodeId>, c: ChunkId, data: Bytes)
    requires AllHold(w, c, data)
    ensures AllHold(World(w.db, CopyBytes(w.disks, id, bytes, nodes)), c, data)
            <==> (id != c || bytes == data || nodes !! ReadyNodes(Replicas(w.db, c)))
  {
    var v := World(w.db, CopyBytes(w.disks, id, bytes, nodes));
    forall n | n in ReadyNodes(Replicas(w.db, c))
      ensures c in Disk(v, n) && Disk(v, n)[c] == if n in nodes && id == c then bytes else data
    {
      DiskAfterCopy(w, w.db, id, bytes, nodes, n);
    }
    if id == c && !(nodes !! ReadyNodes(Replicas(w.db, c))) {
      var n :| n in nodes && n in ReadyNodes(Replicas(w.db, c));
      assert Disk(v, n)[c] == bytes;
    }
  }

  /** Deleting copies keeps the stored bytes of a chunk exactly when they are another chunk's, or no
      ready replica's. */
  lemma EraseKeepsBytesIff(w: World, id: ChunkId, nodes: set<NodeId>, c: ChunkId, data: Bytes)
    requires AllHold(w, c, data)
    ensures AllHold(Step(w, EraseAction(id, nodes)), c, data)
            <==> (id != c || nodes !! ReadyNodes(Replicas(w.db, c)))
  {
    var v := Step(w, EraseAction(id, nodes));
    forall n | n in ReadyNodes(Replicas(w.db, c))
      ensures c in Disk(v, n) <==> !(n in nodes && id == c)
      ensures c in Disk(v, n) ==> Disk(v, n)[c] == data
    {
      assert c in Disk(w, n) && n in w.disks;
    }
    if id == c && !(nodes !! ReadyNodes(Replicas(w.db, c))) {
      var n :| n in nodes && n in ReadyNodes(Replicas(w.db, c));
      assert c !in Disk(v, n);
    }
  }

  lemma UploadKeepsBytes(w: World, a: Action, c: ChunkId, data: Bytes)
    requires a.UploadAction? && a.record.id != c && AllHold(w, c, data)
    ensures AllHold(Step(w, a), c, data)
  {
    WriteKeepsBytesIff(w, a.record.id, a.data, a.nodes, c, data);
    SameBytes(World(w.db, CopyBytes(w.disks, a.record.id, a.data, a.nodes)), Step(w, a), c, data);
  }

  lemma SameBytes(w: World, v: World, c: ChunkId, data: Bytes)
    requires AllHold(w, c, data) && v.disks == w.disks && Replicas(v.db, c) == Replicas(w.db, c)
    ensures AllHold(v, c, data)
  {
  }

  /** Clean-up keeps the stored bytes exactly when it does not lose the acknowledgement of a
      delete: a source that deleted its bytes but could not say so keeps its ready record. */
  lemma CleanupKeepsBytesIff(w: World, id: PlanId, del: Delete, c: ChunkId, data: Bytes)
    requires Sound(w.db) && c in w.db.chunks && AllHold(w, c, data)
    ensures AllHold(FinalizePlan(w, id, del), c, data) <==> !LosesReplica(w, id, del, c)
  {
    var v := FinalizePlan(w, id, del);
    var change := CleanupChange(w, id, del);
    ChangeAddsNoReady(w.db, v.db, change, c);
    if LosesReplica(w, id, del, c) {
      var source := w.db.plans[id].source;
      LostDelete(w, id, c);
      assert source in ReadyNodes(Replicas(v.db, c)) && c !in Disk(v, source);
    } else {
      forall n | n in ReadyNodes(Replicas(v.db, c)) && c in Disk(w, n)
        ensures c in Disk(v, n) && Disk(v, n)[c] == Disk(w, n)[c]
      {
        CleanupDisk(w, id, del, n, c);
      }
      QuietKeepsBytes(w, v, c, data);
    }
  }

  lemma LostDelete(w: World, id: PlanId, c: ChunkId)
    requires Keyed(w.db) && LosesReplica(w, id, AckLost, c)
    ensures var v, source := FinalizePlan(w, id, AckLost), w.db.plans[id].source;
            Replicas(v.db, c) == Replicas(w.db, c) && c !in Disk(v, source)
  {
  }

  /** Clean-up takes a chunk off a disk only when its replica there is dropped, or lost. */
  lemma CleanupDisk(w: World, id: PlanId, del: Delete, n: NodeId, c: ChunkId)
    requires Keyed(w.db) && c in Disk(w, n) && !LosesReplica(w, id, del, c)
    requires n in ReadyNodes(Replicas(w.db, c)) && n in ReadyNodes(Replicas(FinalizePlan(w, id, del).db, c))
    ensures var v := FinalizePlan(w, id, del); c in Disk(v, n) && Disk(v, n)[c] == Disk(w, n)[c]
  {
  }

  /** The delete of a ready rebalance source is carried out but its acknowledgement is lost. */
  predicate LosesReplica(w: World, id: PlanId, del: Delete, c: ChunkId) {
    && del == AckLost
    && Finalizable(w.db, id)
    && w.db.plans[id].kind == Rebalance && w.db.plans[id].chunkId == c
    && w.db.plans[id].source in w.db.nodes
    && w.db.plans[id].source in ReadyNodes(Replicas(w.db, c))
  }

  predicate AcksKept(actions: seq<Action>) {
    forall i :: 0 <= i < |actions| && actions[i].CleanupAction? ==> actions[i].del != AckLost
  }

  /** Nobody else uses the id of the chunk: no upload names it, and no client deletes the chunk. */
  predicate LeavesAlone(a: Action, c: ChunkId) {
    && (a.UploadAction? ==> a.record.id != c)
    && (a.EraseAction? ==> a.chunk != c)
    && (a.OtherTransaction? ==> c in a.db.chunks)
  }

  predicate LeftAlone(actions: seq<Action>, c: ChunkId) {
    forall i :: 0 <= i < |actions| ==> LeavesAlone(actions[i], c)
  }

  lemma LeftAloneTail(actions: seq<Action>, c: ChunkId)
    requires actions != [] && LeftAlone(actions, c)
    ensures LeavesAlone(actions[0], c) && LeavesRecord(actions[0], c) && LeftAlone(actions[1..], c)
  {
    assert forall i :: 0 <= i < |actions[1..]| ==> actions[1..][i] == actions[i + 1];
  }

  lemma StepKeepsBytes(w: World, a: Action, c: ChunkId, data: Bytes)
    requires Sound(w.db) && c in w.db.chunks && AllHold(w, c, data)
    requires LeavesAlone(a, c) && (a.CleanupAction? ==> a.del != AckLost)
    ensures AllHold(Step(w, a), c, data)
  {
    if a.FailoverAction? || a.RebalanceAction? {
      PlanningKeepsBytes(w, a, c, data);
    } else if a.RepairAction? {
      RepairKeepsBytes(w, a.chunk, a.source, a.due, a.net, c, data);
    } else if a.CleanupAction? {
      CleanupKeepsBytesIff(w, a.plan, a.del, c, data);
    } else if a.UploadAction? {
      UploadKeepsBytes(w, a, c, data);
    } else if a.EraseAction? {
      EraseKeepsBytesIff(w, a.chunk, a.nodes, c, data);
    } else {
      var change := StepChange(w, a);
      RecordsKeepBytes(w, Step(w, a), change, c, data);
    }
  }

  // ---------------------------------------------------------------- every run

  /** Plan uniqueness holds in every reachable state. */
  lemma {:induction false} PlansStayUnique(w: World, actions: seq<Action>)
    requires Sound(w.db) && PlansUnique(w.db.plans)
    ensures PlansUnique(Run(w, actions).db.plans)
    decreases |actions|
  {
    if actions != [] {
      StepKeepsUnique(w, actions[0]);
      StepSound(w, actions[0]);
      PlansStayUnique(Step(w, actions[0]), actions[1..]);
    }
  }

  /** Over every run without lost acknowledgements and without a second use of its id, all ready
      replicas of a chunk keep holding the bytes they held at the start. */
  lemma {:induction false} BytesSurvive(w: World, actions: seq<Action>, c: ChunkId, data: Bytes)
    requires Sound(w.db) && c in w.db.chunks && AllHold(w, c, data)
    requires AcksKept(actions) && LeftAlone(actions, c)
    ensures AllHold(Run(w, actions), c, data)
    decreases |actions|
  {
    if actions != [] {
      LeftAloneTail(actions, c);
      StepKeepsBytes(w, actions[0], c, data);
      StepConserves(w, actions[0], c);
      StepSound(w, actions[0]);
      assert AcksKept(actions[1..]) by {
        assert forall i :: 0 <= i < |actions[1..]| ==> actions[1..][i] == actions[i + 1];
      }
      BytesSurvive(Step(w, actions[0]), actions[1..], c, data);
    }
  }

  /** Durability: a chunk with a ready replica holding `data`, and no plan under way, has such a
      replica after every run without lost acknowledgements and without a second use of its id. */
  lemma DataIsNeverLost(w: World, actions: seq<Action>, c: ChunkId, data: Bytes)
    requires Sound(w.db) && c in w.db.chunks && AllHold(w, c, data)
    requires Active(w.db.plans, c) == {} && ReadyNodes(Replicas(w.db, c)) != {}
    requires AcksKept(actions) && LeftAlone(actions, c)
    ensures var v := Run(w, actions);
            exists n :: n in ReadyNodes(Replicas(v.db, c)) && c in Disk(v, n) && Disk(v, n)[c] == data
  {
    var v := Run(w, actions);
    ReadyNeverDrops(w, actions, c);
    BytesSurvive(w, actions, c, data);
    assert ReadyCount(v.db, c) > 0;
    var n :| n in ReadyNodes(Replicas(v.db, c));
  }

  /** A chunk uploaded by the gateway starts out with all its ready replicas stored, whatever its
      id was used for before. */
  lemma UploadStores(w: World, record: Chunk, data: Bytes, nodes: set<NodeId>, db: State)
    requires CanCommit(w.db, record, nodes, db)
    ensures AllHold(Step(w, UploadAction(record, data, nodes, true, db)), record.id, data)
  {
    var v := Step(w, UploadAction(record, data, nodes, true, db));
    forall n | n in nodes ensures Disk(v, n) == Disk(w, n)[record.id := data] {
      DiskAfterCopy(w, db, record.id, data, nodes, n);
    }
  }

  /** Copies of a recorded chunk are deleted, or written over by an upload that is not committed. */
  predicate Overwrites(w: World, a: Action) {
    || (a.UploadAction? && a.record.id in w.db.chunks && !(a.committed && CanCommit(w.db, a.record, a.nodes, a.db)))
    || (a.EraseAction? && a.chunk in w.db.chunks)
  }

  ghost predicate NoOverwrite(w: World, actions: seq<Action>)
    decreases |actions|
  {
    actions == [] || (!Overwrites(w, actions[0]) && NoOverwrite(Step(w, actions[0]), actions[1..]))
  }

  lemma StepStored(w: World, a: Action)
    requires Sound(w.db) && Stored(w) && !Overwrites(w, a)
    requires a.CleanupAction? ==> a.del != AckLost
    ensures Stored(Step(w, a))
  {
    var v := Step(w, a);
    forall c | c in v.db.chunks ensures exists data :: AllHold(v, c, data) {
      if a.UploadAction? && a.record.id == c {
        assert a.committed && CanCommit(w.db, a.record, a.nodes, a.db);
        UploadStores(w, a.record, a.data, a.nodes, a.db);
      } else {
        KnownBefore(w, a, c);
        var data :| AllHold(w, c, data);
        KeptInPlace(w, a, c, data);
      }
    }
  }

  lemma KnownBefore(w: World, a: Action, c: ChunkId)
    requires Sound(w.db) && c in Step(w, a).db.chunks && (a.UploadAction? ==> a.record.id != c)
    ensures c in w.db.chunks
  {
    var change := StepChange(w, a);
  }

  lemma KeptInPlace(w: World, a: Action, c: ChunkId, data: Bytes)
    requires Sound(w.db) && c in w.db.chunks && c in Step(w, a).db.chunks && AllHold(w, c, data)
    requires (a.UploadAction? ==> a.record.id != c) && (a.EraseAction? ==> a.chunk != c)
    requires a.CleanupAction? ==> a.del != AckLost
    ensures AllHold(Step(w, a), c, data)
  {
    if a.OtherTransaction? {
      assert Replicas(Step(w, a).db, c) == Replicas(w.db, c);
    } else {
      StepKeepsBytes(w, a, c, data);
    }
  }

  /** Ready means stored, in every state reached without lost acknowledgements and without
      uncommitted writes and deletes under the id of a recorded chunk: for chunks uploaded before or during
      the run. */
  lemma {:induction false} ReadyMeansStored(w: World, actions: seq<Action>)
    requires Sound(w.db) && Stored(w)
    requires AcksKept(actions) && NoOverwrite(w, actions)
    ensures Stored(Run(w, actions))
    decreases |actions|
  {
    if actions != [] {
      StepStored(w, actions[0]);
      StepSound(w, actions[0]);
      assert AcksKept(actions[1..]) by {
        assert forall i :: 0 <= i < |actions[1..]| ==> actions[1..][i] == actions[i + 1];
      }
      ReadyMeansStored(Step(w, actions[0]), actions[1..]);
    }
  }
}

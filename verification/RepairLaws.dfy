/** What repairing a chunk and settling a plan do to the records and the disks, said on their fields. */
module RepairLaws {
  import opened Wrappers
  import opened Metadata
  import opened Strings
  import opened ReplicaStore
  import opened Coordinator
  import opened ReplicaProtocol

  // ---------------------------------------------------------------- disks

  /** What node `n` has under the id `c`, if anything. */
  function Held(w: World, n: NodeId, c: ChunkId): Option<Bytes> {
    if n in w.disks && c in w.disks[n] then Some(w.disks[n][c]) else None
  }

  /** Writing puts the bytes on these nodes, under this id, and nowhere else. */
  lemma WriteReaches(db: State, disks: map<NodeId, map<ChunkId, Bytes>>, id: ChunkId, data: Bytes, targets: set<NodeId>,
                     n: NodeId, c: ChunkId)
    ensures var v := World(db, CopyBytes(disks, id, data, targets));
            Held(v, n, c) == if n in targets && c == id then Some(data) else Held(World(db, disks), n, c)
  {
  }

  /** Deleting removes this one copy. */
  lemma DropReaches(db: State, disks: map<NodeId, map<ChunkId, Bytes>>, node: NodeId, id: ChunkId, n: NodeId,
                    c: ChunkId)
    ensures var v := World(db, DropFromDisk(disks, node, id));
            Held(v, n, c) == if n == node && c == id then None else Held(World(db, disks), n, c)
  {
  }

  /** A gateway delete removes the copies under this id on these nodes. */
  lemma EraseReaches(w: World, id: ChunkId, nodes: set<NodeId>, n: NodeId, c: ChunkId)
    ensures var v := Step(w, EraseAction(id, nodes));
            v.db == w.db && Held(v, n, c) == if n in nodes && c == id then None else Held(w, n, c)
  {
  }

  /** A node's report replaces its record, unless it names no node or negative sizes. */
  lemma NodeReported(w: World, node: Node)
    ensures var v := Step(w, NodeReport(node));
            && v.disks == w.disks && v.db == w.db.(nodes := v.db.nodes)
            && v.db.nodes == if node.id != "" && node.capacity >= 0 && node.used >= 0
                             then w.db.nodes[node.id := node] else w.db.nodes
  {
  }

  // ---------------------------------------------------------------- repair

  /** The source of a copy is ready: a primary if there is a ready one, else the one with the smallest
      id.  The due replicas are pending, source and due nodes are known, and the source can be reached
      and has the bytes. */
  predicate MayCopy(w: World, c: ChunkId, source: NodeId, due: set<NodeId>) {
    && c in w.db.chunks && source in w.db.nodes && !Blank(w.db.nodes[source].address)
    && Held(w, source, c).Some?
    && var replicas := w.db.chunks[c].replicas;
    && source in replicas && replicas[source].state == Ready
    && (replicas[source].role != Primary ==>
          forall n :: n in replicas && replicas[n].state == Ready ==>
            replicas[n].role != Primary && (n == source || Less(source, n)))
    && (forall n :: n in due ==> n in replicas && replicas[n].state == Pending && n in w.db.nodes)
    && (exists n :: n in due && TakesCopy(w.db, n))
  }

  /** The node is asked to take a copy: it is up, can be reached and is not full. */
  predicate TakesCopy(s: State, n: NodeId) {
    && n in s.nodes && s.nodes[n].healthy && !Blank(s.nodes[n].address) && 0 <= s.nodes[n].used < s.nodes[n].capacity
  }

  lemma MayCopyIff(w: World, c: ChunkId, source: NodeId, due: set<NodeId>)
    ensures CanCopy(w, c, source, due) <==> MayCopy(w, c, source, due)
  {
    forall n | n in due ensures n in Dispatched(w.db, due) <==> TakesCopy(w.db, n) {
    }
    assert Dispatched(w.db, due) != {} <==> exists n :: n in due && TakesCopy(w.db, n);
  }

  /** The copy to node `n` arrives, and is reported. */
  predicate Arrives(w: World, due: set<NodeId>, net: Net, n: NodeId) {
    n in due && TakesCopy(w.db, n) && n in net.delivered
  }

  /** On the disks: the copies that arrive are the source's bytes; nothing else changes. */
  lemma RepairWrites(w: World, c: ChunkId, source: NodeId, due: set<NodeId>, net: Net, n: NodeId, d: ChunkId)
    ensures var v := RepairChunk(w, c, source, due, net);
            Held(v, n, d) == if MayCopy(w, c, source, due) && d == c && Arrives(w, due, net, n) then Held(w, source, c)
                             else Held(w, n, d)
  {
    MayCopyIff(w, c, source, due);
    if CanCopy(w, c, source, due) {
      var targets := Dispatched(w.db, due) * net.delivered;
      assert n in targets <==> Arrives(w, due, net, n);
      WriteReaches(w.db, w.disks, c, Disk(w, source)[c], targets, n, d);
    }
  }

  /** A replica that has become ready holds the whole chunk; one that has not keeps what it had.  Both
      are secondaries with the chunk's checksum. */
  predicate IsRepaired(chunk: Chunk, n: NodeId, r: Replica, ready: bool)
    requires n in chunk.replicas
  {
    r == Replica(n, chunk.fileId, chunk.id, Secondary, if ready then Ready else Pending, chunk.checksum,
                 if ready then chunk.size else chunk.replicas[n].storedSize)
  }

  /** In the records: if the answer comes back, the due replicas whose copies arrived and were reported
      become ready and the other due ones stay pending; nothing else changes. */
  lemma RepairRecords(w: World, c: ChunkId, source: NodeId, due: set<NodeId>, net: Net)
    ensures !MayCopy(w, c, source, due) || !net.responded ==> RepairChunk(w, c, source, due, net).db == w.db
    ensures MayCopy(w, c, source, due) && net.responded ==>
              var t := RepairChunk(w, c, source, due, net).db;
              && c in t.chunks && t == w.db.(chunks := w.db.chunks[c := t.chunks[c]])
              && ReplicasRepaired(w, w.db.chunks[c], t.chunks[c], due, net)
  {
    MayCopyIff(w, c, source, due);
    if CanCopy(w, c, source, due) && net.responded {
      RepairPatch(w, w.db.chunks[c], due, net);
    }
  }

  predicate ReplicasRepaired(w: World, chunk: Chunk, after: Chunk, due: set<NodeId>, net: Net) {
    && after == chunk.(replicas := after.replicas, replicaCount := |chunk.replicas|)
    && after.replicas.Keys == chunk.replicas.Keys
    && (forall n :: n in chunk.replicas && n !in due ==> after.replicas[n] == chunk.replicas[n])
    && (forall n :: n in chunk.replicas && n in due ==>
          IsRepaired(chunk, n, after.replicas[n], Arrives(w, due, net, n) && n in net.acked))
  }

  lemma RepairPatch(w: World, chunk: Chunk, due: set<NodeId>, net: Net)
    requires due <= chunk.replicas.Keys
    ensures var done := Dispatched(w.db, due) * net.delivered * net.acked;
            var upserts := map n | n in due :: RepairedReplica(chunk, n, n in done);
            ReplicasRepaired(w, chunk, Patched(chunk, ReplicaPatch(upserts, {}, Some(|chunk.replicas|), None)), due,
                             net)
  {
    var done := Dispatched(w.db, due) * net.delivered * net.acked;
    assert forall n :: n in done <==> Arrives(w, due, net, n) && n in net.acked;
  }

  // ---------------------------------------------------------------- clean-up

  /** The plan waits for nothing but its source: it is a failover or rebalance plan that is under way,
      its chunk is recorded and its target ready. */
  predicate Ripe(s: State, id: PlanId) {
    && id in s.plans && s.plans[id].kind != Cleanup && s.plans[id].state in {Materialized, CopyReady, CleanupReady}
    && s.plans[id].chunkId in s.chunks
    && var replicas := s.chunks[s.plans[id].chunkId].replicas;
    s.plans[id].target in replicas && replicas[s.plans[id].target].state == Ready
  }

  /** A ripe plan is settled if its source replica is recorded and, for a rebalance plan, the source
      node is known and acknowledges deleting a copy it has. */
  predicate Settles(w: World, id: PlanId, del: Delete)
    requires Ripe(w.db, id)
  {
    var plan := w.db.plans[id];
    && plan.source in w.db.chunks[plan.chunkId].replicas
    && (plan.kind == Rebalance ==>
          plan.source in w.db.nodes && Held(w, plan.source, plan.chunkId).Some? && del == Acknowledged)
  }

  /** Settling drops the source replica and marks the plan done.  Otherwise a rebalance plan counts one
      more retry, and a failover plan stays as it is. */
  lemma SettlingRecords(w: World, id: PlanId, del: Delete)
    requires Keyed(w.db)
    ensures var t := FinalizePlan(w, id, del).db;
            if !Ripe(w.db, id) then t == w.db
            else
              var plan := w.db.plans[id];
              var chunk := w.db.chunks[plan.chunkId];
              if Settles(w, id, del) then
                t == w.db.(plans := w.db.plans[id := plan.(state := Done)],
                           chunks := w.db.chunks[plan.chunkId :=
                             chunk.(replicas := chunk.replicas - {plan.source}, replicaCount := |chunk.replicas| - 1)])
              else if plan.kind == Failover then t == w.db
              else t == w.db.(plans := w.db.plans[id := plan.(retryCount := plan.retryCount + 1)])
  {
    if Ripe(w.db, id) && Settles(w, id, del) {
      var plan := w.db.plans[id];
      OneFewer(w.db.chunks[plan.chunkId].replicas, plan.source);
    }
  }

  lemma OneFewer(replicas: ReplicaSet, n: NodeId)
    requires n in replicas
    ensures |replicas - {n}| == |replicas| - 1
  {
    assert (replicas - {n}).Keys == replicas.Keys - {n};
    assert |replicas.Keys| == |replicas| && |(replicas - {n}).Keys| == |replicas - {n}|;
  }

  /** The one copy that goes is the source's, when a rebalance plan is ripe and the delete is carried
      out, acknowledged or not. */
  lemma SettlingErases(w: World, id: PlanId, del: Delete, n: NodeId, c: ChunkId)
    ensures Held(FinalizePlan(w, id, del), n, c) ==
            if Ripe(w.db, id) && w.db.plans[id].kind == Rebalance && w.db.plans[id].source in w.db.nodes
               && del != NotDone && n == w.db.plans[id].source && c == w.db.plans[id].chunkId
            then None else Held(w, n, c)
  {
    if Ripe(w.db, id) {
      DropReaches(w.db, w.disks, w.db.plans[id].source, w.db.plans[id].chunkId, n, c);
    }
  }
}

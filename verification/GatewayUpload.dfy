/** The upload half of the gateway (internal/gateway/http.go): cut the content, write every part to
    a primary, have it replicated, commit it, and finally complete and verify the upload. */
module GatewayUpload {
  import opened Wrappers
  import opened Metadata
  import opened Strings
  import opened Sorting
  import opened Placement
  import opened Coordinator
  import opened ReplicaProtocol
  import opened ReplicaSafety
  import opened PlanningQueries
  import opened Namespace
  import opened Upload
  import opened UploadInvariants
  import opened UploadService
  import opened Parts
  import opened UploadFlow
  import opened Store
  import opened DataNodes
  import opened GatewayDownload
  import opened NamespaceRuns
  import opened UploadRuns
  import opened UploadTraces

  /** The fate of the PUT to the primary. */
  datatype Put = PutStored | PutNotDone | PutAckLost

  // ---------------------------------------------------------------- targets

  /** The nodes that can take a part. */
  ghost function Takers(s: State): set<Node> {
    EligibleNodes(NodeSet(s), {}, 0)
  }

  function TargetCount(file: File): int {
    if file.policy.desired <= 0 then 1 else file.policy.desired
  }

  predicate NamesOf(nodes: seq<Node>, names: seq<NodeId>) {
    |names| == |nodes| && forall j :: 0 <= j < |nodes| ==> names[j] == nodes[j].id
  }

  /** The ids of the best `count` nodes that can take a part, best first. */
  ghost predicate IsTargets(s: State, count: int, targets: seq<NodeId>) {
    exists nodes :: IsPlacement(NodeSet(s), {}, 0, count, nodes) && NamesOf(nodes, targets)
  }

  method AllocateUploadTargets(s: State, f: FileId) returns (targets: seq<NodeId>)
    requires Keyed(s) && f in s.files
    ensures IsTargets(s, if s.files[f].policy.desired <= 0 then 1 else s.files[f].policy.desired, targets)
    ensures var count := TargetCount(s.files[f]); |targets| == if count < |Takers(s)| then count else |Takers(s)|
    ensures Distinct(targets)
    ensures forall n :: n in targets ==> n in s.nodes && s.nodes[n] in Takers(s)
    ensures forall i, j :: 0 <= i < j < |targets| ==> Better(s.nodes[targets[i]], s.nodes[targets[j]])
    ensures forall n, m :: n in targets && m in Takers(s) && m.id !in targets ==> Better(s.nodes[n], m)
  {
    NodesById(s);
    var nodes := ListNodes(s);
    var count := TargetCount(s.files[f]);
    var selected := SelectPlacementTargets(nodes, {}, 0, count);
    targets := [];
    for i := 0 to |selected|
      invariant |targets| == i && forall j :: 0 <= j < i ==> targets[j] == selected[j].id
    {
      targets := targets + [selected[i].id];
    }
    assert NamesOf(selected, targets);
    TargetNames(s, count, selected, targets);
  }

  /** The same nodes give the same targets. */
  lemma TargetsUnique(s: State, t: State, count: int, a: seq<NodeId>, b: seq<NodeId>)
    requires Keyed(s) && t.nodes == s.nodes && IsTargets(s, count, a) && IsTargets(t, count, b)
    ensures a == b
  {
    var x :| IsPlacement(NodeSet(s), {}, 0, count, x) && NamesOf(x, a);
    var y :| IsPlacement(NodeSet(t), {}, 0, count, y) && NamesOf(y, b);
    NodesById(s);
    assert NodeSet(t) == NodeSet(s);
    PlacementUnique(NodeSet(s), {}, 0, count, x, y);
  }

  lemma TargetNames(s: State, count: int, selected: seq<Node>, targets: seq<NodeId>)
    requires Keyed(s) && IsPlacement(NodeSet(s), {}, 0, count, selected)
    requires NamesOf(selected, targets)
    ensures Distinct(targets)
    ensures forall n :: n in targets ==> n in s.nodes && s.nodes[n] in Takers(s)
    ensures forall i, j :: 0 <= i < j < |targets| ==> Better(s.nodes[targets[i]], s.nodes[targets[j]])
    ensures forall n, m :: n in targets && m in Takers(s) && m.id !in targets ==> Better(s.nodes[n], m)
  {
    forall j | 0 <= j < |selected|
      ensures targets[j] in s.nodes && s.nodes[targets[j]] == selected[j] && selected[j] in Takers(s)
    {
      assert selected[j] in Elements(selected);
    }
    forall i, j | 0 <= i < j < |targets| ensures targets[i] != targets[j] {
      assert Better(selected[i], selected[j]);
      LessIrreflexive(targets[i]);
    }
    forall n, m | n in targets && m in Takers(s) && m.id !in targets ensures Better(s.nodes[n], m) {
      var i :| 0 <= i < |targets| && targets[i] == n;
      assert selected[i] in Elements(selected) && m !in Elements(selected);
    }
  }

  // ---------------------------------------------------------------- replica records

  function UploadedReplica(f: FileId, c: ChunkId, n: NodeId, role: ReplicaRole, ready: bool, checksum: Checksum,
                           size: int)
    : Replica
  {
    Replica(n, f, c, role, if ready then Ready else Pending, checksum, if ready then size else 0)
  }

  /** A ready primary, and for each secondary a replica that is ready if its write was reported
      ready and pending with nothing stored otherwise. */
  predicate IsReplicaSet(replicas: ReplicaSet, primary: NodeId, secondaries: set<NodeId>, ready: set<NodeId>, f: FileId,
                         c: ChunkId, checksum: Checksum, size: int) {
    && replicas.Keys == secondaries + {primary}
    && ReadyNodes(replicas) == {primary} + (secondaries * ready)
    && (forall n :: n in replicas ==>
          && replicas[n].nodeId == n && replicas[n].fileId == f && replicas[n].chunkId == c
          && replicas[n].role == (if n == primary then Primary else Secondary)
          && (replicas[n].state == Ready || replicas[n].state == Pending)
          && replicas[n].checksum == checksum
          && replicas[n].storedSize == if replicas[n].state == Ready then size else 0)
  }

  method BuildChunkReplicas(f: FileId, c: ChunkId, primary: NodeId, secondaries: seq<NodeId>, ready: set<NodeId>,
                            checksum: Checksum, size: int)
    returns (replicas: ReplicaSet)
    requires primary !in secondaries
    ensures IsReplicaSet(replicas, primary, Elements(secondaries), ready, f, c, checksum, size)
  {
    replicas := map[primary := UploadedReplica(f, c, primary, Primary, true, checksum, size)];
    for i := 0 to |secondaries|
      invariant IsReplicaSet(replicas, primary, Elements(secondaries[..i]), ready, f, c, checksum, size)
    {
      var n := secondaries[i];
      assert Elements(secondaries[..i + 1]) == Elements(secondaries[..i]) + {n};
      replicas := replicas[n := UploadedReplica(f, c, n, Secondary, n in ready, checksum, size)];
    }
    assert secondaries[..|secondaries|] == secondaries;
  }

  // ---------------------------------------------------------------- one part

  /** The part's writes succeed: a node can take it, the primary acknowledges it, and if there
      are secondaries the replicate request is answered. */
  ghost predicate GoesThrough(s: State, put: Put, net: Net) {
    Takers(s) != {} && put == PutStored && (|Takers(s)| == 1 || net.responded)
  }

  /** The targets that hold the bytes of a part whose PUT is stored. */
  function Written(targets: seq<NodeId>, net: Net): set<NodeId>
    requires targets != []
  {
    {targets[0]} + Elements(targets[1..]) * net.delivered
  }

  /** The targets that the bytes of a part reach, whether or not its writes go through. */
  function Reached(targets: seq<NodeId>, put: Put, net: Net): set<NodeId> {
    if targets == [] || put == PutNotDone then {} else if put == PutAckLost then {targets[0]} else Written(targets, net)
  }

  /** Where the bytes of one part went, and which of its replicas were reported ready. */
  method WritePart(cluster: Cluster, c: ChunkId, data: Bytes, primary: NodeId, secondaries: seq<NodeId>, put: Put,
                   net: Net)
    returns (ready: Option<set<NodeId>>)
    modifies cluster
    ensures ready.Some? <==> put == PutStored && (secondaries == [] || net.responded)
    ensures ready.Some? ==> ready.value == Elements(secondaries) * net.delivered * net.acked
    ensures cluster.disks == CopyBytes(old(cluster.disks), c, data, Reached([primary] + secondaries, put, net))
  {
    assert ([primary] + secondaries)[1..] == secondaries;
    if put == PutNotDone {
      assert CopyBytes(cluster.disks, c, data, {}) == cluster.disks;
      return None;
    }
    cluster.Put(primary, c, data);
    if put == PutAckLost {
      return None;
    }
    if secondaries == [] {
      assert {primary} + Elements(secondaries) * net.delivered == {primary};
      return Some({});
    }
    CopyMore(old(cluster.disks), c, data, {primary}, Elements(secondaries) * net.delivered);
    ready := cluster.Replicate(primary, c, secondaries, net);
  }

  lemma ReplicasNormal(replicas: ReplicaSet, primary: NodeId, secondaries: set<NodeId>, ready: set<NodeId>, f: FileId,
                       c: ChunkId, checksum: Checksum, size: int)
    requires IsReplicaSet(replicas, primary, secondaries, ready, f, c, checksum, size) && "" !in replicas
    ensures CanNormalize(replicas, f, c) && Normalized(replicas, f, c) == replicas
    ensures primary in HealthyReplicas(replicas)
  {
    assert primary in ReadyNodes(replicas);
  }

  function SumOf(data: Bytes, sha256: Bytes -> string, now: int): Checksum {
    Checksum("sha256", sha256(data), true, Some(now))
  }

  /** Commit the record of part `i`. */
  method CommitPart(repo: Repository, req: UploadRequest, i: nat, checksum: Checksum, replicas: ReplicaSet)
    returns (ok: bool)
    requires Usable(repo.state) && req.base != "" && ChecksumReady(checksum)
    requires Underway(repo.state, req.session, req.file, req.base, req.content, i) && i < ChunkCount(|req.content|)
    requires var id := PartId(req.base, i, ChunkCount(|req.content|));
             CanNormalize(replicas, req.file, id) && Normalized(replicas, req.file, id) == replicas
               && HealthyReplicas(replicas) != {}
    modifies repo
    ensures ok && Underway(repo.state, req.session, req.file, req.base, req.content, i + 1) && Usable(repo.state)
    ensures Committed(old(repo.state), repo.state, PartId(req.base, i, ChunkCount(|req.content|)), replicas)
    ensures Calls(old(repo.state), repo.state, req)
  {
    var id := PartId(req.base, i, ChunkCount(|req.content|));
    var size := Start(req.content, i + 1) - Start(req.content, i);
    var commit := Commit(req.session, id, i, i * CHUNK_SIZE, size, None, Some(checksum), replicas, None);
    ghost var before := repo.state;
    CommitAccepted(before, commit, req.session, req.file, req.base, req.content, i);
    CommitAdvances(before, commit, req.session, req.file, req.base, req.content, i);
    CommitEffect(before, commit);
    assert IsPartId(req, commit.chunk);
    assert IsOwn(CommitCall(commit), req) && CallOutcome(before, CommitCall(commit)) == CommitChunk(before, commit);
    var err := DoCommitChunk(repo, commit);
    ok := err.None?;
  }

  /** One chunk is recorded with these replicas; plans and nodes stay. */
  predicate Committed(s: State, t: State, id: ChunkId, replicas: ReplicaSet) {
    && t.plans == s.plans && t.nodes == s.nodes
    && id in t.chunks && t.chunks == s.chunks[id := t.chunks[id]]
    && t.chunks[id].id == id && t.chunks[id].replicas == replicas && t.chunks[id].replicaCount == |replicas|
  }

  /** Where one part went: the primary and the secondaries delivered to hold the bytes, the chunk is
      recorded with a replica on every target, and only nodes that hold the bytes are ready. */
  predicate Placed(w: World, v: World, id: ChunkId, data: Bytes, targets: seq<NodeId>, net: Net) {
    && targets != [] && Distinct(targets)
    && (forall n :: n in targets ==> n in v.db.nodes && !Blank(v.db.nodes[n].address))
    && v.disks == CopyBytes(w.disks, id, data, Written(targets, net))
    && id in v.db.chunks && Committed(w.db, v.db, id, v.db.chunks[id].replicas)
    && v.db.chunks[id].replicas.Keys == Elements(targets)
    && ReadyNodes(v.db.chunks[id].replicas) != {} && ReadyNodes(v.db.chunks[id].replicas) <= Written(targets, net)
  }

  /** Writing and committing a part is the upload step of the replica protocol. */
  lemma PartIsUploadStep(w: World, v: World, id: ChunkId, data: Bytes, targets: seq<NodeId>, net: Net)
    requires Placed(w, v, id, data, targets, net)
    ensures CanCommit(w.db, v.db.chunks[id], Written(targets, net), v.db)
    ensures v == Step(w, UploadAction(v.db.chunks[id], data, Written(targets, net), true, v.db))
  {
  }

  /** Choose the nodes, write the bytes, and draw up the replica records. */
  method PlacePart(s: State, cluster: Cluster, f: FileId, id: ChunkId, data: Bytes, checksum: Checksum, put: Put,
                   net: Net)
    returns (replicas: Option<ReplicaSet>, ghost targets: seq<NodeId>)
    requires Keyed(s) && f in s.files && s.files[f].policy.desired == DEFAULT_REPLICA_COUNT && "" !in s.nodes
    modifies cluster
    ensures replicas.Some? <==> GoesThrough(s, put, net)
    ensures Distinct(targets) && IsTargets(s, DEFAULT_REPLICA_COUNT, targets)
    ensures cluster.disks == CopyBytes(old(cluster.disks), id, data, Reached(targets, put, net))
    ensures replicas.Some? ==> targets != [] && put == PutStored
    ensures replicas.Some? ==> forall n :: n in targets ==> n in s.nodes && !Blank(s.nodes[n].address)
    ensures replicas.Some? ==> replicas.value.Keys == Elements(targets)
    ensures replicas.Some? ==>
              ReadyNodes(replicas.value) <= Written(targets, net) && HealthyReplicas(replicas.value) != {}
    ensures replicas.Some? ==>
              CanNormalize(replicas.value, f, id) && Normalized(replicas.value, f, id) == replicas.value
  {
    replicas := None;
    var chosen := AllocateUploadTargets(s, f);
    targets := chosen;
    if |chosen| == 0 {
      assert CopyBytes(cluster.disks, id, data, {}) == cluster.disks;
      return;
    }
    assert chosen[0] in chosen && forall n :: n in chosen[1..] ==> n in chosen;
    replicas := PlaceOn(cluster, chosen, f, id, data, checksum, put, net);
  }

  /** Write the part to these nodes. */
  method PlaceOn(cluster: Cluster, targets: seq<NodeId>, f: FileId, id: ChunkId, data: Bytes, checksum: Checksum,
                 put: Put, net: Net)
    returns (replicas: Option<ReplicaSet>)
    requires targets != [] && Distinct(targets) && "" !in targets
    modifies cluster
    ensures replicas.Some? <==> put == PutStored && (|targets| == 1 || net.responded)
    ensures cluster.disks == CopyBytes(old(cluster.disks), id, data, Reached(targets, put, net))
    ensures replicas.Some? ==> replicas.value.Keys == Elements(targets)
    ensures replicas.Some? ==>
              ReadyNodes(replicas.value) <= Written(targets, net) && HealthyReplicas(replicas.value) != {}
    ensures replicas.Some? ==>
              CanNormalize(replicas.value, f, id) && Normalized(replicas.value, f, id) == replicas.value
  {
    assert targets == [targets[0]] + targets[1..];
    var ready := WritePart(cluster, id, data, targets[0], targets[1..], put, net);
    if ready.None? {
      return None;
    }
    assert Elements(targets) == Elements(targets[1..]) + {targets[0]};
    var built := BuildChunkReplicas(f, id, targets[0], targets[1..], ready.value, checksum, |data|);
    ReplicasNormal(built, targets[0], Elements(targets[1..]), ready.value, f, id, checksum, |data|);
    replicas := Some(built);
  }

  /** One part: written, replicated and committed, exactly when its writes go through.  The bytes
      stay where they went when they do not. */
  method UploadPart(repo: Repository, cluster: Cluster, req: UploadRequest, i: nat, sha256: Bytes -> string, now: int,
                    put: Put, net: Net)
    returns (ok: bool, ghost targets: seq<NodeId>)
    requires Keyed(repo.state) && Usable(repo.state) && "" !in repo.state.nodes && req.base != ""
    requires Underway(repo.state, req.session, req.file, req.base, req.content, i) && i < ChunkCount(|req.content|)
    modifies repo, cluster
    ensures ok <==> GoesThrough(old(repo.state), put, net)
    ensures ok ==> Underway(repo.state, req.session, req.file, req.base, req.content, i + 1) && Usable(repo.state)
    ensures IsTargets(old(repo.state), DEFAULT_REPLICA_COUNT, targets)
    ensures Touched(old(WorldOf(repo, cluster)), WorldOf(repo, cluster), PartId(req.base, i, ChunkCount(|req.content|)),
                    Part(req.content, i), Reached(targets, put, net))
    ensures !ok ==> repo.state == old(repo.state)
    ensures ok ==> Calls(old(repo.state), repo.state, req)
    ensures ok ==> Placed(old(WorldOf(repo, cluster)), WorldOf(repo, cluster),
                          PartId(req.base, i, ChunkCount(|req.content|)), Part(req.content, i), targets, net)
  {
    var id := PartId(req.base, i, ChunkCount(|req.content|));
    var data := req.content[Start(req.content, i)..Start(req.content, i + 1)];
    var checksum := SumOf(data, sha256, now);
    ghost var w := WorldOf(repo, cluster);
    var replicas;
    replicas, targets := PlacePart(repo.state, cluster, req.file, id, data, checksum, put, net);
    if replicas.None? {
      return false, targets;
    }
    ok := CommitPart(repo, req, i, checksum, replicas.value);
    PartPlaced(w, WorldOf(repo, cluster), id, data, targets, put, net, replicas.value);
  }

  lemma PartPlaced(w: World, v: World, id: ChunkId, data: Bytes, targets: seq<NodeId>, put: Put, net: Net,
                   replicas: ReplicaSet)
    requires targets != [] && Distinct(targets) && put == PutStored
    requires forall n :: n in targets ==> n in w.db.nodes && !Blank(w.db.nodes[n].address)
    requires v.disks == CopyBytes(w.disks, id, data, Reached(targets, put, net)) && Committed(w.db, v.db, id, replicas)
    requires replicas.Keys == Elements(targets) && ReadyNodes(replicas) <= Written(targets, net)
    requires HealthyReplicas(replicas) != {}
    ensures Placed(w, v, id, data, targets, net) && Touched(w, v, id, data, Reached(targets, put, net))
  {
    HealthyIsReady(replicas);
  }

  lemma HealthyIsReady(replicas: ReplicaSet)
    ensures HealthyReplicas(replicas) == ReadyNodes(replicas)
  {
  }

  // ---------------------------------------------------------------- what a part leaves behind

  /** The part has a ready replica, and its ready replicas hold it. */
  predicate PartHeld(w: World, id: ChunkId, data: Bytes) {
    id in w.db.chunks && ReadyNodes(w.db.chunks[id].replicas) != {} && AllHold(w, id, data)
  }

  /** No target that the part does not reach holds other bytes under its id. */
  predicate NoStaleCopy(w: World, id: ChunkId, data: Bytes, targets: seq<NodeId>, net: Net)
    requires targets != []
  {
    forall n :: n in targets && n !in Written(targets, net) && id in Disk(w, n) ==> Disk(w, n)[id] == data
  }

  lemma PlacedIsHeld(w: World, v: World, id: ChunkId, data: Bytes, targets: seq<NodeId>, net: Net)
    requires Placed(w, v, id, data, targets, net)
    ensures PartHeld(v, id, data)
  {
    forall n | n in ReadyNodes(v.db.chunks[id].replicas) ensures id in Disk(v, n) && Disk(v, n)[id] == data {
      DiskAfterCopy(w, v.db, id, data, Written(targets, net), n);
    }
  }

  /** Right after the upload of a part every read of it is right or fails exactly when no target
      that the bytes did not reach held other bytes under the part's id. */
  lemma PlacedReadsExactIff(w: World, v: World, id: ChunkId, data: Bytes, targets: seq<NodeId>, net: Net)
    requires Placed(w, v, id, data, targets, net)
    ensures CopiesAgree(v, id, data) <==> NoStaleCopy(w, id, data, targets, net)
  {
    forall n | n in targets
      ensures n in Written(targets, net) ==> id in Disk(v, n) && Disk(v, n)[id] == data
      ensures n !in Written(targets, net) ==> Disk(v, n) == Disk(w, n)
    {
      DiskAfterCopy(w, v.db, id, data, Written(targets, net), n);
    }
    assert forall n :: n in targets <==> n in v.db.chunks[id].replicas;
  }

  /** The upload of one part leaves the copies and the record of every other chunk alone. */
  lemma OtherChunksStay(w: World, v: World, id: ChunkId, data: Bytes, targets: seq<NodeId>, net: Net, other: ChunkId)
    requires Placed(w, v, id, data, targets, net) && other != id
    ensures SameCopies(w, v, other)
    ensures (other in v.db.chunks) == (other in w.db.chunks)
    ensures other in w.db.chunks ==> v.db.chunks[other] == w.db.chunks[other]
  {
    forall n ensures (other in Disk(w, n)) == (other in Disk(v, n))
             ensures other in Disk(w, n) ==> Disk(v, n)[other] == Disk(w, n)[other]
    {
      DiskAfterCopy(w, v.db, id, data, Written(targets, net), n);
    }
  }

  // ---------------------------------------------------------------- the whole upload

  /** No record, plan or disk knows any of the part ids. */
  predicate Unused(w: World, base: ChunkId, content: Bytes) {
    forall i :: 0 <= i < ChunkCount(|content|) ==> IdUnused(w, PartId(base, i, ChunkCount(|content|)))
  }

  predicate IdUnused(w: World, id: ChunkId) {
    && id !in w.db.chunks
    && (forall p :: p in w.db.plans ==> w.db.plans[p].chunkId != id)
    && forall n :: n in w.disks ==> id !in w.disks[n]
  }

  /** The part is stored: it has a ready replica, the ready replicas hold it, and no copy is
      anything else.  No plan concerns it. */
  predicate PartStored(w: World, id: ChunkId, data: Bytes) {
    && PartHeld(w, id, data)
    && (forall n :: n in w.disks && id in w.disks[n] ==> w.disks[n][id] == data)
    && forall p :: p in w.db.plans ==> w.db.plans[p].chunkId != id
  }

  /** All parts are stored. */
  predicate Stored(w: World, base: ChunkId, content: Bytes) {
    forall i :: 0 <= i < ChunkCount(|content|) ==>
        PartStored(w, PartId(base, i, ChunkCount(|content|)), Part(content, i))
  }

  /** What the upload has come to for one part that started from `start`. */
  ghost predicate PartDone(start: World, w: World, id: ChunkId, data: Bytes, targets: seq<NodeId>, net: Net)
    requires targets != []
  {
    && PartHeld(w, id, data)
    && (CopiesAgree(w, id, data) <==> NoStaleCopy(start, id, data, targets, net))
    && (IdUnused(start, id) ==> PartStored(w, id, data))
  }

  lemma PartGetsDone(start: World, w: World, v: World, id: ChunkId, data: Bytes, targets: seq<NodeId>, net: Net)
    requires SameCopies(start, w, id) && w.db.plans == start.db.plans && Placed(w, v, id, data, targets, net)
    ensures PartDone(start, v, id, data, targets, net)
  {
    PlacedIsHeld(w, v, id, data, targets, net);
    PlacedReadsExactIff(w, v, id, data, targets, net);
    SameStaleCopies(start, w, id, data, targets, net);
    if IdUnused(start, id) {
      UnusedGetsStored(start, w, v, id, data, targets, net);
    }
  }

  lemma SameStaleCopies(start: World, w: World, id: ChunkId, data: Bytes, targets: seq<NodeId>, net: Net)
    requires SameCopies(start, w, id) && targets != []
    ensures NoStaleCopy(start, id, data, targets, net) <==> NoStaleCopy(w, id, data, targets, net)
  {
  }

  lemma UnusedGetsStored(start: World, w: World, v: World, id: ChunkId, data: Bytes, targets: seq<NodeId>, net: Net)
    requires SameCopies(start, w, id) && w.db.plans == start.db.plans && Placed(w, v, id, data, targets, net)
    requires IdUnused(start, id) && PartHeld(v, id, data)
    ensures PartStored(v, id, data)
  {
    forall n | n in v.disks && id in v.disks[n] ensures v.disks[n][id] == data {
      assert id !in Disk(start, n);
      DiskAfterCopy(w, v.db, id, data, Written(targets, net), n);
    }
  }

  /** Nothing about the part changes as long as its record and its copies stay. */
  lemma PartStaysDone(start: World, w: World, v: World, id: ChunkId, data: Bytes, targets: seq<NodeId>, net: Net)
    requires targets != [] && PartDone(start, w, id, data, targets, net) && SameCopies(w, v, id)
    requires id in v.db.chunks && v.db.chunks[id].replicas == w.db.chunks[id].replicas
    requires v.db.nodes == w.db.nodes && v.db.plans == w.db.plans
    ensures PartDone(start, v, id, data, targets, net)
  {
    assert AllHold(v, id, data) by {
      QuietKeepsBytes(w, v, id, data);
    }
    assert CopiesAgree(v, id, data) <==> CopiesAgree(w, id, data);
    forall n | n in v.disks && id in v.disks[n]
      ensures n in w.disks && id in w.disks[n] && v.disks[n][id] == w.disks[n][id]
    {
      assert id in Disk(v, n);
    }
  }

  /** The metadata service accepts the file and the session. */
  predicate Admits(s: State, req: UploadRequest) {
    && |req.content| > 0 && !Blank(req.name)
    && CreateFile(s, req.inode, req.file, req.parent, req.name, |req.content|, None).Ok?
    && req.session != "" && req.session !in s.sessions
  }

  /** Create the file and start the session. */
  method OpenUpload(repo: Repository, req: UploadRequest, checksum: Checksum) returns (ok: bool)
    requires UploadsOk(repo.state) && Sound(repo.state)
    modifies repo
    ensures ok <==> Admits(old(repo.state), req)
    ensures repo.state == old(repo.state) || CallOutcome(old(repo.state), MakeCall(req)) == Ok(repo.state) || ok
    ensures ok ==> Performs(old(repo.state), repo.state, req)
    ensures repo.state.chunks == old(repo.state.chunks) && repo.state.plans == old(repo.state.plans)
            && repo.state.nodes == old(repo.state.nodes)
    ensures ok ==> Underway(repo.state, req.session, req.file, req.base, req.content, 0)
    ensures ok ==> Usable(repo.state) && Sound(repo.state)
  {
    if |req.content| == 0 || Blank(req.name) {
      return false;
    }
    ghost var s := repo.state;
    var created := CreateFile(repo.state, req.inode, req.file, req.parent, req.name, |req.content|, None);
    if created.Err? {
      return false;
    }
    repo.state := created.value;
    if req.session != "" && req.session !in s.sessions {
      StartAccepted(s, req.inode, req.file, req.parent, req.name, req.session, req.content, checksum, req.base);
    }
    SessionsStay(s, req);
    ghost var made := repo.state;
    var err := DoStartUpload(repo, req.session, req.file, |req.content|, Some(checksum));
    ok := err.None?;
    if ok {
      OpenIsUsable(s, repo.state, req, checksum);
      StartEffect(made, req.session, req.file, |req.content|, Some(checksum));
      OpenPerforms(s, made, repo.state, req, checksum);
    }
  }

  lemma OpenPerforms(s: State, made: State, t: State, req: UploadRequest, checksum: Checksum)
    requires CallOutcome(s, MakeCall(req)) == Ok(made)
    requires StartUpload(made, req.session, req.file, |req.content|, Some(checksum)) == Ok(t)
    ensures Performs(s, t, req)
  {
    NothingPerformed(s, req);
    assert IsOwn(MakeCall(req), req);
    OneMoreCall(s, s, made, req);
    assert IsOwn(StartCall(req.session, req.file, |req.content|, Some(checksum)), req);
    assert CallOutcome(made, StartCall(req.session, req.file, |req.content|, Some(checksum))) == Ok(t);
    OneMoreCall(s, made, t, req);
  }

  lemma SessionsStay(s: State, req: UploadRequest)
    requires CreateFile(s, req.inode, req.file, req.parent, req.name, |req.content|, None).Ok?
    ensures var t := CreateFile(s, req.inode, req.file, req.parent, req.name, |req.content|, None).value;
            t.sessions == s.sessions && t.chunks == s.chunks && t.plans == s.plans && t.nodes == s.nodes
  {
    CreateFileEffect(s, req.inode, req.file, req.parent, req.name, |req.content|, None);
  }

  lemma OpenIsUsable(s: State, t: State, req: UploadRequest, checksum: Checksum)
    requires UploadsOk(s) && Sound(s)
             && CreateFile(s, req.inode, req.file, req.parent, req.name, |req.content|, None).Ok?
    requires StartUpload(CreateFile(s, req.inode, req.file, req.parent, req.name, |req.content|, None).value,
                         req.session, req.file, |req.content|, Some(checksum)) == Ok(t)
    ensures Usable(t) && Sound(t)
  {
    CreateFileEffect(s, req.inode, req.file, req.parent, req.name, |req.content|, None);
    StartEffect(CreateFile(s, req.inode, req.file, req.parent, req.name, |req.content|, None).value,
                req.session, req.file, |req.content|, Some(checksum));
    assert forall f :: f in s.files ==> s.files[f].id == f;
  }

  /** Complete and verify. */
  method CloseUpload(repo: Repository, req: UploadRequest, checksum: Checksum) returns (ok: bool)
    requires |req.content| > 0 && ChecksumReady(checksum) && Usable(repo.state)
    requires Underway(repo.state, req.session, req.file, req.base, req.content, ChunkCount(|req.content|))
    modifies repo
    ensures ok && SameChunks(old(repo.state.chunks), repo.state.chunks)
    ensures OthersSame(old(repo.state.chunks), repo.state.chunks, req.file)
    ensures Performs(old(repo.state), repo.state, req)
    ensures repo.state.plans == old(repo.state.plans) && repo.state.nodes == old(repo.state.nodes)
    ensures req.file in repo.state.files && repo.state.files[req.file].status == FileAvailable
    ensures repo.state.files[req.file].size == |req.content|
  {
    FinishAccepted(repo.state, req.session, req.file, req.base, req.content, checksum);
    FinishPerforms(repo.state, req, checksum);
    var err := DoCompleteUpload(repo, req.session, Some(checksum), {FileUploading});
    if err.None? {
      err := DoVerifyUpload(repo, req.session, Some(checksum), {FileVerifying});
    }
    ok := err.None?;
  }

  lemma FinishPerforms(s: State, req: UploadRequest, checksum: Checksum)
    requires CompleteUpload(s, req.session, Some(checksum), {FileUploading}).Ok?
    ensures var t := CompleteUpload(s, req.session, Some(checksum), {FileUploading}).value;
            var r := VerifyUpload(t, req.session, Some(checksum), {FileVerifying});
            r.Ok? ==> Performs(s, r.value, req)
  {
    var t := CompleteUpload(s, req.session, Some(checksum), {FileUploading}).value;
    var r := VerifyUpload(t, req.session, Some(checksum), {FileVerifying});
    if r.Ok? {
      NothingPerformed(s, req);
      assert IsOwn(CompleteCall(req.session, Some(checksum), {FileUploading}), req);
      assert CallOutcome(s, CompleteCall(req.session, Some(checksum), {FileUploading})) == Ok(t);
      OneMoreCall(s, s, t, req);
      assert IsOwn(VerifyCall(req.session, Some(checksum), {FileVerifying}), req);
      assert CallOutcome(t, VerifyCall(req.session, Some(checksum), {FileVerifying})) == r;
      OneMoreCall(s, t, r.value, req);
    }
  }

  lemma SameTakers(s: State, t: State, put: Put, net: Net)
    requires t.nodes == s.nodes
    ensures GoesThrough(s, put, net) == GoesThrough(t, put, net)
  {
    assert NodeSet(s) == NodeSet(t);
  }

  /** The first `k` parts go through. */
  ghost predicate AllThrough(s: State, puts: nat -> Put, nets: nat -> Net, k: nat) {
    forall i :: 0 <= i < k ==> GoesThrough(s, puts(i), nets(i))
  }

  lemma CommittedSound(s: State, t: State, id: ChunkId)
    requires Sound(s) && id in t.chunks && Committed(s, t, id, t.chunks[id].replicas)
    ensures Sound(t)
  {
  }

  /** Where the loop over the parts stands. */
  ghost predicate Looping(start: World, w: World, req: UploadRequest, k: nat, targets: seq<NodeId>, nets: nat -> Net) {
    var total := ChunkCount(|req.content|);
    && w.db.nodes == start.db.nodes && w.db.plans == start.db.plans && Sound(w.db) && Usable(w.db)
    && Underway(w.db, req.session, req.file, req.base, req.content, k)
    && (k > 0 ==> targets != [] && IsTargets(w.db, DEFAULT_REPLICA_COUNT, targets))
    && (forall i :: 0 <= i < k && targets != [] ==>
          PartDone(start, w, PartId(req.base, i, total), Part(req.content, i), targets, nets(i)))
    && (forall i :: k <= i < total ==> SameCopies(start, w, PartId(req.base, i, total)))
    && (forall i :: k <= i < total ==> SameRecord(start.db.chunks, w.db.chunks, PartId(req.base, i, total)))
  }

  lemma LoopOneMore(start: World, w: World, v: World, req: UploadRequest, k: nat, before: seq<NodeId>,
                    targets: seq<NodeId>, nets: nat -> Net)
    requires Looping(start, w, req, k, before, nets) && k < ChunkCount(|req.content|) && (k > 0 ==> before == targets)
    requires Usable(v.db) && Underway(v.db, req.session, req.file, req.base, req.content, k + 1)
    requires IsTargets(v.db, DEFAULT_REPLICA_COUNT, targets)
    requires Placed(w, v, PartId(req.base, k, ChunkCount(|req.content|)), Part(req.content, k), targets, nets(k))
    ensures Looping(start, v, req, k + 1, targets, nets)
  {
    var total := ChunkCount(|req.content|);
    var id := PartId(req.base, k, total);
    CommittedSound(w.db, v.db, id);
    PartGetsDone(start, w, v, id, Part(req.content, k), targets, nets(k));
    forall i | 0 <= i < total && i != k
      ensures i < k ==> PartDone(start, v, PartId(req.base, i, total), Part(req.content, i), targets, nets(i))
      ensures i > k ==> SameCopies(start, v, PartId(req.base, i, total))
      ensures i > k ==> SameRecord(start.db.chunks, v.db.chunks, PartId(req.base, i, total))
    {
      if PartId(req.base, i, total) == id {
        PartIdInjective(req.base, i, k, total);
      }
      OtherChunksStay(w, v, id, Part(req.content, k), targets, nets(k), PartId(req.base, i, total));
      if i < k {
        PartStaysDone(start, w, v, PartId(req.base, i, total), Part(req.content, i), targets, nets(i));
      }
    }
  }

  /** The first `k` parts went through. */
  ghost predicate Sending(start: World, w: World, req: UploadRequest, k: nat, targets: seq<NodeId>, puts: nat -> Put,
                          nets: nat -> Net) {
    && Looping(start, w, req, k, targets, nets) && AllThrough(start.db, puts, nets, k) && Trail(start, w, req)
    && "" !in start.db.nodes && req.base != ""
  }

  method UploadNext(repo: Repository, cluster: Cluster, req: UploadRequest, index: nat, sha256: Bytes -> string,
                    now: int, puts: nat -> Put, nets: nat -> Net, ghost start: World, ghost before: seq<NodeId>)
    returns (ok: bool, ghost targets: seq<NodeId>)
    requires Sending(start, WorldOf(repo, cluster), req, index, before, puts, nets) && index < ChunkCount(|req.content|)
    modifies repo, cluster
    ensures ok ==> Sending(start, WorldOf(repo, cluster), req, index + 1, targets, puts, nets)
    ensures !ok ==> !AllThrough(start.db, puts, nets, ChunkCount(|req.content|))
    ensures !ok ==> Trail(start, WorldOf(repo, cluster), req)
  {
    ghost var w := WorldOf(repo, cluster);
    SameTakers(start.db, repo.state, puts(index), nets(index));
    ok, targets := UploadPart(repo, cluster, req, index, sha256, now, puts(index), nets(index));
    TrailGrows(start, w, WorldOf(repo, cluster), req, index, Reached(targets, puts(index), nets(index)));
    if ok {
      SendingOneMore(start, w, WorldOf(repo, cluster), req, index, before, targets, nets);
    }
  }

  lemma SendingOneMore(start: World, w: World, v: World, req: UploadRequest, k: nat, before: seq<NodeId>,
                       targets: seq<NodeId>, nets: nat -> Net)
    requires Looping(start, w, req, k, before, nets) && k < ChunkCount(|req.content|)
    requires Usable(v.db) && Underway(v.db, req.session, req.file, req.base, req.content, k + 1)
    requires IsTargets(w.db, DEFAULT_REPLICA_COUNT, targets)
    requires Placed(w, v, PartId(req.base, k, ChunkCount(|req.content|)), Part(req.content, k), targets, nets(k))
    ensures Looping(start, v, req, k + 1, targets, nets)
  {
    SameTargets(w.db, v.db, targets);
    if k > 0 {
      TargetsUnique(w.db, w.db, DEFAULT_REPLICA_COUNT, before, targets);
    }
    LoopOneMore(start, w, v, req, k, before, targets, nets);
  }

  lemma SameTargets(s: State, t: State, targets: seq<NodeId>)
    requires t.nodes == s.nodes && IsTargets(s, DEFAULT_REPLICA_COUNT, targets)
    ensures IsTargets(t, DEFAULT_REPLICA_COUNT, targets)
  {
    assert NodeSet(t) == NodeSet(s);
  }

  /** All parts, in order, until one does not go through. */
  method UploadParts(repo: Repository, cluster: Cluster, req: UploadRequest, sha256: Bytes -> string, now: int,
                     puts: nat -> Put, nets: nat -> Net)
    returns (ok: bool, ghost targets: seq<NodeId>)
    requires Looping(WorldOf(repo, cluster), WorldOf(repo, cluster), req, 0, [], nets)
    requires "" !in repo.state.nodes && req.base != ""
    modifies repo, cluster
    ensures ok <==> AllThrough(old(repo.state), puts, nets, ChunkCount(|req.content|))
    ensures ok ==> Looping(old(WorldOf(repo, cluster)), WorldOf(repo, cluster), req, ChunkCount(|req.content|), targets,
                           nets)
    ensures Trail(old(WorldOf(repo, cluster)), WorldOf(repo, cluster), req)
  {
    ghost var start, total := WorldOf(repo, cluster), ChunkCount(|req.content|);
    TrailStarts(start, req);
    targets := [];
    var index, offset := 0, 0;
    while offset < |req.content|
      invariant offset == index * CHUNK_SIZE && 0 <= index <= total
      invariant Sending(start, WorldOf(repo, cluster), req, index, targets, puts, nets)
      decreases |req.content| - offset
    {
      LoopIndex(req.content, index);
      ok, targets := UploadNext(repo, cluster, req, index, sha256, now, puts, nets, start, targets);
      if !ok {
        return;
      }
      index, offset := index + 1, offset + CHUNK_SIZE;
    }
    LoopIndex(req.content, index);
    ok := true;
  }

  lemma LoopIndex(content: Bytes, index: nat)
    requires index <= ChunkCount(|content|)
    ensures index * CHUNK_SIZE < |content| <==> index < ChunkCount(|content|)
  {
    PartSize(content, index);
  }

  lemma SoundAfterClose(s: State, t: State)
    requires Sound(s) && SameChunks(s.chunks, t.chunks) && t.plans == s.plans && t.nodes == s.nodes
    ensures Sound(t)
  {
  }

  lemma CutAfterClose(a: Chunks, b: Chunks, f: FileId, base: ChunkId, content: Bytes)
    requires ChunksOk(a) && SameChunks(a, b) && HasParts(a, f, base, content, ChunkCount(|content|))
    ensures ChunksOk(b) && HasParts(b, f, base, content, ChunkCount(|content|))
  {
    SameCutKeepsParts(a, b, f, base, content, ChunkCount(|content|));
    RelabelledOk(a, b);
  }

  /** All parts are done. */
  ghost predicate AllDone(start: World, w: World, req: UploadRequest, targets: seq<NodeId>, nets: nat -> Net) {
    && targets != []
    && forall i :: 0 <= i < ChunkCount(|req.content|) ==>
         PartDone(start, w, PartId(req.base, i, ChunkCount(|req.content|)), Part(req.content, i), targets, nets(i))
  }

  lemma ClosedPart(start: World, w: World, v: World, id: ChunkId, data: Bytes, targets: seq<NodeId>, net: Net)
    requires targets != [] && PartDone(start, w, id, data, targets, net)
    requires v.disks == w.disks && SameChunks(w.db.chunks, v.db.chunks) && v.db.plans == w.db.plans
             && v.db.nodes == w.db.nodes
    ensures PartDone(start, v, id, data, targets, net)
  {
    PartStaysDone(start, w, v, id, data, targets, net);
  }

  lemma ClosedKeeps(start: World, w: World, v: World, req: UploadRequest, targets: seq<NodeId>, nets: nat -> Net)
    requires Looping(start, w, req, ChunkCount(|req.content|), targets, nets) && |req.content| > 0
    requires v.disks == w.disks && SameChunks(w.db.chunks, v.db.chunks) && v.db.plans == w.db.plans
             && v.db.nodes == w.db.nodes
    ensures Sound(v.db) && AllDone(start, v, req, targets, nets) && ChunksOk(v.db.chunks)
    ensures HasParts(v.db.chunks, req.file, req.base, req.content, ChunkCount(|req.content|))
  {
    var total := ChunkCount(|req.content|);
    PartSize(req.content, 0);
    forall i | 0 <= i < total
      ensures PartDone(start, v, PartId(req.base, i, total), Part(req.content, i), targets, nets(i))
    {
      ClosedPart(start, w, v, PartId(req.base, i, total), Part(req.content, i), targets, nets(i));
    }
    SoundAfterClose(w.db, v.db);
    CutAfterClose(w.db.chunks, v.db.chunks, req.file, req.base, req.content);
  }

  /** No part id is taken on a target that the part's bytes do not reach. */
  predicate NoStaleCopies(w: World, req: UploadRequest, targets: seq<NodeId>, nets: nat -> Net)
    requires targets != []
  {
    forall i :: 0 <= i < ChunkCount(|req.content|) ==>
      NoStaleCopy(w, PartId(req.base, i, ChunkCount(|req.content|)), Part(req.content, i), targets, nets(i))
  }

  /** Each file that is stored reads right exactly unless stale copies were in the way. */
  lemma DoneIsStored(start: World, v: World, req: UploadRequest, targets: seq<NodeId>, nets: nat -> Net)
    requires AllDone(start, v, req, targets, nets) && ChunksOk(v.db.chunks) && |req.content| > 0
             && req.file in v.db.files
    requires HasParts(v.db.chunks, req.file, req.base, req.content, ChunkCount(|req.content|))
    ensures StoresFile(v, req.file, req.base, req.content) <==> NoStaleCopies(start, req, targets, nets)
    ensures Unused(start, req.base, req.content) ==> StoresFile(v, req.file, req.base, req.content)
    ensures Unused(start, req.base, req.content) ==> Stored(v, req.base, req.content)
  {
    var total := ChunkCount(|req.content|);
    forall i | 0 <= i < total
      ensures CopiesAgree(v, PartId(req.base, i, total), Part(req.content, i))
              <==> NoStaleCopy(start, PartId(req.base, i, total), Part(req.content, i), targets, nets(i))
      ensures IdUnused(start, PartId(req.base, i, total)) ==>
                PartStored(v, PartId(req.base, i, total), Part(req.content, i))
      ensures IdUnused(start, PartId(req.base, i, total)) ==>
                CopiesAgree(v, PartId(req.base, i, total), Part(req.content, i))
    {
      assert PartDone(start, v, PartId(req.base, i, total), Part(req.content, i), targets, nets(i));
    }
  }

  /** Upload a file.  It succeeds exactly when the metadata service admits the file and every part
      goes through.  Then the file is available and each part has ready replicas, all of which
      hold it; and every later read is right or fails exactly when no target that a part did not
      reach held other bytes under the part's id.  If nothing knew the part ids, the parts are
      stored nowhere but right.  Finished or not, an upload touches nothing but its own part ids. */
  method UploadFile(repo: Repository, cluster: Cluster, req: UploadRequest, sha256: Bytes -> string, now: int,
                    puts: nat -> Put, nets: nat -> Net)
    returns (ok: bool, ghost targets: seq<NodeId>)
    requires UploadsOk(repo.state) && Sound(repo.state) && "" !in repo.state.nodes && req.base != ""
    modifies repo, cluster
    ensures ok <==> Admits(old(repo.state), req) && AllThrough(old(repo.state), puts, nets, ChunkCount(|req.content|))
    ensures ok ==> Sound(repo.state) && ChunksOk(repo.state.chunks)
    ensures ok ==> req.file in repo.state.files && repo.state.files[req.file].status == FileAvailable
    ensures ok ==> repo.state.files[req.file].size == |req.content|
    ensures ok ==> HasParts(repo.state.chunks, req.file, req.base, req.content, ChunkCount(|req.content|))
    ensures ok ==> IsTargets(repo.state, DEFAULT_REPLICA_COUNT, targets)
    ensures ok ==> AllDone(old(WorldOf(repo, cluster)), WorldOf(repo, cluster), req, targets, nets)
    ensures ok ==> (StoresFile(WorldOf(repo, cluster), req.file, req.base, req.content)
                    <==> NoStaleCopies(old(WorldOf(repo, cluster)), req, targets, nets))
    ensures ok && Unused(old(WorldOf(repo, cluster)), req.base, req.content) ==>
              && StoresFile(WorldOf(repo, cluster), req.file, req.base, req.content)
              && Stored(WorldOf(repo, cluster), req.base, req.content)
    ensures Traces(old(WorldOf(repo, cluster)), WorldOf(repo, cluster), req)
    ensures ok ==> Performs(old(repo.state), repo.state, req)
    ensures '/' !in req.name && Unrecorded(old(repo.state), req) ==> UploadsOk(repo.state)
  {
    ghost var start := WorldOf(repo, cluster);
    targets := [];
    var checksum := SumOf(req.content, sha256, now);
    ok := OpenUpload(repo, req, checksum);
    NoTraces(start, WorldOf(repo, cluster), req);
    if !ok {
      NotOpenedKeeps(start.db, repo.state, req);
      return;
    }
    ghost var begun := WorldOf(repo, cluster);
    SameThrough(start.db, begun.db, puts, nets, ChunkCount(|req.content|));
    ok, targets := TransferFile(repo, cluster, req, checksum, sha256, now, puts, nets);
    TrailFromStart(start, begun, WorldOf(repo, cluster), req);
    KeptWhereStopped(start.db, repo.state, req);
    if ok {
      AllIsDone(start, begun, WorldOf(repo, cluster), req, targets, nets);
    }
  }

  /** The parts and the end of an upload that has been admitted. */
  method TransferFile(repo: Repository, cluster: Cluster, req: UploadRequest, checksum: Checksum,
                      sha256: Bytes -> string, now: int, puts: nat -> Put, nets: nat -> Net)
    returns (ok: bool, ghost targets: seq<NodeId>)
    requires Looping(WorldOf(repo, cluster), WorldOf(repo, cluster), req, 0, [], nets) && |req.content| > 0
    requires "" !in repo.state.nodes && req.base != "" && ChecksumReady(checksum)
    modifies repo, cluster
    ensures ok <==> AllThrough(old(repo.state), puts, nets, ChunkCount(|req.content|))
    ensures Trail(old(WorldOf(repo, cluster)), WorldOf(repo, cluster), req)
    ensures ok ==> req.file in repo.state.files && repo.state.files[req.file].status == FileAvailable
    ensures ok ==> repo.state.files[req.file].size == |req.content|
    ensures ok ==> Sound(repo.state) && ChunksOk(repo.state.chunks)
    ensures ok ==> HasParts(repo.state.chunks, req.file, req.base, req.content, ChunkCount(|req.content|))
    ensures ok ==> IsTargets(repo.state, DEFAULT_REPLICA_COUNT, targets)
    ensures ok ==> AllDone(old(WorldOf(repo, cluster)), WorldOf(repo, cluster), req, targets, nets)
  {
    ghost var start := WorldOf(repo, cluster);
    ok, targets := UploadParts(repo, cluster, req, sha256, now, puts, nets);
    if !ok {
      return;
    }
    ghost var w := WorldOf(repo, cluster);
    ok := CloseUpload(repo, req, checksum);
    PartSize(req.content, 0);
    TrailEnds(start, w, WorldOf(repo, cluster), req);
    SameTargets(w.db, repo.state, targets);
    ClosedKeeps(start, w, WorldOf(repo, cluster), req, targets, nets);
  }

  lemma AllIsDone(start: World, begun: World, v: World, req: UploadRequest, targets: seq<NodeId>, nets: nat -> Net)
    requires begun.disks == start.disks && begun.db.chunks == start.db.chunks && begun.db.plans == start.db.plans
    requires AllDone(begun, v, req, targets, nets) && ChunksOk(v.db.chunks) && |req.content| > 0
             && req.file in v.db.files
    requires HasParts(v.db.chunks, req.file, req.base, req.content, ChunkCount(|req.content|))
    ensures AllDone(start, v, req, targets, nets)
    ensures StoresFile(v, req.file, req.base, req.content) <==> NoStaleCopies(start, req, targets, nets)
    ensures Unused(start, req.base, req.content) ==> StoresFile(v, req.file, req.base, req.content)
    ensures Unused(start, req.base, req.content) ==> Stored(v, req.base, req.content)
  {
    SameBeginning(start, begun, v, req, targets, nets);
    DoneIsStored(start, v, req, targets, nets);
  }

  lemma NotOpenedKeeps(s: State, t: State, req: UploadRequest)
    requires UploadsOk(s) && (t == s || CallOutcome(s, MakeCall(req)) == Ok(t))
    ensures '/' !in req.name ==> UploadsOk(t)
  {
    if '/' !in req.name && t != s {
      CallKeeps(s, MakeCall(req));
    }
  }

  lemma KeptWhereStopped(s: State, t: State, req: UploadRequest)
    requires UploadsOk(s) && Performs(s, t, req) && req.session !in s.sessions
    ensures '/' !in req.name && Unrecorded(s, req) ==> UploadsOk(t)
  {
    if '/' !in req.name && Unrecorded(s, req) {
      UploadKeeps(s, t, req);
    }
  }

  lemma SameThrough(s: State, t: State, puts: nat -> Put, nets: nat -> Net, k: nat)
    requires t.nodes == s.nodes
    ensures AllThrough(s, puts, nets, k) == AllThrough(t, puts, nets, k)
  {
    forall i | 0 <= i < k ensures GoesThrough(s, puts(i), nets(i)) == GoesThrough(t, puts(i), nets(i)) {
      SameTakers(s, t, puts(i), nets(i));
    }
  }

  /** Opening the upload touches no disk, chunk or plan. */
  lemma SameBeginning(start: World, begun: World, v: World, req: UploadRequest, targets: seq<NodeId>, nets: nat -> Net)
    requires begun.disks == start.disks && begun.db.chunks == start.db.chunks && begun.db.plans == start.db.plans
    requires AllDone(begun, v, req, targets, nets)
    ensures AllDone(start, v, req, targets, nets)
  {
    var total := ChunkCount(|req.content|);
    forall i | 0 <= i < total
      ensures PartDone(start, v, PartId(req.base, i, total), Part(req.content, i), targets, nets(i))
    {
      assert PartDone(begun, v, PartId(req.base, i, total), Part(req.content, i), targets, nets(i));
      SameStaleCopies(start, begun, PartId(req.base, i, total), Part(req.content, i), targets, nets(i));
    }
  }
}

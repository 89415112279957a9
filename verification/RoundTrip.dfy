/** What was uploaded is what is downloaded, whatever the background controllers did in between. */
module RoundTrip {
  import opened Metadata
  import opened Strings
  import opened ReplicaStore
  import opened Coordinator
  import opened ReplicaProtocol
  import opened ReplicaSafety
  import opened Upload
  import opened UploadInvariants
  import opened Parts
  import opened GatewayDownload
  import opened GatewayUpload

  /** Steps of the background controllers and reports of the nodes. */
  predicate Background(a: Action) {
    a.FailoverAction? || a.RebalanceAction? || a.RepairAction? || a.CleanupAction? || a.NodeReport?
  }

  /** The step leaves the chunk list of the file alone: a background step, an upload for another
      file that does not name one of this file's chunk ids, deletes, or a transaction that keeps the
      file and the cut of its chunks. */
  ghost predicate Spares(s: State, a: Action, f: FileId) {
    match a
    case UploadAction(record, _, _, committed, db) =>
      && !Of(s.chunks, record.id, f)
      && (committed ==> record.fileId != f && f in db.files && ChunksOk(db.chunks))
    case OtherTransaction(db) => f in db.files && ChunksOk(db.chunks) && SameCut(s.chunks, db.chunks, f)
    case _ => true
  }

  ghost predicate AllSpare(w: World, actions: seq<Action>, f: FileId)
    decreases |actions|
  {
    actions == [] || (Spares(w.db, actions[0], f) && AllSpare(Step(w, actions[0]), actions[1..], f))
  }

  // ---------------------------------------------------------------- records

  /** Apart from replicas and policies, the same chunks. */
  predicate SameShapes(a: Chunks, b: Chunks) {
    a.Keys == b.Keys &&
    forall c :: c in a ==>
        b[c] == a[c].(replicas := b[c].replicas, replicaCount := b[c].replicaCount, policy := b[c].policy)
  }

  lemma ShapeOf(s: State, plans: Plans, id: ChunkId, patch: ReplicaPatch)
    requires id in s.chunks
    ensures SameShapes(s.chunks, WithPlansAndChunk(s, plans, id, Patched(s.chunks[id], patch)).chunks)
  {
  }

  lemma ShapesChain(a: Chunks, b: Chunks, c: Chunks)
    requires SameShapes(a, b) && SameShapes(b, c)
    ensures SameShapes(a, c)
  {
  }

  lemma PlanOutcomeShapes(s: State, plan: Plan, chunk: Chunk, role: ReplicaRole, allowed: bool, published: bool)
    requires chunk.id in s.chunks
    ensures var t := PlanOutcome(s, plan, chunk, role, allowed, published);
            SameShapes(s.chunks, t.chunks) && t.files == s.files
  {
    if allowed {
      var t := Materialize(s, plan, chunk, role);
      ShapeOf(s, s.plans[plan.id := plan], chunk.id, PlanPatch(chunk, plan.target, role));
      if !published {
        ShapeOf(t, t.plans - {plan.id}, chunk.id, RollbackPatch(chunk, plan.target));
        ShapesChain(s.chunks, t.chunks, Rollback(t, plan, chunk).chunks);
      }
    }
  }

  lemma PlannerKeepsShapes(w: World, a: Action)
    requires Sound(w.db) && (a.FailoverAction? || a.RebalanceAction?)
    ensures SameShapes(w.db.chunks, Step(w, a).db.chunks) && Step(w, a).db.files == w.db.files
  {
    if Step(w, a) != w {
      var plan, role, allowed := PlannerActs(w, a);
      PlanOutcomeShapes(w.db, plan, w.db.chunks[plan.chunkId], role, allowed, a.published);
    }
  }

  lemma RepairKeepsShapes(w: World, chunk: ChunkId, source: NodeId, due: set<NodeId>, net: Net)
    ensures var t := RepairChunk(w, chunk, source, due, net).db;
            SameShapes(w.db.chunks, t.chunks) && t.files == w.db.files
  {
  }

  lemma FinishKeepsShapes(s: State, plan: Plan)
    requires FinishPlan(s, plan).Ok?
    ensures SameShapes(s.chunks, FinishPlan(s, plan).value.chunks) && FinishPlan(s, plan).value.files == s.files
  {
  }

  lemma RecordsKeepShapes(s: State, plan: Plan, released: bool)
    ensures var t := FinalizeRecords(s, plan, released); SameShapes(s.chunks, t.chunks) && t.files == s.files
  {
    if released && FinishPlan(s, plan).Ok? {
      FinishKeepsShapes(s, plan);
    } else {
      assert FinalizeRecords(s, plan, released).chunks == s.chunks;
    }
  }

  lemma CleanupKeepsShapes(w: World, id: PlanId, del: Delete)
    ensures var t := FinalizePlan(w, id, del).db; SameShapes(w.db.chunks, t.chunks) && t.files == w.db.files
  {
    if Finalizable(w.db, id) {
      RecordsKeepShapes(w.db, w.db.plans[id], SourceReleased(w, w.db.plans[id], del));
    }
  }

  lemma StepKeepsShapes(w: World, a: Action)
    requires Sound(w.db) && Background(a)
    ensures SameShapes(w.db.chunks, Step(w, a).db.chunks) && Step(w, a).db.files == w.db.files
  {
    if a.FailoverAction? || a.RebalanceAction? {
      PlannerKeepsShapes(w, a);
    } else if a.RepairAction? {
      RepairKeepsShapes(w, a.chunk, a.source, a.due, a.net);
    } else if a.CleanupAction? {
      CleanupKeepsShapes(w, a.plan, a.del);
    }
  }

  lemma ShapesKeepOk(a: Chunks, b: Chunks)
    requires ChunksOk(a) && SameShapes(a, b)
    ensures ChunksOk(b)
  {
    forall c, d | c in b && d in b && SameSlot(b[c], b[d]) ensures c == d {
      assert SameSlot(a[c], a[d]);
    }
  }

  // ---------------------------------------------------------------- bytes

  /** Every copy of the chunk, on any disk, is `data`. */
  predicate AllCopies(w: World, c: ChunkId, data: Bytes) {
    forall n :: n in w.disks && c in w.disks[n] ==> w.disks[n][c] == data
  }

  lemma RepairKeepsCopies(w: World, chunk: ChunkId, source: NodeId, due: set<NodeId>, net: Net, c: ChunkId, data: Bytes)
    requires AllCopies(w, c, data)
    ensures AllCopies(RepairChunk(w, chunk, source, due, net), c, data)
  {
  }

  lemma CleanupKeepsCopies(w: World, id: PlanId, del: Delete, c: ChunkId, data: Bytes)
    requires AllCopies(w, c, data)
    ensures AllCopies(FinalizePlan(w, id, del), c, data)
  {
  }

  /** A write to data nodes keeps all copies right exactly when it is under another id, or the same
      bytes, or reaches no node. */
  lemma WriteKeepsCopiesIff(w: World, id: ChunkId, bytes: Bytes, nodes: set<NodeId>, c: ChunkId, data: Bytes)
    requires AllCopies(w, c, data)
    ensures AllCopies(World(w.db, CopyBytes(w.disks, id, bytes, nodes)), c, data)
            <==> (id != c || bytes == data || nodes == {})
  {
    var disks := CopyBytes(w.disks, id, bytes, nodes);
    if id == c && nodes != {} {
      var n :| n in nodes;
      assert disks[n][c] == bytes;
    }
  }

  lemma StepKeepsCopies(w: World, a: Action, c: ChunkId, data: Bytes)
    requires Sound(w.db) && AllCopies(w, c, data) && (a.UploadAction? ==> a.record.id != c)
    ensures AllCopies(Step(w, a), c, data)
  {
    if a.FailoverAction? || a.RebalanceAction? {
      var change := PlannerChange(w, a);
    } else if a.RepairAction? {
      RepairKeepsCopies(w, a.chunk, a.source, a.due, a.net, c, data);
    } else if a.CleanupAction? {
      CleanupKeepsCopies(w, a.plan, a.del, c, data);
    } else if a.UploadAction? {
      WriteKeepsCopiesIff(w, a.record.id, a.data, a.nodes, c, data);
    }
  }

  // ---------------------------------------------------------------- files

  /** The file's records are its parts, and no disk holds anything else under their ids. */
  ghost predicate Intact(w: World, f: FileId, base: ChunkId, content: Bytes) {
    && f in w.db.files && |content| > 0 && ChunksOk(w.db.chunks)
    && HasParts(w.db.chunks, f, base, content, ChunkCount(|content|))
    && forall i :: 0 <= i < ChunkCount(|content|) ==>
         AllCopies(w, PartId(base, i, ChunkCount(|content|)), Part(content, i))
  }

  lemma IntactIsStored(w: World, f: FileId, base: ChunkId, content: Bytes)
    requires Intact(w, f, base, content)
    ensures StoresFile(w, f, base, content)
  {
    forall i | 0 <= i < ChunkCount(|content|)
      ensures CopiesAgree(w, PartId(base, i, ChunkCount(|content|)), Part(content, i))
    {
      assert IsPart(w.db.chunks, f, base, content, i);
      assert AllCopies(w, PartId(base, i, ChunkCount(|content|)), Part(content, i));
    }
  }

  /** An upload leaves the file intact. */
  lemma UploadedIsIntact(w: World, f: FileId, base: ChunkId, content: Bytes)
    requires StoresFile(w, f, base, content) && GatewayUpload.Stored(w, base, content)
    ensures Intact(w, f, base, content)
  {
    forall i | 0 <= i < ChunkCount(|content|)
      ensures AllCopies(w, PartId(base, i, ChunkCount(|content|)), Part(content, i))
    {
      assert PartStored(w, PartId(base, i, ChunkCount(|content|)), Part(content, i));
    }
  }

  lemma StepKeepsCut(w: World, a: Action, f: FileId)
    requires Sound(w.db) && Spares(w.db, a, f) && f in w.db.files && ChunksOk(w.db.chunks)
    ensures var t := Step(w, a).db; f in t.files && ChunksOk(t.chunks) && SameCut(w.db.chunks, t.chunks, f)
  {
    if Background(a) {
      StepKeepsShapes(w, a);
      ShapesKeepOk(w.db.chunks, Step(w, a).db.chunks);
    }
  }

  lemma StepKeepsIntact(w: World, a: Action, f: FileId, base: ChunkId, content: Bytes)
    requires Sound(w.db) && Spares(w.db, a, f) && Intact(w, f, base, content)
    ensures Intact(Step(w, a), f, base, content)
  {
    var v, total := Step(w, a), ChunkCount(|content|);
    StepKeepsCut(w, a, f);
    SameCutKeepsParts(w.db.chunks, v.db.chunks, f, base, content, total);
    forall i | 0 <= i < total ensures AllCopies(v, PartId(base, i, total), Part(content, i)) {
      assert IsPart(w.db.chunks, f, base, content, i);
      StepKeepsCopies(w, a, PartId(base, i, total), Part(content, i));
    }
  }

  /** Nothing that leaves the file's chunk list and chunk ids alone can corrupt the file: whatever
      the background controllers and other clients do under other ids, and whatever copies, deletes
      and acknowledgements fail, a later download gives the uploaded content or nothing. */
  lemma {:induction false} NeverCorrupted(w: World, actions: seq<Action>, f: FileId, base: ChunkId, content: Bytes)
    requires Sound(w.db) && AllSpare(w, actions, f) && Intact(w, f, base, content)
    ensures Sound(Run(w, actions).db) && Intact(Run(w, actions), f, base, content)
    ensures StoresFile(Run(w, actions), f, base, content)
    decreases |actions|
  {
    if actions == [] {
      IntactIsStored(w, f, base, content);
    } else {
      StepKeepsIntact(w, actions[0], f, base, content);
      StepSound(w, actions[0]);
      NeverCorrupted(Step(w, actions[0]), actions[1..], f, base, content);
    }
  }

  // ---------------------------------------------------------------- availability

  /** A part keeps a ready replica, and its ready replicas keep its bytes, in every run in which no
      delete acknowledgement is lost and nobody else uses its id. */
  lemma PartStaysHeld(w: World, actions: seq<Action>, id: ChunkId, data: Bytes)
    requires Sound(w.db) && AcksKept(actions) && LeftAlone(actions, id) && PartStored(w, id, data)
    ensures ReadyNodes(Replicas(Run(w, actions).db, id)) != {} && AllHold(Run(w, actions), id, data)
  {
    DataIsNeverLost(w, actions, id, data);
    BytesSurvive(w, actions, id, data);
  }

  /** Some ready replica of the chunk is on a registered node with an address, and the request to
      it gets through. */
  predicate OneUp(w: World, id: ChunkId, reach: Reach) {
    exists n :: n in ReadyNodes(Replicas(w.db, id)) && n in w.db.nodes && !Blank(w.db.nodes[n].address)
      && (id, n) in reach
  }

  lemma HolderAnswers(w: World, reach: Reach, id: ChunkId, data: Bytes)
    requires AllHold(w, id, data) && OneUp(w, id, reach)
    ensures Reachable(w, reach, id)
  {
    var n :| n in ReadyNodes(Replicas(w.db, id)) && n in w.db.nodes && !Blank(w.db.nodes[n].address)
      && (id, n) in reach;
    assert Answers(w, reach, id, n);
  }

  /** No deletes are sent for the chunk. */
  predicate NotErased(actions: seq<Action>, c: ChunkId) {
    forall i :: 0 <= i < |actions| && actions[i].EraseAction? ==> actions[i].chunk != c
  }

  /** A run that leaves the file's chunk list and chunk ids alone leaves each part alone. */
  lemma {:induction false} SpareLeavesAlone(w: World, actions: seq<Action>, f: FileId, base: ChunkId, content: Bytes,
                                            i: nat)
    requires Sound(w.db) && AllSpare(w, actions, f) && Intact(w, f, base, content) && i < ChunkCount(|content|)
    requires NotErased(actions, PartId(base, i, ChunkCount(|content|)))
    ensures LeftAlone(actions, PartId(base, i, ChunkCount(|content|)))
    decreases |actions|
  {
    if actions != [] {
      var c := PartId(base, i, ChunkCount(|content|));
      assert IsPart(w.db.chunks, f, base, content, i);
      assert LeavesAlone(actions[0], c);
      StepKeepsIntact(w, actions[0], f, base, content);
      StepSound(w, actions[0]);
      assert forall k :: 0 <= k < |actions[1..]| ==> actions[1..][k] == actions[k + 1];
      SpareLeavesAlone(Step(w, actions[0]), actions[1..], f, base, content, i);
      assert forall k :: 0 < k < |actions| ==> actions[k] == actions[1..][k - 1];
    }
  }

  /** A file stays readable: after any run that leaves its chunk list, chunk ids and copies alone and
      loses no delete acknowledgement, one ready replica per part that is up is enough for a
      download to give back the content. */
  lemma AlwaysReadable(w: World, actions: seq<Action>, reach: Reach, f: FileId, base: ChunkId, content: Bytes)
    requires Sound(w.db) && StoresFile(w, f, base, content) && GatewayUpload.Stored(w, base, content)
    requires AllSpare(w, actions, f) && AcksKept(actions)
    requires forall i :: 0 <= i < ChunkCount(|content|) ==>
               NotErased(actions, PartId(base, i, ChunkCount(|content|)))
    requires forall i :: 0 <= i < ChunkCount(|content|) ==>
               OneUp(Run(w, actions), PartId(base, i, ChunkCount(|content|)), reach)
    ensures StoresFile(Run(w, actions), f, base, content) && AllReachable(Run(w, actions), base, content, reach)
  {
    UploadedIsIntact(w, f, base, content);
    NeverCorrupted(w, actions, f, base, content);
    var total := ChunkCount(|content|);
    forall i | 0 <= i < total ensures Reachable(Run(w, actions), reach, PartId(base, i, total)) {
      SpareLeavesAlone(w, actions, f, base, content, i);
      PartStaysHeld(w, actions, PartId(base, i, total), Part(content, i));
      HolderAnswers(Run(w, actions), reach, PartId(base, i, total), Part(content, i));
    }
  }
}

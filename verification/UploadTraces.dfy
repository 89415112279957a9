/** What an upload touches, whether or not it is finished: the calls it makes, and the copies and
    records it changes. */
module UploadTraces {
  import opened Wrappers
  import opened Metadata
  import opened Coordinator
  import opened ReplicaProtocol
  import opened ReplicaSafety
  import opened NamespaceRuns
  import opened Upload
  import opened UploadInvariants
  import opened UploadRuns
  import opened UploadFlow
  import opened Parts
  import opened GatewayDownload

  datatype UploadRequest = UploadRequest(
    inode: InodeId,
    file: FileId,
    session: SessionId,
    parent: InodeId,
    name: string,
    base: ChunkId,
    content: Bytes)

  // ---------------------------------------------------------------- copies and records

  /** Every disk has the same under `id`. */
  ghost predicate SameCopies(w: World, v: World, id: ChunkId) {
    && (forall n :: id in Disk(w, n) <==> id in Disk(v, n))
    && (forall n :: id in Disk(w, n) ==> Disk(v, n)[id] == Disk(w, n)[id])
  }

  /** The bytes reach these nodes, and no record but that of the id changes. */
  ghost predicate Touched(w: World, v: World, id: ChunkId, data: Bytes, nodes: set<NodeId>) {
    && v.disks == CopyBytes(w.disks, id, data, nodes)
    && forall c :: c != id ==> SameRecord(w.db.chunks, v.db.chunks, c)
  }

  predicate SameRecord(a: Chunks, b: Chunks, c: ChunkId) {
    (c in a <==> c in b) && (c in a ==> b[c] == a[c])
  }

  predicate IsPartId(req: UploadRequest, c: ChunkId) {
    exists i :: 0 <= i < ChunkCount(|req.content|) && c == PartId(req.base, i, ChunkCount(|req.content|))
  }

  /** Every copy under the id is one of `start`, or `data`. */
  ghost predicate OldOrNew(start: World, w: World, id: ChunkId, data: Bytes) {
    forall n :: id in Disk(w, n) ==>
      Disk(w, n)[id] == data || (id in Disk(start, n) && Disk(w, n)[id] == Disk(start, n)[id])
  }

  /** What an upload, finished or not, has touched: copies and records under its own part ids, and
      the new copies are its parts. */
  ghost predicate Traces(start: World, w: World, req: UploadRequest) {
    && (forall c :: !IsPartId(req, c) ==> SameCopies(start, w, c) && SameRecord(start.db.chunks, w.db.chunks, c))
    && (forall i :: 0 <= i < ChunkCount(|req.content|) ==>
          OldOrNew(start, w, PartId(req.base, i, ChunkCount(|req.content|)), Part(req.content, i)))
  }

  lemma NoTraces(start: World, w: World, req: UploadRequest)
    requires w.disks == start.disks && w.db.chunks == start.db.chunks
    ensures Traces(start, w, req)
  {
  }

  lemma OtherCopies(w: World, v: World, id: ChunkId, data: Bytes, nodes: set<NodeId>, c: ChunkId)
    requires v.disks == CopyBytes(w.disks, id, data, nodes) && c != id
    ensures SameCopies(w, v, c)
  {
    forall n ensures (c in Disk(w, n)) == (c in Disk(v, n)) ensures c in Disk(w, n) ==> Disk(v, n)[c] == Disk(w, n)[c] {
      DiskAfterCopy(w, v.db, id, data, nodes, n);
    }
  }

  lemma OwnCopies(start: World, w: World, v: World, id: ChunkId, data: Bytes, nodes: set<NodeId>)
    requires v.disks == CopyBytes(w.disks, id, data, nodes) && OldOrNew(start, w, id, data)
    ensures OldOrNew(start, v, id, data)
  {
    forall n | id in Disk(v, n)
      ensures Disk(v, n)[id] == data || (id in Disk(start, n) && Disk(v, n)[id] == Disk(start, n)[id])
    {
      DiskAfterCopy(w, v.db, id, data, nodes, n);
    }
  }

  /** Writing one part leaves the copies of every other chunk alone. */
  lemma WriteTraces(start: World, w: World, v: World, req: UploadRequest, k: nat, nodes: set<NodeId>)
    requires Traces(start, w, req) && k < ChunkCount(|req.content|)
    requires Touched(w, v, PartId(req.base, k, ChunkCount(|req.content|)), Part(req.content, k), nodes)
    ensures Traces(start, v, req)
  {
    var total := ChunkCount(|req.content|);
    var id := PartId(req.base, k, total);
    assert IsPartId(req, id);
    forall c | !IsPartId(req, c) ensures SameCopies(start, v, c) && SameRecord(start.db.chunks, v.db.chunks, c) {
      assert SameCopies(start, w, c) && SameRecord(start.db.chunks, w.db.chunks, c) && c != id;
      OtherCopies(w, v, id, Part(req.content, k), nodes, c);
      assert SameRecord(w.db.chunks, v.db.chunks, c);
    }
    forall i | 0 <= i < total ensures OldOrNew(start, v, PartId(req.base, i, total), Part(req.content, i)) {
      assert OldOrNew(start, w, PartId(req.base, i, total), Part(req.content, i));
      if i == k {
        OwnCopies(start, w, v, id, Part(req.content, k), nodes);
      } else {
        if PartId(req.base, i, total) == id {
          PartIdInjective(req.base, i, k, total);
        }
        OtherCopies(w, v, id, Part(req.content, k), nodes, PartId(req.base, i, total));
      }
    }
  }

  /** Completing the upload changes the statuses of its own chunks and no copy. */
  lemma CloseTraces(start: World, w: World, v: World, req: UploadRequest)
    requires Traces(start, w, req) && v.disks == w.disks
    requires SameChunks(w.db.chunks, v.db.chunks) && OthersSame(w.db.chunks, v.db.chunks, req.file)
    requires HasParts(w.db.chunks, req.file, req.base, req.content, ChunkCount(|req.content|))
    ensures Traces(start, v, req)
  {
    forall c | !IsPartId(req, c) ensures SameCopies(start, v, c) && SameRecord(start.db.chunks, v.db.chunks, c) {
      assert SameCopies(start, w, c) && SameRecord(start.db.chunks, w.db.chunks, c);
      assert !Of(w.db.chunks, c, req.file);
    }
    forall i | 0 <= i < ChunkCount(|req.content|)
      ensures OldOrNew(start, v, PartId(req.base, i, ChunkCount(|req.content|)), Part(req.content, i))
    {
      assert OldOrNew(start, w, PartId(req.base, i, ChunkCount(|req.content|)), Part(req.content, i));
    }
  }

  /** A chunk whose id is not one of the upload's part ids keeps its stored bytes and its copies. */
  lemma OthersUntouched(start: World, w: World, req: UploadRequest, c: ChunkId, data: Bytes)
    requires Traces(start, w, req) && !IsPartId(req, c)
    ensures AllHold(start, c, data) ==> AllHold(w, c, data)
    ensures c in start.db.chunks && w.db.nodes == start.db.nodes ==>
              (CopiesAgree(w, c, data) <==> CopiesAgree(start, c, data))
  {
    assert SameCopies(start, w, c) && SameRecord(start.db.chunks, w.db.chunks, c);
  }

  /** No part id is on record. */
  predicate Unrecorded(s: State, req: UploadRequest) {
    forall i :: 0 <= i < ChunkCount(|req.content|) ==> PartId(req.base, i, ChunkCount(|req.content|)) !in s.chunks
  }

  lemma SameTraces(start: World, begun: World, v: World, req: UploadRequest)
    requires begun.disks == start.disks && begun.db.chunks == start.db.chunks && Traces(begun, v, req)
    ensures Traces(start, v, req)
  {
    forall c | !IsPartId(req, c) ensures SameCopies(start, v, c) && SameRecord(start.db.chunks, v.db.chunks, c) {
      assert SameCopies(begun, v, c);
    }
    forall i | 0 <= i < ChunkCount(|req.content|)
      ensures OldOrNew(start, v, PartId(req.base, i, ChunkCount(|req.content|)), Part(req.content, i))
    {
      assert OldOrNew(begun, v, PartId(req.base, i, ChunkCount(|req.content|)), Part(req.content, i));
    }
  }

  // ---------------------------------------------------------------- calls

  function MakeCall(req: UploadRequest): Call {
    NamespaceCall(MakeFile(req.inode, req.file, req.parent, req.name, |req.content|, None))
  }

  /** The calls an upload makes: create its file, start its session, commit its parts, complete and
      verify. */
  predicate IsOwn(call: Call, req: UploadRequest) {
    match call
    case NamespaceCall(_) => call == MakeCall(req)
    case StartCall(session, file, _, _) => session == req.session && file == req.file
    case CommitCall(commit) => commit.session == req.session && IsPartId(req, commit.chunk)
    case CompleteCall(session, _, _) => session == req.session
    case VerifyCall(session, _, _) => session == req.session
    case _ => false
  }

  predicate AllOwn(calls: seq<Call>, req: UploadRequest) {
    forall i :: 0 <= i < |calls| ==> IsOwn(calls[i], req)
  }

  /** Some calls of the upload lead from one state to the other. */
  ghost predicate Performs(s: State, t: State, req: UploadRequest) {
    exists calls :: AllOwn(calls, req) && t == PerformAll(s, calls)
  }

  /** One accepted call of the upload. */
  ghost predicate Calls(s: State, t: State, req: UploadRequest) {
    exists call :: IsOwn(call, req) && CallOutcome(s, call) == Ok(t)
  }

  lemma {:induction false} PerformAppend(s: State, a: seq<Call>, b: seq<Call>)
    ensures PerformAll(s, a + b) == PerformAll(PerformAll(s, a), b)
    decreases |a|
  {
    if a == [] {
      assert a + b == b;
    } else {
      assert (a + b)[1..] == a[1..] + b;
      PerformAppend(Perform(s, a[0]), a[1..], b);
    }
  }

  lemma NothingPerformed(s: State, req: UploadRequest)
    ensures Performs(s, s, req)
  {
    assert AllOwn([], req) && s == PerformAll(s, []);
  }

  lemma PerformsChain(s: State, t: State, u: State, req: UploadRequest)
    requires Performs(s, t, req) && Performs(t, u, req)
    ensures Performs(s, u, req)
  {
    var a :| AllOwn(a, req) && t == PerformAll(s, a);
    var b :| AllOwn(b, req) && u == PerformAll(t, b);
    PerformAppend(s, a, b);
    assert AllOwn(a + b, req) && u == PerformAll(s, a + b);
  }

  lemma OneMoreCall(s: State, t: State, u: State, req: UploadRequest)
    requires Performs(s, t, req) && Calls(t, u, req)
    ensures Performs(s, u, req)
  {
    var call :| IsOwn(call, req) && CallOutcome(t, call) == Ok(u);
    assert [call][1..] == [] && PerformAll(Perform(t, call), []) == u;
    assert AllOwn([call], req) && u == PerformAll(t, [call]);
    PerformsChain(s, t, u, req);
  }

  /** All that the upload has done so far, from `start` on. */
  ghost predicate Trail(start: World, w: World, req: UploadRequest) {
    Traces(start, w, req) && Performs(start.db, w.db, req)
  }

  lemma TrailStarts(w: World, req: UploadRequest)
    ensures Trail(w, w, req)
  {
    NoTraces(w, w, req);
    NothingPerformed(w.db, req);
  }

  lemma TrailGrows(start: World, w: World, v: World, req: UploadRequest, k: nat, nodes: set<NodeId>)
    requires Trail(start, w, req) && k < ChunkCount(|req.content|)
    requires Touched(w, v, PartId(req.base, k, ChunkCount(|req.content|)), Part(req.content, k), nodes)
    requires v.db == w.db || Calls(w.db, v.db, req)
    ensures Trail(start, v, req)
  {
    WriteTraces(start, w, v, req, k, nodes);
    if v.db != w.db {
      OneMoreCall(start.db, w.db, v.db, req);
    }
  }

  lemma TrailFromStart(start: World, begun: World, v: World, req: UploadRequest)
    requires begun.disks == start.disks && begun.db.chunks == start.db.chunks && Performs(start.db, begun.db, req)
    requires Trail(begun, v, req)
    ensures Trail(start, v, req)
  {
    SameTraces(start, begun, v, req);
    PerformsChain(start.db, begun.db, v.db, req);
  }

  lemma TrailEnds(start: World, w: World, v: World, req: UploadRequest)
    requires Trail(start, w, req) && v.disks == w.disks && Performs(w.db, v.db, req)
    requires SameChunks(w.db.chunks, v.db.chunks) && OthersSame(w.db.chunks, v.db.chunks, req.file)
    requires HasParts(w.db.chunks, req.file, req.base, req.content, ChunkCount(|req.content|))
    ensures Trail(start, v, req)
  {
    CloseTraces(start, w, v, req);
    PerformsChain(start.db, w.db, v.db, req);
  }

  /** What is on record under the upload's ids is its own. */
  ghost predicate Owned(s: State, req: UploadRequest) {
    && (forall c :: IsPartId(req, c) && c in s.chunks ==> s.chunks[c].fileId == req.file)
    && (req.session in s.sessions ==> s.sessions[req.session].fileId == req.file)
  }

  lemma CallKeepsOwned(s: State, call: Call, req: UploadRequest)
    requires Owned(s, req) && IsOwn(call, req) && forall f :: f in s.files ==> s.files[f].id == f
    ensures Owned(Perform(s, call), req)
  {
    if CallOutcome(s, call).Ok? {
      match call
      case NamespaceCall(_) =>
        CreateFileEffect(s, req.inode, req.file, req.parent, req.name, |req.content|, None);
      case StartCall(session, file, size, checksum) => StartEffect(s, session, file, size, checksum);
      case CommitCall(commit) => CommitKeepsOwned(s, commit, req);
      case CompleteCall(session, checksum, statuses) => CompleteEffect(s, session, checksum, statuses);
      case VerifyCall(session, checksum, statuses) => VerifyEffect(s, session, checksum, statuses);
    }
  }

  lemma CommitKeepsOwned(s: State, commit: Commit, req: UploadRequest)
    requires Owned(s, req) && CommitChunk(s, commit).Ok? && commit.session == req.session
    requires forall f :: f in s.files ==> s.files[f].id == f
    ensures Owned(CommitChunk(s, commit).value, req)
  {
    CommitEffect(s, commit);
  }

  /** Politeness: the upload's calls commit no chunk that belongs to another file. */
  lemma {:induction false} OwnCallsKeep(s: State, calls: seq<Call>, req: UploadRequest)
    requires UploadsOk(s) && Owned(s, req) && AllOwn(calls, req) && '/' !in req.name
    ensures UploadsOk(PerformAll(s, calls))
    decreases |calls|
  {
    if calls != [] {
      assert IsOwn(calls[0], req) && Polite(s, calls[0]);
      CallKeeps(s, calls[0]);
      CallKeepsOwned(s, calls[0], req);
      assert forall i :: 0 <= i < |calls[1..]| ==> calls[1..][i] == calls[i + 1];
      OwnCallsKeep(Perform(s, calls[0]), calls[1..], req);
    }
  }

  /** An upload whose part ids and session id are new keeps the upload invariant, wherever it stops. */
  lemma UploadKeeps(s: State, t: State, req: UploadRequest)
    requires UploadsOk(s) && Performs(s, t, req) && '/' !in req.name
    requires Unrecorded(s, req) && req.session !in s.sessions
    ensures UploadsOk(t)
  {
    var calls :| AllOwn(calls, req) && t == PerformAll(s, calls);
    assert Owned(s, req);
    OwnCallsKeep(s, calls, req);
  }
}

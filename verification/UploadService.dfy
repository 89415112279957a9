/** The upload use cases as transactions on the repository, loop by loop
    (internal/mds/service_upload.go).  Each is proved to do what its specification function in
    module Upload says, error for error. */
module UploadService {
  import opened Wrappers
  import opened Metadata
  import opened Store
  import opened Upload
  import opened UploadInvariants
  import opened ChunkLists

  // ---------------------------------------------------------------- loops

  method FindActiveSession(s: State, f: FileId) returns (found: bool)
    ensures found <==> ActiveSession(s, f)
  {
    found := false;
    var todo := s.sessions.Keys;
    while todo != {}
      invariant todo <= s.sessions.Keys
      invariant found ==> ActiveSession(s, f)
      invariant !found ==> forall u :: u in s.sessions && u !in todo ==>
                  s.sessions[u].fileId != f || TerminalUpload(s.sessions[u].status)
      decreases |todo|
    {
      var u :| u in todo;
      todo := todo - {u};
      if s.sessions[u].fileId == f && !TerminalUpload(s.sessions[u].status) {
        found := true;
      }
    }
  }

  /** normalizeChunkReplicas */
  method NormalizeReplicas(replicas: ReplicaSet, f: FileId, c: ChunkId) returns (r: Option<ReplicaSet>)
    ensures r == if CanNormalize(replicas, f, c) then Some(Normalized(replicas, f, c)) else None
  {
    var out: ReplicaSet := map[];
    var todo := replicas.Keys;
    while todo != {}
      invariant todo <= replicas.Keys
      invariant out.Keys == replicas.Keys - todo
      invariant forall n :: n in out ==> NormalReplica(n, replicas[n], f, c)
                                         && out[n] == replicas[n].(nodeId := n, fileId := f, chunkId := c)
      decreases |todo|
    {
      var n :| n in todo;
      todo := todo - {n};
      var replica := replicas[n];
      if n == "" {
        return None;
      }
      if replica.nodeId == "" {
        replica := replica.(nodeId := n);
      }
      if replica.nodeId != n {
        return None;
      }
      if replica.fileId == "" {
        replica := replica.(fileId := f);
      }
      if replica.fileId != f {
        return None;
      }
      if replica.chunkId == "" {
        replica := replica.(chunkId := c);
      }
      if replica.chunkId != c {
        return None;
      }
      out := out[n := replica];
    }
    assert out == Normalized(replicas, f, c);
    r := Some(out);
  }

  /** The duplicate check of upsertChunks. */
  method FindPlaceTaken(chunks: Chunks, f: FileId, chunk: ChunkId, index: int, offset: int) returns (taken: bool)
    ensures taken <==> PlaceTaken(chunks, f, chunk, index, offset)
  {
    var todo := chunks.Keys;
    while todo != {}
      invariant todo <= chunks.Keys
      invariant forall c :: Of(chunks, c, f) && c !in todo ==>
                  chunks[c].id == chunk || (chunks[c].index != index && chunks[c].offset != offset)
      decreases |todo|
    {
      var c :| c in todo;
      todo := todo - {c};
      if chunks[c].fileId == f && chunks[c].id != chunk && (chunks[c].index == index || chunks[c].offset == offset) {
        assert Of(chunks, c, f);
        return true;
      }
    }
    taken := false;
  }

  ghost predicate Listed(l: seq<Chunk>, n: int, c: ChunkId)
    requires 0 <= n <= |l|
  {
    exists j :: 0 <= j < n && l[j].id == c
  }

  lemma ListedMore(l: seq<Chunk>, n: int, c: ChunkId)
    requires 0 <= n < |l|
    ensures Listed(l, n + 1, c) <==> Listed(l, n, c) || c == l[n].id
  {
  }

  lemma ListedAll(chunks: Chunks, f: FileId, l: seq<Chunk>, c: ChunkId)
    requires ChunksOk(chunks) && IsChunkList(chunks, f, l) && c in chunks
    ensures Listed(l, |l|, c) <==> Of(chunks, c, f)
  {
    if Of(chunks, c, f) {
      var j :| 0 <= j < |l| && l[j] == chunks[c];
      assert l[j].id == c;
    }
  }

  /** One UpdateChunkStatus per listed chunk. */
  method SetStatuses(chunks: Chunks, f: FileId, l: seq<Chunk>, status: ChunkStatus) returns (r: Chunks)
    requires ChunksOk(chunks) && IsChunkList(chunks, f, l)
    ensures r == WithStatus(chunks, f, status)
  {
    r := chunks;
    for i := 0 to |l|
      invariant StatusesSet(chunks, r, l, i, status)
    {
      assert Of(chunks, l[i].id, f);
      OneMoreStatus(chunks, r, l, i, status);
      r := r[l[i].id := r[l[i].id].(status := status)];
    }
    AllStatuses(chunks, r, f, l, status);
  }

  ghost predicate StatusesSet(chunks: Chunks, r: Chunks, l: seq<Chunk>, i: nat, status: ChunkStatus)
    requires i <= |l|
  {
    && r.Keys == chunks.Keys
    && forall c :: c in chunks ==> r[c] == if Listed(l, i, c) then chunks[c].(status := status) else chunks[c]
  }

  lemma OneMoreStatus(chunks: Chunks, r: Chunks, l: seq<Chunk>, i: nat, status: ChunkStatus)
    requires i < |l| && StatusesSet(chunks, r, l, i, status) && l[i].id in chunks
    ensures StatusesSet(chunks, r[l[i].id := r[l[i].id].(status := status)], l, i + 1, status)
  {
    forall c ensures Listed(l, i + 1, c) <==> Listed(l, i, c) || c == l[i].id {
      ListedMore(l, i, c);
    }
  }

  lemma AllStatuses(chunks: Chunks, r: Chunks, f: FileId, l: seq<Chunk>, status: ChunkStatus)
    requires ChunksOk(chunks) && IsChunkList(chunks, f, l) && StatusesSet(chunks, r, l, |l|, status)
    ensures r == WithStatus(chunks, f, status)
  {
    forall c | c in chunks ensures r[c] == WithStatus(chunks, f, status)[c] {
      ListedAll(chunks, f, l, c);
    }
  }

  /** The status loop of FailUploadVerification: all chunks failed, one with its actual checksum. */
  method SetFailed(chunks: Chunks, f: FileId, l: seq<Chunk>, chunk: ChunkId, actual: Option<Checksum>)
    returns (r: Chunks)
    requires ChunksOk(chunks) && IsChunkList(chunks, f, l)
    ensures r == WithFailure(chunks, f, chunk, actual)
  {
    r := chunks;
    for i := 0 to |l|
      invariant r.Keys == chunks.Keys
      invariant forall c :: c in chunks ==>
                  r[c] == if Listed(l, i, c) then FailedChunk(chunks[c], chunk, actual) else chunks[c]
    {
      assert Of(chunks, l[i].id, f);
      forall c ensures Listed(l, i + 1, c) <==> Listed(l, i, c) || c == l[i].id {
        ListedMore(l, i, c);
      }
      r := r[l[i].id := FailedChunk(l[i], chunk, actual)];
    }
    forall c | c in chunks ensures r[c] == WithFailure(chunks, f, chunk, actual)[c] {
      ListedAll(chunks, f, l, c);
    }
  }

  /** One step of the restart loop: keep a chunk before the offset, delete any other. */
  function RestartStep(r: Chunks, c: Chunk, offset: int): Chunks {
    if c.offset >= offset then r - {c.id}
    else if c.id in r then r[c.id := r[c.id].(status := ChunkPersisted)]
    else r
  }

  function RestartFold(chunks: Chunks, l: seq<Chunk>, offset: int): Chunks {
    if l == [] then chunks else RestartStep(RestartFold(chunks, l[..|l| - 1], offset), l[|l| - 1], offset)
  }

  /** The restart loop of RetryUpload: keep what lies before the offset, delete the rest, and
      remember the last chunk kept. */
  method Restart(chunks: Chunks, f: FileId, l: seq<Chunk>, offset: int) returns (r: Chunks, last: ChunkId)
    requires ChunksOk(chunks) && IsChunkList(chunks, f, l)
    ensures r == Restarted(chunks, f, offset)
    ensures last == LastSurvivor(chunks, f, offset)
  {
    r, last := chunks, "";
    ghost var kept := -1;
    for i := 0 to |l|
      invariant r == RestartFold(chunks, l[..i], offset)
      invariant -1 <= kept < i
      invariant forall j :: kept < j < i ==> l[j].offset >= offset
      invariant if kept < 0 then last == "" else l[kept].offset < offset && last == l[kept].id
    {
      assert l[..i + 1][..i] == l[..i];
      r := RestartStep(r, l[i], offset);
      if l[i].offset < offset {
        last, kept := l[i].id, i;
      }
    }
    assert l[..|l|] == l;
    RestartFoldAll(chunks, f, l, offset);
    LastKept(chunks, f, l, offset, kept);
  }

  lemma {:induction false} RestartFoldIs(chunks: Chunks, l: seq<Chunk>, offset: int)
    requires forall j :: 0 <= j < |l| ==> l[j].id in chunks && chunks[l[j].id] == l[j]
    ensures RestartFold(chunks, l, offset) ==
            map c | c in chunks && (!Listed(l, |l|, c) || chunks[c].offset < offset) ::
              if Listed(l, |l|, c) then chunks[c].(status := ChunkPersisted) else chunks[c]
  {
    if l != [] {
      var n := |l| - 1;
      RestartFoldIs(chunks, l[..n], offset);
      forall c ensures Listed(l, |l|, c) <==> Listed(l[..n], n, c) || c == l[n].id {
        ListedMore(l, n, c);
        assert Listed(l, n, c) <==> Listed(l[..n], n, c);
      }
    }
  }

  lemma RestartFoldAll(chunks: Chunks, f: FileId, l: seq<Chunk>, offset: int)
    requires ChunksOk(chunks) && IsChunkList(chunks, f, l)
    ensures RestartFold(chunks, l, offset) == Restarted(chunks, f, offset)
  {
    assert forall j :: 0 <= j < |l| ==> Of(chunks, l[j].id, f) && chunks[l[j].id] == l[j];
    RestartFoldIs(chunks, l, offset);
    forall c | c in chunks ensures Listed(l, |l|, c) <==> Of(chunks, c, f) {
      ListedAll(chunks, f, l, c);
    }
  }

  /** The last list position before the offset is the surviving chunk of largest index. */
  lemma LastKept(chunks: Chunks, f: FileId, l: seq<Chunk>, offset: int, kept: int)
    requires ChunksOk(chunks) && IsChunkList(chunks, f, l) && -1 <= kept < |l|
    requires forall j :: kept < j < |l| ==> l[j].offset >= offset
    requires kept >= 0 ==> l[kept].offset < offset
    ensures LastSurvivor(chunks, f, offset) == if kept < 0 then "" else l[kept].id
  {
    var last := LastSurvivor(chunks, f, offset);
    forall c | Survives(chunks, c, f, offset) ensures kept >= 0 && chunks[c].index <= l[kept].index {
      var j :| 0 <= j < |l| && l[j] == chunks[c];
      assert j <= kept;
      assert j < kept ==> ByIndex(l[j], l[kept]);
    }
    if kept >= 0 {
      assert Survives(chunks, l[kept].id, f, offset);
      assert SameSlot(chunks[last], chunks[l[kept].id]);
    }
  }

  /** healthyReplicaCount */
  method CountHealthy(replicas: ReplicaSet) returns (n: nat)
    ensures n == |HealthyReplicas(replicas)|
  {
    n := 0;
    var todo := replicas.Keys;
    ghost var seen: set<NodeId> := {};
    while todo != {}
      invariant todo <= replicas.Keys
      invariant seen == set k | k in replicas && k !in todo && replicas[k].state == Ready
      invariant n == |seen|
      decreases |todo|
    {
      var k :| k in todo;
      todo := todo - {k};
      if replicas[k].state == Ready {
        n := n + 1;
        seen := seen + {k};
      }
    }
    assert seen == HealthyReplicas(replicas);
  }

  /** The second loop of ensureFileReadyForAvailability. */
  method AllServable(ghost chunks: Chunks, ghost f: FileId, l: seq<Chunk>, required: int) returns (ok: bool)
    requires IsChunkList(chunks, f, l)
    ensures ok <==> forall c :: Of(chunks, c, f) ==> ChunkServable(chunks[c], required)
  {
    for i := 0 to |l|
      invariant forall j :: 0 <= j < i ==> ChunkServable(l[j], required)
    {
      var healthy := CountHealthy(l[i].replicas);
      if !ChecksumReady(l[i].checksum) || healthy < required {
        assert Of(chunks, l[i].id, f) && !ChunkServable(chunks[l[i].id], required);
        return false;
      }
    }
    forall c | Of(chunks, c, f) ensures ChunkServable(chunks[c], required) {
      var j :| 0 <= j < |l| && l[j] == chunks[c];
    }
    ok := true;
  }

  // ---------------------------------------------------------------- transactions

  /** What the transactions rely on; part of the invariant that every use case keeps. */
  predicate Usable(s: State) {
    ChunksOk(s.chunks) && forall f :: f in s.files ==> s.files[f].id == f
  }

  method DoStartUpload(repo: Repository, sid: SessionId, fid: FileId, expectedSize: int,
                       expectedChecksum: Option<Checksum>)
    returns (err: Option<StoreError>)
    modifies repo
    ensures Settles(old(repo.state), repo.state, err,
                    StartUpload(old(repo.state), sid, fid, expectedSize, expectedChecksum))
  {
    if sid == "" || fid == "" || expectedSize < 0 {
      return Some(InvalidArgument);
    }
    var tx := repo.state;
    if fid !in tx.files {
      return Some(NotFound);
    }
    var file := tx.files[fid];
    if file.status == FileDeleting || file.status == FileDeleted {
      return Some(Conflict);
    }
    var active := FindActiveSession(tx, fid);
    if active {
      return Some(Conflict);
    }
    if sid in tx.sessions {
      return Some(AlreadyExists);
    }
    tx := tx.(sessions := tx.sessions[sid := Session(sid, fid, UploadPending, expectedSize, 0, 0, "", expectedChecksum,
                                                     None, 0, "")]);
    tx := tx.(files := tx.files[fid := file.(status := FileUploading, size := expectedSize, latestSession := sid)]);
    repo.state := tx;
    err := None;
  }

  method DoCommitChunk(repo: Repository, r: Commit) returns (err: Option<StoreError>)
    requires Usable(repo.state)
    modifies repo
    ensures Settles(old(repo.state), repo.state, err, CommitChunk(old(repo.state), r))
  {
    if r.session == "" || r.chunk == "" || r.index < 0 || r.offset < 0 || r.size < 0 || !ChecksumShapeOk(r.checksum) {
      return Some(InvalidArgument);
    }
    var tx := repo.state;
    if r.session !in tx.sessions {
      return Some(NotFound);
    }
    var u := tx.sessions[r.session];
    if u.status == UploadCompleted {
      return Some(Conflict);
    }
    if u.fileId !in tx.files {
      return Some(NotFound);
    }
    var file := tx.files[u.fileId];
    if file.latestSession != "" && file.latestSession != r.session {
      return Some(Conflict);
    }
    var replicas := NormalizeReplicas(r.replicas, u.fileId, r.chunk);
    if replicas.None? {
      return Some(InvalidArgument);
    }
    if u.fileId == "" || r.size > CHUNK_SIZE || r.offset != r.index * CHUNK_SIZE {
      return Some(InvalidArgument);
    }
    var taken := FindPlaceTaken(tx.chunks, u.fileId, r.chunk, r.index, r.offset);
    if taken {
      return Some(AlreadyExists);
    }
    var chunk := Chunk(r.chunk, u.fileId, r.index, r.offset, r.size,
                       if r.status.Some? then r.status.value else ChunkPersisted,
                       if r.checksum.Some? then r.checksum.value else EMPTY_CHECKSUM,
                       if r.policy.Some? then r.policy.value else file.policy,
                       |replicas.value|, replicas.value);
    tx := tx.(chunks := tx.chunks[r.chunk := chunk]);
    if ProgressRefused(tx, u, CommitProgress(r)).Some? {
      return ProgressRefused(tx, u, CommitProgress(r));
    }
    tx := tx.(sessions := tx.sessions[r.session := Progressed(u, CommitProgress(r))]);
    CommitChunksOk(repo.state.chunks, chunk);
    var listed := ListChunksByFile(tx, u.fileId);
    var stored := CurrentStoredSize(tx.chunks, u.fileId, listed);
    tx := tx.(files := tx.files[u.fileId := file.(status := FileUploading, storedSize := stored)]);
    repo.state := tx;
    err := None;
  }

  method DoCompleteUpload(repo: Repository, sid: SessionId, finalChecksum: Option<Checksum>, statuses: set<FileStatus>)
    returns (err: Option<StoreError>)
    requires Usable(repo.state)
    modifies repo
    ensures Settles(old(repo.state), repo.state, err, CompleteUpload(old(repo.state), sid, finalChecksum, statuses))
  {
    if sid == "" || !ChecksumShapeOk(finalChecksum) {
      return Some(InvalidArgument);
    }
    var tx := repo.state;
    if LookupRefused(tx, sid, statuses).Some? {
      return LookupRefused(tx, sid, statuses);
    }
    var u := tx.sessions[sid];
    var file := tx.files[u.fileId];
    assert file.id == u.fileId;
    var listed := ListChunksByFile(tx, u.fileId);
    var stored := CurrentStoredSize(tx.chunks, u.fileId, listed);
    var ready := EnsureReadyForVerification(tx.chunks, u.fileId, listed, stored, TargetSize(file, u));
    if !ready {
      return Some(Conflict);
    }
    var p := CompleteProgress(u, finalChecksum);
    if ProgressRefused(tx, u, p).Some? {
      return ProgressRefused(tx, u, p);
    }
    tx := tx.(sessions := tx.sessions[sid := Progressed(u, p)]);
    var chunks := SetStatuses(tx.chunks, u.fileId, listed, ChunkVerifying);
    tx := tx.(chunks := chunks);
    var updated := file.(status := FileVerifying, size := TargetSize(file, u), storedSize := stored);
    if finalChecksum.Some? && ChecksumReady(finalChecksum.value) {
      updated := updated.(checksum := finalChecksum.value);
    }
    tx := tx.(files := tx.files[u.fileId := updated]);
    repo.state := tx;
    err := None;
  }

  method DoVerifyUpload(repo: Repository, sid: SessionId, verified: Option<Checksum>, statuses: set<FileStatus>)
    returns (err: Option<StoreError>)
    requires Usable(repo.state)
    modifies repo
    ensures Settles(old(repo.state), repo.state, err, VerifyUpload(old(repo.state), sid, verified, statuses))
  {
    if sid == "" || (verified.Some? && !ChecksumReady(verified.value)) {
      return Some(InvalidArgument);
    }
    var tx := repo.state;
    if LookupRefused(tx, sid, statuses).Some? {
      return LookupRefused(tx, sid, statuses);
    }
    var u := tx.sessions[sid];
    var file := tx.files[u.fileId];
    assert file.id == u.fileId;
    var listed := ListChunksByFile(tx, u.fileId);
    var stored := CurrentStoredSize(tx.chunks, u.fileId, listed);
    var ready := EnsureReadyForVerification(tx.chunks, u.fileId, listed, stored, TargetSize(file, u));
    if !ready {
      return Some(Conflict);
    }
    var required := if file.policy.minimum < 1 then MINIMUM_READABLE_REPLICA_COUNT else file.policy.minimum;
    var servable := AllServable(tx.chunks, u.fileId, listed, required);
    if !servable {
      return Some(Conflict);
    }
    var checksum := SelectedChecksum(verified, u);
    if checksum.None? {
      return Some(Conflict);
    }
    var v := u;
    if verified.Some? {
      if ProgressRefused(tx, u, VerifyProgress(u, verified)).Some? {
        return ProgressRefused(tx, u, VerifyProgress(u, verified));
      }
      v := Progressed(u, VerifyProgress(u, verified));
    }
    if ExpectedSize(tx, v) > 0 && v.confirmedOffset != ExpectedSize(tx, v) {
      return Some(Conflict);
    }
    tx := tx.(sessions := tx.sessions[sid := v.(status := UploadCompleted)]);
    var chunks := SetStatuses(tx.chunks, u.fileId, listed, ChunkAvailable);
    tx := tx.(chunks := chunks);
    tx := tx.(files := tx.files[u.fileId := file.(status := FileAvailable, size := TargetSize(file, u),
                                                  storedSize := stored, checksum := checksum.value)]);
    repo.state := tx;
    err := None;
  }

  method DoFailVerification(repo: Repository, r: Failure) returns (err: Option<StoreError>)
    requires Usable(repo.state)
    modifies repo
    ensures Settles(old(repo.state), repo.state, err, FailVerification(old(repo.state), r))
  {
    if FailureRefused(repo.state, r).Some? {
      return FailureRefused(repo.state, r);
    }
    var tx := repo.state;
    var u := tx.sessions[r.session];
    var listed := ListChunksByFile(tx, u.fileId);
    var failedOffset := if r.chunk != "" then tx.chunks[r.chunk].offset else 0;
    tx := tx.(sessions := tx.sessions[r.session := FailedSession(u, r, failedOffset)]);
    var chunks := SetFailed(tx.chunks, u.fileId, listed, r.chunk, r.actualChecksum);
    ghost var before := tx.chunks;
    tx := tx.(chunks := chunks);
    RelabelledOk(before, chunks);
    var relisted := ListChunksByFile(tx, u.fileId);
    var stored := CurrentStoredSize(tx.chunks, u.fileId, relisted);
    SameStored(before, chunks, u.fileId);
    tx := tx.(files := tx.files[u.fileId := tx.files[u.fileId].(status := FileFailed, storedSize := stored,
                                                                checksum := EMPTY_CHECKSUM)]);
    repo.state := tx;
    err := None;
  }

  lemma SameStored(a: Chunks, b: Chunks, f: FileId)
    requires Relabelled(a, b)
    ensures StoredSize(a, f) == StoredSize(b, f)
  {
    SamePlacesKeep(a, b, f);
    MaxEndUnique(b, f, StoredSize(a, f), StoredSize(b, f));
  }

  /** The chunk part of a retry: which chunks survive, the last of them, and the size they leave. */
  method RestartFile(s: State, f: FileId, offset: int) returns (t: State, last: ChunkId, stored: int)
    requires ChunksOk(s.chunks)
    ensures t == s.(chunks := Restarted(s.chunks, f, offset))
    ensures last == LastSurvivor(s.chunks, f, offset)
    ensures stored == StoredSize(t.chunks, f)
  {
    var listed := ListChunksByFile(s, f);
    var chunks;
    chunks, last := Restart(s.chunks, f, listed, offset);
    RestartedOk(s.chunks, f, offset);
    t := s.(chunks := chunks);
    var relisted := ListChunksByFile(t, f);
    stored := CurrentStoredSize(t.chunks, f, relisted);
  }

  method DoRetryUpload(repo: Repository, sid: SessionId, statuses: set<FileStatus>) returns (err: Option<StoreError>)
    requires Usable(repo.state)
    modifies repo
    ensures Settles(old(repo.state), repo.state, err, RetryUpload(old(repo.state), sid, statuses))
  {
    if sid == "" {
      return Some(InvalidArgument);
    }
    var tx := repo.state;
    if LookupRefused(tx, sid, statuses).Some? {
      return LookupRefused(tx, sid, statuses);
    }
    var u := tx.sessions[sid];
    if u.status != UploadRetrying {
      return Some(Conflict);
    }
    var offset := u.lastFailedOffset;
    var last, stored;
    tx, last, stored := RestartFile(tx, u.fileId, offset);
    var p := RetryProgress(offset, last);
    if ProgressRefused(tx, u, p).Some? {
      return ProgressRefused(tx, u, p);
    }
    tx := tx.(sessions := tx.sessions[sid := Progressed(u, p)]);
    tx := tx.(files := tx.files[u.fileId := tx.files[u.fileId].(status := FileUploading, storedSize := stored,
                                                                checksum := EMPTY_CHECKSUM)]);
    repo.state := tx;
    err := None;
  }
}

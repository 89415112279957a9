/** The upload use cases: sessions, chunks and file status (internal/mds/service_upload.go and the
    store operations behind it). */
module Upload {
  import opened Wrappers
  import opened Metadata

  type Chunks = map<ChunkId, Chunk>

  predicate Of(chunks: Chunks, c: ChunkId, f: FileId) {
    c in chunks && chunks[c].fileId == f
  }

  function End(c: Chunk): int {
    c.offset + c.size
  }

  predicate Covers(c: Chunk, p: int) {
    c.offset <= p < End(c)
  }

  /** `m` is the largest end of a chunk of the file, 0 if no chunk ends above 0. */
  ghost predicate IsMaxEnd(chunks: Chunks, f: FileId, m: int) {
    && m >= 0
    && (forall c :: Of(chunks, c, f) ==> End(chunks[c]) <= m)
    && (m == 0 || exists c :: Of(chunks, c, f) && End(chunks[c]) == m)
  }

  /** currentStoredSize */
  ghost function StoredSize(chunks: Chunks, f: FileId): (m: int)
    ensures IsMaxEnd(chunks, f, m)
  {
    if chunks == map[] then 0
    else
      var c :| c in chunks;
      var rest := StoredSize(chunks - {c}, f);
      assert forall k :: k in chunks <==> k == c || k in chunks - {c};
      assert forall k :: Of(chunks, k, f) && k != c <==> Of(chunks - {c}, k, f);
      var m := if chunks[c].fileId == f && End(chunks[c]) > rest then End(chunks[c]) else rest;
      assert m == 0 || exists k :: Of(chunks, k, f) && End(chunks[k]) == m by {
        if m == rest && rest != 0 {
          var k :| Of(chunks - {c}, k, f) && End((chunks - {c})[k]) == rest;
          assert Of(chunks, k, f) && End(chunks[k]) == m;
        } else if m != 0 {
          assert Of(chunks, c, f) && End(chunks[c]) == m;
        }
      }
      m
  }

  lemma MaxEndUnique(chunks: Chunks, f: FileId, m: int, n: int)
    requires IsMaxEnd(chunks, f, m) && IsMaxEnd(chunks, f, n)
    ensures m == n
  {
  }

  ghost predicate CoveredAt(chunks: Chunks, f: FileId, p: int) {
    exists c :: Of(chunks, c, f) && Covers(chunks[c], p)
  }

  /** The file's chunks cover [0, size) and nothing beyond it. */
  ghost predicate Tiles(chunks: Chunks, f: FileId, size: int) {
    && (exists c :: Of(chunks, c, f))
    && (forall c :: Of(chunks, c, f) ==> End(chunks[c]) <= size)
    && (forall p :: 0 <= p < size ==> CoveredAt(chunks, f, p))
  }

  ghost predicate Readable(chunks: Chunks, f: FileId) {
    forall c :: Of(chunks, c, f) ==> chunks[c].status != ChunkCorrupted && chunks[c].status != ChunkFailed
  }

  // ---------------------------------------------------------------- checksums and replicas

  predicate ChecksumReady(c: Checksum) {
    c.verified && c.verifiedAt.Some?
  }

  predicate ChecksumShapeOk(c: Option<Checksum>) {
    c.Some? && c.value.verified ==> c.value.verifiedAt.Some?
  }

  function HealthyReplicas(replicas: ReplicaSet): set<NodeId> {
    set n | n in replicas && replicas[n].state == Ready
  }

  predicate NormalReplica(n: NodeId, r: Replica, f: FileId, c: ChunkId) {
    n != "" && (r.nodeId == "" || r.nodeId == n) && (r.fileId == "" || r.fileId == f)
      && (r.chunkId == "" || r.chunkId == c)
  }

  predicate CanNormalize(replicas: ReplicaSet, f: FileId, c: ChunkId) {
    forall n :: n in replicas ==> NormalReplica(n, replicas[n], f, c)
  }

  function Normalized(replicas: ReplicaSet, f: FileId, c: ChunkId): ReplicaSet {
    map n | n in replicas :: replicas[n].(nodeId := n, fileId := f, chunkId := c)
  }

  // ---------------------------------------------------------------- sessions

  predicate TerminalUpload(status: UploadStatus) {
    status == UploadCompleted || status == UploadFailed || status == UploadExpired
  }

  function ExpectedSize(s: State, u: Session): int {
    if u.expectedSize > 0 then u.expectedSize
    else if u.fileId in s.files && s.files[u.fileId].size > 0 then s.files[u.fileId].size
    else 0
  }

  /** The size an upload must reach: the session's if it states one, else the file's. */
  function TargetSize(file: File, u: Session): int {
    if u.expectedSize > 0 then u.expectedSize else file.size
  }

  datatype Progress = Progress(
    status: UploadStatus,
    confirmedOffset: int,
    nextOffset: int,
    lastPersistedChunk: ChunkId,
    clearVerified: bool,
    expectedChecksum: Option<Checksum>,
    verifiedChecksum: Option<Checksum>)

  function ProgressRefused(s: State, u: Session, p: Progress): Option<StoreError> {
    if u.status == UploadCompleted then Some(Conflict)
    else if p.confirmedOffset < 0 || p.nextOffset < 0 || p.confirmedOffset > p.nextOffset then Some(InvalidArgument)
    else if ExpectedSize(s, u) > 0 && p.nextOffset > ExpectedSize(s, u) then Some(InvalidArgument)
    else None
  }

  function Progressed(u: Session, p: Progress): Session {
    u.(status := p.status,
       confirmedOffset := p.confirmedOffset,
       nextOffset := p.nextOffset,
       lastPersistedChunk := p.lastPersistedChunk,
       expectedChecksum := if p.expectedChecksum.Some? then p.expectedChecksum else u.expectedChecksum,
       verifiedChecksum := if p.verifiedChecksum.Some? then p.verifiedChecksum
                           else if p.clearVerified then None else u.verifiedChecksum)
  }

  function WithStatus(chunks: Chunks, f: FileId, status: ChunkStatus): Chunks {
    map c | c in chunks :: if chunks[c].fileId == f then chunks[c].(status := status) else chunks[c]
  }

  // ---------------------------------------------------------------- the use cases

  predicate ActiveSession(s: State, f: FileId) {
    exists u :: u in s.sessions && s.sessions[u].fileId == f && !TerminalUpload(s.sessions[u].status)
  }

  function StartUpload(s: State, sid: SessionId, fid: FileId, expectedSize: int, expectedChecksum: Option<Checksum>)
    : Result<State>
  {
    if sid == "" || fid == "" || expectedSize < 0 then Err(InvalidArgument)
    else if fid !in s.files then Err(NotFound)
    else if s.files[fid].status == FileDeleting || s.files[fid].status == FileDeleted then Err(Conflict)
    else if ActiveSession(s, fid) then Err(Conflict)
    else if sid in s.sessions then Err(AlreadyExists)
    else Ok(s.(sessions := s.sessions[sid := Session(sid, fid, UploadPending, expectedSize, 0, 0, "", expectedChecksum,
                                                     None, 0, "")],
               files := s.files[fid := s.files[fid].(status := FileUploading, size := expectedSize,
                                                     latestSession := sid)]))
  }

  datatype Commit = Commit(
    session: SessionId,
    chunk: ChunkId,
    index: int,
    offset: int,
    size: int,
    status: Option<ChunkStatus>,
    checksum: Option<Checksum>,
    replicas: ReplicaSet,
    policy: Option<ReplicaPolicy>)

  ghost predicate PlaceTaken(chunks: Chunks, f: FileId, chunk: ChunkId, index: int, offset: int) {
    exists c :: Of(chunks, c, f) && chunks[c].id != chunk && (chunks[c].index == index || chunks[c].offset == offset)
  }

  function CommittedChunk(r: Commit, file: File): Chunk {
    var replicas := Normalized(r.replicas, file.id, r.chunk);
    Chunk(r.chunk, file.id, r.index, r.offset, r.size,
          if r.status.Some? then r.status.value else ChunkPersisted,
          if r.checksum.Some? then r.checksum.value else EMPTY_CHECKSUM,
          if r.policy.Some? then r.policy.value else file.policy,
          |replicas|, replicas)
  }

  function CommitProgress(r: Commit): Progress {
    Progress(UploadActive, r.offset + r.size, r.offset + r.size, r.chunk, false, None, None)
  }

  ghost function CommitRefused(s: State, r: Commit): Option<StoreError> {
    if r.session == "" || r.chunk == "" || r.index < 0 || r.offset < 0 || r.size < 0 || !ChecksumShapeOk(r.checksum)
    then Some(InvalidArgument)
    else if r.session !in s.sessions then Some(NotFound)
    else
      var u := s.sessions[r.session];
      if u.status == UploadCompleted then Some(Conflict)
      else if u.fileId !in s.files then Some(NotFound)
      else
        var file := s.files[u.fileId];
        if file.latestSession != "" && file.latestSession != r.session then Some(Conflict)
        else if !CanNormalize(r.replicas, u.fileId, r.chunk) then Some(InvalidArgument)
        else if u.fileId == "" || r.size > CHUNK_SIZE || r.offset != r.index * CHUNK_SIZE then Some(InvalidArgument)
        else if PlaceTaken(s.chunks, u.fileId, r.chunk, r.index, r.offset) then Some(AlreadyExists)
        else ProgressRefused(s, u, CommitProgress(r))
  }

  ghost function CommitChunk(s: State, r: Commit): Result<State> {
    if CommitRefused(s, r).Some? then Err(CommitRefused(s, r).value)
    else
      var u := s.sessions[r.session];
      var f := u.fileId;
      var chunks := s.chunks[r.chunk := CommittedChunk(r, s.files[f])];
      Ok(s.(chunks := chunks,
            sessions := s.sessions[r.session := Progressed(u, CommitProgress(r))],
            files := s.files[f := s.files[f].(status := FileUploading, storedSize := StoredSize(chunks, f))]))
  }

  /** The checks of ensureFileReadyForVerification, said without the loop: every byte of the
      expected size is in a chunk, no chunk reaches beyond it, and none is unreadable. */
  ghost predicate ReadyForVerification(s: State, file: File, u: Session) {
    Tiles(s.chunks, file.id, TargetSize(file, u)) && Readable(s.chunks, file.id)
  }

  /** Looking up a session and its file, as complete, verify, fail and retry do first. */
  function LookupRefused(s: State, sid: SessionId, statuses: set<FileStatus>): Option<StoreError> {
    if sid !in s.sessions then Some(NotFound)
    else if s.sessions[sid].fileId !in s.files then Some(NotFound)
    else if statuses != {} && s.files[s.sessions[sid].fileId].status !in statuses then Some(Conflict)
    else None
  }

  function CompleteProgress(u: Session, finalChecksum: Option<Checksum>): Progress {
    var ready := finalChecksum.Some? && ChecksumReady(finalChecksum.value);
    Progress(UploadVerifying, u.confirmedOffset, u.nextOffset, u.lastPersistedChunk, false,
             if finalChecksum.Some? && !ready then finalChecksum else None,
             if ready then finalChecksum else None)
  }

  ghost function CompleteUpload(s: State, sid: SessionId, finalChecksum: Option<Checksum>, statuses: set<FileStatus>)
    : Result<State>
  {
    if sid == "" || !ChecksumShapeOk(finalChecksum) then Err(InvalidArgument)
    else if LookupRefused(s, sid, statuses).Some? then Err(LookupRefused(s, sid, statuses).value)
    else
      var u := s.sessions[sid];
      var file := s.files[u.fileId];
      var p := CompleteProgress(u, finalChecksum);
      if !ReadyForVerification(s, file, u) then Err(Conflict)
      else if ProgressRefused(s, u, p).Some? then Err(ProgressRefused(s, u, p).value)
      else Ok(s.(sessions := s.sessions[sid := Progressed(u, p)],
                 chunks := WithStatus(s.chunks, u.fileId, ChunkVerifying),
                 files := s.files[u.fileId := file.(status := FileVerifying, size := TargetSize(file, u),
                                                    storedSize := StoredSize(s.chunks, u.fileId),
                                                    checksum :=
                                                      if p.verifiedChecksum.Some? then p.verifiedChecksum.value
                                                      else file.checksum)]))
  }

  predicate ChunkServable(c: Chunk, required: int) {
    ChecksumReady(c.checksum) && |HealthyReplicas(c.replicas)| >= required
  }

  /** The further checks of ensureFileReadyForAvailability. */
  ghost predicate ReadyForAvailability(s: State, file: File, u: Session) {
    var required := if file.policy.minimum < 1 then MINIMUM_READABLE_REPLICA_COUNT else file.policy.minimum;
    && ReadyForVerification(s, file, u)
    && forall c :: Of(s.chunks, c, file.id) ==> ChunkServable(s.chunks[c], required)
  }

  function SelectedChecksum(requested: Option<Checksum>, u: Session): Option<Checksum> {
    if requested.Some? && ChecksumReady(requested.value) then requested
    else if u.verifiedChecksum.Some? && ChecksumReady(u.verifiedChecksum.value) then u.verifiedChecksum
    else None
  }

  function VerifyProgress(u: Session, verified: Option<Checksum>): Progress {
    Progress(UploadVerifying, u.confirmedOffset, u.nextOffset, u.lastPersistedChunk, false, None, verified)
  }

  ghost function VerifyUpload(s: State, sid: SessionId, verified: Option<Checksum>,
                              statuses: set<FileStatus>): Result<State> {
    if sid == "" || (verified.Some? && !ChecksumReady(verified.value)) then Err(InvalidArgument)
    else if LookupRefused(s, sid, statuses).Some? then Err(LookupRefused(s, sid, statuses).value)
    else
      var u := s.sessions[sid];
      var file := s.files[u.fileId];
      if !ReadyForAvailability(s, file, u) || SelectedChecksum(verified, u).None? then Err(Conflict)
      else if verified.Some? && ProgressRefused(s, u, VerifyProgress(u, verified)).Some?
      then Err(ProgressRefused(s, u, VerifyProgress(u, verified)).value)
      else
        var v := if verified.Some? then Progressed(u, VerifyProgress(u, verified)) else u;
        if ExpectedSize(s, v) > 0 && v.confirmedOffset != ExpectedSize(s, v) then Err(Conflict)
        else Ok(s.(sessions := s.sessions[sid := v.(status := UploadCompleted)],
                   chunks := WithStatus(s.chunks, u.fileId, ChunkAvailable),
                   files := s.files[u.fileId := file.(status := FileAvailable, size := TargetSize(file, u),
                                                      storedSize := StoredSize(s.chunks, u.fileId),
                                                      checksum := SelectedChecksum(verified, u).value)]))
  }

  datatype Failure = Failure(
    session: SessionId,
    chunk: ChunkId,
    actualChecksum: Option<Checksum>,
    statuses: set<FileStatus>,
    errorCode: string,
    retryable: bool,
    attempt: int,
    maxAttempts: int)

  function FailureRefused(s: State, r: Failure): Option<StoreError> {
    if r.session == "" || r.errorCode == "" || r.attempt < 0 || r.maxAttempts <= 0 || !ChecksumShapeOk(r.actualChecksum)
    then Some(InvalidArgument)
    else if LookupRefused(s, r.session, r.statuses).Some? then LookupRefused(s, r.session, r.statuses)
    else if r.chunk != "" && r.chunk !in s.chunks then Some(NotFound)
    else if r.chunk != "" && s.chunks[r.chunk].fileId != s.sessions[r.session].fileId then Some(Conflict)
    else None
  }

  function FailedOffset(chunks: Chunks, chunk: ChunkId): int {
    if chunk != "" && chunk in chunks then chunks[chunk].offset else 0
  }

  function FailedSession(u: Session, r: Failure, offset: int): Session {
    u.(status := if r.retryable && r.attempt < r.maxAttempts then UploadRetrying else UploadFailed,
       lastFailedOffset := offset,
       lastFailedChunk := r.chunk)
  }

  function FailedChunk(c: Chunk, chunk: ChunkId, actual: Option<Checksum>): Chunk {
    c.(status := ChunkFailed, checksum := if c.id == chunk && actual.Some? then actual.value else c.checksum)
  }

  function WithFailure(chunks: Chunks, f: FileId, chunk: ChunkId, actual: Option<Checksum>): Chunks {
    map c | c in chunks :: if chunks[c].fileId == f then FailedChunk(chunks[c], chunk, actual) else chunks[c]
  }

  ghost function FailVerification(s: State, r: Failure): Result<State> {
    if FailureRefused(s, r).Some? then Err(FailureRefused(s, r).value)
    else
      var u := s.sessions[r.session];
      var f := u.fileId;
      Ok(s.(sessions := s.sessions[r.session := FailedSession(u, r, FailedOffset(s.chunks, r.chunk))],
            chunks := WithFailure(s.chunks, f, r.chunk, r.actualChecksum),
            files := s.files[f := s.files[f].(status := FileFailed, storedSize := StoredSize(s.chunks, f),
                                              checksum := EMPTY_CHECKSUM)]))
  }

  /** The chunks that survive a retry: those of other files, and those before the restart offset. */
  function Restarted(chunks: Chunks, f: FileId, offset: int): Chunks {
    map c | c in chunks && (chunks[c].fileId != f || chunks[c].offset < offset) ::
      if chunks[c].fileId == f then chunks[c].(status := ChunkPersisted) else chunks[c]
  }

  predicate Survives(chunks: Chunks, c: ChunkId, f: FileId, offset: int) {
    Of(chunks, c, f) && chunks[c].offset < offset
  }

  /** The surviving chunk with the largest index, "" if none survives. */
  ghost function LastSurvivor(chunks: Chunks, f: FileId, offset: int): (last: ChunkId)
    ensures (exists c :: Survives(chunks, c, f, offset)) ==> Survives(chunks, last, f, offset)
    ensures (forall c :: !Survives(chunks, c, f, offset)) ==> last == ""
    ensures forall c :: Survives(chunks, c, f, offset) ==> chunks[c].index <= chunks[last].index
  {
    if chunks == map[] then ""
    else
      var c :| c in chunks;
      var rest := chunks - {c};
      assert forall k :: Survives(chunks, k, f, offset) && k != c <==> Survives(rest, k, f, offset);
      var last := LastSurvivor(rest, f, offset);
      if !Survives(chunks, c, f, offset) then last
      else if last in rest && Survives(rest, last, f, offset) && rest[last].index > chunks[c].index then last
      else c
  }

  function RetryProgress(offset: int, last: ChunkId): Progress {
    Progress(UploadActive, offset, offset, last, true, None, None)
  }

  ghost function RetryUpload(s: State, sid: SessionId, statuses: set<FileStatus>): Result<State> {
    if sid == "" then Err(InvalidArgument)
    else if LookupRefused(s, sid, statuses).Some? then Err(LookupRefused(s, sid, statuses).value)
    else
      var u := s.sessions[sid];
      var f := u.fileId;
      var offset := u.lastFailedOffset;
      var last := LastSurvivor(s.chunks, f, offset);
      if u.status != UploadRetrying then Err(Conflict)
      else if ProgressRefused(s, u, RetryProgress(offset, last)).Some?
      then Err(ProgressRefused(s, u, RetryProgress(offset, last)).value)
      else
        var chunks := Restarted(s.chunks, f, offset);
        Ok(s.(sessions := s.sessions[sid := Progressed(u, RetryProgress(offset, last))],
              chunks := chunks,
              files := s.files[f := s.files[f].(status := FileUploading, storedSize := StoredSize(chunks, f),
                                                checksum := EMPTY_CHECKSUM)]))
  }
}

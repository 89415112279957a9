/** What each upload call does, said on the fields of the records: exactly when it is accepted, and
    what it leaves behind. */
module UploadContracts {
  import opened Wrappers
  import opened Metadata
  import opened Upload

  // ---------------------------------------------------------------- vocabulary

  /** The session and its file are recorded, and the file has one of the statuses asked for, if any are. */
  predicate Found(s: State, sid: SessionId, statuses: set<FileStatus>) {
    && sid in s.sessions && s.sessions[sid].fileId in s.files
    && (statuses == {} || s.files[s.sessions[sid].fileId].status in statuses)
  }

  /** The size the session is to reach: its own if it has one, else the file's. */
  function Goal(s: State, sid: SessionId): int
    requires sid in s.sessions && s.sessions[sid].fileId in s.files
  {
    if s.sessions[sid].expectedSize > 0 then s.sessions[sid].expectedSize else s.files[s.sessions[sid].fileId].size
  }

  /** The file has chunks, none of them broken; they hold every byte up to `size` and none beyond. */
  ghost predicate Whole(chunks: Chunks, f: FileId, size: int) {
    && (exists c :: c in chunks && chunks[c].fileId == f)
    && (forall c :: c in chunks && chunks[c].fileId == f ==>
          && chunks[c].offset + chunks[c].size <= size
          && chunks[c].status != ChunkCorrupted && chunks[c].status != ChunkFailed)
    && (forall p :: 0 <= p < size ==> HasByte(chunks, f, p))
  }

  predicate HasByte(chunks: Chunks, f: FileId, p: int) {
    exists c :: c in chunks && chunks[c].fileId == f && chunks[c].offset <= p < chunks[c].offset + chunks[c].size
  }

  /** `m` is how far the file's chunks reach. */
  predicate ReachesTo(chunks: Chunks, f: FileId, m: int) {
    && m >= 0 && (forall c :: c in chunks && chunks[c].fileId == f ==> chunks[c].offset + chunks[c].size <= m)
    && (m > 0 ==> exists c :: c in chunks && chunks[c].fileId == f && chunks[c].offset + chunks[c].size == m)
  }

  /** The file's chunks have the new status; nothing else about any chunk has changed. */
  predicate Marked(a: Chunks, b: Chunks, f: FileId, status: ChunkStatus) {
    a.Keys == b.Keys && forall c :: c in a ==> b[c] == if a[c].fileId == f then a[c].(status := status) else a[c]
  }

  lemma WholeIff(s: State, sid: SessionId)
    requires Found(s, sid, {})
    ensures var f := s.sessions[sid].fileId;
            s.files[f].id == f ==>
              (ReadyForVerification(s, s.files[f], s.sessions[sid]) <==> Whole(s.chunks, f, Goal(s, sid)))
  {
    var f := s.sessions[sid].fileId;
    var chunks, size := s.chunks, Goal(s, sid);
    forall c ensures Of(chunks, c, f) <==> c in chunks && chunks[c].fileId == f {
    }
    forall p ensures CoveredAt(chunks, f, p) <==> HasByte(chunks, f, p) {
      if c :| Of(chunks, c, f) && Covers(chunks[c], p) {
        assert chunks[c].offset <= p < chunks[c].offset + chunks[c].size;
      }
      if c :| c in chunks && chunks[c].fileId == f && chunks[c].offset <= p < chunks[c].offset + chunks[c].size {
        assert Of(chunks, c, f) && Covers(chunks[c], p);
      }
    }
    assert (exists c :: Of(chunks, c, f)) <==> exists c :: c in chunks && chunks[c].fileId == f;
  }

  lemma StoredReaches(chunks: Chunks, f: FileId)
    ensures ReachesTo(chunks, f, StoredSize(chunks, f))
  {
    var m := StoredSize(chunks, f);
    assert forall c :: Of(chunks, c, f) <==> c in chunks && chunks[c].fileId == f;
    if m > 0 {
      var c :| Of(chunks, c, f) && End(chunks[c]) == m;
    }
  }

  /** A progress report is taken unless the session is completed, or it goes back on itself or past
      the goal. */
  predicate Progresses(s: State, sid: SessionId, confirmed: int, next: int)
    requires sid in s.sessions && s.sessions[sid].fileId in s.files
  {
    && s.sessions[sid].status != UploadCompleted && 0 <= confirmed <= next
    && (Goal(s, sid) > 0 ==> next <= Goal(s, sid))
  }

  lemma ProgressesIff(s: State, sid: SessionId, p: Progress)
    requires sid in s.sessions && s.sessions[sid].fileId in s.files
    ensures ProgressRefused(s, s.sessions[sid], p).None? <==> Progresses(s, sid, p.confirmedOffset, p.nextOffset)
  {
  }

  // ---------------------------------------------------------------- start

  /** A session starts exactly when its id is new, the file is not being deleted and has no other
      session that could go on. */
  lemma StartAccepted(s: State, sid: SessionId, f: FileId, size: int, sum: Option<Checksum>)
    ensures var r := StartUpload(s, sid, f, size, sum);
            && (r.Ok? <==>
                && sid != "" && sid !in s.sessions && f != "" && f in s.files && size >= 0
                && s.files[f].status != FileDeleting && s.files[f].status != FileDeleted
                && forall u :: u in s.sessions && s.sessions[u].fileId == f ==>
                     s.sessions[u].status in {UploadCompleted, UploadFailed, UploadExpired})
            && (r == Err(NotFound) <==> sid != "" && f != "" && size >= 0 && f !in s.files)
            && (r.Err? ==> r.error in {InvalidArgument, NotFound, Conflict, AlreadyExists})
  {
  }

  /** It is pending with nothing uploaded, and becomes the file's latest; the file takes its size. */
  lemma StartLeaves(s: State, sid: SessionId, f: FileId, size: int, sum: Option<Checksum>)
    requires StartUpload(s, sid, f, size, sum).Ok?
    ensures var t := StartUpload(s, sid, f, size, sum).value;
            && t == s.(sessions := t.sessions, files := t.files)
            && t.sessions == s.sessions[sid := Session(sid, f, UploadPending, size, 0, 0, "", sum, None, 0, "")]
            && t.files == s.files[f := s.files[f].(status := FileUploading, size := size, latestSession := sid)]
  {
  }

  // ---------------------------------------------------------------- commit

  /** A chunk is committed exactly when the request is in order, its session is the file's latest and
      not completed, it lies on the grid of 4 MiB chunks, no other chunk of the file has its index or
      offset, and it does not reach past the goal. */
  lemma CommitAccepted(s: State, r: Commit)
    requires forall c :: c in s.chunks ==> s.chunks[c].id == c
    ensures CommitChunk(s, r).Ok? <==>
            && r.session != "" && r.chunk != "" && r.index >= 0 && r.offset >= 0 && 0 <= r.size <= 4194304
            && r.offset == r.index * 4194304
            && (r.checksum.Some? && r.checksum.value.verified ==> r.checksum.value.verifiedAt.Some?)
            && Found(s, r.session, {}) && s.sessions[r.session].fileId != ""
            && s.files[s.sessions[r.session].fileId].latestSession in {"", r.session}
            && FitReplicas(r.replicas, s.sessions[r.session].fileId, r.chunk)
            && (forall c :: c in s.chunks && c != r.chunk && s.chunks[c].fileId == s.sessions[r.session].fileId ==>
                  s.chunks[c].index != r.index && s.chunks[c].offset != r.offset)
            && Progresses(s, r.session, r.offset + r.size, r.offset + r.size)
  {
    if Found(s, r.session, {}) {
      ProgressesIff(s, r.session, CommitProgress(r));
      PlaceFreeIff(s.chunks, s.sessions[r.session].fileId, r);
    }
  }

  /** Every replica is on a named node, and what it says about node, file and chunk is right or empty. */
  predicate FitReplicas(replicas: ReplicaSet, f: FileId, c: ChunkId) {
    forall n :: n in replicas ==>
      && n != "" && replicas[n].nodeId in {"", n} && replicas[n].fileId in {"", f} && replicas[n].chunkId in {"", c}
  }

  lemma PlaceFreeIff(chunks: Chunks, f: FileId, r: Commit)
    requires forall c :: c in chunks ==> chunks[c].id == c
    ensures !PlaceTaken(chunks, f, r.chunk, r.index, r.offset) <==>
            forall c :: c in chunks && c != r.chunk && chunks[c].fileId == f ==>
              chunks[c].index != r.index && chunks[c].offset != r.offset
  {
    forall c | c in chunks && c != r.chunk && chunks[c].fileId == f
      ensures Of(chunks, c, f) && chunks[c].id != r.chunk
    {
    }
  }

  /** The chunk is recorded as the request says, with the file's policy and all references filled in
      where it says nothing; the session stands at its end, and the file is as long as its chunks. */
  lemma CommitLeaves(s: State, r: Commit)
    requires CommitChunk(s, r).Ok? && s.files[s.sessions[r.session].fileId].id == s.sessions[r.session].fileId
    ensures var t, u := CommitChunk(s, r).value, s.sessions[r.session];
            var f := u.fileId;
            && t == s.(sessions := t.sessions, files := t.files, chunks := t.chunks)
            && t.chunks == s.chunks[r.chunk :=
                 Chunk(r.chunk, f, r.index, r.offset, r.size,
                       if r.status.Some? then r.status.value else ChunkPersisted,
                       if r.checksum.Some? then r.checksum.value else Checksum("", "", false, None),
                       if r.policy.Some? then r.policy.value else s.files[f].policy,
                       |r.replicas|,
                       map n | n in r.replicas :: r.replicas[n].(nodeId := n, fileId := f, chunkId := r.chunk))]
            && t.sessions == s.sessions[r.session :=
                 u.(status := UploadActive, confirmedOffset := r.offset + r.size, nextOffset := r.offset + r.size,
                    lastPersistedChunk := r.chunk)]
            && ReachesTo(t.chunks, f, t.files[f].storedSize)
            && t.files == s.files[f := s.files[f].(status := FileUploading, storedSize := t.files[f].storedSize)]
  {
    var f := s.sessions[r.session].fileId;
    SameSize(r.replicas, f, r.chunk);
    StoredReaches(s.chunks[r.chunk := CommittedChunk(r, s.files[f])], f);
  }

  lemma SameSize(replicas: ReplicaSet, f: FileId, c: ChunkId)
    ensures |Normalized(replicas, f, c)| == |replicas|
  {
    assert Normalized(replicas, f, c).Keys == replicas.Keys;
    assert |replicas.Keys| == |replicas| && |Normalized(replicas, f, c).Keys| == |Normalized(replicas, f, c)|;
  }

  predicate Proper(r: Commit) {
    && r.session != "" && r.chunk != "" && r.index >= 0 && r.offset >= 0 && r.size >= 0
    && (r.checksum.Some? && r.checksum.value.verified ==> r.checksum.value.verifiedAt.Some?)
  }

  /** Why a commit is refused, if it is. */
  lemma CommitRefusals(s: State, r: Commit)
    requires forall c :: c in s.chunks ==> s.chunks[c].id == c
    ensures var o := CommitChunk(s, r);
            && (o == Err(NotFound) <==>
                && Proper(r)
                && (r.session !in s.sessions
                    || (s.sessions[r.session].status != UploadCompleted && s.sessions[r.session].fileId !in s.files)))
            && (o == Err(Conflict) <==>
                && Proper(r) && r.session in s.sessions
                && (s.sessions[r.session].status == UploadCompleted
                    || (Found(s, r.session, {})
                        && s.files[s.sessions[r.session].fileId].latestSession !in {"", r.session})))
            && (o == Err(AlreadyExists) ==>
                exists c :: c in s.chunks && c != r.chunk && s.chunks[c].fileId == s.sessions[r.session].fileId
                            && (s.chunks[c].index == r.index || s.chunks[c].offset == r.offset))
            && (o.Err? ==> o.error in {InvalidArgument, NotFound, Conflict, AlreadyExists})
  {
    if Found(s, r.session, {}) {
      ProgressesIff(s, r.session, CommitProgress(r));
      PlaceFreeIff(s.chunks, s.sessions[r.session].fileId, r);
    }
  }

  // ---------------------------------------------------------------- complete

  /** An upload is completed exactly when its chunks hold the whole file and the session can go on. */
  lemma CompleteAccepted(s: State, sid: SessionId, sum: Option<Checksum>, statuses: set<FileStatus>)
    requires forall f :: f in s.files ==> s.files[f].id == f
    ensures CompleteUpload(s, sid, sum, statuses).Ok? <==>
            && sid != "" && (sum.Some? && sum.value.verified ==> sum.value.verifiedAt.Some?)
            && Found(s, sid, statuses)
            && Whole(s.chunks, s.sessions[sid].fileId, Goal(s, sid))
            && Progresses(s, sid, s.sessions[sid].confirmedOffset, s.sessions[sid].nextOffset)
  {
    if Found(s, sid, {}) {
      WholeIff(s, sid);
      ProgressesIff(s, sid, CompleteProgress(s.sessions[sid], sum));
    }
  }

  /** File, session and chunks wait for verification; a checksum that is already verified is kept as
      such, another one as what to expect. */
  lemma CompleteLeaves(s: State, sid: SessionId, sum: Option<Checksum>, statuses: set<FileStatus>)
    requires CompleteUpload(s, sid, sum, statuses).Ok?
    ensures var t, u := CompleteUpload(s, sid, sum, statuses).value, s.sessions[sid];
            var f, verified := u.fileId, sum.Some? && sum.value.verified;
            && t == s.(sessions := t.sessions, files := t.files, chunks := t.chunks)
            && t.sessions == s.sessions[sid := u.(status := UploadVerifying,
                                                  expectedChecksum := if sum.Some? && !verified then sum
                                                                      else u.expectedChecksum,
                                                  verifiedChecksum := if verified then sum else u.verifiedChecksum)]
            && Marked(s.chunks, t.chunks, f, ChunkVerifying)
            && ReachesTo(s.chunks, f, t.files[f].storedSize)
            && t.files == s.files[f := s.files[f].(status := FileVerifying, size := Goal(s, sid),
                                                   storedSize := t.files[f].storedSize,
                                                   checksum := if verified then sum.value else s.files[f].checksum)]
  {
    StoredReaches(s.chunks, s.sessions[sid].fileId);
  }

  // ---------------------------------------------------------------- verify

  /** Each chunk of the file has a verified checksum, and as many ready replicas as the file's policy
      wants to be readable, at least one. */
  predicate Servable(chunks: Chunks, f: FileId, minimum: int) {
    forall c :: c in chunks && chunks[c].fileId == f ==>
      var ready := set n | n in chunks[c].replicas && chunks[c].replicas[n].state == Ready;
      && chunks[c].checksum.verified && chunks[c].checksum.verifiedAt.Some?
      && |ready| >= 1 && |ready| >= minimum
  }

  lemma ServableIff(s: State, sid: SessionId)
    requires Found(s, sid, {})
    ensures var f := s.sessions[sid].fileId;
            s.files[f].id == f ==>
              (ReadyForAvailability(s, s.files[f], s.sessions[sid]) <==>
               Whole(s.chunks, f, Goal(s, sid)) && Servable(s.chunks, f, s.files[f].policy.minimum))
  {
    WholeIff(s, sid);
    var f := s.sessions[sid].fileId;
    forall c | c in s.chunks ensures HealthyReplicas(s.chunks[c].replicas) ==
        set n | n in s.chunks[c].replicas && s.chunks[c].replicas[n].state == Ready
    {
    }
    assert forall c :: Of(s.chunks, c, f) <==> c in s.chunks && s.chunks[c].fileId == f;
  }

  predicate SumVerified(sum: Option<Checksum>) {
    sum.Some? && sum.value.verified && sum.value.verifiedAt.Some?
  }

  /** An upload is verified exactly when its chunks hold the whole file, every chunk has a verified
      checksum and enough ready replicas, a verified checksum of the file is at hand, and the session
      has confirmed every byte. */
  lemma VerifyAccepted(s: State, sid: SessionId, sum: Option<Checksum>, statuses: set<FileStatus>)
    requires forall f :: f in s.files ==> s.files[f].id == f
    ensures VerifyUpload(s, sid, sum, statuses).Ok? <==>
            && sid != "" && Found(s, sid, statuses)
            && (SumVerified(sum) || (sum.None? && SumVerified(s.sessions[sid].verifiedChecksum)))
            && Whole(s.chunks, s.sessions[sid].fileId, Goal(s, sid))
            && Servable(s.chunks, s.sessions[sid].fileId, s.files[s.sessions[sid].fileId].policy.minimum)
            && (Goal(s, sid) > 0 ==> s.sessions[sid].confirmedOffset == Goal(s, sid))
            && (sum.Some? ==> Progresses(s, sid, s.sessions[sid].confirmedOffset, s.sessions[sid].nextOffset))
  {
    if Found(s, sid, {}) {
      ServableIff(s, sid);
      ProgressesIff(s, sid, VerifyProgress(s.sessions[sid], sum));
    }
  }

  /** The session is completed, the chunks and the file are available, and the file has the verified
      checksum: the one just given, else the session's. */
  lemma VerifyLeaves(s: State, sid: SessionId, sum: Option<Checksum>, statuses: set<FileStatus>)
    requires VerifyUpload(s, sid, sum, statuses).Ok?
    ensures var t, u := VerifyUpload(s, sid, sum, statuses).value, s.sessions[sid];
            var f := u.fileId;
            var verified := if sum.Some? then sum else u.verifiedChecksum;
            && t == s.(sessions := t.sessions, files := t.files, chunks := t.chunks)
            && t.sessions == s.sessions[sid := u.(status := UploadCompleted, verifiedChecksum := verified)]
            && Marked(s.chunks, t.chunks, f, ChunkAvailable)
            && ReachesTo(s.chunks, f, t.files[f].storedSize) && verified.Some?
            && t.files == s.files[f := s.files[f].(status := FileAvailable, size := Goal(s, sid),
                                                   storedSize := t.files[f].storedSize, checksum := verified.value)]
  {
    StoredReaches(s.chunks, s.sessions[sid].fileId);
  }

  // ---------------------------------------------------------------- fail

  /** A failure is recorded exactly when the report is in order, and the chunk it names, if any, is
      one of the file's. */
  lemma FailAccepted(s: State, r: Failure)
    ensures FailVerification(s, r).Ok? <==>
            && r.session != "" && r.errorCode != "" && r.attempt >= 0 && r.maxAttempts > 0
            && (r.actualChecksum.Some? && r.actualChecksum.value.verified ==> r.actualChecksum.value.verifiedAt.Some?)
            && Found(s, r.session, r.statuses)
            && (r.chunk == "" || (r.chunk in s.chunks && s.chunks[r.chunk].fileId == s.sessions[r.session].fileId))
  {
  }

  /** The session may be retried exactly when the failure can be and attempts are left, from where the
      failed chunk starts; the file and all its chunks have failed, and the file has no checksum. */
  lemma FailLeaves(s: State, r: Failure)
    requires FailVerification(s, r).Ok?
    ensures var t, u := FailVerification(s, r).value, s.sessions[r.session];
            var f := u.fileId;
            && t == s.(sessions := t.sessions, files := t.files, chunks := t.chunks)
            && t.sessions == s.sessions[r.session :=
                 u.(status := if r.retryable && r.attempt < r.maxAttempts then UploadRetrying else UploadFailed,
                    lastFailedOffset := if r.chunk == "" then 0 else s.chunks[r.chunk].offset,
                    lastFailedChunk := r.chunk)]
            && t.chunks.Keys == s.chunks.Keys
            && (forall c :: c in s.chunks ==>
                  t.chunks[c] == if s.chunks[c].fileId != f then s.chunks[c]
                                 else if s.chunks[c].id == r.chunk && r.actualChecksum.Some?
                                 then s.chunks[c].(status := ChunkFailed, checksum := r.actualChecksum.value)
                                 else s.chunks[c].(status := ChunkFailed))
            && ReachesTo(s.chunks, f, t.files[f].storedSize)
            && t.files == s.files[f := s.files[f].(status := FileFailed, storedSize := t.files[f].storedSize,
                                                   checksum := Checksum("", "", false, None))]
  {
    StoredReaches(s.chunks, s.sessions[r.session].fileId);
  }

  // ---------------------------------------------------------------- retry

  /** A retry is accepted exactly when the session was left to be retried, at a place it can go on from. */
  lemma RetryAccepted(s: State, sid: SessionId, statuses: set<FileStatus>)
    ensures RetryUpload(s, sid, statuses).Ok? <==>
            && sid != "" && Found(s, sid, statuses) && s.sessions[sid].status == UploadRetrying
            && s.sessions[sid].lastFailedOffset >= 0
            && (Goal(s, sid) > 0 ==> s.sessions[sid].lastFailedOffset <= Goal(s, sid))
  {
    if Found(s, sid, {}) {
      var u := s.sessions[sid];
      ProgressesIff(s, sid, RetryProgress(u.lastFailedOffset,
                                          LastSurvivor(s.chunks, u.fileId, u.lastFailedOffset)));
    }
  }

  /** `last` is the chunk of the file with the largest index among those that start before `offset`,
      empty if there is none. */
  predicate IsLastBefore(chunks: Chunks, f: FileId, offset: int, last: ChunkId) {
    if last in chunks && chunks[last].fileId == f && chunks[last].offset < offset
    then forall c :: c in chunks && chunks[c].fileId == f && chunks[c].offset < offset ==>
           chunks[c].index <= chunks[last].index
    else last == "" && forall c :: c in chunks && chunks[c].fileId == f ==> chunks[c].offset >= offset
  }

  /** The file's chunks from the failed one on are gone and those before it are as good as persisted;
      the session goes on from there, and nothing is left of checksums. */
  lemma RetryLeaves(s: State, sid: SessionId, statuses: set<FileStatus>)
    requires RetryUpload(s, sid, statuses).Ok?
    ensures var t, u := RetryUpload(s, sid, statuses).value, s.sessions[sid];
            var f, offset := u.fileId, u.lastFailedOffset;
            && t == s.(sessions := t.sessions, files := t.files, chunks := t.chunks) && sid in t.sessions
            && IsLastBefore(s.chunks, f, offset, t.sessions[sid].lastPersistedChunk)
            && t.sessions == s.sessions[sid := u.(status := UploadActive, confirmedOffset := offset,
                                                  nextOffset := offset, verifiedChecksum := None,
                                                  lastPersistedChunk := t.sessions[sid].lastPersistedChunk)]
            && (forall c :: c in t.chunks <==>
                  c in s.chunks && (s.chunks[c].fileId != f || s.chunks[c].offset < offset))
            && (forall c :: c in t.chunks ==>
                  t.chunks[c] == if s.chunks[c].fileId == f then s.chunks[c].(status := ChunkPersisted)
                                 else s.chunks[c])
            && ReachesTo(t.chunks, f, t.files[f].storedSize)
            && t.files == s.files[f := s.files[f].(status := FileUploading, storedSize := t.files[f].storedSize,
                                                   checksum := Checksum("", "", false, None))]
  {
    var u := s.sessions[sid];
    StoredReaches(Restarted(s.chunks, u.fileId, u.lastFailedOffset), u.fileId);
    SurvivorIsLast(s.chunks, u.fileId, u.lastFailedOffset);
  }

  lemma SurvivorIsLast(chunks: Chunks, f: FileId, offset: int)
    ensures IsLastBefore(chunks, f, offset, LastSurvivor(chunks, f, offset))
  {
    assert forall c :: Survives(chunks, c, f, offset) <==>
                         c in chunks && chunks[c].fileId == f && chunks[c].offset < offset;
  }

  // ---------------------------------------------------------------- refusals

  /** With which error complete, verify, fail and retry miss their session or file, or find the file in
      the wrong status. */
  lemma Missed(s: State, sid: SessionId, statuses: set<FileStatus>)
    requires sid != "" && !Found(s, sid, statuses)
    ensures var error := if sid in s.sessions && s.sessions[sid].fileId in s.files then Conflict else NotFound;
            && CompleteUpload(s, sid, None, statuses) == Err(error)
            && VerifyUpload(s, sid, None, statuses) == Err(error)
            && RetryUpload(s, sid, statuses) == Err(error)
            && forall r: Failure :: r.session == sid && r.statuses == statuses && r.errorCode != "" && r.attempt >= 0
                                    && r.maxAttempts > 0 && r.actualChecksum.None? ==>
                 FailVerification(s, r) == Err(error)
  {
  }

  /** What is not ready yet is refused as a conflict, and nothing changes. */
  lemma NotReadyYet(s: State, sid: SessionId, sum: Option<Checksum>, statuses: set<FileStatus>)
    requires (forall f :: f in s.files ==> s.files[f].id == f) && sid != "" && Found(s, sid, statuses)
    ensures !Whole(s.chunks, s.sessions[sid].fileId, Goal(s, sid)) && (sum.None? || SumVerified(sum)) ==>
              CompleteUpload(s, sid, sum, statuses) == Err(Conflict)
    ensures (!Whole(s.chunks, s.sessions[sid].fileId, Goal(s, sid))
             || !Servable(s.chunks, s.sessions[sid].fileId, s.files[s.sessions[sid].fileId].policy.minimum)
             || (sum.None? && !SumVerified(s.sessions[sid].verifiedChecksum)))
            && (sum.None? || SumVerified(sum)) ==>
              VerifyUpload(s, sid, sum, statuses) == Err(Conflict)
    ensures s.sessions[sid].status != UploadRetrying ==> RetryUpload(s, sid, statuses) == Err(Conflict)
  {
    WholeIff(s, sid);
    ServableIff(s, sid);
  }
}

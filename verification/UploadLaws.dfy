/** Laws of single upload histories: failing and retrying, and committing a foreign chunk id. */
module UploadLaws {
  import opened Wrappers
  import opened Metadata
  import opened Namespace
  import opened NamespaceRuns
  import opened Upload
  import opened UploadInvariants
  import opened UploadRuns

  // ---------------------------------------------------------------- availability

  /** In every state reachable from bootstrap: an available file is tiled, each of its bytes lies
      in the chunk of index position / chunk size and in no other, and its stored size is its size. */
  lemma AvailableInEveryRun(calls: seq<Call>, f: FileId, p: int)
    requires AllPolite(Booted(), calls)
    ensures var t := PerformAll(Booted(), calls);
            f in t.files && t.files[f].status == FileAvailable ==>
            && Tiles(t.chunks, f, t.files[f].size)
            && t.files[f].storedSize == t.files[f].size
            && (0 <= p < t.files[f].size ==>
                  && (exists c :: Of(t.chunks, c, f) && Covers(t.chunks[c], p) && t.chunks[c].index == p / CHUNK_SIZE)
                  && (forall c, d ::
                        Of(t.chunks, c, f) && Of(t.chunks, d, f) && Covers(t.chunks[c], p) && Covers(t.chunks[d], p) ==>
                            c == d))
  {
    BootedUploadsOk();
    UploadsStayOk(Booted(), calls);
    var t := PerformAll(Booted(), calls);
    if f in t.files && t.files[f].status == FileAvailable {
      var size := t.files[f].size;
      TilingHasNoGap(t.chunks, f, size);
      MaxEndUnique(t.chunks, f, size, t.files[f].storedSize);
      if 0 <= p < size {
        ByteInOneChunk(t.chunks, f, size, p);
      }
    }
  }

  // ---------------------------------------------------------------- fail, then retry

  /** `offset` is 0 or the offset of a chunk of the file. */
  ghost predicate Boundary(chunks: Chunks, f: FileId, offset: int) {
    offset == 0 || exists c :: Of(chunks, c, f) && chunks[c].offset == offset
  }

  lemma BoundaryAligned(chunks: Chunks, f: FileId, offset: int) returns (k: int)
    requires ChunksOk(chunks) && Boundary(chunks, f, offset)
    ensures k >= 0 && offset == k * CHUNK_SIZE
  {
    k := 0;
    if offset != 0 {
      var c :| Of(chunks, c, f) && chunks[c].offset == offset;
      k := chunks[c].index;
    }
  }

  lemma CutEnds(chunks: Chunks, f: FileId, offset: int, c: ChunkId)
    requires ChunksOk(chunks) && Boundary(chunks, f, offset) && Of(chunks, c, f) && chunks[c].offset < offset
    ensures End(chunks[c]) <= offset
  {
    var k := BoundaryAligned(chunks, f, offset);
    assert chunks[c].index < k;
  }

  lemma CutCovers(chunks: Chunks, f: FileId, size: int, offset: int, p: int)
    requires Tiles(chunks, f, size) && 0 <= p < offset <= size
    ensures CoveredAt(Restarted(chunks, f, offset), f, p)
  {
    var cut := Restarted(chunks, f, offset);
    assert CoveredAt(chunks, f, p);
    var c :| Of(chunks, c, f) && Covers(chunks[c], p);
    assert Of(cut, c, f) && Covers(cut[c], p);
  }

  /** Cutting a tiling at a boundary leaves chunks that reach exactly up to it. */
  lemma CutReaches(chunks: Chunks, f: FileId, size: int, offset: int)
    requires ChunksOk(chunks) && Tiles(chunks, f, size) && Boundary(chunks, f, offset) && 0 <= offset <= size
    ensures IsMaxEnd(Restarted(chunks, f, offset), f, offset)
  {
    var cut := Restarted(chunks, f, offset);
    forall c | Of(cut, c, f) ensures End(cut[c]) <= offset {
      CutEnds(chunks, f, offset, c);
    }
    if offset > 0 {
      CutCovers(chunks, f, size, offset, offset - 1);
      var c :| Of(cut, c, f) && Covers(cut[c], offset - 1);
      assert End(cut[c]) == offset;
    }
  }

  /** The failure record: the session waits for a retry from the failed chunk's offset. */
  lemma FailRecords(s: State, m: State, r: Failure)
    requires FailVerification(s, r) == Ok(m) && r.retryable && r.attempt < r.maxAttempts
    ensures FailureRecorded(s, m, r)
  {
  }

  lemma RetryRecords(s: State, sid: SessionId, statuses: set<FileStatus>)
    requires sid != "" && LookupRefused(s, sid, statuses).None? && s.sessions[sid].status == UploadRetrying
    requires s.sessions[sid].lastFailedOffset >= 0
    requires ExpectedSize(s, s.sessions[sid]) > 0 ==>
               s.sessions[sid].lastFailedOffset <= ExpectedSize(s, s.sessions[sid])
    ensures RetryUpload(s, sid, statuses).Ok?
    ensures var t, u, f := RetryUpload(s, sid, statuses).value, s.sessions[sid], s.sessions[sid].fileId;
            && t.chunks == Restarted(s.chunks, f, u.lastFailedOffset)
            && sid in t.sessions && f in t.files
            && t.sessions[sid].confirmedOffset == u.lastFailedOffset && t.sessions[sid].nextOffset == u.lastFailedOffset
            && t.sessions[sid].status == UploadActive
            && t.files[f].storedSize == StoredSize(t.chunks, f) && t.files[f].status == FileUploading
  {
  }

  /** The upload can go on from `offset`: the file keeps exactly its chunks before it, all
      persisted and covering every byte before it, and every recorded position is `offset`. */
  ghost predicate ResumesAt(before: Chunks, t: State, sid: SessionId, f: FileId, offset: int) {
    && sid in t.sessions && f in t.files
    && (forall c :: Of(t.chunks, c, f) <==> Of(before, c, f) && before[c].offset < offset)
    && (forall c :: Of(t.chunks, c, f) ==> t.chunks[c].status == ChunkPersisted)
    && (forall p :: 0 <= p < offset ==> CoveredAt(t.chunks, f, p))
    && t.files[f].storedSize == offset
    && t.sessions[sid].confirmedOffset == t.sessions[sid].nextOffset == offset
    && t.sessions[sid].status == UploadActive && t.files[f].status == FileUploading
  }

  /** Fail then retry: if the file's chunks tile its target size and verification fails retryably
      at a chunk (or without naming one), the retry is accepted and resumes at that chunk's
      offset (or at 0). */
  lemma FailThenRetry(s: State, m: State, r: Failure, statuses: set<FileStatus>) returns (t: State)
    requires ChunksOk(s.chunks) && FailVerification(s, r) == Ok(m)
    requires r.retryable && r.attempt < r.maxAttempts && (statuses == {} || FileFailed in statuses)
    requires r.session in s.sessions && s.sessions[r.session].fileId in s.files
    requires var u := s.sessions[r.session]; Tiles(s.chunks, u.fileId, TargetSize(s.files[u.fileId], u))
    ensures RetryUpload(m, r.session, statuses) == Ok(t)
    ensures ResumesAt(s.chunks, t, r.session, s.sessions[r.session].fileId, FailedOffset(s.chunks, r.chunk))
  {
    var size := TargetSize(s.files[s.sessions[r.session].fileId], s.sessions[r.session]);
    FailRecords(s, m, r);
    FailIsResumable(s, m, r, statuses);
    t := RetryResumes(s.chunks, m, r.session, statuses, size);
  }

  /** A session whose retry will be accepted, on a file that tiles `size`. */
  ghost predicate Resumable(chunks: Chunks, m: State, sid: SessionId, statuses: set<FileStatus>, size: int) {
    && sid != "" && LookupRefused(m, sid, statuses).None? && m.sessions[sid].status == UploadRetrying
    && var u := m.sessions[sid];
       && Relabelled(chunks, m.chunks) && ChunksOk(m.chunks) && Tiles(m.chunks, u.fileId, size)
       && Boundary(m.chunks, u.fileId, u.lastFailedOffset) && 0 <= u.lastFailedOffset <= size
       && (ExpectedSize(m, u) > 0 ==> size <= ExpectedSize(m, u))
  }

  /** What a retryable failure records. */
  predicate FailureRecorded(s: State, m: State, r: Failure) {
    && r.session != "" && r.session in s.sessions && s.sessions[r.session].fileId in s.files
    && var u := s.sessions[r.session];
       && r.session in m.sessions && u.fileId in m.files
       && m.sessions[r.session].status == UploadRetrying
       && m.sessions[r.session].lastFailedOffset == FailedOffset(s.chunks, r.chunk)
       && m.sessions[r.session].fileId == u.fileId && m.sessions[r.session].expectedSize == u.expectedSize
       && m.files[u.fileId].size == s.files[u.fileId].size && m.files[u.fileId].status == FileFailed
       && m.chunks == WithFailure(s.chunks, u.fileId, r.chunk, r.actualChecksum)
       && (r.chunk != "" ==> Of(s.chunks, r.chunk, u.fileId))
  }

  lemma FailIsResumable(s: State, m: State, r: Failure, statuses: set<FileStatus>)
    requires ChunksOk(s.chunks) && FailureRecorded(s, m, r) && (statuses == {} || FileFailed in statuses)
    requires var u := s.sessions[r.session]; Tiles(s.chunks, u.fileId, TargetSize(s.files[u.fileId], u))
    ensures Resumable(s.chunks, m, r.session, statuses,
                      TargetSize(s.files[s.sessions[r.session].fileId], s.sessions[r.session]))
    ensures m.sessions[r.session].fileId == s.sessions[r.session].fileId
    ensures m.sessions[r.session].lastFailedOffset == FailedOffset(s.chunks, r.chunk)
  {
    var u := s.sessions[r.session];
    FailedPlace(s.chunks, r, u.fileId, TargetSize(s.files[u.fileId], u));
  }

  lemma RetryResumes(chunks: Chunks, m: State, sid: SessionId, statuses: set<FileStatus>, size: int) returns (t: State)
    requires Resumable(chunks, m, sid, statuses, size)
    ensures RetryUpload(m, sid, statuses) == Ok(t)
    ensures ResumesAt(chunks, t, sid, m.sessions[sid].fileId, m.sessions[sid].lastFailedOffset)
  {
    RetryRecords(m, sid, statuses);
    t := RetryUpload(m, sid, statuses).value;
    CutResumes(chunks, m.chunks, t, sid, m.sessions[sid].fileId, size, m.sessions[sid].lastFailedOffset);
  }

  lemma CutResumes(chunks: Chunks, failed: Chunks, t: State, sid: SessionId, f: FileId, size: int, offset: int)
    requires Relabelled(chunks, failed) && t.chunks == Restarted(failed, f, offset)
    requires ChunksOk(failed) && Tiles(failed, f, size) && Boundary(failed, f, offset) && 0 <= offset <= size
    requires sid in t.sessions && f in t.files && t.files[f].storedSize == StoredSize(t.chunks, f)
    requires t.sessions[sid].confirmedOffset == t.sessions[sid].nextOffset == offset
    requires t.sessions[sid].status == UploadActive && t.files[f].status == FileUploading
    ensures ResumesAt(chunks, t, sid, f, offset)
  {
    forall p | 0 <= p < offset ensures CoveredAt(t.chunks, f, p) {
      CutCovers(failed, f, size, offset, p);
    }
    CutReaches(failed, f, size, offset);
    MaxEndUnique(t.chunks, f, offset, t.files[f].storedSize);
  }

  /** Marking the chunks failed moves none of them. */
  lemma FailedPlace(chunks: Chunks, r: Failure, f: FileId, size: int)
    requires ChunksOk(chunks) && Tiles(chunks, f, size)
    requires r.chunk != "" ==> Of(chunks, r.chunk, f)
    ensures 0 <= FailedOffset(chunks, r.chunk) <= size
    ensures var failed := WithFailure(chunks, f, r.chunk, r.actualChecksum);
            ChunksOk(failed) && Tiles(failed, f, size) && Boundary(failed, f, FailedOffset(chunks, r.chunk))
  {
    var failed := WithFailure(chunks, f, r.chunk, r.actualChecksum);
    RelabelledOk(chunks, failed);
    SamePlacesKeep(chunks, failed, f);
    FailedBoundary(chunks, r, f, size);
  }

  lemma FailedBoundary(chunks: Chunks, r: Failure, f: FileId, size: int)
    requires ChunksOk(chunks) && Tiles(chunks, f, size)
    requires r.chunk != "" ==> Of(chunks, r.chunk, f)
    ensures 0 <= FailedOffset(chunks, r.chunk) <= size
    ensures Boundary(WithFailure(chunks, f, r.chunk, r.actualChecksum), f, FailedOffset(chunks, r.chunk))
  {
    var failed := WithFailure(chunks, f, r.chunk, r.actualChecksum);
    var c0 :| Of(chunks, c0, f);
    assert 0 <= End(chunks[c0]) <= size;
    if r.chunk != "" {
      assert Of(failed, r.chunk, f) && failed[r.chunk].offset == chunks[r.chunk].offset;
      assert End(chunks[r.chunk]) <= size;
    }
  }

  // ---------------------------------------------------------------- foreign chunk ids

  /** Some other chunk of the file ends where this one does, or nothing is stored at all. */
  ghost predicate NotTheLast(chunks: Chunks, c: ChunkId, f: FileId, stored: int) {
    stored == 0 || exists d :: d != c && Of(chunks, d, f) && End(chunks[d]) == stored
  }

  /** Committing a chunk id that belongs to another file takes the chunk away from that file.
      The stored sizes stay exact exactly when that chunk was not the only one reaching the
      other file's stored size. */
  lemma ForeignCommit(s: State, r: Commit)
    requires UploadsOk(s) && CommitChunk(s, r).Ok?
    ensures StoredExact(CommitChunk(s, r).value) <==>
            (OwnChunk(s, r)
             || NotTheLast(s.chunks, r.chunk, s.chunks[r.chunk].fileId, s.files[s.chunks[r.chunk].fileId].storedSize))
  {
    CommitEffect(s, r);
    if OwnChunk(s, r) {
      CommitKeeps(s, r);
    } else {
      var f := s.sessions[r.session].fileId;
      assert s.files[f].id == f;
      StolenChunk(s, CommitChunk(s, r).value, r.session, f, CommittedChunk(r, s.files[f]));
    }
  }

  lemma StolenChunk(s: State, t: State, sid: SessionId, f: FileId, chunk: Chunk)
    requires RefsOk(s) && StoredExact(s) && Transacts(s, t, sid, f) && t.chunks == s.chunks[chunk.id := chunk]
    requires chunk.fileId == f && chunk.id in s.chunks && s.chunks[chunk.id].fileId != f
    requires t.files[f].storedSize == StoredSize(t.chunks, f)
    ensures var g := s.chunks[chunk.id].fileId;
            StoredExact(t) <==> NotTheLast(s.chunks, chunk.id, g, s.files[g].storedSize)
  {
    var g := s.chunks[chunk.id].fileId;
    assert t.files[g] == s.files[g];
    ExactButForOne(s, t, f, g, chunk);
    RemainingMax(s.chunks, chunk, g, s.files[g].storedSize);
  }

  lemma ExactButForOne(s: State, t: State, f: FileId, g: FileId, chunk: Chunk)
    requires StoredExact(s) && t.chunks == s.chunks[chunk.id := chunk] && t.files.Keys == s.files.Keys
    requires forall h :: h in s.files && h != f ==> t.files[h] == s.files[h]
    requires chunk.fileId == f && chunk.id in s.chunks && s.chunks[chunk.id].fileId == g
    requires f in t.files && g in t.files && t.files[f].storedSize == StoredSize(t.chunks, f)
    ensures StoredExact(t) <==> IsMaxEnd(t.chunks, g, t.files[g].storedSize)
  {
    forall h | h in t.files && h != g ensures IsMaxEnd(t.chunks, h, t.files[h].storedSize) {
      if h != f {
        PlacedElsewhere(s.chunks, chunk, h, s.files[h].storedSize);
      }
    }
  }

  lemma PlacedElsewhere(chunks: Chunks, chunk: Chunk, h: FileId, m: int)
    requires chunk.id in chunks && chunks[chunk.id].fileId != h && chunk.fileId != h && IsMaxEnd(chunks, h, m)
    ensures IsMaxEnd(chunks[chunk.id := chunk], h, m)
  {
    assert SamePlaces(chunks, chunks[chunk.id := chunk], h);
    SamePlacesKeep(chunks, chunks[chunk.id := chunk], h);
  }

  lemma RemainingMax(chunks: Chunks, chunk: Chunk, g: FileId, m: int)
    requires IsMaxEnd(chunks, g, m) && Of(chunks, chunk.id, g) && chunk.fileId != g
    ensures IsMaxEnd(chunks[chunk.id := chunk], g, m) <==> NotTheLast(chunks, chunk.id, g, m)
  {
    var chunks' := chunks[chunk.id := chunk];
    assert forall d :: Of(chunks', d, g) <==> d != chunk.id && Of(chunks, d, g);
    if NotTheLast(chunks, chunk.id, g, m) && m != 0 {
      var d :| d != chunk.id && Of(chunks, d, g) && End(chunks[d]) == m;
      assert Of(chunks', d, g) && End(chunks'[d]) == m;
    }
    if IsMaxEnd(chunks', g, m) && m != 0 {
      var d :| Of(chunks', d, g) && End(chunks'[d]) == m;
      assert d != chunk.id && Of(chunks, d, g) && End(chunks[d]) == m;
    }
  }

  /** Losing this chunk leaves no hole: it is empty, and the file has another one. */
  ghost predicate NotMissed(chunks: Chunks, c: ChunkId, f: FileId) {
    c in chunks && chunks[c].size == 0 && exists d :: d != c && Of(chunks, d, f)
  }

  /** The chunks of every available file still tile it after a commit exactly when the commit
      takes no chunk from another file, or from one that is not available, or one not missed. */
  lemma ForeignTiling(s: State, r: Commit)
    requires UploadsOk(s) && CommitChunk(s, r).Ok?
    ensures AvailableTiled(CommitChunk(s, r).value) <==>
            (OwnChunk(s, r) || s.files[s.chunks[r.chunk].fileId].status != FileAvailable
             || NotMissed(s.chunks, r.chunk, s.chunks[r.chunk].fileId))
  {
    CommitEffect(s, r);
    if OwnChunk(s, r) {
      CommitKeeps(s, r);
    } else {
      var f := s.sessions[r.session].fileId;
      assert s.files[f].id == f;
      StolenTiling(s, CommitChunk(s, r).value, r.session, f, CommittedChunk(r, s.files[f]));
    }
  }

  lemma StolenTiling(s: State, t: State, sid: SessionId, f: FileId, chunk: Chunk)
    requires RefsOk(s) && ChunksOk(s.chunks) && AvailableTiled(s) && Transacts(s, t, sid, f)
    requires t.chunks == s.chunks[chunk.id := chunk] && t.files[f].status == FileUploading
    requires chunk.fileId == f && chunk.id in s.chunks && s.chunks[chunk.id].fileId != f
    ensures var g := s.chunks[chunk.id].fileId;
            AvailableTiled(t) <==> s.files[g].status != FileAvailable || NotMissed(s.chunks, chunk.id, g)
  {
    var g := s.chunks[chunk.id].fileId;
    assert t.files[g] == s.files[g];
    if s.files[g].status == FileAvailable {
      RemainingTiles(s.chunks, chunk, g, s.files[g].size);
    }
    forall h | h in s.files && h != f && h != g && t.files[h].status == FileAvailable
      ensures Tiles(t.chunks, h, t.files[h].size)
    {
      assert SamePlaces(s.chunks, t.chunks, h);
      SamePlacesKeep(s.chunks, t.chunks, h);
    }
  }

  lemma RemainingTiles(chunks: Chunks, chunk: Chunk, g: FileId, size: int)
    requires ChunksOk(chunks) && Tiles(chunks, g, size) && Of(chunks, chunk.id, g) && chunk.fileId != g
    ensures Tiles(chunks[chunk.id := chunk], g, size) <==> NotMissed(chunks, chunk.id, g)
  {
    var chunks', c := chunks[chunk.id := chunk], chunk.id;
    assert forall d :: Of(chunks', d, g) <==> d != c && Of(chunks, d, g);
    if Tiles(chunks', g, size) && chunks[c].size > 0 {
      FirstByteLost(chunks, chunks', c, g, size);
    }
    if NotMissed(chunks, c, g) {
      forall p | 0 <= p < size ensures CoveredAt(chunks', g, p) {
        assert CoveredAt(chunks, g, p);
        var d :| Of(chunks, d, g) && Covers(chunks[d], p);
        assert Of(chunks', d, g) && Covers(chunks'[d], p);
      }
    }
  }

  lemma FirstByteLost(chunks: Chunks, chunks': Chunks, c: ChunkId, g: FileId, size: int)
    requires ChunksOk(chunks) && Of(chunks, c, g) && chunks[c].size > 0 && End(chunks[c]) <= size
    requires forall d :: Of(chunks', d, g) <==> d != c && Of(chunks, d, g)
    requires forall d :: d != c && Of(chunks, d, g) ==> d in chunks' && chunks'[d] == chunks[d]
    ensures !Tiles(chunks', g, size)
  {
    var p := chunks[c].offset;
    if CoveredAt(chunks', g, p) {
      var d :| Of(chunks', d, g) && Covers(chunks'[d], p);
      SlotOf(chunks[d], p);
      SlotOf(chunks[c], p);
      assert SameSlot(chunks[c], chunks[d]);
      assert false;
    }
  }
}

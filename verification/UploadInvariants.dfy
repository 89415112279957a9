/** What the upload use cases keep, over every run of uploads and namespace requests. */
module UploadInvariants {
  import opened Wrappers
  import opened Metadata
  import opened Namespace
  import opened NamespaceRuns
  import opened Upload

  // ---------------------------------------------------------------- the invariant

  predicate SameSlot(a: Chunk, b: Chunk) {
    a.fileId == b.fileId && a.index == b.index
  }

  /** Chunks sit at multiples of the chunk size, fit their slot, and a slot of a file is used once. */
  predicate ChunksOk(chunks: Chunks) {
    && (forall c :: c in chunks ==>
          chunks[c].id == c && 0 <= chunks[c].size <= CHUNK_SIZE && 0 <= chunks[c].index
          && chunks[c].offset == chunks[c].index * CHUNK_SIZE)
    && (forall c, d :: c in chunks && d in chunks && SameSlot(chunks[c], chunks[d]) ==> c == d)
  }

  /** The recorded stored size of every file is its largest chunk end. */
  ghost predicate StoredExact(s: State) {
    forall f :: f in s.files ==> IsMaxEnd(s.chunks, f, s.files[f].storedSize)
  }

  /** The chunks of every available file tile it. */
  ghost predicate AvailableTiled(s: State) {
    forall f :: f in s.files && s.files[f].status == FileAvailable ==> Tiles(s.chunks, f, s.files[f].size)
  }

  ghost predicate UploadsOk(s: State) {
    WellFormed(s) && ChunksOk(s.chunks) && StoredExact(s) && AvailableTiled(s)
  }

  /** Every session belongs to a file that has a latest session, and only that one is not finished. */
  predicate SessionsOk(s: State) {
    forall u :: u in s.sessions && s.sessions[u].fileId in s.files ==>
      var latest := s.files[s.sessions[u].fileId].latestSession;
      latest != "" && (latest == u || TerminalUpload(s.sessions[u].status))
  }

  // ---------------------------------------------------------------- what a tiling means

  predicate HasIndex(chunks: Chunks, f: FileId, k: int) {
    exists c :: c in chunks && Of(chunks, c, f) && chunks[c].index == k
  }

  lemma SlotOf(c: Chunk, p: int)
    requires 0 <= c.size <= CHUNK_SIZE && 0 <= c.index && c.offset == c.index * CHUNK_SIZE && Covers(c, p)
    ensures c.index == p / CHUNK_SIZE
  {
  }

  /** Each byte of a tiled file lies in exactly one chunk: the one whose index is the byte's
      position divided by the chunk size. */
  lemma ByteInOneChunk(chunks: Chunks, f: FileId, size: int, p: int)
    requires ChunksOk(chunks) && Tiles(chunks, f, size) && 0 <= p < size
    ensures exists c :: Of(chunks, c, f) && Covers(chunks[c], p) && chunks[c].index == p / CHUNK_SIZE
    ensures forall c, d :: Of(chunks, c, f) && Of(chunks, d, f) && Covers(chunks[c], p) && Covers(chunks[d], p) ==>
              c == d
  {
    assert CoveredAt(chunks, f, p);
    var c :| Of(chunks, c, f) && Covers(chunks[c], p);
    SlotOf(chunks[c], p);
    forall d, e | Of(chunks, d, f) && Of(chunks, e, f) && Covers(chunks[d], p) && Covers(chunks[e], p) ensures d == e {
      SlotOf(chunks[d], p);
      SlotOf(chunks[e], p);
      assert SameSlot(chunks[d], chunks[e]);
    }
  }

  /** The indices of a tiled file's chunks leave no gap, and its stored size is its size. */
  lemma TilingHasNoGap(chunks: Chunks, f: FileId, size: int)
    requires ChunksOk(chunks) && Tiles(chunks, f, size)
    ensures forall c, k :: Of(chunks, c, f) && 0 <= k < chunks[c].index ==> HasIndex(chunks, f, k)
    ensures IsMaxEnd(chunks, f, size)
  {
    forall c, k | Of(chunks, c, f) && 0 <= k < chunks[c].index ensures HasIndex(chunks, f, k) {
      ByteInOneChunk(chunks, f, size, k * CHUNK_SIZE);
    }
    var c0 :| Of(chunks, c0, f);
    if size > 0 {
      assert CoveredAt(chunks, f, size - 1);
      var c :| Of(chunks, c, f) && Covers(chunks[c], size - 1);
      assert End(chunks[c]) == size;
    }
  }

  // ---------------------------------------------------------------- frames

  predicate SamePlace(a: Chunk, b: Chunk) {
    a.fileId == b.fileId && a.offset == b.offset && a.size == b.size
  }

  /** `chunks'` holds the same chunks of file `f`, up to status, checksum and replicas. */
  predicate SamePlaces(chunks: Chunks, chunks': Chunks, f: FileId) {
    && (forall c :: c in chunks && chunks[c].fileId == f ==>
          c in chunks' && chunks'[c].fileId == f
          && chunks'[c].offset == chunks[c].offset && chunks'[c].size == chunks[c].size)
    && (forall c :: c in chunks' && chunks'[c].fileId == f ==> c in chunks && chunks[c].fileId == f)
  }

  lemma SamePlacesKeep(chunks: Chunks, chunks': Chunks, f: FileId)
    requires SamePlaces(chunks, chunks', f)
    ensures forall m :: IsMaxEnd(chunks, f, m) ==> IsMaxEnd(chunks', f, m)
    ensures forall size :: Tiles(chunks, f, size) ==> Tiles(chunks', f, size)
  {
    forall m | IsMaxEnd(chunks, f, m) ensures IsMaxEnd(chunks', f, m) {
      if m != 0 {
        var c :| Of(chunks, c, f) && End(chunks[c]) == m;
        assert Of(chunks', c, f) && End(chunks'[c]) == m;
      }
    }
    forall size | Tiles(chunks, f, size) ensures Tiles(chunks', f, size) {
      var c0 :| Of(chunks, c0, f);
      assert Of(chunks', c0, f);
      forall p | 0 <= p < size ensures CoveredAt(chunks', f, p) {
        assert CoveredAt(chunks, f, p);
        var c :| Of(chunks, c, f) && Covers(chunks[c], p);
        assert Of(chunks', c, f) && Covers(chunks'[c], p);
      }
    }
  }

  /** A file record may change in everything but its identity and its place in the namespace. */
  predicate SameIdentity(a: File, b: File) {
    b == a.(size := b.size, storedSize := b.storedSize, status := b.status, latestSession := b.latestSession,
            checksum := b.checksum)
  }

  /** Only file `f`, its chunks and its sessions change. */
  predicate OnlyFile(s: State, t: State, f: FileId) {
    && f in s.files && f in t.files
    && t == s.(files := s.files[f := t.files[f]], chunks := t.chunks, sessions := t.sessions)
    && SameIdentity(s.files[f], t.files[f])
    && (forall g :: g in s.files && g != f ==> SamePlaces(s.chunks, t.chunks, g))
    && (forall c :: c in t.chunks ==> t.chunks[c].id == c && t.chunks[c].fileId in s.files)
    && (forall u :: u in t.sessions ==> t.sessions[u].id == u && t.sessions[u].fileId in s.files)
  }

  lemma OnlyFileKeepsWellFormed(s: State, t: State, f: FileId)
    requires WellFormed(s) && OnlyFile(s, t, f)
    ensures WellFormed(t)
  {
    forall g | g in t.files ensures t.files[g].id == g && Mirrors(t.inodes, t.files[g]) {
      assert Mirrors(s.inodes, s.files[g]);
    }
  }

  /** If the one file that changes is fine afterwards, all files are. */
  lemma OnlyFileKeeps(s: State, t: State, f: FileId)
    requires UploadsOk(s) && OnlyFile(s, t, f) && ChunksOk(t.chunks)
    requires IsMaxEnd(t.chunks, f, t.files[f].storedSize)
    requires t.files[f].status == FileAvailable ==> Tiles(t.chunks, f, t.files[f].size)
    ensures UploadsOk(t)
  {
    OnlyFileKeepsWellFormed(s, t, f);
    forall g | g in t.files
      ensures IsMaxEnd(t.chunks, g, t.files[g].storedSize)
      ensures t.files[g].status == FileAvailable ==> Tiles(t.chunks, g, t.files[g].size)
    {
      if g != f {
        SamePlacesKeep(s.chunks, t.chunks, g);
      }
    }
  }

  // ---------------------------------------------------------------- one use case at a time

  /** The shape of every upload transaction: one session of one file, that file, and chunks. */
  predicate Transacts(s: State, t: State, sid: SessionId, f: FileId) {
    && sid in s.sessions && sid in t.sessions && s.sessions[sid].fileId == f
    && f in s.files && f in t.files
    && t == s.(files := s.files[f := t.files[f]], chunks := t.chunks, sessions := s.sessions[sid := t.sessions[sid]])
    && SameIdentity(s.files[f], t.files[f]) && t.files[f].latestSession == s.files[f].latestSession
    && t.sessions[sid].id == s.sessions[sid].id && t.sessions[sid].fileId == f
  }

  /** The same chunks, up to status and checksum. */
  predicate Relabelled(a: Chunks, b: Chunks) {
    a.Keys == b.Keys && forall c :: c in a ==> b[c] == a[c].(status := b[c].status, checksum := b[c].checksum)
  }

  /** Transactions that only relabel chunks. */
  lemma RelabelKeeps(s: State, t: State, sid: SessionId, f: FileId)
    requires UploadsOk(s) && Transacts(s, t, sid, f) && Relabelled(s.chunks, t.chunks)
    requires IsMaxEnd(s.chunks, f, t.files[f].storedSize)
    requires t.files[f].status == FileAvailable ==> Tiles(s.chunks, f, t.files[f].size)
    ensures UploadsOk(t)
  {
    SamePlacesKeep(s.chunks, t.chunks, f);
    RelabelledOk(s.chunks, t.chunks);
    RelabelOthersStay(s.chunks, t.chunks, f);
    TransactsOnlyFile(s, t, sid, f);
    OnlyFileKeeps(s, t, f);
  }

  /** Chunks of files other than `f` stay where they are. */
  predicate OthersStay(a: Chunks, b: Chunks, f: FileId) {
    && (forall c :: c in b ==> b[c].id == c && (b[c].fileId == f || (c in a && SamePlace(a[c], b[c]))))
    && (forall c :: c in a && a[c].fileId != f ==> c in b && SamePlace(a[c], b[c]))
  }

  lemma PlaceOthersStay(chunks: Chunks, chunk: Chunk)
    requires ChunksOk(chunks) && (chunk.id in chunks ==> chunks[chunk.id].fileId == chunk.fileId)
    ensures OthersStay(chunks, chunks[chunk.id := chunk], chunk.fileId)
  {
  }

  lemma RestartOthersStay(chunks: Chunks, f: FileId, offset: int)
    requires ChunksOk(chunks)
    ensures OthersStay(chunks, Restarted(chunks, f, offset), f)
  {
  }

  lemma RelabelOthersStay(a: Chunks, b: Chunks, f: FileId)
    requires ChunksOk(a) && Relabelled(a, b)
    ensures OthersStay(a, b, f)
  {
  }

  lemma TransactsOnlyFile(s: State, t: State, sid: SessionId, f: FileId)
    requires RefsOk(s) && Transacts(s, t, sid, f)
    requires OthersStay(s.chunks, t.chunks, f)
    ensures OnlyFile(s, t, f)
  {
    forall g | g in s.files && g != f ensures SamePlaces(s.chunks, t.chunks, g) {
    }
  }

  lemma RelabelledOk(a: Chunks, b: Chunks)
    requires ChunksOk(a) && Relabelled(a, b)
    ensures ChunksOk(b)
  {
    forall c, d | c in b && d in b && SameSlot(b[c], b[d]) ensures c == d {
      assert SameSlot(a[c], a[d]);
    }
  }

  lemma StartEffect(s: State, sid: SessionId, fid: FileId, expectedSize: int, expectedChecksum: Option<Checksum>)
    requires StartUpload(s, sid, fid, expectedSize, expectedChecksum).Ok?
    ensures var t := StartUpload(s, sid, fid, expectedSize, expectedChecksum).value;
            && fid in s.files && fid in t.files && sid in t.sessions
            && t == s.(files := s.files[fid := t.files[fid]], sessions := s.sessions[sid := t.sessions[sid]])
            && SameIdentity(s.files[fid], t.files[fid])
            && t.files[fid].storedSize == s.files[fid].storedSize && t.files[fid].status == FileUploading
            && t.sessions[sid].id == sid && t.sessions[sid].fileId == fid
  {
  }

  lemma StartOnlyFile(s: State, t: State, sid: SessionId, f: FileId)
    requires RefsOk(s) && f in s.files && f in t.files && sid in t.sessions
    requires t == s.(files := s.files[f := t.files[f]], sessions := s.sessions[sid := t.sessions[sid]])
    requires SameIdentity(s.files[f], t.files[f]) && t.sessions[sid].id == sid && t.sessions[sid].fileId == f
    ensures OnlyFile(s, t, f)
  {
  }

  lemma StartKeeps(s: State, sid: SessionId, fid: FileId, expectedSize: int, expectedChecksum: Option<Checksum>)
    requires UploadsOk(s) && StartUpload(s, sid, fid, expectedSize, expectedChecksum).Ok?
    ensures UploadsOk(StartUpload(s, sid, fid, expectedSize, expectedChecksum).value)
  {
    StartEffect(s, sid, fid, expectedSize, expectedChecksum);
    StartPlaceKeeps(s, StartUpload(s, sid, fid, expectedSize, expectedChecksum).value, sid, fid);
  }

  lemma StartPlaceKeeps(s: State, t: State, sid: SessionId, f: FileId)
    requires UploadsOk(s) && f in s.files && f in t.files && sid in t.sessions
    requires t == s.(files := s.files[f := t.files[f]], sessions := s.sessions[sid := t.sessions[sid]])
    requires SameIdentity(s.files[f], t.files[f]) && t.sessions[sid].id == sid && t.sessions[sid].fileId == f
    requires t.files[f].storedSize == s.files[f].storedSize && t.files[f].status == FileUploading
    ensures UploadsOk(t)
  {
    StartOnlyFile(s, t, sid, f);
    OnlyFileKeeps(s, t, f);
  }

  /** The chunk id is new, or already belongs to the file being uploaded. */
  predicate OwnChunk(s: State, r: Commit) {
    r.session in s.sessions && r.chunk in s.chunks ==> s.chunks[r.chunk].fileId == s.sessions[r.session].fileId
  }

  lemma CommitEffect(s: State, r: Commit)
    requires CommitChunk(s, r).Ok?
    ensures r.session in s.sessions && s.sessions[r.session].fileId in s.files
    ensures var t, f := CommitChunk(s, r).value, s.sessions[r.session].fileId;
            && Transacts(s, t, r.session, f)
            && t.chunks == s.chunks[r.chunk := CommittedChunk(r, s.files[f])]
            && t.files[f].storedSize == StoredSize(t.chunks, f)
            && t.files[f].status == FileUploading
            && !PlaceTaken(s.chunks, f, r.chunk, r.index, r.offset)
            && 0 <= r.size <= CHUNK_SIZE && 0 <= r.index && r.offset == r.index * CHUNK_SIZE
  {
  }

  lemma CommitChunksOk(chunks: Chunks, chunk: Chunk)
    requires ChunksOk(chunks) && !PlaceTaken(chunks, chunk.fileId, chunk.id, chunk.index, chunk.offset)
    requires 0 <= chunk.size <= CHUNK_SIZE && 0 <= chunk.index && chunk.offset == chunk.index * CHUNK_SIZE
    ensures ChunksOk(chunks[chunk.id := chunk])
  {
    var t := chunks[chunk.id := chunk];
    forall c, d | c in t && d in t && SameSlot(t[c], t[d]) ensures c == d {
      if c != chunk.id && d == chunk.id {
        assert Of(chunks, c, chunk.fileId);
      } else if c == chunk.id && d != chunk.id {
        assert Of(chunks, d, chunk.fileId);
      }
    }
  }

  /** Transactions that put one chunk of the file in a free slot. */
  lemma PlaceKeeps(s: State, t: State, sid: SessionId, f: FileId, chunk: Chunk)
    requires UploadsOk(s) && Transacts(s, t, sid, f) && t.chunks == s.chunks[chunk.id := chunk]
    requires chunk.fileId == f && (chunk.id in s.chunks ==> s.chunks[chunk.id].fileId == f)
    requires !PlaceTaken(s.chunks, f, chunk.id, chunk.index, chunk.offset)
    requires 0 <= chunk.size <= CHUNK_SIZE && 0 <= chunk.index && chunk.offset == chunk.index * CHUNK_SIZE
    requires IsMaxEnd(t.chunks, f, t.files[f].storedSize) && t.files[f].status != FileAvailable
    ensures UploadsOk(t)
  {
    CommitChunksOk(s.chunks, chunk);
    PlaceOthersStay(s.chunks, chunk);
    TransactsOnlyFile(s, t, sid, f);
    OnlyFileKeeps(s, t, f);
  }

  lemma CommitKeeps(s: State, r: Commit)
    requires UploadsOk(s) && OwnChunk(s, r) && CommitChunk(s, r).Ok?
    ensures UploadsOk(CommitChunk(s, r).value)
  {
    CommitEffect(s, r);
    var t, f := CommitChunk(s, r).value, s.sessions[r.session].fileId;
    assert s.files[f].id == f;
    PlaceKeeps(s, t, r.session, f, CommittedChunk(r, s.files[f]));
  }

  lemma CompleteEffect(s: State, sid: SessionId, finalChecksum: Option<Checksum>, statuses: set<FileStatus>)
    requires CompleteUpload(s, sid, finalChecksum, statuses).Ok?
    ensures sid in s.sessions && s.sessions[sid].fileId in s.files
    ensures var t, f := CompleteUpload(s, sid, finalChecksum, statuses).value, s.sessions[sid].fileId;
            && Transacts(s, t, sid, f) && Relabelled(s.chunks, t.chunks)
            && t.files[f].storedSize == StoredSize(s.chunks, f)
            && t.files[f].status == FileVerifying
  {
  }

  lemma VerifyEffect(s: State, sid: SessionId, verified: Option<Checksum>, statuses: set<FileStatus>)
    requires VerifyUpload(s, sid, verified, statuses).Ok?
    ensures sid in s.sessions && s.sessions[sid].fileId in s.files
    ensures var t, f := VerifyUpload(s, sid, verified, statuses).value, s.sessions[sid].fileId;
            && Transacts(s, t, sid, f) && Relabelled(s.chunks, t.chunks)
            && t.files[f].storedSize == StoredSize(s.chunks, f)
            && t.files[f].status == FileAvailable
            && Tiles(s.chunks, s.files[f].id, t.files[f].size)
            && t.sessions[sid].status == UploadCompleted
  {
  }

  lemma FailEffect(s: State, r: Failure)
    requires FailVerification(s, r).Ok?
    ensures r.session in s.sessions && s.sessions[r.session].fileId in s.files
    ensures var t, f := FailVerification(s, r).value, s.sessions[r.session].fileId;
            && Transacts(s, t, r.session, f) && Relabelled(s.chunks, t.chunks)
            && t.files[f].storedSize == StoredSize(s.chunks, f)
            && t.files[f].status == FileFailed
  {
  }

  lemma RetryEffect(s: State, sid: SessionId, statuses: set<FileStatus>)
    requires RetryUpload(s, sid, statuses).Ok?
    ensures sid in s.sessions && s.sessions[sid].fileId in s.files
    ensures var t, f := RetryUpload(s, sid, statuses).value, s.sessions[sid].fileId;
            && Transacts(s, t, sid, f)
            && t.chunks == Restarted(s.chunks, f, s.sessions[sid].lastFailedOffset)
            && t.files[f].storedSize == StoredSize(t.chunks, f)
            && t.files[f].status == FileUploading
  {
  }

  lemma CompleteKeeps(s: State, sid: SessionId, finalChecksum: Option<Checksum>, statuses: set<FileStatus>)
    requires UploadsOk(s) && CompleteUpload(s, sid, finalChecksum, statuses).Ok?
    ensures UploadsOk(CompleteUpload(s, sid, finalChecksum, statuses).value)
  {
    CompleteEffect(s, sid, finalChecksum, statuses);
    RelabelKeeps(s, CompleteUpload(s, sid, finalChecksum, statuses).value, sid, s.sessions[sid].fileId);
  }

  lemma VerifyKeeps(s: State, sid: SessionId, verified: Option<Checksum>, statuses: set<FileStatus>)
    requires UploadsOk(s) && VerifyUpload(s, sid, verified, statuses).Ok?
    ensures UploadsOk(VerifyUpload(s, sid, verified, statuses).value)
  {
    VerifyEffect(s, sid, verified, statuses);
    RelabelKeeps(s, VerifyUpload(s, sid, verified, statuses).value, sid, s.sessions[sid].fileId);
  }

  lemma FailKeeps(s: State, r: Failure)
    requires UploadsOk(s) && FailVerification(s, r).Ok?
    ensures UploadsOk(FailVerification(s, r).value)
  {
    FailEffect(s, r);
    RelabelKeeps(s, FailVerification(s, r).value, r.session, s.sessions[r.session].fileId);
  }

  lemma RestartedOk(chunks: Chunks, f: FileId, offset: int)
    requires ChunksOk(chunks)
    ensures ChunksOk(Restarted(chunks, f, offset))
  {
    var t := Restarted(chunks, f, offset);
    forall c, d | c in t && d in t && SameSlot(t[c], t[d]) ensures c == d {
      assert SameSlot(chunks[c], chunks[d]);
    }
  }

  /** Transactions that drop the file's chunks from some offset on. */
  lemma RestartKeeps(s: State, t: State, sid: SessionId, f: FileId, offset: int)
    requires UploadsOk(s) && Transacts(s, t, sid, f) && t.chunks == Restarted(s.chunks, f, offset)
    requires IsMaxEnd(t.chunks, f, t.files[f].storedSize) && t.files[f].status != FileAvailable
    ensures UploadsOk(t)
  {
    RestartedOk(s.chunks, f, offset);
    RestartOthersStay(s.chunks, f, offset);
    TransactsOnlyFile(s, t, sid, f);
    OnlyFileKeeps(s, t, f);
  }

  lemma RetryKeeps(s: State, sid: SessionId, statuses: set<FileStatus>)
    requires UploadsOk(s) && RetryUpload(s, sid, statuses).Ok?
    ensures UploadsOk(RetryUpload(s, sid, statuses).value)
  {
    RetryEffect(s, sid, statuses);
    RestartKeeps(s, RetryUpload(s, sid, statuses).value, sid, s.sessions[sid].fileId, s.sessions[sid].lastFailedOffset);
  }
}

/** The metadata side of one gateway upload: create the file, start a session, commit the parts in
    order, complete, verify.  Every call is accepted, and the file ends up available. */
module UploadFlow {
  import opened Wrappers
  import opened Metadata
  import opened Namespace
  import opened NamespaceRuns
  import opened Upload
  import opened UploadInvariants
  import opened Parts

  /** A chunk as the gateway commits it: persisted, with a verified checksum and a ready replica. */
  predicate Fresh(c: Chunk) {
    c.status == ChunkPersisted && ChecksumReady(c.checksum) && HealthyReplicas(c.replicas) != {}
  }

  /** The session and file records after `k` parts. */
  predicate Records(s: State, sid: SessionId, f: FileId, content: Bytes, k: nat) {
    && sid != "" && f != "" && sid in s.sessions && f in s.files
    && var u, file := s.sessions[sid], s.files[f];
       && file.id == f && file.size == |content| && file.status == FileUploading && file.latestSession == sid
       && file.policy == ReplicaPolicy(DEFAULT_REPLICA_COUNT, MINIMUM_READABLE_REPLICA_COUNT, 0)
       && u.fileId == f && (u.status == UploadPending || u.status == UploadActive) && u.expectedSize == |content|
       && u.confirmedOffset == u.nextOffset == Start(content, k)
  }

  /** Where an upload stands after `k` parts. */
  ghost predicate Underway(s: State, sid: SessionId, f: FileId, base: ChunkId, content: Bytes, k: nat) {
    && Records(s, sid, f, content, k)
    && ChunksOk(s.chunks) && HasParts(s.chunks, f, base, content, k)
    && forall c :: Of(s.chunks, c, f) ==> Fresh(s.chunks[c])
  }

  lemma StartAccepted(s: State, inode: InodeId, f: FileId, parent: InodeId, name: string, sid: SessionId,
                      content: Bytes, checksum: Checksum, base: ChunkId)
    requires RefsOk(s) && ChunksOk(s.chunks) && CreateFile(s, inode, f, parent, name, |content|, None).Ok?
    requires sid != "" && sid !in s.sessions
    ensures var s1 := CreateFile(s, inode, f, parent, name, |content|, None).value;
            && StartUpload(s1, sid, f, |content|, Some(checksum)).Ok?
            && var s2 := StartUpload(s1, sid, f, |content|, Some(checksum)).value;
               && Underway(s2, sid, f, base, content, 0)
               && s2.chunks == s.chunks && s2.plans == s.plans && s2.nodes == s.nodes
  {
    CreateFileEffect(s, inode, f, parent, name, |content|, None);
    var s1 := CreateFile(s, inode, f, parent, name, |content|, None).value;
    assert !ActiveSession(s1, f);
    assert forall c :: !Of(s.chunks, c, f);
  }

  // ---------------------------------------------------------------- one part

  /** The commit the gateway sends for part `i`. */
  predicate IsCommit(r: Commit, sid: SessionId, f: FileId, base: ChunkId, content: Bytes, i: nat) {
    && r.session == sid && r.chunk == PartId(base, i, ChunkCount(|content|))
    && r.index == i && r.offset == i * CHUNK_SIZE && r.size == |Part(content, i)|
    && r.status == None && r.policy == None
    && r.checksum.Some? && ChecksumReady(r.checksum.value)
    && CanNormalize(r.replicas, f, r.chunk) && HealthyReplicas(r.replicas) != {}
  }

  lemma NoPlaceTaken(chunks: Chunks, f: FileId, base: ChunkId, content: Bytes, k: nat, chunk: ChunkId)
    requires HasParts(chunks, f, base, content, k)
    ensures !PlaceTaken(chunks, f, chunk, k, k * CHUNK_SIZE)
  {
    forall c | Of(chunks, c, f) ensures chunks[c].index != k && chunks[c].offset != k * CHUNK_SIZE {
      var i :| 0 <= i < k && c == PartId(base, i, ChunkCount(|content|));
      assert IsPart(chunks, f, base, content, i);
    }
  }

  lemma PartIdNotEmpty(base: ChunkId, i: nat, total: int)
    requires base != ""
    ensures PartId(base, i, total) != ""
  {
  }

  lemma CommitAccepted(s: State, r: Commit, sid: SessionId, f: FileId, base: ChunkId, content: Bytes, k: nat)
    requires Records(s, sid, f, content, k) && HasParts(s.chunks, f, base, content, k)
    requires base != "" && k < ChunkCount(|content|) && IsCommit(r, sid, f, base, content, k)
    ensures CommitChunk(s, r).Ok?
  {
    NoPlaceTaken(s.chunks, f, base, content, k, r.chunk);
    PartSize(content, k);
    PartIdNotEmpty(base, k, ChunkCount(|content|));
  }

  lemma CommitRecords(s: State, r: Commit, sid: SessionId, f: FileId, base: ChunkId, content: Bytes, k: nat)
    requires Records(s, sid, f, content, k) && k < ChunkCount(|content|)
    requires IsCommit(r, sid, f, base, content, k) && CommitChunk(s, r).Ok?
    ensures Records(CommitChunk(s, r).value, sid, f, content, k + 1)
  {
    PartSize(content, k);
  }

  lemma CommittedIsFresh(r: Commit, file: File, sid: SessionId, f: FileId, base: ChunkId, content: Bytes, k: nat)
    requires IsCommit(r, sid, f, base, content, k)
    ensures Fresh(CommittedChunk(r, file))
  {
    var replicas := Normalized(r.replicas, file.id, r.chunk);
    var n :| n in HealthyReplicas(r.replicas);
    assert n in HealthyReplicas(replicas);
  }

  /** An accepted commit of the next part. */
  lemma CommitAdvances(s: State, r: Commit, sid: SessionId, f: FileId, base: ChunkId, content: Bytes, k: nat)
    requires Underway(s, sid, f, base, content, k) && k < ChunkCount(|content|)
    requires IsCommit(r, sid, f, base, content, k) && CommitChunk(s, r).Ok?
    ensures var t := CommitChunk(s, r).value;
            && Underway(t, sid, f, base, content, k + 1)
            && t.chunks == s.chunks[r.chunk := CommittedChunk(r, s.files[f])]
            && t.plans == s.plans && t.nodes == s.nodes
  {
    CommitRecords(s, r, sid, f, base, content, k);
    CommitEffect(s, r);
    var chunk := CommittedChunk(r, s.files[f]);
    CommitChunksOk(s.chunks, chunk);
    OneMorePart(s.chunks, f, base, content, k, chunk);
    CommittedIsFresh(r, s.files[f], sid, f, base, content, k);
  }

  // ---------------------------------------------------------------- complete and verify

  /** The parts of a file tile it. */
  lemma PartsTile(chunks: Chunks, f: FileId, base: ChunkId, content: Bytes)
    requires |content| > 0 && HasParts(chunks, f, base, content, ChunkCount(|content|))
    ensures Tiles(chunks, f, |content|)
  {
    var total := ChunkCount(|content|);
    PartSize(content, 0);
    assert IsPart(chunks, f, base, content, 0);
    forall c | Of(chunks, c, f) ensures End(chunks[c]) <= |content| {
      var i :| 0 <= i < total && c == PartId(base, i, total);
      assert IsPart(chunks, f, base, content, i);
      PartSize(content, i);
    }
    forall p | 0 <= p < |content| ensures CoveredAt(chunks, f, p) {
      var i := p / CHUNK_SIZE;
      PartSize(content, i);
      assert IsPart(chunks, f, base, content, i);
      assert Covers(chunks[PartId(base, i, total)], p);
    }
  }

  lemma EndOfContent(content: Bytes)
    ensures Start(content, ChunkCount(|content|)) == |content|
  {
    PartSize(content, ChunkCount(|content|));
  }

  lemma CompleteAccepted(s: State, sid: SessionId, f: FileId, base: ChunkId, content: Bytes, checksum: Checksum)
    requires |content| > 0 && ChecksumReady(checksum)
    requires Underway(s, sid, f, base, content, ChunkCount(|content|))
    ensures CompleteUpload(s, sid, Some(checksum), {FileUploading}).Ok?
  {
    EndOfContent(content);
    PartsTile(s.chunks, f, base, content);
  }

  /** What completion leaves for verification. */
  ghost predicate Completed(s: State, t: State, sid: SessionId, f: FileId, content: Bytes, checksum: Checksum) {
    && Transacts(s, t, sid, f) && t.chunks == WithStatus(s.chunks, f, ChunkVerifying)
    && t.files[f].status == FileVerifying && t.files[f].size == |content| && t.files[f].policy == s.files[f].policy
    && t.files[f].id == f
    && t.sessions[sid].status == UploadVerifying && t.sessions[sid].expectedSize == |content|
    && t.sessions[sid].confirmedOffset == t.sessions[sid].nextOffset == |content|
  }

  lemma CompleteRecords(s: State, sid: SessionId, f: FileId, content: Bytes, checksum: Checksum)
    requires |content| > 0 && ChecksumReady(checksum) && Records(s, sid, f, content, ChunkCount(|content|))
    requires CompleteUpload(s, sid, Some(checksum), {FileUploading}).Ok?
    ensures Completed(s, CompleteUpload(s, sid, Some(checksum), {FileUploading}).value, sid, f, content, checksum)
  {
    EndOfContent(content);
  }

  lemma Relabelling(chunks: Chunks, f: FileId, status: ChunkStatus)
    ensures SameCut(chunks, WithStatus(chunks, f, status), f)
  {
  }

  lemma FreshIsServable(chunks: Chunks, f: FileId)
    requires forall c :: Of(chunks, c, f) ==> Fresh(chunks[c])
    ensures var t := WithStatus(chunks, f, ChunkVerifying);
            Readable(t, f) && forall c :: Of(t, c, f) ==> ChunkServable(t[c], 1)
  {
    var t := WithStatus(chunks, f, ChunkVerifying);
    forall c | Of(t, c, f) ensures ChunkServable(t[c], 1) && t[c].status == ChunkVerifying {
      assert Fresh(chunks[c]) && t[c].replicas == chunks[c].replicas;
    }
  }

  lemma VerifyAccepted(s: State, t: State, sid: SessionId, f: FileId, base: ChunkId, content: Bytes, checksum: Checksum)
    requires |content| > 0 && ChecksumReady(checksum)
    requires Underway(s, sid, f, base, content, ChunkCount(|content|)) && Completed(s, t, sid, f, content, checksum)
    ensures VerifyUpload(t, sid, Some(checksum), {FileVerifying}).Ok?
  {
    Relabelling(s.chunks, f, ChunkVerifying);
    SameCutKeepsParts(s.chunks, t.chunks, f, base, content, ChunkCount(|content|));
    PartsTile(t.chunks, f, base, content);
    FreshIsServable(s.chunks, f);
    ReadyRecordsVerify(t, sid, f, content, checksum);
  }

  lemma ReadyRecordsVerify(t: State, sid: SessionId, f: FileId, content: Bytes, checksum: Checksum)
    requires |content| > 0 && ChecksumReady(checksum) && sid != "" && sid in t.sessions && f in t.files
    requires var u, file := t.sessions[sid], t.files[f];
             && u.fileId == f && u.status == UploadVerifying && u.expectedSize == |content|
             && u.confirmedOffset == u.nextOffset == |content|
             && file.id == f && file.status == FileVerifying && file.policy.minimum <= 1
    requires Tiles(t.chunks, f, |content|) && Readable(t.chunks, f)
    requires forall c :: Of(t.chunks, c, f) ==> ChunkServable(t.chunks[c], 1)
    ensures VerifyUpload(t, sid, Some(checksum), {FileVerifying}).Ok?
  {
  }

  /** Same chunks with the same replicas, up to status. */
  predicate SameChunks(a: Chunks, b: Chunks) {
    a.Keys == b.Keys && forall c :: c in a ==> b[c] == a[c].(status := b[c].status)
  }

  /** The chunks of other files stay as they are. */
  predicate OthersSame(a: Chunks, b: Chunks, f: FileId) {
    forall c :: c in a && a[c].fileId != f ==> c in b && b[c] == a[c]
  }

  lemma VerifyRecords(t: State, sid: SessionId, f: FileId, content: Bytes, checksum: Checksum)
    requires VerifyUpload(t, sid, Some(checksum), {FileVerifying}).Ok?
    requires sid in t.sessions && t.sessions[sid].fileId == f && t.sessions[sid].expectedSize == |content| > 0
    ensures var v := VerifyUpload(t, sid, Some(checksum), {FileVerifying}).value;
            && v.chunks == WithStatus(t.chunks, f, ChunkAvailable) && v.plans == t.plans && v.nodes == t.nodes
            && f in v.files && v.files[f].status == FileAvailable && v.files[f].size == |content|
  {
  }

  /** The last two calls are accepted, make the file available, and change no chunk but its status. */
  lemma FinishAccepted(s: State, sid: SessionId, f: FileId, base: ChunkId, content: Bytes, checksum: Checksum)
    requires |content| > 0 && ChecksumReady(checksum)
    requires Underway(s, sid, f, base, content, ChunkCount(|content|))
    ensures CompleteUpload(s, sid, Some(checksum), {FileUploading}).Ok?
    ensures var t := CompleteUpload(s, sid, Some(checksum), {FileUploading}).value;
            && ChunksOk(t.chunks)
               && (forall g :: g in t.files && g in s.files && s.files[g].id == g ==> t.files[g].id == g)
            && t.files.Keys == s.files.Keys
            && VerifyUpload(t, sid, Some(checksum), {FileVerifying}).Ok?
            && var v := VerifyUpload(t, sid, Some(checksum), {FileVerifying}).value;
               && SameChunks(s.chunks, v.chunks) && OthersSame(s.chunks, v.chunks, f)
               && v.plans == s.plans && v.nodes == s.nodes
               && f in v.files && v.files[f].status == FileAvailable && v.files[f].size == |content|
  {
    CompleteAccepted(s, sid, f, base, content, checksum);
    CompleteRecords(s, sid, f, content, checksum);
    var t := CompleteUpload(s, sid, Some(checksum), {FileUploading}).value;
    VerifyAccepted(s, t, sid, f, base, content, checksum);
    VerifyRecords(t, sid, f, content, checksum);
    assert Relabelled(s.chunks, t.chunks);
    RelabelledOk(s.chunks, t.chunks);
  }
}

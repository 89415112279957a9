/** Runs that mix uploads with namespace requests, and the session discipline. */
module UploadRuns {
  import opened Wrappers
  import opened Metadata
  import opened Namespace
  import opened NamespaceMutation
  import opened NamespaceRuns
  import opened Upload
  import opened UploadInvariants

  // ---------------------------------------------------------------- namespace requests

  predicate Submap<K, V(==)>(a: map<K, V>, b: map<K, V>) {
    forall k :: k in a ==> k in b && a[k] == b[k]
  }

  predicate SameUploadFields(a: File, b: File) {
    a.size == b.size && a.storedSize == b.storedSize && a.status == b.status && a.latestSession == b.latestSession
  }

  /** As far as uploads are concerned, `t` is `s` without some files, or with a new empty one. */
  predicate UploadView(s: State, t: State) {
    && Submap(t.chunks, s.chunks) && Submap(t.sessions, s.sessions)
    && (forall f :: f in t.files && f in s.files ==>
          SameUploadFields(s.files[f], t.files[f]) && SamePlaces(s.chunks, t.chunks, f))
    && (forall f :: f in t.files && f !in s.files ==>
          t.files[f].storedSize == 0 && t.files[f].status == FilePending)
  }

  lemma ViewKeepsChunks(a: Chunks, b: Chunks)
    requires ChunksOk(a) && Submap(b, a)
    ensures ChunksOk(b)
  {
    forall c, d | c in b && d in b && SameSlot(b[c], b[d]) ensures c == d {
      assert SameSlot(a[c], a[d]);
    }
  }

  lemma ViewKeeps(s: State, t: State)
    requires UploadsOk(s) && WellFormed(t) && UploadView(s, t)
    ensures UploadsOk(t)
  {
    ViewKeepsChunks(s.chunks, t.chunks);
    forall f | f in t.files
      ensures IsMaxEnd(t.chunks, f, t.files[f].storedSize)
      ensures t.files[f].status == FileAvailable ==> Tiles(t.chunks, f, t.files[f].size)
    {
      if f in s.files {
        SamePlacesKeep(s.chunks, t.chunks, f);
      } else {
        assert forall c :: !Of(t.chunks, c, f);
      }
    }
  }

  lemma ViewKeepsSessions(s: State, t: State)
    requires RefsOk(s) && SessionsOk(s) && UploadView(s, t)
    ensures SessionsOk(t)
  {
  }

  lemma PruneView(s: State, doomed: set<InodeId>)
    requires RefsOk(s)
    ensures UploadView(s, Prune(s, doomed))
  {
  }

  lemma CachesView(s: State, t: State)
    requires OnlyCachesDiffer(s, t)
    ensures UploadView(s, t)
  {
  }

  /** Only inodes change. */
  lemma InodesView(s: State, t: State)
    requires t == s.(inodes := t.inodes)
    ensures UploadView(s, t)
  {
  }

  lemma NewFileView(s: State, t: State, f: FileId)
    requires f !in s.files && f in t.files && t == s.(inodes := t.inodes, files := s.files[f := t.files[f]])
    requires t.files[f].storedSize == 0 && t.files[f].status == FilePending
    ensures UploadView(s, t)
  {
  }

  lemma CreateFileView(s: State, inodeId: InodeId, fileId: FileId, parent: InodeId, name: string, size: int,
                       policy: Option<ReplicaPolicy>)
    requires CreateFile(s, inodeId, fileId, parent, name, size, policy).Ok?
    ensures UploadView(s, CreateFile(s, inodeId, fileId, parent, name, size, policy).value)
  {
    CreateFileEffect(s, inodeId, fileId, parent, name, size, policy);
    NewFileView(s, CreateFile(s, inodeId, fileId, parent, name, size, policy).value, fileId);
  }

  lemma DeleteFileView(s: State, fileId: FileId)
    requires WellFormed(s) && DeleteFile(s, fileId).Ok?
    ensures UploadView(s, DeleteFile(s, fileId).value)
  {
    DeleteFileIsPrune(s, fileId);
    PruneView(s, {s.files[fileId].inodeId});
  }

  lemma NamespaceView(s: State, r: Request)
    requires WellFormed(s) && Outcome(s, r).Ok?
    ensures UploadView(s, Outcome(s, r).value)
  {
    var t := Outcome(s, r).value;
    match r
    case MakeDirectory(_, _, _) => InodesView(s, t);
    case MakeFile(inodeId, fileId, parent, name, size, policy) =>
      CreateFileView(s, inodeId, fileId, parent, name, size, policy);
    case Rename(id, name) =>
      RenameEffect(s, id, name);
      CachesView(s, t);
    case Move(id, target, name) =>
      MoveEffect(s, id, target, name);
      CachesView(s, t);
    case RemoveFile(fileId) => DeleteFileView(s, fileId);
    case RemoveDirectory(id, recursive) =>
      if recursive {
        PruneView(s, Subtree(s.inodes, id));
      } else {
        InodesView(s, t);
      }
  }

  // ---------------------------------------------------------------- runs

  datatype Call =
    | NamespaceCall(request: Request)
    | StartCall(session: SessionId, file: FileId, expectedSize: int, expectedChecksum: Option<Checksum>)
    | CommitCall(commit: Commit)
    | CompleteCall(session: SessionId, finalChecksum: Option<Checksum>, statuses: set<FileStatus>)
    | VerifyCall(session: SessionId, verified: Option<Checksum>, statuses: set<FileStatus>)
    | FailCall(failure: Failure)
    | RetryCall(session: SessionId, statuses: set<FileStatus>)

  ghost function CallOutcome(s: State, c: Call): Result<State> {
    match c
    case NamespaceCall(r) => Outcome(s, r)
    case StartCall(session, file, expectedSize, expectedChecksum) =>
      StartUpload(s, session, file, expectedSize, expectedChecksum)
    case CommitCall(commit) => CommitChunk(s, commit)
    case CompleteCall(session, finalChecksum, statuses) => CompleteUpload(s, session, finalChecksum, statuses)
    case VerifyCall(session, verified, statuses) => VerifyUpload(s, session, verified, statuses)
    case FailCall(failure) => FailVerification(s, failure)
    case RetryCall(session, statuses) => RetryUpload(s, session, statuses)
  }

  ghost function Perform(s: State, c: Call): State {
    var o := CallOutcome(s, c);
    if o.Ok? then o.value else s
  }

  ghost function PerformAll(s: State, calls: seq<Call>): State
    decreases |calls|
  {
    if calls == [] then s else PerformAll(Perform(s, calls[0]), calls[1..])
  }

  /** What callers must respect: names without slashes, and no chunk id used for two files. */
  ghost predicate Polite(s: State, c: Call) {
    && (c.NamespaceCall? ==> SlashFree(c.request))
    && (c.CommitCall? ==> OwnChunk(s, c.commit))
  }

  ghost predicate AllPolite(s: State, calls: seq<Call>)
    decreases |calls|
  {
    calls == [] || (Polite(s, calls[0]) && AllPolite(Perform(s, calls[0]), calls[1..]))
  }

  lemma CallKeeps(s: State, c: Call)
    requires UploadsOk(s) && Polite(s, c)
    ensures UploadsOk(Perform(s, c))
  {
    if CallOutcome(s, c).Ok? {
      match c
      case NamespaceCall(r) =>
        NamespaceView(s, r);
        ServeKeeps(s, r);
        ViewKeeps(s, Serve(s, r));
      case StartCall(session, file, expectedSize, expectedChecksum) =>
        StartKeeps(s, session, file, expectedSize, expectedChecksum);
      case CommitCall(commit) => CommitKeeps(s, commit);
      case CompleteCall(session, finalChecksum, statuses) => CompleteKeeps(s, session, finalChecksum, statuses);
      case VerifyCall(session, verified, statuses) => VerifyKeeps(s, session, verified, statuses);
      case FailCall(failure) => FailKeeps(s, failure);
      case RetryCall(session, statuses) => RetryKeeps(s, session, statuses);
    }
  }

  /** In every reachable state the chunks of an available file tile it, and every file's stored
      size is its largest chunk end. */
  lemma {:induction false} UploadsStayOk(s: State, calls: seq<Call>)
    requires UploadsOk(s) && AllPolite(s, calls)
    ensures UploadsOk(PerformAll(s, calls))
    decreases |calls|
  {
    if calls != [] {
      CallKeeps(s, calls[0]);
      UploadsStayOk(Perform(s, calls[0]), calls[1..]);
    }
  }

  lemma BootedUploadsOk()
    ensures UploadsOk(Booted()) && SessionsOk(Booted())
  {
  }

  // ---------------------------------------------------------------- session discipline

  /** Complete and retry put their session back to work, and so does a retryable failure; they
      should name the file's latest session. */
  predicate Revives(c: Call) {
    || c.CompleteCall?
    || c.RetryCall?
    || (c.FailCall? && c.failure.retryable && c.failure.attempt < c.failure.maxAttempts)
  }

  function Session(c: Call): SessionId
    requires Revives(c)
  {
    if c.FailCall? then c.failure.session else c.session
  }

  predicate Disciplined(s: State, c: Call) {
    Revives(c) && Session(c) in s.sessions && s.sessions[Session(c)].fileId in s.files ==>
      s.files[s.sessions[Session(c)].fileId].latestSession == Session(c)
  }

  /** A transaction on the latest session, or one that ends its session, keeps the discipline. */
  lemma TransactSessions(s: State, t: State, sid: SessionId, f: FileId)
    requires SessionsOk(s) && Transacts(s, t, sid, f)
    ensures SessionsOk(t) <==> s.files[f].latestSession == sid || TerminalUpload(t.sessions[sid].status)
  {
    assert t.sessions[sid].fileId in t.files;
  }

  lemma StartSessions(s: State, sid: SessionId, fid: FileId, expectedSize: int, expectedChecksum: Option<Checksum>)
    requires SessionsOk(s) && StartUpload(s, sid, fid, expectedSize, expectedChecksum).Ok?
    ensures SessionsOk(StartUpload(s, sid, fid, expectedSize, expectedChecksum).value)
  {
  }

  lemma CommitSessions(s: State, r: Commit)
    requires SessionsOk(s) && CommitChunk(s, r).Ok?
    ensures SessionsOk(CommitChunk(s, r).value)
  {
    CommitEffect(s, r);
    TransactSessions(s, CommitChunk(s, r).value, r.session, s.sessions[r.session].fileId);
  }

  lemma CompleteSessions(s: State, sid: SessionId, finalChecksum: Option<Checksum>, statuses: set<FileStatus>)
    requires SessionsOk(s) && CompleteUpload(s, sid, finalChecksum, statuses).Ok?
    ensures SessionsOk(CompleteUpload(s, sid, finalChecksum, statuses).value)
            <==> s.files[s.sessions[sid].fileId].latestSession == sid
  {
    CompleteEffect(s, sid, finalChecksum, statuses);
    TransactSessions(s, CompleteUpload(s, sid, finalChecksum, statuses).value, sid, s.sessions[sid].fileId);
  }

  lemma VerifySessions(s: State, sid: SessionId, verified: Option<Checksum>, statuses: set<FileStatus>)
    requires SessionsOk(s) && VerifyUpload(s, sid, verified, statuses).Ok?
    ensures SessionsOk(VerifyUpload(s, sid, verified, statuses).value)
  {
    VerifyEffect(s, sid, verified, statuses);
    TransactSessions(s, VerifyUpload(s, sid, verified, statuses).value, sid, s.sessions[sid].fileId);
  }

  lemma FailSessions(s: State, r: Failure)
    requires SessionsOk(s) && FailVerification(s, r).Ok?
    ensures SessionsOk(FailVerification(s, r).value)
            <==> (!(r.retryable && r.attempt < r.maxAttempts)
                  || s.files[s.sessions[r.session].fileId].latestSession == r.session)
  {
    FailEffect(s, r);
    TransactSessions(s, FailVerification(s, r).value, r.session, s.sessions[r.session].fileId);
  }

  lemma RetrySessions(s: State, sid: SessionId, statuses: set<FileStatus>)
    requires SessionsOk(s) && RetryUpload(s, sid, statuses).Ok?
    ensures SessionsOk(RetryUpload(s, sid, statuses).value)
            <==> s.files[s.sessions[sid].fileId].latestSession == sid
  {
    RetryEffect(s, sid, statuses);
    TransactSessions(s, RetryUpload(s, sid, statuses).value, sid, s.sessions[sid].fileId);
  }

  lemma NamespaceSessions(s: State, r: Request)
    requires WellFormed(s) && SessionsOk(s) && CallOutcome(s, NamespaceCall(r)).Ok?
    ensures SessionsOk(Perform(s, NamespaceCall(r)))
  {
    NamespaceView(s, r);
    ViewKeepsSessions(s, Perform(s, NamespaceCall(r)));
  }

  /** An accepted call keeps "at most one unfinished session per file, and it is the latest"
      exactly when it does not revive an older session. */
  lemma SessionsKeptIff(s: State, c: Call)
    requires WellFormed(s) && SessionsOk(s) && CallOutcome(s, c).Ok?
    ensures SessionsOk(Perform(s, c)) <==> Disciplined(s, c)
  {
    match c
    case NamespaceCall(r) => NamespaceSessions(s, r);
    case StartCall(session, file, expectedSize, expectedChecksum) =>
      StartSessions(s, session, file, expectedSize, expectedChecksum);
    case CommitCall(commit) => CommitSessions(s, commit);
    case CompleteCall(session, finalChecksum, statuses) => CompleteSessions(s, session, finalChecksum, statuses);
    case VerifyCall(session, verified, statuses) => VerifySessions(s, session, verified, statuses);
    case FailCall(failure) => FailSessions(s, failure);
    case RetryCall(session, statuses) => RetrySessions(s, session, statuses);
  }

  ghost predicate AllDisciplined(s: State, calls: seq<Call>)
    decreases |calls|
  {
    calls == [] || (Disciplined(s, calls[0]) && AllDisciplined(Perform(s, calls[0]), calls[1..]))
  }

  /** Over runs that only revive latest sessions, the discipline holds in every state. */
  lemma {:induction false} SessionsStayOk(s: State, calls: seq<Call>)
    requires UploadsOk(s) && SessionsOk(s) && AllPolite(s, calls) && AllDisciplined(s, calls)
    ensures SessionsOk(PerformAll(s, calls))
    decreases |calls|
  {
    if calls != [] {
      if CallOutcome(s, calls[0]).Ok? {
        SessionsKeptIff(s, calls[0]);
      }
      CallKeeps(s, calls[0]);
      SessionsStayOk(Perform(s, calls[0]), calls[1..]);
    }
  }

  /** From bootstrap on: a file has at most one unfinished upload session, and that one is the
      session its record names as latest. */
  lemma OneActiveSession(calls: seq<Call>, u: SessionId, v: SessionId)
    requires AllPolite(Booted(), calls) && AllDisciplined(Booted(), calls)
    ensures var t := PerformAll(Booted(), calls);
            && u in t.sessions && v in t.sessions && t.sessions[u].fileId == t.sessions[v].fileId
            && !TerminalUpload(t.sessions[u].status) && !TerminalUpload(t.sessions[v].status)
            ==> u == v && t.sessions[u].fileId in t.files && t.files[t.sessions[u].fileId].latestSession == u
  {
    BootedUploadsOk();
    SessionsStayOk(Booted(), calls);
    UploadsStayOk(Booted(), calls);
  }
}

/** Calls after which the upload guarantees that do not hold in general fail. */
module UploadScenarios {
  import opened Wrappers
  import opened Metadata
  import opened Namespace
  import opened Upload
  import opened UploadInvariants
  import opened UploadRuns

  function Leaf(i: InodeId, f: FileId): Inode {
    Inode(i, ROOT_INODE_ID, f, "/" + f, f, FileInode, InodeActive)
  }

  /** Two new files in the root directory. */
  function TwoFiles(): State {
    var root := Inode(ROOT_INODE_ID, "", "", "/", "", DirectoryInode, InodeActive);
    State(map[ROOT_INODE_ID := root, "i" := Leaf("i", "f"), "j" := Leaf("j", "g")],
          map["f" := NewFile("f", Leaf("i", "f"), 0, None), "g" := NewFile("g", Leaf("j", "g"), 0, None)],
          map[], map[], map[], map[])
  }

  lemma TwoFilesOk()
    ensures UploadsOk(TwoFiles()) && SessionsOk(TwoFiles())
  {
    TwoFilesLinked(TwoFiles().inodes);
    TwoFilesMatch(TwoFiles());
    NewFilesOk(TwoFiles());
  }

  lemma NewFilesOk(s: State)
    requires WellFormed(s) && s.chunks == map[] && s.sessions == map[]
    requires forall f :: f in s.files ==> s.files[f].storedSize == 0 && s.files[f].status == FilePending
    ensures UploadsOk(s) && SessionsOk(s)
  {
  }

  lemma TwoFilesMatch(s: State)
    requires s == TwoFiles()
    ensures FilesMatch(s)
  {
    assert Mirrors(s.inodes, s.files["f"]) && Mirrors(s.inodes, s.files["g"]);
  }

  lemma TwoFilesLinked(inodes: Inodes)
    requires inodes == TwoFiles().inodes
    ensures Linked(inodes)
  {
    assert "/" + "f" == "/f" && "/" + "g" == "/g" && "f"[0] != "g"[0];
    assert Attached(inodes, "i") && Attached(inodes, "j");
  }

  lemma UnfoldCalls(s: State, a: Call, b: Call, c: Call, d: Call)
    ensures PerformAll(s, [a, b, c, d]) == Perform(Perform(Perform(Perform(s, a), b), c), d)
  {
    assert [a, b, c, d][1..] == [b, c, d] && [b, c, d][1..] == [c, d] && [c, d][1..] == [d] && [d][1..] == [];
    assert PerformAll(Perform(s, a), [b, c, d]) == PerformAll(Perform(Perform(s, a), b), [c, d]);
    assert PerformAll(Perform(Perform(s, a), b), [c, d]) == PerformAll(Perform(Perform(Perform(s, a), b), c), [d]);
  }

  // ---------------------------------------------------------------- two unfinished sessions

  function Fails(session: SessionId, retryable: bool): Call {
    FailCall(Failure(session, "", None, {}, "E", retryable, 0, 1))
  }

  lemma Starts(s: State, u: SessionId, f: FileId, size: int)
    requires u != "" && f != "" && size >= 0 && f in s.files && u !in s.sessions
    requires s.files[f].status != FileDeleting && s.files[f].status != FileDeleted && !ActiveSession(s, f)
    ensures var t := Perform(s, StartCall(u, f, size, None));
            && t.sessions == s.sessions[u := Session(u, f, UploadPending, size, 0, 0, "", None, None, 0, "")]
            && t.files == s.files[f := s.files[f].(status := FileUploading, size := size, latestSession := u)]
            && t.chunks == s.chunks
  {
  }

  lemma SessionFails(s: State, u: SessionId, retryable: bool)
    requires u != "" && u in s.sessions && s.sessions[u].fileId in s.files
    ensures var t, f := Perform(s, Fails(u, retryable)), s.sessions[u].fileId;
            && t.sessions == s.sessions[u := t.sessions[u]] && t.sessions[u].fileId == f
            && t.sessions[u].status == (if retryable then UploadRetrying else UploadFailed)
            && t.files.Keys == s.files.Keys && t.files[f].status == FileFailed
  {
  }

  /** A late retryable failure of an old session revives it beside the session that replaced it. */
  lemma TwoUnfinishedSessions()
    ensures UploadsOk(TwoFiles()) && SessionsOk(TwoFiles())
    ensures var t := PerformAll(TwoFiles(),
                                [StartCall("u", "f", 4, None), Fails("u", false), StartCall("v", "f", 4, None),
                                             Fails("u", true)]);
            BothUnfinished(t) && !SessionsOk(t)
  {
    TwoFilesOk();
    var s0 := TwoFiles();
    Starts(s0, "u", "f", 4);
    var s1 := Perform(s0, StartCall("u", "f", 4, None));
    SessionFails(s1, "u", false);
    LateFailure(Perform(s1, Fails("u", false)));
    UnfoldCalls(s0, StartCall("u", "f", 4, None), Fails("u", false), StartCall("v", "f", 4, None), Fails("u", true));
  }

  predicate BothUnfinished(t: State) {
    && "u" in t.sessions && "v" in t.sessions && "f" in t.files
    && t.sessions["u"].fileId == t.sessions["v"].fileId == "f"
    && !TerminalUpload(t.sessions["u"].status) && !TerminalUpload(t.sessions["v"].status)
  }

  lemma LateFailure(s: State)
    requires s.sessions.Keys == {"u"} && s.sessions["u"].fileId == "f" && s.sessions["u"].status == UploadFailed
    requires "f" in s.files && s.files["f"].status == FileFailed
    ensures var t := Perform(Perform(s, StartCall("v", "f", 4, None)), Fails("u", true));
            BothUnfinished(t) && !SessionsOk(t)
  {
    Starts(s, "v", "f", 4);
    var s3 := Perform(s, StartCall("v", "f", 4, None));
    SessionFails(s3, "u", true);
    var t := Perform(s3, Fails("u", true));
    assert t.sessions["v"] == s3.sessions["v"];
    NotBoth(t);
  }

  lemma NotBoth(t: State)
    requires BothUnfinished(t)
    ensures !SessionsOk(t)
  {
    assert t.files["f"].latestSession != "u" || t.files["f"].latestSession != "v";
  }

  // ---------------------------------------------------------------- one id for two files

  function Commits(u: SessionId): Call {
    CommitCall(Commit(u, "c", 0, 0, 4, None, None, map[], None))
  }

  /** Session `u` of file `f` is open, and the file has no chunks. */
  ghost predicate Open(s: State, u: SessionId, f: FileId) {
    && u != "" && u in s.sessions && s.sessions[u] == Session(u, f, UploadPending, 4, 0, 0, "", None, None, 0, "")
    && f != "" && f in s.files && s.files[f].id == f && s.files[f].latestSession == u
    && forall c :: !Of(s.chunks, c, f)
  }

  lemma CommitAccepted(s: State, u: SessionId, f: FileId)
    requires Open(s, u, f)
    ensures CommitRefused(s, Commits(u).commit).None?
  {
    assert !PlaceTaken(s.chunks, f, "c", 0, 0);
  }

  lemma CommitTakes(s: State, u: SessionId, f: FileId)
    requires Open(s, u, f)
    ensures var t := Perform(s, Commits(u));
            && t.chunks == s.chunks["c" := t.chunks["c"]] && t.chunks["c"].fileId == f && End(t.chunks["c"]) == 4
            && t.files == s.files[f := t.files[f]] && t.files[f].storedSize == StoredSize(t.chunks, f)
            && t.sessions.Keys == s.sessions.Keys
               && (forall x :: x in s.sessions && x != u ==> t.sessions[x] == s.sessions[x])
            && t.sessions[u].fileId == f
  {
    CommitAccepted(s, u, f);
    assert CommitChunk(s, Commits(u).commit).Ok?;
  }

  /** A commit under the only chunk id of another file leaves that file's stored size behind. */
  lemma SecondCommit(s: State)
    requires s.sessions.Keys == {"u"} && s.sessions["u"].fileId == "g" && s.chunks.Keys == {"c"}
    requires "g" in s.files && s.files["g"].storedSize == 4 && s.chunks["c"].fileId == "g"
    requires "f" in s.files && s.files["f"].id == "f" && s.files["f"].status == FilePending
    ensures var t := Perform(Perform(s, StartCall("v", "f", 4, None)), Commits("v"));
            && "g" in t.files && t.files["g"].storedSize == 4 && (forall c :: !Of(t.chunks, c, "g")) && !StoredExact(t)
  {
    Starts(s, "v", "f", 4);
    var s1 := Perform(s, StartCall("v", "f", 4, None));
    CommitTakes(s1, "v", "f");
    var t := Perform(s1, Commits("v"));
    assert t.files["g"] == s.files["g"] && forall c :: !Of(t.chunks, c, "g");
    assert !IsMaxEnd(t.chunks, "g", 4);
  }

  /** Files f and g are given the same chunk id: g keeps its stored size and has no chunk left. */
  lemma ChunkTakenAway()
    ensures var t := PerformAll(TwoFiles(), [StartCall("u", "g", 4, None), Commits("u"), StartCall("v", "f", 4, None),
                                             Commits("v")]);
            && "g" in t.files && t.files["g"].storedSize == 4 && (forall c :: !Of(t.chunks, c, "g")) && !StoredExact(t)
  {
    var s0 := TwoFiles();
    Starts(s0, "u", "g", 4);
    var s1 := Perform(s0, StartCall("u", "g", 4, None));
    CommitTakes(s1, "u", "g");
    var s2 := Perform(s1, Commits("u"));
    assert Of(s2.chunks, "c", "g") && s2.files["g"].storedSize == 4;
    SecondCommit(s2);
    UnfoldCalls(s0, StartCall("u", "g", 4, None), Commits("u"), StartCall("v", "f", 4, None), Commits("v"));
  }
}

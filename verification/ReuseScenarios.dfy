/** Calls and writes under a chunk id that is used for two files, and what becomes of the files. */
module ReuseScenarios {
  import opened Wrappers
  import opened Metadata
  import opened Strings
  import opened Sorting
  import opened Placement
  import opened Coordinator
  import opened ReplicaProtocol
  import opened ReplicaSafety
  import opened Upload
  import opened UploadInvariants
  import opened UploadRuns
  import opened UploadFlow
  import opened Parts
  import opened GatewayDownload
  import opened GatewayUpload
  import UploadScenarios
  import ReplicaScenarios

  const SUM := Checksum("sha256", "", true, Some(0))

  // ---------------------------------------------------------------- one-byte uploads under the id "p"

  /** A file that nobody has started to upload. */
  ghost predicate Untouched(s: State, f: FileId) {
    && f != "" && f in s.files && s.files[f].id == f && s.files[f].status == FilePending
    && s.files[f].policy == ReplicaPolicy(DEFAULT_REPLICA_COUNT, MINIMUM_READABLE_REPLICA_COUNT, 0)
    && (forall u :: u in s.sessions ==> s.sessions[u].fileId != f)
    && (forall c :: !Of(s.chunks, c, f))
  }

  function Starts(u: SessionId, f: FileId): Call {
    StartCall(u, f, 1, Some(SUM))
  }

  function Commits(u: SessionId, replicas: ReplicaSet): Call {
    CommitCall(Commit(u, "p", 0, 0, 1, None, Some(SUM), replicas, None))
  }

  lemma OnePart(b: byte)
    ensures ChunkCount(|[b]|) == 1 && PartId("p", 0, 1) == "p" && Part([b], 0) == [b]
    ensures Start([b], 0) == 0 && Start([b], 1) == 1
  {
  }

  lemma Opens(s: State, u: SessionId, f: FileId, b: byte)
    requires Untouched(s, f) && u != "" && u !in s.sessions && ChunksOk(s.chunks)
    ensures var t := Perform(s, Starts(u, f));
            && Underway(t, u, f, "p", [b], 0)
            && t == s.(sessions := s.sessions[u := t.sessions[u]], files := s.files[f := t.files[f]])
  {
    OnePart(b);
    assert !ActiveSession(s, f);
  }

  lemma CommitGoes(s: State, u: SessionId, f: FileId, b: byte, replicas: ReplicaSet)
    requires Underway(s, u, f, "p", [b], 0) && HealthyReplicas(replicas) != {}
    requires CanNormalize(replicas, f, "p") && Normalized(replicas, f, "p") == replicas
    ensures var t := Perform(s, Commits(u, replicas));
            && Underway(t, u, f, "p", [b], 1) && Committed(s, t, "p", replicas) && t.chunks["p"].fileId == f
            && CommitChunk(s, Commits(u, replicas).commit) == Ok(t)
  {
    OnePart(b);
    var r := Commits(u, replicas).commit;
    assert IsCommit(r, u, f, "p", [b], 0);
    CommitAccepted(s, r, u, f, "p", [b], 0);
    CommitAdvances(s, r, u, f, "p", [b], 0);
  }

  // ---------------------------------------------------------------- three nodes, two files

  function Base(): State {
    UploadScenarios.TwoFiles().(nodes := ReplicaScenarios.Servers())
  }

  /** Best first: B has the most free space, A the least. */
  const TARGETS: seq<NodeId> := ["B", "C", "A"]

  function Opening(): seq<Call> {
    [Starts("v", "g"), Starts("u", "f")]
  }

  /** Both files are being uploaded, and nothing is stored. */
  ghost predicate BothUnderway(s: State) {
    && Underway(s, "u", "f", "p", [2], 0) && Underway(s, "v", "g", "p", [9], 0)
    && s.nodes == ReplicaScenarios.Servers() && s.chunks == map[] && s.plans == map[]
  }

  lemma BaseIsUntouched()
    ensures Untouched(Base(), "f") && Untouched(Base(), "g") && Base().sessions == map[] && Base().chunks == map[]
    ensures Base().nodes == ReplicaScenarios.Servers() && Base().plans == map[]
  {
  }

  lemma OpensSecond(s: State)
    requires Underway(s, "v", "g", "p", [9], 0) && Untouched(s, "f") && s.sessions.Keys == {"v"}
    requires s.nodes == ReplicaScenarios.Servers() && s.chunks == map[] && s.plans == map[]
    ensures BothUnderway(Perform(s, Starts("u", "f")))
  {
    Opens(s, "u", "f", 2);
    OnePart(9);
  }

  lemma OpensBoth() returns (s: State)
    ensures s == PerformAll(Base(), Opening()) && BothUnderway(s)
  {
    BaseIsUntouched();
    Opens(Base(), "v", "g", 9);
    var s1 := Perform(Base(), Starts("v", "g"));
    s := Perform(s1, Starts("u", "f"));
    OpensSecond(s1);
    assert Opening()[1..] == [Starts("u", "f")] && [Starts("u", "f")][1..] == [];
    assert PerformAll(Base(), Opening()) == PerformAll(s1, [Starts("u", "f")]) == PerformAll(s, []);
  }

  /** A ready primary on B, and secondaries on A and C that are ready or pending. */
  function OnAll(f: FileId, ready: bool): ReplicaSet {
    map["B" := UploadedReplica(f, "p", "B", Primary, true, SUM, 1),
        "C" := UploadedReplica(f, "p", "C", Secondary, ready, SUM, 1),
        "A" := UploadedReplica(f, "p", "A", Secondary, ready, SUM, 1)]
  }

  lemma OnAllIsNormal(f: FileId, ready: bool)
    requires f != ""
    ensures CanNormalize(OnAll(f, ready), f, "p") && Normalized(OnAll(f, ready), f, "p") == OnAll(f, ready)
    ensures ReadyNodes(OnAll(f, ready)) == if ready then {"A", "B", "C"} else {"B"}
    ensures HealthyReplicas(OnAll(f, ready)) != {}
    ensures OnAll(f, ready).Keys == Elements(TARGETS)
  {
    assert "B" in OnAll(f, ready) && "B" in HealthyReplicas(OnAll(f, ready));
    assert forall n :: n in TARGETS <==> n == "B" || n == "C" || n == "A";
  }

  lemma AllEligible(s: State)
    requires s.nodes == ReplicaScenarios.Servers()
    ensures var a, b, c := s.nodes["A"], s.nodes["B"], s.nodes["C"];
            && EligibleNodes(NodeSet(s), {}, 0) == {a, b, c} && |{a, b, c}| == 3
            && Better(b, c) && Better(c, a) && Better(b, a)
  {
    ReplicaScenarios.HostIsAddress();
    var a, b, c := s.nodes["A"], s.nodes["B"], s.nodes["C"];
    assert NodeSet(s) == {a, b, c};
    assert Eligible(a, {}, 0) && Eligible(b, {}, 0) && Eligible(c, {}, 0);
    assert a != b && a != c && b != c;
  }

  lemma TargetsAreTargets(s: State)
    requires s.nodes == ReplicaScenarios.Servers()
    ensures IsTargets(s, DEFAULT_REPLICA_COUNT, TARGETS)
  {
    AllEligible(s);
    var nodes := [s.nodes["B"], s.nodes["C"], s.nodes["A"]];
    assert Elements(nodes) == {s.nodes["A"], s.nodes["B"], s.nodes["C"]};
    assert IsPlacement(NodeSet(s), {}, 0, DEFAULT_REPLICA_COUNT, nodes) && NamesOf(nodes, TARGETS);
  }

  lemma TargetsAreUp(nodes: map<NodeId, Node>)
    requires nodes == ReplicaScenarios.Servers()
    ensures Distinct(TARGETS) && forall n :: n in TARGETS ==> n in nodes && !Blank(nodes[n].address)
  {
    ReplicaScenarios.HostIsAddress();
  }

  /** What the gateway does for a part: it writes to its targets and commits the record. */
  lemma Places(w: World, t: State, b: byte, targets: seq<NodeId>, net: Net, replicas: ReplicaSet)
    requires Committed(w.db, t, "p", replicas) && targets != [] && Distinct(targets)
    requires forall n :: n in targets ==> n in w.db.nodes && !Blank(w.db.nodes[n].address)
    requires HealthyReplicas(replicas) != {}
    requires replicas.Keys == Elements(targets) && ReadyNodes(replicas) <= Written(targets, net)
    ensures Placed(w, World(t, CopyBytes(w.disks, "p", [b], Written(targets, net))), "p", [b], targets, net)
  {
    PartPlaced(w, World(t, CopyBytes(w.disks, "p", [b], Written(targets, net))), "p", [b], targets, PutStored, net,
               replicas);
  }

  lemma PlacesF(w: World, ready: bool, net: Net) returns (v: World)
    requires BothUnderway(w.db) && ReadyNodes(OnAll("f", ready)) <= Written(TARGETS, net)
    ensures v == World(Perform(w.db, Commits("u", OnAll("f", ready))),
                       CopyBytes(w.disks, "p", [2], Written(TARGETS, net)))
    ensures IsTargets(w.db, DEFAULT_REPLICA_COUNT, TARGETS) && Placed(w, v, "p", [2], TARGETS, net)
    ensures Underway(v.db, "u", "f", "p", [2], 1) && Committed(w.db, v.db, "p", OnAll("f", ready))
    ensures v.db.chunks["p"].fileId == "f"
  {
    v := World(Perform(w.db, Commits("u", OnAll("f", ready))), CopyBytes(w.disks, "p", [2], Written(TARGETS, net)));
    OnAllIsNormal("f", ready);
    TargetsAreUp(w.db.nodes);
    TargetsAreTargets(w.db);
    CommitGoes(w.db, "u", "f", 2, OnAll("f", ready));
    Places(w, v.db, 2, TARGETS, net, OnAll("f", ready));
  }

  // ---------------------------------------------------------------- a stale copy

  /** The bytes of the other upload reach B and C, but no answer comes back. */
  const UNANSWERED := Net(false, {"C"}, {})

  /** The secondaries of this upload are not written, and that is the answer. */
  const ONLY_PRIMARY := Net(true, {}, {})

  const ALL_WRITTEN := Net(true, {"A", "C"}, {"A", "C"})

  lemma WrittenSets()
    ensures Reached(TARGETS, PutStored, UNANSWERED) == {"B", "C"} && Written(TARGETS, ONLY_PRIMARY) == {"B"}
    ensures Reached(TARGETS, PutStored, Net(false, {}, {})) == {"B"}
    ensures Written(TARGETS, ALL_WRITTEN) == {"A", "B", "C"}
  {
    assert TARGETS[1..] == ["C", "A"];
    assert Elements(TARGETS[1..]) == {"A", "C"};
  }

  /** The upload of file g under the id "p" failed and left its bytes on C.  File f is uploaded under
      the same id, its write to C fails, and a reader that reaches only C gets the bytes of g. */
  lemma StaleCopy() returns (w: World, v: World)
    ensures w == World(PerformAll(Base(), Opening()),
                       CopyBytes(map[], "p", [1], Reached(TARGETS, PutStored, UNANSWERED)))
    ensures v == World(Perform(w.db, Commits("u", OnAll("f", false))),
                       CopyBytes(w.disks, "p", [2], Written(TARGETS, ONLY_PRIMARY)))
    ensures IsTargets(w.db, DEFAULT_REPLICA_COUNT, TARGETS) && Placed(w, v, "p", [2], TARGETS, ONLY_PRIMARY)
    ensures Underway(v.db, "u", "f", "p", [2], 1) && !CopiesAgree(v, "p", [2])
    ensures FirstAnswer(v, {("p", "C")}, "p", ["B", "A", "C"]) == Some([1])
  {
    var s := OpensBoth();
    WrittenSets();
    OnAllIsNormal("f", false);
    w := World(s, CopyBytes(map[], "p", [1], {"B", "C"}));
    v := PlacesF(w, false, ONLY_PRIMARY);
    StaleOnC(w, v);
  }

  lemma StaleOnC(w: World, v: World)
    requires w.disks == CopyBytes(map[], "p", [1], {"B", "C"}) && Placed(w, v, "p", [2], TARGETS, ONLY_PRIMARY)
    requires v.db.nodes == ReplicaScenarios.Servers()
    ensures !CopiesAgree(v, "p", [2])
    ensures FirstAnswer(v, {("p", "C")}, "p", ["B", "A", "C"]) == Some([1])
  {
    WrittenSets();
    DiskAfterCopy(w, v.db, "p", [2], {"B"}, "C");
    assert Disk(w, "C") == map["p" := [1]];
    assert !NoStaleCopy(w, "p", [2], TARGETS, ONLY_PRIMARY) by {
      assert "C" in TARGETS;
    }
    PlacedReadsExactIff(w, v, "p", [2], TARGETS, ONLY_PRIMARY);
    OnlyCAnswers(v, [1]);
  }

  lemma OnlyCAnswers(w: World, data: Bytes)
    requires w.db.nodes == ReplicaScenarios.Servers() && "p" in Disk(w, "C") && Disk(w, "C")["p"] == data
    ensures FirstAnswer(w, {("p", "C")}, "p", ["B", "A", "C"]) == Some(data)
  {
    ReplicaScenarios.HostIsAddress();
    assert ["B", "A", "C"][1..] == ["A", "C"] && ["A", "C"][1..] == ["C"];
    assert FirstAnswer(w, {("p", "C")}, "p", ["C"]) == Some(data);
    assert FirstAnswer(w, {("p", "C")}, "p", ["A", "C"]) == Some(data);
  }

  // ---------------------------------------------------------------- written over

  /** Part "p" of file f is stored on all three nodes. */
  lemma StoresF() returns (w: World)
    ensures w == World(Perform(PerformAll(Base(), Opening()), Commits("u", OnAll("f", true))),
                       CopyBytes(map[], "p", [2], Written(TARGETS, ALL_WRITTEN)))
    ensures Underway(w.db, "u", "f", "p", [2], 1) && w.db.nodes == ReplicaScenarios.Servers()
    ensures PartHeld(w, "p", [2]) && "B" in ReadyNodes(Replicas(w.db, "p")) && w.db.chunks["p"].id == "p"
  {
    var s := OpensBoth();
    WrittenSets();
    OnAllIsNormal("f", true);
    w := PlacesF(World(s, map[]), true, ALL_WRITTEN);
    PlacedIsHeld(World(s, map[]), w, "p", [2], TARGETS, ALL_WRITTEN);
  }

  /** Another file is uploaded under the same id.  Its PUT to B is stored, the replicate request is
      not answered, nothing is committed; and a download of the first file gives the other's bytes. */
  lemma WrittenOver() returns (w: World, v: World)
    ensures w == World(Perform(PerformAll(Base(), Opening()), Commits("u", OnAll("f", true))),
                       CopyBytes(map[], "p", [2], Written(TARGETS, ALL_WRITTEN)))
    ensures PartHeld(w, "p", [2])
    ensures v == Step(w, UploadAction(w.db.chunks["p"], [9], Reached(TARGETS, PutStored, Net(false, {}, {})), false,
                                      w.db))
    ensures v.db == w.db && !AllHold(v, "p", [2])
    ensures FirstAnswer(v, {("p", "B")}, "p", ["B", "A", "C"]) == Some([9])
  {
    WrittenSets();
    w := StoresF();
    v := Step(w, UploadAction(w.db.chunks["p"], [9], {"B"}, false, w.db));
    OverwrittenOnB(w);
  }

  lemma OverwrittenOnB(w: World)
    requires w.db.nodes == ReplicaScenarios.Servers() && "p" in w.db.chunks && w.db.chunks["p"].id == "p"
    requires AllHold(w, "p", [2]) && "B" in ReadyNodes(Replicas(w.db, "p"))
    ensures var v := Step(w, UploadAction(w.db.chunks["p"], [9], {"B"}, false, w.db));
            v.db == w.db && !AllHold(v, "p", [2]) && FirstAnswer(v, {("p", "B")}, "p", ["B", "A", "C"]) == Some([9])
  {
    WriteKeepsBytesIff(w, "p", [9], {"B"}, "p", [2]);
    DiskAfterCopy(w, w.db, "p", [9], {"B"}, "B");
    ReplicaScenarios.HostIsAddress();
  }

  /** The file is to be deleted: the copy on B goes, the next request fails, and the file stays on
      record with a ready replica that has no bytes. */
  lemma HalfDeleted() returns (w: World)
    ensures w == World(Perform(PerformAll(Base(), Opening()), Commits("u", OnAll("f", true))),
                       CopyBytes(map[], "p", [2], Written(TARGETS, ALL_WRITTEN)))
    ensures PartHeld(w, "p", [2]) && !AllHold(Step(w, EraseAction("p", {"B"})), "p", [2])
  {
    w := StoresF();
    EraseKeepsBytesIff(w, "p", {"B"}, "p", [2]);
  }

  // ---------------------------------------------------------------- taken away

  function Completes(u: SessionId): Call {
    CompleteCall(u, Some(SUM), {FileUploading})
  }

  function Verifies(u: SessionId): Call {
    VerifyCall(u, Some(SUM), {FileVerifying})
  }

  /** The upload of one file is completed and verified while that of another is under way. */
  lemma Finishes(s: State, u: SessionId, f: FileId, b: byte, v: SessionId, g: FileId, d: byte)
    requires Underway(s, u, f, "p", [b], 1) && Underway(s, v, g, "p", [d], 0) && u != v && f != g
    ensures var t := Perform(Perform(s, Completes(u)), Verifies(u));
            && f in t.files && t.files[f].status == FileAvailable && t.files[f].size == 1
            && SameChunks(s.chunks, t.chunks) && Underway(t, v, g, "p", [d], 0)
  {
    OnePart(b);
    FinishAccepted(s, u, f, "p", [b], SUM);
    var m := CompleteUpload(s, u, Some(SUM), {FileUploading}).value;
    var t := VerifyUpload(m, u, Some(SUM), {FileVerifying}).value;
    FinishCalls(s, m, t, u, SUM);
    StaysUnderway(s, t, v, g, d);
  }

  lemma FinishCalls(s: State, m: State, t: State, u: SessionId, sum: Checksum)
    requires CompleteUpload(s, u, Some(sum), {FileUploading}) == Ok(m)
    requires VerifyUpload(m, u, Some(sum), {FileVerifying}) == Ok(t)
    ensures Perform(s, CompleteCall(u, Some(sum), {FileUploading})) == m
    ensures Perform(m, VerifyCall(u, Some(sum), {FileVerifying})) == t
    ensures u in s.sessions && t.sessions == s.sessions[u := t.sessions[u]]
    ensures t.files == s.files[s.sessions[u].fileId := t.files[s.sessions[u].fileId]]
  {
    CompleteCalled(s, u, Some(sum), {FileUploading}, m);
    VerifyCalled(m, u, Some(sum), {FileVerifying}, t);
    OneAfterAnother(s, m, t, u, s.sessions[u].fileId);
  }

  lemma CompleteCalled(s: State, u: SessionId, sum: Option<Checksum>, statuses: set<FileStatus>, t: State)
    requires CompleteUpload(s, u, sum, statuses) == Ok(t)
    ensures Perform(s, CompleteCall(u, sum, statuses)) == t
    ensures u in s.sessions && Transacts(s, t, u, s.sessions[u].fileId)
  {
    CompleteEffect(s, u, sum, statuses);
  }

  lemma VerifyCalled(s: State, u: SessionId, sum: Option<Checksum>, statuses: set<FileStatus>, t: State)
    requires VerifyUpload(s, u, sum, statuses) == Ok(t)
    ensures Perform(s, VerifyCall(u, sum, statuses)) == t
    ensures u in s.sessions && Transacts(s, t, u, s.sessions[u].fileId)
  {
    VerifyEffect(s, u, sum, statuses);
  }

  lemma OneAfterAnother(s: State, m: State, t: State, u: SessionId, f: FileId)
    requires Transacts(s, m, u, f) && Transacts(m, t, u, f)
    ensures t.sessions == s.sessions[u := t.sessions[u]] && t.files == s.files[f := t.files[f]]
  {
  }

  lemma StaysUnderway(s: State, t: State, v: SessionId, g: FileId, d: byte)
    requires Underway(s, v, g, "p", [d], 0) && SameChunks(s.chunks, t.chunks)
    requires v in t.sessions && t.sessions[v] == s.sessions[v] && g in t.files && t.files[g] == s.files[g]
    ensures Underway(t, v, g, "p", [d], 0)
  {
    assert Relabelled(s.chunks, t.chunks);
    RelabelledOk(s.chunks, t.chunks);
    assert forall c :: !Of(s.chunks, c, g);
    assert forall c :: !Of(t.chunks, c, g);
  }

  lemma GUnderwayToo(s: State, t: State, r: Commit)
    requires BothUnderway(s) && r.session == "u" && CommitChunk(s, r) == Ok(t)
    requires ChunksOk(t.chunks) && t.chunks.Keys == {"p"} && t.chunks["p"].fileId == "f"
    ensures Underway(t, "v", "g", "p", [9], 0)
  {
    CommitEffect(s, r);
  }

  /** A commit under an id that is on record for the only chunk of another file. */
  lemma Robs(s: State, u: SessionId, f: FileId, b: byte, g: FileId, replicas: ReplicaSet)
    requires Underway(s, u, f, "p", [b], 0) && HealthyReplicas(replicas) != {} && s.chunks.Keys == {"p"} && g != f
    requires CanNormalize(replicas, f, "p") && Normalized(replicas, f, "p") == replicas
    requires g in s.files && s.files[g].status == FileAvailable
    ensures var t := Perform(s, Commits(u, replicas));
            g in t.files && t.files[g] == s.files[g] && (forall c :: !Of(t.chunks, c, g)) && !AvailableTiled(t)
  {
    CommitGoes(s, u, f, b, replicas);
    CommitEffect(s, Commits(u, replicas).commit);
  }

  /** File f is available.  The upload of file g commits its part under the same id, and f is
      available without a chunk. */
  lemma AvailableFileRobbed() returns (s: State, t: State)
    ensures s == Perform(Perform(Perform(PerformAll(Base(), Opening()), Commits("u", OnAll("f", true))),
                                 Completes("u")),
                         Verifies("u"))
    ensures t == Perform(s, Commits("v", OnAll("g", true)))
    ensures "f" in s.files && s.files["f"].status == FileAvailable && s.files["f"].size == 1
    ensures "f" in t.files && t.files["f"] == s.files["f"] && (forall c :: !Of(t.chunks, c, "f")) && !AvailableTiled(t)
  {
    var s1 := FCommitted();
    s := Perform(Perform(s1, Completes("u")), Verifies("u"));
    Finishes(s1, "u", "f", 2, "v", "g", 9);
    OnAllIsNormal("g", true);
    Robs(s, "v", "g", 9, "f", OnAll("g", true));
    t := Perform(s, Commits("v", OnAll("g", true)));
  }

  lemma FirstCommit(s: State, replicas: ReplicaSet)
    requires BothUnderway(s) && HealthyReplicas(replicas) != {}
    requires CanNormalize(replicas, "f", "p") && Normalized(replicas, "f", "p") == replicas
    ensures var t := Perform(s, Commits("u", replicas));
            Underway(t, "u", "f", "p", [2], 1) && Underway(t, "v", "g", "p", [9], 0) && t.chunks.Keys == {"p"}
  {
    CommitGoes(s, "u", "f", 2, replicas);
    GUnderwayToo(s, Perform(s, Commits("u", replicas)), Commits("u", replicas).commit);
  }

  lemma FCommitted() returns (t: State)
    ensures t == Perform(PerformAll(Base(), Opening()), Commits("u", OnAll("f", true)))
    ensures Underway(t, "u", "f", "p", [2], 1) && Underway(t, "v", "g", "p", [9], 0) && t.chunks.Keys == {"p"}
  {
    var s := OpensBoth();
    OnAllIsNormal("f", true);
    t := Perform(s, Commits("u", OnAll("f", true)));
    FirstCommit(s, OnAll("f", true));
  }
}

/** Runs in which the guarantees of the replica protocol that do not hold in general fail. */
module ReplicaScenarios {
  import opened Wrappers
  import opened Metadata
  import opened Strings
  import opened Sorting
  import opened Placement
  import opened ReplicaStore
  import opened Coordinator
  import opened ReplicaProtocol
  import opened ReplicaSafety
  import opened StrandedPlans
  import CleanupController
  import HeadOfLine
  import Namespace

  // ---------------------------------------------------------------- three nodes and one chunk

  function Server(id: NodeId, used: int, healthy: bool): Node {
    Node(id, "host", 100, used, healthy, None)
  }

  function Servers(): map<NodeId, Node> {
    map["A" := Server("A", 90, true), "B" := Server("B", 10, true), "C" := Server("C", 20, true)]
  }

  function Copy(node: NodeId): Replica {
    Replica(node, "f", "c", Primary, Ready, EMPTY_CHECKSUM, 1)
  }

  function OneCopy(): Chunk {
    Chunk("c", "f", 0, 0, 1, ChunkPersisted, EMPTY_CHECKSUM, ReplicaPolicy(1, 1, 1), 1, map["A" := Copy("A")])
  }

  function OneFile(): File {
    File("f", "i", ROOT_INODE_ID, "/f", "f", 1, 1, FileAvailable, "", EMPTY_CHECKSUM, ReplicaPolicy(1, 1, 1))
  }

  function Inodes(): map<InodeId, Inode> {
    map[ROOT_INODE_ID := Inode(ROOT_INODE_ID, "", "", "/", "", DirectoryInode, InodeActive),
        "i" := Inode("i", ROOT_INODE_ID, "f", "/f", "f", FileInode, InodeActive)]
  }

  /** One chunk, wanted once, on the nearly full node A. */
  function Start(): World {
    World(State(Inodes(), map["f" := OneFile()], map["c" := OneCopy()], map[], Servers(), map[]),
          map["A" := map["c" := [7]]])
  }

  lemma BestOf(candidates: set<Node>, chunk: Chunk, n: Node)
    requires n in candidates && Eligible(n, chunk.replicas.Keys, RequiredBytes(chunk))
    requires forall b :: b in candidates && b != n && Eligible(b, chunk.replicas.Keys, RequiredBytes(chunk)) ==>
               Better(n, b)
    ensures IsBestTarget(candidates, chunk, n.id)
  {
    var eligible := EligibleNodes(candidates, chunk.replicas.Keys, RequiredBytes(chunk));
    assert n in eligible && |eligible| >= 1 by {
      assert eligible == (eligible - {n}) + {n};
    }
    assert Elements([n]) == {n};
  }

  lemma HostIsAddress()
    ensures !Blank("host")
  {
    assert "host"[0] == 'h';
  }

  // ---------------------------------------------------------------- rebalance

  ghost function ToB(): Plan {
    NewPlan(Rebalance, OneCopy(), "A", "B", 0)
  }

  const REBALANCE := RebalanceAction("c", "A", "B", 0, 0.8, 0.5, true)

  ghost function Rebalancing(): World {
    World(Materialize(Start().db, ToB(), OneCopy(), Secondary), Start().disks)
  }

  lemma MayRebalance()
    ensures CanRebalance(Start().db, "c", "A", "B", 0.8, 0.5)
  {
    HostIsAddress();
    var s := Start().db;
    assert EffectiveReady(OneCopy(), Servers()) == {"A"};
    assert ActivePlans(s, "c", {Failover, Rebalance}) == {};
    assert UsageRatio(Servers()["A"]) == 0.9 && UsageRatio(Servers()["B"]) == 0.1 && UsageRatio(Servers()["C"]) == 0.2;
    assert Servers()["B"] in NodeSet(s);
    BestOf(UnderfullNodes(s, 0.8, 0.5), OneCopy(), Servers()["B"]);
  }

  lemma PlanIdsDiffer(a: string, b: string)
    ensures "failover-" + a != "rebalance-" + b
    ensures !Blank("failover-" + a) && !Blank("rebalance-" + b)
  {
    assert ("failover-" + a)[0] == 'f' && ("rebalance-" + b)[0] == 'r';
  }

  lemma ToBAccepted()
    ensures MayPlan(Start().db, ToB(), OneCopy())
  {
    PlanIdsDiffer("", "c" + "-" + "B" + "-" + Stamp(0));
    assert ToB().id == "rebalance-" + ("c" + "-" + "B" + "-" + Stamp(0));
    assert WellFormedPlan(ToB());
  }

  lemma Rebalances()
    ensures Step(Start(), REBALANCE) == Rebalancing()
  {
    MayRebalance();
    ToBAccepted();
    RebalanceStep(Start(), "c", "A", "B", 0, 0.8, 0.5);
  }

  lemma RebalanceStep(w: World, chunk: ChunkId, source: NodeId, target: NodeId, now: int, high: real, low: real)
    requires CanRebalance(w.db, chunk, source, target, high, low)
    requires MayPlan(w.db, NewPlan(Rebalance, w.db.chunks[chunk], source, target, now), w.db.chunks[chunk])
    ensures var c := w.db.chunks[chunk];
            Step(w, RebalanceAction(chunk, source, target, now, high, low, true))
            == World(Materialize(w.db, NewPlan(Rebalance, c, source, target, now), c, Secondary), w.disks)
  {
  }

  /** A and B are recorded, B still without the bytes. */
  function TwoCopies(): Chunk {
    Chunk("c", "f", 0, 0, 1, ChunkPersisted, EMPTY_CHECKSUM, ReplicaPolicy(1, 1, 2), 2,
          map["A" := Copy("A"), "B" := PendingReplica(OneCopy(), "B", Secondary)])
  }

  lemma SecondCopy()
    ensures Patched(OneCopy(), PlanPatch(OneCopy(), "B", Secondary)) == TwoCopies()
  {
    assert OneCopy().replicas + map["B" := PendingReplica(OneCopy(), "B", Secondary)] - {} == TwoCopies().replicas;
  }

  lemma RebalancingRecords()
    ensures Rebalancing().db == Start().db.(chunks := map["c" := TwoCopies()], plans := map[ToB().id := ToB()])
  {
    SecondCopy();
    Materialized(Start().db, ToB(), OneCopy(), Secondary);
    assert map["c" := OneCopy()]["c" := TwoCopies()] == map["c" := TwoCopies()];
  }

  lemma Materialized(s: State, plan: Plan, chunk: Chunk, role: ReplicaRole)
    requires chunk.id in s.chunks && s.chunks[chunk.id] == chunk
    ensures Materialize(s, plan, chunk, role)
            == s.(chunks := s.chunks[chunk.id := Patched(chunk, PlanPatch(chunk, plan.target, role))],
                  plans := s.plans[plan.id := plan])
  {
  }

  // ---------------------------------------------------------------- repair

  lemma RepairMakesReady(w: World, c: ChunkId, source: NodeId, n: NodeId)
    requires CanCopy(w, c, source, {n}) && n in Dispatched(w.db, {n})
    ensures var v := Step(w, RepairAction(c, source, {n}, Net(true, {n}, {n})));
            && v.db.plans == w.db.plans && v.db.nodes == w.db.nodes && c in v.db.chunks
            && v.db.chunks[c].replicas == w.db.chunks[c].replicas[n := RepairedReplica(w.db.chunks[c], n, true)]
  {
  }

  const REPAIR_B := RepairAction("c", "A", {"B"}, Net(true, {"B"}, {"B"}))

  /** B can be sent the chunk whenever A, a ready primary with an address, has it. */
  lemma CanRepairB(w: World)
    requires Copying(w)
    ensures CanCopy(w, "c", "A", {"B"}) && "B" in Dispatched(w.db, {"B"})
  {
    HostIsAddress();
    assert "B" in Dispatched(w.db, {"B"});
  }

  // ---------------------------------------------------------------- a lost acknowledgement

  lemma StartIsSound()
    ensures Sound(Start().db) && AllHold(Start(), "c", [7])
  {
  }

  lemma RebalancingIsSound()
    ensures Sound(Rebalancing().db) && AllHold(Rebalancing(), "c", [7])
  {
    StartIsSound();
    Rebalances();
    StepKeepsBytes(Start(), REBALANCE, "c", [7]);
    StepSound(Start(), REBALANCE);
  }

  /** A ready replica on A beside a pending one on B. */
  predicate Copying(w: World) {
    && "c" in w.db.chunks && "A" in w.db.nodes && w.db.nodes["A"].address == "host"
    && "B" in w.db.nodes && w.db.nodes["B"] == Server("B", 10, true) && "c" in Disk(w, "A")
    && var r := w.db.chunks["c"].replicas; "A" in r && r["A"] == Copy("A") && "B" in r && r["B"].state == Pending
  }

  lemma RepairsB(w: World)
    requires Sound(w.db) && AllHold(w, "c", [7]) && Copying(w)
    ensures var v := Step(w, REPAIR_B);
            && Sound(v.db) && AllHold(v, "c", [7]) && v.db.plans == w.db.plans && v.db.nodes == w.db.nodes
            && "c" in v.db.chunks && {"A", "B"} <= ReadyNodes(v.db.chunks["c"].replicas)
  {
    CanRepairB(w);
    RepairMakesReady(w, "c", "A", "B");
    StepKeepsBytes(w, REPAIR_B, "c", [7]);
    StepSound(w, REPAIR_B);
  }

  lemma RebalanceIsCopying()
    ensures Copying(Rebalancing()) && Rebalancing().db.plans == map[ToB().id := ToB()]
  {
    RebalancingRecords();
  }

  /** Node A deletes its copy after the rebalance, its answer is lost, and A stays recorded as
      a ready replica without the bytes. */
  lemma LostAcknowledgement()
    ensures AllHold(Start(), "c", [7])
    ensures var v := Run(Start(), [REBALANCE, REPAIR_B, CleanupAction(ToB().id, AckLost)]);
            !AllHold(v, "c", [7]) && Hollow(v, ToB().id)
  {
    StartIsSound();
    Rebalances();
    RebalancingIsSound();
    RebalanceIsCopying();
    RepairsB(Rebalancing());
    LostAckHolds(Step(Rebalancing(), REPAIR_B));
    UnfoldRun(Start(), REBALANCE, REPAIR_B, CleanupAction(ToB().id, AckLost));
  }

  lemma ReadyToSettle(w: World)
    requires ToB().id in w.db.plans && w.db.plans[ToB().id] == ToB() && AllHold(w, "c", [7])
    requires "c" in w.db.chunks && {"A", "B"} <= ReadyNodes(w.db.chunks["c"].replicas)
    ensures Finalizable(w.db, ToB().id) && "A" in ReadyNodes(Replicas(w.db, "c")) && "c" in Disk(w, "A")
  {
    assert "A" in ReadyNodes(w.db.chunks["c"].replicas) && "B" in ReadyNodes(w.db.chunks["c"].replicas);
  }

  lemma LostAckHolds(w: World)
    requires Sound(w.db) && AllHold(w, "c", [7]) && w.db.plans == map[ToB().id := ToB()] && "A" in w.db.nodes
    requires "c" in w.db.chunks && {"A", "B"} <= ReadyNodes(w.db.chunks["c"].replicas)
    ensures var v := Step(w, CleanupAction(ToB().id, AckLost)); !AllHold(v, "c", [7]) && Hollow(v, ToB().id)
  {
    ReadyToSettle(w);
    CleanupKeepsBytesIff(w, ToB().id, AckLost, "c", [7]);
  }

  lemma UnfoldRun(w: World, a: Action, b: Action, c: Action)
    ensures Run(w, [a, b, c]) == Step(Step(Step(w, a), b), c)
  {
    assert [a, b, c][1..] == [b, c] && [b, c][1..] == [c] && [c][1..] == [];
    assert Run(Step(w, a), [b, c]) == Run(Step(Step(w, a), b), [c]);
    assert Run(Step(Step(w, a), b), [c]) == Run(Step(Step(Step(w, a), b), c), []);
  }

  // ---------------------------------------------------------------- overlapping plans

  const A_FAILS := NodeReport(Server("A", 90, false))
  const FAILOVER := FailoverAction("c", "A", "C", 1, 0, true)

  /** The rebalance is under way when node A reports that it is unhealthy. */
  ghost function AFailed(): World {
    World(Rebalancing().db.(nodes := Servers()["A" := Server("A", 90, false)]), Start().disks)
  }

  ghost function ToC(): Plan {
    NewPlan(Failover, TwoCopies(), "A", "C", 1)
  }

  lemma AFails()
    ensures Step(Rebalancing(), A_FAILS) == AFailed()
    ensures IsAFailed(AFailed())
  {
    RebalancingRecords();
    RebalancingIsSound();
    StepKeepsBytes(Rebalancing(), A_FAILS, "c", [7]);
    StepSound(Rebalancing(), A_FAILS);
  }

  lemma MayFailOver(s: State)
    requires s.nodes == Servers()["A" := Server("A", 90, false)] && s.files == map["f" := OneFile()]
    requires s.chunks == map["c" := TwoCopies()] && forall p :: p in s.plans ==> s.plans[p].kind == Rebalance
    ensures CanFailover(s, "c", "A", "C", 1, 0)
  {
    HostIsAddress();
    assert EffectiveReady(TwoCopies(), s.nodes) == {};
    assert ActivePlans(s, "c", {Failover}) == {};
    BestIsC(s.nodes, NodeSet(s));
  }

  lemma BestIsC(nodes: map<NodeId, Node>, candidates: set<Node>)
    requires nodes == Servers()["A" := Server("A", 90, false)] && candidates == set id | id in nodes :: nodes[id]
    ensures IsBestTarget(candidates, TwoCopies(), "C")
  {
    HostIsAddress();
    assert nodes["C"] in candidates;
    assert TwoCopies().replicas.Keys == {"A", "B"};
    BestOf(candidates, TwoCopies(), nodes["C"]);
  }

  lemma FreshPlanAccepted(s: State, plan: Plan, chunk: Chunk)
    requires WellFormedPlan(plan) && plan.id !in s.plans && chunk.id in s.chunks
    requires forall p :: p in s.plans ==> s.plans[p].kind != plan.kind
    ensures MayPlan(s, plan, chunk)
  {
  }

  lemma ToCIsFresh()
    ensures WellFormedPlan(ToC()) && ToC().id != ToB().id
  {
    var c, b := "c" + "-" + "C" + "-" + Stamp(1), "c" + "-" + "B" + "-" + Stamp(0);
    PlanIdsDiffer(c, b);
    assert ToC().id == "failover-" + c && ToB().id == "rebalance-" + b;
  }

  lemma ToCAccepted(s: State)
    requires s.plans == map[ToB().id := ToB()] && "c" in s.chunks
    ensures MayPlan(s, ToC(), TwoCopies())
  {
    ToCIsFresh();
    FreshPlanAccepted(s, ToC(), TwoCopies());
  }

  lemma FailoverStep(w: World)
    requires w.db.chunks == map["c" := TwoCopies()] && CanFailover(w.db, "c", "A", "C", 1, 0)
             && MayPlan(w.db, ToC(), TwoCopies())
    requires "A" in w.db.nodes && w.db.nodes["A"].address == "host" && "B" in w.db.nodes
             && w.db.nodes["B"] == Server("B", 10, true)
    requires "c" in Disk(w, "A")
    ensures Copying(Step(w, FAILOVER))
  {
    Materialized(w.db, ToC(), TwoCopies(), Secondary);
    assert |TwoCopies().replicas| != 0 by {
      assert "A" in TwoCopies().replicas;
    }
    assert Step(w, FAILOVER).db == Materialize(w.db, ToC(), TwoCopies(), Secondary);
  }

  lemma FailoverShares(w: World)
    requires w.db.chunks == map["c" := TwoCopies()] && CanFailover(w.db, "c", "A", "C", 1, 0)
             && MayPlan(w.db, ToC(), TwoCopies())
    requires Sound(w.db) && AllHold(w, "c", [7]) && ToB().id in w.db.plans && w.db.plans[ToB().id] == ToB()
    ensures var v := Step(w, FAILOVER);
            && SharesSource(v.db, ToC().id, ToB().id) && ToB().id in v.db.plans && v.db.plans[ToB().id] == ToB()
            && Sound(v.db) && AllHold(v, "c", [7])
  {
    OverlapArises(w, "c", "A", "C", 1, 0, ToB().id);
    StepKeepsBytes(w, FAILOVER, "c", [7]);
    StepSound(w, FAILOVER);
  }

  ghost predicate IsAFailed(w: World) {
    && w.db.nodes == Servers()["A" := Server("A", 90, false)] && w.db.files == map["f" := OneFile()]
    && w.db.chunks == map["c" := TwoCopies()] && w.db.plans == map[ToB().id := ToB()]
    && Sound(w.db) && AllHold(w, "c", [7]) && "c" in Disk(w, "A")
  }

  lemma FailoverPlanned(w: World)
    requires IsAFailed(w)
    ensures var v := Step(w, FAILOVER);
            && SharesSource(v.db, ToC().id, ToB().id) && ToB().id in v.db.plans && v.db.plans[ToB().id] == ToB()
            && Copying(v) && Sound(v.db) && AllHold(v, "c", [7])
  {
    MayFailOver(w.db);
    ToCAccepted(w.db);
    FailoverStep(w);
    FailoverShares(w);
  }

  /** A fails while it is being emptied: the failover plan shares its source with the rebalance
      plan, and settling the rebalance plan leaves the failover plan with no replica to drop. */
  lemma OverlapStrands()
    ensures var w := Run(Start(), [REBALANCE, A_FAILS, FAILOVER]);
            SharesSource(w.db, ToC().id, ToB().id)
            && Stranded(Step(Step(w, REPAIR_B), CleanupAction(ToB().id, Acknowledged)).db, ToC().id)
  {
    Rebalances();
    AFails();
    FailoverPlanned(AFailed());
    UnfoldRun(Start(), REBALANCE, A_FAILS, FAILOVER);
    var w := Step(AFailed(), FAILOVER);
    RepairsB(w);
    Strands(Step(w, REPAIR_B));
  }

  lemma Strands(w: World)
    requires Sound(w.db) && AllHold(w, "c", [7]) && SharesSource(w.db, ToC().id, ToB().id)
    requires "A" in w.db.nodes && ToB().id in w.db.plans && w.db.plans[ToB().id] == ToB()
    requires "c" in w.db.chunks && {"A", "B"} <= ReadyNodes(w.db.chunks["c"].replicas)
    ensures Stranded(Step(w, CleanupAction(ToB().id, Acknowledged)).db, ToC().id)
  {
    ReadyToSettle(w);
    SettledStrands(w, ToB().id, ToC().id);
  }

  lemma SettledStrands(w: World, other: PlanId, id: PlanId)
    requires Sound(w.db) && SharesSource(w.db, id, other) && Finalizable(w.db, other)
    requires var plan := w.db.plans[other];
             && plan.source in w.db.nodes && plan.source in ReadyNodes(Replicas(w.db, plan.chunkId))
             && plan.chunkId in Disk(w, plan.source)
    ensures Stranded(Step(w, CleanupAction(other, Acknowledged)).db, id)
  {
    SettlingStrands(w, other, Acknowledged, id);
  }

  // ---------------------------------------------------------------- a deleted file

  /** The file is deleted while its chunk is being moved.  The plan stays, and as the oldest due plan
      it is what every later clean-up pass stops at. */
  lemma DeletedFileStopsCleanup() returns (db: State)
    ensures Namespace.DeleteFile(Rebalancing().db, "f") == Ok(db)
    ensures var v := Step(Rebalancing(), OtherTransaction(db));
            v.db == db && HeadOfLine.Orphan(db, ToB().id) && HeadOfLine.OldestDue(db.plans, ToB().id)
  {
    RebalancingRecords();
    db := DeletesF(Rebalancing().db);
    LeftOver(Rebalancing(), db);
  }

  lemma LeftOver(w: World, db: State)
    requires w.db.plans == map[ToB().id := ToB()] && db.plans == w.db.plans && db.nodes == w.db.nodes
             && db.chunks == map[]
    ensures Step(w, OtherTransaction(db)).db == db
    ensures HeadOfLine.Orphan(db, ToB().id) && HeadOfLine.OldestDue(db.plans, ToB().id)
  {
    assert CleanupController.Due(ToB());
  }

  lemma DeletesF(s: State) returns (db: State)
    requires s.inodes == Inodes() && s.files == map["f" := OneFile()] && s.chunks == map["c" := TwoCopies()]
    ensures Namespace.DeleteFile(s, "f") == Ok(db)
    ensures db.plans == s.plans && db.nodes == s.nodes && db.chunks == map[]
  {
    assert !Namespace.HasChildren(s.inodes, "i");
    assert s.chunks - (set c | c in s.chunks && s.chunks[c].fileId in {"f"}) == map[];
    db := Namespace.Drop(s, {"i"}, {"f"});
  }
}

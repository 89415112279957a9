/** Small repositories on which the planners do, or do not, make a plan. */
module PlanningScenarios {
  import opened Wrappers
  import opened Metadata
  import opened Strings
  import opened Sorting
  import opened Placement
  import opened ReplicaStore
  import opened Coordinator
  import opened ReplicaProtocol
  import opened PlanningLaws
  import opened GatewayUpload

  function Server(id: NodeId, used: int, lastSeenAt: int): Node {
    Node(id, "host", 100, used, true, Some(lastSeenAt))
  }

  function OneReplica(desired: int): Chunk {
    Chunk("c", "f", 0, 0, 1, ChunkAvailable, EMPTY_CHECKSUM, ReplicaPolicy(desired, 1, 1), 1,
          map["A" := Replica("A", "f", "c", Primary, Ready, EMPTY_CHECKSUM, 1)])
  }

  /** Nodes A and B, and a file with one chunk, which is ready on A. */
  predicate TwoNodes(s: State, a: Node, b: Node, desired: int) {
    && s.nodes == map["A" := a, "B" := b] && a.id == "A" && b.id == "B"
    && s.chunks == map["c" := OneReplica(desired)] && s.plans == map[]
    && s.files == map["f" := File("f", "i", ROOT_INODE_ID, "/f", "f", 1, 1, FileAvailable, "", EMPTY_CHECKSUM,
                                  ReplicaPolicy(desired, 1, 0))]
  }

  function Repo(a: Node, b: Node, desired: int): State {
    State(map[], map["f" := File("f", "i", ROOT_INODE_ID, "/f", "f", 1, 1, FileAvailable, "", EMPTY_CHECKSUM,
                                 ReplicaPolicy(desired, 1, 0))],
          map["c" := OneReplica(desired)], map[], map["A" := a, "B" := b], map[])
  }

  lemma HostIsAddress()
    ensures !Blank("host")
  {
    assert "host"[0] == 'h';
  }

  lemma OnlyBFits(s: State, a: Node, b: Node, desired: int)
    requires TwoNodes(s, a, b, desired) && b.healthy && b.address == "host" && 0 <= b.used < b.capacity
    ensures Keyed(s) && NodeSet(s) == {a, b} && Fits(b, s.chunks["c"]) && !Fits(a, s.chunks["c"])
    ensures a.healthy ==> ServedBy(s, "c") == {"A"}
  {
    HostIsAddress();
    assert s.nodes["A"] == a && s.nodes["B"] == b;
  }

  // ---------------------------------------------------------------- failover

  /** At time 100 node A has not been heard of since time 0, node B was at 95.  With a timeout of 10 the
      replica on A gets a replacement on B, though A is still marked healthy. */
  lemma SilentNodeReplaced() returns (s: State)
    ensures TwoNodes(s, Server("A", 0, 0), Server("B", 0, 95), 2)
    ensures CanFailover(s, "c", "A", "B", 100, 10)
    ensures forall n, c, target :: CanFailover(s, c, n, target, 100, 10) ==> n == "A"
  {
    s := Repo(Server("A", 0, 0), Server("B", 0, 95), 2);
    OnlyBFits(s, Server("A", 0, 0), Server("B", 0, 95), 2);
    assert IsBest(NodeSet(s), s.chunks["c"], s.nodes["B"]);
    BestTargetIff(NodeSet(s), s.chunks["c"], "B");
    CanFailoverIff(s, "c", "A", "B", 100, 10);
    forall n, c, target | CanFailover(s, c, n, target, 100, 10) ensures n == "A" {
      CanFailoverIff(s, c, n, target, 100, 10);
    }
  }

  /** The step records the plan, and B as a pending replica. */
  lemma SilentNodeRun() returns (s: State, t: State)
    ensures TwoNodes(s, Server("A", 0, 0), Server("B", 0, 95), 2)
    ensures t == Step(World(s, map[]), FailoverAction("c", "A", "B", 100, 10, true)).db
    ensures "c" in t.chunks && ReplicaAdded(s.chunks["c"], t.chunks["c"], "B", Secondary)
    ensures exists p :: p in t.plans && t.plans[p].kind == Failover && t.plans[p].chunkId == "c"
                        && t.plans[p].source == "A" && t.plans[p].target == "B" && t.plans[p].state == Materialized
  {
    s := SilentNodeReplaced();
    var c := s.chunks["c"];
    t := PlanFailover(s, "c", "A", "B", 100, 10, true);
    var plan := NewPlan(Failover, c, "A", "B", 100);
    assert plan.id[0] == 'f';
    PlanTakenIff(s, plan);
    PlannersRecord(s, "c", "A", "B", 100, 10, 0.0, 0.0, true);
    PlanRecorded(s, Failover, c, "A", "B", Secondary, 100);
    assert plan.id in t.plans;
  }

  /** Had A been heard of at time 90, nothing would be planned. */
  lemma SeenNodeKept() returns (s: State)
    ensures TwoNodes(s, Server("A", 0, 90), Server("B", 0, 95), 2)
    ensures forall n, c, target :: !CanFailover(s, c, n, target, 100, 10)
  {
    s := Repo(Server("A", 0, 90), Server("B", 0, 95), 2);
    forall n, c, target ensures !CanFailover(s, c, n, target, 100, 10) {
      CanFailoverIff(s, c, n, target, 100, 10);
    }
  }

  // ---------------------------------------------------------------- rebalance

  /** A is at 90 of 100 and B at 70.  With watermarks 0.8 and 0.5 nothing moves, with 0.8 and 0.7 the
      chunk moves from A to B. */
  lemma MiddleNodeSpared() returns (s: State)
    ensures TwoNodes(s, Server("A", 90, 0), Server("B", 70, 0), 1)
    ensures forall c, n, target :: !CanRebalance(s, c, n, target, 0.8, 0.5)
    ensures CanRebalance(s, "c", "A", "B", 0.8, 0.7)
  {
    var a, b := Server("A", 90, 0), Server("B", 70, 0);
    s := Repo(a, b, 1);
    OnlyBFits(s, a, b, 1);
    WatermarksIff(a, 0.8, 0.5);
    WatermarksIff(b, 0.8, 0.5);
    forall c, n, target ensures !CanRebalance(s, c, n, target, 0.8, 0.5) {
      if CanRebalance(s, c, n, target, 0.8, 0.5) {
        RebalanceGoes(s, c, n, target, 0.8, 0.5);
      }
    }
    WatermarksIff(a, 0.8, 0.7);
    WatermarksIff(b, 0.8, 0.7);
    assert UnderfullNodes(s, 0.8, 0.7) == {b};
    assert IsBest(UnderfullNodes(s, 0.8, 0.7), s.chunks["c"], b);
    BestTargetIff(UnderfullNodes(s, 0.8, 0.7), s.chunks["c"], "B");
    CanRebalanceIff(s, "c", "A", "B", 0.8, 0.7);
  }

  // ---------------------------------------------------------------- placement

  /** A node with one byte free is not chosen for 50, and is for one. */
  lemma NoRoomNoPlacement() returns (n: Node)
    ensures n == Server("A", 99, 0)
    ensures forall r :: IsPlacement({n}, {}, 50, 1, r) ==> r == []
    ensures IsPlacement({n}, {}, 1, 1, [n])
  {
    n := Server("A", 99, 0);
    HostIsAddress();
    assert EligibleNodes({n}, {}, 50) == {};
    assert EligibleNodes({n}, {}, 1) == {n} && [n][0] == n && Elements([n]) == {n};
  }

  /** A part of any size is sent to the same node: nobody asks whether it fits. */
  lemma TargetWithoutRoom() returns (s: State)
    ensures s.nodes == map["A" := Server("A", 99, 0)] && IsTargets(s, 3, ["A"])
    ensures s.nodes["A"].used + 2 > s.nodes["A"].capacity
  {
    var n := Server("A", 99, 0);
    s := State(map[], map[], map[], map[], map["A" := n], map[]);
    HostIsAddress();
    assert NodeSet(s) == {n} by {
      assert s.nodes["A"] == n;
    }
    assert EligibleNodes(NodeSet(s), {}, 0) == {n} && [n][0] == n && Elements([n]) == {n};
    assert IsPlacement(NodeSet(s), {}, 0, 3, [n]) && NamesOf([n], ["A"]);
  }
}

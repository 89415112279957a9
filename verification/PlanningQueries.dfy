/** What both planners ask of the repository: node, chunk and plan lists, the number of
    effective replicas, and the space a new replica needs. */
module PlanningQueries {
  import opened Wrappers
  import opened Metadata
  import opened Strings
  import opened Sorting
  import opened Listing
  import opened Placement
  import opened ReplicaStore
  import opened Coordinator
  import opened ReplicaProtocol
  import opened PlanningLaws
  import opened CleanupController

  predicate ById(a: Node, b: Node) {
    Less(a.id, b.id)
  }

  predicate ByFileAndIndex(a: Chunk, b: Chunk) {
    Less(a.fileId, b.fileId) || (a.fileId == b.fileId && a.index < b.index)
  }

  method ListNodes(s: State) returns (l: seq<Node>)
    requires Keyed(s)
    ensures Elements(l) == NodeSet(s) && Distinct(l) && Sorted(ById, l)
    ensures forall i, j :: 0 <= i < j < |l| ==> Less(l[i].id, l[j].id)
  {
    var all := (n: Node) => true;
    l := ListWhere(s.nodes, all, ById);
    assert Matching(s.nodes, all) == NodeSet(s);
    NodesById(s);
  }

  lemma NodesById(s: State)
    requires Keyed(s)
    ensures StrictTotalOn(ById, NodeSet(s)) && DistinctIds(NodeSet(s))
  {
    var xs := NodeSet(s);
    forall x | x in xs ensures !ById(x, x) {
      LessIrreflexive(x.id);
    }
    forall x, y, z | x in xs && y in xs && z in xs && ById(x, y) && ById(y, z) ensures ById(x, z) {
      LessTransitive(x.id, y.id, z.id);
    }
    forall x, y | x in xs && y in xs ensures x == y || ById(x, y) || ById(y, x) {
      LessTotal(x.id, y.id);
    }
  }

  /** Chunks of a file are told apart by their index. */
  predicate SlotsUnique(s: State) {
    forall c, d | c in s.chunks && d in s.chunks ::
      s.chunks[c].fileId == s.chunks[d].fileId && s.chunks[c].index == s.chunks[d].index ==> c == d
  }

  lemma ChunksByFileAndIndex(s: State, xs: set<Chunk>)
    requires Keyed(s) && SlotsUnique(s) && forall c :: c in xs ==> c.id in s.chunks && s.chunks[c.id] == c
    ensures StrictTotalOn(ByFileAndIndex, xs)
  {
    forall x | x in xs ensures !ByFileAndIndex(x, x) {
      LessIrreflexive(x.fileId);
    }
    forall x, y, z | x in xs && y in xs && z in xs && ByFileAndIndex(x, y) && ByFileAndIndex(y, z)
      ensures ByFileAndIndex(x, z)
    {
      if Less(x.fileId, y.fileId) && Less(y.fileId, z.fileId) {
        LessTransitive(x.fileId, y.fileId, z.fileId);
      }
    }
    forall x, y | x in xs && y in xs ensures x == y || ByFileAndIndex(x, y) || ByFileAndIndex(y, x) {
      LessTotal(x.fileId, y.fileId);
    }
  }

  /** Every chunk with a replica on the node, each once, by file and index. */
  method ListChunksByNode(s: State, node: NodeId) returns (l: seq<Chunk>)
    requires Keyed(s)
    ensures forall c :: c in l <==> c.id in s.chunks && s.chunks[c.id] == c && node in c.replicas
    ensures forall i, j :: 0 <= i < j < |l| ==> l[i].id != l[j].id
    ensures SlotsUnique(s) ==> Sorted(ByFileAndIndex, l)
    ensures SlotsUnique(s) ==> forall i, j :: 0 <= i < j < |l| ==>
              Less(l[i].fileId, l[j].fileId) || (l[i].fileId == l[j].fileId && l[i].index < l[j].index)
  {
    var onNode := (c: Chunk) => node in c.replicas;
    if SlotsUnique(s) {
      ChunksByFileAndIndex(s, Matching(s.chunks, onNode));
    }
    l := ListWhere(s.chunks, onNode, ByFileAndIndex);
    assert forall c :: c in l <==> c in Elements(l);
  }

  method HasActivePlan(s: State, chunk: ChunkId, kinds: set<PlanType>) returns (active: bool)
    requires Keyed(s)
    ensures active <==> ActivePlans(s, chunk, kinds) != {}
    ensures active <==> exists p :: p in s.plans && s.plans[p].chunkId == chunk && s.plans[p].kind in kinds
                                    && s.plans[p].state != Done && s.plans[p].state != PlanFailed
  {
    NoActiveIff(s, chunk, kinds);
    var ofChunk := (p: Plan) => p.chunkId == chunk && p.kind in kinds && !Terminal(p.state);
    var l := ListWhere(s.plans, ofChunk, Older);
    assert forall p :: p in l <==> p in Elements(l);
    active := l != [];
    if active {
      assert l[0] in l;
      assert l[0].id in ActivePlans(s, chunk, kinds);
    } else {
      assert Elements(l) == {};
      forall id | id in s.plans ensures id !in ActivePlans(s, chunk, kinds) {
        assert s.plans[id] !in Matching(s.plans, ofChunk);
      }
    }
  }

  method CountEffectiveReadyReplicas(chunk: Chunk, nodes: map<NodeId, Node>) returns (count: nat)
    ensures count == |EffectiveReady(chunk, nodes)|
    ensures count == |set n | n in nodes && nodes[n].healthy && n in chunk.replicas && chunk.replicas[n].state == Ready|
  {
    count := 0;
    ghost var effective := EffectiveReady(chunk, nodes);
    ghost var seen: set<NodeId> := {};
    var todo := chunk.replicas.Keys;
    while todo != {}
      invariant todo <= chunk.replicas.Keys
      invariant forall n :: n in seen <==> n in effective && n !in todo
      invariant count == |seen|
      decreases |todo|
    {
      var n :| n in todo;
      todo := todo - {n};
      if chunk.replicas[n].state == Ready && n in nodes && nodes[n].healthy {
        seen := seen + {n};
        count := count + 1;
      }
    }
    assert seen == effective;
    assert seen ==
           set n | n in nodes && nodes[n].healthy && n in chunk.replicas && chunk.replicas[n].state == Ready;
  }

  method RequiredPlacementBytes(chunk: Chunk) returns (required: int)
    ensures required == RequiredBytes(chunk)
    ensures required >= 0
    ensures forall n :: n in chunk.replicas && chunk.replicas[n].state == Ready ==>
              chunk.replicas[n].storedSize <= required
    ensures (exists n :: n in chunk.replicas && chunk.replicas[n].state == Ready && chunk.replicas[n].storedSize > 0
                         && chunk.replicas[n].storedSize == required)
            || (required == (if chunk.size > 0 then chunk.size else 0)
                && forall n :: n in chunk.replicas && chunk.replicas[n].state == Ready ==>
                     chunk.replicas[n].storedSize <= 0)
  {
    var best := 0;
    var r := chunk.replicas;
    var todo := r.Keys;
    while todo != {}
      invariant todo <= r.Keys && best >= 0
      invariant forall n :: n in r && n !in todo && r[n].state == Ready ==> r[n].storedSize <= best
      invariant best == 0 || exists n :: n in r && n !in todo && r[n].state == Ready && r[n].storedSize == best
      decreases |todo|
    {
      var n :| n in todo;
      todo := todo - {n};
      if r[n].state == Ready && r[n].storedSize > best {
        best := r[n].storedSize;
      }
    }
    required := if best > 0 then best else if chunk.size > 0 then chunk.size else 0;
  }

  /** The one best target among the candidates, if any candidate is eligible at all. */
  method SelectTarget(candidates: seq<Node>, chunk: Chunk) returns (target: Option<Node>)
    requires Distinct(candidates) && DistinctIds(Elements(candidates))
    ensures target.Some? ==> target.value in candidates && IsBestTarget(Elements(candidates), chunk, target.value.id)
    ensures target.None? ==> forall n :: !IsBestTarget(Elements(candidates), chunk, n)
    ensures target.Some? ==> IsBest(Elements(candidates), chunk, target.value)
    ensures target.None? ==> forall n :: n in candidates ==> !Fits(n, chunk)
  {
    var required := RequiredPlacementBytes(chunk);
    var selected := SelectPlacementTargets(candidates, chunk.replicas.Keys, required, 1);
    assert |selected| <= 1;
    if |selected| == 0 {
      target := None;
      TargetExistsIff(Elements(candidates), chunk);
    } else {
      assert selected == [selected[0]] && selected[0] in selected;
      SoleTarget(Elements(candidates), chunk, selected[0]);
      target := Some(selected[0]);
    }
  }
}

/** What the gateway's upload asks for, said on the fields of nodes and records: which nodes a part goes
    to, whether they have room for it, when its writes go through and when a file is admitted. */
module GatewayLaws {
  import Wrappers
  import opened Metadata
  import opened Strings
  import opened Placement
  import opened Coordinator
  import opened ReplicaProtocol
  import opened PlanningQueries
  import opened GatewayUpload
  import opened UploadTraces
  import opened NamespaceLaws

  /** The node is up, can be reached and is not full. */
  predicate IsOpen(s: State, n: NodeId) {
    && n in s.nodes && s.nodes[n].healthy && !Blank(s.nodes[n].address) && 0 <= s.nodes[n].used < s.nodes[n].capacity
  }

  /** A part goes to open nodes, the emptiest first, as many as asked for or all there are. */
  lemma TargetsAreOpen(s: State, count: int, targets: seq<NodeId>)
    requires Keyed(s) && IsTargets(s, count, targets)
    ensures forall n :: n in targets ==> IsOpen(s, n)
    ensures |targets| <= if count < 0 then 0 else count
    ensures |targets| < count ==> forall n :: IsOpen(s, n) ==> n in targets
    ensures forall n, m :: n in targets && n in s.nodes && IsOpen(s, m) && m !in targets ==>
              s.nodes[m].capacity - s.nodes[m].used <= s.nodes[n].capacity - s.nodes[n].used
  {
    var nodes :| IsPlacement(NodeSet(s), {}, 0, count, nodes) && NamesOf(nodes, targets);
    NodesById(s);
    PlacementHasRoom(NodeSet(s), {}, 0, count, nodes);
    NamesMatch(s, nodes, targets);
  }

  lemma NamesMatch(s: State, nodes: seq<Node>, targets: seq<NodeId>)
    requires Keyed(s) && NamesOf(nodes, targets) && forall n :: n in nodes ==> n in NodeSet(s)
    ensures forall n :: n in targets ==> n in s.nodes && s.nodes[n] in nodes
    ensures forall n :: n in s.nodes && s.nodes[n] in nodes ==> n in targets
    ensures forall n :: n in s.nodes ==> s.nodes[n] in NodeSet(s)
  {
    forall n | n in targets ensures n in s.nodes && s.nodes[n] in nodes {
      var j :| 0 <= j < |targets| && targets[j] == n;
      assert nodes[j] in nodes;
    }
    forall n | n in s.nodes && s.nodes[n] in nodes ensures n in targets {
      var j :| 0 <= j < |nodes| && nodes[j] == s.nodes[n];
      assert targets[j] == n;
    }
  }

  /** The open nodes with room for `size` bytes. */
  function Spacious(s: State, size: int): set<NodeId> {
    set n | n in s.nodes && IsOpen(s, n) && s.nodes[n].used + size <= s.nodes[n].capacity
  }

  /** Nobody asks whether the part fits.  All its targets have room for it exactly when as many open
      nodes have room as the part has targets. */
  lemma TargetsHaveRoomIff(s: State, count: int, targets: seq<NodeId>, size: int)
    requires Keyed(s) && IsTargets(s, count, targets)
    ensures (forall n :: n in targets ==> n in s.nodes && s.nodes[n].used + size <= s.nodes[n].capacity) <==>
            |targets| <= |Spacious(s, size)|
  {
    var nodes :| IsPlacement(NodeSet(s), {}, 0, count, nodes) && NamesOf(nodes, targets);
    NodesById(s);
    PlacementHasRoom(NodeSet(s), {}, 0, count, nodes);
    NamesMatch(s, nodes, targets);
    AllRoomyIff(NodeSet(s), {}, 0, count, nodes, size);
    SpaciousNodes(s, size);
    forall n: Node | n in nodes ensures n.id in targets && n.id in s.nodes && s.nodes[n.id] == n {
    }
  }

  lemma SpaciousNodes(s: State, size: int)
    requires Keyed(s)
    ensures |Roomy(NodeSet(s), {}, 0, size)| == |Spacious(s, size)|
  {
    var roomy, spacious := Roomy(NodeSet(s), {}, 0, size), Spacious(s, size);
    assert spacious == set n | n in roomy :: n.id;
    SameCount(s, roomy);
  }

  lemma {:induction false} SameCount(s: State, nodes: set<Node>)
    requires Keyed(s) && nodes <= NodeSet(s)
    ensures |set n | n in nodes :: n.id| == |nodes|
  {
    var ids := set n | n in nodes :: n.id;
    if nodes == {} {
      assert ids == {};
    } else {
      var x :| x in nodes;
      var rest := set n | n in nodes - {x} :: n.id;
      SameCount(s, nodes - {x});
      assert x.id !in rest;
      assert ids == rest + {x.id};
    }
  }

  /** A part goes through exactly when some node is open, the first of the targets stores it and says
      so, and, unless no other node is open, the copies are answered. */
  lemma GoesThroughIff(s: State, put: Put, net: Net)
    requires Keyed(s)
    ensures GoesThrough(s, put, net) <==>
            && put == PutStored && (exists n :: IsOpen(s, n))
            && (net.responded || forall m, n :: IsOpen(s, m) && IsOpen(s, n) ==> m == n)
  {
    forall n ensures IsOpen(s, n) <==> n in s.nodes && s.nodes[n] in Takers(s) {
      if n in s.nodes {
        assert s.nodes[n] in NodeSet(s);
      }
    }
    OneTaker(s);
  }

  lemma OneTaker(s: State)
    requires Keyed(s) && forall n :: IsOpen(s, n) <==> n in s.nodes && s.nodes[n] in Takers(s)
    ensures Takers(s) != {} <==> exists n :: IsOpen(s, n)
    ensures Takers(s) != {} ==> (|Takers(s)| == 1 <==> forall m, n :: IsOpen(s, m) && IsOpen(s, n) ==> m == n)
  {
    forall x | x in Takers(s) ensures x.id in s.nodes && s.nodes[x.id] == x && IsOpen(s, x.id) {
      assert x in NodeSet(s);
    }
    if Takers(s) != {} {
      var x :| x in Takers(s);
      if |Takers(s)| == 1 {
        assert |Takers(s) - {x}| == 0;
        assert Takers(s) == {x};
      } else {
        assert |Takers(s) - {x}| == |Takers(s)| - 1;
        assert Takers(s) - {x} != {};
        var y :| y in Takers(s) - {x};
        assert IsOpen(s, x.id) && IsOpen(s, y.id) && x.id != y.id;
      }
    }
  }

  /** A file is admitted exactly when it has content and a name, its place in the tree and its ids are
      free, and so is the session's. */
  lemma AdmittedIff(s: State, req: UploadRequest)
    ensures Admits(s, req) <==>
            && |req.content| > 0 && PlaceFree(s, req.inode, req.parent, req.name)
            && req.file != "" && req.file !in s.files && (forall f :: f in s.files ==> s.files[f].inodeId != req.inode)
            && req.session != "" && req.session !in s.sessions
  {
    FileMade(s, req.inode, req.file, req.parent, req.name, |req.content|, Wrappers.None);
  }
}

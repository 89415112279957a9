/** The data nodes as seen by the controllers: what each node has on disk, changed by the
    handlers for PUT, DELETE and replicate requests (internal/datanode/http.go, store.go). */
module DataNodes {
  import opened Wrappers
  import opened Metadata
  import opened Sorting
  import opened Coordinator
  import opened Store

  class Cluster {
    var disks: map<NodeId, map<ChunkId, Bytes>>

    constructor (initial: map<NodeId, map<ChunkId, Bytes>>)
      ensures disks == initial
    {
      disks := initial;
    }

    /** PUT /chunks/:id on one node. */
    method Put(node: NodeId, chunk: ChunkId, data: Bytes)
      modifies this
      ensures disks == CopyBytes(old(disks), chunk, data, {node})
    {
      var disk := if node in disks then disks[node] else map[];
      disks := disks[node := disk[chunk := data]];
      assert disks == CopyBytes(old(disks), chunk, data, {node});
    }

    /** DELETE /chunks/:id on one node; true when the caller sees 200 or 204. */
    method Delete(node: NodeId, chunk: ChunkId, outcome: Coordinator.Delete) returns (acknowledged: bool)
      modifies this
      ensures disks == if outcome == NotDone then old(disks) else DropFromDisk(old(disks), node, chunk)
      ensures acknowledged <==> outcome == Acknowledged && node in old(disks) && chunk in old(disks)[node]
    {
      acknowledged := outcome == Acknowledged && node in disks && chunk in disks[node];
      if outcome != NotDone && node in disks {
        disks := disks[node := disks[node] - {chunk}];
      }
    }

    /** POST /internal/replicate: the source forwards its bytes to each target in turn.  The
        result holds the targets reported ready, or nothing if no 2xx answer arrives. */
    method Replicate(source: NodeId, chunk: ChunkId, targets: seq<NodeId>, net: Net)
      returns (ready: Option<set<NodeId>>)
      modifies this
      ensures var holds := source in old(disks) && chunk in old(disks)[source];
              && disks == (if holds then CopyBytes(old(disks), chunk, old(disks)[source][chunk],
                                                   Elements(targets) * net.delivered)
                           else old(disks))
              && ready == if holds && net.responded then Some(Elements(targets) * net.delivered * net.acked) else None
    {
      if !(source in disks && chunk in disks[source]) {
        return None;
      }
      var data := disks[source][chunk];
      assert disks == CopyBytes(disks, chunk, data, {});
      assert Elements(targets[..0]) * net.delivered == {};
      var done: set<NodeId> := {};
      for i := 0 to |targets|
        invariant disks == CopyBytes(old(disks), chunk, data, Elements(targets[..i]) * net.delivered)
        invariant done == Elements(targets[..i]) * net.delivered * net.acked
      {
        assert targets[..i + 1] == targets[..i] + [targets[i]];
        assert Elements(targets[..i + 1]) == Elements(targets[..i]) + {targets[i]};
        if targets[i] in net.delivered {
          CopyMore(old(disks), chunk, data, Elements(targets[..i]) * net.delivered, {targets[i]});
          Put(targets[i], chunk, data);
          if targets[i] in net.acked {
            done := done + {targets[i]};
          }
        }
        assert Elements(targets[..i + 1]) * net.delivered ==
               Elements(targets[..i]) * net.delivered + (if targets[i] in net.delivered then {targets[i]} else {});
      }
      assert targets[..|targets|] == targets;
      ready := if net.responded then Some(done) else None;
    }
  }

  lemma CopyMore(disks: map<NodeId, map<ChunkId, Bytes>>, chunk: ChunkId, data: Bytes, a: set<NodeId>, b: set<NodeId>)
    ensures CopyBytes(CopyBytes(disks, chunk, data, a), chunk, data, b) == CopyBytes(disks, chunk, data, a + b)
  {
    var once := CopyBytes(disks, chunk, data, a);
    var twice, all := CopyBytes(once, chunk, data, b), CopyBytes(disks, chunk, data, a + b);
    assert twice.Keys == all.Keys;
    forall m | m in all ensures twice[m] == all[m] {
    }
  }

  /** The repository and the disks together. */
  function WorldOf(repo: Repository, cluster: Cluster): World
    reads repo, cluster
  {
    World(repo.state, cluster.disks)
  }
}

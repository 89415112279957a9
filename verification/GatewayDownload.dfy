/** Reading a file back (internal/mds/service_read.go and the download half of
    internal/gateway/http.go): the chunks in order, each from the first candidate that answers. */
module GatewayDownload {
  import opened Wrappers
  import opened Metadata
  import opened Strings
  import opened Sorting
  import opened Coordinator
  import opened Upload
  import opened UploadInvariants
  import opened ChunkLists
  import opened Parts
  import opened Listing
  import opened Store
  import opened DataNodes

  // ---------------------------------------------------------------- candidates

  predicate Serving(r: Replica) {
    r.state == Ready || r.state == Writing
  }

  function RoleRank(role: ReplicaRole): int {
    match role
    case Primary => 0
    case Secondary => 1
    case Witness => 2
  }

  datatype Candidate = Candidate(node: NodeId, replica: Replica)

  /** Serving replicas first, then by role, then by node id. */
  predicate Preferred(a: Candidate, b: Candidate) {
    if Serving(a.replica) != Serving(b.replica) then Serving(a.replica)
    else if a.replica.role != b.replica.role then RoleRank(a.replica.role) < RoleRank(b.replica.role)
    else Less(a.node, b.node)
  }

  function Candidates(replicas: ReplicaSet): map<NodeId, Candidate> {
    map n | n in replicas :: Candidate(n, replicas[n])
  }

  lemma PreferredIsStrictTotal(replicas: ReplicaSet)
    ensures StrictTotalOn(Preferred, Candidates(replicas).Values)
  {
    var xs := Candidates(replicas).Values;
    forall x | x in xs ensures !Preferred(x, x) {
      LessIrreflexive(x.node);
    }
    forall x, y, z | x in xs && y in xs && z in xs && Preferred(x, y) && Preferred(y, z) ensures Preferred(x, z) {
      if Less(x.node, y.node) && Less(y.node, z.node) {
        LessTransitive(x.node, y.node, z.node);
      }
    }
    forall x, y | x in xs && y in xs ensures x == y || Preferred(x, y) || Preferred(y, x) {
      LessTotal(x.node, y.node);
    }
  }

  /** Every replica's node once, best first. */
  ghost predicate IsCandidateOrder(replicas: ReplicaSet, nodes: seq<NodeId>) {
    && Distinct(nodes) && Elements(nodes) == replicas.Keys
    && forall i, j :: 0 <= i < j < |nodes| ==>
         Preferred(Candidate(nodes[i], replicas[nodes[i]]), Candidate(nodes[j], replicas[nodes[j]]))
  }

  /** What the order is: no node that cannot serve is ahead of one that can; among the others primaries
      come first, then secondaries, then witnesses; among equals the smaller id. */
  lemma CandidateOrderIs(replicas: ReplicaSet, nodes: seq<NodeId>, i: nat, j: nat)
    requires IsCandidateOrder(replicas, nodes) && i < j < |nodes|
    ensures nodes[i] in replicas && nodes[j] in replicas && nodes[i] != nodes[j]
    ensures var a, b := replicas[nodes[i]], replicas[nodes[j]];
            && (b.state in {Ready, Writing} ==> a.state in {Ready, Writing})
            && ((a.state in {Ready, Writing} <==> b.state in {Ready, Writing}) ==>
                  && (b.role == Primary ==> a.role == Primary) && (b.role == Secondary ==> a.role != Witness)
                  && (a.role == b.role ==> Less(nodes[i], nodes[j])))
  {
    assert nodes[i] in Elements(nodes) && nodes[j] in Elements(nodes);
    assert Preferred(Candidate(nodes[i], replicas[nodes[i]]), Candidate(nodes[j], replicas[nodes[j]]));
  }

  method OrderedReplicaCandidates(replicas: ReplicaSet) returns (nodes: seq<NodeId>, preferred: NodeId)
    ensures IsCandidateOrder(replicas, nodes)
    ensures preferred == if nodes == [] then "" else nodes[0]
  {
    var all := (c: Candidate) => true;
    var byNode := Candidates(replicas);
    var l := ListWhere(byNode, all, Preferred);
    assert Matching(byNode, all) == byNode.Values;
    PreferredIsStrictTotal(replicas);
    nodes := [];
    for i := 0 to |l|
      invariant |nodes| == i && forall j :: 0 <= j < i ==> nodes[j] == l[j].node
    {
      nodes := nodes + [l[i].node];
    }
    NamesOfCandidates(replicas, l, nodes);
    preferred := if |nodes| == 0 then "" else nodes[0];
  }

  lemma NamesOfCandidates(replicas: ReplicaSet, l: seq<Candidate>, nodes: seq<NodeId>)
    requires Elements(l) == Candidates(replicas).Values && Distinct(l) && Sorted(Preferred, l)
    requires |nodes| == |l| && forall j :: 0 <= j < |l| ==> nodes[j] == l[j].node
    ensures IsCandidateOrder(replicas, nodes)
  {
    forall j | 0 <= j < |l| ensures nodes[j] in replicas && l[j] == Candidate(nodes[j], replicas[nodes[j]]) {
      assert l[j] in Elements(l);
    }
    forall n | n in replicas ensures n in nodes {
      assert Candidates(replicas)[n] in Elements(l);
      var j :| 0 <= j < |l| && l[j] == Candidate(n, replicas[n]);
      assert nodes[j] == n;
    }
  }

  /** The sequence without the elements that occur earlier in it. */
  function FirstOccurrences<T(==)>(s: seq<T>): seq<T> {
    if s == [] then []
    else
      var last := |s| - 1;
      if s[last] in s[..last] then FirstOccurrences(s[..last]) else FirstOccurrences(s[..last]) + [s[last]]
  }

  lemma OneMore<T>(s: seq<T>, x: T)
    ensures FirstOccurrences(s + [x]) == if x in s then FirstOccurrences(s) else FirstOccurrences(s) + [x]
  {
    assert (s + [x])[..|s|] == s;
  }

  /** Every element once, the first one first. */
  lemma {:induction false} EachOnce<T>(s: seq<T>)
    ensures Distinct(FirstOccurrences(s)) && forall x :: x in FirstOccurrences(s) <==> x in s
    ensures s != [] ==> FirstOccurrences(s) != [] && FirstOccurrences(s)[0] == s[0]
  {
    if s != [] {
      var last := |s| - 1;
      assert s == s[..last] + [s[last]];
      EachOnce(s[..last]);
      OneMore(s[..last], s[last]);
    }
  }

  /** In the order of their first occurrences: what comes before the first occurrence of an element
      gives what is listed before it. */
  lemma {:induction false} InOrder<T>(s: seq<T>, k: nat)
    requires k <= |s|
    ensures FirstOccurrences(s[..k]) <= FirstOccurrences(s)
    decreases |s|
  {
    if k < |s| {
      var last := |s| - 1;
      assert s[..last][..k] == s[..k];
      InOrder(s[..last], k);
    } else {
      assert s[..k] == s;
    }
  }

  lemma {:induction false} NothingRepeated<T>(s: seq<T>)
    requires Distinct(s)
    ensures FirstOccurrences(s) == s
  {
    if s != [] {
      var last := |s| - 1;
      assert s == s[..last] + [s[last]];
      NothingRepeated(s[..last]);
      OneMore(s[..last], s[last]);
    }
  }

  function Listed(preferred: NodeId, nodes: seq<NodeId>): seq<NodeId> {
    (if preferred != "" then [preferred] else []) + nodes
  }

  /** A list that starts with the preferred node and repeats nothing stays as it is. */
  lemma AlreadyOrdered(preferred: NodeId, nodes: seq<NodeId>)
    requires Distinct(nodes) && preferred == if nodes == [] then "" else nodes[0]
    ensures FirstOccurrences(Listed(preferred, nodes)) == nodes
  {
    if preferred == "" {
      assert Listed(preferred, nodes) == nodes;
      NothingRepeated(nodes);
    } else {
      FirstRepeated(nodes, |nodes|);
      assert nodes[..|nodes|] == nodes;
    }
  }

  lemma {:induction false} FirstRepeated(nodes: seq<NodeId>, k: nat)
    requires Distinct(nodes) && 1 <= k <= |nodes|
    ensures FirstOccurrences([nodes[0]] + nodes[..k]) == nodes[..k]
  {
    var s := [nodes[0]] + nodes[..k];
    assert s[..k] == [nodes[0]] + nodes[..k - 1];
    if k == 1 {
      assert s[..1] == [nodes[0]] && s[..1][..0] == [];
      assert FirstOccurrences(s[..1]) == [nodes[0]];
    } else {
      FirstRepeated(nodes, k - 1);
      assert nodes[..k] == nodes[..k - 1] + [nodes[k - 1]];
    }
  }

  /** The preferred node first, then the candidates, each node once. */
  method OrderedCandidateNodeIds(preferred: NodeId, nodes: seq<NodeId>) returns (l: seq<NodeId>)
    ensures l == FirstOccurrences(Listed(preferred, nodes))
  {
    l := [];
    var seen: set<NodeId> := {};
    if preferred != "" {
      l, seen := [preferred], {preferred};
    }
    ghost var done := l;
    NothingRepeated(l);
    for i := 0 to |nodes|
      invariant done == Listed(preferred, nodes[..i]) && l == FirstOccurrences(done)
      invariant forall n :: n in seen <==> n in done
    {
      ListedMore(preferred, nodes, i);
      OneMore(done, nodes[i]);
      done := done + [nodes[i]];
      if nodes[i] !in seen {
        l := l + [nodes[i]];
        seen := seen + {nodes[i]};
      }
    }
    assert nodes[..|nodes|] == nodes;
  }

  lemma ListedMore(preferred: NodeId, nodes: seq<NodeId>, i: nat)
    requires i < |nodes|
    ensures Listed(preferred, nodes[..i + 1]) == Listed(preferred, nodes[..i]) + [nodes[i]]
  {
  }

  // ---------------------------------------------------------------- fetching

  /** The GET requests that get through, by chunk and node. */
  type Reach = set<(ChunkId, NodeId)>

  /** Node `n` answers a request for the chunk. */
  predicate Answers(w: World, reach: Reach, c: ChunkId, n: NodeId) {
    && n in w.db.nodes && !Blank(w.db.nodes[n].address)
    && (c, n) in reach && c in Disk(w, n)
  }

  /** The bytes of the first candidate that answers. */
  function FirstAnswer(w: World, reach: Reach, c: ChunkId, nodes: seq<NodeId>): Option<Bytes> {
    if nodes == [] then None
    else if Answers(w, reach, c, nodes[0]) then Some(Disk(w, nodes[0])[c])
    else FirstAnswer(w, reach, c, nodes[1..])
  }

  method FetchChunk(repo: Repository, cluster: Cluster, c: ChunkId, nodes: seq<NodeId>, reach: Reach)
    returns (data: Option<Bytes>)
    ensures data == FirstAnswer(WorldOf(repo, cluster), reach, c, nodes)
    ensures data.None? ==> forall n :: n in nodes ==> !Answers(WorldOf(repo, cluster), reach, c, n)
    ensures data.Some? ==>
              exists k :: 0 <= k < |nodes| && Answers(WorldOf(repo, cluster), reach, c, nodes[k])
                          && data.value == cluster.disks[nodes[k]][c]
                          && forall j :: 0 <= j < k ==> !Answers(WorldOf(repo, cluster), reach, c, nodes[j])
  {
    ghost var w := WorldOf(repo, cluster);
    for i := 0 to |nodes|
      invariant FirstAnswer(w, reach, c, nodes) == FirstAnswer(w, reach, c, nodes[i..])
      invariant forall j :: 0 <= j < i ==> !Answers(w, reach, c, nodes[j])
    {
      var n := nodes[i];
      assert nodes[i..][1..] == nodes[i + 1..];
      if n in repo.state.nodes && !Blank(repo.state.nodes[n].address) {
        if (c, n) in reach && n in cluster.disks && c in cluster.disks[n] {
          assert Answers(w, reach, c, nodes[i]);
          return Some(cluster.disks[n][c]);
        }
      }
    }
    data := None;
  }

  /** Some replica's node answers. */
  predicate Reachable(w: World, reach: Reach, c: ChunkId) {
    c in w.db.chunks && exists n :: n in w.db.chunks[c].replicas && Answers(w, reach, c, n)
  }

  lemma {:induction false} FirstAnswerSays(w: World, reach: Reach, c: ChunkId, nodes: seq<NodeId>)
    ensures FirstAnswer(w, reach, c, nodes).Some? <==> exists n :: n in nodes && Answers(w, reach, c, n)
    ensures FirstAnswer(w, reach, c, nodes).Some? ==>
              exists n :: n in nodes && Answers(w, reach, c, n)
                && FirstAnswer(w, reach, c, nodes).value == Disk(w, n)[c]
  {
    if nodes != [] {
      assert nodes == [nodes[0]] + nodes[1..];
      FirstAnswerSays(w, reach, c, nodes[1..]);
    }
  }

  /** Every copy of the chunk on the node of one of its replicas is `data`. */
  predicate CopiesAgree(w: World, c: ChunkId, data: Bytes) {
    c in w.db.chunks &&
    forall n :: n in w.db.chunks[c].replicas && n in w.db.nodes && !Blank(w.db.nodes[n].address) && c in Disk(w, n)
                ==> Disk(w, n)[c] == data
  }

  /** A read of one chunk gives `data` or fails, whatever requests get through, exactly when all
      its copies agree: nothing is checked on the way. */
  lemma ReadExactIff(w: World, c: ChunkId, nodes: seq<NodeId>, data: Bytes)
    requires c in w.db.chunks && IsCandidateOrder(w.db.chunks[c].replicas, nodes)
    ensures (forall reach: Reach :: FirstAnswer(w, reach, c, nodes).Some? ==>
               FirstAnswer(w, reach, c, nodes).value == data)
            <==> CopiesAgree(w, c, data)
  {
    var replicas := w.db.chunks[c].replicas;
    assert forall n :: n in nodes <==> n in replicas;
    if CopiesAgree(w, c, data) {
      forall reach: Reach | FirstAnswer(w, reach, c, nodes).Some?
        ensures FirstAnswer(w, reach, c, nodes).value == data
      {
        FirstAnswerSays(w, reach, c, nodes);
      }
    } else {
      var n :| n in replicas && n in w.db.nodes && !Blank(w.db.nodes[n].address) && c in Disk(w, n)
        && Disk(w, n)[c] != data;
      var only: Reach := {(c, n)};
      assert Answers(w, only, c, n);
      FirstAnswerSays(w, only, c, nodes);
      assert FirstAnswer(w, only, c, nodes).value != data;
    }
  }

  // ---------------------------------------------------------------- whole files

  /** What reading one chunk comes to. */
  ghost predicate Reads(w: World, reach: Reach, chunk: Chunk, data: Option<Bytes>) {
    exists nodes :: IsCandidateOrder(chunk.replicas, nodes) && data == FirstAnswer(w, reach, chunk.id, nodes)
  }

  function Joined(parts: seq<Bytes>): Bytes {
    if parts == [] then [] else Joined(parts[..|parts| - 1]) + parts[|parts| - 1]
  }

  method ReadChunk(repo: Repository, cluster: Cluster, chunk: Chunk, reach: Reach) returns (data: Option<Bytes>)
    ensures Reads(WorldOf(repo, cluster), reach, chunk, data)
  {
    var candidates, preferred := OrderedReplicaCandidates(chunk.replicas);
    var nodes := OrderedCandidateNodeIds(preferred, candidates);
    AlreadyOrdered(preferred, candidates);
    data := FetchChunk(repo, cluster, chunk.id, nodes, reach);
  }

  /** Build the plan, fetch every chunk in order, and write them out one after the other. */
  method DownloadChunks(repo: Repository, cluster: Cluster, f: FileId, reach: Reach)
    returns (content: Option<Bytes>, ghost list: seq<Chunk>, ghost parts: seq<Bytes>)
    requires ChunksOk(repo.state.chunks)
    ensures IsChunkList(repo.state.chunks, f, list)
    ensures content.Some? ==> f in repo.state.files && list != [] && |parts| == |list| && content.value == Joined(parts)
    ensures content.Some? ==> forall i :: 0 <= i < |list| ==>
              Reads(WorldOf(repo, cluster), reach, list[i], Some(parts[i]))
    ensures content.None? ==> f !in repo.state.files || list == []
                              || exists i :: 0 <= i < |list| && Reads(WorldOf(repo, cluster), reach, list[i], None)
  {
    var chunks := ListChunksByFile(repo.state, f);
    list, parts := chunks, [];
    if f !in repo.state.files || |chunks| == 0 {
      return None, chunks, [];
    }
    var fetched: seq<Bytes> := [];
    for i := 0 to |chunks|
      invariant parts == fetched && |fetched| == i
      invariant forall j :: 0 <= j < i ==> Reads(WorldOf(repo, cluster), reach, chunks[j], Some(fetched[j]))
    {
      var data := ReadChunk(repo, cluster, chunks[i], reach);
      if data.None? {
        return None, chunks, [];
      }
      fetched := fetched + [data.value];
      parts := fetched;
    }
    var written: Bytes := [];
    for i := 0 to |fetched|
      invariant written == Joined(fetched[..i])
    {
      assert fetched[..i + 1][..i] == fetched[..i];
      written := written + fetched[i];
    }
    assert fetched[..|fetched|] == fetched;
    content := Some(written);
  }

  // ---------------------------------------------------------------- files cut by the gateway

  /** The file is recorded part by part, and every copy of a part is that part of the content. */
  ghost predicate StoresFile(w: World, f: FileId, base: ChunkId, content: Bytes) {
    && f in w.db.files && |content| > 0 && ChunksOk(w.db.chunks)
    && HasParts(w.db.chunks, f, base, content, ChunkCount(|content|))
    && forall i :: 0 <= i < ChunkCount(|content|) ==>
         CopiesAgree(w, PartId(base, i, ChunkCount(|content|)), Part(content, i))
  }

  /** Every part has a replica that answers. */
  ghost predicate AllReachable(w: World, base: ChunkId, content: Bytes, reach: Reach) {
    forall i :: 0 <= i < ChunkCount(|content|) ==> Reachable(w, reach, PartId(base, i, ChunkCount(|content|)))
  }

  lemma PartIndex(chunks: Chunks, f: FileId, base: ChunkId, content: Bytes, l: seq<Chunk>, j: nat) returns (i: nat)
    requires HasParts(chunks, f, base, content, ChunkCount(|content|)) && IsChunkList(chunks, f, l) && j < |l|
    ensures i < ChunkCount(|content|) && l[j].id == PartId(base, i, ChunkCount(|content|)) && l[j].index == i
  {
    assert Of(chunks, l[j].id, f);
    i :| 0 <= i < ChunkCount(|content|) && l[j].id == PartId(base, i, ChunkCount(|content|));
    assert IsPart(chunks, f, base, content, i);
  }

  lemma PartListed(chunks: Chunks, f: FileId, base: ChunkId, content: Bytes, l: seq<Chunk>, i: nat)
    requires HasParts(chunks, f, base, content, ChunkCount(|content|)) && IsChunkList(chunks, f, l)
    requires i < ChunkCount(|content|)
    ensures ListHasIndex(l, i)
  {
    assert IsPart(chunks, f, base, content, i);
    var m :| 0 <= m < |l| && l[m] == chunks[PartId(base, i, ChunkCount(|content|))];
  }

  /** The chunk list of such a file is its parts in order. */
  lemma ListIsParts(chunks: Chunks, f: FileId, base: ChunkId, content: Bytes, l: seq<Chunk>)
    requires ChunksOk(chunks) && |content| > 0
    requires HasParts(chunks, f, base, content, ChunkCount(|content|)) && IsChunkList(chunks, f, l)
    ensures |l| == ChunkCount(|content|)
    ensures forall j :: 0 <= j < |l| ==> l[j].id == PartId(base, j, |l|)
  {
    var total := ChunkCount(|content|);
    forall j | 0 <= j < |l| ensures 0 <= l[j].index < total && l[j].id == PartId(base, l[j].index, total) {
      var i := PartIndex(chunks, f, base, content, l, j);
    }
    forall j, k | 0 <= j < |l| && 0 <= k < l[j].index ensures ListHasIndex(l, k) {
      PartListed(chunks, f, base, content, l, k);
    }
    PartListed(chunks, f, base, content, l, total - 1);
    var m :| 0 <= m < |l| && l[m].index == total - 1;
    GaplessPositions(l, |l| - 1);
    assert l[|l| - 1].index == |l| - 1 && l[m].index == m;
    assert |l| == total;
    assert forall j :: 0 <= j < |l| ==> l[j].index == j;
  }

  lemma ReadsPart(w: World, reach: Reach, chunk: Chunk, part: Bytes, data: Option<Bytes>)
    requires chunk.id in w.db.chunks && w.db.chunks[chunk.id] == chunk && CopiesAgree(w, chunk.id, part)
    requires Reads(w, reach, chunk, data)
    ensures data == if Reachable(w, reach, chunk.id) then Some(part) else None
  {
    var nodes :| IsCandidateOrder(chunk.replicas, nodes) && data == FirstAnswer(w, reach, chunk.id, nodes);
    assert forall n :: n in nodes <==> n in chunk.replicas;
    FirstAnswerSays(w, reach, chunk.id, nodes);
  }

  lemma {:induction false} JoinedParts(content: Bytes, parts: seq<Bytes>)
    requires forall i :: 0 <= i < |parts| ==> parts[i] == Part(content, i)
    ensures Joined(parts) == content[..Start(content, |parts|)]
  {
    if parts != [] {
      var last := |parts| - 1;
      JoinedParts(content, parts[..last]);
      PartsMakeUp(content, last);
    }
  }

  /** What a download of such a file returns: the content if every part has a replica that
      answers, and nothing at all otherwise. */
  lemma DownloadExact(w: World, f: FileId, base: ChunkId, content: Bytes, reach: Reach, result: Option<Bytes>,
                      l: seq<Chunk>, parts: seq<Bytes>)
    requires StoresFile(w, f, base, content) && IsChunkList(w.db.chunks, f, l)
    requires result.Some? ==> |parts| == |l| && result.value == Joined(parts)
    requires result.Some? ==> forall i :: 0 <= i < |l| ==> Reads(w, reach, l[i], Some(parts[i]))
    requires result.None? ==> f !in w.db.files || l == [] || exists i :: 0 <= i < |l| && Reads(w, reach, l[i], None)
    ensures result == if AllReachable(w, base, content, reach) then Some(content) else None
  {
    var total := ChunkCount(|content|);
    ListIsParts(w.db.chunks, f, base, content, l);
    PartSize(content, 0);
    if result.Some? {
      forall i | 0 <= i < |l| ensures Reachable(w, reach, PartId(base, i, total)) && parts[i] == Part(content, i) {
        ReadsPart(w, reach, l[i], Part(content, i), Some(parts[i]));
      }
      JoinedParts(content, parts);
      PartsMakeUp(content, total);
    } else {
      var i :| 0 <= i < |l| && Reads(w, reach, l[i], None);
      ReadsPart(w, reach, l[i], Part(content, i), None);
      assert !Reachable(w, reach, PartId(base, i, total));
    }
  }

  /** A download gives back the content of a file cut by the gateway if every part has a replica
      that answers, and nothing otherwise. */
  method Download(repo: Repository, cluster: Cluster, f: FileId, reach: Reach) returns (content: Option<Bytes>)
    requires ChunksOk(repo.state.chunks)
    ensures f !in repo.state.files ==> content.None?
    ensures forall base, bytes :: StoresFile(WorldOf(repo, cluster), f, base, bytes) ==>
              content == if AllReachable(WorldOf(repo, cluster), base, bytes, reach) then Some(bytes) else None
  {
    ghost var list, parts;
    content, list, parts := DownloadChunks(repo, cluster, f, reach);
    forall base, bytes | StoresFile(WorldOf(repo, cluster), f, base, bytes)
      ensures content == if AllReachable(WorldOf(repo, cluster), base, bytes, reach) then Some(bytes) else None
    {
      DownloadExact(WorldOf(repo, cluster), f, base, bytes, reach, content, list, parts);
    }
  }
}

/** Deletion as the service performs it: cascades and recursion over the tree
    (internal/mds/service_mutation.go:281-335). */
module NamespaceDelete {
  import opened Wrappers
  import opened Metadata
  import opened Sorting
  import opened Store
  import opened Namespace
  import opened NamespaceRuns
  import opened NamespaceService
  import opened NamespaceShape

  // ---------------------------------------------------------------- loops

  method DropSessions(sessions: map<SessionId, Session>, f: FileId) returns (r: map<SessionId, Session>)
    ensures r == sessions - (set u | u in sessions && sessions[u].fileId == f)
  {
    r := sessions;
    var todo := sessions.Keys;
    while todo != {}
      invariant todo <= sessions.Keys
      invariant r == sessions - (set u | u in sessions && sessions[u].fileId == f && u !in todo)
      decreases |todo|
    {
      var u :| u in todo;
      todo := todo - {u};
      if sessions[u].fileId == f {
        r := r - {u};
      }
    }
    assert (set u | u in sessions && sessions[u].fileId == f && u !in todo)
        == (set u | u in sessions && sessions[u].fileId == f);
  }

  method DropChunks(chunks: map<ChunkId, Chunk>, f: FileId) returns (r: map<ChunkId, Chunk>)
    ensures r == chunks - (set c | c in chunks && chunks[c].fileId == f)
  {
    r := chunks;
    var todo := chunks.Keys;
    while todo != {}
      invariant todo <= chunks.Keys
      invariant r == chunks - (set c | c in chunks && chunks[c].fileId == f && c !in todo)
      decreases |todo|
    {
      var c :| c in todo;
      todo := todo - {c};
      if chunks[c].fileId == f {
        r := r - {c};
      }
    }
    assert (set c | c in chunks && chunks[c].fileId == f && c !in todo)
        == (set c | c in chunks && chunks[c].fileId == f);
  }

  /** listChildren, as the ids of the live children in some order. */
  method ListChildren(inodes: Inodes, parent: InodeId) returns (l: seq<InodeId>)
    ensures forall i :: i in l <==> i in inodes && inodes[i].parentId == parent && inodes[i].status != InodeDeleted
    ensures Distinct(l)
  {
    l := [];
    var todo := inodes.Keys;
    while todo != {}
      invariant todo <= inodes.Keys
      invariant forall i :: i in l <==>
                  i in inodes && i !in todo && inodes[i].parentId == parent && inodes[i].status != InodeDeleted
      invariant Distinct(l)
      decreases |todo|
    {
      var i :| i in todo;
      todo := todo - {i};
      if inodes[i].parentId == parent && inodes[i].status != InodeDeleted {
        l := l + [i];
      }
    }
  }

  /** deleteFileCascade */
  method DeleteFileCascade(s: State, fileId: FileId) returns (r: Result<State>)
    requires fileId != ""
    ensures r == DeleteFile(s, fileId)
  {
    if fileId !in s.files {
      return Err(NotFound);
    }
    var inodeId := s.files[fileId].inodeId;
    var sessions := DropSessions(s.sessions, fileId);
    var chunks := DropChunks(s.chunks, fileId);
    var tx := s.(sessions := sessions, chunks := chunks, files := s.files - {fileId});
    if inodeId !in tx.inodes {
      return Err(NotFound);
    }
    var children := ListChildren(tx.inodes, inodeId);
    if children != [] {
      assert children[0] in children;
      assert HasChildren(s.inodes, inodeId);
      return Err(Conflict);
    }
    assert !HasChildren(s.inodes, inodeId) by {
      assert forall i :: i !in children;
    }
    tx := tx.(inodes := tx.inodes - {inodeId});
    ghost var goal := Drop(s, {inodeId}, {fileId});
    assert tx.chunks == goal.chunks && tx.sessions == goal.sessions;
    r := Ok(tx);
  }

  // ---------------------------------------------------------------- pruning piece by piece

  lemma PruneTwice(s: State, a: set<InodeId>, b: set<InodeId>)
    ensures Prune(Prune(s, a), b) == Prune(s, a + b)
  {
    var t := Prune(s, a);
    var gone, rest := FilesOf(s, a), FilesOf(t, b);
    assert FilesOf(s, a + b) == gone + rest;
    assert (s.inodes - a) - b == s.inodes - (a + b);
    assert (s.files - gone) - rest == s.files - (gone + rest);
    assert t.chunks - (set c | c in t.chunks && t.chunks[c].fileId in rest)
        == s.chunks - (set c | c in s.chunks && s.chunks[c].fileId in gone + rest);
    assert t.sessions - (set u | u in t.sessions && t.sessions[u].fileId in rest)
        == s.sessions - (set u | u in s.sessions && s.sessions[u].fileId in gone + rest);
  }

  /** Everything at or below one of the listed inodes. */
  ghost function Forest(inodes: Inodes, roots: seq<InodeId>): set<InodeId> {
    set i | i in inodes && exists j :: 0 <= j < |roots| && i in Subtree(inodes, roots[j])
  }

  lemma ForestMore(inodes: Inodes, roots: seq<InodeId>, n: int)
    requires 0 <= n < |roots|
    ensures Forest(inodes, roots[..n + 1]) == Forest(inodes, roots[..n]) + Subtree(inodes, roots[n])
  {
    assert forall j :: 0 <= j <= n ==> roots[..n + 1][j] == roots[j];
    assert forall j :: 0 <= j < n ==> roots[..n][j] == roots[j];
    forall i | i in Forest(inodes, roots[..n + 1]) ensures i in Forest(inodes, roots[..n]) + Subtree(inodes, roots[n]) {
      var j :| 0 <= j < n + 1 && i in Subtree(inodes, roots[..n + 1][j]);
      if j < n {
        assert i in Subtree(inodes, roots[..n][j]);
      }
    }
    forall i | i in Forest(inodes, roots[..n]) + Subtree(inodes, roots[n]) ensures i in Forest(inodes, roots[..n + 1]) {
      if i in Forest(inodes, roots[..n]) {
        var j :| 0 <= j < n && i in Subtree(inodes, roots[..n][j]);
        assert i in Subtree(inodes, roots[..n + 1][j]);
      } else {
        assert i in Subtree(inodes, roots[..n + 1][n]);
      }
    }
  }

  lemma ForestDownClosed(inodes: Inodes, roots: seq<InodeId>)
    requires Placed(inodes) && forall j :: 0 <= j < |roots| ==> roots[j] in inodes && roots[j] != ROOT_INODE_ID
    ensures DownClosed(inodes, Forest(inodes, roots))
  {
    forall j | 0 <= j < |roots| ensures DownClosed(inodes, Subtree(inodes, roots[j])) {
      SubtreeIsDownClosed(inodes, roots[j]);
    }
    forall i | i in inodes && i != ROOT_INODE_ID && inodes[i].parentId in Forest(inodes, roots)
      ensures i in Forest(inodes, roots)
    {
      var j :| 0 <= j < |roots| && inodes[i].parentId in Subtree(inodes, roots[j]);
      assert i in Subtree(inodes, roots[j]);
    }
  }

  /** Pruning a closed set away from a subtree leaves that subtree as it was. */
  lemma {:induction false} DescendsAfterPrune(inodes: Inodes, doomed: set<InodeId>, d: InodeId, a: InodeId, rank: Ranks)
    requires Placed(inodes) && Ranked(inodes, rank) && DownClosed(inodes, doomed)
    requires d in inodes && a in inodes && a !in doomed && d !in doomed
    ensures Descends(inodes - doomed, d, a) <==> Descends(inodes, d, a)
    decreases rank[d]
  {
    if d != ROOT_INODE_ID {
      assert Hung(inodes, d);
      DescendsAfterPrune(inodes, doomed, inodes[d].parentId, a, rank);
    }
  }

  lemma SubtreeAfterPrune(inodes: Inodes, doomed: set<InodeId>, a: InodeId, rank: Ranks)
    requires Placed(inodes) && Ranked(inodes, rank) && DownClosed(inodes, doomed)
    requires a in inodes && Subtree(inodes, a) !! doomed
    ensures Subtree(inodes - doomed, a) == Subtree(inodes, a)
  {
    assert a in Subtree(inodes, a);
    forall i | i in inodes && i !in doomed ensures Descends(inodes - doomed, i, a) <==> Descends(inodes, i, a) {
      DescendsAfterPrune(inodes, doomed, i, a, rank);
    }
  }

  /** A directory's subtree is itself and the subtrees of its children. */
  lemma {:induction false} SubtreeOfChildren(inodes: Inodes, id: InodeId, children: seq<InodeId>, rank: Ranks)
    requires Ranked(inodes, rank) && id in inodes
    requires forall i :: i in children <==> i in inodes && inodes[i].parentId == id
    ensures Subtree(inodes, id) == Forest(inodes, children) + {id}
  {
    forall i | i in inodes && Descends(inodes, i, id) ensures i in Forest(inodes, children) {
      BelowAChild(inodes, id, children, i, rank);
    }
    forall i | i in Forest(inodes, children) ensures i in Subtree(inodes, id) {
      var j :| 0 <= j < |children| && i in Subtree(inodes, children[j]);
      assert children[j] in children;
      DescendsThrough(inodes, i, children[j], id, rank);
    }
  }

  lemma {:induction false} BelowAChild(inodes: Inodes, id: InodeId, children: seq<InodeId>, i: InodeId, rank: Ranks)
    requires Ranked(inodes, rank) && i in inodes && Descends(inodes, i, id)
    requires forall k :: k in children <==> k in inodes && inodes[k].parentId == id
    ensures i in Forest(inodes, children)
    decreases rank[i]
  {
    if inodes[i].parentId == id {
      var j :| 0 <= j < |children| && children[j] == i;
      assert i in Subtree(inodes, children[j]);
    } else {
      var p := inodes[i].parentId;
      BelowAChild(inodes, id, children, p, rank);
      var j :| 0 <= j < |children| && p in Subtree(inodes, children[j]);
      assert i in Subtree(inodes, children[j]);
    }
  }

  // ---------------------------------------------------------------- the recursion

  /** One child's turn: the state so far still holds the child's whole subtree. */
  lemma ChildIntact(s: State, id: InodeId, children: seq<InodeId>, k: int)
    requires Sturdy(s) && id in s.inodes && 0 <= k < |children| && Distinct(children)
    requires forall i :: i in children <==> i in s.inodes && s.inodes[i].parentId == id
    ensures var done := Forest(s.inodes, children[..k]);
            var tx, child := Prune(s, done), children[k];
            && child in s.inodes && child != ROOT_INODE_ID
            && Sturdy(tx) && child in tx.inodes && tx.inodes[child] == s.inodes[child]
            && Subtree(tx.inodes, child) == Subtree(s.inodes, child)
  {
    var done, child := Forest(s.inodes, children[..k]), children[k];
    var rank :| Ranked(s.inodes, rank);
    assert forall j :: 0 <= j < |children| ==> children[j] in children;
    forall j | 0 <= j < k ensures children[..k][j] in s.inodes && children[..k][j] != ROOT_INODE_ID {
      assert children[..k][j] == children[j];
    }
    ForestDownClosed(s.inodes, children[..k]);
    PruneKeepsSturdy(s, done);
    forall i | i in Subtree(s.inodes, child) ensures i !in done {
      forall j | 0 <= j < k ensures i !in Subtree(s.inodes, children[..k][j]) {
        SiblingsDisjoint(s.inodes, child, children[j], i, rank);
      }
    }
    assert child in Subtree(s.inodes, child);
    SubtreeAfterPrune(s.inodes, done, child, rank);
  }

  lemma ChildIsSmaller(inodes: Inodes, id: InodeId, child: InodeId, rank: Ranks)
    requires Ranked(inodes, rank) && id in inodes && child in inodes && inodes[child].parentId == id
    ensures |Subtree(inodes, child)| < |Subtree(inodes, id)|
  {
    forall i | i in Subtree(inodes, child) ensures i in Subtree(inodes, id) {
      DescendsThrough(inodes, i, child, id, rank);
    }
    assert id !in Subtree(inodes, child) by {
      if Descends(inodes, id, child) {
        DescendsThrough(inodes, id, child, id, rank);
        NotBelowItself(inodes, id, rank);
      }
    }
    var a, b := Subtree(inodes, child), Subtree(inodes, id);
    assert id in b - a;
    assert |b - a| == |b| - |a|;
  }

  lemma FileSubtree(s: State, child: InodeId)
    requires Sturdy(s) && child in s.inodes && s.inodes[child].kind == FileInode
    ensures Subtree(s.inodes, child) == {child}
  {
    var rank :| Ranked(s.inodes, rank);
    forall i | i in s.inodes ensures !Descends(s.inodes, i, child) {
      NothingBelowFile(s.inodes, i, child, rank);
    }
  }

  /** deleteDirectoryRecursive: it ends, meets no conflict, and removes exactly the directory's
      subtree with everything that belongs to it. */
  method DeleteRecursive(s: State, id: InodeId) returns (r: Result<State>)
    requires Sturdy(s) && id in s.inodes && s.inodes[id].kind == DirectoryInode && id != ROOT_INODE_ID
    ensures r == Ok(Prune(s, Subtree(s.inodes, id)))
    decreases |Subtree(s.inodes, id)|
  {
    var children := ListChildren(s.inodes, id);
    var tx := s;
    ghost var rank :| Ranked(s.inodes, rank);
    assert Forest(s.inodes, children[..0]) == {};
    PruneNothing(s);
    for k := 0 to |children|
      invariant tx == Prune(s, Forest(s.inodes, children[..k]))
    {
      var child := children[k];
      assert child in children;
      ChildIntact(s, id, children, k);
      ForestMore(s.inodes, children, k);
      PruneTwice(s, Forest(s.inodes, children[..k]), Subtree(s.inodes, child));
      if tx.inodes[child].kind == DirectoryInode {
        ChildIsSmaller(s.inodes, id, child, rank);
        var sub := DeleteRecursive(tx, child);
        if sub.Err? {
          return sub;
        }
        tx := sub.value;
      } else {
        var f := FindFileByInode(tx.files, child);
        if f.None? {
          return Err(NotFound);
        }
        FileSubtree(tx, child);
        FileDeletePrunes(tx, f.value);
        var sub := DeleteFileCascade(tx, f.value);
        if sub.Err? {
          return sub;
        }
        tx := sub.value;
      }
    }
    assert children[..|children|] == children;
    var left := ListChildren(tx.inodes, id);
    DirectoryIsEmpty(s, tx, id, children, left);
    if left != [] {
      return Err(Conflict);
    }
    r := Ok(tx.(inodes := tx.inodes - {id}));
  }

  lemma PruneNothing(s: State)
    ensures Prune(s, {}) == s
  {
    assert FilesOf(s, {}) == {};
    DropNothing(s, {});
    assert s.inodes - {} == s.inodes;
  }

  lemma FirstIsMember<T>(s: seq<T>)
    ensures s == [] || exists x :: x in s
  {
    if s != [] {
      assert s[0] in s;
    }
  }

  /** After all children are gone, removing the directory completes the pruning of its subtree. */
  lemma DirectoryIsEmpty(s: State, tx: State, id: InodeId, children: seq<InodeId>, left: seq<InodeId>)
    requires Sturdy(s) && id in s.inodes && s.inodes[id].kind == DirectoryInode && id != ROOT_INODE_ID
    requires forall i :: i in children <==> i in s.inodes && s.inodes[i].parentId == id
    requires tx == Prune(s, Forest(s.inodes, children))
    requires forall i :: i in left <==>
               i in tx.inodes && tx.inodes[i].parentId == id && tx.inodes[i].status != InodeDeleted
    ensures left == []
    ensures tx.(inodes := tx.inodes - {id}) == Prune(s, Subtree(s.inodes, id))
  {
    var forest := Forest(s.inodes, children);
    var rank :| Ranked(s.inodes, rank);
    ChildrenInForest(s.inodes, id, children);
    NotInOwnForest(s.inodes, id, children, rank);
    ForestGone(s, tx, id, children);
    FirstIsMember(left);
    EmptyDeletePrunes(tx, id);
    PruneTwice(s, forest, {id});
    SubtreeOfChildren(s.inodes, id, children, rank);
  }

  lemma ForestGone(s: State, tx: State, id: InodeId, children: seq<InodeId>)
    requires Sturdy(s) && id in s.inodes && id != ROOT_INODE_ID
    requires forall i :: i in children <==> i in s.inodes && s.inodes[i].parentId == id
    requires tx == Prune(s, Forest(s.inodes, children)) && id !in Forest(s.inodes, children)
    ensures Sturdy(tx) && id in tx.inodes && tx.inodes[id] == s.inodes[id]
    ensures forall i :: i in tx.inodes ==> tx.inodes[i].parentId != id
    ensures !HasChildren(tx.inodes, id)
  {
    assert forall j :: 0 <= j < |children| ==> children[j] in children;
    ForestDownClosed(s.inodes, children);
    PruneKeepsSturdy(s, Forest(s.inodes, children));
    ChildrenInForest(s.inodes, id, children);
  }

  lemma ChildrenInForest(inodes: Inodes, id: InodeId, children: seq<InodeId>)
    requires forall i :: i in children <==> i in inodes && inodes[i].parentId == id
    ensures forall i :: i in inodes && inodes[i].parentId == id ==> i in Forest(inodes, children)
  {
    forall i | i in inodes && inodes[i].parentId == id ensures i in Forest(inodes, children) {
      var j :| 0 <= j < |children| && children[j] == i;
      assert i in Subtree(inodes, children[j]);
    }
  }

  lemma NotInOwnForest(inodes: Inodes, id: InodeId, children: seq<InodeId>, rank: Ranks)
    requires Ranked(inodes, rank) && id in inodes && forall i :: i in children <==>
               i in inodes && inodes[i].parentId == id
    ensures id !in Forest(inodes, children)
  {
    forall j | 0 <= j < |children| ensures id !in Subtree(inodes, children[j]) {
      assert children[j] in children;
      if id in Subtree(inodes, children[j]) {
        DescendsThrough(inodes, id, children[j], id, rank);
        NotBelowItself(inodes, id, rank);
        assert false;
      }
    }
  }

  method DoDeleteDirectory(repo: Repository, id: InodeId, recursive: bool) returns (err: Option<StoreError>)
    requires Sturdy(repo.state)
    modifies repo
    ensures Settles(old(repo.state), repo.state, err, DeleteDirectory(old(repo.state), id, recursive))
  {
    if id == "" {
      return Some(InvalidArgument);
    }
    var tx := repo.state;
    if id !in tx.inodes {
      return Some(NotFound);
    }
    if tx.inodes[id].kind != DirectoryInode || id == ROOT_INODE_ID {
      return Some(InvalidArgument);
    }
    if !recursive {
      var children := ListChildren(tx.inodes, id);
      if children != [] {
        assert children[0] in children;
        assert HasChildren(tx.inodes, id);
        return Some(Conflict);
      }
      assert !HasChildren(tx.inodes, id) by {
        assert forall i :: i !in children;
      }
      repo.state := tx.(inodes := tx.inodes - {id});
      return None;
    }
    var r := DeleteRecursive(tx, id);
    match r
    case Err(e) => err := Some(e);
    case Ok(pruned) =>
      repo.state := pruned;
      err := None;
  }
}

/** The shape of the namespace, whatever the names in it: the inodes form a tree under the root, and
    files and file inodes belong together.  Every request keeps it, slashes in names or not. */
module NamespaceShape {
  import opened Wrappers
  import opened Metadata
  import opened Paths
  import opened Namespace
  import opened NamespaceTree
  import opened NamespaceMutation
  import opened NamespaceRuns

  type Ranks = map<InodeId, nat>

  /** Parent links lead to smaller ranks, so walking up ends. */
  ghost predicate Ranked(inodes: Inodes, rank: Ranks) {
    && inodes.Keys <= rank.Keys
    && forall i :: i in inodes && inodes[i].parentId in inodes ==> rank[inodes[i].parentId] < rank[i]
  }

  predicate Hung(inodes: Inodes, i: InodeId)
    requires i in inodes
  {
    inodes[i].parentId in inodes && inodes[inodes[i].parentId].kind == DirectoryInode && inodes[i].name != ""
  }

  predicate Placed(inodes: Inodes) {
    && RootOk(inodes)
    && (forall i :: i in inodes ==> inodes[i].id == i && inodes[i].status == InodeActive)
    && (forall i :: i in inodes && i != ROOT_INODE_ID ==> Hung(inodes, i))
  }

  /** The inodes form a tree under the root directory; names are any non-empty strings. */
  ghost predicate Tree(inodes: Inodes) {
    Placed(inodes) && exists rank :: Ranked(inodes, rank)
  }

  /** A file and its inode point at each other. */
  predicate Bound(inodes: Inodes, f: File) {
    f.inodeId in inodes && inodes[f.inodeId].kind == FileInode && inodes[f.inodeId].fileId == f.id
  }

  predicate FilesLinked(s: State) {
    && "" !in s.files
    && (forall f :: f in s.files ==> s.files[f].id == f && Bound(s.inodes, s.files[f]))
    && (forall i :: i in s.inodes && s.inodes[i].kind == FileInode ==>
          s.inodes[i].fileId in s.files && s.files[s.inodes[i].fileId].inodeId == i)
  }

  ghost predicate Sturdy(s: State) {
    Tree(s.inodes) && FilesLinked(s)
  }

  ghost function PathRanks(inodes: Inodes): Ranks {
    map i | i in inodes :: |inodes[i].path|
  }

  lemma LinkedRanked(inodes: Inodes)
    requires Linked(inodes)
    ensures Ranked(inodes, PathRanks(inodes))
  {
    forall i | i in inodes && inodes[i].parentId in inodes
      ensures |inodes[inodes[i].parentId].path| < |inodes[i].path|
    {
      ParentIsShorter(inodes, i);
    }
  }

  lemma LinkedTree(inodes: Inodes)
    requires Linked(inodes)
    ensures Tree(inodes)
  {
    LinkedRanked(inodes);
    forall i | i in inodes && i != ROOT_INODE_ID ensures Hung(inodes, i) {
      assert Attached(inodes, i);
    }
  }

  lemma MatchIsLinked(s: State)
    requires FilesMatch(s)
    ensures FilesLinked(s)
  {
    forall f | f in s.files ensures Bound(s.inodes, s.files[f]) {
      assert Mirrors(s.inodes, s.files[f]);
    }
  }

  lemma WellFormedIsSturdy(s: State)
    requires WellFormed(s)
    ensures Sturdy(s)
  {
    LinkedTree(s.inodes);
    MatchIsLinked(s);
  }

  // ---------------------------------------------------------------- up and down the tree

  lemma {:induction false} BelowIsHigher(inodes: Inodes, i: InodeId, d: InodeId, rank: Ranks)
    requires Ranked(inodes, rank) && d in inodes && i in inodes && Descends(inodes, i, d)
    ensures rank[d] < rank[i]
    decreases rank[i]
  {
    if inodes[i].parentId != d {
      BelowIsHigher(inodes, inodes[i].parentId, d, rank);
    }
  }

  lemma {:induction false} BelowRoot(inodes: Inodes, i: InodeId, rank: Ranks)
    requires Placed(inodes) && Ranked(inodes, rank) && i in inodes && i != ROOT_INODE_ID
    ensures Descends(inodes, i, ROOT_INODE_ID)
    decreases rank[i]
  {
    assert Hung(inodes, i);
    if inodes[i].parentId != ROOT_INODE_ID {
      BelowRoot(inodes, inodes[i].parentId, rank);
    }
  }

  lemma {:induction false} BelowUnchanged(inodes: Inodes, d: InodeId, after: Inode, i: InodeId, rank: Ranks)
    requires Ranked(inodes, rank) && d in inodes && i != d
    ensures Descends(inodes[d := after], i, d) <==> Descends(inodes, i, d)
    decreases if i in inodes then rank[i] + 1 else 0
  {
    if i in inodes && inodes[i].parentId != d {
      BelowUnchanged(inodes, d, after, inodes[i].parentId, rank);
    }
  }

  lemma NothingBelowFile(inodes: Inodes, i: InodeId, d: InodeId, rank: Ranks)
    requires Placed(inodes) && Ranked(inodes, rank) && d in inodes && inodes[d].kind == FileInode && i in inodes
    ensures !Descends(inodes, i, d)
    decreases rank[i]
  {
    if i != ROOT_INODE_ID {
      assert Hung(inodes, i);
      NothingBelowFile(inodes, inodes[i].parentId, d, rank);
    }
  }

  lemma NotBelowItself(inodes: Inodes, d: InodeId, rank: Ranks)
    requires Ranked(inodes, rank) && d in inodes
    ensures !Descends(inodes, d, d)
  {
    if Descends(inodes, d, d) {
      BelowIsHigher(inodes, d, d, rank);
    }
  }

  lemma RootBelowNothing(inodes: Inodes, d: InodeId)
    requires Placed(inodes) && d in inodes
    ensures !Descends(inodes, ROOT_INODE_ID, d)
  {
    assert inodes[ROOT_INODE_ID].parentId == "";
  }

  lemma ParentNotBelow(inodes: Inodes, d: InodeId, rank: Ranks)
    requires Placed(inodes) && Ranked(inodes, rank) && d in inodes && d != ROOT_INODE_ID
    ensures inodes[d].parentId in inodes && inodes[d].parentId != d && !Descends(inodes, inodes[d].parentId, d)
  {
    assert Hung(inodes, d);
    if Descends(inodes, inodes[d].parentId, d) {
      BelowIsHigher(inodes, inodes[d].parentId, d, rank);
    }
  }

  lemma {:induction false} DescendsThrough(inodes: Inodes, i: InodeId, c: InodeId, id: InodeId, rank: Ranks)
    requires Ranked(inodes, rank) && i in inodes && c in inodes && inodes[c].parentId == id
    requires i == c || Descends(inodes, i, c)
    ensures Descends(inodes, i, id)
    decreases rank[i]
  {
    if i != c && inodes[i].parentId != c {
      DescendsThrough(inodes, inodes[i].parentId, c, id, rank);
    }
  }

  /** Two inodes that `i` lies at or below are one, or one lies below the other. */
  lemma {:induction false} OneLine(inodes: Inodes, i: InodeId, a: InodeId, b: InodeId, rank: Ranks)
    requires Ranked(inodes, rank) && i in inodes && i in Subtree(inodes, a) && i in Subtree(inodes, b)
    ensures a == b || Descends(inodes, a, b) || Descends(inodes, b, a)
    decreases rank[i]
  {
    var p := inodes[i].parentId;
    if i != a && i != b && p != a && p != b {
      assert Descends(inodes, i, a) && Descends(inodes, i, b);
      assert Descends(inodes, p, a) && Descends(inodes, p, b);
      OneLine(inodes, p, a, b, rank);
    }
  }

  lemma SiblingNotBelow(inodes: Inodes, a: InodeId, b: InodeId, rank: Ranks)
    requires Ranked(inodes, rank) && a in inodes && b in inodes && inodes[a].parentId == inodes[b].parentId
    ensures !Descends(inodes, a, b)
  {
    if Descends(inodes, a, b) {
      var p := inodes[a].parentId;
      if p != b {
        assert Descends(inodes, p, b);
        BelowIsHigher(inodes, p, b, rank);
      }
    }
  }

  /** Subtrees of two children of one directory do not meet. */
  lemma SiblingsDisjoint(inodes: Inodes, a: InodeId, b: InodeId, i: InodeId, rank: Ranks)
    requires Ranked(inodes, rank) && a in inodes && b in inodes && a != b
    requires inodes[a].parentId == inodes[b].parentId && i in Subtree(inodes, a)
    ensures i !in Subtree(inodes, b)
  {
    if i in Subtree(inodes, b) {
      OneLine(inodes, i, a, b, rank);
      SiblingNotBelow(inodes, a, b, rank);
      SiblingNotBelow(inodes, b, a, rank);
    }
  }

  lemma SubtreeIsDownClosed(inodes: Inodes, id: InodeId)
    requires Placed(inodes) && id in inodes && id != ROOT_INODE_ID
    ensures DownClosed(inodes, Subtree(inodes, id))
  {
    RootBelowNothing(inodes, id);
  }

  // ---------------------------------------------------------------- changing the tree

  /** `after` is `d` with another name, or under another directory that is not inside it. */
  ghost predicate Rehung(inodes: Inodes, d: InodeId, after: Inode) {
    && d in inodes && after == inodes[d].(parentId := after.parentId, name := after.name, path := after.path)
    && (d == ROOT_INODE_ID ==> after.parentId == "" && after.path == "/")
    && (d != ROOT_INODE_ID ==>
          && after.parentId in inodes && inodes[after.parentId].kind == DirectoryInode
          && after.parentId != d && !Descends(inodes, after.parentId, d) && after.name != "")
  }

  ghost function Raised(inodes: Inodes, d: InodeId, lift: nat, rank: Ranks): Ranks
    requires inodes.Keys <= rank.Keys
  {
    map i | i in inodes :: if i == d || Descends(inodes, i, d) then rank[i] + lift else rank[i]
  }

  lemma RehungRanked(inodes: Inodes, d: InodeId, after: Inode, rank: Ranks)
    requires Placed(inodes) && Ranked(inodes, rank) && Rehung(inodes, d, after)
    ensures var lift := if after.parentId in inodes then rank[after.parentId] + 1 else 0;
            Ranked(inodes[d := after], Raised(inodes, d, lift, rank))
  {
  }

  lemma MovedRanked(inodes: Inodes, d: InodeId, after: Inode, rank: Ranks)
    requires Ranked(inodes, rank) && d in inodes && after.parentId in inodes
    requires after.parentId != d && !Descends(inodes, after.parentId, d)
    ensures Ranked(inodes[d := after], Raised(inodes, d, rank[after.parentId] + 1, rank))
  {
  }

  lemma SameLinksTree(a: Inodes, b: Inodes)
    requires Tree(a) && SameLinks(a, b) && ROOT_INODE_ID in b && b[ROOT_INODE_ID].path == "/"
    ensures Tree(b)
  {
    var rank :| Ranked(a, rank);
    assert Ranked(b, rank);
    forall i | i in b && i != ROOT_INODE_ID ensures Hung(b, i) {
      assert Hung(a, i);
    }
  }

  lemma RehungTree(inodes: Inodes, d: InodeId, after: Inode)
    requires Tree(inodes) && Rehung(inodes, d, after)
    ensures Tree(inodes[d := after])
  {
    var rank :| Ranked(inodes, rank);
    RehungRanked(inodes, d, after, rank);
    RehungPlaced(inodes, d, after);
  }

  lemma RehungPlaced(inodes: Inodes, d: InodeId, after: Inode)
    requires Placed(inodes) && Rehung(inodes, d, after)
    ensures Placed(inodes[d := after])
  {
    var t := inodes[d := after];
    forall i | i in t && i != ROOT_INODE_ID ensures Hung(t, i) {
      assert Hung(inodes, i);
    }
  }

  predicate SameKinds(a: Inodes, b: Inodes) {
    a.Keys == b.Keys && forall i :: i in a ==> b[i].kind == a[i].kind && b[i].fileId == a[i].fileId
  }

  lemma RelinkedKinds(inodes: Inodes, d: InodeId, after: Inode)
    requires Rehung(inodes, d, after)
    ensures SameKinds(inodes, Relinked(inodes, d, after))
  {
    SubtreePathsKeepLinks(inodes[d := after], d, inodes[d].path, after.path);
  }

  lemma RelinkedTree(inodes: Inodes, d: InodeId, after: Inode, rank: Ranks)
    requires Placed(inodes) && Ranked(inodes, rank) && Rehung(inodes, d, after)
    ensures Tree(Relinked(inodes, d, after))
  {
    RehungTree(inodes, d, after);
    SubtreePathsKeepLinks(inodes[d := after], d, inodes[d].path, after.path);
    if d != ROOT_INODE_ID {
      BelowUnchanged(inodes, d, after, ROOT_INODE_ID, rank);
      RootBelowNothing(inodes, d);
    }
    SameLinksTree(inodes[d := after], Relinked(inodes, d, after));
  }

  lemma MoveRehangs(s: State, id: InodeId, target: InodeId, name: string, after: Inode)
    requires Tree(s.inodes) && MoveInode(s, id, target, name).Ok?
    requires var given := if name == "" then s.inodes[id].name else name;
             after == s.inodes[id].(parentId := target, name := given, path := JoinPath(s.inodes[target].path, given))
    ensures id != ROOT_INODE_ID && Rehung(s.inodes, id, after)
  {
    var rank :| Ranked(s.inodes, rank);
    if target != ROOT_INODE_ID {
      BelowRoot(s.inodes, target, rank);
    }
    if s.inodes[id].kind == FileInode {
      NothingBelowFile(s.inodes, target, id, rank);
    }
    assert id != ROOT_INODE_ID ==> Hung(s.inodes, id);
  }

  lemma GrownTree(inodes: Inodes, inode: Inode)
    requires Tree(inodes) && inode.id !in inodes && inode.id != "" && inode.status == InodeActive
    requires inode.parentId in inodes && inodes[inode.parentId].kind == DirectoryInode && inode.name != ""
    ensures Tree(inodes[inode.id := inode])
  {
    var rank :| Ranked(inodes, rank);
    var t := inodes[inode.id := inode];
    GrownRanked(inodes, inode, rank);
    forall i | i in t && i != ROOT_INODE_ID ensures Hung(t, i) {
      assert i != inode.id ==> Hung(inodes, i);
    }
  }

  lemma GrownRanked(inodes: Inodes, inode: Inode, rank: Ranks)
    requires Placed(inodes) && Ranked(inodes, rank) && inode.id !in inodes && inode.id != "" && inode.parentId in inodes
    ensures Ranked(inodes[inode.id := inode], rank[inode.id := rank[inode.parentId] + 1])
  {
    forall i | i in inodes ensures inodes[i].parentId != inode.id {
      assert i != ROOT_INODE_ID ==> Hung(inodes, i);
    }
  }

  lemma PrunedTree(inodes: Inodes, doomed: set<InodeId>)
    requires Tree(inodes) && DownClosed(inodes, doomed)
    ensures Tree(inodes - doomed)
  {
    var rank :| Ranked(inodes, rank);
    var t := inodes - doomed;
    assert Ranked(t, rank);
    forall i | i in t && i != ROOT_INODE_ID ensures Hung(t, i) {
      assert Hung(inodes, i);
    }
  }

  // ---------------------------------------------------------------- every request

  lemma LinksKept(s: State, t: State)
    requires FilesLinked(s) && SameFiles(s.files, t.files) && SameKinds(s.inodes, t.inodes)
    ensures FilesLinked(t)
  {
    forall f | f in t.files ensures t.files[f].id == f && Bound(t.inodes, t.files[f]) {
      assert Bound(s.inodes, s.files[f]);
    }
  }

  lemma SyncKinds(s: State, d: InodeId, after: Inode, t: State)
    requires Rehung(s.inodes, d, after) && s.inodes[d].id == d && SyncMutation(s, s.inodes[d], after) == Ok(t)
    ensures SameFiles(s.files, t.files) && SameKinds(s.inodes, t.inodes)
  {
    SyncEffect(s, s.inodes[d], after);
  }

  lemma SyncTree(s: State, d: InodeId, after: Inode, t: State)
    requires Tree(s.inodes) && Rehung(s.inodes, d, after) && SyncMutation(s, s.inodes[d], after) == Ok(t)
    ensures Tree(t.inodes)
  {
    if s.inodes[d].kind == FileInode {
      assert t.inodes == s.inodes[d := after];
      RehungTree(s.inodes, d, after);
    } else {
      assert t.inodes == Relinked(s.inodes, d, after);
      var rank :| Ranked(s.inodes, rank);
      RelinkedTree(s.inodes, d, after, rank);
    }
  }

  lemma SyncKeepsSturdy(s: State, d: InodeId, after: Inode)
    requires Sturdy(s) && Rehung(s.inodes, d, after) && SyncMutation(s, s.inodes[d], after).Ok?
    ensures Sturdy(SyncMutation(s, s.inodes[d], after).value)
  {
    var t := SyncMutation(s, s.inodes[d], after).value;
    SyncTree(s, d, after, t);
    SyncKinds(s, d, after, t);
    LinksKept(s, t);
  }

  lemma RenameKeepsSturdy(s: State, id: InodeId, name: string)
    requires Sturdy(s) && RenameInode(s, id, name).Ok?
    ensures Sturdy(RenameInode(s, id, name).value)
  {
    var inode := s.inodes[id];
    if id != ROOT_INODE_ID {
      var rank :| Ranked(s.inodes, rank);
      ParentNotBelow(s.inodes, id, rank);
      assert Hung(s.inodes, id);
    }
    SyncKeepsSturdy(s, id, inode.(name := name, path := ReplaceBaseName(inode.path, name)));
  }

  lemma MoveKeepsSturdy(s: State, id: InodeId, target: InodeId, name: string)
    requires Sturdy(s) && MoveInode(s, id, target, name).Ok?
    ensures Sturdy(MoveInode(s, id, target, name).value)
  {
    var given := if name == "" then s.inodes[id].name else name;
    var after := s.inodes[id].(parentId := target, name := given, path := JoinPath(s.inodes[target].path, given));
    MoveRehangs(s, id, target, name, after);
    SyncKeepsSturdy(s, id, after);
  }

  lemma MakeDirectoryKeepsSturdy(s: State, id: InodeId, parent: InodeId, name: string)
    requires Sturdy(s) && CreateDirectory(s, id, parent, name).Ok?
    ensures Sturdy(CreateDirectory(s, id, parent, name).value)
  {
    var inode := Inode(id, parent, "", JoinPath(s.inodes[parent].path, name), name, DirectoryInode, InodeActive);
    GrownTree(s.inodes, inode);
    var t := CreateDirectory(s, id, parent, name).value;
    forall f | f in t.files ensures Bound(t.inodes, t.files[f]) {
      assert Bound(s.inodes, s.files[f]);
    }
  }

  lemma MakeFileKeepsSturdy(s: State, inodeId: InodeId, fileId: FileId, parent: InodeId, name: string, size: int,
                            policy: Option<ReplicaPolicy>)
    requires Sturdy(s) && CreateFile(s, inodeId, fileId, parent, name, size, policy).Ok?
    ensures Sturdy(CreateFile(s, inodeId, fileId, parent, name, size, policy).value)
  {
    var inode := Inode(inodeId, parent, fileId, JoinPath(s.inodes[parent].path, name), name, FileInode, InodeActive);
    CreateFileEffect(s, inodeId, fileId, parent, name, size, policy);
    GrownTree(s.inodes, inode);
    GrownLinks(s, CreateFile(s, inodeId, fileId, parent, name, size, policy).value, inode,
               NewFile(fileId, inode, size, policy));
  }

  lemma GrownLinks(s: State, t: State, inode: Inode, file: File)
    requires FilesLinked(s) && inode.id !in s.inodes && file.id !in s.files && file.id != ""
    requires t.inodes == s.inodes[inode.id := inode] && t.files == s.files[file.id := file]
    requires file.inodeId == inode.id && Bound(t.inodes, file)
    ensures FilesLinked(t)
  {
    forall f | f in t.files ensures t.files[f].id == f && Bound(t.inodes, t.files[f]) {
      assert f in s.files ==> Bound(s.inodes, s.files[f]);
    }
  }

  lemma PruneKeepsSturdy(s: State, doomed: set<InodeId>)
    requires Sturdy(s) && DownClosed(s.inodes, doomed)
    ensures Sturdy(Prune(s, doomed))
  {
    var t := Prune(s, doomed);
    PrunedTree(s.inodes, doomed);
    forall f | f in t.files ensures t.files[f].id == f && Bound(t.inodes, t.files[f]) {
      assert Bound(s.inodes, s.files[f]);
    }
  }

  /** A file inode has exactly one file record and nothing below it, so deleting the file prunes. */
  lemma FileDeletePrunes(s: State, fileId: FileId)
    requires Sturdy(s) && fileId in s.files && fileId != ""
    ensures DownClosed(s.inodes, {s.files[fileId].inodeId})
    ensures DeleteFile(s, fileId) == Ok(Prune(s, {s.files[fileId].inodeId}))
  {
    var i := s.files[fileId].inodeId;
    assert Bound(s.inodes, s.files[fileId]);
    forall j | j in s.inodes ensures s.inodes[j].parentId != i {
      assert j != ROOT_INODE_ID ==> Hung(s.inodes, j);
    }
    assert FilesOf(s, {i}) == {fileId} by {
      forall f | f in s.files && s.files[f].inodeId == i ensures f == fileId {
        assert Bound(s.inodes, s.files[f]);
      }
    }
  }

  lemma EmptyDeletePrunes(s: State, id: InodeId)
    requires Sturdy(s) && id in s.inodes && s.inodes[id].kind == DirectoryInode && id != ROOT_INODE_ID
    requires !HasChildren(s.inodes, id)
    ensures DownClosed(s.inodes, {id})
    ensures s.(inodes := s.inodes - {id}) == Prune(s, {id})
  {
    assert forall f :: f in s.files ==> Bound(s.inodes, s.files[f]);
    assert FilesOf(s, {id}) == {};
    DropNothing(s, {id});
  }

  lemma DeleteKeepsSturdy(s: State, id: InodeId, recursive: bool)
    requires Sturdy(s) && DeleteDirectory(s, id, recursive).Ok?
    ensures Sturdy(DeleteDirectory(s, id, recursive).value)
  {
    if recursive {
      SubtreeIsDownClosed(s.inodes, id);
      PruneKeepsSturdy(s, Subtree(s.inodes, id));
    } else {
      EmptyDeletePrunes(s, id);
      PruneKeepsSturdy(s, {id});
    }
  }

  lemma ServeKeepsSturdy(s: State, r: Request)
    requires Sturdy(s)
    ensures Sturdy(Serve(s, r))
  {
    if Outcome(s, r).Ok? {
      match r
      case MakeDirectory(id, parent, name) => MakeDirectoryKeepsSturdy(s, id, parent, name);
      case MakeFile(inodeId, fileId, parent, name, size, policy) =>
        MakeFileKeepsSturdy(s, inodeId, fileId, parent, name, size, policy);
      case Rename(id, name) => RenameKeepsSturdy(s, id, name);
      case Move(id, target, name) => MoveKeepsSturdy(s, id, target, name);
      case RemoveFile(fileId) =>
        FileDeletePrunes(s, fileId);
        PruneKeepsSturdy(s, {s.files[fileId].inodeId});
      case RemoveDirectory(id, recursive) => DeleteKeepsSturdy(s, id, recursive);
    }
  }

  /** From bootstrap on, with any names: the inodes form one tree under the root, and each file has
      its own inode. */
  lemma {:induction false} TreeInEveryRun(s: State, rs: seq<Request>)
    requires Sturdy(s)
    ensures Sturdy(ServeAll(s, rs))
    decreases |rs|
  {
    if rs != [] {
      ServeKeepsSturdy(s, rs[0]);
      TreeInEveryRun(Serve(s, rs[0]), rs[1..]);
    }
  }

  /** From bootstrap on the namespace is a tree, whatever the names. */
  lemma TreeFromBootstrap(rs: seq<Request>)
    ensures Sturdy(ServeAll(Booted(), rs))
  {
    WellFormedIsSturdy(Booted());
    TreeInEveryRun(Booted(), rs);
  }
}

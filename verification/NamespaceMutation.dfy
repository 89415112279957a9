/** Rename and move keep the tree, its cached paths, the mirrored file records and the references
    between records; and what each of them changes, and when. */
module NamespaceMutation {
  import opened Wrappers
  import opened Metadata
  import opened Strings
  import opened Paths
  import opened Namespace
  import opened NamespaceTree

  // ---------------------------------------------------------------- relinking one inode

  /** `after` is inode `d` hung under a directory that is not inside its own subtree, under a free name. */
  ghost predicate Relinkable(inodes: Inodes, d: InodeId, after: Inode) {
    && d in inodes && d != ROOT_INODE_ID
    && after == inodes[d].(parentId := after.parentId, name := after.name, path := after.path)
    && after.parentId in inodes && inodes[after.parentId].kind == DirectoryInode
    && after.parentId != d && !Descends(inodes, after.parentId, d)
    && NameOk(after.name)
    && after.path == JoinPath(inodes[after.parentId].path, after.name)
    && forall i :: i in inodes && i != d && i != ROOT_INODE_ID && inodes[i].parentId == after.parentId
                   ==> inodes[i].name != after.name
  }

  ghost function Relinked(inodes: Inodes, d: InodeId, after: Inode): Inodes
    requires d in inodes
  {
    WithSubtreePaths(inodes[d := after], d, inodes[d].path, after.path)
  }

  /** Changing the link of `d` itself does not change what lies below `d`. */
  lemma {:induction false} DescendsUnchanged(inodes: Inodes, d: InodeId, after: Inode, i: InodeId)
    requires Linked(inodes) && d in inodes && i in inodes && i != d
    ensures Descends(inodes[d := after], i, d) <==> Descends(inodes, i, d)
    decreases |inodes[i].path|
  {
    if i != ROOT_INODE_ID {
      ParentIsShorter(inodes, i);
      var p := inodes[i].parentId;
      if p != d {
        DescendsUnchanged(inodes, d, after, p);
      }
    }
  }

  /** The new path of each inode: below `d`, the old directory path is exchanged for the new one. */
  lemma RelinkedPath(inodes: Inodes, d: InodeId, after: Inode, i: InodeId)
    requires Linked(inodes) && Relinkable(inodes, d, after) && i in inodes
    ensures i in Relinked(inodes, d, after)
    ensures i == d ==> Relinked(inodes, d, after)[i] == after
    ensures i != d && Descends(inodes, i, d) ==>
            && HasPrefix(inodes[i].path, inodes[d].path + "/")
            && Relinked(inodes, d, after)[i] ==
               inodes[i].(path := after.path + inodes[i].path[|inodes[d].path|..])
    ensures i != d && !Descends(inodes, i, d) ==> Relinked(inodes, d, after)[i] == inodes[i]
  {
    if i != d {
      DescendsUnchanged(inodes, d, after, i);
      DescendsIffPrefix(inodes, i, d);
      PathShape(inodes, d);
      if Descends(inodes, i, d) {
        assert i != ROOT_INODE_ID;
        PathShape(inodes, i);
        var b := inodes[d].path;
        assert inodes[i].path[..|b|] == (b + "/")[..|b|] == b;
      }
    }
  }

  lemma RelinkedAttached(inodes: Inodes, d: InodeId, after: Inode, i: InodeId)
    requires Linked(inodes) && Relinkable(inodes, d, after) && i in inodes && i != ROOT_INODE_ID
    ensures i in Relinked(inodes, d, after) && Attached(Relinked(inodes, d, after), i)
  {
    if i == d {
      RelinkedPath(inodes, d, after, d);
      RelinkedPath(inodes, d, after, after.parentId);
    } else if Descends(inodes, i, d) {
      AttachedBelow(inodes, d, after, i);
    } else {
      AttachedElsewhere(inodes, d, after, i);
    }
  }

  lemma AttachedElsewhere(inodes: Inodes, d: InodeId, after: Inode, i: InodeId)
    requires Linked(inodes) && Relinkable(inodes, d, after) && i in inodes && i != ROOT_INODE_ID
    requires i != d && !Descends(inodes, i, d)
    ensures i in Relinked(inodes, d, after) && Attached(Relinked(inodes, d, after), i)
  {
    assert Attached(inodes, i);
    RelinkedPath(inodes, d, after, i);
    RelinkedPath(inodes, d, after, inodes[i].parentId);
  }

  lemma AttachedBelow(inodes: Inodes, d: InodeId, after: Inode, i: InodeId)
    requires Linked(inodes) && Relinkable(inodes, d, after) && i in inodes && i != ROOT_INODE_ID
    requires i != d && Descends(inodes, i, d)
    ensures i in Relinked(inodes, d, after) && Attached(Relinked(inodes, d, after), i)
  {
    CarriedPath(inodes, d, after, i);
    RelinkedPath(inodes, d, after, i);
    RelinkedPath(inodes, d, after, inodes[i].parentId);
  }

  /** The parent of an inode below `d` is `d` itself or lies below it, and moves along. */
  lemma CarriedPath(inodes: Inodes, d: InodeId, after: Inode, i: InodeId)
    requires Linked(inodes) && Relinkable(inodes, d, after) && i in inodes && i != d && Descends(inodes, i, d)
    ensures i != ROOT_INODE_ID && Attached(inodes, i)
    ensures var p, b := inodes[i].parentId, inodes[d].path;
            && (p == d || Descends(inodes, p, d))
            && |b| <= |inodes[p].path| && |b| <= |inodes[i].path|
            && after.path + inodes[i].path[|b|..] ==
               JoinPath(if p == d then after.path else after.path + inodes[p].path[|b|..], inodes[i].name)
  {
    PathShape(inodes, d);
    PathShape(inodes, i);
    assert Attached(inodes, i);
    var p := inodes[i].parentId;
    NewDirPath(inodes, d, after);
    DescendsIffPrefix(inodes, p, d);
    PathShape(inodes, p);
    ExchangePrefix(inodes[d].path, after.path, inodes[p].path, inodes[i].name);
    assert p == d ==> after.path + inodes[p].path[|inodes[d].path|..] == after.path;
  }

  lemma NewDirPath(inodes: Inodes, d: InodeId, after: Inode)
    requires Linked(inodes) && Relinkable(inodes, d, after)
    ensures Segmented(after.path)
  {
    if after.parentId != ROOT_INODE_ID {
      PathShape(inodes, after.parentId);
    }
    ChildPath(inodes[after.parentId].path, after.name);
  }

  lemma RelinkKeepsLinked(inodes: Inodes, d: InodeId, after: Inode)
    requires Linked(inodes) && Relinkable(inodes, d, after)
    ensures Linked(Relinked(inodes, d, after))
  {
    var r := Relinked(inodes, d, after);
    assert r.Keys == inodes.Keys;
    forall i | i in inodes
      ensures r[i].id == i && r[i].status == InodeActive && r[i].kind == inodes[i].kind
      ensures r[i].parentId == (if i == d then after.parentId else inodes[i].parentId)
      ensures r[i].name == (if i == d then after.name else inodes[i].name)
    {
      RelinkedPath(inodes, d, after, i);
    }
    forall i | i in r && i != ROOT_INODE_ID ensures Attached(r, i) {
      RelinkedAttached(inodes, d, after, i);
    }
    TreeShape(inodes, ROOT_INODE_ID);
    RelinkedPath(inodes, d, after, ROOT_INODE_ID);
    assert !Descends(inodes, ROOT_INODE_ID, d) by {
      assert inodes[ROOT_INODE_ID].parentId == "";
    }
    forall i, j | i in r && j in r && Siblings(r, i, j) && r[i].name == r[j].name ensures i == j {
      if i != d && j != d {
        assert Siblings(inodes, i, j);
      }
    }
  }

  /** The files whose paths are rewritten are exactly those below the directory, and each gets
      its new tree path. */
  lemma FileSelectionExact(s: State, d: InodeId, after: Inode, f: FileId)
    requires Linked(s.inodes) && FilesMatch(s) && Relinkable(s.inodes, d, after)
    requires f in s.files && s.inodes[d].kind == DirectoryInode
    ensures Selected(s.files[f], s.inodes[d].path) <==> Descends(s.inodes, s.files[f].inodeId, d)
    ensures WithFilePaths(s.files, s.inodes[d].path, after.path)[f]
            == s.files[f].(path := Relinked(s.inodes, d, after)[s.files[f].inodeId].path)
  {
    var file := s.files[f];
    var i := file.inodeId;
    assert Mirrors(s.inodes, file);
    PathShape(s.inodes, d);
    PathShape(s.inodes, i);
    NewDirPath(s.inodes, d, after);
    WithinPrefix(file.path, s.inodes[d].path);
    DescendsIffPrefix(s.inodes, i, d);
    RelinkedPath(s.inodes, d, after, i);
    if file.path == s.inodes[d].path {
      PathInjective(s.inodes, i, d);
    }
    if Descends(s.inodes, i, d) {
      MovedPath(file.path, s.inodes[d].path, after.path);
    }
  }

  lemma RelinkDirectory(s: State, d: InodeId, after: Inode)
    requires WellFormed(s) && Relinkable(s.inodes, d, after) && s.inodes[d].kind == DirectoryInode
    ensures SyncMutation(s, s.inodes[d], after).Ok?
    ensures WellFormed(SyncMutation(s, s.inodes[d], after).value)
  {
    var t := SyncMutation(s, s.inodes[d], after).value;
    RelinkKeepsLinked(s.inodes, d, after);
    forall f | f in t.files ensures t.files[f].id == f && Mirrors(t.inodes, t.files[f]) {
      FileSelectionExact(s, d, after, f);
      RelinkedPath(s.inodes, d, after, s.files[f].inodeId);
      assert Mirrors(s.inodes, s.files[f]);
    }
    forall i | i in t.inodes && t.inodes[i].kind == FileInode
      ensures t.inodes[i].fileId in t.files && t.files[t.inodes[i].fileId].inodeId == i
    {
      RelinkedPath(s.inodes, d, after, i);
    }
  }

  lemma RelinkFile(s: State, d: InodeId, after: Inode)
    requires WellFormed(s) && Relinkable(s.inodes, d, after) && s.inodes[d].kind == FileInode
    ensures SyncMutation(s, s.inodes[d], after).Ok?
    ensures WellFormed(SyncMutation(s, s.inodes[d], after).value)
  {
    var mine := s.inodes[d].fileId;
    assert s.files[mine].inodeId == d;
    var t := SyncMutation(s, s.inodes[d], after).value;
    LeafRelink(s.inodes, d, after);
    RelinkKeepsLinked(s.inodes, d, after);
    assert forall f :: f in s.files && s.files[f].inodeId == d ==> f == mine by {
      assert forall f :: f in s.files ==> Mirrors(s.inodes, s.files[f]);
    }
    forall f | f in t.files ensures t.files[f].id == f && Mirrors(t.inodes, t.files[f]) {
      assert Mirrors(s.inodes, s.files[f]);
    }
  }

  lemma LeafRelink(inodes: Inodes, d: InodeId, after: Inode)
    requires Linked(inodes) && Relinkable(inodes, d, after) && inodes[d].kind == FileInode
    ensures Relinked(inodes, d, after) == inodes[d := after]
  {
    forall i | i in inodes ensures Relinked(inodes, d, after)[i] == inodes[d := after][i] {
      RelinkedPath(inodes, d, after, i);
      FilesAreLeaves(inodes, i, d);
    }
  }

  lemma RelinkKeepsWellFormed(s: State, d: InodeId, after: Inode)
    requires WellFormed(s) && Relinkable(s.inodes, d, after)
    ensures SyncMutation(s, s.inodes[d], after).Ok?
    ensures WellFormed(SyncMutation(s, s.inodes[d], after).value)
  {
    if s.inodes[d].kind == DirectoryInode {
      RelinkDirectory(s, d, after);
    } else {
      RelinkFile(s, d, after);
    }
  }

  // ---------------------------------------------------------------- rename and move

  lemma RenameKeepsWellFormed(s: State, id: InodeId, newName: string)
    requires WellFormed(s) && '/' !in newName
    ensures RenameInode(s, id, newName).Ok? ==> WellFormed(RenameInode(s, id, newName).value)
  {
    if RenameInode(s, id, newName).Ok? {
      assert NameOk(newName);
      var inode := s.inodes[id];
      var after := inode.(name := newName, path := ReplaceBaseName(inode.path, newName));
      if id == ROOT_INODE_ID {
        RootRename(s, newName);
      } else {
        assert Attached(s.inodes, id);
        var p := inode.parentId;
        PathShape(s.inodes, id);
        if p != ROOT_INODE_ID {
          PathShape(s.inodes, p);
        }
        RenamedPath(s.inodes[p].path, inode.name, newName);
        ChildPath(s.inodes[p].path, newName);
        TreeShape(s.inodes, id);
        RelinkKeepsWellFormed(s, id, after);
      }
    }
  }

  lemma RootSyncIsInert(s: State, inodes': Inodes)
    requires WellFormed(s) && inodes'.Keys == s.inodes.Keys
    requires forall i :: i in s.inodes ==> inodes'[i].path == s.inodes[i].path
    ensures WithSubtreePaths(inodes', ROOT_INODE_ID, "/", "/") == inodes'
    ensures WithFilePaths(s.files, "/", "/") == s.files
  {
    forall i | i in inodes' ensures WithSubtreePaths(inodes', ROOT_INODE_ID, "/", "/")[i] == inodes'[i] {
      assert HasPrefix(inodes'[i].path, "/") ==> "/" + TrimPrefix(inodes'[i].path, "/") == inodes'[i].path;
    }
    forall f | f in s.files ensures WithFilePaths(s.files, "/", "/")[f] == s.files[f] {
      assert Mirrors(s.inodes, s.files[f]);
      PathShape(s.inodes, s.files[f].inodeId);
      RootPrefixIsInert(s.files[f].path, "/");
    }
  }

  lemma RootNameIsFree(inodes: Inodes, newName: string)
    requires Linked(inodes)
    ensures Linked(inodes[ROOT_INODE_ID := inodes[ROOT_INODE_ID].(name := newName)])
  {
    var r := inodes[ROOT_INODE_ID := inodes[ROOT_INODE_ID].(name := newName)];
    forall i | i in r && i != ROOT_INODE_ID ensures Attached(r, i) {
      assert Attached(inodes, i);
    }
    forall i, j | i in r && j in r && Siblings(r, i, j) && r[i].name == r[j].name ensures i == j {
      assert Siblings(inodes, i, j);
    }
  }

  /** Renaming the root changes its name and nothing else. */
  lemma RootRename(s: State, newName: string)
    requires WellFormed(s)
    ensures var root := s.inodes[ROOT_INODE_ID];
            var t := s.(inodes := s.inodes[ROOT_INODE_ID := root.(name := newName)]);
            SyncMutation(s, root, root.(name := newName)) == Ok(t) && WellFormed(t)
  {
    var root := s.inodes[ROOT_INODE_ID];
    var t := s.(inodes := s.inodes[ROOT_INODE_ID := root.(name := newName)]);
    RootSyncIsInert(s, t.inodes);
    assert SyncMutation(s, root, root.(name := newName)) == Ok(t);
    RootNameIsFree(s.inodes, newName);
    FilesSeeOnlyPaths(s, t);
  }

  /** File records do not depend on the root's name. */
  lemma FilesSeeOnlyPaths(s: State, t: State)
    requires FilesMatch(s) && RefsOk(s) && Linked(s.inodes) && t == s.(inodes := t.inodes)
    requires t.inodes.Keys == s.inodes.Keys
    requires forall i :: i in s.inodes && i != ROOT_INODE_ID ==> t.inodes[i] == s.inodes[i]
    requires ROOT_INODE_ID in t.inodes && t.inodes[ROOT_INODE_ID].kind == DirectoryInode
    ensures FilesMatch(t) && RefsOk(t)
  {
    forall f | f in t.files ensures t.files[f].id == f && Mirrors(t.inodes, t.files[f]) {
      assert Mirrors(s.inodes, s.files[f]);
    }
  }

  lemma MoveKeepsWellFormed(s: State, id: InodeId, target: InodeId, newName: string)
    requires WellFormed(s) && '/' !in newName
    ensures MoveInode(s, id, target, newName).Ok? ==>
            id != ROOT_INODE_ID && WellFormed(MoveInode(s, id, target, newName).value)
  {
    if MoveInode(s, id, target, newName).Ok? {
      var inode := s.inodes[id];
      if id == ROOT_INODE_ID {
        TreeShape(s.inodes, target);
        assert false;
      }
      assert Attached(s.inodes, id);
      var name := if newName == "" then inode.name else newName;
      var after := inode.(parentId := target, name := name, path := JoinPath(s.inodes[target].path, name));
      if inode.kind == FileInode {
        FilesAreLeaves(s.inodes, target, id);
      }
      RelinkKeepsWellFormed(s, id, after);
    }
  }

  // ---------------------------------------------------------------- what changes, and when

  /** Apart from path caches, the same inodes. */
  predicate SameLinks(a: Inodes, b: Inodes) {
    a.Keys == b.Keys && forall i :: i in a ==> b[i] == a[i].(path := b[i].path)
  }

  /** Apart from the fields cached from the inode, the same files; nothing else touched. */
  predicate OnlyCachesDiffer(s: State, t: State) {
    t == s.(inodes := t.inodes, files := t.files) && SameFiles(s.files, t.files)
  }

  /** Apart from caches, syncing changes the links of the one inode and nothing else. */
  lemma SyncEffect(s: State, before: Inode, after: Inode)
    requires SyncMutation(s, before, after).Ok?
    ensures var t := SyncMutation(s, before, after).value;
            SameLinks(s.inodes[after.id := after], t.inodes) && OnlyCachesDiffer(s, t)
  {
    if before.kind != FileInode {
      SubtreePathsKeepLinks(s.inodes[after.id := after], after.id, before.path, after.path);
      FilePathsKeepFiles(s.files, before.path, after.path);
    }
  }

  lemma SubtreePathsKeepLinks(inodes: Inodes, id: InodeId, oldPath: string, newPath: string)
    ensures SameLinks(inodes, WithSubtreePaths(inodes, id, oldPath, newPath))
  {
  }

  predicate SameFiles(a: map<FileId, File>, b: map<FileId, File>) {
    && b.Keys == a.Keys
    && forall f :: f in a ==> b[f] == a[f].(path := b[f].path, name := b[f].name, parentInodeId := b[f].parentInodeId)
  }

  lemma FilePathsKeepFiles(files: map<FileId, File>, oldPath: string, newPath: string)
    ensures SameFiles(files, WithFilePaths(files, oldPath, newPath))
  {
  }

  /** In a well-formed state the final sync cannot fail. */
  lemma SyncSucceeds(s: State, id: InodeId, after: Inode)
    requires WellFormed(s) && id in s.inodes && after.id == id
    ensures SyncMutation(s, s.inodes[id], after).Ok?
  {
    if s.inodes[id].kind == FileInode {
      assert s.files[s.inodes[id].fileId].inodeId == id;
    }
  }

  lemma PathsHaveSlashes(inodes: Inodes, i: InodeId)
    requires Linked(inodes) && i in inodes
    ensures inodes[i].path == "/" || LastSlash(inodes[i].path) >= 0
  {
    if i != ROOT_INODE_ID {
      PathShape(inodes, i);
    }
  }

  /** Rename succeeds exactly when the inode exists and no sibling has the new name. */
  lemma RenameAccepted(s: State, id: InodeId, newName: string)
    requires WellFormed(s)
    ensures RenameInode(s, id, newName).Ok? <==>
            id != "" && id in s.inodes && !Blank(newName) && !NameTaken(s.inodes, s.inodes[id].parentId, newName, id)
  {
    if id in s.inodes {
      PathsHaveSlashes(s.inodes, id);
      var inode := s.inodes[id];
      SyncSucceeds(s, id, inode.(name := newName, path := ReplaceBaseName(inode.path, newName)));
    }
  }

  /** An accepted rename gives the inode its new name; every inode keeps its place in the tree. */
  lemma RenameEffect(s: State, id: InodeId, newName: string)
    requires RenameInode(s, id, newName).Ok? && Linked(s.inodes)
    ensures var t := RenameInode(s, id, newName).value;
            SameLinks(s.inodes[id := s.inodes[id].(name := newName)], t.inodes) && OnlyCachesDiffer(s, t)
  {
    var inode := s.inodes[id];
    var after := inode.(name := newName, path := ReplaceBaseName(inode.path, newName));
    SyncEffect(s, inode, after);
    PathIsACache(s.inodes, id, after, inode.(name := newName), RenameInode(s, id, newName).value.inodes);
  }

  lemma PathIsACache(a: Inodes, id: InodeId, x: Inode, y: Inode, b: Inodes)
    requires SameLinks(a[id := x], b) && x == y.(path := x.path)
    ensures SameLinks(a[id := y], b)
  {
  }

  /** Move succeeds exactly when both inodes exist, the target is a directory that is not the
      moved inode and (by path) not below it, and the name is free there. */
  lemma MoveAccepted(s: State, id: InodeId, target: InodeId, newName: string)
    requires WellFormed(s)
    ensures MoveInode(s, id, target, newName).Ok? <==>
            && id in s.inodes && target in s.inodes && s.inodes[target].kind == DirectoryInode
            && id != target && !HasPrefix(BaseOf(s.inodes, target), BaseOf(s.inodes, id) + "/")
            && !NameTaken(s.inodes, target, if newName == "" then s.inodes[id].name else newName, id)
  {
    if id in s.inodes && target in s.inodes {
      DescendsIffPrefix(s.inodes, target, id);
      if s.inodes[id].kind == FileInode {
        FilesAreLeaves(s.inodes, target, id);
      }
      var name := if newName == "" then s.inodes[id].name else newName;
      SyncSucceeds(s, id, s.inodes[id].(parentId := target, name := name,
                                        path := JoinPath(s.inodes[target].path, name)));
    }
  }

  /** An accepted move hangs the inode under the target; every other link stays. */
  lemma MoveEffect(s: State, id: InodeId, target: InodeId, newName: string)
    requires MoveInode(s, id, target, newName).Ok? && Linked(s.inodes)
    ensures var t := MoveInode(s, id, target, newName).value;
            var name := if newName == "" then s.inodes[id].name else newName;
            SameLinks(s.inodes[id := s.inodes[id].(parentId := target, name := name)], t.inodes)
              && OnlyCachesDiffer(s, t)
  {
    var name := if newName == "" then s.inodes[id].name else newName;
    var moved := s.inodes[id].(parentId := target, name := name);
    SyncEffect(s, s.inodes[id], moved.(path := JoinPath(s.inodes[target].path, name)));
    PathIsACache(s.inodes, id, moved.(path := JoinPath(s.inodes[target].path, name)), moved,
                 MoveInode(s, id, target, newName).value.inodes);
  }
}

/** The namespace use cases as transactions on the repository, loop by loop
    (internal/mds/service_mutation.go over internal/mds/store/memory_inode.go). */
module NamespaceService {
  import opened Wrappers
  import opened Metadata
  import opened Strings
  import opened Paths
  import opened Store
  import opened Namespace
  import opened NamespaceShape

  // ---------------------------------------------------------------- loops

  /** isDescendant: walks up and answers exactly whether the candidate lies below the ancestor. */
  method IsDescendant(inodes: Inodes, candidate: InodeId, ancestor: InodeId, ghost rank: Ranks) returns (b: bool)
    requires Ranked(inodes, rank)
    ensures b <==> Descends(inodes, candidate, ancestor)
  {
    var current := candidate;
    while current in inodes
      invariant Descends(inodes, candidate, ancestor) <==> Descends(inodes, current, ancestor)
      decreases if current in inodes then rank[current] + 1 else 0
    {
      if inodes[current].parentId == ancestor {
        return true;
      }
      current := inodes[current].parentId;
    }
    b := false;
  }

  predicate SameParents(a: Inodes, b: Inodes) {
    a.Keys == b.Keys && forall i :: i in a ==> a[i].parentId == b[i].parentId
  }

  lemma {:induction false} DescendsByParents(a: Inodes, b: Inodes, d: InodeId, x: InodeId, rank: Ranks)
    requires SameParents(a, b) && Ranked(a, rank)
    ensures Descends(a, d, x) <==> Descends(b, d, x)
    decreases if d in a then rank[d] + 1 else 0
  {
    if d in a {
      DescendsByParents(a, b, a[d].parentId, x, rank);
    }
  }

  /** updateSubtreePaths: visits all inodes in any order, rewriting paths as it goes. */
  method UpdateSubtreePaths(inodes: Inodes, root: InodeId, oldPrefix: string, newPrefix: string, ghost rank: Ranks)
    returns (r: Inodes)
    requires Ranked(inodes, rank)
    ensures r == WithSubtreePaths(inodes, root, oldPrefix, newPrefix)
  {
    r := inodes;
    ghost var goal := WithSubtreePaths(inodes, root, oldPrefix, newPrefix);
    var todo := inodes.Keys;
    while todo != {}
      invariant todo <= inodes.Keys
      invariant SameParents(inodes, r)
      invariant forall i :: i in inodes ==> r[i] == if i in todo then inodes[i] else goal[i]
      decreases |todo|
    {
      var i :| i in todo;
      todo := todo - {i};
      if i != root && HasPrefix(r[i].path, oldPrefix) {
        DescendsByParents(inodes, r, i, root, rank);
        var below := IsDescendant(r, i, root, rank);
        if below {
          r := r[i := r[i].(path := newPrefix + TrimPrefix(r[i].path, oldPrefix))];
        }
      }
    }
    assert r == goal;
  }

  /** syncFilesUnderDirectoryPath */
  method SyncFiles(files: map<FileId, File>, oldPrefix: string, newPrefix: string) returns (r: map<FileId, File>)
    ensures r == WithFilePaths(files, oldPrefix, newPrefix)
  {
    r := files;
    ghost var goal := WithFilePaths(files, oldPrefix, newPrefix);
    var todo := files.Keys;
    while todo != {}
      invariant todo <= files.Keys && r.Keys == files.Keys
      invariant forall f :: f in files ==> r[f] == if f in todo then files[f] else goal[f]
      decreases |todo|
    {
      var f :| f in todo;
      todo := todo - {f};
      var file := files[f];
      if (oldPrefix == "" || HasPrefix(file.path, oldPrefix)) && PathWithinPrefix(file.path, oldPrefix) {
        var updated := ReplacePathPrefix(file.path, oldPrefix, newPrefix);
        if updated != file.path {
          r := r[f := file.(path := updated)];
        }
      }
    }
    assert r == goal;
  }

  method IsNameTaken(inodes: Inodes, parent: InodeId, name: string, exclude: InodeId) returns (taken: bool)
    ensures taken <==> NameTaken(inodes, parent, name, exclude)
  {
    var todo := inodes.Keys;
    while todo != {}
      invariant todo <= inodes.Keys
      invariant forall i :: i in inodes && i !in todo ==>
                  !(inodes[i].parentId == parent && inodes[i].name == name && inodes[i].id != exclude
                    && inodes[i].status != InodeDeleted)
      decreases |todo|
    {
      var i :| i in todo;
      todo := todo - {i};
      if inodes[i].parentId == parent && inodes[i].name == name && inodes[i].id != exclude
         && inodes[i].status != InodeDeleted {
        return true;
      }
    }
    taken := false;
  }

  /** findFile with only the inode id given. */
  method FindFileByInode(files: map<FileId, File>, inodeId: InodeId) returns (f: Option<FileId>)
    ensures f.Some? ==> f.value in files && files[f.value].inodeId == inodeId
    ensures f.None? ==> forall k :: k in files ==> files[k].inodeId != inodeId
  {
    var todo := files.Keys;
    while todo != {}
      invariant todo <= files.Keys
      invariant forall k :: k in files && k !in todo ==> files[k].inodeId != inodeId
      decreases |todo|
    {
      var k :| k in todo;
      todo := todo - {k};
      if files[k].inodeId == inodeId {
        return Some(k);
      }
    }
    f := None;
  }

  // ---------------------------------------------------------------- rename and move

  /** syncInodeMutation after `after` has replaced `before`. */
  method Sync(s: State, before: Inode, after: Inode, ghost rank: Ranks) returns (r: Result<State>)
    requires FilesLinked(s) && before.id == after.id && after.id in s.inodes && s.inodes[after.id] == before
    requires Ranked(s.inodes[after.id := after], rank)
    ensures r == SyncMutation(s, before, after)
  {
    var tx := s.(inodes := s.inodes[after.id := after]);
    if before.kind == FileInode {
      var f := FindFileByInode(tx.files, after.id);
      if f.None? {
        return Err(NotFound);
      }
      assert forall k :: k in s.files && s.files[k].inodeId == after.id ==> k == f.value;
      var file := tx.files[f.value];
      return Ok(tx.(files := tx.files[f.value := file.(parentInodeId := after.parentId, path := after.path,
                                                       name := after.name)]));
    }
    var inodes := UpdateSubtreePaths(tx.inodes, after.id, before.path, after.path, rank);
    var files := SyncFiles(tx.files, before.path, after.path);
    r := Ok(tx.(inodes := inodes, files := files));
  }

  method DoRename(repo: Repository, id: InodeId, newName: string) returns (err: Option<StoreError>)
    requires Sturdy(repo.state)
    modifies repo
    ensures Settles(old(repo.state), repo.state, err, RenameInode(old(repo.state), id, newName))
  {
    if id == "" || Blank(newName) {
      return Some(InvalidArgument);
    }
    var tx := repo.state;
    if id !in tx.inodes {
      return Some(NotFound);
    }
    var inode := tx.inodes[id];
    if inode.status == InodeDeleting || inode.status == InodeDeleted {
      return Some(Conflict);
    }
    var taken := IsNameTaken(tx.inodes, inode.parentId, newName, id);
    if taken {
      return Some(AlreadyExists);
    }
    if inode.path != "/" && LastSlash(inode.path) < 0 {
      return Some(Panic);
    }
    var after := inode.(name := newName, path := ReplaceBaseName(inode.path, newName));
    ghost var rank :| Ranked(tx.inodes, rank);
    var r := Sync(tx, inode, after, rank);
    if r.Err? {
      return Some(r.error);
    }
    repo.state := r.value;
    err := None;
  }

  method DoMove(repo: Repository, id: InodeId, target: InodeId, newName: string) returns (err: Option<StoreError>)
    requires Sturdy(repo.state)
    modifies repo
    ensures Settles(old(repo.state), repo.state, err, MoveInode(old(repo.state), id, target, newName))
  {
    if id == "" || target == "" {
      return Some(InvalidArgument);
    }
    var tx := repo.state;
    if id !in tx.inodes || target !in tx.inodes {
      return Some(NotFound);
    }
    var inode, parent := tx.inodes[id], tx.inodes[target];
    if parent.kind != DirectoryInode {
      return Some(InvalidArgument);
    }
    if inode.status == InodeDeleting || inode.status == InodeDeleted {
      return Some(Conflict);
    }
    if id == target {
      return Some(InvalidArgument);
    }
    ghost var rank :| Ranked(tx.inodes, rank);
    var below := IsDescendant(tx.inodes, target, id, rank);
    if inode.kind == DirectoryInode && below {
      return Some(InvalidArgument);
    }
    var name := if newName == "" then inode.name else newName;
    var taken := IsNameTaken(tx.inodes, target, name, id);
    if taken {
      return Some(AlreadyExists);
    }
    if inode.kind == FileInode {
      NothingBelowFile(tx.inodes, target, id, rank);
    }
    var after := inode.(parentId := target, name := name, path := JoinPath(parent.path, name));
    MovedRanked(tx.inodes, id, after, rank);
    var r := Sync(tx, inode, after, Raised(tx.inodes, id, rank[target] + 1, rank));
    if r.Err? {
      return Some(r.error);
    }
    repo.state := r.value;
    err := None;
  }
}

/** Creation, deletion and whole runs of namespace requests. */
module NamespaceRuns {
  import opened Wrappers
  import opened Metadata
  import opened Strings
  import opened Paths
  import opened Namespace
  import opened NamespaceTree
  import opened NamespaceMutation

  // ---------------------------------------------------------------- creation

  /** A new inode under an existing directory, with a free name. */
  lemma GrowKeepsLinked(inodes: Inodes, inode: Inode)
    requires Linked(inodes) && inode.id !in inodes && inode.id != "" && inode.status == InodeActive
    requires inode.parentId in inodes && inodes[inode.parentId].kind == DirectoryInode
    requires NameOk(inode.name) && inode.path == JoinPath(inodes[inode.parentId].path, inode.name)
    requires !NameTaken(inodes, inode.parentId, inode.name, inode.id)
    ensures Linked(inodes[inode.id := inode])
  {
    var r := inodes[inode.id := inode];
    forall i | i in r && i != ROOT_INODE_ID ensures Attached(r, i) {
      if i != inode.id {
        assert Attached(inodes, i);
      }
    }
    forall i, j | i in r && j in r && Siblings(r, i, j) && r[i].name == r[j].name ensures i == j {
      if i != inode.id && j != inode.id {
        assert Siblings(inodes, i, j);
      }
    }
  }

  lemma CreateDirectoryKeeps(s: State, id: InodeId, parent: InodeId, name: string)
    requires WellFormed(s) && '/' !in name
    ensures CreateDirectory(s, id, parent, name).Ok? ==> WellFormed(CreateDirectory(s, id, parent, name).value)
  {
    var r := CreateDirectory(s, id, parent, name);
    if r.Ok? {
      var inode := r.value.inodes[id];
      GrowKeepsLinked(s.inodes, inode);
      assert r.value == s.(inodes := s.inodes[id := inode]);
      forall f | f in s.files ensures Mirrors(r.value.inodes, s.files[f]) {
        assert Mirrors(s.inodes, s.files[f]);
      }
    }
  }

  /** What an accepted CreateFile adds: one inode and one file record that mirror each other. */
  lemma CreateFileEffect(s: State, inodeId: InodeId, fileId: FileId, parent: InodeId, name: string, size: int,
                         policy: Option<ReplicaPolicy>)
    requires CreateFile(s, inodeId, fileId, parent, name, size, policy).Ok?
    ensures parent in s.inodes && s.inodes[parent].kind == DirectoryInode && inodeId !in s.inodes && fileId !in s.files
    ensures inodeId != "" && fileId != "" && !Blank(name) && !NameTaken(s.inodes, parent, name, inodeId)
    ensures var inode := Inode(inodeId, parent, fileId, JoinPath(s.inodes[parent].path, name), name, FileInode,
                               InodeActive);
            CreateFile(s, inodeId, fileId, parent, name, size, policy).value
            == s.(inodes := s.inodes[inodeId := inode],
                  files := s.files[fileId := NewFile(fileId, inode, size, policy)])
  {
  }

  lemma CreateFileKeeps(s: State, inodeId: InodeId, fileId: FileId, parent: InodeId, name: string, size: int,
                        policy: Option<ReplicaPolicy>)
    requires WellFormed(s) && '/' !in name
    requires CreateFile(s, inodeId, fileId, parent, name, size, policy).Ok?
    ensures WellFormed(CreateFile(s, inodeId, fileId, parent, name, size, policy).value)
  {
    CreateFileEffect(s, inodeId, fileId, parent, name, size, policy);
    var t := CreateFile(s, inodeId, fileId, parent, name, size, policy).value;
    GrowKeepsLinked(s.inodes, t.inodes[inodeId]);
    forall f | f in t.files ensures t.files[f].id == f && Mirrors(t.inodes, t.files[f]) {
      if f != fileId {
        assert Mirrors(s.inodes, s.files[f]);
      }
    }
  }

  // ---------------------------------------------------------------- deletion

  /** A set of inodes that contains all that lies below it, and not the root. */
  predicate DownClosed(inodes: Inodes, doomed: set<InodeId>) {
    && ROOT_INODE_ID !in doomed
    && forall i :: i in inodes && i != ROOT_INODE_ID && inodes[i].parentId in doomed ==> i in doomed
  }

  lemma PruneLinked(inodes: Inodes, doomed: set<InodeId>)
    requires Linked(inodes) && DownClosed(inodes, doomed)
    ensures Linked(inodes - doomed)
  {
    var r := inodes - doomed;
    forall i | i in r && i != ROOT_INODE_ID ensures Attached(r, i) {
      assert Attached(inodes, i);
    }
    forall i, j | i in r && j in r && Siblings(r, i, j) && r[i].name == r[j].name ensures i == j {
      assert Siblings(inodes, i, j);
    }
  }

  lemma PruneKeeps(s: State, doomed: set<InodeId>)
    requires WellFormed(s) && DownClosed(s.inodes, doomed)
    ensures WellFormed(Prune(s, doomed))
  {
    var t := Prune(s, doomed);
    PruneLinked(s.inodes, doomed);
    forall f | f in t.files ensures t.files[f].id == f && Mirrors(t.inodes, t.files[f]) {
      assert Mirrors(s.inodes, s.files[f]);
    }
  }

  lemma SubtreeDownClosed(inodes: Inodes, id: InodeId)
    requires Linked(inodes) && id in inodes && id != ROOT_INODE_ID
    ensures DownClosed(inodes, Subtree(inodes, id))
  {
    DescendsIffPrefix(inodes, ROOT_INODE_ID, id);
  }

  /** A file inode has exactly one file record and nothing below it. */
  lemma FileStandsAlone(s: State, fileId: FileId)
    requires WellFormed(s) && fileId in s.files
    ensures FilesOf(s, {s.files[fileId].inodeId}) == {fileId}
    ensures forall j :: j in s.inodes ==> s.inodes[j].parentId != s.files[fileId].inodeId
  {
    var i := s.files[fileId].inodeId;
    assert Mirrors(s.inodes, s.files[fileId]);
    forall j | j in s.inodes ensures s.inodes[j].parentId != i {
      if j != ROOT_INODE_ID {
        assert Attached(s.inodes, j);
      }
    }
    forall f | f in s.files && s.files[f].inodeId == i ensures f == fileId {
      assert Mirrors(s.inodes, s.files[f]);
    }
  }

  lemma DeleteFileIsPrune(s: State, fileId: FileId)
    requires WellFormed(s) && fileId in s.files && fileId != ""
    ensures DownClosed(s.inodes, {s.files[fileId].inodeId})
    ensures DeleteFile(s, fileId) == Ok(Prune(s, {s.files[fileId].inodeId}))
  {
    FileStandsAlone(s, fileId);
    assert Mirrors(s.inodes, s.files[fileId]);
  }

  lemma EmptyDirectoryPrune(s: State, id: InodeId)
    requires WellFormed(s) && id in s.inodes && s.inodes[id].kind == DirectoryInode && id != ROOT_INODE_ID
    requires !HasChildren(s.inodes, id)
    ensures DownClosed(s.inodes, {id})
    ensures s.(inodes := s.inodes - {id}) == Prune(s, {id})
  {
    assert forall f :: f in s.files ==> Mirrors(s.inodes, s.files[f]);
    assert FilesOf(s, {id}) == {};
    DropNothing(s, {id});
  }

  lemma DropNothing(s: State, doomed: set<InodeId>)
    ensures Drop(s, doomed, {}) == s.(inodes := s.inodes - doomed)
  {
    assert s.files - {} == s.files;
    assert s.chunks - (set c | c in s.chunks && s.chunks[c].fileId in {}) == s.chunks;
    assert s.sessions - (set u | u in s.sessions && s.sessions[u].fileId in {}) == s.sessions;
  }

  lemma DeleteKeeps(s: State, id: InodeId, recursive: bool)
    requires WellFormed(s)
    ensures DeleteDirectory(s, id, recursive).Ok? ==> WellFormed(DeleteDirectory(s, id, recursive).value)
  {
    if DeleteDirectory(s, id, recursive).Ok? {
      if recursive {
        SubtreeDownClosed(s.inodes, id);
        PruneKeeps(s, Subtree(s.inodes, id));
      } else {
        EmptyDirectoryPrune(s, id);
        PruneKeeps(s, {id});
      }
    }
  }

  predicate Under(path: string, dir: string) {
    path == dir || HasPrefix(path, dir + "/")
  }

  function InodesUnder(s: State, dir: string): set<InodeId> {
    set i | i in s.inodes && Under(s.inodes[i].path, dir)
  }

  function FilesUnder(s: State, dir: string): set<FileId> {
    set f | f in s.files && Under(s.files[f].path, dir)
  }

  /** A recursive delete removes exactly what its path names: the inodes at or under the path,
      the files among them, and those files' chunks and sessions.  Nothing else changes. */
  lemma RecursiveDeleteExact(s: State, id: InodeId)
    requires WellFormed(s) && DeleteDirectory(s, id, true).Ok?
    ensures var dir := s.inodes[id].path;
            DeleteDirectory(s, id, true).value == Drop(s, InodesUnder(s, dir), FilesUnder(s, dir))
  {
    var dir, doomed := s.inodes[id].path, Subtree(s.inodes, id);
    forall i | i in s.inodes ensures i in doomed <==> Under(s.inodes[i].path, dir) {
      UnderIffSubtree(s.inodes, i, id);
    }
    assert doomed == InodesUnder(s, dir);
    assert forall f :: f in s.files ==> Mirrors(s.inodes, s.files[f]);
    assert FilesOf(s, doomed) == FilesUnder(s, dir);
  }

  lemma UnderIffSubtree(inodes: Inodes, i: InodeId, id: InodeId)
    requires Linked(inodes) && i in inodes && id in inodes && id != ROOT_INODE_ID
    ensures i in Subtree(inodes, id) <==> Under(inodes[i].path, inodes[id].path)
  {
    PathShape(inodes, id);
    DescendsIffPrefix(inodes, i, id);
    if inodes[i].path == inodes[id].path {
      PathInjective(inodes, i, id);
    }
    if i != ROOT_INODE_ID {
      PathShape(inodes, i);
    } else {
      assert !HasPrefix("/", inodes[id].path + "/");
    }
  }

  // ---------------------------------------------------------------- runs

  datatype Request =
    | MakeDirectory(id: InodeId, parent: InodeId, name: string)
    | MakeFile(inodeId: InodeId, fileId: FileId, parent: InodeId, name: string, size: int,
               policy: Option<ReplicaPolicy>)
    | Rename(id: InodeId, name: string)
    | Move(id: InodeId, target: InodeId, name: string)
    | RemoveFile(fileId: FileId)
    | RemoveDirectory(id: InodeId, recursive: bool)

  ghost function Outcome(s: State, r: Request): Result<State> {
    match r
    case MakeDirectory(id, parent, name) => CreateDirectory(s, id, parent, name)
    case MakeFile(inodeId, fileId, parent, name, size, policy) =>
      CreateFile(s, inodeId, fileId, parent, name, size, policy)
    case Rename(id, name) => RenameInode(s, id, name)
    case Move(id, target, name) => MoveInode(s, id, target, name)
    case RemoveFile(fileId) => DeleteFile(s, fileId)
    case RemoveDirectory(id, recursive) => DeleteDirectory(s, id, recursive)
  }

  /** A refused request leaves the repository as it was. */
  ghost function Serve(s: State, r: Request): State {
    var o := Outcome(s, r);
    if o.Ok? then o.value else s
  }

  ghost function ServeAll(s: State, rs: seq<Request>): State
    decreases |rs|
  {
    if rs == [] then s else ServeAll(Serve(s, rs[0]), rs[1..])
  }

  predicate SlashFree(r: Request) {
    match r
    case MakeDirectory(_, _, name) => '/' !in name
    case MakeFile(_, _, _, name, _, _) => '/' !in name
    case Rename(_, name) => '/' !in name
    case Move(_, _, name) => '/' !in name
    case RemoveFile(_) => true
    case RemoveDirectory(_, _) => true
  }

  lemma ServeKeeps(s: State, r: Request)
    requires WellFormed(s) && SlashFree(r)
    ensures WellFormed(Serve(s, r))
  {
    if Outcome(s, r).Ok? {
      match r
      case MakeDirectory(id, parent, name) => CreateDirectoryKeeps(s, id, parent, name);
      case MakeFile(inodeId, fileId, parent, name, size, policy) =>
        CreateFileKeeps(s, inodeId, fileId, parent, name, size, policy);
      case Rename(id, name) => RenameKeepsWellFormed(s, id, name);
      case Move(id, target, name) => MoveKeepsWellFormed(s, id, target, name);
      case RemoveFile(fileId) =>
        DeleteFileIsPrune(s, fileId);
        PruneKeeps(s, {s.files[fileId].inodeId});
      case RemoveDirectory(id, recursive) => DeleteKeeps(s, id, recursive);
    }
  }

  /** Every run keeps the tree, its cached paths, the mirrored file records and the references. */
  lemma {:induction false} RunsKeepWellFormed(s: State, rs: seq<Request>)
    requires WellFormed(s)
    requires forall k :: 0 <= k < |rs| ==> SlashFree(rs[k])
    ensures WellFormed(ServeAll(s, rs))
    decreases |rs|
  {
    if rs != [] {
      ServeKeeps(s, rs[0]);
      assert forall k :: 0 <= k < |rs[1..]| ==> rs[1..][k] == rs[k + 1];
      RunsKeepWellFormed(Serve(s, rs[0]), rs[1..]);
    }
  }

  /** The repository after bootstrap: only the root directory. */
  function Booted(): State {
    State(map[ROOT_INODE_ID := Inode(ROOT_INODE_ID, "", "", "/", "", DirectoryInode, InodeActive)],
          map[], map[], map[], map[], map[])
  }

  /** The path cache is exact in every state reachable from bootstrap: each inode's path is the
      one its parent chain spells, the inodes form a tree under the root, and each file record
      carries its inode's path, name and parent. */
  lemma PathCacheExactInEveryRun(rs: seq<Request>)
    requires forall k :: 0 <= k < |rs| ==> SlashFree(rs[k])
    ensures var t := ServeAll(Booted(), rs);
            && Linked(t.inodes)
            && (forall i :: i in t.inodes ==> t.inodes[i].path == TreePath(t.inodes, i))
            && (forall i :: i in t.inodes && i != ROOT_INODE_ID ==> Descends(t.inodes, i, ROOT_INODE_ID))
            && (forall i, j :: i in t.inodes && j in t.inodes && t.inodes[i].path == t.inodes[j].path ==> i == j)
            && (forall f :: f in t.files ==> Mirrors(t.inodes, t.files[f]))
  {
    var t := ServeAll(Booted(), rs);
    RunsKeepWellFormed(Booted(), rs);
    forall i | i in t.inodes
      ensures t.inodes[i].path == TreePath(t.inodes, i)
      ensures i != ROOT_INODE_ID ==> Descends(t.inodes, i, ROOT_INODE_ID)
    {
      PathCacheExact(t.inodes, i);
      TreeShape(t.inodes, i);
    }
    forall i, j | i in t.inodes && j in t.inodes && t.inodes[i].path == t.inodes[j].path ensures i == j {
      PathInjective(t.inodes, i, j);
    }
  }
}

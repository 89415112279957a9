/** What each namespace request does, said on the fields of the records: exactly when it is
    accepted, with which error it is refused otherwise, and what it leaves behind. */
module NamespaceLaws {
  import opened Wrappers
  import opened Metadata
  import opened Strings
  import opened Paths
  import opened Namespace
  import opened NamespaceTree
  import opened NamespaceMutation
  import opened NamespaceRuns

  /** Some other inode that is not deleted has this parent and name. */
  predicate NameInUse(inodes: Inodes, parent: InodeId, name: string, own: InodeId) {
    exists i :: i in inodes && inodes[i].parentId == parent && inodes[i].name == name && inodes[i].id != own
                && (inodes[i].status == InodeActive || inodes[i].status == InodeDeleting)
  }

  lemma InUseIff(inodes: Inodes, parent: InodeId, name: string, own: InodeId)
    ensures NameTaken(inodes, parent, name, own) <==> NameInUse(inodes, parent, name, own)
  {
    if i :| i in inodes && inodes[i].parentId == parent && inodes[i].name == name && inodes[i].id != own
            && inodes[i].status != InodeDeleted {
      assert inodes[i].status == InodeActive || inodes[i].status == InodeDeleting;
    }
    if i :| i in inodes && inodes[i].parentId == parent && inodes[i].name == name && inodes[i].id != own
            && (inodes[i].status == InodeActive || inodes[i].status == InodeDeleting) {
      assert inodes[i].status != InodeDeleted;
    }
  }

  /** A child's path is its parent's path without the slashes at its end, a slash, and its name. */
  lemma ChildPath(parent: string, name: string)
    ensures exists k :: 0 <= k <= |parent| && JoinPath(parent, name) == parent[..k] + "/" + name
                        && (forall i :: k <= i < |parent| ==> parent[i] == '/') && (k > 0 ==> parent[k - 1] != '/')
  {
    var k := TrimmedAt(parent);
    assert JoinPath(parent, name) == parent[..k] + "/" + name;
  }

  lemma {:induction false} TrimmedAt(s: string) returns (k: nat)
    ensures k <= |s| && TrimRightSlash(s) == s[..k]
    ensures (forall i :: k <= i < |s| ==> s[i] == '/') && (k > 0 ==> s[k - 1] != '/')
  {
    if s != "" && s[|s| - 1] == '/' {
      k := TrimmedAt(s[..|s| - 1]);
      assert s[..|s| - 1][..k] == s[..k];
    } else {
      k := |s|;
      assert s[..k] == s;
    }
  }

  // ---------------------------------------------------------------- create

  /** A directory can be made under `parent`, or a file with a new inode. */
  predicate PlaceFree(s: State, id: InodeId, parent: InodeId, name: string) {
    && id != "" && id != ROOT_INODE_ID && id !in s.inodes
    && parent != "" && parent in s.inodes && s.inodes[parent].kind == DirectoryInode
    && !Blank(name) && !NameInUse(s.inodes, parent, name, id)
  }

  /** A directory is made exactly when its id is new, its parent is a directory and its name is free
      there; the new inode, with its path, is all that changes. */
  lemma DirectoryMade(s: State, id: InodeId, parent: InodeId, name: string)
    ensures var r := CreateDirectory(s, id, parent, name);
            && (r.Ok? <==> PlaceFree(s, id, parent, name))
            && (r.Ok? ==> r.value == s.(inodes := s.inodes[id :=
                  Inode(id, parent, "", JoinPath(s.inodes[parent].path, name), name, DirectoryInode, InodeActive)]))
            && (r == Err(NotFound) <==> id != "" && parent != "" && !Blank(name) && parent !in s.inodes)
            && (r.Err? ==> r.error == InvalidArgument || r.error == NotFound || r.error == AlreadyExists)
  {
    InUseIff(s.inodes, parent, name, id);
  }

  /** A file is made exactly when besides its file id is new and no file record names its inode; the
      new inode and a pending record of the given size, asking for three replicas of which one must
      be readable unless told otherwise, are all that changes. */
  lemma FileMade(s: State, inodeId: InodeId, fileId: FileId, parent: InodeId, name: string, size: int,
                 policy: Option<ReplicaPolicy>)
    ensures var r := CreateFile(s, inodeId, fileId, parent, name, size, policy);
            && (r.Ok? <==> && PlaceFree(s, inodeId, parent, name) && fileId != "" && size >= 0 && fileId !in s.files
                           && forall f :: f in s.files ==> s.files[f].inodeId != inodeId)
            && (r.Ok? ==>
                  var path := JoinPath(s.inodes[parent].path, name);
                  r.value == s.(inodes := s.inodes[inodeId :=
                                  Inode(inodeId, parent, fileId, path, name, FileInode, InodeActive)],
                                files := s.files[fileId :=
                                  File(fileId, inodeId, parent, path, name, size, 0, FilePending, "",
                                       Checksum("", "", false, None),
                                       if policy.Some? then policy.value else ReplicaPolicy(3, 1, 0))]))
  {
    InUseIff(s.inodes, parent, name, inodeId);
  }

  // ---------------------------------------------------------------- delete

  /** Exactly these inodes and files are gone, with the chunks and sessions of the files; everything
      else is as it was. */
  ghost predicate Removed(s: State, t: State, inodes: set<InodeId>, files: set<FileId>) {
    && t == s.(inodes := t.inodes, files := t.files, chunks := t.chunks, sessions := t.sessions)
    && (forall i :: i in t.inodes <==> i in s.inodes && i !in inodes)
    && (forall f :: f in t.files <==> f in s.files && f !in files)
    && (forall c :: c in t.chunks <==> c in s.chunks && s.chunks[c].fileId !in files)
    && (forall u :: u in t.sessions <==> u in s.sessions && s.sessions[u].fileId !in files)
    && (forall i :: i in t.inodes ==> t.inodes[i] == s.inodes[i])
    && (forall f :: f in t.files ==> t.files[f] == s.files[f])
    && (forall c :: c in t.chunks ==> t.chunks[c] == s.chunks[c])
    && (forall u :: u in t.sessions ==> t.sessions[u] == s.sessions[u])
  }

  lemma DropRemoves(s: State, inodes: set<InodeId>, files: set<FileId>)
    ensures Removed(s, Drop(s, inodes, files), inodes, files)
  {
  }

  /** Deleting a file succeeds exactly when it is recorded, and takes its inode, its record, its
      chunks and its sessions. */
  lemma FileRemoved(s: State, fileId: FileId)
    requires WellFormed(s)
    ensures DeleteFile(s, fileId).Ok? <==> fileId in s.files
    ensures fileId in s.files ==> Removed(s, DeleteFile(s, fileId).value, {s.files[fileId].inodeId}, {fileId})
    ensures fileId !in s.files ==> DeleteFile(s, fileId) == Err(if fileId == "" then InvalidArgument else NotFound)
  {
    if fileId in s.files {
      DeleteFileIsPrune(s, fileId);
      DropRemoves(s, {s.files[fileId].inodeId}, {fileId});
    }
  }

  /** A directory is deleted on its own exactly when it is not the root and nothing that is not
      deleted lies in it; then its inode goes and nothing else.  With something in it that is a
      conflict. */
  lemma EmptyDirectoryRemoved(s: State, id: InodeId)
    ensures DeleteDirectory(s, id, false).Ok? <==>
            && id != "" && id in s.inodes && s.inodes[id].kind == DirectoryInode && id != ROOT_INODE_ID
            && forall i :: i in s.inodes && s.inodes[i].parentId == id ==> s.inodes[i].status == InodeDeleted
    ensures DeleteDirectory(s, id, false).Ok? ==> Removed(s, DeleteDirectory(s, id, false).value, {id}, {})
    ensures DeleteDirectory(s, id, false) == Err(Conflict) <==>
            && id != "" && id in s.inodes && s.inodes[id].kind == DirectoryInode && id != ROOT_INODE_ID
            && exists i :: i in s.inodes && s.inodes[i].parentId == id && s.inodes[i].status != InodeDeleted
    ensures DeleteDirectory(s, id, false) == Err(NotFound) <==> id != "" && id !in s.inodes
  {
  }

  /** With everything in it, exactly when it is not the root; then the inodes and files at its path or
      under it go, with the files' chunks and sessions, and nothing else. */
  lemma SubtreeRemoved(s: State, id: InodeId)
    requires WellFormed(s)
    ensures DeleteDirectory(s, id, true).Ok? <==>
            id in s.inodes && s.inodes[id].kind == DirectoryInode && id != ROOT_INODE_ID
    ensures DeleteDirectory(s, id, true).Ok? ==>
              var dir := s.inodes[id].path;
              Removed(s, DeleteDirectory(s, id, true).value,
                      set i | i in s.inodes && (s.inodes[i].path == dir || dir + "/" <= s.inodes[i].path),
                      set f | f in s.files && (s.files[f].path == dir || dir + "/" <= s.files[f].path))
    ensures DeleteDirectory(s, id, true).Err? ==> DeleteDirectory(s, id, true).error != Conflict
  {
    if DeleteDirectory(s, id, true).Ok? {
      var dir := s.inodes[id].path;
      RecursiveDeleteExact(s, id);
      assert InodesUnder(s, dir) == set i | i in s.inodes && (s.inodes[i].path == dir || dir + "/" <= s.inodes[i].path);
      assert FilesUnder(s, dir) == set f | f in s.files && (s.files[f].path == dir || dir + "/" <= s.files[f].path);
      DropRemoves(s, InodesUnder(s, dir), FilesUnder(s, dir));
    }
  }

  // ---------------------------------------------------------------- refusals of rename and move

  /** An inode that is being deleted can be neither renamed nor moved. */
  lemma NotInThisState(s: State, id: InodeId, target: InodeId, name: string)
    requires id != "" && id in s.inodes && s.inodes[id].status != InodeActive
    ensures !Blank(name) ==> RenameInode(s, id, name) == Err(Conflict)
    ensures target != "" && target in s.inodes && s.inodes[target].kind == DirectoryInode ==>
              MoveInode(s, id, target, name) == Err(Conflict)
  {
  }

  /** A file whose inode has something below it cannot be deleted. */
  lemma OccupiedFileKept(s: State, f: FileId, i: InodeId)
    requires f != "" && f in s.files && s.files[f].inodeId in s.inodes
    requires i in s.inodes && s.inodes[i].parentId == s.files[f].inodeId && s.inodes[i].status != InodeDeleted
    ensures DeleteFile(s, f) == Err(Conflict)
  {
  }

  /** Why a rename is refused, if it is. */
  lemma RenameRefusals(s: State, id: InodeId, newName: string)
    requires WellFormed(s)
    ensures var r := RenameInode(s, id, newName);
            && (r == Err(InvalidArgument) <==> id == "" || Blank(newName))
            && (r == Err(NotFound) <==> id != "" && !Blank(newName) && id !in s.inodes)
            && (r == Err(AlreadyExists) <==> && id in s.inodes && !Blank(newName)
                                             && NameInUse(s.inodes, s.inodes[id].parentId, newName, id))
            && (r.Ok? || r.error in {InvalidArgument, NotFound, AlreadyExists})
  {
    RenameAccepted(s, id, newName);
    if id in s.inodes {
      InUseIff(s.inodes, s.inodes[id].parentId, newName, id);
    }
  }

  /** Why a move is refused, if it is: the target must be a directory, neither the inode itself nor
      anything below it. */
  lemma MoveRefusals(s: State, id: InodeId, target: InodeId, newName: string)
    requires WellFormed(s)
    ensures var r := MoveInode(s, id, target, newName);
            var known := id in s.inodes && target in s.inodes;
            var illegal := known && (s.inodes[target].kind != DirectoryInode || id == target
                                     || Descends(s.inodes, target, id));
            && (r == Err(InvalidArgument) <==> id == "" || target == "" || illegal)
            && (r == Err(NotFound) <==> id != "" && target != "" && !known)
            && (r == Err(AlreadyExists) <==>
                known && !illegal
                && NameInUse(s.inodes, target, if newName == "" then s.inodes[id].name else newName, id))
            && (r.Ok? || r.error in {InvalidArgument, NotFound, AlreadyExists})
  {
    MoveAccepted(s, id, target, newName);
    if id in s.inodes && target in s.inodes {
      InUseIff(s.inodes, target, if newName == "" then s.inodes[id].name else newName, id);
      DescendsIffPrefix(s.inodes, target, id);
      if s.inodes[id].kind == FileInode {
        FilesAreLeaves(s.inodes, target, id);
      }
    }
  }
}

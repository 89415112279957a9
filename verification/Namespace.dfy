/** The directory tree and its cached paths.

    The truth about the tree is (id, parentId, name).  The path of an inode, and the path, name
    and parent of a file record, are caches that create, rename, move and delete maintain. */
module Namespace {
  import opened Wrappers
  import opened Metadata
  import opened Strings
  import opened Paths

  type Inodes = map<InodeId, Inode>

  /** `d` lies strictly below `a`: following parent links from `d` meets `a`. */
  least predicate Descends[nat](inodes: Inodes, d: InodeId, a: InodeId) {
    d in inodes && (inodes[d].parentId == a || Descends(inodes, inodes[d].parentId, a))
  }

  ghost function Subtree(inodes: Inodes, a: InodeId): set<InodeId> {
    set i | i in inodes && (i == a || Descends(inodes, i, a))
  }

  // ---------------------------------------------------------------- the invariant

  /** An inode other than the root hangs under a directory and caches that directory's path plus its own name. */
  predicate Attached(inodes: Inodes, i: InodeId)
    requires i in inodes
  {
    var inode := inodes[i];
    && inode.parentId in inodes
    && inodes[inode.parentId].kind == DirectoryInode
    && NameOk(inode.name)
    && inode.path == JoinPath(inodes[inode.parentId].path, inode.name)
  }

  predicate RootOk(inodes: Inodes) {
    && "" !in inodes
    && ROOT_INODE_ID in inodes
    && inodes[ROOT_INODE_ID].parentId == ""
    && inodes[ROOT_INODE_ID].path == "/"
    && inodes[ROOT_INODE_ID].kind == DirectoryInode
  }

  predicate Siblings(inodes: Inodes, i: InodeId, j: InodeId)
    requires i in inodes && j in inodes
  {
    i != ROOT_INODE_ID && j != ROOT_INODE_ID && inodes[i].parentId == inodes[j].parentId
  }

  predicate Linked(inodes: Inodes) {
    && RootOk(inodes)
    && (forall i :: i in inodes ==> inodes[i].id == i && inodes[i].status == InodeActive)
    && (forall i :: i in inodes && i != ROOT_INODE_ID ==> Attached(inodes, i))
    && (forall i, j :: i in inodes && j in inodes && Siblings(inodes, i, j) && inodes[i].name == inodes[j].name ==>
          i == j)
  }

  /** A file record mirrors its inode. */
  predicate Mirrors(inodes: Inodes, f: File) {
    && f.inodeId in inodes
    && var inode := inodes[f.inodeId];
    && inode.kind == FileInode && inode.fileId == f.id
    && f.path == inode.path && f.name == inode.name && f.parentInodeId == inode.parentId
  }

  predicate FilesMatch(s: State) {
    && "" !in s.files
    && (forall f :: f in s.files ==> s.files[f].id == f && Mirrors(s.inodes, s.files[f]))
    && (forall i :: i in s.inodes && s.inodes[i].kind == FileInode ==>
          s.inodes[i].fileId in s.files && s.files[s.inodes[i].fileId].inodeId == i)
  }

  predicate RefsOk(s: State) {
    && (forall c :: c in s.chunks ==> s.chunks[c].id == c && s.chunks[c].fileId in s.files)
    && (forall u :: u in s.sessions ==> s.sessions[u].id == u && s.sessions[u].fileId in s.files)
  }

  predicate WellFormed(s: State) {
    Linked(s.inodes) && FilesMatch(s) && RefsOk(s)
  }

  // ---------------------------------------------------------------- store operations

  predicate NameTaken(inodes: Inodes, parent: InodeId, name: string, exclude: InodeId) {
    exists i :: i in inodes && inodes[i].parentId == parent && inodes[i].name == name
                && inodes[i].id != exclude && inodes[i].status != InodeDeleted
  }

  predicate HasChildren(inodes: Inodes, id: InodeId) {
    exists i :: i in inodes && inodes[i].parentId == id && inodes[i].status != InodeDeleted
  }

  function CreateInode(s: State, inode: Inode): Result<State> {
    if inode.id == "" || (inode.name == "" && inode.id != ROOT_INODE_ID) then Err(InvalidArgument)
    else if inode.id in s.inodes then Err(AlreadyExists)
    else if inode.id == ROOT_INODE_ID && inode.parentId != "" then Err(InvalidArgument)
    else if inode.id != ROOT_INODE_ID && inode.parentId !in s.inodes then Err(NotFound)
    else if inode.id != ROOT_INODE_ID && s.inodes[inode.parentId].kind != DirectoryInode then Err(InvalidArgument)
    else if NameTaken(s.inodes, inode.parentId, inode.name, inode.id) then Err(AlreadyExists)
    else Ok(s.(inodes := s.inodes[inode.id := if inode.kind == DirectoryInode then inode.(fileId := "") else inode]))
  }

  function CreateFileRecord(s: State, file: File): Result<State> {
    if file.id == "" || file.inodeId == "" then Err(InvalidArgument)
    else if file.id in s.files then Err(AlreadyExists)
    else if exists f :: f in s.files && s.files[f].inodeId == file.inodeId then Err(AlreadyExists)
    else if file.inodeId !in s.inodes then Err(NotFound)
    else if s.inodes[file.inodeId].kind != FileInode then Err(InvalidArgument)
    else Ok(s.(files := s.files[file.id := file]))
  }

  ghost function WithSubtreePaths(inodes: Inodes, root: InodeId, oldPrefix: string, newPrefix: string): Inodes {
    map i | i in inodes ::
      if i != root && HasPrefix(inodes[i].path, oldPrefix) && Descends(inodes, i, root)
      then inodes[i].(path := newPrefix + TrimPrefix(inodes[i].path, oldPrefix))
      else inodes[i]
  }

  predicate Selected(f: File, oldPrefix: string) {
    (oldPrefix == "" || HasPrefix(f.path, oldPrefix)) && PathWithinPrefix(f.path, oldPrefix)
  }

  function WithFilePaths(files: map<FileId, File>, oldPrefix: string, newPrefix: string): map<FileId, File> {
    map f | f in files ::
      if Selected(files[f], oldPrefix)
      then files[f].(path := ReplacePathPrefix(files[f].path, oldPrefix, newPrefix))
      else files[f]
  }

  /** Drop some inodes and files, together with the chunks and sessions of those files. */
  function Drop(s: State, doomed: set<InodeId>, gone: set<FileId>): State {
    s.(inodes := s.inodes - doomed,
       files := s.files - gone,
       chunks := s.chunks - (set c | c in s.chunks && s.chunks[c].fileId in gone),
       sessions := s.sessions - (set u | u in s.sessions && s.sessions[u].fileId in gone))
  }

  function FilesOf(s: State, inodes: set<InodeId>): set<FileId> {
    set f | f in s.files && s.files[f].inodeId in inodes
  }

  /** Drop some inodes with all that belongs to them. */
  function Prune(s: State, doomed: set<InodeId>): State {
    Drop(s, doomed, FilesOf(s, doomed))
  }

  // ---------------------------------------------------------------- use cases

  function CreateDirectory(s: State, id: InodeId, parent: InodeId, name: string): Result<State> {
    if id == "" || parent == "" || Blank(name) then Err(InvalidArgument)
    else if parent !in s.inodes then Err(NotFound)
    else if s.inodes[parent].kind != DirectoryInode then Err(InvalidArgument)
    else CreateInode(s, Inode(id, parent, "", JoinPath(s.inodes[parent].path, name), name, DirectoryInode, InodeActive))
  }

  function NewFile(id: FileId, inode: Inode, size: int, policy: Option<ReplicaPolicy>): File {
    File(id, inode.id, inode.parentId, inode.path, inode.name, size, 0, FilePending, "", EMPTY_CHECKSUM,
         if policy.Some? then policy.value
         else ReplicaPolicy(DEFAULT_REPLICA_COUNT, MINIMUM_READABLE_REPLICA_COUNT, 0))
  }

  function CreateFile(s: State, inodeId: InodeId, fileId: FileId, parent: InodeId, name: string, size: int,
                      policy: Option<ReplicaPolicy>): Result<State> {
    if inodeId == "" || fileId == "" || parent == "" || Blank(name) || size < 0 then Err(InvalidArgument)
    else if parent !in s.inodes then Err(NotFound)
    else if s.inodes[parent].kind != DirectoryInode then Err(InvalidArgument)
    else
      var inode := Inode(inodeId, parent, fileId, JoinPath(s.inodes[parent].path, name), name, FileInode, InodeActive);
      var s1 :- CreateInode(s, inode);
      CreateFileRecord(s1, NewFile(fileId, inode, size, policy))
  }

  /** Rename and move change one inode and then bring the caches below it up to date. */
  ghost function SyncMutation(s: State, before: Inode, after: Inode): Result<State> {
    var s1 := s.(inodes := s.inodes[after.id := after]);
    if before.kind == FileInode then
      if !exists f :: f in s.files && s.files[f].inodeId == after.id then Err(NotFound)
      else
        var f :| f in s.files && s.files[f].inodeId == after.id;
        Ok(s1.(files := s.files[f := s.files[f].(parentInodeId := after.parentId, path := after.path,
                                                 name := after.name)]))
    else
      Ok(s1.(inodes := WithSubtreePaths(s1.inodes, after.id, before.path, after.path),
             files := WithFilePaths(s.files, before.path, after.path)))
  }

  ghost function RenameInode(s: State, id: InodeId, newName: string): Result<State> {
    if id == "" || Blank(newName) then Err(InvalidArgument)
    else if id !in s.inodes then Err(NotFound)
    else
      var inode := s.inodes[id];
      if inode.status != InodeActive then Err(Conflict)
      else if NameTaken(s.inodes, inode.parentId, newName, id) then Err(AlreadyExists)
      else if inode.path != "/" && LastSlash(inode.path) < 0 then Err(Panic)
      else SyncMutation(s, inode, inode.(name := newName, path := ReplaceBaseName(inode.path, newName)))
  }

  ghost function MoveInode(s: State, id: InodeId, target: InodeId, newName: string): Result<State> {
    if id == "" || target == "" then Err(InvalidArgument)
    else if id !in s.inodes || target !in s.inodes then Err(NotFound)
    else if s.inodes[target].kind != DirectoryInode then Err(InvalidArgument)
    else
      var inode := s.inodes[id];
      var name := if newName == "" then inode.name else newName;
      if inode.status != InodeActive then Err(Conflict)
      else if id == target then Err(InvalidArgument)
      else if inode.kind == DirectoryInode && Descends(s.inodes, target, id) then Err(InvalidArgument)
      else if NameTaken(s.inodes, target, name, id) then Err(AlreadyExists)
      else SyncMutation(s, inode,
                        inode.(parentId := target, name := name, path := JoinPath(s.inodes[target].path, name)))
  }

  function DeleteFile(s: State, fileId: FileId): Result<State> {
    if fileId == "" then Err(InvalidArgument)
    else if fileId !in s.files then Err(NotFound)
    else
      var inodeId := s.files[fileId].inodeId;
      if inodeId !in s.inodes then Err(NotFound)
      else if HasChildren(s.inodes, inodeId) then Err(Conflict)
      else Ok(Drop(s, {inodeId}, {fileId}))
  }

  ghost function DeleteDirectory(s: State, id: InodeId, recursive: bool): Result<State> {
    if id == "" then Err(InvalidArgument)
    else if id !in s.inodes then Err(NotFound)
    else if s.inodes[id].kind != DirectoryInode || id == ROOT_INODE_ID then Err(InvalidArgument)
    else if !recursive && HasChildren(s.inodes, id) then Err(Conflict)
    else if !recursive then Ok(s.(inodes := s.inodes - {id}))
    else Ok(Prune(s, Subtree(s.inodes, id)))
  }
}

/** The path caches with nothing assumed about names: which requests keep them exact. */
module PathCache {
  import opened Wrappers
  import opened Metadata
  import opened Strings
  import opened Paths
  import opened SlashPaths
  import opened Namespace
  import opened NamespaceMutation
  import opened NamespaceRuns
  import opened NamespaceShape

  // ---------------------------------------------------------------- exact caches

  predicate PathExact(inodes: Inodes, i: InodeId)
    requires i in inodes
  {
    inodes[i].parentId in inodes && inodes[i].path == JoinPath(inodes[inodes[i].parentId].path, inodes[i].name)
  }

  predicate PathsExact(inodes: Inodes) {
    forall i :: i in inodes && i != ROOT_INODE_ID ==> PathExact(inodes, i)
  }

  /** Every cached path is the parent's path joined with the name, and every file record mirrors
      its inode. */
  ghost predicate CachesExact(s: State) {
    Tree(s.inodes) && PathsExact(s.inodes) && FilesMatch(s)
  }

  lemma WellFormedIsExact(s: State)
    requires WellFormed(s)
    ensures CachesExact(s)
  {
    LinkedTree(s.inodes);
    forall i | i in s.inodes && i != ROOT_INODE_ID ensures PathExact(s.inodes, i) {
      assert Attached(s.inodes, i);
    }
  }

  // ---------------------------------------------------------------- the condition

  /** What lies below directory `d` can be carried to a new path, and nothing else is caught up
      in it. */
  ghost predicate Carried(s: State, d: InodeId, newPath: string)
    requires d in s.inodes
  {
    && (forall i :: i in s.inodes && Descends(s.inodes, i, d) ==> Carries(s.inodes[i].path, s.inodes[d].path, newPath))
    && (forall f :: f in s.files ==> RecordFollows(s, d, newPath, f))
  }

  ghost predicate RecordFollows(s: State, d: InodeId, newPath: string, f: FileId)
    requires d in s.inodes && f in s.files
  {
    if Descends(s.inodes, s.files[f].inodeId, d) then RecordCarries(s.files[f].path, s.inodes[d].path)
    else RecordSpared(s.files[f].path, s.inodes[d].path, newPath)
  }

  /** The request is one the caches survive. */
  ghost predicate Harmless(s: State, r: Request) {
    match r
    case Rename(id, name) =>
      id in s.inodes ==>
        && (id != ROOT_INODE_ID ==> CutsAtFront(s.inodes[id].name))
        && (s.inodes[id].kind == DirectoryInode ==>
              var path := s.inodes[id].path;
              Carried(s, id, if LastSlash(path) >= 0 then ReplaceBaseName(path, name) else path))
    case Move(id, target, name) =>
      id in s.inodes && target in s.inodes && s.inodes[id].kind == DirectoryInode ==>
        Carried(s, id, JoinPath(s.inodes[target].path, if name == "" then s.inodes[id].name else name))
    case _ => true
  }

  // ---------------------------------------------------------------- relinking a directory

  lemma {:induction false} PathBelow(inodes: Inodes, i: InodeId, d: InodeId, rank: Ranks)
    requires Placed(inodes) && PathsExact(inodes) && Ranked(inodes, rank)
    requires d in inodes && i in inodes && Descends(inodes, i, d)
    ensures i != ROOT_INODE_ID && HasPrefix(inodes[i].path, TrimRightSlash(inodes[d].path) + "/")
    decreases rank[i]
  {
    var p := inodes[i].parentId;
    assert Hung(inodes, i) && PathExact(inodes, i);
    if p == d {
      ShiftedFirst(inodes[d].path, "", inodes[i].name);
    } else {
      PathBelow(inodes, p, d, rank);
      ShiftedChild(inodes[p].path, inodes[d].path, "", inodes[i].name);
    }
  }

  /** The path of each inode after the subtree update. */
  lemma PathAfter(inodes: Inodes, d: InodeId, after: Inode, i: InodeId, rank: Ranks)
    requires Placed(inodes) && Ranked(inodes, rank) && Rehung(inodes, d, after) && i in inodes
    ensures var t := Relinked(inodes, d, after);
            && i in t && SameLinks(inodes[d := after], t)
            && t[i].path == (if i == d then after.path
                             else if Descends(inodes, i, d) then Moved(inodes[i].path, inodes[d].path, after.path)
                             else inodes[i].path)
  {
    if i != d {
      BelowUnchanged(inodes, d, after, i, rank);
    }
    SubtreePathsKeepLinks(inodes[d := after], d, inodes[d].path, after.path);
  }

  /** Everything below `d` gets the path it should. */
  ghost predicate Shifts(inodes: Inodes, d: InodeId, after: Inode, i: InodeId)
    requires d in inodes && i in inodes && i in Relinked(inodes, d, after)
  {
    Relinked(inodes, d, after)[i].path == Shifted(inodes[i].path, inodes[d].path, after.path)
  }

  lemma ShiftsIff(inodes: Inodes, d: InodeId, after: Inode, i: InodeId, rank: Ranks)
    requires Placed(inodes) && PathsExact(inodes) && Ranked(inodes, rank) && Rehung(inodes, d, after)
    requires i in inodes && Descends(inodes, i, d)
    ensures i != d && i in Relinked(inodes, d, after)
    ensures Shifts(inodes, d, after, i) <==> Carries(inodes[i].path, inodes[d].path, after.path)
  {
    BelowIsHigher(inodes, i, d, rank);
    PathAfter(inodes, d, after, i, rank);
    PathBelow(inodes, i, d, rank);
    CarriesIff(inodes[i].path, inodes[d].path, after.path);
  }

  /** Below a directory whose path came out right, a path is exact exactly when it was shifted. */
  lemma ExactIffShifts(inodes: Inodes, d: InodeId, after: Inode, i: InodeId, rank: Ranks)
    requires Placed(inodes) && PathsExact(inodes) && Ranked(inodes, rank) && Rehung(inodes, d, after)
    requires i in inodes && Descends(inodes, i, d)
    requires Relinked(inodes, d, after).Keys == inodes.Keys
    requires var p := inodes[i].parentId; p == d || (p in inodes && Shifts(inodes, d, after, p))
    ensures PathExact(Relinked(inodes, d, after), i) <==> Shifts(inodes, d, after, i)
  {
    var p := inodes[i].parentId;
    BelowIsHigher(inodes, i, d, rank);
    PathAfter(inodes, d, after, i, rank);
    PathBelow(inodes, i, d, rank);
    assert Hung(inodes, i) && PathExact(inodes, i);
    PathAfter(inodes, d, after, p, rank);
    if p == d {
      ShiftedFirst(inodes[d].path, after.path, inodes[i].name);
    } else {
      PathBelow(inodes, p, d, rank);
      ShiftedChild(inodes[p].path, inodes[d].path, after.path, inodes[i].name);
    }
  }

  lemma {:induction false} ExactShifts(inodes: Inodes, d: InodeId, after: Inode, i: InodeId, rank: Ranks)
    requires Placed(inodes) && PathsExact(inodes) && Ranked(inodes, rank) && Rehung(inodes, d, after)
    requires i in inodes && Descends(inodes, i, d) && PathsExact(Relinked(inodes, d, after))
    ensures i in Relinked(inodes, d, after) && Shifts(inodes, d, after, i)
    decreases rank[i]
  {
    var p := inodes[i].parentId;
    PathBelow(inodes, i, d, rank);
    PathAfter(inodes, d, after, i, rank);
    if p != d {
      ExactShifts(inodes, d, after, p, rank);
    }
    assert PathExact(Relinked(inodes, d, after), i);
    ExactIffShifts(inodes, d, after, i, rank);
  }

  lemma ExactElsewhere(inodes: Inodes, d: InodeId, after: Inode, i: InodeId, rank: Ranks)
    requires Placed(inodes) && PathsExact(inodes) && Ranked(inodes, rank) && Rehung(inodes, d, after)
    requires i in inodes && i != ROOT_INODE_ID && !Descends(inodes, i, d)
    ensures i in Relinked(inodes, d, after)
    ensures i == d ==> (PathExact(Relinked(inodes, d, after), i) <==>
                          after.path == JoinPath(inodes[after.parentId].path, after.name))
    ensures i != d ==> PathExact(Relinked(inodes, d, after), i)
  {
    assert Hung(inodes, i) && PathExact(inodes, i);
    PathAfter(inodes, d, after, i, rank);
    PathAfter(inodes, d, after, if i == d then after.parentId else inodes[i].parentId, rank);
  }

  /** `d` itself has the path its new place spells. */
  predicate OwnPathExact(inodes: Inodes, d: InodeId, after: Inode) {
    d != ROOT_INODE_ID ==> after.parentId in inodes && after.path == JoinPath(inodes[after.parentId].path, after.name)
  }

  ghost predicate AllCarry(inodes: Inodes, d: InodeId, path: string)
    requires d in inodes
  {
    forall i :: i in inodes && Descends(inodes, i, d) ==> Carries(inodes[i].path, inodes[d].path, path)
  }

  lemma PathsExactIff(inodes: Inodes, d: InodeId, after: Inode, rank: Ranks)
    requires Placed(inodes) && PathsExact(inodes) && Ranked(inodes, rank) && Rehung(inodes, d, after)
    ensures PathsExact(Relinked(inodes, d, after)) <==>
              OwnPathExact(inodes, d, after) && AllCarry(inodes, d, after.path)
  {
    var t := Relinked(inodes, d, after);
    if PathsExact(t) {
      forall i | i in inodes && Descends(inodes, i, d) ensures Carries(inodes[i].path, inodes[d].path, after.path) {
        ExactShifts(inodes, d, after, i, rank);
        ShiftsIff(inodes, d, after, i, rank);
      }
      if d != ROOT_INODE_ID {
        NotBelowItself(inodes, d, rank);
        ExactElsewhere(inodes, d, after, d, rank);
      }
    }
    if OwnPathExact(inodes, d, after) && AllCarry(inodes, d, after.path) {
      forall i | i in t && i != ROOT_INODE_ID ensures PathExact(t, i) {
        CarriedExact(inodes, d, after, i, rank);
      }
    }
  }

  lemma CarriedExact(inodes: Inodes, d: InodeId, after: Inode, i: InodeId, rank: Ranks)
    requires Placed(inodes) && PathsExact(inodes) && Ranked(inodes, rank) && Rehung(inodes, d, after)
    requires OwnPathExact(inodes, d, after) && AllCarry(inodes, d, after.path)
    requires i in inodes && i != ROOT_INODE_ID
    ensures i in Relinked(inodes, d, after) && PathExact(Relinked(inodes, d, after), i)
  {
    if Descends(inodes, i, d) {
      ShiftsIff(inodes, d, after, i, rank);
      if inodes[i].parentId != d {
        ShiftsIff(inodes, d, after, inodes[i].parentId, rank);
      }
      ExactIffShifts(inodes, d, after, i, rank);
    } else {
      ExactElsewhere(inodes, d, after, i, rank);
    }
  }

  // ---------------------------------------------------------------- the file records

  /** The sync of a directory. */
  ghost function Synced(s: State, d: InodeId, after: Inode): State
    requires d in s.inodes
  {
    s.(inodes := Relinked(s.inodes, d, after), files := WithFilePaths(s.files, s.inodes[d].path, after.path))
  }

  ghost predicate Ready(s: State, d: InodeId, after: Inode, rank: Ranks) {
    && Placed(s.inodes) && PathsExact(s.inodes) && FilesMatch(s) && Ranked(s.inodes, rank) && Rehung(s.inodes, d, after)
  }

  lemma DirectoryPath(inodes: Inodes, d: InodeId)
    requires Placed(inodes) && PathsExact(inodes) && d in inodes
    ensures inodes[d].path != "" && (d != ROOT_INODE_ID ==> inodes[d].path != "/" && |inodes[d].path| >= 2)
  {
    if d != ROOT_INODE_ID {
      assert Hung(inodes, d) && PathExact(inodes, d);
      JoinIsTrim(inodes[inodes[d].parentId].path, inodes[d].name);
    }
  }

  /** A record still carries its inode's path exactly when it follows. */
  lemma RecordExactIff(s: State, d: InodeId, after: Inode, f: FileId, rank: Ranks)
    requires Ready(s, d, after, rank) && s.inodes[d].kind == DirectoryInode && AllCarry(s.inodes, d, after.path)
             && f in s.files
    ensures Mirrors(Synced(s, d, after).inodes, Synced(s, d, after).files[f]) <==> RecordFollows(s, d, after.path, f)
  {
    var i, p, dir := s.files[f].inodeId, s.files[f].path, s.inodes[d].path;
    assert Mirrors(s.inodes, s.files[f]);
    PathAfter(s.inodes, d, after, i, rank);
    DirectoryPath(s.inodes, d);
    assert Synced(s, d, after).files[f] == s.files[f].(path := Rewritten(p, dir, after.path));
    if Descends(s.inodes, i, d) {
      PathBelow(s.inodes, i, d, rank);
      RecordBelow(p, dir, after.path);
    } else {
      if d == ROOT_INODE_ID {
        BelowRoot(s.inodes, i, rank);
      }
      RecordOutside(p, dir, after.path);
    }
  }

  lemma MatchIff(s: State, t: State)
    requires FilesMatch(s) && SameFiles(s.files, t.files) && SameKinds(s.inodes, t.inodes)
    ensures FilesMatch(t) <==> forall f :: f in s.files ==> Mirrors(t.inodes, t.files[f])
  {
  }

  lemma RecordsExactIff(s: State, d: InodeId, after: Inode, rank: Ranks)
    requires Ready(s, d, after, rank) && s.inodes[d].kind == DirectoryInode && AllCarry(s.inodes, d, after.path)
    ensures FilesMatch(Synced(s, d, after)) <==> forall f :: f in s.files ==> RecordFollows(s, d, after.path, f)
  {
    var t := Synced(s, d, after);
    RelinkedKinds(s.inodes, d, after);
    FilePathsKeepFiles(s.files, s.inodes[d].path, after.path);
    MatchIff(s, t);
    forall f | f in s.files ensures Mirrors(t.inodes, t.files[f]) <==> RecordFollows(s, d, after.path, f) {
      RecordExactIff(s, d, after, f, rank);
    }
  }

  lemma DirectorySyncIff(s: State, d: InodeId, after: Inode)
    requires CachesExact(s) && Rehung(s.inodes, d, after) && s.inodes[d].kind == DirectoryInode
    ensures SyncMutation(s, s.inodes[d], after) == Ok(Synced(s, d, after))
    ensures CachesExact(Synced(s, d, after)) <==> OwnPathExact(s.inodes, d, after) && Carried(s, d, after.path)
  {
    var rank :| Ranked(s.inodes, rank);
    PathsExactIff(s.inodes, d, after, rank);
    RelinkedTree(s.inodes, d, after, rank);
    if AllCarry(s.inodes, d, after.path) {
      RecordsExactIff(s, d, after, rank);
    }
  }

  lemma FileSyncIff(s: State, d: InodeId, after: Inode)
    requires CachesExact(s) && Rehung(s.inodes, d, after) && s.inodes[d].kind == FileInode
    ensures SyncMutation(s, s.inodes[d], after).Ok?
    ensures CachesExact(SyncMutation(s, s.inodes[d], after).value) <==> OwnPathExact(s.inodes, d, after)
  {
    var rank :| Ranked(s.inodes, rank);
    FileRelinks(s.inodes, d, after, rank);
    PathsExactIff(s.inodes, d, after, rank);
    RelinkedTree(s.inodes, d, after, rank);
    RelinkedKinds(s.inodes, d, after);
    FileSynced(s, d, after);
  }

  lemma FileSynced(s: State, d: InodeId, after: Inode)
    requires FilesMatch(s) && Rehung(s.inodes, d, after) && s.inodes[d].kind == FileInode
    requires s.inodes[d].id == d && SameKinds(s.inodes, s.inodes[d := after])
    ensures SyncMutation(s, s.inodes[d], after).Ok?
    ensures var t := SyncMutation(s, s.inodes[d], after).value; t.inodes == s.inodes[d := after] && FilesMatch(t)
  {
    var mine := s.inodes[d].fileId;
    assert s.files[mine].inodeId == d;
    var t := SyncMutation(s, s.inodes[d], after).value;
    SyncEffect(s, s.inodes[d], after);
    MatchIff(s, t);
    forall f | f in s.files ensures Mirrors(t.inodes, t.files[f]) {
      assert Mirrors(s.inodes, s.files[f]) && Mirrors(s.inodes, s.files[mine]);
    }
  }

  lemma FileRelinks(inodes: Inodes, d: InodeId, after: Inode, rank: Ranks)
    requires Placed(inodes) && Ranked(inodes, rank) && Rehung(inodes, d, after) && inodes[d].kind == FileInode
    ensures Relinked(inodes, d, after) == inodes[d := after]
    ensures forall i :: i in inodes ==> !Descends(inodes, i, d)
  {
    forall i | i in inodes ensures !Descends(inodes, i, d) && (i != d ==> !Descends(inodes[d := after], i, d)) {
      NothingBelowFile(inodes, i, d, rank);
      if i != d {
        BelowUnchanged(inodes, d, after, i, rank);
      }
    }
    NothingRewritten(inodes[d := after], d, inodes[d].path, after.path);
  }

  lemma NothingRewritten(inodes: Inodes, d: InodeId, oldPath: string, newPath: string)
    requires forall i :: i in inodes && i != d ==> !Descends(inodes, i, d)
    ensures WithSubtreePaths(inodes, d, oldPath, newPath) == inodes
  {
  }

  // ---------------------------------------------------------------- rename and move

  lemma SyncIff(s: State, d: InodeId, after: Inode)
    requires CachesExact(s) && Rehung(s.inodes, d, after)
    ensures SyncMutation(s, s.inodes[d], after).Ok?
    ensures CachesExact(SyncMutation(s, s.inodes[d], after).value) <==>
            && OwnPathExact(s.inodes, d, after)
            && (s.inodes[d].kind == DirectoryInode ==> Carried(s, d, after.path))
  {
    if s.inodes[d].kind == DirectoryInode {
      DirectorySyncIff(s, d, after);
    } else {
      FileSyncIff(s, d, after);
    }
  }

  lemma RenameKeptIff(s: State, id: InodeId, name: string)
    requires CachesExact(s) && RenameInode(s, id, name).Ok?
    ensures CachesExact(RenameInode(s, id, name).value) <==> Harmless(s, Rename(id, name))
  {
    var inode := s.inodes[id];
    var after := inode.(name := name, path := ReplaceBaseName(inode.path, name));
    if id == ROOT_INODE_ID {
      assert LastSlash("/") == 0;
    } else {
      var rank :| Ranked(s.inodes, rank);
      ParentNotBelow(s.inodes, id, rank);
      assert Hung(s.inodes, id) && PathExact(s.inodes, id);
      RenamedExactIff(s.inodes[inode.parentId].path, inode.name, name);
    }
    SyncIff(s, id, after);
  }

  lemma MoveKeptIff(s: State, id: InodeId, target: InodeId, name: string)
    requires CachesExact(s) && MoveInode(s, id, target, name).Ok?
    ensures CachesExact(MoveInode(s, id, target, name).value) <==> Harmless(s, Move(id, target, name))
  {
    var inode := s.inodes[id];
    var given := if name == "" then inode.name else name;
    var after := inode.(parentId := target, name := given, path := JoinPath(s.inodes[target].path, given));
    MoveRehangs(s, id, target, name, after);
    SyncIff(s, id, after);
  }

  // ---------------------------------------------------------------- plain paths

  /** The condition for a directory whose old and new paths do not end in a slash: no file record
      outside it has the directory's path, or one under it. */
  lemma CarriedIffNoneCaught(s: State, d: InodeId, newPath: string)
    requires CachesExact(s) && d in s.inodes && d != ROOT_INODE_ID && newPath != s.inodes[d].path
    requires TrimRightSlash(s.inodes[d].path) == s.inodes[d].path && TrimRightSlash(newPath) == newPath
    ensures Carried(s, d, newPath) <==>
            forall f :: f in s.files && !Descends(s.inodes, s.files[f].inodeId, d) ==>
              s.files[f].path != s.inodes[d].path && !HasPrefix(s.files[f].path, s.inodes[d].path + "/")
  {
    var rank, dir := (var r :| Ranked(s.inodes, r); r), s.inodes[d].path;
    DirectoryPath(s.inodes, d);
    forall i | i in s.inodes && Descends(s.inodes, i, d) ensures Carries(s.inodes[i].path, dir, newPath) {
      PathBelow(s.inodes, i, d, rank);
      FrontOf(s.inodes[i].path, dir);
    }
    forall f | f in s.files
      ensures RecordFollows(s, d, newPath, f) <==>
                Descends(s.inodes, s.files[f].inodeId, d) || !Caught(s.files[f].path, dir)
    {
      CaughtIff(s.files[f].path, dir);
    }
    assert forall f :: f in s.files ==>
        (Caught(s.files[f].path, dir) <==> s.files[f].path == dir || HasPrefix(s.files[f].path, dir + "/"));
  }

  predicate Caught(p: string, dir: string) {
    p == dir || HasPrefix(p, dir + "/")
  }

  lemma CaughtIff(p: string, dir: string)
    requires dir != "/" && TrimRightSlash(dir) == dir
    ensures Caught(p, dir) <==> HasPrefix(p, dir) && PathWithinPrefix(p, dir)
  {
    if HasPrefix(p, dir + "/") {
      FrontOf(p, dir);
    }
  }

  // ---------------------------------------------------------------- the other requests

  lemma GrownExact(inodes: Inodes, inode: Inode)
    requires Placed(inodes) && PathsExact(inodes) && inode.id !in inodes && inode.id != ""
    requires inode.parentId in inodes && inode.path == JoinPath(inodes[inode.parentId].path, inode.name)
    ensures PathsExact(inodes[inode.id := inode])
  {
    var t := inodes[inode.id := inode];
    forall i | i in t && i != ROOT_INODE_ID ensures PathExact(t, i) {
      assert i != inode.id ==> PathExact(inodes, i);
    }
  }

  lemma DirectoryMadeExact(s: State, id: InodeId, parent: InodeId, name: string)
    requires CachesExact(s) && CreateDirectory(s, id, parent, name).Ok?
    ensures CachesExact(CreateDirectory(s, id, parent, name).value)
  {
    var inode := Inode(id, parent, "", JoinPath(s.inodes[parent].path, name), name, DirectoryInode, InodeActive);
    var t := CreateDirectory(s, id, parent, name).value;
    GrownTree(s.inodes, inode);
    GrownExact(s.inodes, inode);
    StillMatch(s, t, inode);
  }

  lemma StillMatch(s: State, t: State, inode: Inode)
    requires FilesMatch(s) && inode.id !in s.inodes && inode.kind == DirectoryInode
    requires t.inodes == s.inodes[inode.id := inode] && t.files == s.files
    ensures FilesMatch(t)
  {
    forall f | f in t.files ensures t.files[f].id == f && Mirrors(t.inodes, t.files[f]) {
      assert Mirrors(s.inodes, s.files[f]);
    }
  }

  lemma FileMadeExact(s: State, inodeId: InodeId, fileId: FileId, parent: InodeId, name: string, size: int,
                      policy: Option<ReplicaPolicy>)
    requires CachesExact(s) && CreateFile(s, inodeId, fileId, parent, name, size, policy).Ok?
    ensures CachesExact(CreateFile(s, inodeId, fileId, parent, name, size, policy).value)
  {
    var inode := Inode(inodeId, parent, fileId, JoinPath(s.inodes[parent].path, name), name, FileInode, InodeActive);
    CreateFileEffect(s, inodeId, fileId, parent, name, size, policy);
    GrownTree(s.inodes, inode);
    GrownExact(s.inodes, inode);
    GrownMatch(s, CreateFile(s, inodeId, fileId, parent, name, size, policy).value, inode,
               NewFile(fileId, inode, size, policy));
  }

  lemma GrownMatch(s: State, t: State, inode: Inode, file: File)
    requires FilesMatch(s) && inode.id !in s.inodes && file.id !in s.files && file.id != ""
    requires t.inodes == s.inodes[inode.id := inode] && t.files == s.files[file.id := file]
    requires file.inodeId == inode.id && Mirrors(t.inodes, file)
    ensures FilesMatch(t)
  {
    forall f | f in t.files ensures t.files[f].id == f && Mirrors(t.inodes, t.files[f]) {
      assert f in s.files ==> Mirrors(s.inodes, s.files[f]);
    }
  }

  lemma PruneExact(s: State, doomed: set<InodeId>)
    requires CachesExact(s) && DownClosed(s.inodes, doomed)
    ensures CachesExact(Prune(s, doomed))
  {
    var t := Prune(s, doomed);
    PrunedTree(s.inodes, doomed);
    forall i | i in t.inodes && i != ROOT_INODE_ID ensures PathExact(t.inodes, i) {
      assert PathExact(s.inodes, i) && Hung(s.inodes, i);
    }
    forall f | f in t.files ensures t.files[f].id == f && Mirrors(t.inodes, t.files[f]) {
      assert Mirrors(s.inodes, s.files[f]);
    }
  }

  lemma FileDeleteExact(s: State, fileId: FileId)
    requires CachesExact(s) && DeleteFile(s, fileId).Ok?
    ensures CachesExact(DeleteFile(s, fileId).value)
  {
    var i := s.files[fileId].inodeId;
    assert Mirrors(s.inodes, s.files[fileId]);
    forall j | j in s.inodes ensures s.inodes[j].parentId != i {
      assert j != ROOT_INODE_ID ==> Hung(s.inodes, j);
    }
    assert FilesOf(s, {i}) == {fileId} by {
      forall f | f in s.files && s.files[f].inodeId == i ensures f == fileId {
        assert Mirrors(s.inodes, s.files[f]);
      }
    }
    PruneExact(s, {i});
  }

  lemma DirectoryDeleteExact(s: State, id: InodeId, recursive: bool)
    requires CachesExact(s) && DeleteDirectory(s, id, recursive).Ok?
    ensures CachesExact(DeleteDirectory(s, id, recursive).value)
  {
    if recursive {
      RootBelowNothing(s.inodes, id);
      assert DownClosed(s.inodes, Subtree(s.inodes, id));
      PruneExact(s, Subtree(s.inodes, id));
    } else {
      assert forall f :: f in s.files ==> Mirrors(s.inodes, s.files[f]);
      assert FilesOf(s, {id}) == {};
      DropNothing(s, {id});
      PruneExact(s, {id});
    }
  }

  /** An accepted request leaves every cache exact exactly when it is harmless: creating and
      deleting always, renaming and moving a file whenever its own path comes out right, and a
      directory when besides what is below it is carried along and no other record is caught. */
  lemma CachesKeptIff(s: State, r: Request)
    requires CachesExact(s) && Outcome(s, r).Ok?
    ensures CachesExact(Serve(s, r)) <==> Harmless(s, r)
  {
    match r
    case MakeDirectory(id, parent, name) => DirectoryMadeExact(s, id, parent, name);
    case MakeFile(inodeId, fileId, parent, name, size, policy) =>
      FileMadeExact(s, inodeId, fileId, parent, name, size, policy);
    case Rename(id, name) => RenameKeptIff(s, id, name);
    case Move(id, target, name) => MoveKeptIff(s, id, target, name);
    case RemoveFile(fileId) => FileDeleteExact(s, fileId);
    case RemoveDirectory(id, recursive) => DirectoryDeleteExact(s, id, recursive);
  }
}

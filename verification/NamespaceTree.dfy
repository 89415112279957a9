/** What a linked set of inodes looks like: it is a tree, a path names one inode, and being
    below a directory is the same as having its path as a prefix. */
module NamespaceTree {
  import opened Metadata
  import opened Strings
  import opened Paths
  import opened Namespace

  function BaseOf(inodes: Inodes, i: InodeId): string
    requires i in inodes
  {
    Base(inodes[i].path)
  }

  /** Every path other than the root's is its parent's path, a slash and its own name. */
  lemma {:induction false} PathShape(inodes: Inodes, i: InodeId)
    requires Linked(inodes) && i in inodes && i != ROOT_INODE_ID
    ensures Segmented(inodes[i].path)
    ensures inodes[i].path == BaseOf(inodes, i) == BaseOf(inodes, inodes[i].parentId) + "/" + inodes[i].name
    decreases |inodes[i].path|
  {
    assert Attached(inodes, i);
    var p := inodes[i].parentId;
    if p != ROOT_INODE_ID {
      assert Attached(inodes, p);
      PathShape(inodes, p);
    }
    ChildPath(inodes[p].path, inodes[i].name);
  }

  lemma {:induction false} PathInjective(inodes: Inodes, i: InodeId, j: InodeId)
    requires Linked(inodes) && i in inodes && j in inodes && inodes[i].path == inodes[j].path
    ensures i == j
    decreases |inodes[i].path|
  {
    if i != ROOT_INODE_ID {
      PathShape(inodes, i);
    }
    if j != ROOT_INODE_ID {
      PathShape(inodes, j);
    }
    if i != ROOT_INODE_ID && j != ROOT_INODE_ID {
      var p, q := inodes[i].parentId, inodes[j].parentId;
      assert Attached(inodes, i) && Attached(inodes, j);
      SplitUnique(BaseOf(inodes, p), inodes[i].name, BaseOf(inodes, q), inodes[j].name);
      BaseInjective(inodes, p, q);
      PathInjective(inodes, p, q);
      assert Siblings(inodes, i, j);
    }
  }

  /** Equal bases mean equal paths: only the root has the empty base. */
  lemma BaseInjective(inodes: Inodes, p: InodeId, q: InodeId)
    requires Linked(inodes) && p in inodes && q in inodes && BaseOf(inodes, p) == BaseOf(inodes, q)
    ensures inodes[p].path == inodes[q].path
    ensures |inodes[p].path| <= |BaseOf(inodes, p)| + 1
  {
    if p != ROOT_INODE_ID {
      PathShape(inodes, p);
    }
    if q != ROOT_INODE_ID {
      PathShape(inodes, q);
    }
  }

  /** String selection is tree selection: an inode is below a directory exactly when its path
      starts with the directory's path and a slash. */
  lemma {:induction false} DescendsIffPrefix(inodes: Inodes, d: InodeId, a: InodeId)
    requires Linked(inodes) && d in inodes && a in inodes
    ensures Descends(inodes, d, a) <==> HasPrefix(BaseOf(inodes, d), BaseOf(inodes, a) + "/")
    decreases |inodes[d].path|
  {
    if d != ROOT_INODE_ID {
      PathShape(inodes, d);
      var p := inodes[d].parentId;
      assert Attached(inodes, d);
      ParentIsShorter(inodes, d);
      DescendsIffPrefix(inodes, p, a);
      PrefixOfChild(BaseOf(inodes, a), BaseOf(inodes, p), inodes[d].name);
      if BaseOf(inodes, a) == BaseOf(inodes, p) {
        BaseInjective(inodes, a, p);
        PathInjective(inodes, a, p);
      }
    }
  }

  lemma ParentIsShorter(inodes: Inodes, i: InodeId)
    requires Linked(inodes) && i in inodes && i != ROOT_INODE_ID
    ensures inodes[i].parentId in inodes
    ensures |inodes[inodes[i].parentId].path| < |inodes[i].path|
    ensures |BaseOf(inodes, inodes[i].parentId)| < |BaseOf(inodes, i)|
  {
    PathShape(inodes, i);
    assert Attached(inodes, i);
    var p := inodes[i].parentId;
    if p != ROOT_INODE_ID {
      PathShape(inodes, p);
    }
  }

  /** The inodes form one tree: all but the root lie below the root, and none below itself. */
  lemma {:induction false} TreeShape(inodes: Inodes, i: InodeId)
    requires Linked(inodes) && i in inodes
    ensures !Descends(inodes, i, i)
    ensures i != ROOT_INODE_ID ==> Descends(inodes, i, ROOT_INODE_ID)
  {
    DescendsIffPrefix(inodes, i, i);
    DescendsIffPrefix(inodes, i, ROOT_INODE_ID);
    if i != ROOT_INODE_ID {
      PathShape(inodes, i);
    }
  }

  /** The path spelled out by walking from the root down to `i`. */
  ghost function TreePath(inodes: Inodes, i: InodeId): string
    requires Linked(inodes) && i in inodes
    decreases |inodes[i].path|
  {
    if i == ROOT_INODE_ID then "/"
    else
      ParentIsShorter(inodes, i);
      var p := inodes[i].parentId;
      if p == ROOT_INODE_ID then "/" + inodes[i].name else TreePath(inodes, p) + "/" + inodes[i].name
  }

  /** The cached path is the tree path. */
  lemma {:induction false} PathCacheExact(inodes: Inodes, i: InodeId)
    requires Linked(inodes) && i in inodes
    ensures inodes[i].path == TreePath(inodes, i)
    decreases |inodes[i].path|
  {
    if i != ROOT_INODE_ID {
      PathShape(inodes, i);
      ParentIsShorter(inodes, i);
      var p := inodes[i].parentId;
      if p != ROOT_INODE_ID {
        PathShape(inodes, p);
        PathCacheExact(inodes, p);
      }
    }
  }

  /** Below a file there is nothing. */
  lemma {:induction false} FilesAreLeaves(inodes: Inodes, d: InodeId, a: InodeId)
    requires Linked(inodes) && d in inodes && a in inodes && inodes[a].kind == FileInode
    ensures !Descends(inodes, d, a)
    decreases |inodes[d].path|
  {
    if d != ROOT_INODE_ID {
      assert Attached(inodes, d);
      ParentIsShorter(inodes, d);
      FilesAreLeaves(inodes, inodes[d].parentId, a);
    }
  }
}

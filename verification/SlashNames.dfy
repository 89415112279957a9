/** Names with a slash in them.  The service accepts them; without them no request can spoil a
    cached path, with them a rename can. */
module SlashNames {
  import opened Wrappers
  import opened Metadata
  import opened Strings
  import opened Paths
  import opened Namespace
  import opened NamespaceRuns
  import opened PathCache

  /** While no name has a slash, every accepted request is harmless. */
  lemma SlashFreeIsHarmless(s: State, r: Request)
    requires WellFormed(s) && SlashFree(r) && Outcome(s, r).Ok?
    ensures Harmless(s, r)
  {
    ServeKeeps(s, r);
    WellFormedIsExact(s);
    WellFormedIsExact(Serve(s, r));
    CachesKeptIff(s, r);
  }

  // ---------------------------------------------------------------- what goes wrong

  function DirectoryMade(): State {
    var root := Inode(ROOT_INODE_ID, "", "", "/", "", DirectoryInode, InodeActive);
    Booted().(inodes := map[ROOT_INODE_ID := root,
                            "d" := Inode("d", ROOT_INODE_ID, "", "/a", "a", DirectoryInode, InodeActive)])
  }

  function FileMade(): State {
    var inode := Inode("i", ROOT_INODE_ID, "f", "/a/x", "a/x", FileInode, InodeActive);
    DirectoryMade().(inodes := DirectoryMade().inodes["i" := inode], files := map["f" := NewFile("f", inode, 0, None)])
  }

  lemma DirectoryIsMade()
    ensures CreateDirectory(Booted(), "d", ROOT_INODE_ID, "a") == Ok(DirectoryMade())
  {
    assert !Blank("a") by {
      assert "a"[0] == 'a';
    }
    assert JoinPath("/", "a") == "/a";
    var made := CreateDirectory(Booted(), "d", ROOT_INODE_ID, "a");
    assert made.Ok? && made.value.inodes == DirectoryMade().inodes;
  }

  lemma FileIsMade()
    ensures CreateFile(DirectoryMade(), "i", "f", ROOT_INODE_ID, "a/x", 0, None) == Ok(FileMade())
  {
    assert !Blank("a/x") by {
      assert "a/x"[0] == 'a';
    }
    assert JoinPath("/", "a/x") == "/a/x";
    assert |"a"| != |"a/x"|;
    var made := CreateFile(DirectoryMade(), "i", "f", ROOT_INODE_ID, "a/x", 0, None);
    assert made.Ok? && made.value.inodes == FileMade().inodes && made.value.files == FileMade().files;
  }

  /** A file named "a/x" beside a directory named "a" gets its record's path changed when the
      directory is renamed to "b", while its inode stays where it is. */
  lemma SlashNameCorruptsPath()
    ensures var t := ServeAll(Booted(),
                              [MakeDirectory("d", ROOT_INODE_ID, "a"),
                               MakeFile("i", "f", ROOT_INODE_ID, "a/x", 0, None),
                                         Rename("d", "b")]);
            && "i" in t.inodes && "f" in t.files && t.files["f"].inodeId == "i"
            && t.inodes["i"].path == "/a/x" && t.files["f"].path == "/b/x" && !CachesExact(t)
  {
    DirectoryIsMade();
    FileIsMade();
    RenameMovesFile();
    var rs := [MakeDirectory("d", ROOT_INODE_ID, "a"), MakeFile("i", "f", ROOT_INODE_ID, "a/x", 0, None),
               Rename("d", "b")];
    assert rs[1..] == [rs[1], rs[2]] && rs[1..][1..] == [rs[2]] && rs[1..][1..][1..] == [];
    assert Serve(Booted(), rs[0]) == DirectoryMade() && Serve(DirectoryMade(), rs[1]) == FileMade();
    assert ServeAll(Booted(), rs) == ServeAll(DirectoryMade(), rs[1..]) == ServeAll(FileMade(), rs[1..][1..]);
    assert ServeAll(FileMade(), [rs[2]]) == Serve(FileMade(), rs[2]);
    var t := Serve(FileMade(), rs[2]);
    assert !Mirrors(t.inodes, t.files["f"]);
  }

  /** The same file renamed to "b" gets the path "/a/b": the rename cuts inside the old name. */
  lemma RenameCutsInside()
    ensures RenameInode(FileMade(), "i", "b").Ok?
    ensures var t := RenameInode(FileMade(), "i", "b").value;
            && "i" in t.inodes && t.inodes["i"].parentId == ROOT_INODE_ID && t.inodes["i"].name == "b"
            && t.inodes["i"].path == "/a/b" && !CachesExact(t)
  {
    var s := FileMade();
    assert LastSlash("/a/x") == 2 && "/a/x"[..2] == "/a";
    assert ReplaceBaseName("/a/x", "b") == "/a/b" by {
      assert TrimRightSlash("/a") == "/a";
      assert "/a" + "/" + "b" == "/a/b";
    }
    assert !Blank("b") by {
      assert "b"[0] == 'b';
    }
    assert s.inodes["d"].name != "b" && s.inodes["i"].path != "/" by {
      assert "a"[0] != "b"[0] && |"/a/x"| == 4;
    }
    assert s.files["f"].inodeId == "i";
    var t := RenameInode(s, "i", "b").value;
    assert JoinPath("/", "b") == "/b" && |"/b"| == 2 && |"/a/b"| == 4;
    assert t.inodes[ROOT_INODE_ID].path == "/";
    assert !PathExact(t.inodes, "i");
  }

  lemma RenameMovesFile()
    ensures RenameInode(FileMade(), "d", "b").Ok?
    ensures var t := RenameInode(FileMade(), "d", "b").value;
            && "i" in t.inodes && "f" in t.files && t.files["f"].inodeId == "i"
            && t.inodes["i"].path == "/a/x" && t.files["f"].path == "/b/x"
  {
    var s := FileMade();
    var after := s.inodes["d"].(name := "b", path := "/b");
    assert "/a"[..0] == "" && LastSlash("/a") == 0;
    assert ReplaceBaseName("/a", "b") == "/b";
    var inodes := s.inodes["d" := after];
    assert !Descends(inodes, ROOT_INODE_ID, "d");
    assert !Descends(inodes, "i", "d");
    assert TrimRightSlash("/a") == "/a" && TrimRightSlash("/b") == "/b";
    assert "/a/x"[..3] == "/a/" && "/a/x"[..2] == "/a" && "/a/x"[2..] == "/x";
    assert ReplacePathPrefix("/a/x", "/a", "/b") == "/b/x";
  }
}

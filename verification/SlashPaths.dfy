/** The path operations on names that may contain slashes: what each leaves of a path that was
    exact before. */
module SlashPaths {
  import opened Strings
  import opened Paths

  /** The slashes at the end. */
  function Tail(s: string): string {
    TrimIsPrefix(s);
    s[|TrimRightSlash(s)|..]
  }

  lemma {:induction false} TrimIsPrefix(s: string)
    ensures TrimRightSlash(s) <= s
    ensures TrimRightSlash(TrimRightSlash(s)) == TrimRightSlash(s)
  {
    if s != "" && s[|s| - 1] == '/' {
      TrimIsPrefix(s[..|s| - 1]);
    }
  }

  lemma {:induction false} TailIsSlashes(s: string)
    ensures forall k :: 0 <= k < |Tail(s)| ==> Tail(s)[k] == '/'
    ensures s == TrimRightSlash(s) + Tail(s)
  {
    TrimIsPrefix(s);
    if s != "" && s[|s| - 1] == '/' {
      TrimIsPrefix(s[..|s| - 1]);
      TailIsSlashes(s[..|s| - 1]);
      assert Tail(s) == Tail(s[..|s| - 1]) + "/";
    }
  }

  lemma {:induction false} TrimSlashes(s: string)
    ensures TrimRightSlash(s) == "" <==> forall k :: 0 <= k < |s| ==> s[k] == '/'
  {
    if s != "" && s[|s| - 1] == '/' {
      TrimSlashes(s[..|s| - 1]);
    }
  }

  /** Trimming stops at what does not end in a slash. */
  lemma {:induction false} TrimAfter(u: string, y: string)
    requires TrimRightSlash(u) == u
    ensures TrimRightSlash(u + y) == u + TrimRightSlash(y)
  {
    if y == "" {
      assert u + y == u;
    } else if y[|y| - 1] == '/' {
      assert (u + y)[..|u + y| - 1] == u + y[..|y| - 1];
      TrimAfter(u, y[..|y| - 1]);
    }
  }

  /** Both branches of joinPath are the same string operation. */
  lemma JoinIsTrim(parentPath: string, name: string)
    ensures JoinPath(parentPath, name) == TrimRightSlash(parentPath) + "/" + name
  {
    assert "/"[..0] == "";
    assert TrimRightSlash("/") == "" == TrimRightSlash("");
  }

  // ---------------------------------------------------------------- an inode's own path

  /** Cutting the name at its last slash leaves nothing, or only slashes. */
  predicate CutsAtFront(name: string) {
    forall k :: 0 <= k < LastSlash(name) ==> name[k] == '/'
  }

  lemma LastSlashAfter(u: string, name: string)
    ensures LastSlash(u + "/" + name) == |u| + 1 + LastSlash(name)
  {
    var path, k := u + "/" + name, LastSlash(u + "/" + name);
    assert path[|u|] == '/';
    assert forall i :: |u| < i < |path| ==> path[i] == name[i - |u| - 1];
    assert LastSlash(name) >= 0 ==> path[|u| + 1 + LastSlash(name)] == '/';
  }

  /** Replacing the base name gives the right path exactly when the old name is cut at its front. */
  lemma RenamedExactIff(parentPath: string, name: string, newName: string)
    requires name != ""
    ensures var path := JoinPath(parentPath, name);
            && path != "/" && LastSlash(path) >= 0
            && (ReplaceBaseName(path, newName) == JoinPath(parentPath, newName) <==> CutsAtFront(name))
  {
    var u := TrimRightSlash(parentPath);
    JoinIsTrim(parentPath, name);
    JoinIsTrim(parentPath, newName);
    TrimIsPrefix(parentPath);
    LastSlashAfter(u, name);
    var path, k := u + "/" + name, LastSlash(name);
    assert |path| >= 2;
    if k < 0 {
      assert path[..|u|] == u;
      RenamedAfter(path, u, newName);
    } else {
      var rest := "/" + name[..k];
      assert path[..|u| + 1 + k] == u + rest;
      RenamedAfter(path, u + rest, newName);
      TrimAfter(u, rest);
      TrimSlashes(rest);
      assert CutsAtFront(name) <==> TrimRightSlash(rest) == "" by {
        assert forall i :: 0 <= i < k ==> rest[i + 1] == name[i];
      }
      SameFront(u + TrimRightSlash(rest), u, "/" + newName);
    }
  }

  lemma RenamedAfter(path: string, parent: string, newName: string)
    requires path != "/" && LastSlash(path) >= 0 && path[..LastSlash(path)] == parent
    ensures ReplaceBaseName(path, newName) == TrimRightSlash(parent) + "/" + newName
  {
    JoinIsTrim(if parent == "" then "/" else parent, newName);
    assert "/"[..0] == "";
  }

  lemma SameFront(a: string, b: string, c: string)
    ensures a + c == b + c <==> a == b
  {
    if a + c == b + c {
      assert a == (a + c)[..|a|] && b == (b + c)[..|b|];
    }
  }

  lemma SameMiddle(u: string, a: string, b: string, c: string)
    ensures u + a + c == u + b + c <==> a == b
  {
    SameFront(u + a, u + b, c);
    if u + a == u + b {
      assert a == (u + a)[|u|..] && b == (u + b)[|u|..];
    }
  }

  // ---------------------------------------------------------------- paths below a directory

  /** What the subtree update makes of a path below the directory. */
  function Moved(p: string, oldDir: string, newDir: string): string {
    if HasPrefix(p, oldDir) then newDir + TrimPrefix(p, oldDir) else p
  }

  /** What it should make of it. */
  function Shifted(p: string, oldDir: string, newDir: string): string {
    if HasPrefix(p, TrimRightSlash(oldDir)) then TrimRightSlash(newDir) + TrimPrefix(p, TrimRightSlash(oldDir)) else p
  }

  /** A path that has the directory's as a prefix goes along when the slashes at the end stay the
      same; one that does not stays, so the rest must stay the same. */
  predicate Carries(p: string, oldDir: string, newDir: string) {
    if HasPrefix(p, oldDir) then Tail(oldDir) == Tail(newDir) else TrimRightSlash(oldDir) == TrimRightSlash(newDir)
  }

  lemma CarriesIff(p: string, oldDir: string, newDir: string)
    requires HasPrefix(p, TrimRightSlash(oldDir) + "/")
    ensures Moved(p, oldDir, newDir) == Shifted(p, oldDir, newDir) <==> Carries(p, oldDir, newDir)
  {
    var t, u := TrimRightSlash(oldDir), TrimRightSlash(newDir);
    FrontOf(p, t);
    if HasPrefix(p, oldDir) {
      TailIsSlashes(oldDir);
      TailIsSlashes(newDir);
      var rest := p[|oldDir|..];
      AfterPrefix(p, t, Tail(oldDir), rest);
      SameMiddle(u, Tail(newDir), Tail(oldDir), rest);
      assert u + (Tail(oldDir) + rest) == u + Tail(oldDir) + rest;
    } else {
      SameFront(t, u, p[|t|..]);
    }
  }

  lemma FrontOf(p: string, t: string)
    requires HasPrefix(p, t + "/")
    ensures HasPrefix(p, t) && p == t + p[|t|..] && p[|t|] == '/'
  {
    assert p[..|t|] == (t + "/")[..|t|] == t;
    assert p[|t|] == (t + "/")[|t|];
  }

  lemma AfterPrefix(p: string, t: string, tail: string, rest: string)
    requires HasPrefix(p, t + tail) && rest == p[|t + tail|..]
    ensures HasPrefix(p, t) && p[|t|..] == tail + rest
  {
    assert p == (t + tail) + rest;
    assert p[..|t|] == t;
  }

  /** What is left of a path after the trimmed directory is trimmed on its own. */
  lemma JoinAfter(t: string, y: string, name: string)
    requires TrimRightSlash(t) == t
    ensures JoinPath(t + y, name) == t + (TrimRightSlash(y) + "/" + name)
  {
    TrimAfter(t, y);
    JoinIsTrim(t + y, name);
    Regroup(t, TrimRightSlash(y), name);
  }

  lemma Regroup(a: string, b: string, c: string)
    ensures a + b + "/" + c == a + (b + "/" + c)
  {
  }

  lemma StartsWithSlash(y: string, name: string)
    requires TrimRightSlash(y) == "" || y[0] == '/'
    ensures (TrimRightSlash(y) + "/" + name)[0] == '/'
  {
    TrimIsPrefix(y);
  }

  lemma SplitAt(t: string, z: string)
    requires z != "" && z[0] == '/'
    ensures HasPrefix(t + z, t + "/") && HasPrefix(t + z, t) && TrimPrefix(t + z, t) == z
  {
    assert (t + z)[..|t| + 1] == t + "/";
    assert (t + z)[..|t|] == t;
  }

  /** Shifting a directory's path shifts the paths of its children. */
  lemma ShiftedChild(parent: string, oldDir: string, newDir: string, name: string)
    requires HasPrefix(parent, TrimRightSlash(oldDir) + "/")
    ensures HasPrefix(JoinPath(parent, name), TrimRightSlash(oldDir) + "/")
    ensures JoinPath(Shifted(parent, oldDir, newDir), name) == Shifted(JoinPath(parent, name), oldDir, newDir)
  {
    var t, u := TrimRightSlash(oldDir), TrimRightSlash(newDir);
    TrimIsPrefix(oldDir);
    TrimIsPrefix(newDir);
    FrontOf(parent, t);
    var y := parent[|t|..];
    JoinAfter(t, y, name);
    JoinAfter(u, y, name);
    StartsWithSlash(y, name);
    SplitAt(t, TrimRightSlash(y) + "/" + name);
  }

  lemma ShiftedFirst(oldDir: string, newDir: string, name: string)
    ensures HasPrefix(JoinPath(oldDir, name), TrimRightSlash(oldDir) + "/")
    ensures JoinPath(newDir, name) == Shifted(JoinPath(oldDir, name), oldDir, newDir)
  {
    var t, u := TrimRightSlash(oldDir), TrimRightSlash(newDir);
    JoinIsTrim(oldDir, name);
    JoinIsTrim(newDir, name);
    Regroup(t, "", name);
    Regroup(u, "", name);
    SplitAt(t, "" + "/" + name);
    assert t + "" == t && u + "" == u;
  }

  // ---------------------------------------------------------------- file records

  /** What the file sync makes of a record's path. */
  function Rewritten(p: string, oldDir: string, newDir: string): string {
    if (oldDir == "" || HasPrefix(p, oldDir))
       && PathWithinPrefix(p, oldDir) then ReplacePathPrefix(p, oldDir, newDir) else p
  }

  /** Only a directory whose path is all slashes fails to take a record along. */
  predicate RecordCarries(p: string, oldDir: string) {
    TrimRightSlash(oldDir) == "" && HasPrefix(p, oldDir) && HasPrefix(p, "//") ==> p == oldDir
  }

  lemma RecordBelow(p: string, oldDir: string, newDir: string)
    requires oldDir != "" && HasPrefix(p, TrimRightSlash(oldDir) + "/") && Carries(p, oldDir, newDir)
    requires oldDir == "/" ==> newDir == "/"
    ensures Rewritten(p, oldDir, newDir) == Moved(p, oldDir, newDir) <==> RecordCarries(p, oldDir)
  {
    var t, u := TrimRightSlash(oldDir), TrimRightSlash(newDir);
    CarriesIff(p, oldDir, newDir);
    assert p[..|t|] == (t + "/")[..|t|] == t;
    if HasPrefix(p, oldDir) && p != oldDir {
      assert Moved(p, oldDir, newDir) == u + p[|t|..];
      if t == "" {
        assert p[|t|..] == p;
        AllSlashes(p, oldDir, newDir);
      }
    }
  }

  /** Under an all-slash path the rewriting drops a slash. */
  lemma AllSlashes(p: string, oldDir: string, newDir: string)
    requires oldDir != "" && TrimRightSlash(oldDir) == "" && HasPrefix(p, oldDir) && p != oldDir
    ensures PathWithinPrefix(p, oldDir)
    ensures HasPrefix(p, "//") ==> ReplacePathPrefix(p, oldDir, newDir) == TrimRightSlash(newDir) + p[1..]
    ensures !HasPrefix(p, "//") ==> oldDir == "/" && ReplacePathPrefix(p, oldDir, newDir) == p
  {
    TrimSlashes(oldDir);
    assert p[0] == oldDir[0] == '/';
    assert HasPrefix(p, "/");
    if |oldDir| >= 2 {
      assert p[1] == oldDir[1] == '/';
      assert HasPrefix(p, "//");
    } else {
      assert oldDir == "/";
    }
    assert "/" + "/" == "//" && "" + "/" == "/";
  }

  /** A record outside the directory is left alone. */
  predicate RecordSpared(p: string, oldDir: string, newDir: string) {
    HasPrefix(p, oldDir) && PathWithinPrefix(p, oldDir) ==>
      if p == oldDir then newDir == oldDir
      else TrimRightSlash(oldDir) != "" && TrimRightSlash(newDir) == TrimRightSlash(oldDir)
  }

  lemma RecordOutside(p: string, oldDir: string, newDir: string)
    requires oldDir != "" && oldDir != "/"
    ensures Rewritten(p, oldDir, newDir) == p <==> RecordSpared(p, oldDir, newDir)
  {
    var t, u := TrimRightSlash(oldDir), TrimRightSlash(newDir);
    if HasPrefix(p, oldDir) && PathWithinPrefix(p, oldDir) && p != oldDir {
      if t == "" {
        AllSlashes(p, oldDir, newDir);
        OneSlashLost(p, u, newDir);
      } else {
        assert p[..|t|] == (t + "/")[..|t|] == t;
        assert p == t + p[|t|..];
        SameFront(t, u, p[|t|..]);
      }
    }
  }

  lemma OneSlashLost(p: string, u: string, newDir: string)
    requires HasPrefix(p, "//") && u == TrimRightSlash(newDir)
    ensures u + p[1..] != p
  {
    TrimIsPrefix(newDir);
    assert TrimRightSlash("/") == "" by {
      assert "/"[..0] == "";
    }
    assert u != "/" && "//"[0] == '/';
    if |u| == 1 {
      assert u[0] != '/' by {
        assert u == [u[0]];
      }
      assert (u + p[1..])[0] == u[0] && p[0] == "//"[0];
    }
  }
}

/** Absolute paths as the service builds, cuts and compares them, and the laws that make a
    cached path string as good as a walk up the tree. */
module Paths {
  import opened Strings

  /** joinPath and childPath */
  function JoinPath(parentPath: string, name: string): string {
    if parentPath == "" || parentPath == "/" then "/" + name
    else TrimRightSlash(parentPath) + "/" + name
  }

  function ReplaceBaseName(path: string, name: string): string
    requires path == "/" || LastSlash(path) >= 0
  {
    if path == "/" then path
    else
      var parent := path[..LastSlash(path)];
      JoinPath(if parent == "" then "/" else parent, name)
  }

  predicate PathWithinPrefix(path: string, prefix: string) {
    if path == prefix then true
    else if prefix == "/" then HasPrefix(path, "/")
    else HasPrefix(path, TrimRightSlash(prefix) + "/")
  }

  function ReplacePathPrefix(path: string, oldPrefix: string, newPrefix: string): string {
    if path == oldPrefix then newPrefix
    else
      var trimmed := TrimRightSlash(oldPrefix);
      var cut := if trimmed == "" then "/" else trimmed;
      if !HasPrefix(path, cut + "/") then path
      else TrimRightSlash(newPrefix) + TrimPrefix(path, cut)
  }

  /** A name that can be one path segment. */
  predicate NameOk(name: string) {
    name != "" && '/' !in name
  }

  /** A path with the root's "/" read as "", so that a child's path is always this + "/" + name. */
  function Base(path: string): string {
    if path == "/" then "" else path
  }

  /** The shape of every path of an inode other than the root. */
  predicate Segmented(path: string) {
    |path| >= 2 && path[0] == '/' && path[1] != '/' && path[|path| - 1] != '/'
  }

  lemma ChildPath(parentPath: string, name: string)
    requires NameOk(name) && (parentPath == "/" || Segmented(parentPath))
    ensures JoinPath(parentPath, name) == Base(parentPath) + "/" + name
    ensures Segmented(JoinPath(parentPath, name))
  {
  }

  /** A slash-free last segment can be split off in only one way. */
  lemma SplitUnique(p: string, m: string, q: string, n: string)
    requires '/' !in m && '/' !in n
    requires p + "/" + m == q + "/" + n
    ensures p == q && m == n
  {
    var s := p + "/" + m;
    assert s[|p|] == '/' && s[|q|] == '/';
    assert forall k :: |p| < k < |s| ==> s[k] == m[k - |p| - 1];
    assert forall k :: |q| < k < |s| ==> s[k] == n[k - |q| - 1];
    assert |p| == |q|;
    assert p == s[..|p|] && q == s[..|q|];
    assert m == s[|p| + 1..] && n == s[|q| + 1..];
  }

  /** A prefix ending in a slash cannot end inside the last segment. */
  lemma PrefixOfChild(a: string, p: string, n: string)
    requires '/' !in n
    ensures HasPrefix(p + "/" + n, a + "/") <==> a == p || HasPrefix(p, a + "/")
  {
    if HasPrefix(p + "/" + n, a + "/") {
      PrefixEndsInParent(a, p, n);
    }
    if HasPrefix(p, a + "/") {
      assert (p + "/" + n)[..|a| + 1] == p[..|a| + 1];
    }
    if a == p {
      assert (p + "/" + n)[..|a| + 1] == a + "/";
    }
  }

  lemma PrefixEndsInParent(a: string, p: string, n: string)
    requires '/' !in n && HasPrefix(p + "/" + n, a + "/")
    ensures a == p || HasPrefix(p, a + "/")
  {
    var s := p + "/" + n;
    assert s[|a|] == (a + "/")[|a|] == '/';
    assert forall k :: |p| < k < |s| ==> s[k] == n[k - |p| - 1];
    assert |a| <= |p|;
    if |a| == |p| {
      assert a == s[..|a|] == p;
    } else {
      assert s[..|a| + 1] == a + "/";
      assert p[..|a| + 1] == s[..|a| + 1];
    }
  }

  lemma RenamedPath(parent: string, name: string, newName: string)
    requires NameOk(name) && NameOk(newName) && (parent == "/" || Segmented(parent))
    ensures LastSlash(Base(parent) + "/" + name) >= 0
    ensures ReplaceBaseName(Base(parent) + "/" + name, newName) == Base(parent) + "/" + newName
  {
    var path := Base(parent) + "/" + name;
    var k := LastSlash(path);
    assert path[|Base(parent)|] == '/';
    assert forall i :: |Base(parent)| < i < |path| ==> path[i] == name[i - |Base(parent)| - 1];
    assert k == |Base(parent)|;
    assert path[..k] == Base(parent);
    ChildPath(parent, newName);
  }

  /** On well-formed paths the string test for "under this directory" is exact. */
  lemma WithinPrefix(path: string, dir: string)
    requires Segmented(path) && Segmented(dir)
    ensures PathWithinPrefix(path, dir) <==> path == dir || HasPrefix(path, dir + "/")
  {
  }

  lemma MovedPath(path: string, oldDir: string, newDir: string)
    requires Segmented(path) && Segmented(oldDir) && Segmented(newDir) && HasPrefix(path, oldDir + "/")
    ensures HasPrefix(path, oldDir)
    ensures ReplacePathPrefix(path, oldDir, newDir) == newDir + path[|oldDir|..] == newDir + TrimPrefix(path, oldDir)
  {
    assert path[..|oldDir|] == (oldDir + "/")[..|oldDir|] == oldDir;
  }

  /** Exchanging a directory prefix commutes with descending one level. */
  lemma ExchangePrefix(oldDir: string, newDir: string, parent: string, name: string)
    requires Segmented(oldDir) && Segmented(newDir) && Segmented(parent) && NameOk(name)
    requires parent == oldDir || HasPrefix(parent, oldDir + "/")
    ensures |oldDir| <= |parent|
    ensures JoinPath(newDir + parent[|oldDir|..], name) == newDir + (parent + "/" + name)[|oldDir|..]
  {
    var moved := newDir + parent[|oldDir|..];
    if parent != oldDir {
      assert moved[|moved| - 1] == parent[|parent| - 1];
    }
    ChildPath(moved, name);
    assert (parent + "/" + name)[|oldDir|..] == parent[|oldDir|..] + "/" + name;
  }

  /** For the root the prefix replacement leaves every path alone. */
  lemma RootPrefixIsInert(path: string, newPrefix: string)
    requires Segmented(path)
    ensures ReplacePathPrefix(path, "/", newPrefix) == path
  {
    assert "/"[..0] == "";
    assert TrimRightSlash("/") == "";
    if |path| >= 2 {
      assert path[..2][1] == path[1] && "//"[1] == '/';
    }
  }
}

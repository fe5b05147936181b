/** The parts of Node's `path` module the template engine uses, on
    '/'-separated paths relative to a root directory. The root itself is the
    empty path "", so `Dirname` of a top-level file is "". */
module Paths {
  import opened Wrappers
  import opened Text

  /** `s` has no '/' at all. */
  predicate NoSlash(s: string)
  {
    forall k :: 0 <= k < |s| ==> s[k] != '/'
  }

  /** Index of the last '/' in `p`, if any. */
  function LastSlash(p: string): (r: Option<nat>)
    ensures r.Some? ==> r.value < |p| && p[r.value] == '/' && NoSlash(p[r.value + 1..])
    ensures r.None? ==> NoSlash(p)
  {
    if p == [] then None
    else if p[|p| - 1] == '/' then Some(|p| - 1)
    else
      var r := LastSlash(p[..|p| - 1]);
      assert r.Some? ==> p[r.value + 1..] == p[..|p| - 1][r.value + 1..] + [p[|p| - 1]];
      r
  }

  /** `path.basename(p)`: everything after the last '/'. */
  function Basename(p: string): (b: string)
    ensures NoSlash(b)
    ensures |b| <= |p| && b == p[|p| - |b|..]
  {
    match LastSlash(p)
    case None => p
    case Some(k) => p[k + 1..]
  }

  /** `path.dirname(p)` relative to the root: everything before the last '/',
      or the root "" when there is none. */
  function Dirname(p: string): (d: string)
    ensures p != "" ==> |d| < |p|
    ensures |d| <= |p| && d == p[..|d|]
  {
    match LastSlash(p)
    case None => ""
    case Some(k) => p[..k]
  }

  /** `path.join(d, n)` for a directory and a name that are already normal:
      an empty side contributes nothing. */
  function Join(d: string, n: string): string
  {
    if d == "" then n else if n == "" then d else d + "/" + n
  }

  /** A path as `glob` reports it: non-empty, relative, no trailing '/'. */
  predicate RelPath(p: string)
  {
    p != "" && p[0] != '/' && p[|p| - 1] != '/'
  }

  /** The last '/' of `a + "/" + b` is the one in the middle when `b` has none. */
  lemma LastSlashOfJoin(a: string, b: string)
    requires NoSlash(b)
    ensures LastSlash(a + "/" + b) == Some(|a|)
  {
    var p := a + "/" + b;
    assert p[|a|] == '/';
    assert p[|a| + 1..] == b;
  }

  /** Splitting a glob path into directory and base name and joining them
      again gives the path back. */
  lemma SplitJoin(p: string)
    requires RelPath(p)
    ensures Join(Dirname(p), Basename(p)) == p
  {
    match LastSlash(p)
    case None =>
    case Some(k) =>
      assert k != 0 && k != |p| - 1;
      assert p[..k] + "/" + p[k + 1..] == p;
  }

  /** Joining a directory with a plain name (no '/') keeps that directory
      as the parent and the name as the base name. */
  lemma JoinPlainName(d: string, n: string)
    requires n != "" && NoSlash(n)
    ensures Dirname(Join(d, n)) == d
    ensures Basename(Join(d, n)) == n
  {
    if d != "" {
      LastSlashOfJoin(d, n);
      assert (d + "/" + n)[..|d|] == d;
      assert (d + "/" + n)[|d| + 1..] == n;
    }
  }

  /** Joining a directory with a relative name that has its own directory
      part puts the result under `Join(d, Dirname(n))`. */
  lemma DirnameOfJoin(d: string, n: string)
    requires n != "" && n[0] != '/'
    ensures Dirname(Join(d, n)) == Join(d, Dirname(n))
  {
    match LastSlash(n)
    case None =>
      JoinPlainName(d, n);
    case Some(k) =>
      assert k > 0;
      var tail := n[k + 1..];
      assert n == n[..k] + "/" + tail;
      LastSlashOfJoin(n[..k], tail);
      if d != "" {
        assert Join(d, n) == (d + "/" + n[..k]) + "/" + tail;
        LastSlashOfJoin(d + "/" + n[..k], tail);
        assert (d + "/" + n)[..|d + "/" + n[..k]|] == d + "/" + n[..k];
      }
  }

  /** The directories `fs.ensureDir(d)` makes sure of: `d` and every
      directory above it, up to the root "". */
  function Ancestors(d: string): (s: set<string>)
    ensures d in s && "" in s
    ensures forall q :: q in s ==> q == d || q == "" || StartsWith(d, q + "/")
    decreases |d|
  {
    if d == "" then {""}
    else
      var up := Dirname(d);
      assert up == "" || StartsWith(d, up + "/") by {
        if LastSlash(d).Some? {
          assert d[..|up| + 1] == up + "/";
        }
      }
      forall q | StartsWith(up, q + "/") ensures StartsWith(d, q + "/") {
        assert d[..|q| + 1] == up[..|q| + 1];
      }
      {d} + Ancestors(up)
  }

  /** The set `Ancestors(d)` is closed under taking parents. */
  lemma {:induction false} AncestorsClosed(d: string, q: string)
    requires q in Ancestors(d) && q != ""
    ensures Dirname(q) in Ancestors(d)
    decreases |d|
  {
    if q != d {
      AncestorsClosed(Dirname(d), q);
    }
  }

  /** The base name of a joined path is the base name of its last part. */
  lemma BasenameOfJoin(d: string, n: string)
    requires n != "" && n[0] != '/'
    ensures Basename(Join(d, n)) == Basename(n)
  {
    match LastSlash(n)
    case None =>
      JoinPlainName(d, n);
    case Some(k) =>
      var tail := n[k + 1..];
      assert n == n[..k] + "/" + tail;
      LastSlashOfJoin(n[..k], tail);
      if d != "" {
        assert Join(d, n) == (d + "/" + n[..k]) + "/" + tail;
        LastSlashOfJoin(d + "/" + n[..k], tail);
      }
  }

  /** Joining is associative, empty parts included. */
  lemma JoinAssoc(a: string, b: string, c: string)
    ensures Join(Join(a, b), c) == Join(a, Join(b, c))
  {
    if a != "" && b != "" && c != "" {
      assert (a + "/" + b) + "/" + c == a + "/" + (b + "/" + c);
    }
  }

  /** `path.relative(base, p)` for a path `p` at or below `base`. Paths
      elsewhere, for which Node would climb with "..", are returned as they
      are. */
  function Relative(base: string, p: string): string
  {
    if base == "" then p
    else if p == base then ""
    else if StartsWith(p, base + "/") then p[|base| + 1..]
    else p
  }

  /** `Relative` undoes `Join`. */
  lemma RelativeOfJoin(base: string, q: string)
    requires q == "" || q[0] != '/'
    ensures Relative(base, Join(base, q)) == q
  {
    if base != "" && q != "" {
      var p := base + "/" + q;
      assert p[..|base + "/"|] == base + "/";
      assert |p| > |base|;
      assert p[|base| + 1..] == q;
    }
  }
}

/** The two POSIX path operations the generator uses to name its outputs:
    `os.path.basename` and two-component `os.path.join`. */
module Paths {

  predicate IsAbsolute(p: string) {
    |p| > 0 && p[0] == '/'
  }

  /** `os.path.basename`: what follows the last '/' of `p` (all of `p` when it
      has none, nothing when it ends in '/'). */
  function Basename(p: string): (r: string)
    ensures |r| <= |p|
    decreases |p|
  {
    if p == [] || p[|p| - 1] == '/' then []
    else Basename(p[..|p| - 1]) + [p[|p| - 1]]
  }

  /** The base name is the longest suffix of `p` free of '/': it holds no
      '/', and it is either all of `p` or preceded by a '/'. */
  lemma {:induction false} BasenameIsLastComponent(p: string)
    ensures var r := Basename(p);
      '/' !in r && |r| <= |p| && r == p[|p| - |r|..] &&
      (|r| == |p| || p[|p| - |r| - 1] == '/')
    decreases |p|
  {
    if p != [] && p[|p| - 1] != '/' {
      var init := p[..|p| - 1];
      BasenameIsLastComponent(init);
      var r0 := Basename(init);
      assert Basename(p) == r0 + [p[|p| - 1]];
      assert p == init + [p[|p| - 1]];
    }
  }

  /** A base name never holds a '/'. */
  lemma BasenameHasNoSlash(p: string)
    ensures '/' !in Basename(p)
  {
    BasenameIsLastComponent(p);
  }

  /** `os.path.join(a, b)`: an absolute `b` replaces `a`; otherwise `b` is
      appended to `a` as a new last component, with a '/' between them unless
      `a` is empty or already ends in one. */
  function Join(a: string, b: string): (r: string)
    ensures IsAbsolute(b) ==> r == b
    ensures !IsAbsolute(b) ==>
      |a| + |b| <= |r| <= |a| + |b| + 1 && r[..|a|] == a && r[|r| - |b|..] == b &&
      (|r| == |b| || r[|r| - |b| - 1] == '/')
    ensures !IsAbsolute(b) ==> (|r| == |a| + |b| <==> a == [] || a[|a| - 1] == '/')
  {
    if IsAbsolute(b) then b
    else if a == [] || a[|a| - 1] == '/' then a + b
    else a + "/" + b
  }

  /** The last component of a joined path is the component that was joined. */
  lemma BasenameOfJoin(a: string, b: string)
    requires '/' !in b
    ensures Basename(Join(a, b)) == b
  {
    var p := Join(a, b);
    var r := Basename(p);
    BasenameIsLastComponent(p);
    if |r| < |b| {
      assert false;
    } else if |r| > |b| {
      assert false;
    }
  }

  /** Extending a relative, non-empty component extends the joined path by
      the same characters. */
  lemma JoinAppend(a: string, u: string, s: string)
    requires !IsAbsolute(u) && u != []
    ensures Join(a, u + s) == Join(a, u) + s
  {
    assert (u + s)[0] == u[0];
  }

  /** Joining a relative component to a directory that is non-empty and does
      not end in '/' puts exactly one '/' between them. */
  lemma JoinRelative(a: string, b: string)
    requires !IsAbsolute(b) && a != [] && a[|a| - 1] != '/'
    ensures Join(a, b) == a + "/" + b
  {
  }
}

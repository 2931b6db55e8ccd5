/** POSIX path manipulation as used by the core: `os.path.join` with two
    components and `os.path.basename`. Paths are compared lexically. */
module Paths {

  type Path = string

  /** `os.path.join(dir, name)`: an absolute `name` replaces `dir`; otherwise
      the result starts with `dir`, ends with `name`, and holds a separator
      between them exactly when `dir` is non-empty and does not already end
      in one. */
  function Join(dir: Path, name: Path): (r: Path)
    ensures |name| > 0 && name[0] == '/' ==> r == name
    ensures !(|name| > 0 && name[0] == '/') ==>
      && |dir| + |name| <= |r| <= |dir| + |name| + 1
      && r[..|dir|] == dir
      && r[|r| - |name|..] == name
      && (|r| > |dir| + |name| <==> dir != [] && dir[|dir| - 1] != '/')
      && (|r| > |dir| + |name| ==> r[|dir|] == '/')
  {
    if |name| > 0 && name[0] == '/' then name
    else if dir == [] || dir[|dir| - 1] == '/' then dir + name
    else dir + "/" + name
  }

  /** A non-empty relative directory without a trailing separator, such as
      the configured storage roots. */
  predicate IsRelativeRoot(dir: Path)
  {
    |dir| > 0 && dir[0] != '/' && dir[|dir| - 1] != '/'
  }

  /** Under a relative root, joining is injective in the second component. */
  lemma JoinInjective(dir: Path, a: Path, b: Path)
    requires IsRelativeRoot(dir)
    requires Join(dir, a) == Join(dir, b)
    ensures a == b
  {
    var ja, jb := Join(dir, a), Join(dir, b);
    if !(|a| > 0 && a[0] == '/') && !(|b| > 0 && b[0] == '/') {
      assert a == ja[|dir| + 1..];
      assert b == jb[|dir| + 1..];
    }
  }

  /** `os.path.basename(p)`: everything after the last separator. */
  function Basename(p: Path): Path
  {
    if p == [] || p[|p| - 1] == '/' then []
    else Basename(p[..|p| - 1]) + [p[|p| - 1]]
  }

  /** The basename is the longest suffix of `p` without a separator: it
      holds none, and it is either all of `p` or preceded by one. */
  lemma {:induction false} BasenameIsLastComponent(p: Path)
    ensures '/' !in Basename(p)
    ensures |Basename(p)| <= |p| && Basename(p) == p[|p| - |Basename(p)|..]
    ensures |Basename(p)| < |p| ==> p[|p| - |Basename(p)| - 1] == '/'
  {
    if p != [] && p[|p| - 1] != '/' {
      var init := p[..|p| - 1];
      BasenameIsLastComponent(init);
      var b := Basename(init);
      assert p[|p| - |b| - 1..] == init[|init| - |b|..] + [p[|p| - 1]];
    }
  }

  /** Appending a separator-free name to an empty or separator-terminated
      prefix makes that name the basename. */
  lemma {:induction false} BasenameAfterSeparator(prefix: Path, name: Path)
    requires prefix == [] || prefix[|prefix| - 1] == '/'
    requires '/' !in name
    ensures Basename(prefix + name) == name
  {
    if name == [] {
      assert prefix + name == prefix;
    } else {
      var init := name[..|name| - 1];
      assert (prefix + name)[..|prefix + name| - 1] == prefix + init;
      BasenameAfterSeparator(prefix, init);
      assert init + [name[|name| - 1]] == name;
    }
  }

  /** The basename of `os.path.join(dir, name)` is `name` whenever `name`
      holds no separator. */
  lemma BasenameOfJoin(dir: Path, name: Path)
    requires '/' !in name
    ensures Basename(Join(dir, name)) == name
  {
    if dir == [] || dir[|dir| - 1] == '/' {
      BasenameAfterSeparator(dir, name);
    } else {
      assert dir + "/" + name == (dir + "/") + name;
      BasenameAfterSeparator(dir + "/", name);
    }
  }

  /** `p` lies strictly inside directory `dir`. */
  predicate Within(p: Path, dir: Path)
  {
    |dir| < |p| && p[..|dir|] == dir &&
    (p[|dir|] == '/' || (|dir| > 0 && dir[|dir| - 1] == '/'))
  }

  /** Lying inside is transitive. */
  lemma WithinTrans(p: Path, a: Path, b: Path)
    requires Within(p, a) && Within(a, b)
    ensures Within(p, b)
  {
    assert p[..|b|] == a[..|b|];
    assert p[|b|] == a[|b|];
  }

  /** Two different directories that both contain `p` are nested, one
      inside the other. */
  lemma WithinBoth(p: Path, a: Path, b: Path)
    requires Within(p, a) && Within(p, b) && a != b
    ensures Within(a, b) || Within(b, a)
  {
    if |a| < |b| {
      assert b[..|a|] == p[..|a|];
      assert b[|a|] == p[|a|];
    } else if |b| < |a| {
      assert a[..|b|] == p[..|b|];
      assert a[|b|] == p[|b|];
    }
  }
}

/** File-system paths as the POSIX `os.path.join` builds them. */
module Paths {
  import opened Text

  type Path = string

  /** `os.path.isabs`: the path starts with a slash. */
  predicate IsAbsolute(p: Path) {
    |p| > 0 && p[0] == '/'
  }

  /** What `os.path.join` puts between `a` and a relative second part. */
  function Sep(a: Path): string {
    if a == "" || EndsWith(a, "/") then "" else "/"
  }

  /** `os.path.join(a, b)`: an absolute `b` replaces `a`; otherwise a slash is
      inserted unless `a` is empty or already ends with one. */
  function Join(a: Path, b: Path): Path {
    if IsAbsolute(b) then b else a + Sep(a) + b
  }

  /** `os.path.join(a, b)` is never shorter than `b` and always ends with it. */
  lemma JoinEndsWith(a: Path, b: Path)
    ensures EndsWith(Join(a, b), b)
  {
    var r := Join(a, b);
    if !IsAbsolute(b) {
      assert r[|r| - |b|..] == b;
    }
  }

  /** Under a fixed directory, different relative names stay different paths. */
  lemma JoinInjective(a: Path, b: Path, c: Path)
    requires !IsAbsolute(b) && !IsAbsolute(c)
    requires Join(a, b) == Join(a, c)
    ensures b == c
  {
    var k := |a + Sep(a)|;
    assert Join(a, b)[k..] == b;
    assert Join(a, c)[k..] == c;
  }

  /** Joining component by component is joining the already-joined tail:
      `join(join(a, b), c) == join(a, join(b, c))` for a non-empty relative `b`. */
  lemma JoinAssoc(a: Path, b: Path, c: Path)
    requires b != "" && !IsAbsolute(b) && !IsAbsolute(c)
    ensures Join(Join(a, b), c) == Join(a, Join(b, c))
  {
    var ab := a + Sep(a) + b;
    assert Join(a, b) == ab;
    assert EndsWith(ab, "/") <==> EndsWith(b, "/") by {
      assert ab[|ab| - 1..] == b[|b| - 1..];
    }
    assert ab != "";
    assert Sep(ab) == Sep(b);
    var bc := b + Sep(b) + c;
    assert Join(b, c) == bc;
    assert !IsAbsolute(bc) by {
      assert bc[..1] == b[..1];
    }
    assert ab + Sep(ab) + c == a + Sep(a) + bc;
  }

  /** A relative path stays relative below any non-empty relative directory. */
  lemma JoinRelative(a: Path, b: Path)
    requires a != "" && !IsAbsolute(a) && !IsAbsolute(b)
    ensures !IsAbsolute(Join(a, b)) && StartsWith(Join(a, b), a)
  {
    var r := Join(a, b);
    assert r[..|a|] == a;
    assert r[..1] == a[..1];
  }

  /** `os.path.basename`: what follows the last slash, the whole path without
      one, and "" after a trailing slash. It is the longest slash-free suffix. */
  function Basename(p: Path): (r: Path)
    ensures EndsWith(p, r) && '/' !in r
    ensures |r| < |p| ==> p[|p| - |r| - 1] == '/'
    decreases |p|
  {
    if p == [] || p[|p| - 1] == '/' then "" else Basename(p[..|p| - 1]) + [p[|p| - 1]]
  }

  /** The file a path names when the process runs in `cwd`: `./x` and `x` are the
      same file, and an absolute path ignores `cwd`. */
  function Resolve(cwd: Path, p: Path): Path {
    if StartsWith(p, "./") then Join(cwd, p[2..]) else Join(cwd, p)
  }

  /** `os.path.join(base, *parts)`: the parts joined on one at a time. */
  function JoinAll(base: Path, parts: seq<Path>): Path
    decreases |parts|
  {
    if parts == [] then base else JoinAll(Join(base, parts[0]), parts[1..])
  }

  lemma {:induction false} JoinAllSnoc(base: Path, parts: seq<Path>, last: Path)
    ensures JoinAll(base, parts + [last]) == Join(JoinAll(base, parts), last)
    decreases |parts|
  {
    if parts == [] {
      assert [last][1..] == [];
    } else {
      assert (parts + [last])[1..] == parts[1..] + [last];
      JoinAllSnoc(Join(base, parts[0]), parts[1..], last);
    }
  }

  /** `p` lies below the directory `root`. */
  predicate Under(p: Path, root: Path) {
    StartsWith(p, root + "/")
  }

  /** A relative name joined to a path below `root` stays below `root`. */
  lemma UnderJoin(root: Path, x: Path, b: Path)
    requires Under(x, root) && !IsAbsolute(b)
    ensures Under(Join(x, b), root)
  {
    var r := Join(x, b);
    assert r[..|x|] == x;
    assert r[..|root + "/"|] == x[..|root + "/"|];
  }

  /** A relative name joined to a directory with no trailing slash is below it. */
  lemma JoinIsUnder(root: Path, b: Path)
    requires root != "" && !EndsWith(root, "/") && !IsAbsolute(b)
    ensures Under(Join(root, b), root)
  {
    var r := Join(root, b);
    assert r == root + "/" + b;
    assert r[..|root + "/"|] == root + "/";
  }

  /** No part is absolute, so none restarts the path. */
  predicate AllRelative(parts: seq<Path>)
    decreases |parts|
  {
    parts == [] || (!IsAbsolute(parts[0]) && AllRelative(parts[1..]))
  }

  /** Joining relative parts onto a path below `root` stays below `root`. */
  lemma {:induction false} JoinAllUnder(root: Path, x: Path, parts: seq<Path>)
    requires Under(x, root) && AllRelative(parts)
    ensures Under(JoinAll(x, parts), root)
    decreases |parts|
  {
    if parts != [] {
      UnderJoin(root, x, parts[0]);
      JoinAllUnder(root, Join(x, parts[0]), parts[1..]);
    }
  }

  /** Relative parts joined onto a directory with no trailing slash stay below it. */
  lemma JoinAllIsUnder(root: Path, parts: seq<Path>)
    requires root != "" && !EndsWith(root, "/") && parts != [] && AllRelative(parts)
    ensures Under(JoinAll(root, parts), root)
  {
    JoinIsUnder(root, parts[0]);
    JoinAllUnder(root, Join(root, parts[0]), parts[1..]);
  }

  /** An absolute part restarts the path: what came before it is dropped. */
  lemma {:induction false} JoinAllRestarts(base: Path, parts: seq<Path>, i: nat)
    requires i < |parts| && IsAbsolute(parts[i])
    ensures JoinAll(base, parts) == JoinAll(parts[i], parts[i + 1..])
    decreases i
  {
    if i > 0 {
      JoinAllRestarts(Join(base, parts[0]), parts[1..], i - 1);
      assert parts[1..][i - 1] == parts[i] && parts[1..][i - 1 + 1..] == parts[i + 1..];
    }
  }

  /** Two paths whose last names differ (neither name ends the other) differ. */
  lemma NamesDiffer(x: Path, y: Path, a: string, b: string)
    requires EndsWith(x, a) && EndsWith(y, b)
    requires !EndsWith(a, b) && !EndsWith(b, a)
    ensures x != y
  {
  }
}

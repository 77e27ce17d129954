/**
 * An abstract filesystem: the set of paths that exist. A path is the list
 * of its components from the root, so `Child(p, "dbt")` is `p / "dbt"` and
 * the parent of a path drops its last component. File contents are not
 * kept here; the operations that produce text return it as a value.
 */
module FileSystem {
  import opened Text

  type Path = seq<string>

  function Child(p: Path, name: string): (q: Path)
    ensures |q| == |p| + 1 && q[..|p|] == p && q[|p|] == name
  {
    p + [name]
  }

  function Parent(p: Path): (q: Path)
    requires p != []
    ensures |q| == |p| - 1 && q + [p[|p| - 1]] == p
  {
    p[..|p| - 1]
  }

  /** `q` is `root` itself or lies somewhere below it. */
  predicate Under(q: Path, root: Path) {
    |root| <= |q| && q[..|root|] == root
  }

  /** Every path in `ps` that `rmtree(root)` leaves. */
  function WithoutTree(ps: set<Path>, root: Path): (r: set<Path>)
    ensures r <= ps
    ensures forall q :: q in r <==> q in ps && !Under(q, root)
  {
    set q | q in ps && !Under(q, root)
  }

  /** The state after `shutil.move(src, dst)` renames `src`: its subtree
      is relocated below `dst` and nothing else changes. */
  function Moved(ps: set<Path>, src: Path, dst: Path): set<Path> {
    WithoutTree(ps, src) + (set q | q in ps && Under(q, src) :: dst + q[|src|..])
  }

  /** After a move, a path either was outside the moved tree or lies below
      the destination. */
  lemma MovedParts(ps: set<Path>, src: Path, dst: Path, q: Path)
    requires q in Moved(ps, src, dst)
    ensures q in WithoutTree(ps, src) || Under(q, dst)
  {
    if q !in WithoutTree(ps, src) {
      var p :| p in ps && Under(p, src) && q == dst + p[|src|..];
      assert q[..|dst|] == dst;
    }
  }

  /** The paths `root / e[..k]` for every prefix of the relative path `e`:
      extracting an archive member creates it and its missing ancestors. */
  function Prefixes(root: Path, e: Path): (r: set<Path>)
    ensures root in r && root + e in r
    ensures forall q :: q in r ==> Under(q, root)
  {
    assert root + e[..|e|] == root + e;
    assert root + e[..0] == root;
    set k | 0 <= k <= |e| :: root + e[..k]
  }

  /** Everything `extractall(root)` creates for the given members. */
  function Extracted(root: Path, members: seq<Path>): (r: set<Path>)
    ensures forall q :: q in r ==> Under(q, root)
    ensures members != [] ==> root in r
    ensures forall k :: 0 <= k < |members| ==> root + members[k] in r
  {
    if members == [] then {}
    else Prefixes(root, members[0]) + Extracted(root, members[1..])
  }

  /** Extraction creates every ancestor of every member below `root`. */
  lemma {:induction false} ExtractedPrefix(root: Path, members: seq<Path>, k: nat, j: nat)
    requires k < |members| && j <= |members[k]|
    ensures root + members[k][..j] in Extracted(root, members)
  {
    if k == 0 {
      assert root + members[0][..j] in Prefixes(root, members[0]);
    } else {
      ExtractedPrefix(root, members[1..], k - 1, j);
    }
  }

  /** A POSIX rendering of an absolute path (`str(p)`, `p.as_posix()`). */
  function Render(p: Path): (s: string)
    ensures s != [] && s[0] == '/'
  {
    "/" + Join(p, '/')
  }

  /** The components of a path string, as `pathlib` keeps them: empty and
      `.` components are dropped. */
  function Components(parts: seq<string>): (r: Path)
    ensures forall k :: 0 <= k < |r| ==> r[k] != "" && r[k] != "."
  {
    if parts == [] then []
    else if parts[0] == "" || parts[0] == "." then Components(parts[1..])
    else [parts[0]] + Components(parts[1..])
  }

  /** `Path(s).absolute()` when the working directory is `cwd`. */
  function Absolute(cwd: Path, s: string): (p: Path)
    ensures (s == [] || s[0] != '/') ==> Under(p, cwd)
  {
    var comps := Components(Split(s, '/'));
    if s != [] && s[0] == '/' then comps else cwd + comps
  }

  /** A file the flows write, with the text written to it. */
  datatype WrittenFile = WrittenFile(path: Path, content: string)

  /** The filesystem the flows work in. */
  class Disk {
    var paths: set<Path>

    constructor (initial: set<Path>)
      ensures paths == initial
    {
      paths := initial;
    }

    /** `p.exists()` */
    method Exists(p: Path) returns (b: bool)
      ensures b <==> p in paths
    {
      b := p in paths;
    }

    /** `p.mkdir(exist_ok=True)`, or any write that creates `p`. */
    method Create(p: Path)
      modifies this
      ensures paths == old(paths) + {p}
    {
      paths := paths + {p};
    }

    /** `shutil.rmtree(root)`: fails, changing nothing, when `root` is missing. */
    method RemoveTree(root: Path) returns (ok: bool)
      modifies this
      ensures ok <==> root in old(paths)
      ensures paths == if ok then WithoutTree(old(paths), root) else old(paths)
    {
      ok := root in paths;
      if ok {
        paths := WithoutTree(paths, root);
      }
    }

    /** `ZipFile.extractall(root)` */
    method ExtractAll(root: Path, members: seq<Path>)
      modifies this
      ensures paths == old(paths) + Extracted(root, members)
    {
      paths := paths + Extracted(root, members);
    }

    /** `shutil.move(src, dst)` onto a destination that does not exist. */
    method Move(src: Path, dst: Path) returns (ok: bool)
      modifies this
      ensures ok <==> src in old(paths)
      ensures paths == if ok then Moved(old(paths), src, dst) else old(paths)
    {
      ok := src in paths;
      if ok {
        paths := Moved(paths, src, dst);
      }
    }
  }
}

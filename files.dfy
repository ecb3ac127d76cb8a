/** The usual optional value. */
module Wrappers {
  datatype Option<+T> = None | Some(value: T)
}

/** The filesystem as the tool sees it: a map from a path (its components) to
    the content of the file there. A directory is present exactly when some
    file lies below it; empty directories are not represented. */
module Files {
  import opened Wrappers

  type Path = seq<string>
  type Tree = map<Path, string>

  /** `p.exists()` */
  predicate Exists(fs: Tree, p: Path) {
    exists k :: k in fs && p <= k
  }

  /** `p.is_file()` */
  predicate IsFile(fs: Tree, p: Path) {
    p in fs
  }

  /** `p.is_dir()` */
  predicate IsDir(fs: Tree, p: Path) {
    Exists(fs, p) && !IsFile(fs, p)
  }

  /** `p.name`: the last component, or nothing for the empty path. */
  function Name(p: Path): (r: Path)
    ensures |r| <= 1 && |r| <= |p| && p == p[..|p| - |r|] + r
  {
    if p == [] then [] else [p[|p| - 1]]
  }

  /** Contents of a file, or `None` when there is no file at `p`. */
  function Read(fs: Tree, p: Path): Option<string> {
    if p in fs then Some(fs[p]) else None
  }

  lemma RebaseKeyInjective(from: Path, to: Path, k1: Path, k2: Path)
    requires from <= k1 && from <= k2
    requires to + k1[|from|..] == to + k2[|from|..]
    ensures k1 == k2
  {
    var s1, s2 := k1[|from|..], k2[|from|..];
    assert s1 == (to + s1)[|to|..];
    assert s2 == (to + s2)[|to|..];
    assert k1 == from + s1;
    assert k2 == from + s2;
  }

  /** The files of `m` below `from`, moved below `to` with their relative paths kept. */
  function Rebase(m: Tree, from: Path, to: Path): (r: Tree)
    ensures forall k :: k in m && from <= k ==> to + k[|from|..] in r && r[to + k[|from|..]] == m[k]
    ensures forall t :: t in r ==> to <= t
  {
    assert forall k1, k2 ::
      (k1 in m && from <= k1 && k2 in m && from <= k2 && to + k1[|from|..] == to + k2[|from|..]) ==> k1 == k2
    by {
      forall k1, k2 | k1 in m && from <= k1 && k2 in m && from <= k2
        && to + k1[|from|..] == to + k2[|from|..]
        ensures k1 == k2
      {
        RebaseKeyInjective(from, to, k1, k2);
      }
    }
    map k | k in m && from <= k :: to + k[|from|..] := m[k]
  }

  /** A path below `to` is in the rebased tree exactly when the matching path
      below `from` is in the original, with the same contents. */
  lemma RebaseAt(m: Tree, from: Path, to: Path, t: Path)
    requires to <= t
    ensures t in Rebase(m, from, to) <==> from + t[|to|..] in m
    ensures t in Rebase(m, from, to) ==> Rebase(m, from, to)[t] == m[from + t[|to|..]]
  {
    var k := from + t[|to|..];
    assert k[|from|..] == t[|to|..];
    assert to + t[|to|..] == t;
    if t in Rebase(m, from, to) {
      var k' :| k' in m && from <= k' && to + k'[|from|..] == t;
      assert k'[|from|..] == t[|to|..];
      assert k' == from + k'[|from|..];
    }
  }

  /** `shutil.copy2(src, dst)` for a file `src`. */
  function CopyFile(fs: Tree, src: Path, dst: Path): Tree
    requires src in fs
  {
    fs[dst := fs[src]]
  }

  /** `shutil.copytree(src, dst, dirs_exist_ok=True)`: every file below `src`
      is copied to the same relative place below `dst`, replacing what is there. */
  function CopyTree(fs: Tree, src: Path, dst: Path): Tree {
    fs + Rebase(fs, src, dst)
  }

  /** `shutil.rmtree(p)`: nothing at or below `p` is left. */
  function RemoveTree(fs: Tree, p: Path): (r: Tree)
    ensures forall k :: k in r <==> k in fs && !(p <= k)
    ensures forall k :: k in r ==> r[k] == fs[k]
  {
    map k | k in fs && !(p <= k) :: fs[k]
  }
}

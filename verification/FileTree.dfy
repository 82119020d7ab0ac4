/** File system calls on one tree, as the executor and the receiver use them. */
module FileTree {
  import opened Options
  import opened Model

  datatype Done = Done(fs: FileSystem, ok: bool)

  function Parent(q: Path): Path {
    if q == [] then [] else q[..|q| - 1]
  }

  /** q and the directories above it. */
  function Dirs(q: Path): set<Path> {
    set i | 0 < i <= |q| :: q[..i]
  }

  lemma DirsArePrefixes(q: Path)
    ensures forall a: Path :: a in Dirs(q) <==> a != [] && a <= q
  {
    forall a: Path | a != [] && a <= q ensures a in Dirs(q) {
      assert a == q[..|a|];
    }
  }

  /** No file or link stands where q needs a directory: at q itself or above. */
  predicate Passable(f: FileSystem, q: Path) {
    forall i :: 0 < i <= |q| ==> At(f, q[..i]) == None || At(f, q[..i]) == Some(DirNode)
  }

  function MkdirAll(f: FileSystem, q: Path): Done {
    if Passable(f, q) then Done(f + map a | a in Dirs(q) && a !in f :: DirNode, true) else Done(f, false)
  }

  /** Remove one entry; that there is none is no error. */
  function Remove(f: FileSystem, q: Path): Done {
    if !Passable(f, Parent(q)) then Done(f, false)
    else if At(f, q) == Some(DirNode) && exists k :: k in f && q < k then Done(f, false)
    else Done(f - {q}, true)
  }

  function RemoveAll(f: FileSystem, q: Path): Done {
    if !Passable(f, Parent(q)) then Done(f, false)
    else Done(map k | k in f && !(q <= k) :: f[k], true)
  }

  /** The entries at and below `from` get the prefix `to`; what was at `to` is replaced. */
  function Move<T>(f: map<Path, T>, from: Path, to: Path): map<Path, T> {
    (map k | k in f && !(from <= k) :: f[k])
    + map k | k in (set j | j in f && from <= j :: to + j[|from|..]) && from + k[|to|..] in f :: f[from + k[|to|..]]
  }

  /** The rename call: the parent of the target has to exist, a directory is never replaced and replaces nothing. */
  function RenameTo(f: FileSystem, from: Path, to: Path): Done {
    if from !in f || to == [] then Done(f, false)
    else if from == to then Done(f, true)
    else if from < to || At(f, to) == Some(DirNode) || (f[from] == DirNode && to in f) then Done(f, false)
    else if Parent(to) != [] && At(f, Parent(to)) != Some(DirNode) then Done(f, false)
    else Done(Move(f, from, to), true)
  }

  /** Put a file or link at q, replacing a file or link. */
  function Install(f: FileSystem, q: Path, n: Node): Done {
    if At(f, q) == Some(DirNode) then Done(f, false) else Done(f[q := n], true)
  }

  // ---- what the calls do where nothing is in the way, cell by cell

  lemma PassableAt(f: FileSystem, q: Path, a: Path)
    requires Passable(f, q) && a != [] && a <= q
    ensures At(f, a) == None || At(f, a) == Some(DirNode)
  {
    assert a == q[..|a|];
  }

  lemma MkdirAllAt(f: FileSystem, q: Path, x: Path)
    requires Passable(f, q)
    ensures MkdirAll(f, q).ok
    ensures At(MkdirAll(f, q).fs, x) == if x != [] && x <= q then Some(DirNode) else At(f, x)
  {
    DirsArePrefixes(q);
    if x != [] && x <= q {
      PassableAt(f, q, x);
    }
  }

  lemma RemoveAt(f: FileSystem, q: Path, x: Path)
    requires Remove(f, q).ok
    ensures At(Remove(f, q).fs, x) == if x == q then None else At(f, x)
  {
  }

  lemma RemoveAllAt(f: FileSystem, q: Path, x: Path)
    requires RemoveAll(f, q).ok
    ensures At(RemoveAll(f, q).fs, x) == if q <= x then None else At(f, x)
  {
  }

  lemma AncestorIsDir(f: FileSystem, k: Path, a: Path)
    requires PrefixClosed(f) && k in f && a != [] && a <= k && a != k
    ensures At(f, a) == Some(DirNode)
  {
    assert a < k;
  }

  lemma NothingBelow(f: FileSystem, q: Path, k: Path)
    requires PrefixClosed(f) && q in f && f[q] != DirNode && k in f && q <= k
    ensures k == q
  {
    if k != q {
      AncestorIsDir(f, k, q);
    }
  }

  lemma MoveAt(f: FileSystem, from: Path, to: Path, x: Path)
    requires PrefixClosed(f) && from in f && f[from] != DirNode && from != to
    ensures At(Move(f, from, to), x) == if x == to then Some(f[from]) else if x == from then None else At(f, x)
  {
    forall k | k in f && from <= k ensures k == from {
      NothingBelow(f, from, k);
    }
    var tail := set j | j in f && from <= j :: to + j[|from|..];
    assert from <= from && to + from[|from|..] == to;
    assert to in tail && from + to[|to|..] == from;
    assert forall k :: k in tail ==> k == to;
  }

  lemma RenameToAt(f: FileSystem, from: Path, to: Path, x: Path)
    requires PrefixClosed(f) && from in f && f[from] != DirNode && from != to && to !in f && to != []
    requires Parent(to) == [] || At(f, Parent(to)) == Some(DirNode)
    ensures RenameTo(f, from, to).ok
    ensures At(RenameTo(f, from, to).fs, x) == if x == to then Some(f[from]) else if x == from then None else At(f, x)
  {
    NotBelowFile(f, from, to);
    MoveAt(f, from, to, x);
  }

  lemma NotBelowFile(f: FileSystem, from: Path, to: Path)
    requires PrefixClosed(f) && from in f && f[from] != DirNode
    requires Parent(to) == [] || At(f, Parent(to)) == Some(DirNode)
    ensures !(from < to)
  {
    if from < to {
      assert from <= Parent(to) && from != [];
      DirAbove(f, Parent(to), from);
    }
  }

  // ---- every call keeps a tree a tree

  lemma MkdirAllKeeps(f: FileSystem, q: Path)
    requires PrefixClosed(f)
    ensures PrefixClosed(MkdirAll(f, q).fs)
  {
    if Passable(f, q) {
      var g := MkdirAll(f, q).fs;
      DirsArePrefixes(q);
      forall k, a: Path | k in g && a != [] && a < k ensures At(g, a) == Some(DirNode) {
        MkdirAllAt(f, q, a);
        MkdirAllAt(f, q, k);
      }
    }
  }

  lemma RemoveKeeps(f: FileSystem, q: Path)
    requires PrefixClosed(f)
    ensures PrefixClosed(Remove(f, q).fs)
  {
    if Remove(f, q).ok {
      var g := Remove(f, q).fs;
      forall k, a: Path | k in g && a != [] && a < k ensures At(g, a) == Some(DirNode) {
        assert At(f, a) == Some(DirNode);
      }
    }
  }

  lemma RemoveAllKeeps(f: FileSystem, q: Path)
    requires PrefixClosed(f)
    ensures PrefixClosed(RemoveAll(f, q).fs)
  {
    if RemoveAll(f, q).ok {
      var g := RemoveAll(f, q).fs;
      forall k, a: Path | k in g && a != [] && a < k ensures At(g, a) == Some(DirNode) {
        assert At(f, a) == Some(DirNode);
      }
    }
  }

  lemma InstallKeeps(f: FileSystem, q: Path, n: Node)
    requires PrefixClosed(f) && q != [] && n != DirNode
    requires Parent(q) == [] || At(f, Parent(q)) == Some(DirNode)
    ensures PrefixClosed(Install(f, q, n).fs)
  {
    if Install(f, q, n).ok {
      var g := Install(f, q, n).fs;
      forall k, a: Path | k in g && a != [] && a < k ensures At(g, a) == Some(DirNode) {
        if k == q {
          ParentDirAbove(f, q, a);
        } else {
          assert At(f, a) == Some(DirNode);
        }
      }
    }
  }

  /** With its parent, all directories above a path exist. */
  lemma ParentDirAbove(f: FileSystem, q: Path, a: Path)
    requires PrefixClosed(f) && a != [] && a < q
    requires Parent(q) == [] || At(f, Parent(q)) == Some(DirNode)
    ensures At(f, a) == Some(DirNode)
  {
    assert a <= Parent(q);
    if a != Parent(q) {
      assert a < Parent(q);
    }
  }

  lemma RenameToKeeps(f: FileSystem, from: Path, to: Path)
    requires PrefixClosed(f)
    ensures PrefixClosed(RenameTo(f, from, to).fs)
  {
    if RenameTo(f, from, to).ok && from != to {
      var g := Move(f, from, to);
      forall k, a: Path | k in g && a != [] && a < k ensures At(g, a) == Some(DirNode) {
        MovedAncestor(f, from, to, k, a);
      }
    }
  }

  /** What a rename has put at k: the entry that was at `from` and on. */
  predicate CameFrom<T>(f: map<Path, T>, from: Path, to: Path, k: Path, j: Path) {
    j in f && from <= j && k == to + j[|from|..]
  }

  lemma Arrived<T>(f: map<Path, T>, from: Path, to: Path, k: Path, j: Path)
    requires CameFrom(f, from, to, k, j)
    ensures At(Move(f, from, to), k) == Some(f[j])
  {
    assert j == from + k[|to|..];
    assert k in (set j | j in f && from <= j :: to + j[|from|..]);
  }

  lemma NotArrived<T>(f: map<Path, T>, from: Path, to: Path, k: Path)
    requires forall j :: !CameFrom(f, from, to, k, j)
    ensures At(Move(f, from, to), k) == if from <= k then None else At(f, k)
  {
    forall j | j in f && from <= j ensures k != to + j[|from|..] {
      assert !CameFrom(f, from, to, k, j);
    }
  }

  lemma MovedAncestor(f: FileSystem, from: Path, to: Path, k: Path, a: Path)
    requires PrefixClosed(f) && RenameTo(f, from, to).ok && from != to
    requires k in Move(f, from, to) && a != [] && a < k
    ensures At(Move(f, from, to), a) == Some(DirNode)
  {
    hide Move;
    if j :| CameFrom(f, from, to, k, j) {
      if to <= a {
        var i := from + a[|to|..];
        assert i < j;
        assert At(f, i) == Some(DirNode);
        Arrived(f, from, to, a, i);
      } else {
        assert a < to;
        ParentDirAbove(f, to, a);
        NotMoved(f, from, to, a);
      }
    } else {
      NotArrived(f, from, to, k);
      assert At(f, a) == Some(DirNode);
      NotMoved(f, from, to, a);
    }
  }

  /** What is neither below the source nor below the target stays, and a directory there is not replaced. */
  lemma NotMoved(f: FileSystem, from: Path, to: Path, a: Path)
    requires PrefixClosed(f) && RenameTo(f, from, to).ok && from != to
    requires At(f, a) == Some(DirNode) && !(from <= a)
    ensures At(Move(f, from, to), a) == Some(DirNode)
  {
    hide Move;
    if to <= a {
      DirAbove(f, a, to);
    }
    NotArrived(f, from, to, a);
  }

  lemma DirAbove(f: FileSystem, q: Path, a: Path)
    requires PrefixClosed(f) && At(f, q) == Some(DirNode) && a != [] && a <= q
    ensures At(f, a) == Some(DirNode)
  {
    assert a != q ==> a < q;
  }
}

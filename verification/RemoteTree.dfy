/** What the receiver's requests do to its tree (internal/remote/receiver.go). */
module RemoteTree {
  import opened Options
  import opened Model
  import opened FileTree
  import opened Reconcile
  import opened Executor

  /** A completed transfer: the parents are made at its begin, the file is renamed into place at its end. */
  function FileArrives(f: FileSystem, q: Path, size: int, mtimeNS: int): Done {
    var up := MkdirAll(f, Parent(q));
    if up.ok then Install(up.fs, q, FileNode(size, mtimeNS)) else up
  }

  /** A link request: first remove what is there, whatever comes of that, then make the parents, then the link. */
  function LinkArrives(f: FileSystem, q: Path, target: string): Done {
    var up := MkdirAll(Remove(f, q).fs, Parent(q));
    if !up.ok || q in up.fs then Done(up.fs, false) else Done(up.fs[q := LinkNode(target)], true)
  }

  /** One operation of the sender, served by the receiver; e is the sender's entry at the operation's path. */
  function Served(f: FileSystem, op: Op, e: Entry): Done {
    match op
    case Mkdir(_, q) => MkdirAll(f, q)
    case Copy(_, _, q, _) =>
      if e.kind == Symlink then LinkArrives(f, q, e.linkTarget) else FileArrives(f, q, e.size, e.mtimeNS)
    case Delete(_, q) => Remove(f, q)
    case Rmdir(_, q) => RemoveAll(f, q)
    case Rename(_, from, to) => RenameEntry(f, from, to)
    case ConflictRename(_, _, _) => Done(f, true)
  }

  // ---- an operation that fails leaves at most new directories

  /** Everything is as before, except for directories where there was nothing. */
  ghost predicate OnlyAddsDirs(f: FileSystem, g: FileSystem) {
    forall x: Path :: At(g, x) == At(f, x) || (At(f, x) == None && At(g, x) == Some(DirNode))
  }

  lemma MkdirOnlyAdds(f: FileSystem, q: Path)
    ensures OnlyAddsDirs(f, MkdirAll(f, q).fs)
  {
    hide Passable;
    if MkdirAll(f, q).ok {
      var g := MkdirAll(f, q).fs;
      forall x: Path ensures At(g, x) == At(f, x) || (At(f, x) == None && At(g, x) == Some(DirNode)) {
        MkdirAllAt(f, q, x);
        if x != [] && x <= q {
          PassableAt(f, q, x);
        }
      }
    }
  }

  lemma FailureAddsOnlyDirs(f: FileSystem, op: Op, e: Entry)
    requires PrefixClosed(f) && !Served(f, op, e).ok
    ensures OnlyAddsDirs(f, Served(f, op, e).fs)
  {
    hide Passable, PrefixClosed, OnlyAddsDirs;
    MkdirOnlyAdds(f, Parent(op.path));
    match op
    case Mkdir(_, q) => MkdirOnlyAdds(f, q);
    case Copy(_, _, q, _) => if e.kind == Symlink { LinkFailure(f, q, e.linkTarget); }
    case Delete(_, q) => SameOnlyAdds(f);
    case Rmdir(_, q) => SameOnlyAdds(f);
    case Rename(_, from, to) =>
    case ConflictRename(_, _, _) =>
  }

  lemma SameOnlyAdds(f: FileSystem)
    ensures OnlyAddsDirs(f, f)
  {
  }

  lemma LinkFailure(f: FileSystem, q: Path, target: string)
    requires PrefixClosed(f) && !LinkArrives(f, q, target).ok
    ensures OnlyAddsDirs(f, LinkArrives(f, q, target).fs)
  {
    hide OnlyAddsDirs;
    var cleared := Remove(f, q).fs;
    MkdirOnlyAdds(cleared, Parent(q));
    if cleared != f {
      RoadStays(f, q);
      MkdirAllAt(cleared, Parent(q), q);
    }
  }

  /** Where something could be removed, all directories above it exist. */
  lemma RoadStays(f: FileSystem, q: Path)
    requires PrefixClosed(f) && Remove(f, q).fs != f
    ensures Passable(Remove(f, q).fs, Parent(q)) && q !in Remove(f, q).fs && q != []
  {
    var g := Remove(f, q).fs;
    assert q !in f ==> f - {q} == f;
    forall i | 0 < i <= |Parent(q)| ensures At(g, Parent(q)[..i]) == Some(DirNode) {
      var a := Parent(q)[..i];
      assert a <= q && |a| < |q|;
      AncestorIsDir(f, q, a);
    }
  }

  // ---- the receiver's tree stays a tree

  lemma ServedKeepsTree(f: FileSystem, op: Op, e: Entry)
    requires PrefixClosed(f) && op.path != []
    ensures PrefixClosed(Served(f, op, e).fs)
  {
    hide PrefixClosed, Passable, Install, MkdirAll;
    match op
    case Mkdir(_, q) => MkdirAllKeeps(f, q);
    case Copy(_, _, q, _) =>
      if e.kind == Symlink {
        LinkKeepsTree(f, q, e.linkTarget);
      } else {
        MkdirAllKeeps(f, Parent(q));
        if MkdirAll(f, Parent(q)).ok {
          ParentMade(f, q);
          InstallKeeps(MkdirAll(f, Parent(q)).fs, q, FileNode(e.size, e.mtimeNS));
        }
      }
    case Delete(_, q) => RemoveKeeps(f, q);
    case Rmdir(_, q) => RemoveAllKeeps(f, q);
    case Rename(_, from, to) =>
      MkdirAllKeeps(f, Parent(to));
      RenameToKeeps(MkdirAll(f, Parent(to)).fs, from, to);
    case ConflictRename(_, _, _) =>
  }

  lemma LinkKeepsTree(f: FileSystem, q: Path, target: string)
    requires PrefixClosed(f) && q != []
    ensures PrefixClosed(LinkArrives(f, q, target).fs)
  {
    hide PrefixClosed, Passable, MkdirAll, Remove;
    var cleared := Remove(f, q).fs;
    RemoveKeeps(f, q);
    MkdirAllKeeps(cleared, Parent(q));
    var up := MkdirAll(cleared, Parent(q));
    if up.ok && q !in up.fs {
      ParentMade(cleared, q);
      InstallKeeps(up.fs, q, LinkNode(target));
    }
  }

  // ---- asking again after an answer was lost

  /** Serving an operation again changes nothing more and succeeds again, unless it was a rename. */
  lemma AgainIsHarmless(f: FileSystem, op: Op, e: Entry)
    requires PrefixClosed(f) && op.path != [] && !op.Rename? && Served(f, op, e).ok
    ensures Served(Served(f, op, e).fs, op, e) == Served(f, op, e)
  {
    hide Passable, PrefixClosed;
    match op
    case Mkdir(_, q) => MkdirAgain(f, q);
    case Copy(_, _, q, _) =>
      if e.kind == Symlink {
        LinkAgain(f, q, e.linkTarget);
      } else {
        FileAgain(f, q, FileNode(e.size, e.mtimeNS));
      }
    case Delete(_, q) => RemoveAgain(f, q);
    case Rmdir(_, q) => RemoveAllAgain(f, q);
    case ConflictRename(_, _, _) =>
  }

  lemma MkdirAgain(f: FileSystem, q: Path)
    requires MkdirAll(f, q).ok
    ensures MkdirAll(MkdirAll(f, q).fs, q) == MkdirAll(f, q)
  {
    var g := MkdirAll(f, q).fs;
    forall i | 0 < i <= |q| ensures At(g, q[..i]) == Some(DirNode) {
      MkdirAllAt(f, q, q[..i]);
    }
    DirsArePrefixes(q);
    forall a | a in Dirs(q) ensures a in g {
      MkdirAllAt(f, q, a);
    }
    assert g + (map a | a in Dirs(q) && a !in g :: DirNode) == g;
  }

  /** With the parents there and no directory at q, the parents need not be made. */
  lemma ParentsThere(f: FileSystem, q: Path, n: Node)
    requires MkdirAll(f, Parent(q)).ok && q != [] && n != DirNode
    ensures var g := MkdirAll(f, Parent(q)).fs[q := n]; MkdirAll(g, Parent(q)) == Done(g, true)
  {
    var up := MkdirAll(f, Parent(q)).fs;
    var g := up[q := n];
    forall i | 0 < i <= |Parent(q)| ensures At(g, Parent(q)[..i]) == Some(DirNode) {
      MkdirAllAt(f, Parent(q), Parent(q)[..i]);
    }
    DirsArePrefixes(Parent(q));
    forall a | a in Dirs(Parent(q)) ensures a in g {
      MkdirAllAt(f, Parent(q), a);
    }
    assert g + (map a | a in Dirs(Parent(q)) && a !in g :: DirNode) == g;
  }

  lemma FileAgain(f: FileSystem, q: Path, n: Node)
    requires q != [] && n.FileNode? && FileArrives(f, q, n.size, n.mtimeNS).ok
    ensures FileArrives(FileArrives(f, q, n.size, n.mtimeNS).fs, q, n.size, n.mtimeNS)
      == FileArrives(f, q, n.size, n.mtimeNS)
  {
    hide MkdirAll;
    ParentsThere(f, q, n);
    var g := FileArrives(f, q, n.size, n.mtimeNS).fs;
    assert g[q := n] == g;
  }

  lemma LinkAgain(f: FileSystem, q: Path, target: string)
    requires PrefixClosed(f) && q != [] && LinkArrives(f, q, target).ok
    ensures LinkArrives(LinkArrives(f, q, target).fs, q, target) == LinkArrives(f, q, target)
  {
    hide MkdirAll, PrefixClosed;
    var n := LinkNode(target);
    var up := MkdirAll(Remove(f, q).fs, Parent(q)).fs;
    var g := LinkArrives(f, q, target).fs;
    ParentsThere(Remove(f, q).fs, q, n);
    ParentPassable(g, Parent(q));
    assert Remove(g, q).fs == g - {q} == up;
    UpAgain(Remove(f, q).fs, q);
  }

  lemma UpAgain(f: FileSystem, q: Path)
    requires MkdirAll(f, Parent(q)).ok
    ensures MkdirAll(MkdirAll(f, Parent(q)).fs, Parent(q)) == MkdirAll(f, Parent(q))
  {
    MkdirAgain(f, Parent(q));
  }

  lemma ParentPassable(f: FileSystem, q: Path)
    requires MkdirAll(f, q).ok
    ensures Passable(f, q)
  {
  }

  lemma RemoveAgain(f: FileSystem, q: Path)
    requires q != [] && Remove(f, q).ok
    ensures Remove(Remove(f, q).fs, q) == Remove(f, q)
  {
    var g := f - {q};
    StillPassable(f, g, q);
    assert g - {q} == g;
  }

  lemma RemoveAllAgain(f: FileSystem, q: Path)
    requires q != [] && RemoveAll(f, q).ok
    ensures RemoveAll(RemoveAll(f, q).fs, q) == RemoveAll(f, q)
  {
    var g := RemoveAll(f, q).fs;
    StillPassable(f, g, q);
    assert (map k | k in g && !(q <= k) :: g[k]) == g;
  }

  lemma StillPassable(f: FileSystem, g: FileSystem, q: Path)
    requires Passable(f, Parent(q)) && q != []
    requires forall k :: k in g ==> k in f && g[k] == f[k]
    ensures Passable(g, Parent(q))
  {
    forall i | 0 < i <= |Parent(q)| ensures At(g, Parent(q)[..i]) == None || At(g, Parent(q)[..i]) == Some(DirNode) {
      PassableAt(f, Parent(q), Parent(q)[..i]);
    }
  }

  /** A rename that is asked for again is refused: its source is gone. */
  lemma RenameAgainFails(f: FileSystem, op: Op, e: Entry)
    requires PrefixClosed(f) && op.Rename? && Served(f, op, e).ok && op.oldPath != op.path
    requires op.oldPath in f && f[op.oldPath] != DirNode
    ensures !Served(Served(f, op, e).fs, op, e).ok
  {
    hide PrefixClosed, Passable;
    var up := MkdirAll(f, Parent(op.path)).fs;
    MkdirAllKeeps(f, Parent(op.path));
    MkdirOnlyAdds(f, Parent(op.path));
    assert At(up, op.oldPath) == At(f, op.oldPath);
    MoveAt(up, op.oldPath, op.path, op.oldPath);
    var g := Served(f, op, e).fs;
    assert At(g, op.oldPath) == None;
    if MkdirAll(g, Parent(op.path)).ok {
      NotMadeAgain(f, g, op.oldPath, op.path);
    }
  }

  lemma NotMadeAgain(f: FileSystem, g: FileSystem, from: Path, to: Path)
    requires MkdirAll(f, Parent(to)).ok && MkdirAll(g, Parent(to)).ok
    requires from in f && f[from] != DirNode && from !in g
    ensures from !in MkdirAll(g, Parent(to)).fs
  {
    MkdirAllAt(g, Parent(to), from);
    MkdirAllAt(f, Parent(to), from);
    if from != [] && from <= Parent(to) {
      PassableAt(f, Parent(to), from);
    }
  }
}

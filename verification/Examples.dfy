/** Concrete inputs on which a pass does not converge: one for each condition of the convergence theorem. */
module Examples {
  import opened Options
  import opened Model
  import opened Reconcile
  import opened Merge
  import opened CellSteps
  import opened Renames
  import opened Units
  import opened Removing
  import opened Convergence
  import opened Edits
  import opened NextInput

  function FolderEntry(): Entry { Entry(Dir, 0, 0, 493, 0, 0, "") }

  function FileEntry(mtimeNS: int, ino: int): Entry { Entry(File, 1, mtimeNS, 420, 1, ino, "") }

  const FOLDER: Path := ["a"]
  const NEWS: Path := ["a", "f"]
  const X: Path := ["x"]
  const Y: Path := ["y"]
  const Z: Path := ["z"]

  /** The primary deletes folder a while the secondary puts a file into it. */
  function FolderDeleted(): Input {
    Input(map[FOLDER := FolderEntry()], map[], map[FOLDER := FolderEntry(), NEWS := FileEntry(5, 9)], "t", [], [])
  }

  /** The primary renames x to y and edits it without changing its size. */
  function RenamedAndEdited(): Input {
    Input(map[X := FileEntry(1, 7)], map[Y := FileEntry(2, 7)], map[X := FileEntry(1, 70)], "t", [Renamed(X, Y)], [])
  }

  /** The primary replaces x by two hard links to the same file. */
  function LinkedTwice(): Input {
    Input(map[X := FileEntry(1, 7)], map[Y := FileEntry(1, 7), Z := FileEntry(1, 7)], map[X := FileEntry(1, 70)], "t",
          [Renamed(X, Y), Renamed(X, Z)], [])
  }

  lemma Flat(f: FileSystem)
    requires forall q: Path :: q in f ==> |q| == 1
    ensures PrefixClosed(f)
  {
  }

  lemma NothingDetected(b: Tree, changed: Tree, other: Tree, bOrder: seq<Path>, nOrder: seq<Path>)
    requires Lists(bOrder, b.Keys) && Lists(nOrder, changed.Keys)
    requires forall q :: q in nOrder ==>
      q in b || forall k :: k in DeletedByKey(b, changed, bOrder) ==> k != InodeOf(changed[q])
    ensures Detected(b, changed, other, [])
  {
    NoPairs(b, changed, other, DeletedByKey(b, changed, bOrder), nOrder);
  }

  lemma {:induction false} NoPairs(b: Tree, changed: Tree, other: Tree, deleted: map<Inode, Path>, order: seq<Path>)
    requires forall q :: q in order ==> !RenameFits(b, changed, other, deleted, q)
    ensures RenamePairs(b, changed, other, deleted, order) == []
  {
    hide RenameFits;
    if order != [] {
      NoPairs(b, changed, other, deleted, order[..|order| - 1]);
    }
  }

  lemma FolderDeletedFails()
    ensures Sound(FolderDeleted()) && Disturbed(FolderDeleted(), Secondary, FOLDER, NEWS)
    ensures !Quiet(FolderDeleted())
  {
    hide DirsAgree, FreshNames, PrefixClosed, Detected;
    FolderTrees();
    FolderNames();
    FolderRenames();
    FolderDisturbed();
  }

  lemma FolderDisturbed()
    ensures Disturbed(FolderDeleted(), Secondary, FOLDER, NEWS)
  {
    assert FOLDER <= NEWS && FOLDER != NEWS;
  }

  lemma FolderRenames()
    ensures var c := FolderDeleted(); Detected(c.b, c.p, c.s, []) && Detected(c.b, c.s, c.p, [])
  {
    var c := FolderDeleted();
    assert [FOLDER][..0] == [];
    NoneVanished(c.b, c.p);
    NoneVanished(c.b, c.s);
    NothingDetected(c.b, c.p, c.s, [FOLDER], []);
    NothingDetected(c.b, c.s, c.p, [FOLDER], [FOLDER, NEWS]);
  }

  lemma NoneVanished(b: Tree, changed: Tree)
    requires FOLDER in b && b[FOLDER].kind == Dir
    ensures DeletedByKey(b, changed, [FOLDER]) == map[]
  {
    assert [FOLDER][..0] == [];
    assert DeletedByKey(b, changed, [FOLDER][..0]) == map[];
  }

  lemma FolderTrees()
    ensures var c := FolderDeleted(); PrefixClosed(Nodes(c.b)) && PrefixClosed(Nodes(c.p)) && PrefixClosed(Nodes(c.s))
  {
    var c := FolderDeleted();
    Flat(Nodes(c.b));
    forall q: Path, a: Path | q in Nodes(c.s) && a != [] && a < q ensures At(Nodes(c.s), a) == Some(DirNode) {
      assert a == q[..|a|];
      assert NEWS[..1] == FOLDER;
    }
  }

  lemma FolderNames()
    ensures DirsAgree(FolderDeleted()) && FreshNames(FolderDeleted())
  {
    var c := FolderDeleted();
    forall q: Path ensures (NoDir(c, q) || OnlyDir(c, q)) && !c.Clashes(q) {
      assert q == FOLDER || q == NEWS || (q != FOLDER && q != NEWS);
    }
  }

  // ---- renames

  lemma FlatSound(c: Input)
    requires c.b.Keys <= {X, Y, Z} && c.p.Keys <= {X, Y, Z} && c.s.Keys <= {X, Y, Z}
    requires forall q: Path :: !c.Clashes(q) && NoDir(c, q)
    requires Detected(c.b, c.p, c.s, c.onPrimary) && Detected(c.b, c.s, c.p, c.onSecondary)
    ensures Sound(c)
  {
    hide Detected;
    Flat(Nodes(c.b));
    Flat(Nodes(c.p));
    Flat(Nodes(c.s));
  }

  lemma XVanished(b: Tree, changed: Tree)
    requires X in b && X !in changed && b[X] == FileEntry(1, 7)
    ensures DeletedByKey(b, changed, [X]) == map[Inode(1, 7) := X]
  {
    assert [X][..0] == [];
    assert DeletedByKey(b, changed, [X][..0]) == map[];
  }

  lemma XStays(b: Tree, changed: Tree)
    requires X in b && X in changed
    ensures DeletedByKey(b, changed, [X]) == map[]
  {
    assert [X][..0] == [];
    assert DeletedByKey(b, changed, [X][..0]) == map[];
  }

  lemma SecondaryStays(c: Input)
    requires c.b.Keys == {X} && c.s.Keys == {X}
    ensures Detected(c.b, c.s, c.p, [])
  {
    XStays(c.b, c.s);
    NothingDetected(c.b, c.s, c.p, [X], [X]);
  }

  lemma RenamedAndEditedFails()
    ensures Sound(RenamedAndEdited()) && !Faithful(RenamedAndEdited()) && Unshared(RenamedAndEdited())
  {
    hide Detected;
    var c := RenamedAndEdited();
    EditedRenames();
    SecondaryStays(c);
    EditedNodes();
    FlatSound(c);
    assert Renamed(X, Y) in c.Pairs(Secondary);
  }

  lemma EditedNodes()
    ensures forall q: Path :: !RenamedAndEdited().Clashes(q) && NoDir(RenamedAndEdited(), q)
  {
    var c := RenamedAndEdited();
    forall q: Path ensures !c.Clashes(q) && NoDir(c, q) {
      assert q == X || q == Y || (q != X && q != Y);
    }
  }

  lemma EditedRenames()
    ensures var c := RenamedAndEdited(); Detected(c.b, c.p, c.s, c.onPrimary)
  {
    var c := RenamedAndEdited();
    XVanished(c.b, c.p);
    EditedPair(c, DeletedByKey(c.b, c.p, [X]));
    assert Lists([X], c.b.Keys) && Lists([Y], c.p.Keys);
  }

  lemma EditedPair(c: Input, deleted: map<Inode, Path>)
    requires c == RenamedAndEdited() && deleted == map[Inode(1, 7) := X]
    ensures RenamePairs(c.b, c.p, c.s, deleted, [Y]) == c.onPrimary
  {
    assert [Y][..0] == [];
    assert RenamePairs(c.b, c.p, c.s, deleted, [Y][..0]) == [];
    assert RenameFits(c.b, c.p, c.s, deleted, Y);
  }

  lemma LinkedTwiceFails()
    ensures Sound(LinkedTwice()) && Faithful(LinkedTwice()) && !Unshared(LinkedTwice())
  {
    hide Detected;
    var c := LinkedTwice();
    LinkedRenames();
    SecondaryStays(c);
    LinkedNodes();
    FlatSound(c);
    assert c.onPrimary[..1] == [Renamed(X, Y)];
    assert Renamed(X, Y) in c.onPrimary[..1];
  }

  lemma LinkedNodes()
    ensures forall q: Path :: !LinkedTwice().Clashes(q) && NoDir(LinkedTwice(), q)
  {
    var c := LinkedTwice();
    forall q: Path ensures !c.Clashes(q) && NoDir(c, q) {
      assert q == X || q == Y || q == Z || (q != X && q != Y && q != Z);
    }
  }

  lemma LinkedRenames()
    ensures var c := LinkedTwice(); Detected(c.b, c.p, c.s, c.onPrimary)
  {
    var c := LinkedTwice();
    XVanished(c.b, c.p);
    var deleted := DeletedByKey(c.b, c.p, [X]);
    LinkedPairs(c, deleted);
    assert Lists([X], c.b.Keys) && Lists([Y, Z], c.p.Keys);
  }

  lemma LinkedPairs(c: Input, deleted: map<Inode, Path>)
    requires c == LinkedTwice() && deleted == map[Inode(1, 7) := X]
    ensures RenamePairs(c.b, c.p, c.s, deleted, [Y, Z]) == c.onPrimary
  {
    assert [Y, Z][..1] == [Y] && [Y][..0] == [];
    assert RenamePairs(c.b, c.p, c.s, deleted, [Y][..0]) == [];
    assert RenameFits(c.b, c.p, c.s, deleted, Y) && RenameFits(c.b, c.p, c.s, deleted, Z);
    assert RenamePairs(c.b, c.p, c.s, deleted, [Y]) == [Renamed(X, Y)];
  }

  // ---- a pass without operations

  /** Both sides have got the same file y since the last pass. */
  function BothCreated(): Input {
    Input(map[], map[Y := FileEntry(1, 7)], map[Y := FileEntry(1, 70)], "t", [], [])
  }

  lemma EarlyReturnFails()
    ensures Sound(BothCreated()) && Visits(BothCreated(), [Y])
    ensures PassEffect(BothCreated(), [Y]).ops == [] && Nodes(BothCreated().p) != Nodes(BothCreated().b)
  {
    hide Sound, PassEffect;
    CreatedSound();
    NothingToDo();
    assert Y in Nodes(BothCreated().p) && Y !in Nodes(BothCreated().b);
    assert Lists([Y], {Y});
  }

  lemma CreatedSound()
    ensures Sound(BothCreated())
  {
    hide Detected, PrefixClosed;
    var c := BothCreated();
    CreatedRenames();
    CreatedNodes();
    FlatSound(c);
  }

  lemma CreatedRenames()
    ensures var c := BothCreated(); Detected(c.b, c.p, c.s, []) && Detected(c.b, c.s, c.p, [])
  {
    var c := BothCreated();
    NothingDetected(c.b, c.p, c.s, [], [Y]);
    NothingDetected(c.b, c.s, c.p, [], [Y]);
  }

  lemma CreatedNodes()
    ensures forall q: Path :: !BothCreated().Clashes(q) && NoDir(BothCreated(), q)
  {
    var c := BothCreated();
    forall q: Path ensures !c.Clashes(q) && NoDir(c, q) {
      assert q == Y || q != Y;
    }
  }

  lemma NothingToDo()
    ensures PassEffect(BothCreated(), [Y]).ops == []
  {
    var c := BothCreated();
    assert [Y][..0] == [];
    assert PathsEffect(c.b, c.p, c.s, c.stamp, [Y][..0]).ops == [];
    assert PathEffect(c.b, c.p, c.s, c.stamp, Y).ops == [];
  }

  // ---- the pass after a directory was deleted under a new file

  /** Where the pass on FolderDeleted ends, with the baseline it saves. */
  function AfterFolderDeleted(base: Tree): Input {
    Input(base, map[FOLDER := FolderEntry(), NEWS := FileEntry(5, 9)], map[], "u", [], [])
  }

  lemma FolderCells(paths: seq<Path>, x: Path)
    requires Sound(FolderDeleted()) && Visits(FolderDeleted(), paths)
    ensures Finally(FolderDeleted(), paths, Primary, x) == AfterFolderDeleted(map[]).On(Primary, x)
    ensures Finally(FolderDeleted(), paths, Secondary, x) == None
  {
    hide Sound, Lists, PassOutcome, Finally, Origin, ConflictPath, Moved;
    var c := FolderDeleted();
    assert Faithful(c) && Unshared(c);
    FolderDisturbed();
    FolderTargets(x);
    if x == NEWS {
      FolderNews(paths);
    } else if x == FOLDER {
      assert BringsBelow(c, Primary, FOLDER, NEWS);
      ExactCell(c, paths, Primary, x);
      FolderGoes(paths);
      Vanishes(c, paths, Secondary, x);
    } else {
      OutsideFolder(paths, x, Primary);
      OutsideFolder(paths, x, Secondary);
    }
  }

  lemma FolderGoes(paths: seq<Path>)
    requires Sound(FolderDeleted()) && Visits(FolderDeleted(), paths)
    ensures Doomed(FolderDeleted(), paths, Secondary, FOLDER)
  {
    hide Sound, Lists;
    FolderDisturbed();
    DirIsVisited(FolderDeleted(), paths, Secondary, FOLDER);
    assert TakenWith(FolderDeleted(), Secondary, FOLDER, FOLDER);
  }

  lemma FolderTargets(x: Path)
    ensures Target(FolderDeleted(), x) == if x == NEWS then FolderDeleted().On(Secondary, NEWS) else None
    ensures forall q: Path :: !FolderDeleted().Clashes(q)
  {
    hide Origin;
    var c := FolderDeleted();
    forall q: Path ensures !c.Clashes(q) {
      assert q == FOLDER || q == NEWS || (q != FOLDER && q != NEWS);
    }
  }

  lemma FolderNews(paths: seq<Path>)
    requires Sound(FolderDeleted()) && Visits(FolderDeleted(), paths)
    ensures Finally(FolderDeleted(), paths, Primary, NEWS) == FolderDeleted().On(Secondary, NEWS)
    ensures Finally(FolderDeleted(), paths, Secondary, NEWS) == None
  {
    hide Sound, Lists, Finally;
    var c := FolderDeleted();
    FolderDisturbed();
    NewHere(c, Secondary, NEWS);
    HomeCell(c, paths, Secondary, NEWS, NEWS);
    AwayCell(c, paths, Secondary, NEWS);
  }

  lemma OutsideFolder(paths: seq<Path>, x: Path, d: Side)
    requires Sound(FolderDeleted()) && Visits(FolderDeleted(), paths) && x != NEWS && x != FOLDER
    ensures Finally(FolderDeleted(), paths, d, x) == None
  {
    hide Sound, Lists, Finally, Origin, Doomed;
    var c := FolderDeleted();
    FolderTargets(x);
    assert ExpectedAt(c, Elements(paths), d, x) == None;
    if Doomed(c, paths, d, x) {
      Vanishes(c, paths, d, x);
    } else {
      Stands(c, paths, d, x);
    }
  }

  lemma FolderFollows(paths: seq<Path>)
    requires Sound(FolderDeleted()) && Visits(FolderDeleted(), paths)
    ensures Follows(FolderDeleted(), paths, AfterFolderDeleted(PassEffect(FolderDeleted(), paths).base))
  {
    hide Sound, Lists, PassOutcome, PassEffect, FolderDeleted;
    var c := FolderDeleted();
    var c' := AfterFolderDeleted(PassEffect(c, paths).base);
    var w := PassOutcome(c, paths).w;
    forall x: Path ensures At(w.primary, x) == At(Nodes(c'.p), x) && At(w.secondary, x) == At(Nodes(c'.s), x) {
      FolderCells(paths, x);
      NodesAt(c'.p, x);
      NodesAt(c'.s, x);
      assert w.On(Primary) == w.primary && w.On(Secondary) == w.secondary;
    }
    SameCellsSameTree(w.primary, Nodes(c'.p));
    SameCellsSameTree(w.secondary, Nodes(c'.s));
  }

  /** The input of the next pass is sound, although its baseline lists the file without its directory. */
  lemma FolderNextIsSound(paths: seq<Path>)
    requires Sound(FolderDeleted()) && Visits(FolderDeleted(), paths)
    ensures Sound(AfterFolderDeleted(PassEffect(FolderDeleted(), paths).base))
  {
    hide Sound, Lists, PassEffect, FolderDeleted;
    var base := PassEffect(FolderDeleted(), paths).base;
    forall x: Path ensures NodeAt(base, x) == if x == NEWS then Some(FileNode(1, 5)) else None {
      BaselineCell(FolderDeleted(), paths, x);
      FolderTargets(x);
      NewsNode();
    }
    NextSound(base);
  }

  lemma NewsNode()
    ensures FolderDeleted().On(Secondary, NEWS) == Some(FileNode(1, 5))
  {
  }

  lemma NextSound(base: Tree)
    requires forall x: Path :: NodeAt(base, x) == if x == NEWS then Some(FileNode(1, 5)) else None
    ensures Sound(AfterFolderDeleted(base))
  {
    hide PrefixClosed, Detected;
    var c := AfterFolderDeleted(base);
    assert NodeAt(base, NEWS) == Some(FileNode(1, 5)) && NodeAt(base, []) == None;
    forall q: Path ensures (NoDir(c, q) || OnlyDir(c, q)) && !c.Clashes(q) {
      assert NodeAt(base, q) == if q == NEWS then Some(FileNode(1, 5)) else None;
    }
    FolderTrees();
    Flat(map[]);
    NextTrees(base);
    NextRenames(base);
  }

  lemma NextTrees(base: Tree)
    ensures var c := AfterFolderDeleted(base); PrefixClosed(Nodes(c.p)) && PrefixClosed(Nodes(c.s))
  {
    FolderTrees();
    assert AfterFolderDeleted(base).p == FolderDeleted().s && AfterFolderDeleted(base).s == FolderDeleted().p;
  }

  lemma NextRenames(base: Tree)
    requires forall x: Path :: NodeAt(base, x) == if x == NEWS then Some(FileNode(1, 5)) else None
    ensures var c := AfterFolderDeleted(base); Detected(c.b, c.p, c.s, []) && Detected(c.b, c.s, c.p, [])
  {
    var c := AfterFolderDeleted(base);
    assert NodeAt(base, NEWS) == Some(FileNode(1, 5));
    forall x ensures x in base <==> x == NEWS {
      assert NodeAt(base, x) == if x == NEWS then Some(FileNode(1, 5)) else None;
    }
    assert Lists([NEWS], c.b.Keys) && Lists([FOLDER, NEWS], c.p.Keys) && Lists([], c.s.Keys);
    assert [NEWS][..0] == [];
    assert DeletedByKey(c.b, c.p, [NEWS]) == map[];
    NothingDetected(c.b, c.p, c.s, [NEWS], [FOLDER, NEWS]);
    NothingDetected(c.b, c.s, c.p, [NEWS], []);
  }
}

/** A concrete input for which two passes are not enough. */
module ThirdPass {
  import opened Options
  import opened Model
  import opened Reconcile
  import opened Merge
  import opened CellSteps
  import opened Renames
  import opened Removing
  import opened Convergence
  import opened Edits
  import opened NextInput
  import opened NextPass
  import opened Settling
  import opened Examples

  const TOP: Path := ["p"]
  const SUB: Path := ["p", "a"]
  const OLD: Path := ["f"]
  const INNER: Path := ["p", "a", "f"]

  /** The primary deletes folder p; the secondary makes folder a in it and moves file f there, editing it without
      changing its size. */
  function MovedIntoDeleted(): Input {
    Input(map[TOP := FolderEntry(), OLD := FileEntry(1, 7)],
          map[OLD := FileEntry(1, 7)],
          map[TOP := FolderEntry(), SUB := FolderEntry(), INNER := FileEntry(2, 7)],
          "t", [], [Renamed(OLD, INNER)])
  }

  lemma FourPaths()
    ensures TOP <= SUB && SUB <= INNER && INNER[..1] == TOP && INNER[..2] == SUB && SUB[..1] == TOP
    ensures TOP != SUB && TOP != OLD && TOP != INNER && SUB != OLD && SUB != INNER && OLD != INNER
  {
  }

  lemma MovedTrees()
    ensures var c := MovedIntoDeleted();
      PrefixClosed(Nodes(c.b)) && PrefixClosed(Nodes(c.p)) && PrefixClosed(Nodes(c.s))
  {
    var c := MovedIntoDeleted();
    FourPaths();
    Flat(Nodes(c.b));
    Flat(Nodes(c.p));
    forall q: Path, a: Path | q in Nodes(c.s) && a != [] && a < q ensures At(Nodes(c.s), a) == Some(DirNode) {
      assert a == q[..|a|];
    }
  }

  lemma MovedNames()
    ensures DirsAgree(MovedIntoDeleted()) && FreshNames(MovedIntoDeleted())
  {
    var c := MovedIntoDeleted();
    FourPaths();
    forall q: Path ensures (NoDir(c, q) || OnlyDir(c, q)) && !c.Clashes(q) {
      assert q == TOP || q == SUB || q == OLD || q == INNER || (q != TOP && q != SUB && q != OLD && q != INNER);
    }
  }

  lemma OldVanished(c: Input)
    requires c == MovedIntoDeleted()
    ensures DeletedByKey(c.b, c.s, [TOP, OLD]) == map[Inode(1, 7) := OLD] && DeletedByKey(c.b, c.p, [TOP, OLD]) == map[]
  {
    FourPaths();
    assert [TOP, OLD][..1] == [TOP] && [TOP][..0] == [];
    NoneMissing(c.b, c.s);
    NoneMissing(c.b, c.p);
  }

  lemma NoneMissing(b: Tree, changed: Tree)
    requires TOP in b && b[TOP].kind == Dir
    ensures DeletedByKey(b, changed, [TOP]) == map[]
  {
    assert [TOP][..0] == [];
    assert DeletedByKey(b, changed, [TOP][..0]) == map[];
  }

  lemma OnePair(c: Input, deleted: map<Inode, Path>)
    requires c == MovedIntoDeleted() && deleted == map[Inode(1, 7) := OLD]
    ensures RenamePairs(c.b, c.s, c.p, deleted, [TOP, SUB, INNER]) == c.onSecondary
  {
    FourPaths();
    NoPairs(c.b, c.s, c.p, deleted, [TOP, SUB]);
    assert [TOP, SUB, INNER][..2] == [TOP, SUB];
    assert RenameFits(c.b, c.s, c.p, deleted, INNER);
  }

  lemma MovedRenames()
    ensures var c := MovedIntoDeleted(); Detected(c.b, c.p, c.s, c.onPrimary) && Detected(c.b, c.s, c.p, c.onSecondary)
  {
    var c := MovedIntoDeleted();
    FourPaths();
    OldVanished(c);
    OnePair(c, DeletedByKey(c.b, c.s, [TOP, OLD]));
    assert Lists([TOP, OLD], c.b.Keys) && Lists([TOP, SUB, INNER], c.s.Keys) && Lists([OLD], c.p.Keys);
    NothingDetected(c.b, c.p, c.s, [TOP, OLD], [OLD]);
  }

  lemma MovedSound()
    ensures Sound(MovedIntoDeleted()) && PrefixClosed(Nodes(MovedIntoDeleted().b))
  {
    hide DirsAgree, FreshNames, PrefixClosed, Detected;
    MovedTrees();
    MovedNames();
    MovedRenames();
  }

  lemma MovedFacts()
    ensures var c := MovedIntoDeleted();
      && Disturbed(c, Secondary, TOP, SUB) && Disturbed(c, Secondary, TOP, INNER)
      && Edited(c, Secondary, SUB) && Edited(c, Secondary, INNER)
      && c.On(Secondary, SUB) == Some(DirNode) && c.On(Primary, SUB) == None == c.B(SUB)
      && c.On(Secondary, INNER) == Some(FileNode(1, 2)) && c.On(Primary, INNER) == None == c.B(INNER)
      && c.B(OLD) == Some(FileNode(1, 1)) && !c.Moves(SUB)
  {
    FourPaths();
  }

  /** After the pass the primary has the folder and the old version in it, and the secondary has neither. */
  lemma MovedCellsAfter(paths: seq<Path>)
    requires Sound(MovedIntoDeleted()) && Visits(MovedIntoDeleted(), paths)
    ensures var c := MovedIntoDeleted();
      && Finally(c, paths, Primary, SUB) == Some(DirNode) == Target(c, SUB) && Finally(c, paths, Secondary, SUB) == None
      && Finally(c, paths, Primary, INNER) == Some(FileNode(1, 1)) && Target(c, INNER) == Some(FileNode(1, 2))
  {
    MovedFacts();
    hide Sound, Lists, Finally, Target, MovedIntoDeleted, Eaten, Unreplayed, Place, Moved, Doomed;
    var c := MovedIntoDeleted();
    IsEaten(c, Secondary, TOP, SUB);
    NewHere(c, Secondary, SUB);
    HomeCell(c, paths, Secondary, SUB, SUB);
    OnlyMovesAreUnreplayed(c, Secondary, SUB);
    AwayCell(c, paths, Secondary, SUB);
    PlaceTarget(c, Secondary, SUB);
    NewHere(c, Secondary, INNER);
    PlaceTarget(c, Secondary, INNER);
    InnerStands(c, paths);
  }

  lemma InnerStands(c: Input, paths: seq<Path>)
    requires Sound(c) && Visits(c, paths) && c == MovedIntoDeleted()
    ensures Finally(c, paths, Primary, INNER) == Some(FileNode(1, 1))
  {
    MovedFacts();
    assert c.Pairs(Primary) == [Renamed(OLD, INNER)];
    hide Sound, Lists, Finally, MovedIntoDeleted, Moved, Doomed, Eaten, Place;
    NewHere(c, Secondary, INNER);
    if Doomed(c, paths, Primary, INNER) {
      DoomedIsEaten(c, paths, Secondary, INNER, INNER, Primary);
    }
    assert c.Pairs(Primary)[..0] == [];
    MovedTarget(c, Primary, 0);
    PairMoves(c, Primary, Renamed(OLD, INNER));
    Stands(c, paths, Primary, INNER);
  }

  /** On this input the third pass still has something to do. */
  lemma ThirdPassNeeded(ps: seq<Path>, c1: Input, ps1: seq<Path>, c2: Input, ps2: seq<Path>)
    requires Visits(MovedIntoDeleted(), ps) && Follows(MovedIntoDeleted(), ps, c1) && Scanned(c1) && Visits(c1, ps1)
    requires Follows(c1, ps1, c2) && Scanned(c2) && Visits(c2, ps2)
    ensures Sound(MovedIntoDeleted()) && PrefixClosed(Nodes(MovedIntoDeleted().b)) && PassEffect(c2, ps2).ops != []
  {
    hide Sound, Lists, Follows, Scanned, PassEffect, Finally, Target, MovedIntoDeleted, PrefixClosed;
    var c := MovedIntoDeleted();
    MovedSound();
    FourPaths();
    MovedCellsAfter(ps);
    NextCells(c, ps, c1, SUB);
    NextCells(c, ps, c1, INNER);
    assert Disturbed(c1, Primary, SUB, INNER);
    ThirdPassExactly(c, ps, c1, ps1, c2, ps2);
  }
}

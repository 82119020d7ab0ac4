/** What becomes of each single edit in one pass, whatever the rest of the trees looks like. */
module Edits {
  import opened Options
  import opened Model
  import opened FileTree
  import opened Reconcile
  import opened Merge
  import opened CellSteps
  import opened Renames
  import opened Units
  import opened Removing
  import opened Convergence

  /** d holds at x a version the baseline does not know. */
  predicate Edited(c: Input, d: Side, x: Path) {
    c.On(d, x) != None && c.On(d, x) != c.B(x)
  }

  /** A directory above x is one that d drops. */
  ghost predicate Eaten(c: Input, d: Side, x: Path) {
    exists a: Path :: Disturbed(c, d, a, x)
  }

  /** x is the new name of a rename made on d whose source is another version, or was taken by an earlier rename. */
  predicate Unreplayed(c: Input, d: Side, x: Path) {
    exists i :: 0 <= i < |c.Pairs(d.Other())| && Misses(c, d, x, i)
  }

  predicate Misses(c: Input, d: Side, x: Path, i: nat)
    requires i < |c.Pairs(d.Other())|
  {
    var r := c.Pairs(d.Other())[i];
    r.to == x && (c.B(r.from) != c.On(d, x) || r.from in Froms(c.Pairs(d.Other())[..i]))
  }

  /** Where the version of d is meant to be afterwards: the loser of a conflict under the conflict name. */
  function Place(c: Input, d: Side, x: Path): Path {
    if c.Clashes(x) && (d == Secondary || c.On(Secondary, x) == None) then ConflictPath(x, c.stamp) else x
  }

  function Finally(c: Input, paths: seq<Path>, d: Side, x: Path): Option<Node>
    requires NoRoot(paths)
  {
    At(PassOutcome(c, paths).w.On(d), x)
  }

  /** Both sides hold the version, at its own path or under its conflict name. */
  predicate Kept(c: Input, paths: seq<Path>, x: Path, v: Option<Node>)
    requires NoRoot(paths)
  {
    || (Finally(c, paths, Primary, x) == v && Finally(c, paths, Secondary, x) == v)
    || (c.Clashes(x)
        && Finally(c, paths, Primary, ConflictPath(x, c.stamp)) == v
        && Finally(c, paths, Secondary, ConflictPath(x, c.stamp)) == v)
  }

  /** Neither side holds the version at either place. */
  predicate Gone(c: Input, paths: seq<Path>, x: Path, v: Option<Node>)
    requires NoRoot(paths)
  {
    && Finally(c, paths, Primary, x) != v && Finally(c, paths, Secondary, x) != v
    && (c.Clashes(x) ==>
          && Finally(c, paths, Primary, ConflictPath(x, c.stamp)) != v
          && Finally(c, paths, Secondary, ConflictPath(x, c.stamp)) != v)
  }

  // ---- single cells of the outcome

  lemma Vanishes(c: Input, paths: seq<Path>, d: Side, x: Path)
    requires Sound(c) && Visits(c, paths) && Doomed(c, paths, d, x)
    ensures Finally(c, paths, d, x) == None
  {
    hide Sound, Lists, PassOutcome, CellOk, ExpectedAt;
    PassCells(c, paths);
    assert CellEnds(c, paths, d, x, At(PassOutcome(c, paths).w.On(d), x));
  }

  /** What is planned and not deleted is there; where nothing is planned there is nothing unless a directory came
      early. */
  lemma Stands(c: Input, paths: seq<Path>, d: Side, x: Path)
    requires Sound(c) && Visits(c, paths) && !Doomed(c, paths, d, x)
    requires ExpectedAt(c, Elements(paths), d, x) != None || c.On(d.Other(), x) != Some(DirNode)
    ensures Finally(c, paths, d, x) == ExpectedAt(c, Elements(paths), d, x)
  {
    hide Sound, Lists, PassOutcome, ExpectedAt;
    PassCells(c, paths);
    assert CellEnds(c, paths, d, x, At(PassOutcome(c, paths).w.On(d), x));
  }

  // ---- what is planned for an edit

  lemma EditIsRealPath(c: Input, d: Side, x: Path)
    requires Sound(c) && Edited(c, d, x)
    ensures x != [] && x in AllPaths(c.b, c.p, c.s) && !c.Drops(d, x) && !c.Drops(d.Other(), x)
  {
    hide Sound;
    RootIsNoPath(c, d);
    AllPathsAt(c, x);
  }

  /** A rename that involves an edited path gave it its name on the side of the edit. */
  lemma EditedMove(c: Input, d: Side, x: Path) returns (i: nat)
    requires Sound(c) && Edited(c, d, x) && c.Moves(x)
    ensures i < |c.Pairs(d.Other())| && c.Pairs(d.Other())[i].to == x && Fits(c, d.Other(), c.Pairs(d.Other())[i])
    ensures !c.Clashes(x) && c.On(d, x) != Some(DirNode) && x !in Consumed(c.Pairs(d))
  {
    hide Sound, Consumed;
    var e, r := MovesAt(c, x);
    i := PairIndex(c.Pairs(d.Other()), r);
    ToIsConsumed(c.Pairs(d.Other()), i);
    PairsDisjoint(c);
  }

  lemma ToIsConsumed(pairs: seq<Renamed>, i: nat)
    requires i < |pairs|
    ensures pairs[i].to in Consumed(pairs)
  {
    assert pairs[i] in pairs;
  }

  lemma MovedEdit(c: Input, paths: seq<Path>, d: Side, x: Path)
    requires Sound(c) && Visits(c, paths) && Edited(c, d, x) && c.Moves(x)
    ensures !c.Clashes(x) && ExpectedAt(c, Elements(paths), d, x) == c.On(d, x) != Some(DirNode)
    ensures ExpectedAt(c, Elements(paths), d.Other(), x) == c.On(d, x) <==> !Unreplayed(c, d, x)
  {
    hide Sound, Moved, Consumed, Visits, Froms;
    var i := EditedMove(c, d, x);
    MovedElsewhere(c, c.On(d, x), c.Pairs(d), x);
    MovedTarget(c, d.Other(), i);
    forall j: nat | j < |c.Pairs(d.Other())| && j != i ensures c.Pairs(d.Other())[j].to != x {
      if i < j { PairTargetsDiffer(c, d.Other(), i, j); } else { PairTargetsDiffer(c, d.Other(), j, i); }
    }
    assert Unreplayed(c, d, x) <==> Misses(c, d, x, i);
  }

  lemma OnlyMovesAreUnreplayed(c: Input, d: Side, x: Path)
    requires !c.Moves(x)
    ensures !Unreplayed(c, d, x)
  {
    forall i: nat | i < |c.Pairs(d.Other())| ensures !Misses(c, d, x, i) {
      ToIsConsumed(c.Pairs(d.Other()), i);
    }
  }

  lemma EditWins(c: Input, d: Side, x: Path)
    requires Edited(c, d, x) && x != []
    ensures if Place(c, d, x) == x then c.Merge(x) == c.On(d, x) else c.Clashes(x) && c.Loser(x) == c.On(d, x)
  {
    hide ConflictPath;
    if c.Clashes(x) {
      OriginOfConflict(x, c.stamp);
    }
  }

  lemma PlainEdit(c: Input, paths: seq<Path>, d: Side, x: Path, e: Side)
    requires Sound(c) && Visits(c, paths) && Edited(c, d, x) && !c.Moves(x)
    ensures ExpectedAt(c, Elements(paths), e, Place(c, d, x)) == c.On(d, x)
  {
    hide Sound, Lists, Moved, Consumed, ConflictPath, Origin, AllPaths, Merged, Clash, ExpectedAt, Place;
    EditIsRealPath(c, d, x);
    EditWins(c, d, x);
    InPaths(c, paths, x);
    if Place(c, d, x) == x {
      VisitedIsOrdinary(c, paths, x);
      OrdinaryCell(c, Elements(paths), e, x);
    } else {
      PlaceOf(c, d, x);
      LoserPlanned(c, paths, e, x);
    }
  }

  lemma PlaceOf(c: Input, d: Side, x: Path)
    ensures Place(c, d, x) == x || (c.Clashes(x) && Place(c, d, x) == ConflictPath(x, c.stamp))
  {
  }

  lemma InPaths(c: Input, paths: seq<Path>, x: Path)
    requires Visits(c, paths) && x in AllPaths(c.b, c.p, c.s) && !c.Moves(x)
    ensures x in paths
  {
  }

  lemma LoserPlanned(c: Input, paths: seq<Path>, d: Side, x: Path)
    requires Sound(c) && Visits(c, paths) && c.Clashes(x)
    ensures ExpectedAt(c, Elements(paths), d, ConflictPath(x, c.stamp)) == c.Loser(x)
    ensures ConflictPath(x, c.stamp) !in AllPaths(c.b, c.p, c.s)
  {
    hide Sound, Origin, ConflictPath, Moved, Consumed, AllPaths, Merged, Clash, Visits;
    var y := ConflictPath(x, c.stamp);
    ClashIsVisited(c, paths, x);
    OriginOfConflict(x, c.stamp);
    if c.Moves(y) {
      var e, r := MovesAt(c, y);
    }
    VisitedSubset(c, paths);
  }

  lemma VisitedSubset(c: Input, paths: seq<Path>)
    requires Visits(c, paths)
    ensures Elements(paths) <= AllPaths(c.b, c.p, c.s)
  {
  }

  // ---- what is deleted around an edit

  /** The version itself and its conflict name. */
  predicate PlaceFor(c: Input, x: Path, y: Path) {
    y == x || (c.Clashes(x) && y == ConflictPath(x, c.stamp))
  }

  lemma EatenIsDoomed(c: Input, paths: seq<Path>, d: Side, x: Path, y: Path)
    requires Sound(c) && Visits(c, paths) && Edited(c, d, x) && Eaten(c, d, x) && PlaceFor(c, x, y)
    ensures Doomed(c, paths, d, y)
  {
    hide Sound, Visits, ConflictPath;
    EditIsRealPath(c, d, x);
    OriginOfConflict(x, c.stamp);
    var a: Path :| Disturbed(c, d, a, x);
    RootIsNoPath(c, d);
    BelowToo(a, x, y);
    DirIsVisited(c, paths, d, a);
    assert TakenWith(c, d, a, y);
  }

  lemma DoomedIsEaten(c: Input, paths: seq<Path>, d: Side, x: Path, y: Path, e: Side)
    requires Sound(c) && Visits(c, paths) && Edited(c, d, x) && PlaceFor(c, x, y) && Doomed(c, paths, e, y)
    ensures e == d && Eaten(c, d, x)
  {
    hide Sound, Visits, ConflictPath, AllPaths, Consumed;
    EditIsRealPath(c, d, x);
    OriginOfConflict(x, c.stamp);
    if c.Clashes(x) {
      ClashIsVisited(c, paths, x);
    }
    var q: Path :| q in paths && TakenWith(c, e, q, y);
    AllPathsAt(c, q);
    DroppedAbove(c, d, x, y, e, q);
  }

  /** A drop that takes an edit takes it from above, and on its own side. */
  lemma DroppedAbove(c: Input, d: Side, x: Path, y: Path, e: Side, q: Path)
    requires Sound(c) && Edited(c, d, x) && x != [] && TakenWith(c, e, q, y) && q in AllPaths(c.b, c.p, c.s)
    requires y == x || (y !in AllPaths(c.b, c.p, c.s) && y != [] && Parent(y) == Parent(x))
    ensures e == d && Disturbed(c, d, q, x)
  {
    hide Sound, AllPaths;
    RootIsNoPath(c, e);
    TreesSound(c, d);
    if q != y {
      BelowToo(q, y, x);
    }
    if q != x {
      DirAboveOn(c, d, x, q);
    }
  }

  // ---- the fate of an edit

  /** On its own side the version stands unless a directory above it is dropped. */
  lemma HomeCell(c: Input, paths: seq<Path>, d: Side, x: Path, y: Path)
    requires Sound(c) && Visits(c, paths) && Edited(c, d, x) && PlaceFor(c, x, y)
    ensures Eaten(c, d, x) ==> Finally(c, paths, d, y) == None
    ensures !Eaten(c, d, x) && y == Place(c, d, x) ==> Finally(c, paths, d, y) == c.On(d, x)
  {
    hide Sound, Lists, Finally, Eaten, Doomed, Place, ExpectedAt, PlaceFor;
    if Eaten(c, d, x) {
      EatenIsDoomed(c, paths, d, x, y);
      Vanishes(c, paths, d, y);
    } else if y == Place(c, d, x) {
      if Doomed(c, paths, d, y) {
        DoomedIsEaten(c, paths, d, x, y, d);
      }
      PlacePlanned(c, paths, d, x);
      Stands(c, paths, d, y);
    }
  }

  lemma PlacePlanned(c: Input, paths: seq<Path>, d: Side, x: Path)
    requires Sound(c) && Visits(c, paths) && Edited(c, d, x)
    ensures ExpectedAt(c, Elements(paths), d, Place(c, d, x)) == c.On(d, x) != None
    ensures ExpectedAt(c, Elements(paths), d.Other(), Place(c, d, x)) == c.On(d, x) <==> !Unreplayed(c, d, x)
    ensures Unreplayed(c, d, x) ==> c.Moves(x) && !c.Clashes(x) && c.On(d, x) != Some(DirNode)
  {
    hide Sound, Visits, ExpectedAt, Unreplayed;
    if c.Moves(x) {
      MovedEdit(c, paths, d, x);
    } else {
      OnlyMovesAreUnreplayed(c, d, x);
      PlainEdit(c, paths, d, x, d);
      PlainEdit(c, paths, d, x, d.Other());
    }
  }

  /** The other side has it in the same place unless the rename that brought it there could not be replayed. */
  lemma AwayCell(c: Input, paths: seq<Path>, d: Side, x: Path)
    requires Sound(c) && Visits(c, paths) && Edited(c, d, x)
    ensures Finally(c, paths, d.Other(), Place(c, d, x)) == c.On(d, x) <==> !Unreplayed(c, d, x)
    ensures Unreplayed(c, d, x) ==> !c.Clashes(x) && Place(c, d, x) == x
  {
    hide Sound, Lists, Finally, Doomed, ExpectedAt, Unreplayed, PlaceFor, Eaten;
    var y := Place(c, d, x);
    PlacePlanned(c, paths, d, x);
    PlaceIsFor(c, d, x);
    if Doomed(c, paths, d.Other(), y) {
      DoomedIsEaten(c, paths, d, x, y, d.Other());
    }
    if ExpectedAt(c, Elements(paths), d.Other(), y) != None || c.On(d, y) != Some(DirNode) {
      Stands(c, paths, d.Other(), y);
    }
  }

  lemma PlaceIsFor(c: Input, d: Side, x: Path)
    ensures PlaceFor(c, x, Place(c, d, x))
  {
  }

  lemma NewHere(c: Input, d: Side, x: Path)
    requires c.B(x) == None && c.On(d.Other(), x) == None
    ensures !c.Clashes(x) && Place(c, d, x) == x && PlaceFor(c, x, x)
  {
  }

  /** An edit is on both sides after the pass exactly if no directory above it is dropped and it is not a rename that
      could not be replayed; it is on neither side exactly if both are the case. */
  lemma EditFate(c: Input, paths: seq<Path>, d: Side, x: Path)
    requires Sound(c) && Visits(c, paths) && Edited(c, d, x)
    ensures Kept(c, paths, x, c.On(d, x)) <==> !Eaten(c, d, x) && !Unreplayed(c, d, x)
    ensures Gone(c, paths, x, c.On(d, x)) <==> Eaten(c, d, x) && Unreplayed(c, d, x)
  {
    hide Sound, Lists, Finally, Eaten, Unreplayed, ConflictPath, Place;
    PlaceIsFor(c, d, x);
    HomeCell(c, paths, d, x, x);
    if c.Clashes(x) {
      HomeCell(c, paths, d, x, ConflictPath(x, c.stamp));
    }
    AwayCell(c, paths, d, x);
    assert d == Primary || d == Secondary;
  }

  lemma QuietEatsNothing(c: Input, d: Side, x: Path)
    requires Quiet(c)
    ensures !Eaten(c, d, x)
  {
  }

  lemma FaithfulReplays(c: Input, d: Side, x: Path)
    requires Faithful(c) && Unshared(c)
    ensures !Unreplayed(c, d, x)
  {
    hide Froms;
    forall i: nat | i < |c.Pairs(d.Other())| ensures !Misses(c, d, x, i) {
      NoRepeatAt(c.Pairs(d.Other()), i);
      assert c.Pairs(d.Other())[i] in c.Pairs(d.Other());
    }
  }

  /** In a pass that converges no edit is lost. */
  lemma NoEditLost(c: Input, paths: seq<Path>, d: Side, x: Path)
    requires Sound(c) && Visits(c, paths) && Edited(c, d, x) && Quiet(c) && Faithful(c) && Unshared(c)
    ensures Kept(c, paths, x, c.On(d, x))
  {
    hide Sound, Lists, Quiet, Faithful, Unshared, Kept, Gone, Eaten, Unreplayed;
    EditFate(c, paths, d, x);
    QuietEatsNothing(c, d, x);
    FaithfulReplays(c, d, x);
  }

  // ---- what is dropped goes on both sides

  /** A file or link that one side has deleted and the other not touched is on neither afterwards. */
  lemma DroppedFileGoes(c: Input, paths: seq<Path>, d: Side, x: Path)
    requires Sound(c) && Visits(c, paths) && c.Drops(d, x) && c.On(d, x) != Some(DirNode)
    ensures Finally(c, paths, d, x) == None && Finally(c, paths, d.Other(), x) == None
  {
    hide Sound, Lists, Finally, Doomed, ExpectedAt;
    DroppedPlan(c, paths, d, x);
    if Doomed(c, paths, d.Other(), x) {
      Vanishes(c, paths, d.Other(), x);
    } else {
      Stands(c, paths, d.Other(), x);
    }
    if Doomed(c, paths, d, x) {
      Vanishes(c, paths, d, x);
    } else {
      Stands(c, paths, d, x);
    }
  }

  lemma DroppedPlan(c: Input, paths: seq<Path>, d: Side, x: Path)
    requires Sound(c) && Visits(c, paths) && c.Drops(d, x)
    ensures ExpectedAt(c, Elements(paths), d.Other(), x) == None
    ensures Doomed(c, paths, d, x) || ExpectedAt(c, Elements(paths), d, x) == None
  {
    hide Sound, Lists, Moved, Origin, AllPaths, Consumed;
    AllPathsAt(c, x);
    NoConflictName(c, x);
    if c.Moves(x) {
      DroppedMove(c, d, x);
    } else {
      InPaths(c, paths, x);
      assert TakenWith(c, d, x, x);
    }
  }

  lemma DroppedMove(c: Input, d: Side, x: Path)
    requires Sound(c) && c.Drops(d, x) && c.Moves(x)
    ensures Moved(c, c.On(d, x), c.Pairs(d), x) == None
    ensures Moved(c, c.On(d.Other(), x), c.Pairs(d.Other()), x) == None
  {
    hide Sound, Moved, Consumed;
    PairsDisjoint(c);
    FromsNotTos(c, d);
    var e, r := MovesAt(c, x);
    PairMoves(c, e, r);
    assert r.from in Froms(c.Pairs(e));
    MovedFrom(c, c.On(d, x), c.Pairs(d), x);
    NotOnOther(c, d, x);
    MovedElsewhere(c, c.On(d.Other(), x), c.Pairs(d.Other()), x);
  }

  lemma NotOnOther(c: Input, d: Side, q: Path)
    requires Consumed(c.onPrimary) !! Consumed(c.onSecondary) && q in Froms(c.Pairs(d)) + Tos(c.Pairs(d))
    ensures q !in Consumed(c.Pairs(d.Other()))
  {
    assert q in Consumed(c.Pairs(d));
  }

  // ---- directories that are there only for what lies below them

  lemma FinalTrees(c: Input, paths: seq<Path>, d: Side)
    requires Sound(c) && Visits(c, paths)
    ensures PrefixClosed(PassOutcome(c, paths).w.On(d))
  {
    hide Sound, Lists, PassOutcome, CellEnds, PrefixClosed;
    PassCells(c, paths);
  }

  /** What is brought over stands, and with it every directory above it, also one that d has dropped. */
  lemma EarlyStays(c: Input, paths: seq<Path>, d: Side, x: Path)
    requires Sound(c) && Visits(c, paths) && Faithful(c) && Unshared(c) && Early(c, d, x)
    ensures Finally(c, paths, d, x) == Some(DirNode)
  {
    hide Sound, Lists, Faithful, Unshared, PassOutcome, Unreplayed, PrefixClosed, Place, ConflictPath;
    var q: Path :| BringsBelow(c, d, x, q);
    var y := Place(c, d.Other(), q);
    FaithfulReplays(c, d.Other(), q);
    AwayCell(c, paths, d.Other(), q);
    EditIsRealPath(c, d.Other(), q);
    RootIsNoPath(c, d.Other());
    PlaceBelow(c, d.Other(), x, q);
    FinalTrees(c, paths, d);
    AncestorIsDir(PassOutcome(c, paths).w.On(d), y, x);
  }

  lemma PlaceBelow(c: Input, d: Side, x: Path, q: Path)
    requires x <= q && x != q && x != []
    ensures x <= Place(c, d, q) && Place(c, d, q) != x
  {
    hide ConflictPath;
    OriginOfConflict(q, c.stamp);
    if c.Clashes(q) {
      BelowToo(x, q, ConflictPath(q, c.stamp));
      SameLength(q, ConflictPath(q, c.stamp));
    }
  }

  lemma SameLength(q: Path, y: Path)
    requires q != [] && Parent(q) == Parent(y) && y != q
    ensures y != [] ==> |y| == |q|
  {
  }

  /** Where a pass with faithful and unshared renames ends, exactly. */
  lemma ExactCell(c: Input, paths: seq<Path>, d: Side, x: Path)
    requires Sound(c) && Visits(c, paths) && Faithful(c) && Unshared(c)
    ensures Finally(c, paths, d, x)
         == if Early(c, d, x) then Some(DirNode)
            else if Doomed(c, paths, d, x) then None
            else ExpectedAt(c, Elements(paths), d, x)
  {
    hide Sound, Lists, Faithful, Unshared, PassOutcome, Doomed, Early, ExpectedAt;
    if Early(c, d, x) {
      EarlyStays(c, paths, d, x);
    } else {
      PassCells(c, paths);
      assert CellEnds(c, paths, d, x, At(PassOutcome(c, paths).w.On(d), x));
    }
  }
}

/** What the cases in which a pass does not converge cost in the next pass. */
module NextPass {
  import opened Options
  import opened Model
  import opened Reconcile
  import opened Merge
  import opened CellSteps
  import opened Renames
  import opened Removing
  import opened Convergence
  import opened Edits
  import opened NextInput

  lemma PlaceTarget(c: Input, d: Side, x: Path)
    requires Sound(c) && Edited(c, d, x)
    ensures Target(c, Place(c, d, x)) == c.On(d, x) != None
  {
    hide Sound, ConflictPath, Origin, Merged, Clash, Place;
    EditIsRealPath(c, d, x);
    EditWins(c, d, x);
    PlaceOf(c, d, x);
    OriginOfConflict(x, c.stamp);
    NoConflictName(c, x);
  }

  /** A version that is left on one side only, although the new baseline lists it, is gone from both sides after the
      next pass. */
  lemma LeftoverGoes(c: Input, paths: seq<Path>, c': Input, paths': seq<Path>, d: Side, y: Path)
    requires Sound(c) && Visits(c, paths) && Follows(c, paths, c') && Scanned(c') && Visits(c', paths')
    requires Finally(c, paths, d, y) == Target(c, y) != None && Target(c, y) != Some(DirNode)
    requires Finally(c, paths, d.Other(), y) == None
    ensures Finally(c', paths', Primary, y) == None && Finally(c', paths', Secondary, y) == None
  {
    hide Sound, Lists, Target, Follows, Scanned, PassOutcome, PassEffect;
    FollowsAt(c, paths, c', d, y);
    FollowsAt(c, paths, c', d.Other(), y);
    BaselineCell(c, paths, y);
    NextIsSound(c, paths, c');
    DroppedFileGoes(c', paths', d, y);
    assert d == Primary || d == Secondary;
  }

  /** Something created or edited below a directory that the other side has deleted: the pass brings it to the other
      side and removes it together with the directory where it was made, and the next merge drops it there too; after
      the next pass neither side has it, if it is a file or link. */
  lemma NewsAreDeletedLater(c: Input, paths: seq<Path>, d: Side, x: Path, c': Input, paths': seq<Path>)
    requires Sound(c) && Visits(c, paths) && Follows(c, paths, c') && Scanned(c') && Visits(c', paths')
    requires Edited(c, d, x) && Eaten(c, d, x) && !Unreplayed(c, d, x)
    ensures var y := Place(c, d, x);
      && Finally(c, paths, d, y) == None && Finally(c, paths, d.Other(), y) == c.On(d, x)
      && c'.Drops(d.Other(), y) && c'.Merge(y) == None
      && (c.On(d, x) != Some(DirNode)
        ==> Finally(c', paths', Primary, y) == None && Finally(c', paths', Secondary, y) == None)
  {
    hide Sound, Lists, Target, Follows, Scanned, PassOutcome, PassEffect, Place, Eaten, Unreplayed;
    var y := Place(c, d, x);
    PlaceIsFor(c, d, x);
    HomeCell(c, paths, d, x, y);
    AwayCell(c, paths, d, x);
    PlaceTarget(c, d, x);
    FollowsAt(c, paths, c', d, y);
    FollowsAt(c, paths, c', d.Other(), y);
    BaselineCell(c, paths, y);
    if c.On(d, x) != Some(DirNode) {
      LeftoverGoes(c, paths, c', paths', d.Other(), y);
    }
  }

  /** The new name of a rename made on d: there it stands, and on the other side the old version, if it was still
      there to be renamed. */
  lemma RenamedCells(c: Input, paths: seq<Path>, d: Side, i: nat)
    requires Sound(c) && Visits(c, paths) && i < |c.Pairs(d.Other())|
    requires !Eaten(c, d, c.Pairs(d.Other())[i].to)
    ensures var r := c.Pairs(d.Other())[i];
      && Edited(c, d, r.to) && !c.Clashes(r.to) && c.On(d, r.to) != Some(DirNode) && Target(c, r.to) == c.On(d, r.to)
      && Finally(c, paths, d, r.to) == c.On(d, r.to)
      && Finally(c, paths, d.Other(), r.to) == if r.from in Froms(c.Pairs(d.Other())[..i]) then None else c.B(r.from)
  {
    hide Sound, Lists, Target, Finally, Eaten, Froms, Doomed, Moved, Place, Origin;
    var r := c.Pairs(d.Other())[i];
    PairFits(c, d.Other(), r);
    PairMoves(c, d.Other(), r);
    NewHere(c, d, r.to);
    PlaceTarget(c, d, r.to);
    HomeCell(c, paths, d, r.to, r.to);
    if Doomed(c, paths, d.Other(), r.to) {
      DoomedIsEaten(c, paths, d, r.to, r.to, d.Other());
    }
    MovedTarget(c, d.Other(), i);
    Stands(c, paths, d.Other(), r.to);
  }

  /** A rename that came with an edit of equal size: the pass leaves the old version under the new name on the other
      side, and the next pass takes it for the newer one and brings it back to where the edit was made. */
  lemma EditIsReverted(c: Input, paths: seq<Path>, d: Side, i: nat, c': Input, paths': seq<Path>)
    requires Sound(c) && Visits(c, paths) && Follows(c, paths, c') && Scanned(c') && Visits(c', paths')
    requires i < |c.Pairs(d.Other())| && c.Pairs(d.Other())[i].from !in Froms(c.Pairs(d.Other())[..i])
    requires var r := c.Pairs(d.Other())[i]; c.On(d, r.to) != c.B(r.from) && !Eaten(c, d, r.to)
    ensures var r := c.Pairs(d.Other())[i];
      && Finally(c, paths, d, r.to) == c.On(d, r.to) && Finally(c, paths, d.Other(), r.to) == c.B(r.from)
      && Finally(c', paths', Primary, r.to) == c.B(r.from) && Finally(c', paths', Secondary, r.to) == c.B(r.from)
  {
    hide Sound, Lists, Target, PassOutcome, PassEffect, Follows, Scanned, Eaten, Froms;
    var r := c.Pairs(d.Other())[i];
    RenamedCells(c, paths, d, i);
    PairFits(c, d.Other(), r);
    BaselineCell(c, paths, r.to);
    FollowsAt(c, paths, c', d, r.to);
    FollowsAt(c, paths, c', d.Other(), r.to);
    NextIsSound(c, paths, c');
    OnlyEditWins(c', paths', d.Other(), r.to);
  }

  /** An edit of a path that the other side still has as the baseline knows it comes to both sides. */
  lemma OnlyEditWins(c: Input, paths: seq<Path>, d: Side, x: Path)
    requires Sound(c) && Visits(c, paths) && Edited(c, d, x) && c.On(d.Other(), x) == c.B(x) != None
    ensures Finally(c, paths, Primary, x) == c.On(d, x) && Finally(c, paths, Secondary, x) == c.On(d, x)
  {
    hide Sound, Lists, Finally, Eaten, Unreplayed, Place;
    BothThere(c, d, x);
    OnlyMovesAreUnreplayed(c, d, x);
    NoClashHere(c, d, x);
    HomeCell(c, paths, d, x, x);
    AwayCell(c, paths, d, x);
    assert d == Primary || d == Secondary;
  }

  lemma NoClashHere(c: Input, d: Side, x: Path)
    requires c.On(d.Other(), x) == c.B(x)
    ensures !c.Clashes(x) && Place(c, d, x) == x && PlaceFor(c, x, x)
  {
  }

  lemma BothThere(c: Input, d: Side, x: Path)
    requires Sound(c) && c.On(d, x) != None && c.On(d.Other(), x) != None && c.B(x) != None
    ensures !Eaten(c, d, x) && !c.Moves(x)
  {
    hide Sound, Consumed;
    TreesSound(c, d.Other());
    RootIsNoPath(c, d);
    forall a: Path ensures !Disturbed(c, d, a, x) {
      if a != [] && a <= x && a != x {
        DirAboveOn(c, d.Other(), x, a);
      }
    }
    if c.Moves(x) {
      var e, r := MovesAt(c, x);
    }
  }

  /** Two new names with the inode of one vanished file: only the first rename finds it, and after the next pass neither
      side has the second file. */
  lemma SecondLinkIsDeleted(c: Input, paths: seq<Path>, d: Side, i: nat, c': Input, paths': seq<Path>)
    requires Sound(c) && Visits(c, paths) && Follows(c, paths, c') && Scanned(c') && Visits(c', paths')
    requires i < |c.Pairs(d.Other())| && c.Pairs(d.Other())[i].from in Froms(c.Pairs(d.Other())[..i])
    requires !Eaten(c, d, c.Pairs(d.Other())[i].to)
    ensures var y := c.Pairs(d.Other())[i].to;
      && Finally(c, paths, d, y) == c.On(d, y) && Finally(c, paths, d.Other(), y) == None
      && Finally(c', paths', Primary, y) == None && Finally(c', paths', Secondary, y) == None
  {
    hide Sound, Lists, Target, Finally, Follows, Scanned, Eaten, Froms;
    RenamedCells(c, paths, d, i);
    LeftoverGoes(c, paths, c', paths', d, c.Pairs(d.Other())[i].to);
  }
}

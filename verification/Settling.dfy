/** How many passes it takes until nothing is left to do, when nothing changes in between. */
module Settling {
  import opened Options
  import opened Model
  import opened FileTree
  import opened Reconcile
  import opened Merge
  import opened CellSteps
  import opened Renames
  import opened Units
  import opened Removing
  import opened Convergence
  import opened Edits
  import opened NextInput
  import opened Passes
  import opened Service

  // ---- what a side may hold that the new baseline does not say

  /** A directory that the new baseline does not list is one the other side still had, made for something below it. */
  lemma StrayDirIsEarly(c: Input, paths: seq<Path>, d: Side, x: Path)
    requires Sound(c) && Visits(c, paths)
    requires Finally(c, paths, d, x) == Some(DirNode) && Target(c, x) != Some(DirNode)
    ensures c.On(d.Other(), x) == Some(DirNode) == c.B(x) && c.On(d, x) == None
  {
    hide Sound, Lists, PassOutcome, Doomed, ExpectedAt, Target, Consumed, Moved;
    PassCells(c, paths);
    assert CellEnds(c, paths, d, x, At(PassOutcome(c, paths).w.On(d), x));
    PlanKind(c, paths, d, x);
    if c.Moves(x) {
      MovedPlan(c, paths, d, x);
    } else {
      PlanIsTarget(c, paths, d, x);
    }
    DirTarget(c, d.Other(), x);
  }

  lemma MovedPlan(c: Input, paths: seq<Path>, d: Side, x: Path)
    requires Sound(c) && c.Moves(x)
    ensures ExpectedAt(c, Elements(paths), d, x) != Some(DirNode)
    ensures c.On(Primary, x) != Some(DirNode) && c.On(Secondary, x) != Some(DirNode)
  {
    hide Sound, Consumed, Moved;
    MovedKind(c, d, x);
    var e, r := MovesAt(c, x);
  }

  /** What becomes of a directory. */
  lemma DirTarget(c: Input, d: Side, x: Path)
    requires Sound(c) && c.On(d, x) == Some(DirNode)
    ensures Target(c, x) == c.Merge(x) && x != [] && !c.Moves(x) && OnlyDir(c, x)
    ensures Target(c, x) != Some(DirNode) <==> c.B(x) == Some(DirNode) && c.On(d.Other(), x) == None
  {
    hide Sound, Origin, Consumed;
    RootIsNoPath(c, d);
    AllPathsAt(c, x);
    NoConflictName(c, x);
    AgreeAt(c, x);
    if c.Moves(x) {
      var e, r := MovesAt(c, x);
    }
  }

  /** A renamed path holds nothing or what the new baseline says, if no rename came with an edit. */
  lemma MovedStays(c: Input, paths: seq<Path>, d: Side, x: Path)
    requires Sound(c) && Visits(c, paths) && Faithful(c) && c.Moves(x)
    ensures Finally(c, paths, d, x) == None || Finally(c, paths, d, x) == Target(c, x)
  {
    hide Sound, Lists, PassOutcome, Target, Consumed, Froms, Moved, Doomed;
    var e, r := MovesAt(c, x);
    AllPathsAt(c, x);
    NoConflictName(c, x);
    if x == r.from {
      MovedCells(c, paths, x);
    } else if d == e {
      var i := PairIndex(c.Pairs(d), r);
      PairCell(c, paths, d, i);
    } else {
      PairsDisjoint(c);
      NotConsumedTwice(c, e, r);
      MovedElsewhere(c, c.On(d, x), c.Pairs(d), x);
      PassCells(c, paths);
      assert CellEnds(c, paths, d, x, At(PassOutcome(c, paths).w.On(d), x));
    }
  }

  lemma NotConsumedTwice(c: Input, e: Side, r: Renamed)
    requires Consumed(c.onPrimary) !! Consumed(c.onSecondary) && r in c.Pairs(e)
    ensures r.to !in Consumed(c.Pairs(e.Other()))
  {
    assert r.to in Tos(c.Pairs(e));
    assert r.to in Consumed(c.Pairs(e));
  }

  lemma StrayIsDir(c: Input, paths: seq<Path>, d: Side, x: Path)
    requires Sound(c) && Visits(c, paths) && Faithful(c)
    requires Finally(c, paths, d, x) != None && Finally(c, paths, d, x) != Target(c, x)
    ensures Finally(c, paths, d, x) == Some(DirNode) && Target(c, x) != Some(DirNode)
  {
    hide Sound, Lists, PassOutcome, Doomed, ExpectedAt, Target, Consumed, Faithful;
    PassCells(c, paths);
    assert CellEnds(c, paths, d, x, At(PassOutcome(c, paths).w.On(d), x));
    if c.Moves(x) {
      MovedStays(c, paths, d, x);
    } else {
      PlanIsTarget(c, paths, d, x);
    }
  }

  /** A directory that the new baseline lists and its side no longer has went with one above it. */
  lemma LostDir(c: Input, paths: seq<Path>, d: Side, a: Path) returns (p: Path)
    requires Sound(c) && Visits(c, paths)
    requires c.On(d, a) == Some(DirNode) == Target(c, a) && Finally(c, paths, d, a) == None
    ensures p != [] && p <= a && p != a && c.Drops(d, p) && c.On(d, p) == Some(DirNode)
  {
    hide Sound, Lists, PassOutcome, ExpectedAt, Target, Consumed;
    DirTarget(c, d, a);
    PassCells(c, paths);
    assert CellEnds(c, paths, d, a, At(PassOutcome(c, paths).w.On(d), a));
    if !Doomed(c, paths, d, a) {
      PlanIsTarget(c, paths, d, a);
      assert false;
    }
    p :| p in paths && TakenWith(c, d, p, a);
    RootIsNoPath(c, d);
  }

  // ---- why directories may still hold news

  /** d drops the directory p and holds below it a directory a that the baseline does not list, and below that the
      directory x that it does. */
  predicate Gap(c: Input, d: Side, p: Path, a: Path, x: Path) {
    && p != [] && a != [] && p <= a && p != a && a <= x && a != x
    && c.Drops(d, p) && c.On(d, p) == Some(DirNode)
    && c.B(a) == None && c.On(d, a) == Some(DirNode)
    && c.B(x) == Some(DirNode) == c.On(d, x)
  }

  /** Where no rename came with an edit, the next pass meets a deleted directory with news only if there is a gap
      now. */
  lemma DisturbedByGap(c: Input, paths: seq<Path>, c': Input, d: Side, a: Path, x: Path) returns (p: Path)
    requires Sound(c) && Visits(c, paths) && Faithful(c) && Follows(c, paths, c') && Scanned(c')
    requires Disturbed(c', d, a, x)
    ensures Gap(c, d.Other(), p, a, x)
  {
    hide Sound, Lists, Follows, Scanned, Finally, Target, Faithful;
    var o := d.Other();
    NextIsSound(c, paths, c');
    RootIsNoPath(c', d);
    NextCells(c, paths, c', a);
    NextCells(c, paths, c', x);
    StrayIsDir(c, paths, d, x);
    StrayDirIsEarly(c, paths, d, x);
    TreesSound(c, o);
    DirAboveOn(c, o, x, a);
    p := LostDir(c, paths, o, a);
    DirTarget(c, o, a);
    TreesSound(c, d);
    if c.On(d, a) != None {
      DirAboveOn(c, d, a, p);
    }
  }

  lemma ClosedHasNoGap(c: Input, d: Side, p: Path, a: Path, x: Path)
    requires PrefixClosed(Nodes(c.b))
    ensures !Gap(c, d, p, a, x)
  {
    if Gap(c, d, p, a, x) {
      BaseAbove(c, x, a);
    }
  }

  lemma BaseAbove(c: Input, x: Path, a: Path)
    requires PrefixClosed(Nodes(c.b)) && c.B(x) != None && a != [] && a <= x && a != x
    ensures c.B(a) == Some(DirNode)
  {
    NodesAt(c.b, a);
    AncestorIsDir(Nodes(c.b), x, a);
  }

  /** A pass on a prefix-closed baseline may leave one that is not, but no gap. */
  lemma NextHasNoGap(c: Input, paths: seq<Path>, c': Input, d: Side, p: Path, a: Path, x: Path)
    requires Sound(c) && Visits(c, paths) && Follows(c, paths, c') && PrefixClosed(Nodes(c.b))
    ensures !Gap(c', d, p, a, x)
  {
    hide Sound, Lists, Follows, Finally, Target, PrefixClosed;
    if Gap(c', d, p, a, x) {
      var o := d.Other();
      NextCells(c, paths, c', p);
      NextCells(c, paths, c', a);
      StrayDirIsEarly(c, paths, d, a);
      TreesSound(c, o);
      DirAboveOn(c, o, a, p);
      BaseAbove(c, a, p);
      DirTarget(c, o, p);
      var p' := LostDir(c, paths, o, p);
      TreesSound(c, d);
      DirAboveOn(c, d, p, p');
      assert false;
    }
  }

  lemma QuietNext(c: Input, paths: seq<Path>, c': Input)
    requires Sound(c) && Visits(c, paths) && Faithful(c) && Follows(c, paths, c') && Scanned(c')
    requires forall d: Side, p: Path, a: Path, x: Path :: !Gap(c, d, p, a, x)
    ensures Quiet(c')
  {
    hide Sound, Lists, Follows, Scanned, Faithful, Disturbed, Gap;
    forall d: Side, a: Path, x: Path ensures !Disturbed(c', d, a, x) {
      if Disturbed(c', d, a, x) {
        var p := DisturbedByGap(c, paths, c', d, a, x);
      }
    }
  }

  // ---- how many passes

  /** The third pass has something to do exactly if the second one met a deleted directory that holds news. */
  lemma ThirdPassExactly(c: Input, ps: seq<Path>, c1: Input, ps1: seq<Path>, c2: Input, ps2: seq<Path>)
    requires Sound(c) && Visits(c, ps) && Follows(c, ps, c1) && Scanned(c1) && Visits(c1, ps1)
    requires Follows(c1, ps1, c2) && Scanned(c2) && Visits(c2, ps2)
    ensures PassEffect(c2, ps2).ops == [] <==> Quiet(c1)
  {
    hide Sound, Lists, Follows, Scanned, Disturbed, PassEffect, Finally, Place, Unreplayed, Eaten;
    NextIsSound(c, ps, c1);
    NextIsSound(c1, ps1, c2);
    NextHasNoRenames(c, ps, c1);
    if Quiet(c1) {
      SecondPassIdle(c1, ps1, c2, ps2);
    } else {
      var d, a, x :| Disturbed(c1, d, a, x);
      NewsDiffer(c1, ps1, d, a, x);
      var y := Place(c1, d, x);
      NextCells(c1, ps1, c2, y);
      assert d == Primary || d == Secondary;
      if PassEffect(c2, ps2).ops == [] {
        SilentCell(c2, ps2, y);
      }
    }
  }

  /** News below a deleted directory end on the other side only. */
  lemma NewsDiffer(c: Input, paths: seq<Path>, d: Side, a: Path, x: Path)
    requires Sound(c) && Visits(c, paths) && Disturbed(c, d, a, x) && Faithful(c) && Unshared(c)
    ensures var y := Place(c, d, x); Finally(c, paths, d, y) == None && Finally(c, paths, d.Other(), y) != None
  {
    hide Sound, Lists, Finally, Place, Faithful, Unshared;
    IsEaten(c, d, a, x);
    PlaceIsFor(c, d, x);
    HomeCell(c, paths, d, x, Place(c, d, x));
    FaithfulReplays(c, d, x);
    AwayCell(c, paths, d, x);
  }

  lemma IsEaten(c: Input, d: Side, a: Path, x: Path)
    requires Disturbed(c, d, a, x)
    ensures Eaten(c, d, x) && Edited(c, d, x)
  {
  }

  /** With a prefix-closed baseline, no change meanwhile and no rename that came with an edit, two passes make both
      sides and the baseline agree, and the third does nothing. */
  lemma TwoPassesSettle(c: Input, ps: seq<Path>, c1: Input, ps1: seq<Path>, c2: Input, ps2: seq<Path>)
    requires Sound(c) && Visits(c, ps) && PrefixClosed(Nodes(c.b)) && Faithful(c)
    requires Follows(c, ps, c1) && Scanned(c1) && Visits(c1, ps1)
    requires Follows(c1, ps1, c2) && Scanned(c2) && Visits(c2, ps2)
    ensures Agreed(c1, ps1) && PassEffect(c2, ps2).ops == [] && PassEffect(c2, ps2).conflicts == 0
  {
    hide Sound, Lists, Follows, Scanned, Quiet, PassEffect, Finally, Gap, PrefixClosed, Agreed, Faithful;
    forall d: Side, p: Path, a: Path, x: Path ensures !Gap(c, d, p, a, x) {
      ClosedHasNoGap(c, d, p, a, x);
    }
    QuietNext(c, ps, c1);
    SettlesOnceQuiet(c, ps, c1, ps1, c2, ps2);
  }

  lemma SettlesOnceQuiet(c: Input, ps: seq<Path>, c1: Input, ps1: seq<Path>, c2: Input, ps2: seq<Path>)
    requires Sound(c) && Visits(c, ps) && Follows(c, ps, c1) && Scanned(c1) && Visits(c1, ps1) && Quiet(c1)
    requires Follows(c1, ps1, c2) && Scanned(c2) && Visits(c2, ps2)
    ensures Agreed(c1, ps1) && PassEffect(c2, ps2).ops == [] && PassEffect(c2, ps2).conflicts == 0
  {
    hide Sound, Lists, Follows, Scanned, Quiet, PassEffect, Agreed, PassOutcome, Faithful, Unshared;
    NextIsSound(c, ps, c1);
    NextHasNoRenames(c, ps, c1);
    PassConverges(c1, ps1);
    SecondPassIdle(c1, ps1, c2, ps2);
  }

  /** Whatever the renames were: with a prefix-closed baseline and no change meanwhile, three passes make both sides and
      the baseline agree, and the fourth does nothing. */
  lemma ThreePassesSettle(c: Input, ps: seq<Path>, c1: Input, ps1: seq<Path>, c2: Input, ps2: seq<Path>, c3: Input,
                          ps3: seq<Path>)
    requires Sound(c) && Visits(c, ps) && PrefixClosed(Nodes(c.b))
    requires Follows(c, ps, c1) && Scanned(c1) && Visits(c1, ps1)
    requires Follows(c1, ps1, c2) && Scanned(c2) && Visits(c2, ps2)
    requires Follows(c2, ps2, c3) && Scanned(c3) && Visits(c3, ps3)
    ensures Agreed(c2, ps2) && PassEffect(c3, ps3).ops == [] && PassEffect(c3, ps3).conflicts == 0
  {
    hide Sound, Lists, Follows, Scanned, Quiet, PassEffect, Finally, Gap, PrefixClosed, Agreed, Faithful, Unshared;
    NextIsSound(c, ps, c1);
    NextHasNoRenames(c, ps, c1);
    forall d: Side, p: Path, a: Path, x: Path ensures !Gap(c1, d, p, a, x) {
      NextHasNoGap(c, ps, c1, d, p, a, x);
    }
    QuietNext(c1, ps1, c2);
    SettlesOnceQuiet(c1, ps1, c2, ps2, c3, ps3);
  }
}

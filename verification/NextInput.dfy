/** What a pass leaves behind is again an input the theorems speak about, and one without renames. */
module NextInput {
  import opened Options
  import opened Model
  import opened Reconcile
  import opened Executor
  import opened Merge
  import opened CellSteps
  import opened Renames
  import opened Units
  import opened Removing
  import opened Convergence
  import opened Edits

  /** c' is a pass on what c has left: its baseline is the one c recorded, its trees are scans of where c ended. */
  ghost predicate Follows(c: Input, paths: seq<Path>, c': Input)
    requires NoRoot(paths)
  {
    c'.b == PassEffect(c, paths).base && World(Nodes(c'.p), Nodes(c'.s)) == PassOutcome(c, paths).w
  }

  /** The pass has looked for renames itself, and its time stamp makes conflict names that are free. */
  ghost predicate Scanned(c: Input) {
    && FreshNames(c)
    && Detected(c.b, c.p, c.s, c.onPrimary) && Detected(c.b, c.s, c.p, c.onSecondary)
  }

  lemma FollowsAt(c: Input, paths: seq<Path>, c': Input, d: Side, x: Path)
    requires NoRoot(paths) && Follows(c, paths, c')
    ensures c'.On(d, x) == Finally(c, paths, d, x) && c'.B(x) == NodeAt(PassEffect(c, paths).base, x)
  {
    hide PassOutcome, PassEffect;
    NodesAt(c'.p, x);
    NodesAt(c'.s, x);
    assert World(Nodes(c'.p), Nodes(c'.s)).On(d) == Nodes(c'.Tree(d));
  }

  /** The three cells of x in the next input. */
  lemma NextCells(c: Input, paths: seq<Path>, c': Input, x: Path)
    requires Sound(c) && Visits(c, paths) && Follows(c, paths, c')
    ensures c'.B(x) == Target(c, x)
    ensures forall d: Side :: c'.On(d, x) == Finally(c, paths, d, x)
  {
    hide Sound, Lists, Follows, PassEffect, Finally, Target;
    BaselineCell(c, paths, x);
    FollowsAt(c, paths, c', Primary, x);
    forall d: Side ensures c'.On(d, x) == Finally(c, paths, d, x) {
      FollowsAt(c, paths, c', d, x);
    }
  }

  // ---- directories stay directories

  predicate DirOrNone(v: Option<Node>) {
    v == None || v == Some(DirNode)
  }

  lemma LoserIsNoDir(c: Input, q: Path)
    requires Sound(c) && c.Clashes(q)
    ensures c.Loser(q) != Some(DirNode)
  {
    AgreeAt(c, q);
  }

  lemma OutsideKind(c: Input, paths: seq<Path>, d: Side, x: Path)
    requires Sound(c) && x !in AllPaths(c.b, c.p, c.s)
    ensures ExpectedAt(c, Elements(paths), d, x) != Some(DirNode) && Target(c, x) != Some(DirNode)
  {
    hide Sound, Moved, Consumed, ConflictPath, AllPaths, Merged, Clash;
    AllPathsAt(c, x);
    NothingMerged(c, x);
    if c.Moves(x) {
      var e, r := MovesAt(c, x);
    }
    if Origin(x, c.stamp) != None && c.Clashes(Origin(x, c.stamp).value) {
      LoserIsNoDir(c, Origin(x, c.stamp).value);
    }
  }

  lemma MovedKind(c: Input, d: Side, x: Path)
    requires Sound(c) && c.Moves(x)
    ensures Moved(c, c.On(d, x), c.Pairs(d), x) != Some(DirNode) && c.Merge(x) != Some(DirNode) && !OnlyDir(c, x)
  {
    hide Sound, Moved, Consumed;
    var e, r := MovesAt(c, x);
    MovedIsFile(c, d, x, c.Pairs(d));
  }

  lemma {:induction false} MovedIsFile(c: Input, d: Side, x: Path, pairs: seq<Renamed>)
    requires Sound(c) && c.On(d, x) != Some(DirNode) && forall r :: r in pairs ==> r in c.Pairs(d)
    ensures Moved(c, c.On(d, x), pairs, x) != Some(DirNode)
  {
    hide Sound, Froms;
    if pairs != [] {
      var r := pairs[|pairs| - 1];
      assert r in pairs;
      PairFits(c, d, r);
      MovedIsFile(c, d, x, pairs[..|pairs| - 1]);
    }
  }

  /** What is planned for a path, and what the new baseline says about it, is a directory only where one was. */
  lemma PlanKind(c: Input, paths: seq<Path>, d: Side, x: Path)
    requires Sound(c)
    ensures NoDir(c, x) ==> ExpectedAt(c, Elements(paths), d, x) != Some(DirNode) && Target(c, x) != Some(DirNode)
    ensures !NoDir(c, x) ==> OnlyDir(c, x) && DirOrNone(ExpectedAt(c, Elements(paths), d, x)) && DirOrNone(Target(c, x))
  {
    hide Sound, Moved, Consumed, Origin, ConflictPath, AllPaths, Clash;
    AllPathsAt(c, x);
    AgreeAt(c, x);
    if x !in AllPaths(c.b, c.p, c.s) {
      OutsideKind(c, paths, d, x);
    } else {
      NoConflictName(c, x);
      if c.Moves(x) {
        MovedKind(c, d, x);
      }
    }
  }

  lemma FinalKind(c: Input, paths: seq<Path>, d: Side, x: Path)
    requires Sound(c) && Visits(c, paths)
    ensures NoDir(c, x) ==> Finally(c, paths, d, x) != Some(DirNode)
    ensures !NoDir(c, x) ==> DirOrNone(Finally(c, paths, d, x))
  {
    hide Sound, Lists, PassOutcome, ExpectedAt, Doomed, Target;
    PlanKind(c, paths, d, x);
    PassCells(c, paths);
    assert CellEnds(c, paths, d, x, At(PassOutcome(c, paths).w.On(d), x));
  }

  lemma DirsStillAgree(c: Input, paths: seq<Path>, c': Input)
    requires Sound(c) && Visits(c, paths) && Follows(c, paths, c')
    ensures DirsAgree(c')
  {
    hide Sound, Lists, Follows, Finally, Target;
    forall q: Path ensures NoDir(c', q) || OnlyDir(c', q) {
      NextCells(c, paths, c', q);
      PlanKind(c, paths, Primary, q);
      FinalKind(c, paths, Primary, q);
      FinalKind(c, paths, Secondary, q);
    }
  }

  /** The input of the next pass is sound: nothing has to be assumed about it but its own scan and time stamp. */
  lemma NextIsSound(c: Input, paths: seq<Path>, c': Input)
    requires Sound(c) && Visits(c, paths) && Follows(c, paths, c') && Scanned(c')
    ensures Sound(c')
  {
    hide Lists, DirsAgree, Detected, FreshNames, PrefixClosed, PassOutcome, Target, PassEffect;
    DirsStillAgree(c, paths, c');
    NextCells(c, paths, c', []);
    RootIsNoPath(c, Primary);
    RootTarget(c);
    FinalTrees(c, paths, Primary);
    FinalTrees(c, paths, Secondary);
    assert PassOutcome(c, paths).w.On(Primary) == Nodes(c'.p) && PassOutcome(c, paths).w.On(Secondary) == Nodes(c'.s);
  }

  lemma RootTarget(c: Input)
    requires c.Merge([]) == None
    ensures Target(c, []) == None
  {
  }

  // ---- no renames are found

  lemma RenamedIsNew(b: Tree, changed: Tree, other: Tree, rs: seq<Renamed>)
    requires Detected(b, changed, other, rs) && rs != []
    ensures rs[0].to in changed.Keys && rs[0].to !in b.Keys && changed[rs[0].to].kind == File
  {
    hide Detected;
    DetectedPair(b, changed, other, rs, rs[0]);
  }

  /** A path that a rename has settled holds nothing, or it is the new name. */
  lemma MovedCells(c: Input, paths: seq<Path>, x: Path)
    requires Sound(c) && Visits(c, paths) && c.Moves(x) && Target(c, x) == None
    ensures forall d: Side :: Finally(c, paths, d, x) == None
  {
    hide Sound, Lists, Finally, Consumed, Origin;
    var e, r := MovesAt(c, x);
    NoConflictName(c, x);
    DroppedFileGoes(c, paths, e, x);
    forall d: Side ensures Finally(c, paths, d, x) == None {
      assert d == e || d == e.Other();
    }
  }

  lemma PlanIsTarget(c: Input, paths: seq<Path>, d: Side, x: Path)
    requires Sound(c) && Visits(c, paths) && !c.Moves(x) && !Doomed(c, paths, d, x)
    ensures ExpectedAt(c, Elements(paths), d, x) == Target(c, x)
  {
    hide Sound, Lists, Origin, ConflictPath, AllPaths, Merged, Clash, Consumed, Doomed, Moved;
    if x in AllPaths(c.b, c.p, c.s) {
      NoConflictName(c, x);
      NotDropped(c, paths, d, x);
    } else {
      OutsideTarget(c, paths, d, x);
    }
  }

  /** Every file or link that a side has after the pass is in the new baseline. */
  lemma FilesAreRecorded(c: Input, paths: seq<Path>, d: Side, x: Path)
    requires Sound(c) && Visits(c, paths)
    requires Finally(c, paths, d, x) != None && Finally(c, paths, d, x) != Some(DirNode)
    ensures Target(c, x) != None
  {
    hide Sound, Lists, PassOutcome, Doomed, ExpectedAt, Target, Consumed;
    PassCells(c, paths);
    assert CellEnds(c, paths, d, x, At(PassOutcome(c, paths).w.On(d), x));
    if c.Moves(x) {
      if Target(c, x) == None {
        MovedCells(c, paths, x);
      }
    } else {
      PlanIsTarget(c, paths, d, x);
    }
  }

  lemma NextSideRenames(c: Input, paths: seq<Path>, c': Input, d: Side)
    requires Sound(c) && Visits(c, paths) && Follows(c, paths, c') && Scanned(c')
    ensures c'.Pairs(d.Other()) == []
  {
    hide Sound, Lists, Follows, Finally, Target, Detected;
    var rs := c'.Pairs(d.Other());
    if rs != [] {
      assert Detected(c'.b, c'.Tree(d), c'.Tree(d.Other()), rs);
      RenamedIsNew(c'.b, c'.Tree(d), c'.Tree(d.Other()), rs);
      NextCells(c, paths, c', rs[0].to);
      FilesAreRecorded(c, paths, d, rs[0].to);
      assert false;
    }
  }

  /** With no change in between, a pass that follows another finds no renames. */
  lemma NextHasNoRenames(c: Input, paths: seq<Path>, c': Input)
    requires Sound(c) && Visits(c, paths) && Follows(c, paths, c') && Scanned(c')
    ensures c'.onPrimary == [] && c'.onSecondary == [] && Faithful(c') && Unshared(c')
  {
    hide Sound, Lists, Follows, Scanned;
    NextSideRenames(c, paths, c', Primary);
    NextSideRenames(c, paths, c', Secondary);
    assert forall d: Side :: c'.Pairs(d) == [];
  }
}

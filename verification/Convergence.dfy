/** One pass of the two-way service as a whole: merge, apply, new baseline. */
module Convergence {
  import opened Options
  import opened Model
  import opened FileTree
  import opened Reconcile
  import opened Executor
  import opened Merge
  import opened CellSteps
  import opened Renames
  import opened Units
  import opened Removing

  function PassEffect(c: Input, paths: seq<Path>): Effect
    requires NoRoot(paths)
  {
    MergeEffect(c.b, c.p, c.s, c.stamp, c.onPrimary, c.onSecondary, paths)
  }

  /** The trees after the operations of the pass have been applied to the trees that were scanned. */
  function PassOutcome(c: Input, paths: seq<Path>): Outcome
    requires NoRoot(paths)
  {
    InOrder(World(Nodes(c.p), Nodes(c.s)), PassEffect(c, paths).ops)
  }

  /** A rename did not go along with a change of content that kept the size. */
  ghost predicate Faithful(c: Input) {
    forall d: Side, r: Renamed :: r in c.Pairs(d) ==> c.On(d.Other(), r.to) == c.B(r.from)
  }

  /** No two new files of a side claim to be the same renamed file. */
  predicate Unshared(c: Input) {
    Repeats(c.onPrimary) == 0 && Repeats(c.onSecondary) == 0
  }

  // ---- the creating half

  lemma PassOps(c: Input, paths: seq<Path>)
    requires NoRoot(paths)
    ensures var ops := PassEffect(c, paths).ops;
      && Creates(ops) == RenameOps(Secondary, c.onPrimary) + RenameOps(Primary, c.onSecondary) + CreatesOf(c, paths)
      && Removals(ops) == RemovalsOf(c, paths)
  {
    hide PathsEffect, Creates, Removals;
    var x, y, z := RenameOps(Secondary, c.onPrimary), RenameOps(Primary, c.onSecondary),
      PathsEffect(c.b, c.p, c.s, c.stamp, paths).ops;
    NoDeletes(x);
    NoDeletes(y);
    SplitConcat(x, y);
    SplitConcat(x + y, z);
    assert [] + [] + Removals(z) == Removals(z);
  }

  lemma StartHolds(c: Input)
    requires Sound(c)
    ensures Holds(c, Start(c), World(Nodes(c.p), Nodes(c.s))) && Sane(c, Start(c))
  {
    hide PrefixClosed, Detected, FreshNames;
    forall d: Side, x: Path ensures At(World(Nodes(c.p), Nodes(c.s)).On(d), x) == c.On(d, x) {
      NodesAt(c.Tree(d), x);
    }
    forall d: Side, a: Path | c.On(d.Other(), a) == Some(DirNode)
      ensures c.On(d, a) == None || c.On(d, a) == Some(DirNode) {
      AgreeAt(c, a);
    }
  }

  function AllRenamed(c: Input): Plan {
    Renaming(c, Renaming(c, Start(c), Secondary, c.onPrimary), Primary, c.onSecondary)
  }

  lemma AllRenamedIsExpected(c: Input, d: Side, x: Path)
    ensures AllRenamed(c)(d, x) == Expected(c, {})(d, x)
  {
    hide Moved, Consumed;
    if !c.Moves(x) {
      MovedElsewhere(c, c.On(d, x), c.Pairs(d), x);
    }
  }

  lemma RenamesRun(c: Input)
    requires Sound(c)
    ensures var r := ExecAll(World(Nodes(c.p), Nodes(c.s)),
                             RenameOps(Secondary, c.onPrimary) + RenameOps(Primary, c.onSecondary));
      r.errs == Repeats(c.onPrimary) + Repeats(c.onSecondary) && Holds(c, Expected(c, {}), r.w)
  {
    hide Sound, Quiet, Holds, Sane, RenameOps, ExecAll, Moved, ExpectedAt, Repeats;
    var w0 := World(Nodes(c.p), Nodes(c.s));
    var x, y := RenameOps(Secondary, c.onPrimary), RenameOps(Primary, c.onSecondary);
    StartHolds(c);
    RenameRun(c, Start(c), w0, Secondary, |c.onPrimary|);
    assert c.onPrimary[..|c.onPrimary|] == c.onPrimary && c.onSecondary[..|c.onSecondary|] == c.onSecondary;
    var mid := Renaming(c, Start(c), Secondary, c.onPrimary);
    RenamingIsSane(c, Start(c), Secondary, c.onPrimary);
    RenameRun(c, mid, ExecAll(w0, x).w, Primary, |c.onSecondary|);
    ExecConcat(w0, x, y);
    forall d: Side, q: Path ensures AllRenamed(c)(d, q) == Expected(c, {})(d, q) {
      AllRenamedIsExpected(c, d, q);
    }
    SameCells(c, AllRenamed(c), Expected(c, {}), ExecAll(w0, x + y).w);
  }

  lemma CreateHalf(c: Input, paths: seq<Path>)
    requires Sound(c) && Visits(c, paths)
    ensures var r := ExecAll(World(Nodes(c.p), Nodes(c.s)), Creates(PassEffect(c, paths).ops));
      r.errs == Repeats(c.onPrimary) + Repeats(c.onSecondary) && Holds(c, Expected(c, Elements(paths)), r.w)
  {
    hide Sound, Quiet, Holds, RenameOps, ExecAll, Expected, Repeats, PassEffect, CreatesOf, Worklist, Lists, Creates;
    var w0 := World(Nodes(c.p), Nodes(c.s));
    var renames := RenameOps(Secondary, c.onPrimary) + RenameOps(Primary, c.onSecondary);
    PassOps(c, paths);
    RenamesRun(c);
    VisitsWorklist(c, paths);
    AllUnits(c, paths, ExecAll(w0, renames).w);
    ExecConcat(w0, renames, CreatesOf(c, paths));
  }

  /** Where a pass ends, cell by cell, and how many operations failed on the way. */
  lemma PassCells(c: Input, paths: seq<Path>)
    requires Sound(c) && Visits(c, paths)
    ensures PassOutcome(c, paths).errs == Repeats(c.onPrimary) + Repeats(c.onSecondary)
    ensures Trees(PassOutcome(c, paths).w)
    ensures forall d: Side, x: Path :: CellEnds(c, paths, d, x, At(PassOutcome(c, paths).w.On(d), x))
  {
    hide Sound, Quiet, Holds, Expected, Repeats, PassEffect, Lists, Creates, RemovalsOf, Removals, ExecAll, Doomed;
    hide ExpectedAt, CellOk, Trees;
    var first := ExecAll(World(Nodes(c.p), Nodes(c.s)), Creates(PassEffect(c, paths).ops));
    CreateHalf(c, paths);
    PassOps(c, paths);
    DeleteHalf(c, paths, first.w);
    forall d: Side, x: Path ensures CellOk(c, d, x, At(first.w.On(d), x), ExpectedAt(c, Elements(paths), d, x)) {
      FirstCell(c, paths, first.w, d, x);
    }
  }

  lemma FirstCell(c: Input, paths: seq<Path>, w: World, d: Side, x: Path)
    requires Holds(c, Expected(c, Elements(paths)), w)
    ensures CellOk(c, d, x, At(w.On(d), x), ExpectedAt(c, Elements(paths), d, x))
  {
    hide CellOk, ExpectedAt;
    HoldsAt(c, Expected(c, Elements(paths)), w, d, x);
  }

  ghost predicate CellEnds(c: Input, paths: seq<Path>, d: Side, x: Path, now: Option<Node>) {
    if Doomed(c, paths, d, x) then now == None
    else CellOk(c, d, x, now, ExpectedAt(c, Elements(paths), d, x))
  }

  // ---- with the conditions, both sides reach the target

  lemma Dropped(c: Input, d: Side, q: Path, x: Path)
    requires Sound(c) && TakenWith(c, d, q, x) && q != x
    ensures c.On(d.Other(), x) == None
    ensures c.On(d, x) == None || c.On(d, x) == c.B(x) || Disturbed(c, d, q, x)
    ensures q != []
  {
    hide Sound;
    RootIsNoPath(c, d);
    TreesSound(c, d.Other());
    if c.On(d.Other(), x) != None {
      DirAboveOn(c, d.Other(), x, q);
    }
  }

  lemma GoneTarget(c: Input, x: Path, d: Side)
    requires Sound(c) && c.On(d.Other(), x) == None && (c.On(d, x) == None || c.On(d, x) == c.B(x))
    requires x in AllPaths(c.b, c.p, c.s)
    ensures Target(c, x) == None
  {
    hide Sound, Origin;
    NoConflictName(c, x);
  }

  /** What goes with a deleted directory is not wanted any more. */
  lemma DoomedTarget(c: Input, paths: seq<Path>, d: Side, x: Path)
    requires Sound(c) && Quiet(c) && Visits(c, paths) && Doomed(c, paths, d, x)
    ensures Target(c, x) == None
  {
    hide Sound, Quiet, Lists, Origin, Target, Visits;
    var q: Path :| q in paths && TakenWith(c, d, q, x);
    AllPathsAt(c, q);
    AllPathsAt(c, x);
    if q == x {
      GoneTarget(c, x, d);
    } else {
      Dropped(c, d, q, x);
      NotDisturbed(c, d, q, x);
      if x in AllPaths(c.b, c.p, c.s) {
        GoneTarget(c, x, d);
      } else {
        DoomedConflict(c, d, q, x);
      }
    }
  }

  lemma DoomedConflict(c: Input, d: Side, q: Path, x: Path)
    requires Sound(c) && Quiet(c) && TakenWith(c, d, q, x) && q != x && x !in AllPaths(c.b, c.p, c.s)
    ensures Target(c, x) == None
  {
    hide Sound, Quiet, Origin, ConflictPath;
    NothingMerged(c, x);
    if Origin(x, c.stamp) != None {
      var y := Origin(x, c.stamp).value;
      ConflictOfOrigin(x, c.stamp);
      OriginOfConflict(y, c.stamp);
      BelowToo(q, x, y);
      if q != y {
        Dropped(c, d, q, y);
        NotDisturbed(c, d, q, y);
      }
    }
  }

  lemma BelowToo(q: Path, x: Path, y: Path)
    requires q <= x && q != x && Parent(x) == Parent(y) && x != [] && y != []
    ensures q <= y
  {
    assert q <= Parent(x);
    assert Parent(y) <= y;
  }

  lemma MovesMatch(c: Input, d: Side, x: Path)
    requires Sound(c) && Faithful(c) && Unshared(c) && c.Moves(x)
    ensures ExpectedAt(c, {}, d, x) == c.Merge(x)
  {
    hide Sound, Moved;
    PairsDisjoint(c);
    var e, r := MovesAt(c, x);
    if d != e {
      assert x !in Consumed(c.Pairs(d));
      MovedElsewhere(c, c.On(d, x), c.Pairs(d), x);
    } else if x == r.from {
      assert x in Froms(c.Pairs(d));
      FromsNotTos(c, d);
      MovedFrom(c, c.On(d, x), c.Pairs(d), x);
    } else {
      var i := PairIndex(c.Pairs(d), r);
      MovedTarget(c, d, i);
      NoRepeatAt(c.Pairs(d), i);
    }
  }

  lemma PairIndex(pairs: seq<Renamed>, r: Renamed) returns (i: nat)
    requires r in pairs
    ensures i < |pairs| && pairs[i] == r
  {
    i :| 0 <= i < |pairs| && pairs[i] == r;
  }

  lemma MovedTarget(c: Input, d: Side, i: nat)
    requires Sound(c) && i < |c.Pairs(d)|
    ensures var r := c.Pairs(d)[i];
      Moved(c, c.On(d, r.to), c.Pairs(d), r.to) == if r.from in Froms(c.Pairs(d)[..i]) then None else c.B(r.from)
  {
    hide Sound, Moved;
    var pairs := c.Pairs(d);
    forall j, k | 0 <= j < k < |pairs| ensures pairs[j].to != pairs[k].to {
      PairTargetsDiffer(c, d, j, k);
    }
    FromsNotTos(c, d);
    assert pairs[i].to in Tos(pairs);
    MovedTo(c, c.On(d, pairs[i].to), pairs, i);
  }

  lemma {:induction false} NoRepeatAt(pairs: seq<Renamed>, i: nat)
    requires i < |pairs| && Repeats(pairs) == 0
    ensures pairs[i].from !in Froms(pairs[..i])
  {
    if i < |pairs| - 1 {
      NoRepeatAt(pairs[..|pairs| - 1], i);
      assert pairs[..|pairs| - 1][..i] == pairs[..i];
    }
  }

  /** Whatever is not deleted ends as the merge wants it. */
  lemma KeptTarget(c: Input, paths: seq<Path>, d: Side, x: Path, now: Option<Node>)
    requires Sound(c) && Visits(c, paths) && Quiet(c) && Faithful(c) && Unshared(c)
    requires !Doomed(c, paths, d, x) && CellOk(c, d, x, now, ExpectedAt(c, Elements(paths), d, x))
    ensures now == Target(c, x)
  {
    hide Sound, Quiet, Faithful, Unshared, Moved, Consumed, Origin, ConflictPath, Lists, AllPaths, Merged, Clash;
    hide Visits, Doomed, Early;
    AllPathsAt(c, x);
    if Early(c, d, x) {
      EarlyIsWanted(c, d, x);
    }
    if c.Moves(x) {
      MovesMatch(c, d, x);
      var e, r := MovesAt(c, x);
      NoConflictName(c, x);
    } else if x in AllPaths(c.b, c.p, c.s) {
      NoConflictName(c, x);
      NotDropped(c, paths, d, x);
    } else {
      OutsideTarget(c, paths, d, x);
    }
  }

  lemma NotDropped(c: Input, paths: seq<Path>, d: Side, x: Path)
    requires Visits(c, paths) && !Doomed(c, paths, d, x) && !c.Moves(x) && x in AllPaths(c.b, c.p, c.s)
    ensures x in paths && !c.Drops(d, x)
  {
    assert x in paths;
    assert !TakenWith(c, d, x, x);
  }

  lemma OutsideTarget(c: Input, paths: seq<Path>, d: Side, x: Path)
    requires Sound(c) && Visits(c, paths) && x !in AllPaths(c.b, c.p, c.s) && !c.Moves(x)
    ensures ExpectedAt(c, Elements(paths), d, x) == Target(c, x) && c.On(d.Other(), x) == None && c.Merge(x) == None
  {
    hide Sound, Moved, Consumed, Origin, ConflictPath, Merged, Clash;
    AllPathsAt(c, x);
    NothingMerged(c, x);
    assert x !in paths;
    if Origin(x, c.stamp) != None && c.Clashes(Origin(x, c.stamp).value) {
      ClashIsVisited(c, paths, Origin(x, c.stamp).value);
    }
  }

  /** Convergence, cell by cell. */
  lemma Settles(c: Input, paths: seq<Path>, d: Side, x: Path)
    requires Sound(c) && Visits(c, paths) && Quiet(c) && Faithful(c) && Unshared(c)
    ensures At(PassOutcome(c, paths).w.On(d), x) == Target(c, x)
  {
    hide Sound, Lists, Quiet, Faithful, Unshared, PassOutcome, Doomed, CellOk, ExpectedAt, Target;
    PassCells(c, paths);
    assert CellEnds(c, paths, d, x, At(PassOutcome(c, paths).w.On(d), x));
    if Doomed(c, paths, d, x) {
      DoomedTarget(c, paths, d, x);
    } else {
      KeptTarget(c, paths, d, x, At(PassOutcome(c, paths).w.On(d), x));
    }
  }

  // ---- without them, something is left out

  /** A cell of one side that does not hold what the new baseline says about it. */
  ghost predicate Strays(c: Input, paths: seq<Path>, d: Side, x: Path)
    requires NoRoot(paths)
  {
    At(PassOutcome(c, paths).w.On(d), x) != Target(c, x)
  }

  /** Removing a directory takes along what is new or changed below it, but the new baseline and the other side have
      it. */
  lemma DisturbedStrays(c: Input, paths: seq<Path>, d: Side, a: Path, x: Path) returns (y: Path)
    requires Sound(c) && Visits(c, paths) && Disturbed(c, d, a, x)
    ensures Strays(c, paths, d, y)
    ensures (y == x || y == ConflictPath(x, c.stamp)) && a <= y && Target(c, y) == c.On(d, x)
  {
    hide Sound, Lists, PassOutcome, CellOk, ExpectedAt, Origin, ConflictPath, Target;
    TreesSound(c, d.Other());
    AllPathsAt(c, a);
    AllPathsAt(c, x);
    RootIsNoPath(c, d);
    if c.On(d.Other(), x) != None {
      DirAboveOn(c, d.Other(), x, a);
    }
    y := if c.Clashes(x) then ConflictPath(x, c.stamp) else x;
    LoserTarget(c, d, x);
    OriginOfConflict(x, c.stamp);
    if y != x {
      BelowToo(a, x, y);
    }
    DirIsVisited(c, paths, d, a);
    assert TakenWith(c, d, a, y);
    PassCells(c, paths);
    assert CellEnds(c, paths, d, y, At(PassOutcome(c, paths).w.On(d), y));
  }

  lemma DirIsVisited(c: Input, paths: seq<Path>, d: Side, a: Path)
    requires Sound(c) && Visits(c, paths) && c.On(d, a) == Some(DirNode)
    ensures a in paths
  {
    hide Sound, Consumed;
    DirIsOrdinary(c, a, d);
  }

  lemma LoserTarget(c: Input, d: Side, x: Path)
    requires Sound(c) && c.On(d, x) != None && c.On(d, x) != c.B(x) && c.On(d.Other(), x) == None && x != []
    ensures Target(c, if c.Clashes(x) then ConflictPath(x, c.stamp) else x) == c.On(d, x)
  {
    hide Sound, ConflictPath, Origin;
    OriginOfConflict(x, c.stamp);
    AllPathsAt(c, x);
    if !c.Clashes(x) {
      NoConflictName(c, x);
    }
  }

  lemma PairCell(c: Input, paths: seq<Path>, d: Side, i: nat)
    requires Sound(c) && Visits(c, paths) && i < |c.Pairs(d)|
    ensures var r := c.Pairs(d)[i]; var now := At(PassOutcome(c, paths).w.On(d), r.to);
      && (now == None || (now == c.B(r.from) && r.from !in Froms(c.Pairs(d)[..i])))
      && Target(c, r.to) == c.On(d.Other(), r.to) != None
  {
    hide Sound, Lists, PassOutcome, Doomed, Origin, Moved, Target, Froms;
    var r := c.Pairs(d)[i];
    PairFits(c, d, r);
    PassCells(c, paths);
    assert CellEnds(c, paths, d, r.to, At(PassOutcome(c, paths).w.On(d), r.to));
    MovedTarget(c, d, i);
    PairMoves(c, d, r);
    AllPathsAt(c, r.to);
    NoConflictName(c, r.to);
  }

  lemma PairMoves(c: Input, d: Side, r: Renamed)
    requires r in c.Pairs(d)
    ensures c.Moves(r.from) && c.Moves(r.to)
  {
    assert r.from in Froms(c.Pairs(d)) && r.to in Tos(c.Pairs(d));
  }

  /** Replaying a rename gives the old content's identity: a change made on the way is not brought over. */
  lemma UnfaithfulStrays(c: Input, paths: seq<Path>, d: Side, r: Renamed)
    requires Sound(c) && Visits(c, paths) && r in c.Pairs(d) && c.On(d.Other(), r.to) != c.B(r.from)
    ensures Strays(c, paths, d, r.to)
  {
    hide Sound, Visits, PassOutcome, Target;
    var i := PairIndex(c.Pairs(d), r);
    PairCell(c, paths, d, i);
  }

  /** The second of two renames from one source finds nothing to rename. */
  lemma SharedStrays(c: Input, paths: seq<Path>, d: Side) returns (x: Path)
    requires Sound(c) && Visits(c, paths) && Repeats(c.Pairs(d)) > 0
    ensures Strays(c, paths, d, x)
  {
    hide Sound, Visits, PassOutcome, Target, Froms;
    var i := RepeatAt(c.Pairs(d));
    PairCell(c, paths, d, i);
    x := c.Pairs(d)[i].to;
  }

  lemma {:induction false} RepeatAt(pairs: seq<Renamed>) returns (i: nat)
    requires Repeats(pairs) > 0
    ensures i < |pairs| && pairs[i].from in Froms(pairs[..i])
  {
    hide Froms;
    if pairs[|pairs| - 1].from in Froms(pairs[..|pairs| - 1]) {
      i := |pairs| - 1;
    } else {
      i := RepeatAt(pairs[..|pairs| - 1]);
      assert pairs[..|pairs| - 1][..i] == pairs[..i];
    }
  }

  lemma SomethingStrays(c: Input, paths: seq<Path>) returns (d: Side, x: Path)
    requires Sound(c) && Visits(c, paths) && !(Quiet(c) && Faithful(c) && Unshared(c))
    ensures Strays(c, paths, d, x)
  {
    hide Sound, Visits, Disturbed, Strays, Repeats;
    if !Quiet(c) {
      var d', a, y :| Disturbed(c, d', a, y);
      d := d';
      x := DisturbedStrays(c, paths, d, a, y);
    } else if !Faithful(c) {
      var d', r :| r in c.Pairs(d') && c.On(d'.Other(), r.to) != c.B(r.from);
      d, x := d', r.to;
      UnfaithfulStrays(c, paths, d, r);
    } else {
      d := if Repeats(c.onPrimary) > 0 then Secondary else Primary;
      x := SharedStrays(c, paths, d);
    }
  }

  // ---- the theorem

  /** Both trees and the new baseline agree, path by path. */
  ghost predicate Agreed(c: Input, paths: seq<Path>)
    requires NoRoot(paths)
  {
    var nb := Nodes(PassEffect(c, paths).base);
    PassOutcome(c, paths).w == World(nb, nb)
  }

  /** A pass makes both sides and the new baseline agree exactly if no deleted directory holds news, no rename came with
      an edit of equal size and no two files claim one rename.  Operations fail only in the last case. */
  lemma PassConverges(c: Input, paths: seq<Path>)
    requires Sound(c) && Visits(c, paths)
    ensures Agreed(c, paths) <==> Quiet(c) && Faithful(c) && Unshared(c)
    ensures PassOutcome(c, paths).errs == Repeats(c.onPrimary) + Repeats(c.onSecondary)
    ensures forall x :: NodeAt(PassEffect(c, paths).base, x) == Target(c, x)
  {
    hide Sound, Lists, Quiet, Faithful, Unshared, PassOutcome, PassEffect, Target, Repeats;
    PassErrors(c, paths);
    forall x ensures NodeAt(PassEffect(c, paths).base, x) == Target(c, x) {
      BaselineCell(c, paths, x);
    }
    if Quiet(c) && Faithful(c) && Unshared(c) {
      AllSettle(c, paths);
    } else {
      var d, x := SomethingStrays(c, paths);
      NodesAt(PassEffect(c, paths).base, x);
    }
  }

  lemma BaselineCell(c: Input, paths: seq<Path>, x: Path)
    requires Sound(c) && Visits(c, paths)
    ensures NodeAt(PassEffect(c, paths).base, x) == Target(c, x)
  {
    hide Sound, Lists, Target;
    NewBaselineIsTarget(c, paths, x);
  }

  lemma PassErrors(c: Input, paths: seq<Path>)
    requires Sound(c) && Visits(c, paths)
    ensures PassOutcome(c, paths).errs == Repeats(c.onPrimary) + Repeats(c.onSecondary)
  {
    hide Sound, Lists, PassOutcome, Repeats, CellEnds;
    PassCells(c, paths);
  }

  lemma AllSettle(c: Input, paths: seq<Path>)
    requires Sound(c) && Visits(c, paths) && Quiet(c) && Faithful(c) && Unshared(c)
    ensures Agreed(c, paths)
  {
    hide Sound, Lists, Quiet, Faithful, Unshared, PassOutcome, PassEffect, Target;
    var w, nb := PassOutcome(c, paths).w, Nodes(PassEffect(c, paths).base);
    forall d: Side ensures w.On(d) == nb {
      forall x: Path ensures At(w.On(d), x) == At(nb, x) {
        Settles(c, paths, d, x);
        BaselineCell(c, paths, x);
        NodesAt(PassEffect(c, paths).base, x);
      }
      SameCellsSameTree(w.On(d), nb);
    }
    assert w.On(Primary) == w.primary && w.On(Secondary) == w.secondary;
  }

  lemma SameCellsSameTree(f: FileSystem, g: FileSystem)
    requires forall x: Path :: At(f, x) == At(g, x)
    ensures f == g
  {
    assert forall x :: x in f ==> At(f, x) == At(g, x);
    assert forall x :: x in g ==> At(f, x) == At(g, x);
    assert f.Keys == g.Keys;
  }

  // ---- the conditions on renames in terms of the trees alone

  predicate NewFile(b: Tree, changed: Tree, x: Path) {
    x in changed && x !in b && changed[x].kind == File && InodeOf(changed[x]) != Inode(0, 0)
  }

  /** No two files that are new on a side share an inode. */
  ghost predicate InodesUnique(b: Tree, changed: Tree) {
    forall x: Path, y: Path ::
      NewFile(b, changed, x) && NewFile(b, changed, y) && InodeOf(changed[x]) == InodeOf(changed[y]) ==> x == y
  }

  predicate LooksRenamed(b: Tree, changed: Tree, x: Path, y: Path) {
    x in b && b[x].kind == File && NewFile(b, changed, y) && InodeOf(b[x]) == InodeOf(changed[y])
      && b[x].size == changed[y].size
  }

  /** A new file with the inode and size of a file of the baseline is that file unchanged. */
  ghost predicate InodesTell(b: Tree, changed: Tree) {
    forall x: Path, y: Path :: LooksRenamed(b, changed, x, y) ==> SameIdentity(b[x], changed[y])
  }

  /** Where inode numbers identify files, every rename that can be detected, in whatever order, is faithful and no two
      share a source. */
  lemma InodesSuffice(c: Input)
    requires Sound(c) && InodesUnique(c.b, c.p) && InodesUnique(c.b, c.s) && InodesTell(c.b, c.p)
    requires InodesTell(c.b, c.s)
    ensures Faithful(c) && Unshared(c)
  {
    hide Sound, InodesUnique, InodesTell, Repeats;
    forall d: Side, r | r in c.Pairs(d) ensures c.On(d.Other(), r.to) == c.B(r.from) {
      TellingPair(c, d, r);
    }
    if Repeats(c.onPrimary) > 0 {
      SharedPair(c, Secondary);
    }
    if Repeats(c.onSecondary) > 0 {
      SharedPair(c, Primary);
    }
  }

  lemma SidePair(c: Input, d: Side, r: Renamed)
    requires Sound(c) && r in c.Pairs(d)
    ensures PairOf(c.b, c.Tree(d.Other()), c.Tree(d), r)
  {
    hide Detected, PrefixClosed, DirsAgree, FreshNames;
    DetectedPair(c.b, c.Tree(d.Other()), c.Tree(d), c.Pairs(d), r);
  }

  lemma TellingPair(c: Input, d: Side, r: Renamed)
    requires Sound(c) && r in c.Pairs(d) && InodesTell(c.b, c.Tree(d.Other()))
    ensures c.On(d.Other(), r.to) == c.B(r.from)
  {
    hide Sound;
    SidePair(c, d, r);
    IdentityIsNode(c.b[r.from], c.Tree(d.Other())[r.to]);
  }

  lemma SharedPair(c: Input, d: Side)
    requires Sound(c) && Repeats(c.Pairs(d)) > 0
    ensures !InodesUnique(c.b, c.Tree(d.Other()))
  {
    hide Sound;
    var i := RepeatAt(c.Pairs(d));
    var r :| r in c.Pairs(d)[..i] && r.from == c.Pairs(d)[i].from;
    var j :| 0 <= j < i && c.Pairs(d)[j] == r;
    SidePair(c, d, r);
    SidePair(c, d, c.Pairs(d)[i]);
    PairTargetsDiffer(c, d, j, i);
  }
}

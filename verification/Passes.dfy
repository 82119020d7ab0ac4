/** What follows for users: a pass after one that converged is idle, and one-way mode mirrors. */
module Passes {
  import opened Options
  import opened Model
  import opened Reconcile
  import opened Executor
  import opened Merge
  import opened CellSteps
  import opened Convergence
  import opened NextInput

  // ---- fixpoint

  /** A side that lists what the baseline lists has seen no rename. */
  lemma NoNewFilesNoRenames(b: Tree, changed: Tree, other: Tree, rs: seq<Renamed>)
    requires Detected(b, changed, other, rs) && changed.Keys <= b.Keys
    ensures rs == []
  {
    if rs != [] {
      RenamedIsNew(b, changed, other, rs);
    }
  }

  lemma UnchangedUnit(c: Input, q: Path)
    requires q != [] && c.B(q) == c.On(Primary, q) == c.On(Secondary, q)
    ensures Unit(c, q).ops == [] && Unit(c, q).conflicts == 0 && !c.Clashes(q)
  {
    hide ConflictPath;
  }

  lemma {:induction false} UnchangedPaths(c: Input, paths: seq<Path>)
    requires NoRoot(paths) && forall q: Path :: c.B(q) == c.On(Primary, q) == c.On(Secondary, q)
    ensures PathsEffect(c.b, c.p, c.s, c.stamp, paths).ops == []
    ensures PathsEffect(c.b, c.p, c.s, c.stamp, paths).conflicts == 0
  {
    hide PathEffect;
    if paths != [] {
      UnchangedPaths(c, paths[..|paths| - 1]);
      UnchangedUnit(c, paths[|paths| - 1]);
    }
  }

  /** Three trees that agree: nothing to do, no conflict, the same baseline. */
  lemma Fixpoint(c: Input, paths: seq<Path>)
    requires Sound(c) && Visits(c, paths) && forall q: Path :: c.B(q) == c.On(Primary, q) == c.On(Secondary, q)
    ensures PassEffect(c, paths).ops == [] && PassEffect(c, paths).conflicts == 0
    ensures Nodes(PassEffect(c, paths).base) == Nodes(c.b)
  {
    hide PathsEffect, PrefixClosed, DirsAgree, FreshNames, Lists, Detected, Target;
    SameKeys(c);
    NoNewFilesNoRenames(c.b, c.p, c.s, c.onPrimary);
    NoNewFilesNoRenames(c.b, c.s, c.p, c.onSecondary);
    UnchangedPaths(c, paths);
    forall x ensures At(Nodes(PassEffect(c, paths).base), x) == At(Nodes(c.b), x) {
      BaselineCell(c, paths, x);
      UnchangedTarget(c, x);
      NodesAt(PassEffect(c, paths).base, x);
      NodesAt(c.b, x);
    }
    SameCellsSameTree(Nodes(PassEffect(c, paths).base), Nodes(c.b));
  }

  lemma SameKeys(c: Input)
    requires forall q: Path :: c.B(q) == c.On(Primary, q) == c.On(Secondary, q)
    ensures c.p.Keys == c.b.Keys == c.s.Keys
  {
    forall q: Path ensures (q in c.p <==> q in c.b) && (q in c.s <==> q in c.b) {
      assert c.B(q) == c.On(Primary, q) == c.On(Secondary, q);
    }
  }

  lemma UnchangedTarget(c: Input, x: Path)
    requires forall q: Path :: c.B(q) == c.On(Primary, q) == c.On(Secondary, q)
    ensures Target(c, x) == c.B(x)
  {
    hide Origin;
    assert c.B(x) == c.On(Primary, x) == c.On(Secondary, x);
    if Origin(x, c.stamp) != None {
      var q := Origin(x, c.stamp).value;
      assert c.B(q) == c.On(Primary, q) == c.On(Secondary, q);
    }
  }

  /** After a pass that converged, the next one does nothing. */
  lemma SecondPassIdle(c: Input, paths: seq<Path>, c': Input, paths': seq<Path>)
    requires Sound(c) && Visits(c, paths) && Quiet(c) && Faithful(c) && Unshared(c)
    requires Follows(c, paths, c') && Scanned(c') && Visits(c', paths')
    ensures PassEffect(c', paths').ops == [] && PassEffect(c', paths').conflicts == 0
    ensures Nodes(PassEffect(c', paths').base) == Nodes(c'.b)
  {
    hide Sound, Lists, Quiet, Faithful, Unshared, PassOutcome, PassEffect, Target, Follows, Scanned;
    NextIsSound(c, paths, c');
    forall q: Path ensures c'.B(q) == c'.On(Primary, q) == c'.On(Secondary, q) {
      NextCells(c, paths, c', q);
      Settles(c, paths, Primary, q);
      Settles(c, paths, Secondary, q);
    }
    Fixpoint(c', paths');
  }

  // ---- one way

  /** The pass of one-way mode: the baseline is pinned to the tree of the mirror m. */
  predicate OneWay(c: Input, m: Side) {
    c.b == c.Tree(m)
  }

  lemma OneWayQuiet(c: Input, m: Side)
    requires OneWay(c, m)
    ensures Quiet(c)
  {
    forall d: Side, a: Path, x: Path ensures !Disturbed(c, d, a, x) {
      assert d == m || d == m.Other();
    }
  }

  lemma OneWayTarget(c: Input, m: Side, x: Path)
    requires OneWay(c, m)
    ensures Target(c, x) == c.On(m.Other(), x) && !c.Clashes(x)
  {
    hide Origin;
  }

  lemma OneWayPairs(c: Input, m: Side)
    requires Sound(c) && OneWay(c, m)
    ensures c.Pairs(m.Other()) == []
  {
    hide PrefixClosed, DirsAgree, FreshNames;
    NoNewFilesNoRenames(c.b, c.Tree(m), c.Tree(m.Other()), c.Pairs(m.Other()));
  }

  predicate AllOn(ops: seq<Op>, m: Side) {
    forall i :: 0 <= i < |ops| ==> ops[i].dst == m
  }

  lemma OneWayUnit(c: Input, m: Side, q: Path)
    requires OneWay(c, m) && q != []
    ensures AllOn(Unit(c, q).ops, m) && Unit(c, q).conflicts == 0
  {
    hide ConflictPath;
  }

  lemma {:induction false} OneWayPaths(c: Input, m: Side, paths: seq<Path>)
    requires OneWay(c, m) && NoRoot(paths)
    ensures AllOn(PathsEffect(c.b, c.p, c.s, c.stamp, paths).ops, m)
    ensures PathsEffect(c.b, c.p, c.s, c.stamp, paths).conflicts == 0
  {
    hide PathEffect;
    if paths != [] {
      OneWayPaths(c, m, paths[..|paths| - 1]);
      OneWayUnit(c, m, paths[|paths| - 1]);
    }
  }

  lemma OneWayOps(c: Input, m: Side, paths: seq<Path>)
    requires Sound(c) && OneWay(c, m) && NoRoot(paths)
    ensures AllOn(PassEffect(c, paths).ops, m) && PassEffect(c, paths).conflicts == 0
  {
    hide Sound, PathsEffect;
    OneWayPairs(c, m);
    OneWayPaths(c, m, paths);
  }

  lemma {:induction false} SplitOn(ops: seq<Op>, m: Side)
    requires AllOn(ops, m)
    ensures AllOn(Creates(ops), m) && AllOn(Removals(ops), m)
  {
    if ops != [] {
      SplitOn(ops[..|ops| - 1], m);
    }
  }

  lemma {:induction false} OtherSideUntouched(w: World, ops: seq<Op>, m: Side)
    requires AllOn(ops, m)
    ensures ExecAll(w, ops).w.On(m.Other()) == w.On(m.Other())
  {
    hide Applied;
    if ops != [] {
      OtherSideUntouched(w, ops[..|ops| - 1], m);
    }
  }

  /** One-way mode in both directions: every operation is for the mirror, there is no conflict, the source is not
      touched, and the mirror ends equal to the source exactly if no rename hid an edit and no two files share one. */
  lemma Mirror(c: Input, m: Side, paths: seq<Path>)
    requires Sound(c) && Visits(c, paths) && OneWay(c, m)
    ensures AllOn(PassEffect(c, paths).ops, m) && PassEffect(c, paths).conflicts == 0
    ensures PassOutcome(c, paths).w.On(m.Other()) == Nodes(c.Tree(m.Other()))
    ensures PassOutcome(c, paths).w.On(m) == Nodes(c.Tree(m.Other())) <==> Faithful(c) && Unshared(c)
  {
    hide Sound, Lists, Faithful, Unshared, PassEffect, AllOn, Quiet, PassOutcome, Target, Nodes;
    OneWayOps(c, m, paths);
    SourceUntouched(c, m, paths);
    OneWayQuiet(c, m);
    PassConverges(c, paths);
    MirroredBaseline(c, m, paths);
    var w := PassOutcome(c, paths).w;
    assert w == World(w.primary, w.secondary);
  }

  lemma SourceUntouched(c: Input, m: Side, paths: seq<Path>)
    requires NoRoot(paths) && AllOn(PassEffect(c, paths).ops, m)
    ensures PassOutcome(c, paths).w.On(m.Other()) == Nodes(c.Tree(m.Other()))
  {
    hide PassEffect, AllOn, Creates, Removals;
    var ops := PassEffect(c, paths).ops;
    var w := World(Nodes(c.p), Nodes(c.s));
    SplitOn(ops, m);
    ReversedOn(Removals(ops), m);
    OtherSideUntouched(w, Creates(ops), m);
    OtherSideUntouched(ExecAll(w, Creates(ops)).w, Reversed(Removals(ops)), m);
  }

  lemma ReversedOn(ops: seq<Op>, m: Side)
    requires AllOn(ops, m)
    ensures AllOn(Reversed(ops), m)
  {
  }

  lemma MirroredBaseline(c: Input, m: Side, paths: seq<Path>)
    requires Sound(c) && Visits(c, paths) && OneWay(c, m)
    ensures Nodes(PassEffect(c, paths).base) == Nodes(c.Tree(m.Other()))
  {
    hide Sound, Lists, PassEffect, Target;
    forall x ensures At(Nodes(PassEffect(c, paths).base), x) == At(Nodes(c.Tree(m.Other())), x) {
      BaselineCell(c, paths, x);
      OneWayTarget(c, m, x);
      NodesAt(PassEffect(c, paths).base, x);
      NodesAt(c.Tree(m.Other()), x);
    }
    SameCellsSameTree(Nodes(PassEffect(c, paths).base), Nodes(c.Tree(m.Other())));
  }
}

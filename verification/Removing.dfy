/** The second half of a pass: the deletes, and the state they leave behind. */
module Removing {
  import opened Options
  import opened Model
  import opened FileTree
  import opened Reconcile
  import opened Executor
  import opened Merge
  import opened CellSteps
  import opened Renames
  import opened Units

  function RemovalsOf(c: Input, paths: seq<Path>): seq<Op>
    requires NoRoot(paths)
  {
    Removals(PathsEffect(c.b, c.p, c.s, c.stamp, paths).ops)
  }

  function DropOps(c: Input, q: Path): seq<Op> {
    if c.Drops(Primary, q) then [DeleteOp(Primary, q, c.p[q].kind)]
    else if c.Drops(Secondary, q) then [DeleteOp(Secondary, q, c.s[q].kind)]
    else []
  }

  lemma UnitRemovals(c: Input, q: Path)
    requires q != []
    ensures Removals(Unit(c, q).ops) == DropOps(c, q)
  {
    hide Unit, Idle, Merged, Clash;
    if c.Drops(Primary, q) {
      DroppedOps(c, q, Primary);
    } else if c.Drops(Secondary, q) {
      DroppedOps(c, q, Secondary);
    } else if c.Clashes(q) {
      ClashOps(c, q);
    } else if Idle(c, q) {
      if c.On(Primary, q) != c.On(Secondary, q) {
        IdleDrops(c, q);
      }
      AgreedOps(c, q);
    } else {
      BroughtOps(c, q);
    }
  }

  lemma {:induction false} RemovalsMembers(c: Input, paths: seq<Path>, op: Op)
    requires NoRoot(paths)
    ensures op in RemovalsOf(c, paths) <==> exists q :: q in paths && op in DropOps(c, q)
  {
    hide PathEffect, DropOps;
    if paths != [] {
      var front, q := paths[..|paths| - 1], paths[|paths| - 1];
      RemovalsMembers(c, front, op);
      UnitRemovals(c, q);
      SplitConcat(PathsEffect(c.b, c.p, c.s, c.stamp, front).ops, Unit(c, q).ops);
      assert forall y :: y in paths <==> y in front || y == q;
    }
  }

  /** What one delete takes away. */
  predicate Takes(op: Op, d: Side, x: Path) {
    op.dst == d && ((op.Delete? && op.path == x) || (op.Rmdir? && op.path <= x))
  }

  predicate Taken(ops: seq<Op>, d: Side, x: Path) {
    exists i :: 0 <= i < |ops| && Takes(ops[i], d, x)
  }

  /** x goes away on d with q, which the other side has deleted. */
  predicate TakenWith(c: Input, d: Side, q: Path, x: Path) {
    c.Drops(d, q) && (q == x || (c.On(d, q) == Some(DirNode) && q <= x))
  }

  ghost predicate Doomed(c: Input, paths: seq<Path>, d: Side, x: Path) {
    exists q: Path :: q in paths && TakenWith(c, d, q, x)
  }

  /** Where an operation that deletes q on d meets nothing unexpected. */
  ghost predicate Removable(f: FileSystem, q: Path, isDir: bool) {
    && (forall a: Path :: a != [] && a <= q && a != q ==> At(f, a) == None || At(f, a) == Some(DirNode))
    && (!isDir ==> At(f, q) != Some(DirNode))
  }

  ghost predicate Safe(w: World, op: Op) {
    op.Deletes() && Removable(w.On(op.dst), op.path, op.Rmdir?)
  }

  lemma RemoveStep(w: World, op: Op, d: Side, x: Path)
    requires Safe(w, op)
    ensures Applied(w, op).ok
    ensures At(After(w, op).On(d), x) == if Takes(op, d, x) then None else At(w.On(d), x)
  {
    hide Passable;
    PassableAbove(w.On(op.dst), op.path);
  }

  /** Deletes in a row, in whatever order: none fails, and what goes is what any of them takes. */
  lemma {:induction false} DeletesRun(w: World, ops: seq<Op>)
    requires forall op :: op in ops ==> Safe(w, op)
    ensures ExecAll(w, ops).errs == 0
    ensures forall d: Side, x: Path :: At(ExecAll(w, ops).w.On(d), x) == if Taken(ops, d, x) then None
      else At(w.On(d), x)
  {
    hide Applied, Safe;
    if ops != [] {
      var front, op := ops[..|ops| - 1], ops[|ops| - 1];
      DeletesRun(w, front);
      var mid := ExecAll(w, front).w;
      assert op in ops;
      StillSafe(w, mid, op);
      RemoveStep(mid, op, op.dst, op.path);
      forall d: Side, x: Path ensures At(After(mid, op).On(d), x) == if Taken(ops, d, x) then None else At(w.On(d), x) {
        RemoveStep(mid, op, d, x);
        TakenLast(ops, d, x);
      }
    }
  }

  lemma StillSafe(w: World, w': World, op: Op)
    requires Safe(w, op)
    requires forall d: Side, x: Path :: At(w'.On(d), x) == None || At(w'.On(d), x) == At(w.On(d), x)
    ensures Safe(w', op)
  {
  }

  lemma TakenLast(ops: seq<Op>, d: Side, x: Path)
    requires ops != []
    ensures Taken(ops, d, x) <==> Taken(ops[..|ops| - 1], d, x) || Takes(ops[|ops| - 1], d, x)
  {
    var front := ops[..|ops| - 1];
    if Taken(ops, d, x) && !Takes(ops[|ops| - 1], d, x) {
      var i :| 0 <= i < |ops| && Takes(ops[i], d, x);
      assert Takes(front[i], d, x);
    }
    if i :| 0 <= i < |front| && Takes(front[i], d, x) {
      assert Takes(ops[i], d, x);
    }
  }

  lemma DropsAreSafe(c: Input, done: set<Path>, w: World, op: Op, q: Path)
    requires Sound(c) && Holds(c, Expected(c, done), w) && op in DropOps(c, q)
    ensures Safe(w, op) && op.path == q
  {
    hide Sound, Holds, Expected;
    var d := op.dst;
    forall a: Path | a != [] && a <= q && a != q ensures At(w.On(d), a) == None || At(w.On(d), a) == Some(DirNode) {
      TreesSound(c, d);
      DirAboveOn(c, d, q, a);
      DirCell(c, done, w, d, a);
    }
    if !op.Rmdir? {
      FileCell(c, done, w, d, q);
    }
  }

  lemma DirCell(c: Input, done: set<Path>, w: World, d: Side, a: Path)
    requires Sound(c) && Holds(c, Expected(c, done), w) && c.On(d, a) == Some(DirNode)
    ensures At(w.On(d), a) == None || At(w.On(d), a) == Some(DirNode)
  {
    hide Sound, Holds, ExpectedAt, Ordinary, Merged;
    DirIsOrdinary(c, a, d);
    AgreeAt(c, a);
    OrdinaryCell(c, done, d, a);
    MergeOfDirs(c, a);
    HoldsAt(c, Expected(c, done), w, d, a);
  }

  lemma FileCell(c: Input, done: set<Path>, w: World, d: Side, q: Path)
    requires Sound(c) && Holds(c, Expected(c, done), w) && c.Drops(d, q) && c.On(d, q) != Some(DirNode)
    ensures At(w.On(d), q) != Some(DirNode)
  {
    hide Sound, Holds, ExpectedAt, Ordinary;
    AllPathsAt(c, q);
    NoConflictName(c, q);
    NotEarly(c, Expected(c, done), w, d, q);
    FilePlan(c, done, d, q);
  }

  lemma FilePlan(c: Input, done: set<Path>, d: Side, q: Path)
    requires Sound(c) && c.Drops(d, q) && c.On(d, q) != Some(DirNode)
    ensures ExpectedAt(c, done, d, q) != Some(DirNode)
  {
    hide Sound, Moved, AllPaths, Origin, Consumed;
    AllPathsAt(c, q);
    NoConflictName(c, q);
    if c.Moves(q) {
      MovedIsNoDir(c, c.On(d, q), c.Pairs(d), q, d);
    }
  }

  lemma {:induction false} MovedIsNoDir(c: Input, init: Option<Node>, pairs: seq<Renamed>, x: Path, d: Side)
    requires Sound(c) && init != Some(DirNode) && forall r :: r in pairs ==> r in c.Pairs(d)
    ensures Moved(c, init, pairs, x) != Some(DirNode)
  {
    hide Sound, Froms;
    if pairs != [] {
      PairFits(c, d, pairs[|pairs| - 1]);
      MovedIsNoDir(c, init, pairs[..|pairs| - 1], x, d);
    }
  }

  lemma TakesIsTakenWith(c: Input, q: Path, op: Op, d: Side, x: Path)
    requires op in DropOps(c, q) && Takes(op, d, x)
    ensures TakenWith(c, d, q, x)
  {
  }

  lemma TakenWithHasOp(c: Input, q: Path, d: Side, x: Path) returns (op: Op)
    requires TakenWith(c, d, q, x)
    ensures op in DropOps(c, q) && Takes(op, d, x)
  {
    op := DeleteOp(d, q, c.Tree(d)[q].kind);
  }

  lemma DoomedIsTaken(c: Input, paths: seq<Path>, d: Side, x: Path)
    requires NoRoot(paths)
    ensures Doomed(c, paths, d, x) <==> Taken(Reversed(RemovalsOf(c, paths)), d, x)
  {
    hide RemovalsOf, DropOps, TakenWith, Takes;
    var ops := RemovalsOf(c, paths);
    if q: Path :| q in paths && TakenWith(c, d, q, x) {
      var op := TakenWithHasOp(c, q, d, x);
      RemovalsMembers(c, paths, op);
      var i :| 0 <= i < |ops| && ops[i] == op;
      assert Reversed(ops)[|ops| - 1 - i] == op;
    }
    if i :| 0 <= i < |ops| && Takes(Reversed(ops)[i], d, x) {
      var op := Reversed(ops)[i];
      assert op == ops[|ops| - 1 - i];
      RemovalsMembers(c, paths, op);
      var q :| q in paths && op in DropOps(c, q);
      TakesIsTakenWith(c, q, op, d, x);
    }
  }

  /** After the creating half: no delete fails, and a path goes exactly if it or a directory above it was deleted on
      the other side while it stood unchanged here. */
  lemma DeleteHalf(c: Input, paths: seq<Path>, w: World)
    requires Sound(c) && Visits(c, paths) && Holds(c, Expected(c, Elements(paths)), w)
    ensures var r := ExecAll(w, Reversed(RemovalsOf(c, paths)));
      && r.errs == 0 && Trees(r.w)
      && forall d: Side, x: Path :: At(r.w.On(d), x) == if Doomed(c, paths, d, x) then None else At(w.On(d), x)
  {
    hide Sound, Holds, Expected, RemovalsOf, DropOps, Safe, Doomed, Taken, Lists, AllPaths, Consumed, ExecAll;
    var ops := RemovalsOf(c, paths);
    forall op | op in Reversed(ops) ensures Safe(w, op) && RealPath(op) {
      assert op in ops;
      RemovalsMembers(c, paths, op);
      var q :| q in paths && op in DropOps(c, q);
      DropsAreSafe(c, Elements(paths), w, op, q);
    }
    DeletesRun(w, Reversed(ops));
    HoldsAt(c, Expected(c, Elements(paths)), w, Primary, []);
    HoldsAt(c, Expected(c, Elements(paths)), w, Secondary, []);
    ExecKeepsTrees(w, Reversed(ops));
    forall d: Side, x: Path ensures Doomed(c, paths, d, x) <==> Taken(Reversed(ops), d, x) {
      DoomedIsTaken(c, paths, d, x);
    }
  }
}

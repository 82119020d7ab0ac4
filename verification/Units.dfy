/** The paths of the merge one by one: what the creating operations of each do to the cells. */
module Units {
  import opened Options
  import opened Model
  import opened FileTree
  import opened Reconcile
  import opened Executor
  import opened Merge
  import opened CellSteps
  import opened Renames

  /** What a side is to hold at x once the renames and the creating operations of the paths in `done` have run. */
  function ExpectedAt(c: Input, done: set<Path>, d: Side, x: Path): Option<Node> {
    if c.Moves(x) then Moved(c, c.On(d, x), c.Pairs(d), x)
    else if x in done then if c.Drops(d, x) then c.On(d, x) else c.Merge(x)
    else match Origin(x, c.stamp)
      case Some(q) => if q in done && c.Clashes(q) then c.Loser(q) else c.On(d, x)
      case None => c.On(d, x)
  }

  function Expected(c: Input, done: set<Path>): Plan {
    (d: Side, x: Path) => ExpectedAt(c, done, d, x)
  }

  /** A path the loop visits: no rename has settled it, and it is no conflict name. */
  ghost predicate Ordinary(c: Input, q: Path) {
    && q != [] && q in AllPaths(c.b, c.p, c.s) && !c.Moves(q)
    && (Origin(q, c.stamp) == None || !c.Clashes(Origin(q, c.stamp).value))
  }

  lemma VisitedIsOrdinary(c: Input, paths: seq<Path>, q: Path)
    requires Sound(c) && Visits(c, paths) && q in paths
    ensures Ordinary(c, q)
  {
    NoConflictName(c, q);
    hide Consumed, Detected, PrefixClosed, Origin;
  }

  lemma OrdinaryCell(c: Input, done: set<Path>, d: Side, q: Path)
    requires Ordinary(c, q)
    ensures ExpectedAt(c, done, d, q) == if q in done && !c.Drops(d, q) then c.Merge(q) else c.On(d, q)
  {
    hide Origin, AllPaths, Merged, Clash, Moved, Consumed;
  }

  lemma ExpectedIsSane(c: Input, done: set<Path>)
    requires Sound(c)
    ensures Sane(c, Expected(c, done))
  {
    hide Sound, Ordinary, Merged, AllPaths, Origin;
    forall d: Side, a: Path | c.On(d.Other(), a) == Some(DirNode)
      ensures ExpectedAt(c, done, d, a) == None || ExpectedAt(c, done, d, a) == Some(DirNode)
    {
      DirIsOrdinary(c, a, d.Other());
      AgreeAt(c, a);
      OrdinaryCell(c, done, d, a);
      MergeOfDirs(c, a);
    }
  }

  lemma DirIsOrdinary(c: Input, a: Path, d: Side)
    requires Sound(c) && c.On(d, a) == Some(DirNode)
    ensures Ordinary(c, a)
  {
    AllPathsAt(c, a);
    NoConflictName(c, a);
    RootIsNoPath(c, d);
    hide Sound, Consumed, Origin, AllPaths, Merged, Clash;
    if c.Moves(a) {
      var d', r := MovesAt(c, a);
    }
  }

  lemma MergeOfDirs(c: Input, a: Path)
    requires OnlyDir(c, a)
    ensures c.Merge(a) == None || c.Merge(a) == Some(DirNode)
  {
  }

  /** The two kinds of cells that a further path can change. */
  lemma OtherCells(c: Input, done: set<Path>, q: Path, d: Side, x: Path)
    requires x != q && (c.Clashes(q) ==> x != ConflictPath(q, c.stamp))
    ensures ExpectedAt(c, done + {q}, d, x) == ExpectedAt(c, done, d, x)
  {
    if Origin(x, c.stamp) != None {
      ConflictOfOrigin(x, c.stamp);
    }
    hide Origin, ConflictPath, Merged, Clash, Moved, Consumed;
  }

  lemma ConflictCell(c: Input, done: set<Path>, q: Path, d: Side)
    requires Sound(c) && c.Clashes(q) && q !in done && done <= AllPaths(c.b, c.p, c.s)
    ensures var x := ConflictPath(q, c.stamp);
      && ExpectedAt(c, done, d, x) == None && ExpectedAt(c, done + {q}, d, x) == c.Loser(q)
      && c.On(Primary, x) == None && c.On(Secondary, x) == None && x != q && x != [] && Parent(x) == Parent(q)
  {
    OriginOfConflict(q, c.stamp);
    var x := ConflictPath(q, c.stamp);
    AllPathsAt(c, x);
    hide Origin, ConflictPath, Merged, Clash, Moved, AllPaths, PrefixClosed, Detected, DirsAgree, Consumed;
    if c.Moves(x) {
      var d', r := MovesAt(c, x);
    }
  }

  // ---- the operations of a path in terms of nodes

  /** The side that is as the baseline has it, if only one has changed. */
  function Behind(c: Input, q: Path): Side {
    if c.On(Primary, q) == c.B(q) then Primary else Secondary
  }

  /** Nothing to create for q: the two sides agree, or one only has to delete. */
  predicate Idle(c: Input, q: Path) {
    !c.Clashes(q) && (c.On(Primary, q) == c.On(Secondary, q) || c.On(Behind(c, q).Other(), q) == None)
  }

  lemma AgreedOps(c: Input, q: Path)
    requires q != [] && c.On(Primary, q) == c.On(Secondary, q)
    ensures Unit(c, q).ops == []
  {
    hide ConflictOps, ConflictDeleteOps, CreateOp, DeleteOp;
  }

  lemma DroppedOps(c: Input, q: Path, d: Side)
    requires q != [] && c.Drops(d, q)
    ensures q in c.Tree(d) && Unit(c, q).ops == [DeleteOp(d, q, c.Tree(d)[q].kind)] && !c.Clashes(q)
  {
    hide ConflictOps, ConflictDeleteOps, CreateOp, DeleteOp;
  }

  lemma BroughtOps(c: Input, q: Path)
    requires q != [] && !Idle(c, q) && !c.Clashes(q)
    ensures var d := Behind(c, q); q in c.Tree(d.Other()) && Unit(c, q).ops == [CreateOp(d, q, c.Tree(d.Other())[q])]
  {
    hide ConflictOps, ConflictDeleteOps, CreateOp, DeleteOp;
  }

  lemma ClashedOps(c: Input, q: Path)
    requires c.Clashes(q)
    ensures if c.On(Primary, q) != None && c.On(Secondary, q) != None
      then Unit(c, q).ops == ConflictOps(q, c.stamp, c.p[q], c.s[q])
      else var d := if c.On(Primary, q) == None then Secondary else Primary;
        q in c.Tree(d) && Unit(c, q).ops == ConflictDeleteOps(d, q, c.stamp, c.Tree(d)[q])
  {
    hide ConflictOps, ConflictDeleteOps, CreateOp, DeleteOp;
  }

  /** With nothing to create, one side at most has something to drop. */
  lemma IdleDrops(c: Input, q: Path)
    requires q != [] && Idle(c, q) && c.On(Primary, q) != c.On(Secondary, q)
    ensures c.Drops(Behind(c, q), q)
  {
  }

  lemma IdleOps(c: Input, q: Path)
    requires q != [] && Idle(c, q)
    ensures Creates(Unit(c, q).ops) == []
  {
    hide Unit, Idle;
    if c.On(Primary, q) == c.On(Secondary, q) {
      AgreedOps(c, q);
    } else {
      IdleDrops(c, q);
      DroppedOps(c, q, Behind(c, q));
    }
  }

  lemma CreateOps(c: Input, q: Path)
    requires q != [] && !Idle(c, q) && !c.Clashes(q)
    ensures var d := Behind(c, q);
      q in c.Tree(d.Other()) && Creates(Unit(c, q).ops) == [CreateOp(d, q, c.Tree(d.Other())[q])]
      && c.Merge(q) == c.On(d.Other(), q) && Brings(c, d, q) && c.On(d, q) == c.B(q)
  {
    hide Unit;
    BroughtOps(c, q);
  }

  lemma ClashOps(c: Input, q: Path)
    requires c.Clashes(q)
    ensures if c.On(Primary, q) != None && c.On(Secondary, q) != None
      then Creates(Unit(c, q).ops) == ConflictOps(q, c.stamp, c.p[q], c.s[q])
      else var d := if c.On(Primary, q) == None then Secondary else Primary;
        q in c.Tree(d) && Creates(Unit(c, q).ops) == ConflictDeleteOps(d, q, c.stamp, c.Tree(d)[q])
    ensures Removals(Unit(c, q).ops) == []
  {
    hide Unit, ConflictPath, Creates, Removals;
    ClashedOps(c, q);
    NoDeletes(Unit(c, q).ops);
  }

  lemma ExecOne(w: World, op: Op)
    ensures var done := Applied(w, op); ExecAll(w, [op]) == Outcome(w.With(op.dst, done.fs), if done.ok then 0 else 1)
  {
    hide Applied;
    assert [op][..0] == [];
  }

  // ---- one path

  ghost predicate Reached(c: Input, done: set<Path>, q: Path, r: Outcome) {
    r.errs == 0 && Holds(c, Expected(c, done + {q}), r.w)
  }

  lemma IdleUnit(c: Input, done: set<Path>, q: Path, w: World)
    requires Ordinary(c, q) && q !in done && Idle(c, q)
    requires Holds(c, Expected(c, done), w)
    ensures Reached(c, done, q, ExecAll(w, Creates(Unit(c, q).ops)))
  {
    hide Ordinary, Holds, Unit, Creates, ExpectedAt;
    OrdinaryIsPath(c, q);
    IdleOps(c, q);
    forall d: Side, x: Path ensures ExpectedAt(c, done, d, x) == ExpectedAt(c, done + {q}, d, x) {
      if x != q {
        OtherCells(c, done, q, d, x);
      } else {
        OrdinaryCell(c, done, d, q);
        OrdinaryCell(c, done + {q}, d, q);
      }
    }
    SameCells(c, Expected(c, done), Expected(c, done + {q}), w);
  }

  lemma OrdinaryIsPath(c: Input, q: Path)
    requires Ordinary(c, q)
    ensures q != []
  {
  }

  lemma CreateUnit(c: Input, done: set<Path>, q: Path, w: World)
    requires Sound(c) && Ordinary(c, q) && q !in done && !Idle(c, q) && !c.Clashes(q)
    requires Holds(c, Expected(c, done), w)
    ensures Reached(c, done, q, ExecAll(w, Creates(Unit(c, q).ops)))
  {
    hide Sound, Ordinary, Holds, Unit, Creates, ExpectedAt, Idle, Applied, Brings, Sane;
    OrdinaryIsPath(c, q);
    CreateOps(c, q);
    var d := Behind(c, q);
    var op := CreateOp(d, q, c.Tree(d.Other())[q]);
    ExecOne(w, op);
    CreateStep(c, done, q, d, w);
    CreatedCells(c, done, q, d);
    SameCells(c, Put(Expected(c, done), d, q, c.Merge(q)), Expected(c, done + {q}), w.With(d, Applied(w, op).fs));
  }

  lemma CreatedCells(c: Input, done: set<Path>, q: Path, d: Side)
    requires Ordinary(c, q) && q !in done && !Idle(c, q) && !c.Clashes(q) && d == Behind(c, q)
    ensures forall d': Side, x: Path ::
      Put(Expected(c, done), d, q, c.Merge(q))(d', x) == Expected(c, done + {q})(d', x)
  {
    hide Ordinary, ExpectedAt;
    OrdinaryIsPath(c, q);
    forall d': Side, x: Path
      ensures Put(Expected(c, done), d, q, c.Merge(q))(d', x) == ExpectedAt(c, done + {q}, d', x) {
      if x != q {
        OtherCells(c, done, q, d', x);
      } else {
        OrdinaryCell(c, done, d', q);
        OrdinaryCell(c, done + {q}, d', q);
      }
    }
  }

  lemma CreateStep(c: Input, done: set<Path>, q: Path, d: Side, w: World)
    requires Sound(c) && Ordinary(c, q) && q !in done && !Idle(c, q) && !c.Clashes(q)
    requires Holds(c, Expected(c, done), w) && d == Behind(c, q) && q in c.Tree(d.Other())
    ensures var op := CreateOp(d, q, c.Tree(d.Other())[q]); var r := Applied(w, op);
      r.ok && Holds(c, Put(Expected(c, done), d, q, c.Merge(q)), w.With(d, r.fs))
  {
    hide Sound, Ordinary, Holds, ExpectedAt, Idle, Applied, Brings, Sane, Merged, Clash;
    OrdinaryIsPath(c, q);
    CreateOps(c, q);
    ExpectedIsSane(c, done);
    OrdinaryCell(c, done, d, q);
    OrdinaryCell(c, done, d.Other(), q);
    AgreeAt(c, q);
    if c.Tree(d.Other())[q].kind == Dir {
      StepMkdir(c, Expected(c, done), w, d, q);
    } else {
      NotEarly(c, Expected(c, done), w, d.Other(), q);
      StepCopy(c, Expected(c, done), w, d, q, q, c.Tree(d.Other())[q].kind, NodeOf(c.Tree(d.Other())[q]));
    }
  }

  function After(w: World, op: Op): World {
    w.With(op.dst, Applied(w, op).fs)
  }

  lemma ExecTwo(w: World, x: Op, y: Op)
    requires Applied(w, x).ok && Applied(After(w, x), y).ok
    ensures ExecAll(w, [x, y]) == Outcome(After(After(w, x), y), 0)
  {
    hide Applied;
    assert [x, y][..1] == [x];
    ExecOne(w, x);
  }

  lemma ExecThree(w: World, x: Op, y: Op, z: Op)
    requires Applied(w, x).ok && Applied(After(w, x), y).ok && Applied(After(After(w, x), y), z).ok
    ensures ExecAll(w, [x, y, z]) == Outcome(After(After(After(w, x), y), z), 0)
  {
    hide Applied;
    assert [x, y, z][..2] == [x, y];
    ExecTwo(w, x, y);
  }

  lemma SanePut(c: Input, e: Plan, d: Side, q: Path, v: Option<Node>)
    requires Sane(c, e) && c.On(d.Other(), q) != Some(DirNode)
    ensures Sane(c, Put(e, d, q, v))
  {
  }

  lemma ClashIsNoDir(c: Input, q: Path)
    requires Sound(c) && c.Clashes(q)
    ensures NoDir(c, q)
  {
    hide Sound;
    AgreeAt(c, q);
  }

  /** Step one of both conflicts: the loser's version moves to the conflict name. */
  lemma MoveAside(c: Input, done: set<Path>, q: Path, d: Side, w: World) returns (e: Plan)
    requires Sound(c) && Ordinary(c, q) && q !in done && done <= AllPaths(c.b, c.p, c.s) && c.Clashes(q)
    requires Holds(c, Expected(c, done), w) && c.On(d, q) != None
    ensures var op := ConflictRename(d, q, ConflictPath(q, c.stamp));
      Applied(w, op).ok && Holds(c, e, After(w, op)) && Sane(c, e)
    ensures e == Put(Put(Expected(c, done), d, q, None), d, ConflictPath(q, c.stamp), c.On(d, q))
  {
    hide Sound, Ordinary, Holds, ExpectedAt, Applied, Sane, Merged, Clash, ConflictPath, AllPaths;
    var x := ConflictPath(q, c.stamp);
    OrdinaryCell(c, done, d, q);
    ConflictCell(c, done, q, d);
    ClashIsNoDir(c, q);
    StepConflictRename(c, Expected(c, done), w, d, q, x);
    ExpectedIsSane(c, done);
    SanePut(c, Expected(c, done), d, q, None);
    SanePut(c, Put(Expected(c, done), d, q, None), d, x, c.On(d, q));
    e := Put(Put(Expected(c, done), d, q, None), d, x, c.On(d, q));
  }

  /** Step two: the other side gets the loser's version under the conflict name too. */
  lemma CopyAside(c: Input, q: Path, d: Side, w: World, e: Plan, x: Path, kind: FileType)
    requires Sound(c) && c.Clashes(q) && c.On(d, q) != None && c.On(d, q) != Some(DirNode)
    requires (kind == Symlink <==> c.On(d, q).value.LinkNode?)
    requires Holds(c, e, w) && Sane(c, e) && x != [] && Parent(q) == Parent(x)
    requires e(d, x) == c.On(d, q) && e(d.Other(), x) == None && c.On(d, x) == None
    ensures var op := Copy(d.Other(), d, x, kind);
      && Applied(w, op).ok
      && Holds(c, Put(e, d.Other(), x, c.On(d, q)), After(w, op)) && Sane(c, Put(e, d.Other(), x, c.On(d, q)))
  {
    hide Sound, Holds, Applied, Sane, Merged, Parent;
    NotEarly(c, e, w, d, x);
    StepCopy(c, e, w, d.Other(), q, x, kind, c.On(d, q).value);
    SanePut(c, e, d.Other(), x, c.On(d, q));
  }

  lemma ClashUnit(c: Input, done: set<Path>, q: Path, w: World)
    requires Sound(c) && Ordinary(c, q) && q !in done && done <= AllPaths(c.b, c.p, c.s)
    requires c.Clashes(q) && c.On(Primary, q) != None && c.On(Secondary, q) != None
    requires Holds(c, Expected(c, done), w)
    ensures Reached(c, done, q, ExecAll(w, Creates(Unit(c, q).ops)))
  {
    hide Sound, Ordinary, Holds, ExpectedAt, Applied, Sane, ConflictPath, AllPaths, Unit, Creates, Brings, Merged;
    hide Clash;
    var x := ConflictPath(q, c.stamp);
    var op1, op2, op3 := ConflictRename(Secondary, q, x), Copy(Primary, Secondary, x, c.s[q].kind),
      Copy(Secondary, Primary, q, c.p[q].kind);
    ClashOps(c, q);
    ClashIsNoDir(c, q);
    ConflictCell(c, done, q, Primary);
    ConflictCell(c, done, q, Secondary);
    OrdinaryCell(c, done, Primary, q);
    var e1 := MoveAside(c, done, q, Secondary, w);
    CopyAside(c, q, Secondary, After(w, op1), e1, x, c.s[q].kind);
    var e2 := Put(e1, Primary, x, c.On(Secondary, q));
    var w2 := After(After(w, op1), op2);
    NotEarly(c, e2, w2, Primary, q);
    ClashBrings(c, q, Secondary);
    StepCopy(c, e2, w2, Secondary, q, q, c.p[q].kind, c.On(Primary, q).value);
    ExecThree(w, op1, op2, op3);
    ClashCells(c, done, q);
    SameCells(c, Put(e2, Secondary, q, c.On(Primary, q)), Expected(c, done + {q}), After(w2, op3));
  }

  lemma ClashBrings(c: Input, q: Path, d: Side)
    requires c.Clashes(q) && c.On(d.Other(), q) != None
    ensures Brings(c, d, q)
  {
  }

  lemma ClashCells(c: Input, done: set<Path>, q: Path)
    requires Sound(c) && Ordinary(c, q) && q !in done && done <= AllPaths(c.b, c.p, c.s)
    requires c.Clashes(q) && c.On(Primary, q) != None && c.On(Secondary, q) != None
    ensures var x := ConflictPath(q, c.stamp); var e := Expected(c, done);
      var moved := Put(Put(e, Secondary, q, None), Secondary, x, c.On(Secondary, q));
      var e' := Put(Put(moved, Primary, x, c.On(Secondary, q)), Secondary, q, c.On(Primary, q));
      forall d: Side, y: Path :: e'(d, y) == Expected(c, done + {q})(d, y)
  {
    hide Sound, Ordinary, ExpectedAt, ConflictPath, AllPaths;
    var x := ConflictPath(q, c.stamp);
    OrdinaryCell(c, done, Primary, q);
    forall d: Side, y: Path | y != q && y != x ensures ExpectedAt(c, done + {q}, d, y) == ExpectedAt(c, done, d, y) {
      OtherCells(c, done, q, d, y);
    }
    forall d: Side ensures ExpectedAt(c, done + {q}, d, q) == c.Merge(q)
      && ExpectedAt(c, done + {q}, d, x) == c.Loser(q) && x != q {
      ConflictCell(c, done, q, d);
      OrdinaryCell(c, done + {q}, d, q);
    }
  }

  lemma ClashDeleteUnit(c: Input, done: set<Path>, q: Path, w: World, d: Side)
    requires Sound(c) && Ordinary(c, q) && q !in done && done <= AllPaths(c.b, c.p, c.s)
    requires c.Clashes(q) && c.On(d, q) != None && c.On(d.Other(), q) == None
    requires Holds(c, Expected(c, done), w)
    ensures Reached(c, done, q, ExecAll(w, Creates(Unit(c, q).ops)))
  {
    hide Sound, Ordinary, Holds, ExpectedAt, Applied, Sane, ConflictPath, AllPaths, Unit, Creates, Brings, Merged;
    hide Clash;
    var x := ConflictPath(q, c.stamp);
    var kind := c.Tree(d)[q].kind;
    var op1, op2 := ConflictRename(d, q, x), Copy(d.Other(), d, x, kind);
    ClashOps(c, q);
    ClashIsNoDir(c, q);
    ConflictCell(c, done, q, Primary);
    ConflictCell(c, done, q, Secondary);
    var e1 := MoveAside(c, done, q, d, w);
    CopyAside(c, q, d, After(w, op1), e1, x, kind);
    ExecTwo(w, op1, op2);
    ClashDeleteCells(c, done, q, d);
    SameCells(c, Put(e1, d.Other(), x, c.On(d, q)), Expected(c, done + {q}), After(After(w, op1), op2));
  }

  lemma ClashDeleteCells(c: Input, done: set<Path>, q: Path, d: Side)
    requires Sound(c) && Ordinary(c, q) && q !in done && done <= AllPaths(c.b, c.p, c.s)
    requires c.Clashes(q) && c.On(d, q) != None && c.On(d.Other(), q) == None
    ensures var x := ConflictPath(q, c.stamp); var e := Expected(c, done);
      var e' := Put(Put(Put(e, d, q, None), d, x, c.On(d, q)), d.Other(), x, c.On(d, q));
      forall d': Side, y: Path :: e'(d', y) == Expected(c, done + {q})(d', y)
  {
    hide Sound, Ordinary, ExpectedAt, ConflictPath, AllPaths;
    var x := ConflictPath(q, c.stamp);
    OrdinaryCell(c, done, d.Other(), q);
    forall d': Side, y: Path | y != q && y != x ensures ExpectedAt(c, done + {q}, d', y) == ExpectedAt(c, done, d', y) {
      OtherCells(c, done, q, d', y);
    }
    forall d': Side ensures ExpectedAt(c, done + {q}, d', q) == c.Merge(q)
      && ExpectedAt(c, done + {q}, d', x) == c.Loser(q) && x != q {
      ConflictCell(c, done, q, d');
      OrdinaryCell(c, done + {q}, d', q);
    }
  }

  /** One path of the merge: no operation fails, and exactly its cells change as planned. */
  lemma OneUnit(c: Input, done: set<Path>, q: Path, w: World)
    requires Sound(c) && Ordinary(c, q) && q !in done && done <= AllPaths(c.b, c.p, c.s)
    requires Holds(c, Expected(c, done), w)
    ensures Reached(c, done, q, ExecAll(w, Creates(Unit(c, q).ops)))
  {
    hide Sound, Ordinary, Holds, ExpectedAt, Unit, Creates, Reached, Idle, AllPaths, ExecAll;
    if Idle(c, q) {
      IdleUnit(c, done, q, w);
    } else if !c.Clashes(q) {
      CreateUnit(c, done, q, w);
    } else if c.On(Primary, q) == None {
      ClashDeleteUnit(c, done, q, w, Secondary);
    } else if c.On(Secondary, q) == None {
      ClashDeleteUnit(c, done, q, w, Primary);
    } else {
      ClashUnit(c, done, q, w);
    }
  }

  ghost predicate Worklist(c: Input, paths: seq<Path>) {
    && NoRoot(paths)
    && (forall i :: 0 <= i < |paths| ==> Ordinary(c, paths[i]))
    && forall i, j :: 0 <= i < j < |paths| ==> paths[i] != paths[j]
  }

  lemma WorklistFront(c: Input, paths: seq<Path>)
    requires Worklist(c, paths) && paths != []
    ensures NoRoot(paths)
    ensures var front, q := paths[..|paths| - 1], paths[|paths| - 1];
      && Worklist(c, front) && Ordinary(c, q) && q !in Elements(front) && Elements(front) <= AllPaths(c.b, c.p, c.s)
      && Elements(front) + {q} == Elements(paths)
  {
    var front := paths[..|paths| - 1];
    forall x | x in front ensures x in AllPaths(c.b, c.p, c.s) {
      assert Ordinary(c, x);
    }
    hide Ordinary, AllPaths;
  }

  lemma VisitsWorklist(c: Input, paths: seq<Path>)
    requires Sound(c) && Visits(c, paths)
    ensures Worklist(c, paths)
  {
    hide Sound, Ordinary, Consumed, AllPaths;
    forall i | 0 <= i < |paths| ensures Ordinary(c, paths[i]) {
      VisitedIsOrdinary(c, paths, paths[i]);
    }
  }

  function CreatesOf(c: Input, paths: seq<Path>): seq<Op>
    requires NoRoot(paths)
  {
    Creates(PathsEffect(c.b, c.p, c.s, c.stamp, paths).ops)
  }

  lemma CreatesOfLast(c: Input, paths: seq<Path>, w: World)
    requires NoRoot(paths) && paths != []
    ensures var before := ExecAll(w, CreatesOf(c, paths[..|paths| - 1]));
      var last := ExecAll(before.w, Creates(Unit(c, paths[|paths| - 1]).ops));
      ExecAll(w, CreatesOf(c, paths)) == Outcome(last.w, before.errs + last.errs)
  {
    hide PathEffect;
    var front, q := paths[..|paths| - 1], paths[|paths| - 1];
    var ops := PathsEffect(c.b, c.p, c.s, c.stamp, front).ops;
    SplitConcat(ops, Unit(c, q).ops);
    ExecConcat(w, Creates(ops), Creates(Unit(c, q).ops));
  }

  /** All paths: the creating operations of the merge loop succeed, in whatever order the paths come. */
  lemma {:induction false} AllUnits(c: Input, paths: seq<Path>, w: World)
    requires Sound(c) && Worklist(c, paths)
    requires Holds(c, Expected(c, {}), w)
    ensures ExecAll(w, CreatesOf(c, paths)).errs == 0
    ensures Holds(c, Expected(c, Elements(paths)), ExecAll(w, CreatesOf(c, paths)).w)
    decreases paths, 1
  {
    hide Sound, Holds, ExpectedAt, Ordinary, Unit;
    if paths == [] {
      assert Elements([]) == {};
    } else {
      AllUnitsStep(c, paths, w);
    }
  }

  lemma {:induction false} AllUnitsStep(c: Input, paths: seq<Path>, w: World)
    requires Sound(c) && Worklist(c, paths) && paths != []
    requires Holds(c, Expected(c, {}), w)
    ensures ExecAll(w, CreatesOf(c, paths)).errs == 0
    ensures Holds(c, Expected(c, Elements(paths)), ExecAll(w, CreatesOf(c, paths)).w)
    decreases paths, 0
  {
    hide Sound, Holds, ExpectedAt, Ordinary, Unit, Worklist, CreatesOf, ExecAll, AllPaths, Creates, Elements;
    var front, q := paths[..|paths| - 1], paths[|paths| - 1];
    WorklistFront(c, paths);
    AllUnits(c, front, w);
    CreatesOfLast(c, paths, w);
    OneUnit(c, Elements(front), q, ExecAll(w, CreatesOf(c, front)).w);
  }
}

/** The pass of the service (doPass and forceOneway in main.go): merge, apply in order, save the new baseline. */
module Service {
  import opened Options
  import opened Model
  import opened Reconcile
  import opened Executor
  import opened Merge
  import opened Units
  import opened Convergence
  import opened Edits
  import opened Passes

  /** Two scans of trees that agree on which paths are directories. */
  ghost predicate ScansFit(p: Tree, s: Tree) {
    && PrefixClosed(Nodes(p)) && PrefixClosed(Nodes(s))
    && forall q :: q in p && q in s ==> (p[q].kind == Dir <==> s[q].kind == Dir)
  }

  class Service {
    var baseline: Tree
    const disk: Executor

    constructor (saved: Tree, disk: Executor)
      ensures baseline == saved && this.disk == disk
    {
      baseline, this.disk := saved, disk;
    }

    /** p and s are the scans of the two trees.  One-way mode pins the baseline to the tree that is not the source: it
        pushes the primary to the secondary or pulls the secondary to the primary.  A pass without operations returns
        early and saves nothing. */
    method Pass(p: Tree, s: Tree, stamp: string, pull: Option<bool>) returns (ghost c: Input, ghost paths: seq<Path>)
      requires [] !in p && [] !in s && (pull == None ==> [] !in baseline)
      requires disk.Now() == World(Nodes(p), Nodes(s))
      modifies this`baseline, disk
      ensures c.p == p && c.s == s && c.stamp == stamp && (pull == None ==> c.b == old(baseline))
      ensures Detected(c.b, p, s, c.onPrimary) && Detected(c.b, s, p, c.onSecondary) && Visits(c, paths)
      ensures disk.Now() == PassOutcome(c, paths).w
      ensures baseline == if PassEffect(c, paths).ops == [] then old(baseline) else PassEffect(c, paths).base
      ensures pull == Some(false) && ScansFit(p, s) ==>
        && (forall op :: op in PassEffect(c, paths).ops ==> op.dst == Secondary) && PassEffect(c, paths).conflicts == 0
        && disk.Now().primary == Nodes(p)
        && (disk.Now().secondary == Nodes(p) <==> Faithful(c) && Unshared(c))
      ensures pull == Some(true) && ScansFit(p, s) ==>
        && (forall op :: op in PassEffect(c, paths).ops ==> op.dst == Primary) && PassEffect(c, paths).conflicts == 0
        && disk.Now().secondary == Nodes(s)
        && (disk.Now().primary == Nodes(s) <==> Faithful(c) && Unshared(c))
    {
      hide Detected, Consumed, AllPaths, Lists, ExecAll, MergeEffect, ScansFit, PassOutcome, Faithful, Unshared;
      var b := baseline;
      if pull != None { b := if pull.value then p else s; }
      RootNowhere(b, p, s);
      var res, rp, rs, visited := ReconcileTrees(b, p, s, stamp);
      c, paths := Input(b, p, s, stamp, rp, rs), visited;
      assert res.Value() == PassEffect(c, paths);
      if pull != None && ScansFit(p, s) { OneWayPass(c, if pull.value then Primary else Secondary, paths); }
      if |res.ops| == 0 {
        NothingToApply(c, paths);
        return;
      }
      var errs := disk.ApplyOrdered(res.ops);
      PassRuns(c, paths, res.ops);
      baseline := res.newBaseline;
    }
  }

  lemma RootNowhere(b: Tree, p: Tree, s: Tree)
    requires [] !in b && [] !in p && [] !in s
    ensures [] !in AllPaths(b, p, s)
  {
  }

  lemma PassRuns(c: Input, paths: seq<Path>, ops: seq<Op>)
    requires NoRoot(paths) && ops == PassEffect(c, paths).ops
    ensures PassOutcome(c, paths) == InOrder(World(Nodes(c.p), Nodes(c.s)), ops)
  {
  }

  /** What a pass with the baseline pinned to the tree of m does to the two sides. */
  lemma OneWayPass(c: Input, m: Side, paths: seq<Path>)
    requires ScansFit(c.p, c.s) && Visits(c, paths) && OneWay(c, m)
    requires Detected(c.b, c.p, c.s, c.onPrimary) && Detected(c.b, c.s, c.p, c.onSecondary)
    ensures (forall op :: op in PassEffect(c, paths).ops ==> op.dst == m) && PassEffect(c, paths).conflicts == 0
    ensures PassOutcome(c, paths).w.On(m.Other()) == Nodes(c.Tree(m.Other()))
    ensures PassOutcome(c, paths).w.On(m) == Nodes(c.Tree(m.Other())) <==> Faithful(c) && Unshared(c)
  {
    hide ScansFit, Lists, Faithful, Unshared, PassEffect, PassOutcome, Detected, Sound;
    OneWaySound(c, m);
    Mirror(c, m, paths);
  }

  lemma OneWaySound(c: Input, m: Side)
    requires ScansFit(c.p, c.s) && OneWay(c, m)
    requires Detected(c.b, c.p, c.s, c.onPrimary) && Detected(c.b, c.s, c.p, c.onSecondary)
    ensures Sound(c)
  {
    hide Detected, ConflictPath;
    assert [] !in Nodes(c.p) && [] !in Nodes(c.s);
    forall q: Path ensures (NoDir(c, q) || OnlyDir(c, q)) && !c.Clashes(q) {
    }
  }

  lemma NothingToApply(c: Input, paths: seq<Path>)
    requires NoRoot(paths) && PassEffect(c, paths).ops == []
    ensures PassOutcome(c, paths).w == World(Nodes(c.p), Nodes(c.s))
  {
    hide PassEffect;
  }

  // ---- the early return

  lemma SilentUnit(c: Input, q: Path)
    requires q != [] && Unit(c, q).ops == []
    ensures c.On(Primary, q) == c.On(Secondary, q)
  {
    hide Unit, Idle, ConflictPath;
    if c.On(Primary, q) != c.On(Secondary, q) {
      if c.Clashes(q) {
        ClashedOps(c, q);
      } else if Idle(c, q) {
        IdleDrops(c, q);
        DroppedOps(c, q, Behind(c, q));
      } else {
        BroughtOps(c, q);
      }
    }
  }

  lemma {:induction false} SilentPaths(c: Input, paths: seq<Path>, q: Path)
    requires NoRoot(paths) && PathsEffect(c.b, c.p, c.s, c.stamp, paths).ops == [] && q in paths
    ensures c.On(Primary, q) == c.On(Secondary, q)
  {
    hide PathEffect;
    if q == paths[|paths| - 1] {
      SilentUnit(c, q);
    } else {
      assert q in paths[..|paths| - 1];
      SilentPaths(c, paths[..|paths| - 1], q);
    }
  }

  /** Without operations the two sides agree, and the baseline that is not saved is what they agree on. */
  lemma SilentPass(c: Input, paths: seq<Path>, x: Path)
    requires Sound(c) && Visits(c, paths) && PassEffect(c, paths).ops == []
    ensures c.On(Primary, x) == c.On(Secondary, x) == NodeAt(PassEffect(c, paths).base, x)
  {
    hide Sound, Target;
    forall q: Path ensures c.On(Primary, q) == c.On(Secondary, q) {
      SilentCell(c, paths, q);
    }
    BaselineCell(c, paths, x);
    AgreedTarget(c, x);
  }

  lemma SilentCell(c: Input, paths: seq<Path>, q: Path)
    requires Visits(c, paths) && PassEffect(c, paths).ops == []
    ensures c.On(Primary, q) == c.On(Secondary, q)
  {
    hide PathsEffect;
    assert |RenameOps(Secondary, c.onPrimary)| == 0 && |RenameOps(Primary, c.onSecondary)| == 0;
    AllPathsAt(c, q);
    if q in AllPaths(c.b, c.p, c.s) {
      SilentPaths(c, paths, q);
    }
  }

  lemma AgreedTarget(c: Input, x: Path)
    requires forall q: Path :: c.On(Primary, q) == c.On(Secondary, q)
    ensures Target(c, x) == c.On(Primary, x)
  {
    hide Origin;
    assert c.On(Primary, x) == c.On(Secondary, x);
    if Origin(x, c.stamp) != None {
      var q := Origin(x, c.stamp).value;
      assert c.On(Primary, q) == c.On(Secondary, q);
    }
  }

  /** For a baseline entry to be replaced by another without any later merge noticing, it has to be the same. */
  lemma MergeTellsBaselines(u: Option<Node>, v: Option<Node>)
    requires forall np: Option<Node>, ns: Option<Node> :: Merged(u, np, ns) == Merged(v, np, ns)
    ensures u == v
  {
    assert Merged(u, v, u) == Merged(v, v, u);
  }

  /** The baseline that the early return throws away would never make a difference to a later merge exactly if both
      sides still are what the old baseline says. */
  lemma EarlyReturnExact(c: Input, paths: seq<Path>)
    requires Sound(c) && Visits(c, paths) && PassEffect(c, paths).ops == []
    ensures Nodes(c.p) == Nodes(c.s) == Nodes(PassEffect(c, paths).base)
    ensures (forall q: Path, np: Option<Node>, ns: Option<Node> ::
               Merged(NodeAt(PassEffect(c, paths).base, q), np, ns) == Merged(c.B(q), np, ns))
        <==> Nodes(c.p) == Nodes(c.b)
  {
    hide Sound, Lists, PassEffect, Merged;
    var base := PassEffect(c, paths).base;
    forall x: Path ensures At(Nodes(c.p), x) == At(Nodes(c.s), x) == At(Nodes(base), x) {
      SilentPass(c, paths, x);
      NodesAt(c.p, x);
      NodesAt(c.s, x);
      NodesAt(base, x);
    }
    SameCellsSameTree(Nodes(c.p), Nodes(c.s));
    SameCellsSameTree(Nodes(c.p), Nodes(base));
    if Nodes(c.p) == Nodes(c.b) {
      forall q: Path ensures NodeAt(base, q) == c.B(q) {
        NodesAt(base, q);
        NodesAt(c.b, q);
      }
    } else if forall q: Path, np: Option<Node>, ns: Option<Node> ::
                Merged(NodeAt(base, q), np, ns) == Merged(c.B(q), np, ns) {
      forall q: Path ensures At(Nodes(base), q) == At(Nodes(c.b), q) {
        MergeTellsBaselines(NodeAt(base, q), c.B(q));
        NodesAt(base, q);
        NodesAt(c.b, q);
      }
      SameCellsSameTree(Nodes(base), Nodes(c.b));
    }
  }

  /** Something that both sides have got meanwhile and d then deletes: with the old baseline the next pass brings it
      back, with the new one saved it carries the deletion out (a directory may be made again for something below
      it). */
  lemma EarlyReturnUndoesDeletion(c: Input, paths: seq<Path>, d: Side, q: Path, next: Input, paths': seq<Path>)
    requires Sound(c) && Visits(c, paths) && PassEffect(c, paths).ops == [] && Sound(next) && Visits(next, paths')
    requires c.B(q) == None && c.On(d, q) != None
    requires next.On(d, q) == None && next.On(d.Other(), q) == c.On(d, q)
    ensures next.b == c.b && !Eaten(next, d.Other(), q) && !Unreplayed(next, d.Other(), q)
      ==> Finally(next, paths', d, q) == c.On(d, q) && Finally(next, paths', d.Other(), q) == c.On(d, q)
    ensures next.b == PassEffect(c, paths).base
      ==> && next.Merge(q) == None
          && (c.On(d, q) != Some(DirNode)
            ==> Finally(next, paths', d, q) == None && Finally(next, paths', d.Other(), q) == None)
  {
    hide Sound, Lists, PassEffect, Finally, Eaten, Unreplayed, Place;
    SilentPass(c, paths, q);
    if next.b == PassEffect(c, paths).base {
      if c.On(d, q) != Some(DirNode) {
        DroppedFileGoes(next, paths', d.Other(), q);
      }
    } else if next.b == c.b {
      NewHere(next, d.Other(), q);
      AwayCell(next, paths', d.Other(), q);
      HomeCell(next, paths', d.Other(), q, q);
    }
  }
}

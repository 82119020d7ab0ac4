/** The sender's persisted baseline: what acknowledged operations make of it, and why it describes the receiver. */
module Baseline {
  import opened Options
  import opened Model
  import opened FileTree
  import opened Reconcile
  import opened Executor
  import opened Merge
  import opened Convergence
  import opened Passes
  import opened RemoteTree

  /** applyToBaseline: a removed or renamed directory takes its children along. */
  function Acked(b: Tree, op: Op, prim: Tree): Tree {
    match op
    case Delete(_, q) => b - {q}
    case Rmdir(_, q) => map k | k in b && !(q <= k) :: b[k]
    case Rename(_, from, to) => Move(b, from, to)
    case _ => if op.path in prim then b[op.path := prim[op.path]] else b
  }

  function AckedAll(b: Tree, ops: seq<Op>, prim: Tree): Tree {
    if ops == [] then b
    else Acked(AckedAll(b, ops[..|ops| - 1], prim), ops[|ops| - 1], prim)
  }

  /** An operation as the merge makes them for the sender, which only brings prim to the other side. */
  predicate ForPeer(prim: Tree, op: Op) {
    op.dst == Secondary && op.path != []
    && match op
       case Mkdir(_, q) => q in prim && prim[q].kind == Dir
       case Copy(_, _, q, _) => q in prim && prim[q].kind != Dir
       case Delete(_, q) => q !in prim
       case Rmdir(_, q) => q !in prim
       case Rename(_, from, to) => from != [] && from !in prim && to in prim && from != to
       case ConflictRename(_, _, _) => false
  }

  function EntryFor(prim: Tree, op: Op): Entry {
    if op.path in prim then prim[op.path] else Entry(File, 0, 0, 0, 0, 0, "")
  }

  // ---- the baseline describes the receiver

  /** A file or link of the baseline is on the receiver as it is, a directory is one there, and where the baseline has
      nothing the receiver has at most a directory. */
  predicate CellMirrors(nb: Option<Node>, now: Option<Node>) {
    if nb == None then now == None || now == Some(DirNode) else now == nb
  }

  ghost predicate Mirrors(b: Tree, f: FileSystem) {
    && PrefixClosed(f)
    && forall q: Path :: CellMirrors(NodeAt(b, q), At(f, q))
  }

  lemma MirrorsAt(b: Tree, f: FileSystem, q: Path)
    requires Mirrors(b, f)
    ensures CellMirrors(NodeAt(b, q), At(f, q)) && PrefixClosed(f)
  {
  }

  /** In terms of files: the same ones with the same identity on both sides; and every recorded directory exists. */
  lemma FilesAreExact(b: Tree, f: FileSystem, q: Path)
    requires Mirrors(b, f)
    ensures (exists n: Node :: n != DirNode && NodeAt(b, q) == Some(n))
      <==> (exists n: Node :: n != DirNode && At(f, q) == Some(n))
    ensures At(f, q) != None && At(f, q) != Some(DirNode) ==> NodeAt(b, q) == At(f, q)
    ensures NodeAt(b, q) == Some(DirNode) ==> At(f, q) == Some(DirNode)
  {
    MirrorsAt(b, f, q);
    if n: Node :| n != DirNode && At(f, q) == Some(n) {
      assert NodeAt(b, q) == Some(n);
    }
    if n: Node :| n != DirNode && NodeAt(b, q) == Some(n) {
      assert At(f, q) == Some(n);
    }
  }

  lemma MoreDirsMirror(b: Tree, f: FileSystem, g: FileSystem)
    requires Mirrors(b, f) && OnlyAddsDirs(f, g) && PrefixClosed(g)
    ensures Mirrors(b, g)
  {
    forall q: Path ensures CellMirrors(NodeAt(b, q), At(g, q)) {
      MirrorsAt(b, f, q);
      assert At(g, q) == At(f, q) || (At(f, q) == None && At(g, q) == Some(DirNode));
    }
  }

  /** The peer serves an operation and the baseline records it: the one still describes the other. */
  lemma ServedMirrors(b: Tree, f: FileSystem, op: Op, prim: Tree)
    requires Mirrors(b, f) && ForPeer(prim, op) && Served(f, op, EntryFor(prim, op)).ok
    ensures Mirrors(Acked(b, op, prim), Served(f, op, EntryFor(prim, op)).fs)
  {
    hide Mirrors, CellMirrors;
    var e := EntryFor(prim, op);
    var b', g := Acked(b, op, prim), Served(f, op, e).fs;
    MirrorsAt(b, f, op.path);
    ServedKeepsTree(f, op, e);
    forall q: Path ensures CellMirrors(NodeAt(b', q), At(g, q)) {
      ServedCell(b, f, op, prim, q);
    }
    AllMirror(b', g);
  }

  lemma AllMirror(b: Tree, f: FileSystem)
    requires PrefixClosed(f) && forall q: Path :: CellMirrors(NodeAt(b, q), At(f, q))
    ensures Mirrors(b, f)
  {
  }

  lemma ServedCell(b: Tree, f: FileSystem, op: Op, prim: Tree, q: Path)
    requires Mirrors(b, f) && ForPeer(prim, op) && Served(f, op, EntryFor(prim, op)).ok
    ensures CellMirrors(NodeAt(Acked(b, op, prim), q), At(Served(f, op, EntryFor(prim, op)).fs, q))
  {
    hide Mirrors, MkdirAll, Passable, RenameTo, Move, PrefixClosed;
    MirrorsAt(b, f, q);
    match op
    case Mkdir(_, x) => MadeCell(f, x, q);
    case Copy(_, _, x, _) =>
      if prim[x].kind == Symlink { LinkCell(b, f, x, prim[x].linkTarget, q); } else { FileCell(f, x, prim[x], q); }
    case Delete(_, x) => RemoveAt(f, x, q);
    case Rmdir(_, x) => RemoveAllAt(f, x, q);
    case Rename(_, from, to) => RenamedCell(b, f, from, to, q);
  }

  lemma MadeCell(f: FileSystem, x: Path, q: Path)
    requires MkdirAll(f, x).ok && x != []
    ensures At(MkdirAll(f, x).fs, q) == At(f, q) || (At(f, q) == None && At(MkdirAll(f, x).fs, q) == Some(DirNode))
    ensures At(MkdirAll(f, x).fs, x) == Some(DirNode)
  {
    MkdirOnlyAdds(f, x);
    MkdirAllAt(f, x, x);
  }

  lemma FileCell(f: FileSystem, x: Path, e: Entry, q: Path)
    requires FileArrives(f, x, e.size, e.mtimeNS).ok
    ensures var g := FileArrives(f, x, e.size, e.mtimeNS).fs;
      if q == x then At(g, q) == Some(FileNode(e.size, e.mtimeNS))
      else At(g, q) == At(f, q) || (At(f, q) == None && At(g, q) == Some(DirNode))
  {
    MkdirOnlyAdds(f, Parent(x));
  }

  lemma LinkCell(b: Tree, f: FileSystem, x: Path, target: string, q: Path)
    requires LinkArrives(f, x, target).ok
    ensures var g := LinkArrives(f, x, target).fs;
      if q == x then At(g, q) == Some(LinkNode(target))
      else At(g, q) == At(f, q) || (At(f, q) == None && At(g, q) == Some(DirNode))
  {
    MkdirOnlyAdds(Remove(f, x).fs, Parent(x));
    if Remove(f, x).ok {
      RemoveAt(f, x, q);
    }
  }

  lemma RenamedCell(b: Tree, f: FileSystem, from: Path, to: Path, q: Path)
    requires Mirrors(b, f) && RenameEntry(f, from, to).ok && from != to
    ensures CellMirrors(NodeAt(Move(b, from, to), q), At(RenameEntry(f, from, to).fs, q))
  {
    hide Move, Mirrors, MkdirAll, CellMirrors;
    var up := MkdirAll(f, Parent(to)).fs;
    MirrorsAt(b, f, to);
    MkdirOnlyAdds(f, Parent(to));
    MkdirAllKeeps(f, Parent(to));
    MoreDirsMirror(b, f, up);
    MovedCell(b, up, from, to, q);
  }

  lemma MovedCell(b: Tree, f: FileSystem, from: Path, to: Path, q: Path)
    requires Mirrors(b, f) && RenameTo(f, from, to).ok && from != to
    ensures CellMirrors(NodeAt(Move(b, from, to), q), At(Move(f, from, to), q))
  {
    hide Move, Mirrors;
    if j :| CameFrom(f, from, to, q, j) {
      Arrived(f, from, to, q, j);
      MirrorsAt(b, f, j);
      if j in b {
        Arrived(b, from, to, q, j);
      } else {
        NotInBaseline(b, f, from, to, q, j);
      }
    } else {
      NotArrived(f, from, to, q);
      forall j ensures !CameFrom(b, from, to, q, j) {
        MirrorsAt(b, f, j);
        assert !CameFrom(f, from, to, q, j);
      }
      NotArrived(b, from, to, q);
      MirrorsAt(b, f, q);
    }
  }

  lemma OriginIs<T>(m: map<Path, T>, from: Path, to: Path, q: Path, j: Path)
    requires CameFrom(m, from, to, q, j)
    ensures to <= q && j == from + q[|to|..]
  {
  }

  lemma NotInBaseline(b: Tree, f: FileSystem, from: Path, to: Path, q: Path, j: Path)
    requires Mirrors(b, f) && RenameTo(f, from, to).ok && from != to && CameFrom(f, from, to, q, j) && j !in b
    ensures q !in Move(b, from, to)
  {
    hide Move, Mirrors;
    OriginIs(f, from, to, q, j);
    forall i ensures !CameFrom(b, from, to, q, i) {
      if CameFrom(b, from, to, q, i) {
        OriginIs(b, from, to, q, i);
      }
    }
    NotArrived(b, from, to, q);
    MirrorsAt(b, f, q);
    MirrorsAt(b, f, j);
    MirrorsAt(b, f, to);
    TargetWasFree(f, from, to, q, j);
  }

  /** What a rename of a directory puts somewhere meets nothing there. */
  lemma TargetWasFree(f: FileSystem, from: Path, to: Path, q: Path, j: Path)
    requires PrefixClosed(f) && RenameTo(f, from, to).ok && from != to && CameFrom(f, from, to, q, j)
    requires f[j] == DirNode || j != from
    ensures q !in f
  {
    if j != from {
      AncestorIsDir(f, j, from);
    }
    if q in f && q != to {
      AncestorIsDir(f, q, to);
    }
    assert j == from ==> q == to;
  }

  // ---- what disappears from the baseline

  /** Nothing lies below a file or link. */
  ghost predicate Tidy(b: Tree) {
    forall q, x :: q in b && x in b && b[q].kind != Dir && q <= x ==> q == x
  }

  lemma MirrorsTidy(b: Tree, f: FileSystem)
    requires Mirrors(b, f)
    ensures Tidy(b)
  {
    hide Mirrors;
    forall q, x | q in b && x in b && b[q].kind != Dir && q <= x ensures q == x {
      MirrorsAt(b, f, q);
      MirrorsAt(b, f, x);
      NothingBelow(f, q, x);
    }
  }

  /** The pass of the sender: the merge of the baseline, the primary and a copy of the baseline. */
  ghost predicate SenderPass(c: Input, paths: seq<Path>) {
    && OneWay(c, Secondary) && c.b == c.s
    && Detected(c.b, c.p, c.b, c.onPrimary) && Detected(c.b, c.b, c.p, c.onSecondary)
    && Visits(c, paths) && [] !in c.p && [] !in c.b
  }

  function SenderOps(c: Input, paths: seq<Path>): seq<Op>
    requires NoRoot(paths)
  {
    PassEffect(c, paths).ops
  }

  /** Where the operations of a path of the merge come from. */
  predicate UnitOp(b: Tree, prim: Tree, q: Path, op: Op) {
    op.dst == Secondary && op.path == q && q != []
    && ((op.Mkdir? && q in prim && prim[q].kind == Dir && NodeAt(b, q) != NodeAt(prim, q))
        || (op.Copy? && q in prim && prim[q].kind != Dir && NodeAt(b, q) != NodeAt(prim, q))
        || (op.Deletes() && q in b && q !in prim && (op.Rmdir? <==> b[q].kind == Dir)))
  }

  lemma UnitOps(c: Input, q: Path)
    requires OneWay(c, Secondary) && q != []
    ensures forall op :: op in Unit(c, q).ops ==> UnitOp(c.b, c.p, q, op)
    ensures NodeAt(c.b, q) != NodeAt(c.p, q) ==> exists op :: op in Unit(c, q).ops && UnitOp(c.b, c.p, q, op)
  {
    hide ConflictPath;
    if NodeAt(c.b, q) != NodeAt(c.p, q) {
      assert |Unit(c, q).ops| == 1;
      assert Unit(c, q).ops[0] in Unit(c, q).ops;
    }
  }

  lemma {:induction false} PathsOps(c: Input, paths: seq<Path>, op: Op)
    requires OneWay(c, Secondary) && NoRoot(paths)
    ensures op in PathsEffect(c.b, c.p, c.s, c.stamp, paths).ops ==> op.path in paths && UnitOp(c.b, c.p, op.path, op)
  {
    hide PathEffect;
    if paths != [] {
      PathsOps(c, paths[..|paths| - 1], op);
      UnitOps(c, paths[|paths| - 1]);
      assert op in Unit(c, paths[|paths| - 1]).ops
        ==> UnitOp(c.b, c.p, paths[|paths| - 1], op) && op.path == paths[|paths| - 1];
    }
  }

  lemma {:induction false} PathHasOp(c: Input, paths: seq<Path>, q: Path) returns (op: Op)
    requires OneWay(c, Secondary) && NoRoot(paths) && q in paths && NodeAt(c.b, q) != NodeAt(c.p, q)
    ensures op in PathsEffect(c.b, c.p, c.s, c.stamp, paths).ops && UnitOp(c.b, c.p, q, op)
  {
    hide PathEffect, UnitOp;
    var last := paths[|paths| - 1];
    if q == last {
      UnitOps(c, last);
      op :| op in Unit(c, last).ops && UnitOp(c.b, c.p, q, op);
    } else {
      assert q in paths[..|paths| - 1];
      op := PathHasOp(c, paths[..|paths| - 1], q);
    }
  }

  /** The renames of the pass, as operations. */
  predicate RenameOp(c: Input, op: Op) {
    op.Rename? && op.dst == Secondary && Renamed(op.oldPath, op.path) in c.onPrimary
    && PairOf(c.b, c.p, c.b, Renamed(op.oldPath, op.path))
  }

  lemma SenderNoRenamesBack(c: Input, paths: seq<Path>)
    requires SenderPass(c, paths)
    ensures c.onSecondary == []
  {
    NoNewFilesNoRenames(c.b, c.b, c.p, c.onSecondary);
  }

  /** Every operation of the pass is a rename found on the primary or belongs to one visited path. */
  lemma SenderOpKinds(c: Input, paths: seq<Path>, op: Op)
    requires SenderPass(c, paths) && op in SenderOps(c, paths)
    ensures RenameOp(c, op) || (op.path in paths && UnitOp(c.b, c.p, op.path, op))
    ensures ForPeer(c.p, op)
  {
    hide PathsEffect, Detected, Lists, Consumed;
    SenderNoRenamesBack(c, paths);
    PathsOps(c, paths, op);
    var renames := RenameOps(Secondary, c.onPrimary);
    if op in renames {
      var i :| 0 <= i < |renames| && renames[i] == op;
      DetectedPair(c.b, c.p, c.b, c.onPrimary, c.onPrimary[i]);
    }
  }

  lemma NoRootVisited(c: Input, paths: seq<Path>)
    requires SenderPass(c, paths)
    ensures NoRoot(paths)
  {
  }

  predicate FromGone(c: Input, q: Path) {
    q in Froms(c.onPrimary)
  }

  /** The paths the pass deletes, each counted once for the budget. */
  function DeletedPaths(ops: seq<Op>): set<Path> {
    set op | op in ops && op.Deletes() :: op.path
  }

  lemma {:induction false} DeletedCount(ops: seq<Op>)
    ensures |DeletedPaths(ops)| <= |Removals(ops)|
  {
    if ops == [] {
      assert DeletedPaths(ops) == {};
    } else {
      var front, op := ops[..|ops| - 1], ops[|ops| - 1];
      DeletedCount(front);
      assert ops == front + [op];
      assert DeletedPaths(ops) == DeletedPaths(front) + if op.Deletes() then {op.path} else {};
    }
  }

  /** A baseline path that the primary lacks: a rename has taken it, or the pass deletes it by its own operation. */
  lemma GoneIsCounted(c: Input, paths: seq<Path>, x: Path)
    requires SenderPass(c, paths) && x in c.b && x !in c.p
    ensures FromGone(c, x) || x in DeletedPaths(SenderOps(c, paths))
  {
    hide PathsEffect, Detected;
    SenderNoRenamesBack(c, paths);
    if x in paths {
      var op := PathHasOp(c, paths, x);
      assert op in SenderOps(c, paths);
    } else {
      assert x in Consumed(c.onPrimary);
      if x !in Froms(c.onPrimary) {
        var r :| r in c.onPrimary && r.to == x;
        DetectedPair(c.b, c.p, c.b, c.onPrimary, r);
      }
    }
  }

  ghost predicate SomeOf(ops: seq<Op>, c: Input, paths: seq<Path>)
    requires NoRoot(paths)
  {
    forall op :: op in ops ==> op in SenderOps(c, paths)
  }

  lemma AboveInPrim(prim: Tree, q: Path, x: Path)
    requires PrefixClosed(Nodes(prim)) && x in prim && q != [] && q <= x
    ensures q in prim
  {
    if q != x {
      assert x in Nodes(prim);
      AncestorIsDir(Nodes(prim), x, q);
      NodesAt(prim, q);
    }
  }

  /** No operation takes a path of the primary out of the baseline. */
  lemma {:induction false} PrimPathsStay(c: Input, paths: seq<Path>, ops: seq<Op>, x: Path)
    requires SenderPass(c, paths) && PrefixClosed(Nodes(c.p)) && SomeOf(ops, c, paths) && x in c.b && x in c.p
    ensures x in AckedAll(c.b, ops, c.p)
  {
    hide SenderPass, Acked, SenderOps;
    if ops != [] {
      var front, op := ops[..|ops| - 1], ops[|ops| - 1];
      assert op in ops;
      PrimPathsStay(c, paths, front, x);
      SenderOpKinds(c, paths, op);
      NotTaken(AckedAll(c.b, front, c.p), op, c.p, x);
    }
  }

  lemma NotTaken(b: Tree, op: Op, prim: Tree, x: Path)
    requires PrefixClosed(Nodes(prim)) && ForPeer(prim, op) && x in b && x in prim
    ensures x in Acked(b, op, prim)
  {
    hide Move;
    match op
    case Mkdir(_, q) =>
    case Copy(_, _, q, _) =>
    case Delete(_, q) =>
    case Rmdir(_, q) =>
      if q <= x {
        AboveInPrim(prim, q, x);
      }
    case Rename(_, from, to) =>
      if from <= x {
        AboveInPrim(prim, from, x);
      }
      StaysInMove(b, from, to, x);
    case ConflictRename(_, _, _) =>
  }

  lemma StaysInMove(b: Tree, from: Path, to: Path, x: Path)
    requires x in b && !(from <= x)
    ensures x in Move(b, from, to)
  {
  }

  /** Counted deletes bound what disappears: although one removed directory takes its whole subtree along, every entry
      that is gone afterwards was a delete of its own, or the old name of a rename. */
  lemma BoundedDamage(c: Input, paths: seq<Path>, ops: seq<Op>)
    requires SenderPass(c, paths) && PrefixClosed(Nodes(c.p)) && SomeOf(ops, c, paths)
    ensures var lost := c.b.Keys - AckedAll(c.b, ops, c.p).Keys - Froms(c.onPrimary);
      lost <= DeletedPaths(SenderOps(c, paths)) && |lost| <= |Removals(SenderOps(c, paths))|
  {
    hide SenderPass, SenderOps, AckedAll, DeletedPaths, SomeOf, Removals, Froms;
    NoRootVisited(c, paths);
    var lost := c.b.Keys - AckedAll(c.b, ops, c.p).Keys - Froms(c.onPrimary);
    forall x | x in lost ensures x in DeletedPaths(SenderOps(c, paths)) {
      if x in c.p {
        PrimPathsStay(c, paths, ops, x);
      }
      GoneIsCounted(c, paths, x);
    }
    DeletedCount(SenderOps(c, paths));
    SubsetCount(lost, DeletedPaths(SenderOps(c, paths)));
  }

  lemma {:induction false} SubsetCount(s: set<Path>, t: set<Path>)
    requires s <= t
    ensures |s| <= |t|
  {
    if s != {} {
      var x :| x in s;
      SubsetCount(s - {x}, t - {x});
    }
  }

  /** The same for the receiver's files: what was a file there and is nothing any more has disappeared from the
      baseline. */
  lemma ReceiverLoss(b: Tree, f: FileSystem, b': Tree, g: FileSystem, q: Path)
    requires Mirrors(b, f) && Mirrors(b', g)
    requires At(f, q) != None && At(f, q) != Some(DirNode) && At(g, q) == None
    ensures q in b && q !in b'
  {
    MirrorsAt(b, f, q);
    MirrorsAt(b', g, q);
  }

  // ---- two passes suffice

  /** Only paths of the primary come into the baseline. */
  lemma {:induction false} OnlyPrimAdded(c: Input, paths: seq<Path>, ops: seq<Op>, x: Path)
    requires SenderPass(c, paths) && PrefixClosed(Nodes(c.p)) && SomeOf(ops, c, paths) && Tidy(c.b)
    requires x in AckedAll(c.b, ops, c.p)
    ensures x in c.b || x in c.p
    decreases |ops|, 0
  {
    hide SenderPass, Acked, SenderOps, Tidy;
    if ops != [] {
      var front, op := ops[..|ops| - 1], ops[|ops| - 1];
      assert op in ops;
      if x in AckedAll(c.b, front, c.p) {
        OnlyPrimAdded(c, paths, front, x);
      } else {
        JustAdded(c, paths, front, op, x);
      }
    }
  }

  lemma {:induction false} JustAdded(c: Input, paths: seq<Path>, ops: seq<Op>, op: Op, x: Path)
    requires SenderPass(c, paths) && PrefixClosed(Nodes(c.p)) && SomeOf(ops, c, paths) && Tidy(c.b)
    requires op in SenderOps(c, paths) && x !in AckedAll(c.b, ops, c.p) && x in Acked(AckedAll(c.b, ops, c.p), op, c.p)
    ensures x in c.p
    decreases |ops|, 2
  {
    hide SenderPass, SenderOps, Tidy, AckedAll, Move;
    SenderOpKinds(c, paths, op);
    if op.Rename? {
      CarriedIsSource(c, paths, ops, op, x);
    }
  }

  /** A recorded rename carries one entry, its source: nothing lies below a file. */
  lemma {:induction false} CarriedIsSource(c: Input, paths: seq<Path>, ops: seq<Op>, op: Op, x: Path)
    requires SenderPass(c, paths) && PrefixClosed(Nodes(c.p)) && SomeOf(ops, c, paths) && Tidy(c.b)
    requires op in SenderOps(c, paths) && op.Rename?
    requires x in Move(AckedAll(c.b, ops, c.p), op.oldPath, op.path)
    ensures x == op.path || (x in AckedAll(c.b, ops, c.p) && !(op.oldPath <= x))
    decreases |ops|, 1
  {
    hide SenderPass, SenderOps, AckedAll, Move;
    var b := AckedAll(c.b, ops, c.p);
    SenderOpKinds(c, paths, op);
    if j :| CameFrom(b, op.oldPath, op.path, x, j) {
      OnlyPrimAdded(c, paths, ops, j);
      if j in c.p {
        AboveInPrim(c.p, op.oldPath, j);
      }
    } else {
      NotArrived(b, op.oldPath, op.path, x);
    }
  }

  /** What an operation takes out of the baseline for good. */
  predicate Erases(op: Op, x: Path) {
    (op.Deletes() && op.path == x) || (op.Rename? && op.oldPath == x)
  }

  /** What the primary lacks is gone once its delete or rename is recorded. */
  lemma {:induction false} GoneStaysGone(c: Input, paths: seq<Path>, ops: seq<Op>, x: Path)
    requires SenderPass(c, paths) && PrefixClosed(Nodes(c.p)) && SomeOf(ops, c, paths) && Tidy(c.b) && x !in c.p
    requires x !in c.b || exists op :: op in ops && Erases(op, x)
    ensures x !in AckedAll(c.b, ops, c.p)
  {
    hide SenderPass, Acked, SenderOps, Tidy, Erases;
    if ops != [] {
      var front, op := ops[..|ops| - 1], ops[|ops| - 1];
      assert op in ops;
      if Erases(op, x) {
        ErasedNow(c, paths, front, op, x);
      } else {
        assert forall y :: y in ops && y !in front ==> y == op;
        GoneStaysGone(c, paths, front, x);
        if x in Acked(AckedAll(c.b, front, c.p), op, c.p) {
          JustAdded(c, paths, front, op, x);
        }
      }
    }
  }

  lemma ErasedNow(c: Input, paths: seq<Path>, ops: seq<Op>, op: Op, x: Path)
    requires SenderPass(c, paths) && PrefixClosed(Nodes(c.p)) && SomeOf(ops, c, paths) && Tidy(c.b) && x !in c.p
    requires op in SenderOps(c, paths) && Erases(op, x)
    ensures x !in Acked(AckedAll(c.b, ops, c.p), op, c.p)
  {
    hide SenderPass, SenderOps, Tidy, AckedAll, Move;
    SenderOpKinds(c, paths, op);
    if op.Rename? && x in Move(AckedAll(c.b, ops, c.p), op.oldPath, op.path) {
      CarriedIsSource(c, paths, ops, op, x);
    }
  }

  /** All operations of the pass are recorded, in some order. */
  ghost predicate AllOf(ops: seq<Op>, c: Input, paths: seq<Path>)
    requires NoRoot(paths)
  {
    forall op :: op in ops <==> op in SenderOps(c, paths)
  }

  /** After a pass without failures the baseline lists nothing that the primary lacks. */
  lemma FirstPass(c: Input, paths: seq<Path>, ops: seq<Op>)
    requires SenderPass(c, paths) && PrefixClosed(Nodes(c.p)) && AllOf(ops, c, paths) && Tidy(c.b)
    ensures AckedAll(c.b, ops, c.p).Keys <= c.p.Keys
  {
    hide SenderPass, SenderOps, Tidy, AckedAll, Erases, Froms, DeletedPaths;
    NoRootVisited(c, paths);
    forall x | x in AckedAll(c.b, ops, c.p) ensures x in c.p {
      if x !in c.p {
        if x in c.b {
          var op := EraserOf(c, paths, x);
          assert op in ops;
        }
        GoneStaysGone(c, paths, ops, x);
      }
    }
  }

  lemma EraserOf(c: Input, paths: seq<Path>, x: Path) returns (op: Op)
    requires SenderPass(c, paths) && x in c.b && x !in c.p
    ensures op in SenderOps(c, paths) && Erases(op, x)
  {
    hide SenderPass, PathsEffect, Detected;
    NoRootVisited(c, paths);
    GoneIsCounted(c, paths, x);
    if FromGone(c, x) {
      var i :| 0 <= i < |c.onPrimary| && c.onPrimary[i].from == x;
      op := RenameOps(Secondary, c.onPrimary)[i];
      assert op in RenameOps(Secondary, c.onPrimary);
    } else {
      op :| op in SenderOps(c, paths) && op.Deletes() && op.path == x;
    }
  }

  /** With a baseline that lists nothing the primary lacks, the pass only makes directories and copies. */
  lemma OnlyCreates(c: Input, paths: seq<Path>, op: Op)
    requires SenderPass(c, paths) && c.b.Keys <= c.p.Keys && op in SenderOps(c, paths)
    ensures UnitOp(c.b, c.p, op.path, op) && !op.Deletes()
  {
    hide SenderPass, SenderOps;
    SenderOpKinds(c, paths, op);
  }

  lemma {:induction false} CreatedCellIs(c: Input, paths: seq<Path>, ops: seq<Op>, x: Path)
    requires SenderPass(c, paths) && c.b.Keys <= c.p.Keys && SomeOf(ops, c, paths)
    ensures NodeAt(AckedAll(c.b, ops, c.p), x)
         == if exists op :: op in ops && op.path == x then NodeAt(c.p, x) else NodeAt(c.b, x)
  {
    hide SenderPass, SenderOps;
    if ops != [] {
      var front, op := ops[..|ops| - 1], ops[|ops| - 1];
      assert op in ops;
      assert forall y :: y in ops <==> y in front || y == op;
      CreatedCellIs(c, paths, front, x);
      OnlyCreates(c, paths, op);
    }
  }

  /** The second pass without failures leaves the baseline with the primary's identities. */
  lemma SecondPass(c: Input, paths: seq<Path>, ops: seq<Op>, x: Path)
    requires SenderPass(c, paths) && c.b.Keys <= c.p.Keys && AllOf(ops, c, paths)
    ensures NodeAt(AckedAll(c.b, ops, c.p), x) == NodeAt(c.p, x)
  {
    hide SenderPass, AckedAll, SenderOps;
    CreatedCellIs(c, paths, ops, x);
    if NodeAt(c.b, x) != NodeAt(c.p, x) {
      var op := DifferenceHasOp(c, paths, x);
      assert op in ops;
    }
  }

  lemma DifferenceHasOp(c: Input, paths: seq<Path>, x: Path) returns (op: Op)
    requires SenderPass(c, paths) && c.b.Keys <= c.p.Keys && NodeAt(c.b, x) != NodeAt(c.p, x)
    ensures op in SenderOps(c, paths) && op.path == x
  {
    hide PathsEffect, Detected;
    NoRenamesLeft(c);
    op := PathHasOp(c, paths, x);
  }

  lemma NoRenamesLeft(c: Input)
    requires Detected(c.b, c.p, c.b, c.onPrimary) && Detected(c.b, c.b, c.p, c.onSecondary) && c.b.Keys <= c.p.Keys
    ensures c.onPrimary == [] && c.onSecondary == []
  {
    hide Detected;
    NoNewFilesNoRenames(c.b, c.b, c.p, c.onSecondary);
    if c.onPrimary != [] {
      DetectedPair(c.b, c.p, c.b, c.onPrimary, c.onPrimary[0]);
    }
  }

  /** With an unchanged primary and no operation skipped or failed, after two passes there is nothing left to send,
      although the first leaves a renamed file with its old identity. */
  lemma TwoPassesSuffice(c1: Input, p1: seq<Path>, ops1: seq<Op>, c2: Input, p2: seq<Path>, ops2: seq<Op>, c3: Input,
                         p3: seq<Path>)
    requires SenderPass(c1, p1) && SenderPass(c2, p2) && SenderPass(c3, p3)
    requires PrefixClosed(Nodes(c1.p)) && Tidy(c1.b) && c2.p == c1.p && c3.p == c1.p
    requires AllOf(ops1, c1, p1) && c2.b == AckedAll(c1.b, ops1, c1.p)
    requires AllOf(ops2, c2, p2) && c3.b == AckedAll(c2.b, ops2, c2.p)
    ensures SenderOps(c3, p3) == [] && Nodes(c3.b) == Nodes(c3.p)
  {
    hide SenderPass, AckedAll, SenderOps, Tidy, AllOf;
    FirstPass(c1, p1, ops1);
    forall x: Path ensures NodeAt(c3.b, x) == NodeAt(c3.p, x) {
      SecondPass(c2, p2, ops2, x);
    }
    NothingLeft(c3, p3);
  }

  lemma SameNodes(b: Tree, p: Tree)
    requires forall x: Path :: NodeAt(b, x) == NodeAt(p, x)
    ensures Nodes(b) == Nodes(p)
  {
    forall x: Path ensures At(Nodes(b), x) == At(Nodes(p), x) {
      NodesAt(b, x);
      NodesAt(p, x);
      assert NodeAt(b, x) == NodeAt(p, x);
    }
    SameCellsSameTree(Nodes(b), Nodes(p));
  }

  lemma NothingLeft(c: Input, paths: seq<Path>)
    requires SenderPass(c, paths) && forall x: Path :: NodeAt(c.b, x) == NodeAt(c.p, x)
    ensures SenderOps(c, paths) == [] && Nodes(c.b) == Nodes(c.p)
  {
    hide PathsEffect, Detected;
    forall q: Path ensures c.B(q) == c.On(Primary, q) == c.On(Secondary, q) {
      assert NodeAt(c.b, q) == NodeAt(c.p, q);
    }
    SameKeys(c);
    NoRenamesLeft(c);
    UnchangedPaths(c, paths);
    SameNodes(c.b, c.p);
  }
}

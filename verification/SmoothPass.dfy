/** The network leg when nothing goes wrong: every request of a pass can be served, and two passes bring the receiver to
    the primary. */
module SmoothPass {
  import opened Options
  import opened Model
  import opened FileTree
  import opened Reconcile
  import opened Executor
  import opened Merge
  import opened Convergence
  import opened Passes
  import opened RemoteTree
  import opened Baseline
  import opened PathOrder
  import opened RenameDetection
  import opened Sender

  /** What a pass is run on: trees, no path a directory in one and something else in the other, no two new files with
      the inode of one vanished one. */
  ghost predicate Plain(c: Input, paths: seq<Path>) {
    && SenderPass(c, paths) && NoRoot(paths) && PrefixClosed(Nodes(c.p)) && PrefixClosed(Nodes(c.b))
    && (forall q :: q in c.b && q in c.p ==> (c.b[q].kind == Dir <==> c.p[q].kind == Dir))
    && forall i, j :: 0 <= i < j < |c.onPrimary| ==> c.onPrimary[i].from != c.onPrimary[j].from
  }

  // ---- what the baseline holds on the way

  lemma BaseAbove(c: Input, paths: seq<Path>, x: Path, a: Path)
    requires Plain(c, paths) && x in c.b && a != [] && a <= x && a != x
    ensures a in c.b && c.b[a].kind == Dir
  {
    hide SenderPass;
    assert x in Nodes(c.b);
    AncestorIsDir(Nodes(c.b), x, a);
    NodesAt(c.b, a);
  }

  lemma PrimAbove(c: Input, paths: seq<Path>, x: Path, a: Path)
    requires Plain(c, paths) && x in c.p && a != [] && a <= x && a != x
    ensures a in c.p && c.p[a].kind == Dir
  {
    hide SenderPass;
    assert x in Nodes(c.p);
    AncestorIsDir(Nodes(c.p), x, a);
    NodesAt(c.p, a);
  }

  /** An entry of the baseline is of the primary's kind where the primary has the path, and as it was where it has not.
      */
  predicate KindFits(c: Input, b: Tree, x: Path) {
    x in b ==> (if x in c.p then (b[x].kind == Dir <==> c.p[x].kind == Dir) else x in c.b && b[x] == c.b[x])
  }

  lemma AckedFits(c: Input, paths: seq<Path>, b: Tree, op: Op, x: Path)
    requires Plain(c, paths) && op in SenderOps(c, paths) && forall y :: KindFits(c, b, y)
    ensures KindFits(c, Acked(b, op, c.p), x)
  {
    hide Plain, SenderPass, SenderOps, Move;
    assert SenderPass(c, paths) by { UsePlain(c, paths); }
    SenderOpKinds(c, paths, op);
    assert KindFits(c, b, x);
    if op.Rename? {
      MovedFits(c, paths, b, op, x);
    }
  }

  lemma UsePlain(c: Input, paths: seq<Path>)
    requires Plain(c, paths)
    ensures SenderPass(c, paths) && NoRoot(paths) && PrefixClosed(Nodes(c.p)) && PrefixClosed(Nodes(c.b))
  {
  }

  lemma RootOut(c: Input, paths: seq<Path>)
    requires Plain(c, paths)
    ensures [] !in c.b && [] !in c.p
  {
    hide PrefixClosed, Detected, Lists, OneWay;
  }

  lemma MovedFits(c: Input, paths: seq<Path>, b: Tree, op: Op, x: Path)
    requires Plain(c, paths) && RenameOp(c, op) && (forall y :: KindFits(c, b, y))
    ensures KindFits(c, Move(b, op.oldPath, op.path), x)
  {
    hide Move, SenderPass, PrefixClosed;
    var from, to := op.oldPath, op.path;
    RootOut(c, paths);
    if j :| CameFrom(b, from, to, x, j) {
      Arrived(b, from, to, x, j);
      assert KindFits(c, b, j) && x == to + j[|from|..];
      if j != from {
        if j in c.p { PrimAbove(c, paths, j, from); } else { BaseAbove(c, paths, j, from); }
        assert false;
      }
      assert x == to;
    } else {
      NotArrived(b, from, to, x);
      assert KindFits(c, b, x);
    }
  }

  lemma {:induction false} AllFit(c: Input, paths: seq<Path>, ops: seq<Op>, x: Path)
    requires Plain(c, paths) && SomeOf(ops, c, paths)
    ensures KindFits(c, AckedAll(c.b, ops, c.p), x)
  {
    hide SenderPass, SenderOps, Acked, KindFits, PrefixClosed;
    if ops == [] {
      StartFits(c, paths, x);
    } else {
      var front, op := ops[..|ops| - 1], ops[|ops| - 1];
      assert op in ops && forall y :: y in front ==> y in ops;
      forall y ensures KindFits(c, AckedAll(c.b, front, c.p), y) {
        AllFit(c, paths, front, y);
      }
      AckedFits(c, paths, AckedAll(c.b, front, c.p), op, x);
    }
  }

  lemma StartFits(c: Input, paths: seq<Path>, x: Path)
    requires Plain(c, paths)
    ensures KindFits(c, c.b, x)
  {
    hide SenderPass, PrefixClosed;
  }

  /** Before anything is deleted, the old name of a rename that is still to come stands. */
  lemma {:induction false} SourceStands(c: Input, paths: seq<Path>, ops: seq<Op>, r: Renamed)
    requires Plain(c, paths) && SomeOf(ops, c, paths) && r in c.onPrimary && PairOf(c.b, c.p, c.b, r)
    requires forall op :: op in ops ==> !op.Deletes() && op != Rename(Secondary, r.from, r.to)
    ensures At(AckedAll(c.b, ops, c.p), r.from) == Some(c.b[r.from])
  {
    hide SenderPass, SenderOps, Acked, PrefixClosed;
    if ops != [] {
      var front, op := ops[..|ops| - 1], ops[|ops| - 1];
      assert op in ops && forall y :: y in front ==> y in ops;
      SourceStands(c, paths, front, r);
      SourceKept(c, paths, AckedAll(c.b, front, c.p), op, r);
    }
  }

  lemma SourceKept(c: Input, paths: seq<Path>, b: Tree, op: Op, r: Renamed)
    requires Plain(c, paths) && op in SenderOps(c, paths) && r in c.onPrimary && PairOf(c.b, c.p, c.b, r)
    requires !op.Deletes() && op != Rename(Secondary, r.from, r.to) && At(b, r.from) == Some(c.b[r.from])
    ensures At(Acked(b, op, c.p), r.from) == Some(c.b[r.from])
  {
    hide SenderOps, Move, PrefixClosed, Detected, Lists;
    SenderOpKinds(c, paths, op);
    if op.Rename? {
      OtherSource(c, paths, op, r);
      NotBelow(b, op.oldPath, op.path, r.from);
    }
  }

  lemma OtherSource(c: Input, paths: seq<Path>, op: Op, r: Renamed)
    requires Plain(c, paths) && RenameOp(c, op) && r in c.onPrimary && PairOf(c.b, c.p, c.b, r)
    requires op != Rename(Secondary, r.from, r.to)
    ensures !(op.oldPath <= r.from) && !(op.path <= r.from)
  {
    hide SenderPass, PrefixClosed;
    var r' := Renamed(op.oldPath, op.path);
    var i :| 0 <= i < |c.onPrimary| && c.onPrimary[i] == r;
    var j :| 0 <= j < |c.onPrimary| && c.onPrimary[j] == r';
    RootOut(c, paths);
    if op.oldPath <= r.from && op.oldPath != r.from { BaseAbove(c, paths, r.from, op.oldPath); }
    if op.path <= r.from && op.path != r.from { BaseAbove(c, paths, r.from, op.path); }
  }

  // ---- every request can be served

  lemma DeletesLast(c: Input, paths: seq<Path>, i: nat, j: nat)
    requires NoRoot(paths) && i < j < |SendingOrder(c, paths)| && SendingOrder(c, paths)[i].Deletes()
    ensures SendingOrder(c, paths)[j].Deletes()
  {
    hide SenderOps, Sorted, Creates, Removals;
    var x, y := Creates(SenderOps(c, paths)), Removals(SenderOps(c, paths));
    var s, t := Sorted(x, true), Sorted(y, false);
    if i < |s| {
      SortedMembers(x, true, s[i]);
      CreateMembers(SenderOps(c, paths), s[i]);
      assert false;
    }
    SortedMembers(y, false, t[j - |s|]);
    RemovalMembers(SenderOps(c, paths), t[j - |s|]);
  }

  /** The baseline when the first i operations are done. */
  function BaseAt(c: Input, paths: seq<Path>, i: nat): Tree
    requires NoRoot(paths) && i <= |SendingOrder(c, paths)|
  {
    AckedAll(c.b, SendingOrder(c, paths)[..i], c.p)
  }

  lemma FirstOps(c: Input, paths: seq<Path>, i: nat)
    requires Plain(c, paths) && i <= |SendingOrder(c, paths)|
    ensures SomeOf(SendingOrder(c, paths)[..i], c, paths)
    ensures i < |SendingOrder(c, paths)| ==> SendingOrder(c, paths)[i] in SenderOps(c, paths)
  {
    hide SenderPass, SenderOps, SendingOrder, PrefixClosed, ParentsFirst, ChildrenFirst, Apart;
    OrderOfPass(c, paths, SendingOrder(c, paths));
  }

  lemma NextBase(c: Input, paths: seq<Path>, i: nat)
    requires NoRoot(paths) && i < |SendingOrder(c, paths)|
    ensures BaseAt(c, paths, i + 1) == Acked(BaseAt(c, paths, i), SendingOrder(c, paths)[i], c.p)
  {
    hide SendingOrder, Acked;
    var order := SendingOrder(c, paths);
    assert order[..i + 1][..i] == order[..i];
  }

  /** The directories above what is brought over are there by then. */
  lemma ParentReady(c: Input, paths: seq<Path>, i: nat, a: Path)
    requires Plain(c, paths) && i < |SendingOrder(c, paths)|
    requires var q := SendingOrder(c, paths)[i].path; q in c.p && a != [] && a <= q && a != q
    ensures At(Nodes(BaseAt(c, paths, i)), a) == Some(DirNode)
  {
    hide SenderPass, SenderOps, SendingOrder, AckedAll, PrefixClosed, ChildrenFirst;
    var order := SendingOrder(c, paths);
    var q, b := order[i].path, BaseAt(c, paths, i);
    PrimAbove(c, paths, q, a);
    OrderOfPass(c, paths, order);
    FirstOps(c, paths, i);
    AllFit(c, paths, order[..i], a);
    if a in c.b {
      PrimPathsStay(c, paths, order[..i], a);
    } else {
      var op := MkdirOf(c, paths, a);
      var k :| 0 <= k < |order| && order[k] == op;
      assert k < i;
      assert op in order[..i] by { assert order[..i][k] == op; }
      SentIsRecorded(c, paths, order[..i], op);
    }
    NodesAt(b, a);
  }

  lemma MkdirOf(c: Input, paths: seq<Path>, a: Path) returns (op: Op)
    requires Plain(c, paths) && a in c.p && c.p[a].kind == Dir && a !in c.b
    ensures op in SenderOps(c, paths) && op.Mkdir? && op.path == a
  {
    hide PrefixClosed, Detected, PathsEffect;
    NotConsumed(c, paths, a);
    assert a in paths;
    op := PathHasOp(c, paths, a);
  }

  lemma NotConsumed(c: Input, paths: seq<Path>, a: Path)
    requires Plain(c, paths) && a in c.p && c.p[a].kind == Dir
    ensures a !in Consumed(c.onPrimary) && a !in Consumed(c.onSecondary)
  {
    hide PrefixClosed, Detected, Lists;
    SenderNoRenamesBack(c, paths);
    if a in Consumed(c.onPrimary) {
      var r :| r in c.onPrimary && (r.from == a || r.to == a);
      assert Detected(c.b, c.p, c.b, c.onPrimary);
      DetectedPair(c.b, c.p, c.b, c.onPrimary, r);
    }
  }

  lemma ParentsStand(g: FileSystem, q: Path)
    requires forall a: Path :: a != [] && a <= q && a != q ==> At(g, a) == Some(DirNode)
    ensures Passable(g, Parent(q)) && MkdirAll(g, Parent(q)) == Done(g, true)
    ensures Parent(q) != [] ==> At(g, Parent(q)) == Some(DirNode)
  {
    forall i | 0 < i <= |Parent(q)| ensures At(g, Parent(q)[..i]) == Some(DirNode) {
      assert Parent(q)[..i] <= q && Parent(q)[..i] != q;
    }
    DirsArePrefixes(Parent(q));
    forall a | a in Dirs(Parent(q)) ensures a in g {
      assert a <= q && a != q;
    }
    assert g + (map a | a in Dirs(Parent(q)) && a !in g :: DirNode) == g;
  }

  lemma MkdirServed(g: FileSystem, b: Tree, prim: Tree, q: Path)
    requires g == Nodes(b) && q in prim && prim[q].kind == Dir && q != []
    requires forall a: Path :: a != [] && a <= q && a != q ==> At(g, a) == Some(DirNode)
    requires q in b ==> b[q].kind == Dir
    ensures MkdirAll(g, q) == Done(Nodes(b[q := prim[q]]), true)
  {
    forall i | 0 < i <= |q| ensures At(g, q[..i]) == None || At(g, q[..i]) == Some(DirNode) {
      assert q[..i] <= q;
      if q[..i] != q { assert At(g, q[..i]) == Some(DirNode); }
    }
    DirsArePrefixes(q);
    forall x ensures At(MkdirAll(g, q).fs, x) == At(Nodes(b[q := prim[q]]), x) {
    }
    SameCellsSameTree(MkdirAll(g, q).fs, Nodes(b[q := prim[q]]));
  }

  lemma CopyServed(g: FileSystem, b: Tree, prim: Tree, q: Path)
    requires g == Nodes(b) && q in prim && prim[q].kind != Dir && q != []
    requires forall a: Path :: a != [] && a <= q && a != q ==> At(g, a) == Some(DirNode)
    requires q in b ==> b[q].kind != Dir
    ensures var e := prim[q];
      (if e.kind == Symlink then LinkArrives(g, q, e.linkTarget) else FileArrives(g, q, e.size, e.mtimeNS))
      == Done(Nodes(b[q := e]), true)
  {
    var e := prim[q];
    ParentsStand(g, q);
    var cleared := Remove(g, q).fs;
    assert cleared == g - {q};
    forall a: Path | a != [] && a <= q && a != q ensures At(cleared, a) == Some(DirNode) {
      assert At(g, a) == Some(DirNode);
    }
    ParentsStand(cleared, q);
    assert Nodes(b[q := e]) == g[q := NodeOf(e)] == cleared[q := NodeOf(e)];
  }

  lemma RenameServed(g: FileSystem, b: Tree, from: Path, to: Path)
    requires g == Nodes(b) && PrefixClosed(g) && from in b && b[from].kind == File && from != to && to != []
    requires forall a: Path :: a != [] && a <= to && a != to ==> At(g, a) == Some(DirNode)
    requires to in b ==> b[to].kind != Dir
    ensures RenameEntry(g, from, to) == Done(Nodes(Move(b, from, to)), true)
  {
    hide Move;
    ParentsStand(g, to);
    NodesAt(b, from);
    NodesAt(b, to);
    assert from != [] && g[from] != DirNode;
    assert from <= to ==> At(g, from) == Some(DirNode);
    assert !(from < to) && At(g, to) != Some(DirNode);
    MoveNodes(b, from, to);
  }

  lemma MoveNodes(b: Tree, from: Path, to: Path)
    ensures Move(Nodes(b), from, to) == Nodes(Move(b, from, to))
  {
    hide Move;
    forall x ensures At(Move(Nodes(b), from, to), x) == At(Nodes(Move(b, from, to)), x) {
      NodesAt(Move(b, from, to), x);
      NodesAt(b, x);
      if j :| CameFrom(b, from, to, x, j) {
        Arrived(b, from, to, x, j);
        assert CameFrom(Nodes(b), from, to, x, j);
        Arrived(Nodes(b), from, to, x, j);
      } else {
        forall j ensures !CameFrom(Nodes(b), from, to, x, j) {
          assert !CameFrom(b, from, to, x, j);
        }
        NotArrived(b, from, to, x);
        NotArrived(Nodes(b), from, to, x);
      }
    }
    SameCellsSameTree(Move(Nodes(b), from, to), Nodes(Move(b, from, to)));
  }

  lemma DeleteServed(g: FileSystem, b: Tree, q: Path)
    requires g == Nodes(b) && q != [] && (q in b ==> b[q].kind != Dir)
    requires forall a: Path :: a != [] && a <= q && a != q ==> At(g, a) == None || At(g, a) == Some(DirNode)
    ensures Remove(g, q) == Done(Nodes(b - {q}), true)
  {
    PassableRoad(g, q);
  }

  lemma PassableRoad(g: FileSystem, q: Path)
    requires forall a: Path :: a != [] && a <= q && a != q ==> At(g, a) == None || At(g, a) == Some(DirNode)
    ensures Passable(g, Parent(q))
  {
    forall i | 0 < i <= |Parent(q)| ensures At(g, Parent(q)[..i]) == None || At(g, Parent(q)[..i]) == Some(DirNode) {
      assert Parent(q)[..i] <= q && Parent(q)[..i] != q;
    }
  }

  lemma RmdirServed(g: FileSystem, b: Tree, q: Path)
    requires g == Nodes(b) && q != []
    requires forall a: Path :: a != [] && a <= q && a != q ==> At(g, a) == None || At(g, a) == Some(DirNode)
    ensures RemoveAll(g, q) == Done(Nodes(map k | k in b && !(q <= k) :: b[k]), true)
  {
    PassableRoad(g, q);
  }

  /** Whatever operation is next, the receiver's tree being what the baseline says, it can be served, and the tree is
      what the baseline says again. */
  lemma NextServed(c: Input, paths: seq<Path>, i: nat)
    requires Plain(c, paths) && i < |SendingOrder(c, paths)| && PrefixClosed(Nodes(BaseAt(c, paths, i)))
    ensures var op := SendingOrder(c, paths)[i];
      Served(Nodes(BaseAt(c, paths, i)), op, EntryFor(c.p, op)) == Done(Nodes(BaseAt(c, paths, i + 1)), true)
  {
    hide SenderPass, SenderOps, SendingOrder, AckedAll, PrefixClosed, MkdirAll, LinkArrives, FileArrives, RenameEntry;
    hide Remove, RemoveAll, Move, Plain;
    UsePlain(c, paths);
    var op, b := SendingOrder(c, paths)[i], BaseAt(c, paths, i);
    RootOut(c, paths);
    FirstOps(c, paths, i);
    NextBase(c, paths, i);
    SenderOpKinds(c, paths, op);
    AllFit(c, paths, SendingOrder(c, paths)[..i], op.path);
    if op.Deletes() {
      forall a: Path | a != [] && a <= op.path && a != op.path
        ensures At(Nodes(b), a) == None || At(Nodes(b), a) == Some(DirNode) {
        RoadOpen(c, paths, i, op.path, a);
      }
      DeletedKind(c, paths, b, op);
      if op.Delete? { DeleteServed(Nodes(b), b, op.path); } else { RmdirServed(Nodes(b), b, op.path); }
    } else {
      forall a: Path | a != [] && a <= op.path && a != op.path ensures At(Nodes(b), a) == Some(DirNode) {
        ParentReady(c, paths, i, a);
      }
      if op.Rename? {
        PendingSource(c, paths, i);
        RenameServed(Nodes(b), b, op.oldPath, op.path);
      } else if op.Mkdir? {
        MkdirServed(Nodes(b), b, c.p, op.path);
      } else {
        CopyServed(Nodes(b), b, c.p, op.path);
      }
    }
  }

  lemma DeletedKind(c: Input, paths: seq<Path>, b: Tree, op: Op)
    requires UnitOp(c.b, c.p, op.path, op) && op.Deletes() && KindFits(c, b, op.path)
    ensures op.path != [] && (op.Delete? && op.path in b ==> b[op.path].kind != Dir)
  {
  }

  lemma RoadOpen(c: Input, paths: seq<Path>, i: nat, q: Path, a: Path)
    requires Plain(c, paths) && i <= |SendingOrder(c, paths)| && q in c.b && a != [] && a <= q && a != q
    ensures var g := Nodes(BaseAt(c, paths, i)); At(g, a) == None || At(g, a) == Some(DirNode)
  {
    hide SenderPass, SenderOps, SendingOrder, AckedAll, PrefixClosed;
    BaseAbove(c, paths, q, a);
    FirstOps(c, paths, i);
    AllFit(c, paths, SendingOrder(c, paths)[..i], a);
    NodesAt(BaseAt(c, paths, i), a);
  }

  lemma PendingSource(c: Input, paths: seq<Path>, i: nat)
    requires Plain(c, paths) && i < |SendingOrder(c, paths)| && SendingOrder(c, paths)[i].Rename?
    requires RenameOp(c, SendingOrder(c, paths)[i])
    ensures var op := SendingOrder(c, paths)[i];
      At(BaseAt(c, paths, i), op.oldPath) == Some(c.b[op.oldPath]) && c.b[op.oldPath].kind == File
  {
    hide SenderPass, SenderOps, SendingOrder, AckedAll, PrefixClosed, ParentsFirst, ChildrenFirst;
    var order := SendingOrder(c, paths);
    var r := Renamed(order[i].oldPath, order[i].path);
    OrderOfPass(c, paths, order);
    FirstOps(c, paths, i);
    forall op | op in order[..i] ensures !op.Deletes() && op != Rename(Secondary, r.from, r.to) {
      var k :| 0 <= k < i && order[..i][k] == op;
      assert order[k] == op && order[k].path != order[i].path;
      if op.Deletes() { DeletesLast(c, paths, k, i); }
    }
    SourceStands(c, paths, order[..i], r);
  }

  lemma {:induction false} StaysTree(c: Input, paths: seq<Path>, i: nat)
    requires Plain(c, paths) && i <= |SendingOrder(c, paths)|
    ensures PrefixClosed(Nodes(BaseAt(c, paths, i)))
  {
    hide SenderPass, SenderOps, SendingOrder, PrefixClosed, Served;
    if i == 0 {
      assert SendingOrder(c, paths)[..0] == [];
    } else {
      StaysTree(c, paths, i - 1);
      NextServed(c, paths, i - 1);
      FirstOps(c, paths, i - 1);
      var op := SendingOrder(c, paths)[i - 1];
      SenderOpKinds(c, paths, op);
      PeerPath(c.p, op);
      ServedKeepsTree(Nodes(BaseAt(c, paths, i - 1)), op, EntryFor(c.p, op));
    }
  }

  // ---- a pass in which nothing goes wrong

  /** The line carries every request, and nothing waits to be tried again. */
  ghost predicate Undisturbed(log: Log, c: Input, f: FileSystem, line: nat -> Carriage) {
    && (forall n :: line(n) == Works) && Carried(f, log.events, c.p, line) && Fair(map[], log.events)
    && (log.lost ==> Broken(log.events, line))
  }

  /** Where all requests so far were acknowledged, the next one is made and acknowledged as well. */
  lemma NextAcknowledged(es: seq<Event>, i: nat, f: FileSystem, g: FileSystem, g': FileSystem, prim: Tree,
                         line: nat -> Carriage)
    requires i < |es| && Due(map[], es, i) && (forall j :: 0 <= j < i ==> es[j].Tried? && es[j].ok)
    requires es[i].Tried? ==>
      es[i].ok == (line(i) == Works && Served(Reached(f, es[..i], prim, line), es[i].op, EntryFor(prim, es[i].op)).ok)
    requires line(i) == Works && Reached(f, es[..i], prim, line) == g
    requires Served(g, es[i].op, EntryFor(prim, es[i].op)) == Done(g', true)
    ensures es[i].Tried? && es[i].ok && Reached(f, es[..i + 1], prim, line) == g'
  {
    hide Served, EntryFor;
    assert es[..i + 1][..i] == es[..i];
    assert !Blocked(es[..i], es[i].op.path);
  }

  lemma EventFacts(log: Log, c: Input, f: FileSystem, line: nat -> Carriage, i: nat)
    requires Undisturbed(log, c, f, line) && i < |log.events|
    ensures line(i) == Works && Due(map[], log.events, i)
    ensures var e := log.events[i];
      e.Tried? ==> e.ok == Served(Reached(f, log.events[..i], c.p, line), e.op, EntryFor(c.p, e.op)).ok
  {
    hide Served, EntryFor, Reached, Due;
  }

  lemma {:induction false} AllAcknowledged(c: Input, paths: seq<Path>, log: Log, line: nat -> Carriage, i: nat)
    requires Plain(c, paths) && Undisturbed(log, c, Nodes(c.b), line) && i <= |log.events| && NoRoot(paths)
    requires Along(log.events, SendingOrder(c, paths))
    ensures forall j :: 0 <= j < i ==> log.events[j].Tried? && log.events[j].ok
    ensures Reached(Nodes(c.b), log.events[..i], c.p, line) == Nodes(BaseAt(c, paths, i))
  {
    hide Plain, SendingOrder, Served, EntryFor, Due, BaseAt, Nodes, Undisturbed, Reached, Acks;
    if i == 0 {
      NoneYet(c, paths, log.events, line);
    } else {
      AllAcknowledged(c, paths, log, line, i - 1);
      StaysTree(c, paths, i - 1);
      NextServed(c, paths, i - 1);
      EventFacts(log, c, Nodes(c.b), line, i - 1);
      NextAcknowledged(log.events, i - 1, Nodes(c.b), Nodes(BaseAt(c, paths, i - 1)), Nodes(BaseAt(c, paths, i)),
        c.p, line);
    }
  }

  lemma NoneYet(c: Input, paths: seq<Path>, es: seq<Event>, line: nat -> Carriage)
    requires NoRoot(paths)
    ensures Reached(Nodes(c.b), es[..0], c.p, line) == Nodes(BaseAt(c, paths, 0))
  {
    assert es[..0] == [] && SendingOrder(c, paths)[..0] == [];
  }

  /** Every operation is acknowledged, and the receiver's tree is what the new baseline says. */
  lemma UndisturbedIsSmooth(c: Input, paths: seq<Path>, log: Log, now: Tree, line: nat -> Carriage)
    requires Plain(c, paths) && Ran(c, paths, log, now) && Undisturbed(log, c, Nodes(c.b), line)
    ensures log.Smooth() && Reached(Nodes(c.b), log.events, c.p, line) == Nodes(now)
  {
    hide SenderPass, SendingOrder, SenderOps, PrefixClosed, Carried, Fair;
    var n := |log.events|;
    AllAcknowledged(c, paths, log, line, n);
    assert log.events[..n] == log.events;
    assert !Broken(log.events, line);
    SmoothAcks(log.events, SendingOrder(c, paths));
    assert SendingOrder(c, paths)[..n] == SendingOrder(c, paths);
  }

  /** With the primary unchanged, the next pass is run on trees of the same kind, and finds no renames. */
  lemma NextIsPlain(c: Input, paths: seq<Path>, log: Log, line: nat -> Carriage, c': Input, paths': seq<Path>)
    requires Plain(c, paths) && Ran(c, paths, log, c'.b) && Undisturbed(log, c, Nodes(c.b), line)
    requires SenderPass(c', paths') && c'.p == c.p
    ensures Plain(c', paths')
  {
    hide SenderPass, SendingOrder, SenderOps, PrefixClosed, Carried, Fair, AckedAll;
    UndisturbedIsSmooth(c, paths, log, c'.b, line);
    NoRootVisited(c', paths');
    var n := |log.events|;
    SmoothAcks(log.events, SendingOrder(c, paths));
    StaysTree(c, paths, n);
    assert SendingOrder(c, paths)[..n] == SendingOrder(c, paths);
    ClosedIsTidy(c, paths);
    FirstPass(c, paths, Acks(log.events));
    forall q | q in c'.b && q in c'.p ensures c'.b[q].kind == Dir <==> c'.p[q].kind == Dir {
      AllFit(c, paths, Acks(log.events), q);
    }
    NothingToRename(c', paths');
  }

  lemma ClosedIsTidy(c: Input, paths: seq<Path>)
    requires Plain(c, paths)
    ensures Tidy(c.b)
  {
    hide SenderPass;
    RootOut(c, paths);
    forall q, x | q in c.b && x in c.b && c.b[q].kind != Dir && q <= x ensures q == x {
      if q != x { BaseAbove(c, paths, x, q); }
    }
  }

  lemma NothingToRename(c: Input, paths: seq<Path>)
    requires SenderPass(c, paths) && c.b.Keys <= c.p.Keys
    ensures c.onPrimary == []
  {
    hide Detected, Lists, OneWay;
    if c.onPrimary != [] {
      DetectedPair(c.b, c.p, c.b, c.onPrimary, c.onPrimary[0]);
      assert false;
    }
  }

  /** Two passes of an unchanged primary in which nothing goes wrong bring the receiver to the primary, and leave
      nothing to send. */
  lemma TwoUndisturbedPasses(c1: Input, p1: seq<Path>, log1: Log, c2: Input, p2: seq<Path>, log2: Log, c3: Input,
                             p3: seq<Path>, line1: nat -> Carriage, line2: nat -> Carriage)
    requires Plain(c1, p1) && SenderPass(c2, p2) && SenderPass(c3, p3) && c2.p == c1.p == c3.p
    requires Ran(c1, p1, log1, c2.b) && Undisturbed(log1, c1, Nodes(c1.b), line1)
    requires Ran(c2, p2, log2, c3.b) && Undisturbed(log2, c2, Nodes(c2.b), line2)
    ensures Reached(Nodes(c1.b), log1.events, c1.p, line1) == Nodes(c2.b)
    ensures Reached(Nodes(c2.b), log2.events, c1.p, line2) == Nodes(c1.p)
    ensures SenderOps(c3, p3) == []
  {
    hide SenderPass, SenderOps, SendingOrder, Ran, Undisturbed, PrefixClosed, Reached;
    UndisturbedIsSmooth(c1, p1, log1, c2.b, line1);
    NextIsPlain(c1, p1, log1, line1, c2, p2);
    UndisturbedIsSmooth(c2, p2, log2, c3.b, line2);
    ExactMirrors(c1.b);
    SmoothPassesFinish(c1, p1, log1, c2, p2, log2, c3, p3, Nodes(c1.b));
  }

  lemma ExactMirrors(b: Tree)
    requires PrefixClosed(Nodes(b))
    ensures Mirrors(b, Nodes(b))
  {
    forall q: Path ensures CellMirrors(NodeAt(b, q), At(Nodes(b), q)) {
      NodesAt(b, q);
    }
  }
}

/** When a rename is found, and that the recorded entries are good for finding the next one. */
module RenameDetection {
  import opened Options
  import opened Model
  import opened FileTree
  import opened Reconcile
  import opened Merge
  import opened Convergence
  import opened Edits
  import opened Passes
  import opened Baseline

  // ---- every rename there is gets found

  /** No other file with the inode of x has vanished from the changed side. */
  ghost predicate OnlyVanished(b: Tree, changed: Tree, x: Path) {
    Vanished(b, changed, x) && forall q :: Vanished(b, changed, q) && InodeOf(b[q]) == InodeOf(b[x]) ==> q == x
  }

  lemma {:induction false} VanishedIsKeyed(b: Tree, changed: Tree, order: seq<Path>, x: Path)
    requires OnlyVanished(b, changed, x) && x in order
    ensures var deleted := DeletedByKey(b, changed, order); InodeOf(b[x]) in deleted && deleted[InodeOf(b[x])] == x
  {
    if order[|order| - 1] != x {
      assert x in order[..|order| - 1];
      VanishedIsKeyed(b, changed, order[..|order| - 1], x);
    }
  }

  lemma {:induction false} FitIsListed(b: Tree, changed: Tree, other: Tree, deleted: map<Inode, Path>,
                                       order: seq<Path>, y: Path)
    requires y in order && RenameFits(b, changed, other, deleted, y)
    ensures Renamed(deleted[InodeOf(changed[y])], y) in RenamePairs(b, changed, other, deleted, order)
  {
    hide RenameFits;
    if order[|order| - 1] != y {
      assert y in order[..|order| - 1];
      FitIsListed(b, changed, other, deleted, order[..|order| - 1], y);
    }
  }

  /** In whatever order the maps are walked: of a file that is the only one of its inode to have vanished, the renames
      found are exactly those to a new file of its inode and size, where the other side still has the old file as it was
      and nothing under the new name. */
  lemma FoundExactly(b: Tree, changed: Tree, other: Tree, rs: seq<Renamed>, x: Path, y: Path)
    requires Detected(b, changed, other, rs) && OnlyVanished(b, changed, x)
    ensures Renamed(x, y) in rs <==>
      && y in changed && changed[y].kind == File && InodeOf(changed[y]) == InodeOf(b[x]) && changed[y].size == b[x].size
      && y !in b && y !in other && x in other && NodeOf(other[x]) == NodeOf(b[x])
  {
    var bOrder, nOrder :| Lists(bOrder, b.Keys) && Lists(nOrder, changed.Keys)
      && rs == RenamePairs(b, changed, other, DeletedByKey(b, changed, bOrder), nOrder);
    var deleted := DeletedByKey(b, changed, bOrder);
    VanishedIsKeyed(b, changed, bOrder, x);
    hide DeletedByKey, RenamePairs;
    if Renamed(x, y) in rs {
      DetectedPair(b, changed, other, rs, Renamed(x, y));
    } else if y in changed && changed[y].kind == File && InodeOf(changed[y]) == InodeOf(b[x])
      && changed[y].size == b[x].size
      && y !in b && y !in other && x in other && NodeOf(other[x]) == NodeOf(b[x]) {
      IdentityIsNode(b[x], other[x]);
      FitIsListed(b, changed, other, deleted, nOrder, y);
    }
  }

  /** A rename found is replayed by renaming, and the old name is on neither side afterwards. */
  lemma FoundIsReplayed(c: Input, paths: seq<Path>, d: Side, r: Renamed)
    requires Sound(c) && Visits(c, paths) && r in c.Pairs(d)
    ensures Rename(d, r.from, r.to) in PassEffect(c, paths).ops
    ensures Finally(c, paths, Primary, r.from) == None && Finally(c, paths, Secondary, r.from) == None
  {
    hide Sound, Lists, PathsEffect, Finally, Consumed;
    var i := PairIndex(c.Pairs(d), r);
    assert RenameOps(d, c.Pairs(d))[i] == Rename(d, r.from, r.to);
    PairFits(c, d, r);
    DroppedFileGoes(c, paths, d, r.from);
    assert d == Primary || d == Secondary;
  }

  // ---- what is recorded about a file

  lemma {:induction false} PathsBaseEntry(c: Input, paths: seq<Path>, x: Path)
    requires NoRoot(paths) && x in paths
    requires forall q :: q in paths && c.Clashes(q) ==> ConflictPath(q, c.stamp) !in paths
    ensures At(PathsEffect(c.b, c.p, c.s, c.stamp, paths).base, x) == At(Unit(c, x).base, x)
  {
    hide PathEffect, ConflictPath;
    var front, q := paths[..|paths| - 1], paths[|paths| - 1];
    assert forall y :: y in front ==> y in paths;
    if x in Unit(c, q).base {
      UnitKeys(c, q, x);
    }
    if x in front {
      PathsBaseEntry(c, front, x);
    } else {
      NotYet(c, front, x);
    }
  }

  lemma UnitKeys(c: Input, q: Path, x: Path)
    requires q != [] && x in Unit(c, q).base
    ensures x == q || (c.Clashes(q) && x == ConflictPath(q, c.stamp))
  {
    hide ConflictPath, ConflictOps, ConflictDeleteOps, CreateOp, DeleteOp;
  }

  lemma {:induction false} NotYet(c: Input, paths: seq<Path>, x: Path)
    requires NoRoot(paths) && x !in paths && forall q :: q in paths && c.Clashes(q) ==> ConflictPath(q, c.stamp) != x
    ensures x !in PathsEffect(c.b, c.p, c.s, c.stamp, paths).base
  {
    hide PathEffect, ConflictPath;
    if paths != [] {
      var front, q := paths[..|paths| - 1], paths[|paths| - 1];
      assert forall y :: y in front ==> y in paths;
      NotYet(c, front, x);
      if x in Unit(c, q).base {
        UnitKeys(c, q, x);
      }
    }
  }

  /** A version that stays under its own name is recorded with the whole entry of the side it was found on, inode and
      all; where both sides have it, with the primary's. */
  lemma WinnerRecorded(c: Input, paths: seq<Path>, d: Side, x: Path)
    requires Sound(c) && Visits(c, paths) && Edited(c, d, x) && Place(c, d, x) == x
    requires d == Primary || c.On(Primary, x) != c.On(Secondary, x)
    ensures x in c.Tree(d) && At(PassEffect(c, paths).base, x) == Some(c.Tree(d)[x])
  {
    hide Sound, Lists, PathsEffect, ConflictPath, RenameBase, RenameOps, Consumed, Origin;
    EditIsRealPath(c, d, x);
    var renames, rest := RenameBase(c.p, c.onPrimary) + RenameBase(c.s, c.onSecondary),
      PathsEffect(c.b, c.p, c.s, c.stamp, paths).base;
    assert PassEffect(c, paths).base == renames + rest;
    forall q | q in paths && c.Clashes(q) ensures ConflictPath(q, c.stamp) !in paths && ConflictPath(q, c.stamp) != x {
      ClashIsVisited(c, paths, q);
      VisitedSubset(c, paths);
    }
    if c.Moves(x) {
      var i := EditedMove(c, d, x);
      NotVisited(c, paths, x);
      NotYet(c, paths, x);
      RenamedEntry(c, d, i);
    } else {
      InPaths(c, paths, x);
      PathsBaseEntry(c, paths, x);
      UnitEntry(c, d, x);
    }
  }

  lemma NotVisited(c: Input, paths: seq<Path>, x: Path)
    requires Visits(c, paths) && c.Moves(x)
    ensures x !in paths
  {
  }

  lemma RenamedEntry(c: Input, d: Side, i: nat)
    requires Sound(c) && i < |c.Pairs(d.Other())|
    ensures var x := c.Pairs(d.Other())[i].to;
      At(RenameBase(c.p, c.onPrimary) + RenameBase(c.s, c.onSecondary), x) == At(c.Tree(d), x)
  {
    hide Sound;
    var r := c.Pairs(d.Other())[i];
    PairFits(c, d.Other(), r);
    PairsDisjoint(c);
    assert r.to in Tos(c.Pairs(d.Other()));
  }

  lemma UnitEntry(c: Input, d: Side, x: Path)
    requires x != [] && Edited(c, d, x) && Place(c, d, x) == x
    requires d == Primary || c.On(Primary, x) != c.On(Secondary, x)
    ensures x in c.Tree(d) && At(Unit(c, x).base, x) == Some(c.Tree(d)[x])
  {
    hide ConflictPath, ConflictOps, ConflictDeleteOps, CreateOp, DeleteOp;
    OriginOfConflict(x, c.stamp);
  }

  /** A file that was new or changed in one pass and is renamed on the same side before the next is recognised then,
      whatever else has happened meanwhile, if the other side has it as it was recorded. */
  lemma RecognisedNext(c: Input, paths: seq<Path>, d: Side, x: Path, c': Input, y: Path)
    requires Sound(c) && Visits(c, paths) && Edited(c, d, x) && Place(c, d, x) == x
    requires d == Primary || c.On(Primary, x) != c.On(Secondary, x)
    requires c'.b == PassEffect(c, paths).base && Detected(c'.b, c'.Tree(d), c'.Tree(d.Other()), c'.Pairs(d.Other()))
    requires y in c'.Tree(d) && c'.Tree(d)[y].kind == File && c.Tree(d)[x].kind == File
    requires InodeOf(c'.Tree(d)[y]) == InodeOf(c.Tree(d)[x]) && c'.Tree(d)[y].size == c.Tree(d)[x].size
    requires y !in c'.b && c'.On(d.Other(), y) == None && c'.On(d.Other(), x) == c.On(d, x)
    requires x !in c'.Tree(d) && OnlyVanished(c'.b, c'.Tree(d), x)
    ensures Renamed(x, y) in c'.Pairs(d.Other())
  {
    hide Sound, Lists, PassEffect, Detected, OnlyVanished, Place;
    WinnerRecorded(c, paths, d, x);
    FoundExactly(c'.b, c'.Tree(d), c'.Tree(d.Other()), c'.Pairs(d.Other()), x, y);
  }

  // ---- the sender's record

  /** What a pass of the sender has brought over is recorded with the primary's whole entry, and stays so. */
  lemma {:induction false} SentIsRecorded(c: Input, paths: seq<Path>, ops: seq<Op>, op: Op)
    requires SenderPass(c, paths) && PrefixClosed(Nodes(c.p)) && SomeOf(ops, c, paths) && op in ops
    requires op.Copy? || op.Mkdir?
    ensures op.path in c.p && op.path in paths && At(AckedAll(c.b, ops, c.p), op.path) == Some(c.p[op.path])
  {
    hide SenderPass, SenderOps, Acked;
    var front, last := ops[..|ops| - 1], ops[|ops| - 1];
    assert last in ops && forall y :: y in front ==> y in ops;
    SenderOpKinds(c, paths, op);
    SenderOpKinds(c, paths, last);
    if op in front {
      SentIsRecorded(c, paths, front, op);
      EntryStays(c, paths, AckedAll(c.b, front, c.p), last, op.path);
    } else {
      assert op == last;
      SentNow(AckedAll(c.b, front, c.p), op, c.p);
    }
  }

  lemma SentNow(b: Tree, op: Op, prim: Tree)
    requires ForPeer(prim, op) && (op.Copy? || op.Mkdir?)
    ensures op.path in prim && At(Acked(b, op, prim), op.path) == Some(prim[op.path])
  {
  }

  lemma EntryStays(c: Input, paths: seq<Path>, b: Tree, op: Op, x: Path)
    requires SenderPass(c, paths) && PrefixClosed(Nodes(c.p)) && op in SenderOps(c, paths) && x in c.p
    requires At(b, x) == Some(c.p[x]) && x in paths
    ensures At(Acked(b, op, c.p), x) == Some(c.p[x])
  {
    hide SenderPass, SenderOps;
    SenderOpKinds(c, paths, op);
    hide Move;
    match op
    case Mkdir(_, q) =>
    case Copy(_, _, q, _) =>
    case Delete(_, q) =>
    case Rmdir(_, q) => if q <= x { AboveInPrim(c.p, q, x); }
    case Rename(_, from, to) =>
      if from <= x { AboveInPrim(c.p, from, x); }
      if to <= x { NothingBelowTarget(c, paths, op, x); }
      NotBelow(b, from, to, x);
    case ConflictRename(_, _, _) =>
  }

  lemma NothingBelowTarget(c: Input, paths: seq<Path>, op: Op, x: Path)
    requires SenderPass(c, paths) && PrefixClosed(Nodes(c.p)) && RenameOp(c, op) && x in c.p && x in paths
    ensures !(op.path <= x)
  {
    hide Detected, OneWay;
    var r := Renamed(op.oldPath, op.path);
    assert r.to in Consumed(c.onPrimary) by { assert r in c.onPrimary && r.to in Tos(c.onPrimary); }
    if r.to <= x && r.to != x && r.to != [] {
      assert x in Nodes(c.p);
      AncestorIsDir(Nodes(c.p), x, r.to);
      NodesAt(c.p, r.to);
    }
  }

  lemma NotBelow(b: Tree, from: Path, to: Path, x: Path)
    requires !(from <= x) && !(to <= x)
    ensures At(Move(b, from, to), x) == At(b, x)
  {
    hide Move;
    NotArrived(b, from, to, x);
  }

  /** So a file the sender has brought over and that is renamed on the primary before the next pass is renamed on the
      receiver then, not sent again. */
  lemma SenderRecognises(c: Input, paths: seq<Path>, ops: seq<Op>, op: Op, c': Input, paths': seq<Path>, y: Path)
    requires SenderPass(c, paths) && PrefixClosed(Nodes(c.p)) && SomeOf(ops, c, paths) && op in ops && op.Copy?
    requires SenderPass(c', paths') && c'.b == AckedAll(c.b, ops, c.p)
    requires op.path in c.p && c.p[op.path].kind == File && OnlyVanished(c'.b, c'.p, op.path)
    requires y in c'.p && c'.p[y].kind == File && y !in c'.b
    requires InodeOf(c'.p[y]) == InodeOf(c.p[op.path]) && c'.p[y].size == c.p[op.path].size
    ensures Rename(Secondary, op.path, y) in SenderOps(c', paths')
  {
    hide Detected, Lists, AckedAll, PathsEffect, Consumed, OnlyVanished;
    SentIsRecorded(c, paths, ops, op);
    FoundExactly(c'.b, c'.p, c'.b, c'.onPrimary, op.path, y);
    var i := PairIndex(c'.onPrimary, Renamed(op.path, y));
    assert RenameOps(Secondary, c'.onPrimary)[i] == Rename(Secondary, op.path, y);
  }
}

/** Rename detection is a shortcut: against the same input without inode numbers. */
module Shortcut {
  import opened Options
  import opened Model
  import opened Reconcile
  import opened Executor
  import opened Merge
  import opened CellSteps
  import opened Renames
  import opened Units
  import opened Removing
  import opened Convergence
  import opened Edits

  /** The tree as a host without inode numbers would report it. */
  function Zeroed(t: Tree): Tree {
    map q | q in t :: t[q].(dev := 0, ino := 0)
  }

  function WithoutInodes(c: Input): Input {
    Input(Zeroed(c.b), Zeroed(c.p), Zeroed(c.s), c.stamp, [], [])
  }

  lemma ZeroedNodes(t: Tree)
    ensures Nodes(Zeroed(t)) == Nodes(t) && Zeroed(t).Keys == t.Keys && forall q :: NodeAt(Zeroed(t), q) == NodeAt(t, q)
  {
  }

  lemma NeverFits(b: Tree, changed: Tree, other: Tree, deleted: map<Inode, Path>, to: Path)
    ensures !RenameFits(Zeroed(b), Zeroed(changed), other, deleted, to)
  {
  }

  lemma {:induction false} NoZeroedRenames(b: Tree, changed: Tree, other: Tree, deleted: map<Inode, Path>,
                                           order: seq<Path>)
    ensures RenamePairs(Zeroed(b), Zeroed(changed), other, deleted, order) == []
  {
    hide RenameFits;
    if order != [] {
      NoZeroedRenames(b, changed, other, deleted, order[..|order| - 1]);
      NeverFits(b, changed, other, deleted, order[|order| - 1]);
    }
  }

  /** Without inode numbers no rename is ever found. */
  lemma ZeroedRenames(b: Tree, changed: Tree, other: Tree, rs: seq<Renamed>)
    requires Detected(Zeroed(b), Zeroed(changed), other, rs)
    ensures rs == []
  {
    hide Lists, DeletedByKey, RenameFits;
    var bOrder, nOrder :| Lists(bOrder, Zeroed(b).Keys) && Lists(nOrder, Zeroed(changed).Keys)
      && rs == RenamePairs(Zeroed(b), Zeroed(changed), other, DeletedByKey(Zeroed(b), Zeroed(changed), bOrder), nOrder);
    NoZeroedRenames(b, changed, other, DeletedByKey(Zeroed(b), Zeroed(changed), bOrder), nOrder);
  }

  lemma ZeroedDetected(b: Tree, changed: Tree, other: Tree, rs: seq<Renamed>)
    requires Detected(b, changed, other, rs)
    ensures Detected(Zeroed(b), Zeroed(changed), Zeroed(other), [])
  {
    hide Lists, DeletedByKey;
    var bOrder, nOrder :| Lists(bOrder, b.Keys) && Lists(nOrder, changed.Keys)
      && rs == RenamePairs(b, changed, other, DeletedByKey(b, changed, bOrder), nOrder);
    ZeroedNodes(b);
    ZeroedNodes(changed);
    NoZeroedRenames(b, changed, Zeroed(other), DeletedByKey(Zeroed(b), Zeroed(changed), bOrder), nOrder);
  }

  lemma WithoutInodesAt(c: Input, d: Side, q: Path)
    ensures WithoutInodes(c).On(d, q) == c.On(d, q) && WithoutInodes(c).B(q) == c.B(q)
    ensures WithoutInodes(c).Clashes(q) == c.Clashes(q) && WithoutInodes(c).Merge(q) == c.Merge(q)
    ensures WithoutInodes(c).Loser(q) == c.Loser(q)
  {
    ZeroedNodes(c.b);
    ZeroedNodes(c.p);
    ZeroedNodes(c.s);
  }

  lemma WithoutInodesSound(c: Input)
    requires Sound(c)
    ensures Sound(WithoutInodes(c))
  {
    hide PrefixClosed, RenamePairs, Detected, ConflictPath, Clash, Merged;
    ZeroedNodes(c.b);
    ZeroedNodes(c.p);
    ZeroedNodes(c.s);
    ZeroedDetected(c.b, c.p, c.s, c.onPrimary);
    ZeroedDetected(c.b, c.s, c.p, c.onSecondary);
    forall q: Path ensures NoDir(WithoutInodes(c), q) || OnlyDir(WithoutInodes(c), q) {
      WithoutInodesAt(c, Primary, q);
      WithoutInodesAt(c, Secondary, q);
      AgreeAt(c, q);
    }
    forall q: Path | WithoutInodes(c).Clashes(q)
      ensures ConflictPath(q, c.stamp) !in AllPaths(Zeroed(c.b), Zeroed(c.p), Zeroed(c.s))
    {
      WithoutInodesAt(c, Primary, q);
    }
  }

  lemma WithoutInodesTarget(c: Input, x: Path)
    ensures Target(WithoutInodes(c), x) == Target(c, x)
  {
    hide Origin, Clash, Merged;
    WithoutInodesAt(c, Primary, x);
    if Origin(x, c.stamp) != None {
      WithoutInodesAt(c, Primary, Origin(x, c.stamp).value);
    }
  }

  lemma NoRenamesAgree(c: Input)
    ensures Faithful(WithoutInodes(c)) && Unshared(WithoutInodes(c))
  {
  }

  lemma SameBaselines(c: Input, paths: seq<Path>, paths': seq<Path>)
    requires Sound(c) && Visits(c, paths) && Sound(WithoutInodes(c)) && Visits(WithoutInodes(c), paths')
    ensures Nodes(PassEffect(c, paths).base) == Nodes(PassEffect(WithoutInodes(c), paths').base)
  {
    hide Sound, Lists, PassEffect, Target, WithoutInodes;
    var c' := WithoutInodes(c);
    var f, g := Nodes(PassEffect(c, paths).base), Nodes(PassEffect(c', paths').base);
    forall x ensures At(f, x) == At(g, x) {
      BaselineCell(c, paths, x);
      BaselineCell(c', paths', x);
      WithoutInodesTarget(c, x);
      NodesAt(PassEffect(c, paths).base, x);
      NodesAt(PassEffect(c', paths').base, x);
    }
    SameCellsSameTree(f, g);
  }

  // ---- the two runs cell by cell

  lemma SameEarly(c: Input, d: Side, x: Path)
    ensures Early(WithoutInodes(c), d, x) <==> Early(c, d, x)
  {
    hide WithoutInodes;
    var c' := WithoutInodes(c);
    WithoutInodesAt(c, d.Other(), x);
    forall q: Path ensures BringsBelow(c', d, x, q) <==> BringsBelow(c, d, x, q) {
      WithoutInodesAt(c, d.Other(), q);
    }
  }

  lemma SamePaths(c: Input, paths: seq<Path>, paths': seq<Path>, x: Path)
    requires Visits(c, paths) && Visits(WithoutInodes(c), paths')
    ensures x in paths' <==> x in AllPaths(c.b, c.p, c.s)
    ensures !c.Moves(x) ==> (x in paths <==> x in paths')
    ensures x in paths ==> x in paths'
    ensures !WithoutInodes(c).Moves(x)
  {
    ZeroedNodes(c.b);
    ZeroedNodes(c.p);
    ZeroedNodes(c.s);
  }

  lemma SameTaken(c: Input, d: Side, q: Path, x: Path)
    ensures TakenWith(WithoutInodes(c), d, q, x) <==> TakenWith(c, d, q, x)
  {
    hide WithoutInodes;
    WithoutInodesAt(c, d, q);
    WithoutInodesAt(c, d.Other(), q);
  }

  /** A path that no rename has settled goes in one run exactly if it goes in the other. */
  lemma SameDoomed(c: Input, paths: seq<Path>, paths': seq<Path>, d: Side, x: Path)
    requires Sound(c) && Visits(c, paths) && Visits(WithoutInodes(c), paths') && !c.Moves(x)
    ensures Doomed(WithoutInodes(c), paths', d, x) <==> Doomed(c, paths, d, x)
  {
    hide Sound, Visits, TakenWith, WithoutInodes, Consumed;
    if q: Path :| q in paths && TakenWith(c, d, q, x) {
      SamePaths(c, paths, paths', q);
      SameTaken(c, d, q, x);
    }
    if q: Path :| q in paths' && TakenWith(WithoutInodes(c), d, q, x) {
      SameTaken(c, d, q, x);
      TakerIsVisited(c, paths, paths', d, q, x);
    }
  }

  lemma TakerIsVisited(c: Input, paths: seq<Path>, paths': seq<Path>, d: Side, q: Path, x: Path)
    requires Sound(c) && Visits(c, paths) && Visits(WithoutInodes(c), paths') && !c.Moves(x)
    requires q in paths' && TakenWith(c, d, q, x)
    ensures q in paths
  {
    hide Sound, Visits, WithoutInodes, Consumed;
    SamePaths(c, paths, paths', q);
    if q != x {
      DirIsVisited(c, paths, d, q);
    }
  }

  lemma SameExpected(c: Input, paths: seq<Path>, paths': seq<Path>, d: Side, x: Path)
    requires Sound(c) && Visits(c, paths) && Sound(WithoutInodes(c)) && Visits(WithoutInodes(c), paths') && !c.Moves(x)
    ensures ExpectedAt(WithoutInodes(c), Elements(paths'), d, x) == ExpectedAt(c, Elements(paths), d, x)
  {
    hide Sound, Visits, WithoutInodes, Consumed, Origin, Moved, Merged, Clash;
    var c' := WithoutInodes(c);
    SamePaths(c, paths, paths', x);
    WithoutInodesAt(c, d, x);
    WithoutInodesAt(c, d.Other(), x);
    assert c'.stamp == c.stamp by { SameStamp(c); }
    if Origin(x, c.stamp) != None {
      var q := Origin(x, c.stamp).value;
      WithoutInodesAt(c, d, q);
      if c.Clashes(q) {
        ClashIsVisited(c, paths, q);
        SamePaths(c, paths, paths', q);
      }
    }
  }

  lemma SameStamp(c: Input)
    ensures WithoutInodes(c).stamp == c.stamp
  {
  }

  lemma UnmovedSame(c: Input, paths: seq<Path>, paths': seq<Path>, d: Side, x: Path)
    requires Sound(c) && Visits(c, paths) && Sound(WithoutInodes(c)) && Visits(WithoutInodes(c), paths')
    requires Faithful(c) && Unshared(c) && !c.Moves(x)
    ensures Finally(WithoutInodes(c), paths', d, x) == Finally(c, paths, d, x)
  {
    hide Sound, Lists, Finally, Early, Doomed, ExpectedAt, Faithful, Unshared, WithoutInodes;
    NoRenamesAgree(c);
    ExactCell(c, paths, d, x);
    ExactCell(WithoutInodes(c), paths', d, x);
    SameEarly(c, d, x);
    SameDoomed(c, paths, paths', d, x);
    SameExpected(c, paths, paths', d, x);
  }

  lemma SameEaten(c: Input, d: Side, x: Path)
    ensures Eaten(WithoutInodes(c), d, x) <==> Eaten(c, d, x)
  {
    hide WithoutInodes;
    forall a: Path ensures Disturbed(WithoutInodes(c), d, a, x) <==> Disturbed(c, d, a, x) {
      WithoutInodesAt(c, d, a);
      WithoutInodesAt(c, d.Other(), a);
      WithoutInodesAt(c, d, x);
    }
  }

  /** The old name of a rename goes in both runs, from both sides. */
  lemma OldNameSame(c: Input, paths: seq<Path>, paths': seq<Path>, e: Side, r: Renamed, d: Side)
    requires Sound(c) && Visits(c, paths) && Sound(WithoutInodes(c)) && Visits(WithoutInodes(c), paths')
    requires r in c.Pairs(e)
    ensures Finally(WithoutInodes(c), paths', d, r.from) == Finally(c, paths, d, r.from) == None
  {
    hide Sound, Lists, Finally, WithoutInodes;
    PairFits(c, e, r);
    DroppedFileGoes(c, paths, e, r.from);
    WithoutInodesAt(c, e, r.from);
    WithoutInodesAt(c, e.Other(), r.from);
    DroppedFileGoes(WithoutInodes(c), paths', e, r.from);
    assert d == e || d == e.Other();
  }

  /** Under the new name of a rename: what the run without inode numbers has on the side the rename is replayed on. */
  lemma NewNameCopied(c: Input, paths': seq<Path>, e: Side, r: Renamed)
    requires Sound(c) && Sound(WithoutInodes(c)) && Visits(WithoutInodes(c), paths') && r in c.Pairs(e)
    ensures Finally(WithoutInodes(c), paths', e, r.to) == c.On(e.Other(), r.to) != None
    ensures Finally(WithoutInodes(c), paths', e.Other(), r.to) == if Eaten(c, e.Other(), r.to) then None
      else c.On(e.Other(), r.to)
  {
    hide Sound, Lists, Finally, WithoutInodes, Place, Eaten, Unreplayed, Faithful, Unshared;
    var c' := WithoutInodes(c);
    PairFits(c, e, r);
    WithoutInodesAt(c, e, r.to);
    WithoutInodesAt(c, e.Other(), r.to);
    NoRenamesAgree(c);
    FaithfulReplays(c', e.Other(), r.to);
    NewHere(c', e.Other(), r.to);
    AwayCell(c', paths', e.Other(), r.to);
    HomeCell(c', paths', e.Other(), r.to, r.to);
    SameEaten(c, e.Other(), r.to);
  }

  lemma NewNameSame(c: Input, paths: seq<Path>, paths': seq<Path>, e: Side, r: Renamed, d: Side)
    requires Sound(c) && Visits(c, paths) && Sound(WithoutInodes(c)) && Visits(WithoutInodes(c), paths')
    requires Faithful(c) && Unshared(c) && r in c.Pairs(e)
    ensures Finally(WithoutInodes(c), paths', d, r.to) == Finally(c, paths, d, r.to)
  {
    hide Sound, Lists, Finally, WithoutInodes, Place, Eaten, Unreplayed, Faithful, Unshared;
    PairFits(c, e, r);
    NewNameCopied(c, paths', e, r);
    FaithfulReplays(c, e.Other(), r.to);
    NewHere(c, e.Other(), r.to);
    AwayCell(c, paths, e.Other(), r.to);
    HomeCell(c, paths, e.Other(), r.to, r.to);
    assert d == e || d == e.Other();
  }

  lemma SameCell(c: Input, paths: seq<Path>, paths': seq<Path>, d: Side, x: Path)
    requires Sound(c) && Visits(c, paths) && Sound(WithoutInodes(c)) && Visits(WithoutInodes(c), paths')
    requires Faithful(c) && Unshared(c)
    ensures Finally(WithoutInodes(c), paths', d, x) == Finally(c, paths, d, x)
  {
    hide Sound, Lists, Finally, WithoutInodes, Consumed, Faithful, Unshared;
    if c.Moves(x) {
      var e, r := MovesAt(c, x);
      if x == r.from {
        OldNameSame(c, paths, paths', e, r, d);
      } else {
        NewNameSame(c, paths, paths', e, r, d);
      }
    } else {
      UnmovedSame(c, paths, paths', d, x);
    }
  }

  /** Some rename did not put the new version under its new name. */
  lemma SomeRenameMisses(c: Input, paths: seq<Path>) returns (d: Side, i: nat)
    requires Sound(c) && Visits(c, paths) && !(Faithful(c) && Unshared(c))
    ensures i < |c.Pairs(d)| && Finally(c, paths, d, c.Pairs(d)[i].to) != c.On(d.Other(), c.Pairs(d)[i].to)
  {
    hide Sound, Visits, Repeats, PassOutcome, Target, Froms;
    if !Faithful(c) {
      var e, r :| r in c.Pairs(e) && c.On(e.Other(), r.to) != c.B(r.from);
      d := e;
      i := PairIndex(c.Pairs(d), r);
    } else {
      d := if Repeats(c.onPrimary) > 0 then Secondary else Primary;
      i := RepeatAt(c.Pairs(d));
    }
    PairCell(c, paths, d, i);
  }

  /** Rename detection refines delete-and-copy: the new baseline is always the same, and the trees are the same exactly
      if no rename hid an edit and no two files share one. */
  lemma RenamesRefineCopies(c: Input, paths: seq<Path>, paths': seq<Path>)
    requires Sound(c) && Visits(c, paths) && Visits(WithoutInodes(c), paths')
    ensures Nodes(PassEffect(c, paths).base) == Nodes(PassEffect(WithoutInodes(c), paths').base)
    ensures PassOutcome(c, paths).w == PassOutcome(WithoutInodes(c), paths').w <==> Faithful(c) && Unshared(c)
  {
    hide Sound, Lists, Faithful, Unshared, PassEffect, PassOutcome, Nodes, WithoutInodes;
    var c' := WithoutInodes(c);
    WithoutInodesSound(c);
    SameBaselines(c, paths, paths');
    var w, w' := PassOutcome(c, paths).w, PassOutcome(c', paths').w;
    if Faithful(c) && Unshared(c) {
      forall d: Side ensures w.On(d) == w'.On(d) {
        forall x: Path ensures At(w.On(d), x) == At(w'.On(d), x) {
          SameCell(c, paths, paths', d, x);
        }
        SameCellsSameTree(w.On(d), w'.On(d));
      }
      SameWorlds(w, w');
    } else {
      var d, i := SomeRenameMisses(c, paths);
      NewNameCopied(c, paths', d, c.Pairs(d)[i]);
    }
  }

  lemma SameWorlds(w: World, w': World)
    requires w.On(Primary) == w'.On(Primary) && w.On(Secondary) == w'.On(Secondary)
    ensures w == w'
  {
  }
}

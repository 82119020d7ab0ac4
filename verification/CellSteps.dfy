/** How single operations change what is planned for the cells (side, path) of the two trees. */
module CellSteps {
  import opened Options
  import opened Model
  import opened FileTree
  import opened Reconcile
  import opened Executor
  import opened Merge

  /** What each side is meant to hold at each path at some point of the run. */
  type Plan = (Side, Path) -> Option<Node>

  function Put(e: Plan, d: Side, q: Path, v: Option<Node>): Plan {
    (d': Side, x: Path) => if d' == d && x == q then v else e(d', x)
  }

  /** Another version than the baseline's, to be brought over from the other side of d. */
  predicate Brings(c: Input, d: Side, q: Path) {
    c.On(d.Other(), q) != None && c.On(d.Other(), q) != c.B(q)
  }

  /** a is a directory that d drops although something new or changed lies below it. */
  predicate Disturbed(c: Input, d: Side, a: Path, x: Path) {
    && c.Drops(d, a) && c.On(d, a) == Some(DirNode)
    && a <= x && a != x && c.On(d, x) != None && c.On(d, x) != c.B(x)
  }

  /** Below a directory that is gone on one side, the other side holds nothing new or changed. */
  ghost predicate Quiet(c: Input) {
    forall d: Side, a: Path, x: Path :: !Disturbed(c, d, a, x)
  }

  predicate BringsBelow(c: Input, d: Side, x: Path, q: Path) {
    Brings(c, d, q) && x <= q && x != q
  }

  /** A directory of the other side may appear on d ahead of or without an operation of its own: as the parent of
      something that is brought over. */
  ghost predicate Early(c: Input, d: Side, x: Path) {
    c.On(d.Other(), x) == Some(DirNode) && exists q: Path :: BringsBelow(c, d, x, q)
  }

  ghost predicate CellOk(c: Input, d: Side, x: Path, now: Option<Node>, plan: Option<Node>) {
    now == plan || (plan == None && now == Some(DirNode) && Early(c, d, x))
  }

  ghost predicate Holds(c: Input, e: Plan, w: World) {
    && Trees(w)
    && forall d: Side, x: Path :: CellOk(c, d, x, At(w.On(d), x), e(d, x))
  }

  /** The plan never wants a file where the other side has a directory. */
  ghost predicate Sane(c: Input, e: Plan) {
    forall d: Side, a: Path :: c.On(d.Other(), a) == Some(DirNode) ==> e(d, a) == None || e(d, a) == Some(DirNode)
  }

  lemma HoldsAt(c: Input, e: Plan, w: World, d: Side, x: Path)
    requires Holds(c, e, w)
    ensures CellOk(c, d, x, At(w.On(d), x), e(d, x)) && PrefixClosed(w.On(d))
  {
  }

  lemma SameCells(c: Input, e: Plan, e': Plan, w: World)
    requires Holds(c, e, w) && forall d: Side, x: Path :: e(d, x) == e'(d, x)
    ensures Holds(c, e', w)
  {
    hide CellOk;
    forall d: Side, x: Path ensures CellOk(c, d, x, At(w.On(d), x), e'(d, x)) {
      HoldsAt(c, e, w, d, x);
    }
  }

  /** The directories above something brought over may be made on d. */
  lemma RoadAt(c: Input, d: Side, q: Path, a: Path)
    requires Sound(c) && Brings(c, d, q) && a != [] && a <= q && a != q
    ensures c.On(d.Other(), a) == Some(DirNode) && Early(c, d, a)
  {
    hide Sound, Quiet;
    TreesSound(c, d.Other());
    DirAboveOn(c, d.Other(), q, a);
    assert BringsBelow(c, d, a, q);
  }

  /** In a quiet input directories appear early only where the merge wants one. */
  lemma EarlyIsWanted(c: Input, d: Side, x: Path)
    requires Sound(c) && Quiet(c) && Early(c, d, x)
    ensures c.Merge(x) == Some(DirNode)
  {
    hide Sound, Quiet;
    AgreeAt(c, x);
    var q: Path :| BringsBelow(c, d, x, q);
    NotDisturbed(c, d.Other(), x, q);
  }

  lemma AgreeAt(c: Input, q: Path)
    requires Sound(c)
    ensures NoDir(c, q) || OnlyDir(c, q)
  {
  }

  lemma NotDisturbed(c: Input, d: Side, a: Path, x: Path)
    requires Quiet(c)
    ensures !Disturbed(c, d, a, x)
  {
  }

  lemma PassableAbove(f: FileSystem, q: Path)
    requires forall a: Path :: a != [] && a <= q && a != q ==> At(f, a) == None || At(f, a) == Some(DirNode)
    ensures Passable(f, Parent(q))
  {
    forall i | 0 < i <= |Parent(q)| ensures At(f, Parent(q)[..i]) == None || At(f, Parent(q)[..i]) == Some(DirNode) {
      assert Parent(q)[..i] <= q;
    }
  }

  /** Making the parents of something brought over succeeds and breaks no cell. */
  lemma MakeParents(c: Input, e: Plan, w: World, d: Side, q: Path)
    requires Sound(c) && Brings(c, d, q)
    requires Holds(c, e, w) && Sane(c, e)
    ensures MkdirAll(w.On(d), Parent(q)).ok
    ensures Holds(c, e, w.With(d, MkdirAll(w.On(d), Parent(q)).fs))
  {
    hide Sound, Quiet, Holds, CellOk, Brings, Early;
    forall a: Path | a != [] && a <= q && a != q ensures At(w.On(d), a) == None || At(w.On(d), a) == Some(DirNode) {
      ParentCell(c, e, w, d, q, a);
    }
    PassableAbove(w.On(d), q);
    MkdirAllAt(w.On(d), Parent(q), q);
    ParentsHold(c, e, w, d, q);
  }

  lemma ParentCell(c: Input, e: Plan, w: World, d: Side, q: Path, a: Path)
    requires Sound(c) && Brings(c, d, q) && a != [] && a <= q && a != q
    requires Holds(c, e, w) && Sane(c, e)
    ensures At(w.On(d), a) == None || At(w.On(d), a) == Some(DirNode)
    ensures CellOk(c, d, a, Some(DirNode), e(d, a))
  {
    hide Sound, Quiet, Holds;
    RoadAt(c, d, q, a);
    HoldsAt(c, e, w, d, a);
  }

  lemma ParentsHold(c: Input, e: Plan, w: World, d: Side, q: Path)
    requires Sound(c) && Brings(c, d, q)
    requires Holds(c, e, w) && Sane(c, e) && Passable(w.On(d), Parent(q))
    ensures Holds(c, e, w.With(d, MkdirAll(w.On(d), Parent(q)).fs))
  {
    hide Sound, Quiet, CellOk, Brings, MkdirAll, Passable, Sane;
    var w' := w.With(d, MkdirAll(w.On(d), Parent(q)).fs);
    HoldsAt(c, e, w, d, q);
    MkdirAllKeeps(w.On(d), Parent(q));
    forall d': Side, x: Path ensures CellOk(c, d', x, At(w'.On(d'), x), e(d', x)) {
      HoldsAt(c, e, w, d', x);
      if d' == d {
        MkdirAllAt(w.On(d), Parent(q), x);
        if x != [] && x <= Parent(q) {
          ParentCell(c, e, w, d, q, x);
        }
      }
    }
  }

  /** The file or link arrives, the directories above it are there, all else is as it was. */
  lemma CopyCell(src: FileSystem, dst: FileSystem, q: Path, kind: FileType, x: Path)
    requires MkdirAll(dst, Parent(q)).ok && q != []
    requires At(src, q) != None && At(src, q) != Some(DirNode) && (kind == Symlink <==> At(src, q).value.LinkNode?)
    requires At(dst, q) != Some(DirNode)
    ensures CopyEntry(src, dst, q, kind).ok
    ensures At(CopyEntry(src, dst, q, kind).fs, x) == if x == q then At(src, q) else At(MkdirAll(dst, Parent(q)).fs, x)
  {
    hide MkdirAll, Passable, Remove, Parent;
    var up := MkdirAll(dst, Parent(q));
    UnderParents(dst, q);
    if kind == Symlink {
      ClearedAt(up.fs, q, q);
      ClearedAt(up.fs, q, x);
    }
  }

  lemma UnderParents(f: FileSystem, q: Path)
    requires MkdirAll(f, Parent(q)).ok && q != []
    ensures At(MkdirAll(f, Parent(q)).fs, q) == At(f, q) && Passable(MkdirAll(f, Parent(q)).fs, Parent(q))
  {
    MkdirAllAt(f, Parent(q), q);
    var g := MkdirAll(f, Parent(q)).fs;
    forall i | 0 < i <= |Parent(q)| ensures At(g, Parent(q)[..i]) == Some(DirNode) {
      MkdirAllAt(f, Parent(q), Parent(q)[..i]);
    }
  }

  lemma ClearedAt(f: FileSystem, q: Path, x: Path)
    requires Passable(f, Parent(q)) && At(f, q) != Some(DirNode)
    ensures At(Remove(f, q).fs, x) == if x == q then None else At(f, x)
  {
  }

  /** One cell of one side is set, all else holds. */
  lemma PutHolds(c: Input, e: Plan, w: World, d: Side, q: Path, f: FileSystem, v: Option<Node>)
    requires Holds(c, e, w) && PrefixClosed(f)
    requires forall x: Path :: At(f, x) == if x == q then v else At(w.On(d), x)
    ensures Holds(c, Put(e, d, q, v), w.With(d, f))
  {
    hide CellOk;
    var w' := w.With(d, f);
    HoldsAt(c, e, w, d, q);
    HoldsAt(c, e, w, d.Other(), q);
    forall d': Side, x: Path ensures CellOk(c, d', x, At(w'.On(d'), x), Put(e, d, q, v)(d', x)) {
      HoldsAt(c, e, w, d', x);
      if d' == d && x == q {
        Exactly(c, d, x, v);
      }
    }
  }

  lemma Exactly(c: Input, d: Side, x: Path, v: Option<Node>)
    ensures CellOk(c, d, x, v, v)
  {
  }

  /** A cell where nothing can appear early holds exactly what is planned. */
  lemma NotEarly(c: Input, e: Plan, w: World, d: Side, q: Path)
    requires Holds(c, e, w) && (e(d, q) != None || c.On(d.Other(), q) != Some(DirNode))
    ensures At(w.On(d), q) == e(d, q)
  {
    HoldsAt(c, e, w, d, q);
  }

  /** A copy to d of what the other side holds at q; y is q or the path that q is the conflict name of. */
  lemma StepCopy(c: Input, e: Plan, w: World, d: Side, y: Path, q: Path, kind: FileType, n: Node)
    requires Sound(c) && Brings(c, d, y) && Parent(y) == Parent(q) && q != []
    requires Holds(c, e, w) && Sane(c, e)
    requires At(w.On(d.Other()), q) == Some(n) && n != DirNode && (kind == Symlink <==> n.LinkNode?)
    requires e(d, q) != Some(DirNode) && c.On(d.Other(), q) != Some(DirNode)
    ensures var done := Applied(w, Copy(d, d.Other(), q, kind));
      done.ok && Holds(c, Put(e, d, q, Some(n)), w.With(d, done.fs))
  {
    hide Sound, Quiet, Brings, Holds, Sane, MkdirAll, Parent, CopyEntry;
    var op := Copy(d, d.Other(), q, kind);
    var up := MkdirAll(w.On(d), Parent(q)).fs;
    MakeParents(c, e, w, d, y);
    NotEarly(c, e, w, d, q);
    HoldsAt(c, e, w, d, q);
    HoldsAt(c, e, w, d.Other(), q);
    AppliedKeepsTrees(w, op);
    forall x: Path ensures At(Applied(w, op).fs, x) == if x == q then Some(n) else At(up, x) {
      CopyCell(w.On(d.Other()), w.On(d), q, kind, x);
    }
    CopyCell(w.On(d.Other()), w.On(d), q, kind, q);
    PutHolds(c, e, w.With(d, up), d, q, Applied(w, op).fs, Some(n));
  }

  /** A directory of the other side is made on d. */
  lemma StepMkdir(c: Input, e: Plan, w: World, d: Side, q: Path)
    requires Sound(c) && Brings(c, d, q) && q != []
    requires Holds(c, e, w) && Sane(c, e) && c.On(d.Other(), q) == Some(DirNode)
    ensures var done := Applied(w, Mkdir(d, q));
      done.ok && Holds(c, Put(e, d, q, Some(DirNode)), w.With(d, done.fs))
  {
    hide Sound, Quiet, Brings, Holds, MkdirAll, Passable, CellOk;
    var f := w.On(d);
    forall a: Path | a != [] && a <= q ensures At(f, a) == None || At(f, a) == Some(DirNode) {
      if a != q {
        ParentCell(c, e, w, d, q, a);
      } else {
        OwnCell(c, e, w, d, q);
      }
    }
    AllPassable(f, q);
    MakeParents(c, e, w, d, q);
    var up := MkdirAll(f, Parent(q)).fs;
    MkdirAllKeepsBoth(c, e, w, d, q);
    forall x: Path ensures At(MkdirAll(f, q).fs, x) == if x == q then Some(DirNode) else At(up, x) {
      MkdirAllAt(f, q, x);
      MkdirAllAt(f, Parent(q), x);
      assert x <= Parent(q) <==> x <= q && x != q;
    }
    MkdirAllAt(f, q, q);
    PutHolds(c, e, w.With(d, up), d, q, MkdirAll(f, q).fs, Some(DirNode));
  }

  lemma OwnCell(c: Input, e: Plan, w: World, d: Side, q: Path)
    requires Holds(c, e, w) && Sane(c, e) && c.On(d.Other(), q) == Some(DirNode)
    ensures At(w.On(d), q) == None || At(w.On(d), q) == Some(DirNode)
  {
    HoldsAt(c, e, w, d, q);
  }

  lemma AllPassable(f: FileSystem, q: Path)
    requires forall a: Path :: a != [] && a <= q ==> At(f, a) == None || At(f, a) == Some(DirNode)
    ensures Passable(f, q) && Passable(f, Parent(q))
  {
    forall i | 0 < i <= |q| ensures At(f, q[..i]) == None || At(f, q[..i]) == Some(DirNode) {
      assert q[..i] <= q;
    }
    PassableAbove(f, q);
  }

  lemma MkdirAllKeepsBoth(c: Input, e: Plan, w: World, d: Side, q: Path)
    requires Holds(c, e, w)
    ensures PrefixClosed(MkdirAll(w.On(d), q).fs)
  {
    HoldsAt(c, e, w, d, q);
    MkdirAllKeeps(w.On(d), q);
  }

  /** A file renamed on the other side is renamed on d. */
  lemma StepRename(c: Input, e: Plan, w: World, d: Side, from: Path, to: Path)
    requires Sound(c) && Brings(c, d, to) && to != [] && from != to
    requires Holds(c, e, w) && Sane(c, e)
    requires e(d, from) != Some(DirNode) && e(d, to) == None
    requires c.On(d.Other(), from) != Some(DirNode) && c.On(d.Other(), to) != Some(DirNode)
    ensures var done := Applied(w, Rename(d, from, to));
      && done.ok == (e(d, from) != None)
      && Holds(c, if done.ok then Put(Put(e, d, from, None), d, to, e(d, from)) else e, w.With(d, done.fs))
  {
    hide Sound, Quiet, Brings, Holds, Sane, MkdirAll, Parent, RenameTo;
    var f, w' := w.On(d), w.With(d, MkdirAll(w.On(d), Parent(to)).fs);
    MakeParents(c, e, w, d, to);
    NotEarly(c, e, w', d, from);
    NotEarly(c, e, w', d, to);
    var g := w'.On(d);
    assert w.With(d, RenameTo(g, from, to).fs) == w'.With(d, RenameTo(g, from, to).fs);
    if e(d, from) == None {
      NoSource(g, from, to);
      assert w'.With(d, g) == w';
    } else {
      ParentMade(f, to);
      StepMove(c, e, w', d, from, to);
    }
  }

  lemma NoSource(f: FileSystem, from: Path, to: Path)
    requires from !in f
    ensures RenameTo(f, from, to) == Done(f, false)
  {
  }

  lemma StepMove(c: Input, e: Plan, w: World, d: Side, from: Path, to: Path)
    requires Holds(c, e, w) && to != [] && from != to
    requires At(w.On(d), from) == e(d, from) != None && e(d, from) != Some(DirNode)
    requires At(w.On(d), to) == None
    requires Parent(to) == [] || At(w.On(d), Parent(to)) == Some(DirNode)
    ensures var done := RenameTo(w.On(d), from, to);
      done.ok && Holds(c, Put(Put(e, d, from, None), d, to, e(d, from)), w.With(d, done.fs))
  {
    hide Holds, RenameTo, Parent, PrefixClosed;
    var f := w.On(d);
    HoldsAt(c, e, w, d, from);
    RenameToAt(f, from, to, to);
    RenameToKeeps(f, from, to);
    RemoveKeepsFile(f, from);
    var mid := f - {from};
    PutHolds(c, e, w, d, from, mid, None);
    forall x: Path ensures At(RenameTo(f, from, to).fs, x) == if x == to then e(d, from) else At(mid, x) {
      RenameToAt(f, from, to, x);
    }
    var m := w.With(d, mid);
    assert m.With(d, RenameTo(f, from, to).fs) == w.With(d, RenameTo(f, from, to).fs);
    PutHolds(c, Put(e, d, from, None), m, d, to, RenameTo(f, from, to).fs, e(d, from));
  }

  lemma RemoveKeepsFile(f: FileSystem, q: Path)
    requires PrefixClosed(f) && q in f && f[q] != DirNode
    ensures PrefixClosed(f - {q})
  {
    forall k, a: Path | k in f - {q} && a != [] && a < k ensures At(f - {q}, a) == Some(DirNode) {
      AncestorIsDir(f, k, a);
    }
  }

  /** The losing version moves aside, into the same directory. */
  lemma StepConflictRename(c: Input, e: Plan, w: World, d: Side, q: Path, name: Path)
    requires Holds(c, e, w) && q != [] && name != [] && q != name && Parent(q) == Parent(name)
    requires e(d, q) != None && e(d, q) != Some(DirNode)
    requires e(d, name) == None && c.On(d.Other(), name) != Some(DirNode)
    ensures var done := Applied(w, ConflictRename(d, q, name));
      done.ok && Holds(c, Put(Put(e, d, q, None), d, name, e(d, q)), w.With(d, done.fs))
  {
    hide Holds, RenameTo, PrefixClosed;
    NotEarly(c, e, w, d, q);
    NotEarly(c, e, w, d, name);
    HoldsAt(c, e, w, d, q);
    if Parent(q) != [] {
      AncestorIsDir(w.On(d), q, Parent(q));
    }
    StepMove(c, e, w, d, q, name);
  }
}

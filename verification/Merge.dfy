/** What a three-way merge is meant to do, without operations, and what the pass leaves as its new baseline. */
module Merge {
  import opened Options
  import opened Model
  import opened FileTree
  import opened Reconcile

  /** The textbook merge of one path: a change on one side wins over no change; of two changes the primary's wins,
      but an edit that meets a deletion leaves the path empty. */
  function Merged(nb: Option<Node>, np: Option<Node>, ns: Option<Node>): Option<Node> {
    if np == ns || ns == nb then np
    else if np == nb then ns
    else if np != None && ns != None then np
    else None
  }

  predicate Clash(nb: Option<Node>, np: Option<Node>, ns: Option<Node>) {
    np != ns && np != nb && ns != nb
  }

  /** The three trees of a pass and the renames it has found on the two sides. */
  datatype Input = Input(b: Tree, p: Tree, s: Tree, stamp: string, onPrimary: seq<Renamed>, onSecondary: seq<Renamed>)
  {
    function B(q: Path): Option<Node> { NodeAt(b, q) }

    function Tree(d: Side): Tree { if d == Primary then p else s }

    function On(d: Side, q: Path): Option<Node> { NodeAt(Tree(d), q) }

    function Merge(q: Path): Option<Node> { Merged(B(q), On(Primary, q), On(Secondary, q)) }

    predicate Clashes(q: Path) { q != [] && Clash(B(q), On(Primary, q), On(Secondary, q)) }

    /** The version that goes under the conflict name. */
    function Loser(q: Path): Option<Node> { if On(Secondary, q) != None then On(Secondary, q) else On(Primary, q) }

    /** The renames replayed on d, which happened on the other side. */
    function Pairs(d: Side): seq<Renamed> { if d == Primary then onSecondary else onPrimary }

    predicate Moves(q: Path) { q in Consumed(onPrimary) + Consumed(onSecondary) }

    /** d still has, unchanged, what the other side has deleted. */
    predicate Drops(d: Side, q: Path) { On(d, q) != None && On(d, q) == B(q) && On(d.Other(), q) == None }
  }

  /** The path a conflict name was made of. */
  function Origin(x: Path, stamp: string): Option<Path> {
    var tail := "_conflict_" + stamp;
    if x == [] || |x[|x| - 1]| < |tail| || x[|x| - 1][|x[|x| - 1]| - |tail|..] != tail then None
    else Some(x[..|x| - 1] + [x[|x| - 1][..|x[|x| - 1]| - |tail|]])
  }

  lemma OriginOfConflict(q: Path, stamp: string)
    requires q != []
    ensures Origin(ConflictPath(q, stamp), stamp) == Some(q)
    ensures ConflictPath(q, stamp) != q && Parent(ConflictPath(q, stamp)) == Parent(q)
  {
    var tail := "_conflict_" + stamp;
    var x := ConflictPath(q, stamp);
    var name := q[|q| - 1];
    assert x[|x| - 1] == name + "_conflict_" + stamp == name + tail;
    assert x[|x| - 1][..|name|] == name;
    assert q[..|q| - 1] + [name] == q;
    assert x[..|x| - 1] == q[..|q| - 1];
    assert |x[|q| - 1]| > |q[|q| - 1]|;
  }

  lemma ConflictOfOrigin(x: Path, stamp: string)
    requires Origin(x, stamp) != None
    ensures var q := Origin(x, stamp).value; q != [] && ConflictPath(q, stamp) == x
  {
    var tail := "_conflict_" + stamp;
    var name := x[|x| - 1];
    var short := name[..|name| - |tail|];
    assert short + "_conflict_" + stamp == short + tail == name;
    assert x[..|x| - 1] + [name] == x;
    assert Origin(x, stamp).value[..|x| - 1] == x[..|x| - 1];
  }

  /** What both sides and the new baseline are meant to hold at x after the pass. */
  function Target(c: Input, x: Path): Option<Node> {
    match Origin(x, c.stamp)
    case Some(q) => if c.Clashes(q) then c.Loser(q) else c.Merge(x)
    case None => c.Merge(x)
  }

  // ---- what a pass is run on

  predicate NoDir(c: Input, q: Path) {
    c.B(q) != Some(DirNode) && c.On(Primary, q) != Some(DirNode) && c.On(Secondary, q) != Some(DirNode)
  }

  predicate OnlyDir(c: Input, q: Path) {
    && (c.B(q) == None || c.B(q) == Some(DirNode))
    && (c.On(Primary, q) == None || c.On(Primary, q) == Some(DirNode))
    && (c.On(Secondary, q) == None || c.On(Secondary, q) == Some(DirNode))
  }

  /** A path is a directory in all trees that have it or in none. */
  ghost predicate DirsAgree(c: Input) {
    forall q: Path :: NoDir(c, q) || OnlyDir(c, q)
  }

  /** Nothing has a conflict name of this pass yet. */
  ghost predicate FreshNames(c: Input) {
    forall q: Path :: c.Clashes(q) ==> ConflictPath(q, c.stamp) !in AllPaths(c.b, c.p, c.s)
  }

  /** The two trees are trees; the baseline may list entries below directories it does not list, as a pass may leave
      it. */
  ghost predicate Sound(c: Input) {
    && [] !in c.b && PrefixClosed(Nodes(c.p)) && PrefixClosed(Nodes(c.s))
    && DirsAgree(c) && FreshNames(c)
    && Detected(c.b, c.p, c.s, c.onPrimary) && Detected(c.b, c.s, c.p, c.onSecondary)
  }

  /** The paths the merge loop visits, in whatever order. */
  ghost predicate Visits(c: Input, paths: seq<Path>) {
    Lists(paths, AllPaths(c.b, c.p, c.s) - Consumed(c.onPrimary) - Consumed(c.onSecondary)) && NoRoot(paths)
  }

  lemma NodesAt(t: Tree, q: Path)
    ensures At(Nodes(t), q) == NodeAt(t, q)
  {
  }

  lemma DirAboveOn(c: Input, d: Side, q: Path, a: Path)
    requires PrefixClosed(Nodes(c.Tree(d))) && c.On(d, q) != None && a != [] && a <= q && a != q
    ensures c.On(d, a) == Some(DirNode)
  {
    NodesAt(c.Tree(d), a);
    AncestorIsDir(Nodes(c.Tree(d)), q, a);
  }

  lemma TreesSound(c: Input, d: Side)
    requires Sound(c)
    ensures PrefixClosed(Nodes(c.Tree(d)))
  {
  }

  lemma RootIsNoPath(c: Input, d: Side)
    requires Sound(c)
    ensures c.On(d, []) == None && c.B([]) == None && c.Merge([]) == None
    ensures [] !in AllPaths(c.b, c.p, c.s)
  {
    assert [] !in Nodes(c.b) && [] !in Nodes(c.p) && [] !in Nodes(c.s);
  }

  lemma AllPathsAt(c: Input, q: Path)
    ensures q in AllPaths(c.b, c.p, c.s) <==> c.B(q) != None || c.On(Primary, q) != None || c.On(Secondary, q) != None
  {
  }

  // ---- renames

  /** A rename to be replayed on d: the old name is as the baseline knows it on d and gone on the other side, the new
      name is only on the other side. */
  predicate Fits(c: Input, d: Side, r: Renamed) {
    && c.B(r.from) != None && c.B(r.from).value.FileNode? && c.On(d, r.from) == c.B(r.from)
      && c.On(d.Other(), r.from) == None
    && c.B(r.to) == None && c.On(d, r.to) == None && c.On(d.Other(), r.to) != None
      && c.On(d.Other(), r.to).value.FileNode?
    && c.On(d.Other(), r.to).value.size == c.B(r.from).value.size
  }

  lemma {:induction false} DeletedVanished(b: Tree, changed: Tree, order: seq<Path>, k: Inode)
    requires k in DeletedByKey(b, changed, order)
    ensures Vanished(b, changed, DeletedByKey(b, changed, order)[k])
    ensures InodeOf(b[DeletedByKey(b, changed, order)[k]]) == k
  {
    if order != [] && !(Vanished(b, changed, order[|order| - 1]) && InodeOf(b[order[|order| - 1]]) == k) {
      DeletedVanished(b, changed, order[..|order| - 1], k);
    }
  }

  lemma {:induction false} TargetsDiffer(b: Tree, changed: Tree, other: Tree, deleted: map<Inode, Path>,
                                         order: seq<Path>, rs: seq<Renamed>)
    requires forall i, j :: 0 <= i < j < |order| ==> order[i] != order[j]
    requires rs == RenamePairs(b, changed, other, deleted, order)
    ensures forall i, j :: 0 <= i < j < |rs| ==> rs[i].to != rs[j].to
  {
    hide RenameFits;
    if order != [] {
      var front := RenamePairs(b, changed, other, deleted, order[..|order| - 1]);
      TargetsDiffer(b, changed, other, deleted, order[..|order| - 1], front);
      assert forall r :: r in front ==> r.to in order[..|order| - 1];
      assert order[|order| - 1] !in order[..|order| - 1];
    }
  }

  /** What a detected rename says about the three trees. */
  predicate PairOf(b: Tree, changed: Tree, other: Tree, r: Renamed) {
    && r.from in b && b[r.from].kind == File && r.from !in changed && r.from in other
      && NodeOf(b[r.from]) == NodeOf(other[r.from])
    && r.to !in b && r.to !in other && r.to in changed && changed[r.to].kind == File
    && b[r.from].size == changed[r.to].size && InodeOf(b[r.from]) == InodeOf(changed[r.to]) != Inode(0, 0)
  }

  lemma DetectedPair(b: Tree, changed: Tree, other: Tree, rs: seq<Renamed>, r: Renamed)
    requires Detected(b, changed, other, rs) && r in rs
    ensures PairOf(b, changed, other, r)
  {
    hide RenamePairs, DeletedByKey, Lists;
    var bOrder, nOrder :| Lists(bOrder, b.Keys) && Lists(nOrder, changed.Keys)
      && rs == RenamePairs(b, changed, other, DeletedByKey(b, changed, bOrder), nOrder);
    var i :| 0 <= i < |rs| && rs[i] == r;
    DeletedVanished(b, changed, bOrder, InodeOf(changed[r.to]));
    IdentityIsNode(b[r.from], other[r.from]);
  }

  lemma PairFits(c: Input, d: Side, r: Renamed)
    requires Sound(c) && r in c.Pairs(d)
    ensures Fits(c, d, r)
  {
    hide PrefixClosed, DirsAgree, FreshNames, Detected;
    DetectedPair(c.b, c.Tree(d.Other()), c.Tree(d), c.Pairs(d), r);
  }

  lemma PairTargetsDiffer(c: Input, d: Side, i: nat, j: nat)
    requires Sound(c) && i < j < |c.Pairs(d)|
    ensures c.Pairs(d)[i].to != c.Pairs(d)[j].to
  {
    hide DeletedByKey, RenameFits, PrefixClosed, DirsAgree, FreshNames;
    var changed, other := c.Tree(d.Other()), c.Tree(d);
    assert Detected(c.b, changed, other, c.Pairs(d));
    var bOrder, nOrder :| Lists(bOrder, c.b.Keys) && Lists(nOrder, changed.Keys)
      && c.Pairs(d) == RenamePairs(c.b, changed, other, DeletedByKey(c.b, changed, bOrder), nOrder);
    TargetsDiffer(c.b, changed, other, DeletedByKey(c.b, changed, bOrder), nOrder, c.Pairs(d));
  }

  lemma RoleOf(c: Input, d: Side, q: Path) returns (r: Renamed)
    requires Sound(c) && q in Consumed(c.Pairs(d))
    ensures r in c.Pairs(d) && Fits(c, d, r) && (q == r.from || q == r.to)
    ensures q == r.from ==> c.B(q) != None && c.On(d, q) != None && c.On(d.Other(), q) == None
    ensures q == r.to ==> c.B(q) == None && c.On(d, q) == None && c.On(d.Other(), q) != None
  {
    hide Sound;
    r :| r in c.Pairs(d) && (q == r.from || q == r.to);
    PairFits(c, d, r);
  }

  /** The pairs consumed for the two sides never overlap or chain: no path plays two different roles. */
  lemma PairsDisjoint(c: Input)
    requires Sound(c)
    ensures Consumed(c.onPrimary) !! Consumed(c.onSecondary)
    ensures Froms(c.onPrimary) !! Tos(c.onPrimary) && Froms(c.onSecondary) !! Tos(c.onSecondary)
  {
    hide Sound, Fits;
    forall q | q in Consumed(c.onPrimary) ensures q !in Consumed(c.onSecondary) {
      var r := RoleOf(c, Secondary, q);
      if q in Consumed(c.onSecondary) {
        var r' := RoleOf(c, Primary, q);
      }
    }
    FromsNotTos(c, Primary);
    FromsNotTos(c, Secondary);
  }

  lemma FromsNotTos(c: Input, d: Side)
    requires Sound(c)
    ensures Froms(c.Pairs(d)) !! Tos(c.Pairs(d))
  {
    hide Sound;
    forall q | q in Froms(c.Pairs(d)) ensures q !in Tos(c.Pairs(d)) {
      var r :| r in c.Pairs(d) && r.from == q;
      PairFits(c, d, r);
      forall r' | r' in c.Pairs(d) ensures r'.to != q {
        PairFits(c, d, r');
      }
    }
  }

  /** A path that a rename has settled: the merge agrees with the side the rename happened on. */
  lemma MovesAt(c: Input, q: Path) returns (d: Side, r: Renamed)
    requires Sound(c) && c.Moves(q)
    ensures r in c.Pairs(d) && Fits(c, d, r) && (q == r.from || q == r.to)
    ensures c.Merge(q) == c.On(d.Other(), q) && !c.Clashes(q)
    ensures c.Merge(q) != Some(DirNode) && c.On(Primary, q) != Some(DirNode) && c.On(Secondary, q) != Some(DirNode)
    ensures q in AllPaths(c.b, c.p, c.s)
  {
    hide Sound;
    d := if q in Consumed(c.onPrimary) then Secondary else Primary;
    r := RoleOf(c, d, q);
    AllPathsAt(c, q);
  }

  // ---- the new baseline

  /** What the visited paths leave in the new baseline. */
  function Recorded(c: Input, done: set<Path>, x: Path): Option<Node> {
    if x in done then c.Merge(x)
    else match Origin(x, c.stamp)
      case Some(q) => if q in done && c.Clashes(q) then c.Loser(q) else None
      case None => None
  }

  function Elements(paths: seq<Path>): set<Path> {
    set q | q in paths
  }

  function Unit(c: Input, q: Path): Effect
    requires q != []
  {
    PathEffect(c.b, c.p, c.s, c.stamp, q)
  }

  lemma UnitBaseAt(c: Input, q: Path, x: Path)
    requires q != []
    ensures NodeAt(Unit(c, q).base, x)
         == if x == q then c.Merge(q) else if c.Clashes(q) && x == ConflictPath(q, c.stamp) then c.Loser(q) else None
  {
    hide Origin, ConflictPath, ConflictOps, ConflictDeleteOps, CreateOp, DeleteOp;
    OriginOfConflict(q, c.stamp);
  }

  lemma UnitBase(c: Input, q: Path, x: Path)
    requires q != []
    ensures NodeAt(Unit(c, q).base, x) == Recorded(c, {q}, x)
  {
    hide Origin, ConflictPath, Unit, Merged, Clash;
    UnitBaseAt(c, q, x);
    OriginOfConflict(q, c.stamp);
    if Origin(x, c.stamp) == Some(q) {
      ConflictOfOrigin(x, c.stamp);
    }
  }

  lemma {:induction false} PathsBase(c: Input, paths: seq<Path>, x: Path)
    requires NoRoot(paths)
    requires forall q :: q in paths && c.Clashes(q) ==> ConflictPath(q, c.stamp) !in paths
    ensures NodeAt(PathsEffect(c.b, c.p, c.s, c.stamp, paths).base, x) == Recorded(c, Elements(paths), x)
  {
    hide PathEffect, Origin, ConflictPath, Merged, Clash;
    if paths != [] {
      var front, q := paths[..|paths| - 1], paths[|paths| - 1];
      assert forall y :: y in paths <==> y in front || y == q;
      PathsBase(c, front, x);
      UnitBase(c, q, x);
      if Origin(x, c.stamp) != None {
        ConflictOfOrigin(x, c.stamp);
      }
    }
  }

  lemma NoConflictName(c: Input, x: Path)
    requires Sound(c) && x in AllPaths(c.b, c.p, c.s)
    ensures Target(c, x) == c.Merge(x)
    ensures Origin(x, c.stamp) == None || !c.Clashes(Origin(x, c.stamp).value)
  {
    hide Detected, PrefixClosed, Origin, ConflictPath, Merged, Clash, AllPaths;
    if Origin(x, c.stamp) != None {
      ConflictOfOrigin(x, c.stamp);
    }
  }

  lemma ClashIsVisited(c: Input, paths: seq<Path>, q: Path)
    requires Sound(c) && Visits(c, paths) && c.Clashes(q)
    ensures q in paths && !c.Moves(q) && ConflictPath(q, c.stamp) !in AllPaths(c.b, c.p, c.s)
  {
    AllPathsAt(c, q);
    hide AllPaths, Origin, ConflictPath, PrefixClosed, Detected, Consumed, DirsAgree;
    if c.Moves(q) {
      var d, r := MovesAt(c, q);
    }
  }

  lemma RenameBaseAt(c: Input, x: Path)
    requires Sound(c)
    ensures NodeAt(RenameBase(c.p, c.onPrimary) + RenameBase(c.s, c.onSecondary), x)
      == if c.Moves(x) then c.Merge(x) else None
  {
    hide Sound, Merged;
    if c.Moves(x) {
      var d, r := MovesAt(c, x);
      PairsDisjoint(c);
    }
  }

  /** The new baseline is, path by path, what the merge is meant to give: the renames found change nothing about it. */
  lemma NewBaselineIsTarget(c: Input, paths: seq<Path>, x: Path)
    requires Sound(c) && Visits(c, paths)
    ensures NodeAt(MergeEffect(c.b, c.p, c.s, c.stamp, c.onPrimary, c.onSecondary, paths).base, x) == Target(c, x)
  {
    hide Sound, Merged, Clash, Origin, ConflictPath, RenameBase, RenameOps, PathsEffect;
    forall q | q in paths && c.Clashes(q) ensures ConflictPath(q, c.stamp) !in paths {
      ClashIsVisited(c, paths, q);
    }
    PathsBase(c, paths, x);
    RenameBaseAt(c, x);
    TargetIsRecorded(c, paths, x);
  }

  lemma TargetIsRecorded(c: Input, paths: seq<Path>, x: Path)
    requires Sound(c) && Visits(c, paths)
    ensures Target(c, x) == if c.Moves(x) then c.Merge(x) else Recorded(c, Elements(paths), x)
    ensures c.Moves(x) ==> Recorded(c, Elements(paths), x) == None
  {
    hide Sound, Merged, Clash, ConflictPath, Consumed;
    AllPathsAt(c, x);
    if x in AllPaths(c.b, c.p, c.s) {
      NoConflictName(c, x);
    } else {
      NothingMerged(c, x);
      if c.Moves(x) {
        var d, r := MovesAt(c, x);
      }
      if Origin(x, c.stamp) != None && c.Clashes(Origin(x, c.stamp).value) {
        ClashIsVisited(c, paths, Origin(x, c.stamp).value);
      }
    }
  }

  lemma NothingMerged(c: Input, x: Path)
    requires x !in AllPaths(c.b, c.p, c.s)
    ensures c.Merge(x) == None
  {
  }

  // ---- conflicts are counted

  lemma UnitConflicts(c: Input, q: Path)
    requires q != []
    ensures Unit(c, q).conflicts == if c.Clashes(q) then 1 else 0
  {
    hide ConflictPath, ConflictOps, ConflictDeleteOps, CreateOp, DeleteOp;
  }

  /** The conflicts reported are the visited paths that both sides have changed differently. */
  lemma {:induction false} ConflictCount(c: Input, paths: seq<Path>)
    requires NoRoot(paths) && forall i, j :: 0 <= i < j < |paths| ==> paths[i] != paths[j]
    ensures PathsEffect(c.b, c.p, c.s, c.stamp, paths).conflicts == |ClashesIn(c, paths)|
  {
    hide PathEffect, Clash;
    if paths == [] {
      assert ClashesIn(c, paths) == {};
    } else {
      var front, q := paths[..|paths| - 1], paths[|paths| - 1];
      ConflictCount(c, front);
      UnitConflicts(c, q);
      ClashesOneMore(c, front, q);
      assert paths == front + [q];
    }
  }

  function ClashesIn(c: Input, paths: seq<Path>): set<Path> {
    set q | q in paths && c.Clashes(q)
  }

  lemma ClashesOneMore(c: Input, paths: seq<Path>, q: Path)
    requires q !in paths
    ensures ClashesIn(c, paths + [q]) == ClashesIn(c, paths) + if c.Clashes(q) then {q} else {}
    ensures |ClashesIn(c, paths + [q])| == |ClashesIn(c, paths)| + if c.Clashes(q) then 1 else 0
  {
    hide Clash;
  }
}

/** The three-way merge and its rename detection (internal/reconcile). */
module Reconcile {
  import opened Model

  datatype Side = Primary | Secondary
  {
    function Other(): Side { if this == Primary then Secondary else Primary }
  }

  datatype Op =
    | Mkdir(dst: Side, path: Path)
    | Copy(dst: Side, src: Side, path: Path, kind: FileType)
    | Delete(dst: Side, path: Path)
    | Rmdir(dst: Side, path: Path)
    | Rename(dst: Side, oldPath: Path, path: Path)
    | ConflictRename(dst: Side, oldPath: Path, path: Path)
  {
    predicate Deletes() { Delete? || Rmdir? }
  }

  /** The name under which the losing version of a conflict is kept, next to the original. */
  function ConflictPath(p: Path, stamp: string): Path
    requires p != []
  {
    p[..|p| - 1] + [p[|p| - 1] + "_conflict_" + stamp]
  }

  // ---- what one path contributes

  function DeleteOp(dst: Side, p: Path, kind: FileType): Op {
    if kind == Dir then Rmdir(dst, p) else Delete(dst, p)
  }

  function CreateOp(dst: Side, p: Path, e: Entry): Op {
    if e.kind == Dir then Mkdir(dst, p) else Copy(dst, dst.Other(), p, e.kind)
  }

  function ConflictOps(p: Path, stamp: string, pr: Entry, se: Entry): seq<Op>
    requires p != []
  {
    [ConflictRename(Secondary, p, ConflictPath(p, stamp)),
     Copy(Primary, Secondary, ConflictPath(p, stamp), se.kind),
     Copy(Secondary, Primary, p, pr.kind)]
  }

  function ConflictDeleteOps(loser: Side, p: Path, stamp: string, e: Entry): seq<Op>
    requires p != []
  {
    [ConflictRename(loser, p, ConflictPath(p, stamp)),
     Copy(loser.Other(), loser, ConflictPath(p, stamp), e.kind)]
  }

  datatype Effect = Effect(ops: seq<Op>, base: Tree, conflicts: nat)

  /** The case distinction for one path that no rename has settled. */
  function PathEffect(b: Tree, p: Tree, s: Tree, stamp: string, q: Path): Effect
    requires q != []
  {
    if q !in b then
      if q in p && q !in s then Effect([CreateOp(Secondary, q, p[q])], map[q := p[q]], 0)
      else if q !in p && q in s then Effect([CreateOp(Primary, q, s[q])], map[q := s[q]], 0)
      else if q in p && q in s then
        if SameIdentity(p[q], s[q]) then Effect([], map[q := p[q]], 0)
        else Effect(ConflictOps(q, stamp, p[q], s[q]), map[q := p[q], ConflictPath(q, stamp) := s[q]], 1)
      else Effect([], map[], 0)
    else if q !in p && q !in s then Effect([], map[], 0)
    else if q !in p then
      if SameIdentity(b[q], s[q]) then Effect([DeleteOp(Secondary, q, s[q].kind)], map[], 0)
      else Effect(ConflictDeleteOps(Secondary, q, stamp, s[q]), map[ConflictPath(q, stamp) := s[q]], 1)
    else if q !in s then
      if SameIdentity(b[q], p[q]) then Effect([DeleteOp(Primary, q, p[q].kind)], map[], 0)
      else Effect(ConflictDeleteOps(Primary, q, stamp, p[q]), map[ConflictPath(q, stamp) := p[q]], 1)
    else
      var bp, bs := SameIdentity(b[q], p[q]), SameIdentity(b[q], s[q]);
      if bp && bs then Effect([], map[q := b[q]], 0)
      else if bp then Effect([CreateOp(Primary, q, s[q])], map[q := s[q]], 0)
      else if bs then Effect([CreateOp(Secondary, q, p[q])], map[q := p[q]], 0)
      else if SameIdentity(p[q], s[q]) then Effect([], map[q := p[q]], 0)
      else Effect(ConflictOps(q, stamp, p[q], s[q]), map[q := p[q], ConflictPath(q, stamp) := s[q]], 1)
  }

  function Join(x: Effect, y: Effect): Effect {
    Effect(x.ops + y.ops, x.base + y.base, x.conflicts + y.conflicts)
  }

  /** The root is never a path of a tree. */
  predicate NoRoot(paths: seq<Path>) {
    forall i :: 0 <= i < |paths| ==> paths[i] != []
  }

  /** All paths in turn. */
  function PathsEffect(b: Tree, p: Tree, s: Tree, stamp: string, paths: seq<Path>): Effect
    requires NoRoot(paths)
  {
    if paths == [] then Effect([], map[], 0)
    else Join(PathsEffect(b, p, s, stamp, paths[..|paths| - 1]), PathEffect(b, p, s, stamp, paths[|paths| - 1]))
  }

  // ---- rename detection

  datatype Inode = Inode(dev: int, ino: int)

  function InodeOf(e: Entry): Inode { Inode(e.dev, e.ino) }

  /** A file of the baseline that is gone from the changed side and has an inode to be recognised by. */
  predicate Vanished(b: Tree, changed: Tree, q: Path) {
    q in b && b[q].kind == File && q !in changed && InodeOf(b[q]) != Inode(0, 0)
  }

  /** The vanished files by inode; of several with the same inode the last one met stays. */
  function DeletedByKey(b: Tree, changed: Tree, order: seq<Path>): map<Inode, Path> {
    if order == [] then map[]
    else
      var rest := DeletedByKey(b, changed, order[..|order| - 1]);
      var q := order[|order| - 1];
      if Vanished(b, changed, q) then rest[InodeOf(b[q]) := q] else rest
  }

  /** np is a new file of the changed side that carries the inode and size of a vanished one, and the other side
      still has the vanished file as the baseline knows it and nothing under the new name. */
  predicate RenameFits(b: Tree, changed: Tree, other: Tree, deleted: map<Inode, Path>, np: Path) {
    && np in changed && changed[np].kind == File && np !in b && InodeOf(changed[np]) != Inode(0, 0)
    && InodeOf(changed[np]) in deleted
    && (var from := deleted[InodeOf(changed[np])];
        && from in b && b[from].size == changed[np].size
        && from in other && np !in other && SameIdentity(b[from], other[from]))
  }

  datatype Renamed = Renamed(from: Path, to: Path)

  function RenamePairs(b: Tree, changed: Tree, other: Tree, deleted: map<Inode, Path>,
                       order: seq<Path>): (rs: seq<Renamed>)
    ensures forall i :: 0 <= i < |rs| ==>
      && rs[i].to in order && RenameFits(b, changed, other, deleted, rs[i].to)
      && rs[i].from == deleted[InodeOf(changed[rs[i].to])]
  {
    if order == [] then []
    else
      var np := order[|order| - 1];
      RenamePairs(b, changed, other, deleted, order[..|order| - 1])
      + if RenameFits(b, changed, other, deleted, np) then [Renamed(deleted[InodeOf(changed[np])], np)] else []
  }

  function RenameOps(dst: Side, rs: seq<Renamed>): (ops: seq<Op>)
    ensures |ops| == |rs| && forall i :: 0 <= i < |rs| ==> ops[i] == Rename(dst, rs[i].from, rs[i].to)
  {
    seq(|rs|, i requires 0 <= i < |rs| => Rename(dst, rs[i].from, rs[i].to))
  }

  function Froms(rs: seq<Renamed>): set<Path> { set r | r in rs :: r.from }
  function Tos(rs: seq<Renamed>): set<Path> { set r | r in rs :: r.to }
  function Consumed(rs: seq<Renamed>): set<Path> { Froms(rs) + Tos(rs) }

  function RenameBase(changed: Tree, rs: seq<Renamed>): Tree {
    map q | q in Tos(rs) && q in changed :: changed[q]
  }

  function RenameEffect(changed: Tree, rs: seq<Renamed>, dst: Side): Effect {
    Effect(RenameOps(dst, rs), RenameBase(changed, rs), 0)
  }

  /** A seq that lists exactly the elements of a set, each once: some order in which a loop may visit it. */
  ghost predicate Lists(order: seq<Path>, all: set<Path>) {
    && (forall q :: q in order <==> q in all)
    && forall i, j :: 0 <= i < j < |order| ==> order[i] != order[j]
  }

  lemma ListsOneMore(order: seq<Path>, all: set<Path>, q: Path)
    requires Lists(order, all) && q !in all
    ensures Lists(order + [q], all + {q})
  {
  }

  /** The result under construction, changed in place by the methods below. */
  class Result {
    var ops: seq<Op>
    var newBaseline: Tree
    var conflicts: nat

    constructor ()
      ensures Value() == Effect([], map[], 0)
    {
      ops, newBaseline, conflicts := [], map[], 0;
    }

    function Value(): Effect
      reads this
    {
      Effect(ops, newBaseline, conflicts)
    }

    method AddCreate(dst: Side, p: Path, e: Entry)
      modifies this
      ensures Value() == Join(old(Value()), Effect([CreateOp(dst, p, e)], map[p := e], 0))
    {
      if e.kind == Dir {
        ops := ops + [Mkdir(dst, p)];
      } else {
        ops := ops + [Copy(dst, dst.Other(), p, e.kind)];
      }
      newBaseline := newBaseline[p := e];
    }

    method Conflict(p: Path, stamp: string, pr: Entry, se: Entry)
      requires p != []
      modifies this
      ensures Value() == Join(old(Value()),
        Effect(ConflictOps(p, stamp, pr, se), map[p := pr, ConflictPath(p, stamp) := se], 1))
    {
      conflicts := conflicts + 1;
      var name := ConflictPath(p, stamp);
      ops := ops + [ConflictRename(Secondary, p, name)];
      ops := ops + [Copy(Primary, Secondary, name, se.kind)];
      ops := ops + [Copy(Secondary, Primary, p, pr.kind)];
      newBaseline := newBaseline[p := pr];
      newBaseline := newBaseline[name := se];
    }

    method ConflictDelete(loser: Side, p: Path, stamp: string, e: Entry)
      requires p != []
      modifies this
      ensures Value() == Join(old(Value()),
        Effect(ConflictDeleteOps(loser, p, stamp, e), map[ConflictPath(p, stamp) := e], 1))
    {
      conflicts := conflicts + 1;
      var name := ConflictPath(p, stamp);
      ops := ops + [ConflictRename(loser, p, name)];
      ops := ops + [Copy(loser.Other(), loser, name, e.kind)];
      newBaseline := newBaseline[name := e];
    }

    method Keep(p: Path, e: Entry)
      modifies this`newBaseline
      ensures Value() == Join(old(Value()), Effect([], map[p := e], 0))
    {
      newBaseline := newBaseline[p := e];
    }

    method AddDelete(dst: Side, p: Path, kind: FileType)
      modifies this`ops
      ensures Value() == Join(old(Value()), Effect([DeleteOp(dst, p, kind)], map[], 0))
    {
      ops := ops + [DeleteOp(dst, p, kind)];
    }

    /** The switch of the merge loop for one path. */
    method Visit(b: Tree, p: Tree, s: Tree, stamp: string, q: Path)
      requires q != []
      modifies this
      ensures Value() == Join(old(Value()), PathEffect(b, p, s, stamp, q))
    {
      var inB, inP, inS := q in b, q in p, q in s;
      if !inB && inP && !inS { AddCreate(Secondary, q, p[q]); }
      else if !inB && !inP && inS { AddCreate(Primary, q, s[q]); }
      else if !inB && inP && inS {
        if SameIdentity(p[q], s[q]) { Keep(q, p[q]); } else { Conflict(q, stamp, p[q], s[q]); }
      }
      else if inB && !inP && inS {
        if SameIdentity(b[q], s[q]) { AddDelete(Secondary, q, s[q].kind); }
          else { ConflictDelete(Secondary, q, stamp, s[q]); }
      }
      else if inB && inP && !inS {
        if SameIdentity(b[q], p[q]) { AddDelete(Primary, q, p[q].kind); }
          else { ConflictDelete(Primary, q, stamp, p[q]); }
      }
      else if inB && inP && inS {
        var bp, bs := SameIdentity(b[q], p[q]), SameIdentity(b[q], s[q]);
        if bp && bs { Keep(q, b[q]); }
        else if bp && !bs { AddCreate(Primary, q, s[q]); }
        else if !bp && bs { AddCreate(Secondary, q, p[q]); }
        else if SameIdentity(p[q], s[q]) { Keep(q, p[q]); }
        else { Conflict(q, stamp, p[q], s[q]); }
      }
    }

    /** The merge loop.  The program visits the paths in sorted order; here they come in some order. */
    method VisitAll(b: Tree, p: Tree, s: Tree, stamp: string, all: set<Path>) returns (ghost paths: seq<Path>)
      requires [] !in all
      modifies this
      ensures Lists(paths, all) && NoRoot(paths)
      ensures Value() == Join(old(Value()), PathsEffect(b, p, s, stamp, paths))
    {
      hide PathEffect, Join, PathsEffect;
      paths := [];
      var todo := all;
      NoPaths(Value(), b, p, s, stamp);
      while todo != {}
        invariant todo <= all && Lists(paths, all - todo) && NoRoot(paths)
        invariant Value() == Join(old(Value()), PathsEffect(b, p, s, stamp, paths))
        decreases todo
      {
        var q :| q in todo;
        todo := todo - {q};
        Visit(b, p, s, stamp, q);
        ListsOneMore(paths, all - todo - {q}, q);
        assert all - todo - {q} + {q} == all - todo;
        OneMorePath(old(Value()), b, p, s, stamp, paths, q);
        paths := paths + [q];
      }
    }

    /** Rename detection for one side; maps are walked in an order that is not specified. */
    method DetectSide(b: Tree, changed: Tree, other: Tree, dst: Side)
      returns (consumed: set<Path>, ghost bOrder: seq<Path>, ghost nOrder: seq<Path>)
      modifies this
      ensures Lists(bOrder, b.Keys) && Lists(nOrder, changed.Keys)
      ensures var rs := RenamePairs(b, changed, other, DeletedByKey(b, changed, bOrder), nOrder);
        consumed == Consumed(rs) && Value() == Join(old(Value()), RenameEffect(changed, rs, dst))
    {
      hide RenamePairs, DeletedByKey, Consumed, RenameOps, RenameBase, SameIdentity;
      var deleted: map<Inode, Path>;
      deleted, bOrder := CollectDeleted(b, changed);
      nOrder := [];
      consumed := {};
      ghost var rs: seq<Renamed> := [];
      NothingRenamed(b, changed, other, deleted, dst);
      var todo := changed.Keys;
      while todo != {}
        invariant Lists(nOrder, changed.Keys - todo) && todo <= changed.Keys
        invariant rs == RenamePairs(b, changed, other, deleted, nOrder)
        invariant consumed == Consumed(rs)
        invariant ops == old(ops) + RenameOps(dst, rs)
        invariant newBaseline == old(newBaseline) + RenameBase(changed, rs)
        invariant conflicts == old(conflicts)
        decreases todo
      {
        var np :| np in todo;
        todo := todo - {np};
        ListsOneMore(nOrder, changed.Keys - todo - {np}, np);
        assert changed.Keys - todo - {np} + {np} == changed.Keys - todo;
        OneMorePair(b, changed, other, deleted, nOrder, np);
        nOrder := nOrder + [np];
        if RenameFits(b, changed, other, deleted, np) {
          var from := deleted[InodeOf(changed[np])];
          OneMoreRename(changed, rs, Renamed(from, np), dst);
          ops := ops + [Rename(dst, from, np)];
          newBaseline := newBaseline[np := changed[np]];
          consumed := consumed + {from, np};
          rs := rs + [Renamed(from, np)];
        }
      }
    }
  }

  method CollectDeleted(b: Tree, changed: Tree) returns (deleted: map<Inode, Path>, ghost order: seq<Path>)
    ensures Lists(order, b.Keys) && deleted == DeletedByKey(b, changed, order)
  {
    deleted, order := map[], [];
    var todo := b.Keys;
    while todo != {}
      invariant Lists(order, b.Keys - todo) && todo <= b.Keys
      invariant deleted == DeletedByKey(b, changed, order)
      decreases todo
    {
      var q :| q in todo;
      todo := todo - {q};
      ListsOneMore(order, b.Keys - todo - {q}, q);
      assert b.Keys - todo - {q} + {q} == b.Keys - todo;
      assert (order + [q])[..|order|] == order;
      order := order + [q];
      if Vanished(b, changed, q) { deleted := deleted[InodeOf(b[q]) := q]; }
    }
  }

  lemma OneMorePair(b: Tree, changed: Tree, other: Tree, deleted: map<Inode, Path>, order: seq<Path>, np: Path)
    ensures RenamePairs(b, changed, other, deleted, order + [np])
         == RenamePairs(b, changed, other, deleted, order)
            + if RenameFits(b, changed, other, deleted, np) then [Renamed(deleted[InodeOf(changed[np])], np)] else []
  {
    assert (order + [np])[..|order|] == order;
  }

  lemma OneMoreConsumed(rs: seq<Renamed>, r: Renamed)
    ensures Froms(rs + [r]) == Froms(rs) + {r.from} && Tos(rs + [r]) == Tos(rs) + {r.to}
  {
    assert forall x :: x in rs + [r] <==> x in rs || x == r;
  }

  lemma OneMoreRename(changed: Tree, rs: seq<Renamed>, r: Renamed, dst: Side)
    requires r.to in changed
    ensures RenameOps(dst, rs + [r]) == RenameOps(dst, rs) + [Rename(dst, r.from, r.to)]
    ensures Consumed(rs + [r]) == Consumed(rs) + {r.from, r.to}
    ensures RenameBase(changed, rs + [r]) == RenameBase(changed, rs)[r.to := changed[r.to]]
  {
    hide Froms, Tos;
    OneMoreConsumed(rs, r);
  }

  lemma NothingRenamed(b: Tree, changed: Tree, other: Tree, deleted: map<Inode, Path>, dst: Side)
    ensures RenamePairs(b, changed, other, deleted, []) == [] && RenameOps(dst, []) == []
    ensures Consumed([]) == {} && RenameBase(changed, []) == map[]
  {
  }

  /** Some rename detection on one side could have found these renames. */
  ghost predicate Detected(b: Tree, changed: Tree, other: Tree, rs: seq<Renamed>) {
    exists bOrder, nOrder ::
      Lists(bOrder, b.Keys) && Lists(nOrder, changed.Keys)
        && rs == RenamePairs(b, changed, other, DeletedByKey(b, changed, bOrder), nOrder)
  }

  function AllPaths(b: Tree, p: Tree, s: Tree): set<Path> { b.Keys + p.Keys + s.Keys }

  /** The outcome of one pass over the three trees: the renames of the primary, those of the secondary, then path by
      path. */
  function MergeEffect(b: Tree, p: Tree, s: Tree, stamp: string, rp: seq<Renamed>, rs: seq<Renamed>,
                       paths: seq<Path>): Effect
    requires NoRoot(paths)
  {
    Join(Join(RenameEffect(p, rp, Secondary), RenameEffect(s, rs, Primary)), PathsEffect(b, p, s, stamp, paths))
  }

  lemma JoinAssoc(x: Effect, y: Effect, z: Effect)
    ensures Join(Join(x, y), z) == Join(x, Join(y, z))
  {
    assert (x.base + y.base) + z.base == x.base + (y.base + z.base);
  }

  lemma NoPaths(x: Effect, b: Tree, p: Tree, s: Tree, stamp: string)
    ensures Join(x, PathsEffect(b, p, s, stamp, [])) == x
  {
    assert x.base + map[] == x.base;
  }

  lemma OneMorePath(x: Effect, b: Tree, p: Tree, s: Tree, stamp: string, paths: seq<Path>, q: Path)
    requires NoRoot(paths) && q != []
    ensures NoRoot(paths + [q])
    ensures Join(Join(x, PathsEffect(b, p, s, stamp, paths)), PathEffect(b, p, s, stamp, q))
         == Join(x, PathsEffect(b, p, s, stamp, paths + [q]))
  {
    hide PathEffect;
    assert (paths + [q])[..|paths|] == paths;
    JoinAssoc(x, PathsEffect(b, p, s, stamp, paths), PathEffect(b, p, s, stamp, q));
  }

  lemma DetectedBy(b: Tree, changed: Tree, other: Tree, bOrder: seq<Path>, nOrder: seq<Path>)
    requires Lists(bOrder, b.Keys) && Lists(nOrder, changed.Keys)
    ensures Detected(b, changed, other, RenamePairs(b, changed, other, DeletedByKey(b, changed, bOrder), nOrder))
  {
    hide Lists, RenamePairs, DeletedByKey;
  }

  lemma JoinFromNothing(x: Effect)
    ensures Join(Effect([], map[], 0), x) == x
  {
    assert map[] + x.base == x.base;
  }

  /** The merge: rename detection for both sides, then all paths the renames have not consumed. */
  method ReconcileTrees(b: Tree, p: Tree, s: Tree, stamp: string)
    returns (res: Result, ghost rp: seq<Renamed>, ghost rs: seq<Renamed>, ghost paths: seq<Path>)
    requires [] !in AllPaths(b, p, s)
    ensures fresh(res)
    ensures Detected(b, p, s, rp) && Detected(b, s, p, rs)
    ensures Lists(paths, AllPaths(b, p, s) - Consumed(rp) - Consumed(rs)) && NoRoot(paths)
    ensures res.Value() == MergeEffect(b, p, s, stamp, rp, rs, paths)
  {
    hide RenamePairs, DeletedByKey, RenameEffect, Consumed, PathsEffect, Lists, Join, Detected, Result.Value;
    res := new Result();
    var cp, bo, no := res.DetectSide(b, p, s, Secondary);
    rp := RenamePairs(b, p, s, DeletedByKey(b, p, bo), no);
    DetectedBy(b, p, s, bo, no);
    JoinFromNothing(RenameEffect(p, rp, Secondary));
    var cs, bo', no' := res.DetectSide(b, s, p, Primary);
    rs := RenamePairs(b, s, p, DeletedByKey(b, s, bo'), no');
    DetectedBy(b, s, p, bo', no');
    paths := res.VisitAll(b, p, s, stamp, AllPaths(b, p, s) - cp - cs);
  }
}

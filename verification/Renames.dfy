/** The renames of a pass, which run before everything else: what they make of the cells. */
module Renames {
  import opened Options
  import opened Model
  import opened Reconcile
  import opened Executor
  import opened Merge
  import opened CellSteps

  // ---- the renames, which come first

  /** What the renames replayed on a side make of a cell; of two with the same source only the first finds it. */
  function Moved(c: Input, init: Option<Node>, pairs: seq<Renamed>, x: Path): Option<Node> {
    if pairs == [] then init
    else
      var front, r := pairs[..|pairs| - 1], pairs[|pairs| - 1];
      if x == r.to then if r.from in Froms(front) then None else c.B(r.from)
      else if x == r.from then None
      else Moved(c, init, front, x)
  }

  /** How many renames come too late because an earlier one took the same source. */
  function Repeats(pairs: seq<Renamed>): nat {
    if pairs == [] then 0
    else Repeats(pairs[..|pairs| - 1]) + if pairs[|pairs| - 1].from in Froms(pairs[..|pairs| - 1]) then 1 else 0
  }

  function Start(c: Input): Plan {
    (d: Side, x: Path) => c.On(d, x)
  }

  function Renaming(c: Input, e: Plan, d: Side, pairs: seq<Renamed>): Plan {
    (d': Side, x: Path) => if d' == d then Moved(c, e(d, x), pairs, x) else e(d', x)
  }

  lemma {:induction false} MovedElsewhere(c: Input, init: Option<Node>, pairs: seq<Renamed>, x: Path)
    requires x !in Consumed(pairs)
    ensures Moved(c, init, pairs, x) == init
  {
    if pairs != [] {
      var front, r := pairs[..|pairs| - 1], pairs[|pairs| - 1];
      assert pairs == front + [r];
      OneMoreConsumed(front, r);
      MovedElsewhere(c, init, front, x);
    }
  }

  lemma {:induction false} MovedFrom(c: Input, init: Option<Node>, pairs: seq<Renamed>, x: Path)
    requires x in Froms(pairs) && x !in Tos(pairs)
    ensures Moved(c, init, pairs, x) == None
  {
    var front, r := pairs[..|pairs| - 1], pairs[|pairs| - 1];
    assert pairs == front + [r];
    OneMoreConsumed(front, r);
    if x != r.from {
      MovedFrom(c, init, front, x);
    }
  }

  lemma {:induction false} MovedTo(c: Input, init: Option<Node>, pairs: seq<Renamed>, i: nat)
    requires i < |pairs|
    requires forall j, k :: 0 <= j < k < |pairs| ==> pairs[j].to != pairs[k].to
    requires pairs[i].to !in Froms(pairs)
    ensures Moved(c, init, pairs, pairs[i].to) == if pairs[i].from in Froms(pairs[..i]) then None
      else c.B(pairs[i].from)
  {
    var front, r := pairs[..|pairs| - 1], pairs[|pairs| - 1];
    assert pairs == front + [r];
    OneMoreConsumed(front, r);
    if i < |front| {
      assert front[..i] == pairs[..i];
      MovedTo(c, init, front, i);
    }
  }

  lemma RenamingIsSane(c: Input, e: Plan, d: Side, pairs: seq<Renamed>)
    requires Sound(c) && Sane(c, e) && Consumed(pairs) <= Consumed(c.Pairs(d))
    ensures Sane(c, Renaming(c, e, d, pairs))
  {
    hide Sound, Moved, Consumed;
    var e' := Renaming(c, e, d, pairs);
    forall d': Side, a: Path | c.On(d'.Other(), a) == Some(DirNode)
      ensures e'(d', a) == None || e'(d', a) == Some(DirNode) {
      if a in Consumed(pairs) {
        assert c.Moves(a);
        var d'', r := MovesAt(c, a);
      }
      if d' == d {
        MovedElsewhere(c, e(d, a), pairs, a);
      }
    }
  }

  lemma FrontConsumed(pairs: seq<Renamed>, k: nat)
    requires k < |pairs|
    ensures Consumed(pairs[..k]) <= Consumed(pairs) && Froms(pairs[..k]) <= Froms(pairs)
    ensures Tos(pairs[..k]) <= Tos(pairs)
    ensures forall i :: 0 <= i < k ==> pairs[i].from in Froms(pairs[..k])
  {
    forall r | r in pairs[..k] ensures r in pairs {
    }
    forall i | 0 <= i < k ensures pairs[i] in pairs[..k] {
      assert pairs[..k][i] == pairs[i];
    }
  }

  lemma OneMorePrefix(pairs: seq<Renamed>, k: nat, d: Side)
    requires k < |pairs|
    ensures pairs[..k + 1] == pairs[..k] + [pairs[k]]
    ensures RenameOps(d, pairs[..k + 1]) == RenameOps(d, pairs[..k]) + [Rename(d, pairs[k].from, pairs[k].to)]
    ensures Repeats(pairs[..k + 1]) == Repeats(pairs[..k]) + if pairs[k].from in Froms(pairs[..k]) then 1 else 0
  {
    assert pairs[..k + 1][..k] == pairs[..k];
  }

  /** What is planned for the two names of the next rename. */
  lemma NextPair(c: Input, d: Side, k: nat)
    requires Sound(c) && k < |c.Pairs(d)|
    ensures var r := c.Pairs(d)[k]; var pairs := c.Pairs(d)[..k];
      && Moved(c, c.On(d, r.from), pairs, r.from) == (if r.from in Froms(pairs) then None else c.B(r.from))
      && Moved(c, c.On(d, r.to), pairs, r.to) == None
      && Fits(c, d, r) && Brings(c, d, r.to) && r.to != [] && r.from != r.to
  {
    hide Sound, Moved;
    var r, pairs := c.Pairs(d)[k], c.Pairs(d)[..k];
    PairFits(c, d, r);
    RootIsNoPath(c, d.Other());
    FrontConsumed(c.Pairs(d), k);
    FromsNotTos(c, d);
    assert r.from in Froms(c.Pairs(d)) && r.to in Tos(c.Pairs(d));
    if r.from in Froms(pairs) {
      MovedFrom(c, c.On(d, r.from), pairs, r.from);
    } else {
      MovedElsewhere(c, c.On(d, r.from), pairs, r.from);
    }
    forall i | 0 <= i < k ensures c.Pairs(d)[i].to != r.to {
      PairTargetsDiffer(c, d, i, k);
    }
    assert r.to !in Tos(pairs);
    MovedElsewhere(c, c.On(d, r.to), pairs, r.to);
  }

  lemma RenameOne(c: Input, e: Plan, w: World, d: Side, k: nat)
    requires Sound(c) && k < |c.Pairs(d)|
    requires Sane(c, e) && forall x: Path :: e(d, x) == c.On(d, x)
    requires Holds(c, Renaming(c, e, d, c.Pairs(d)[..k]), w)
    ensures var r := c.Pairs(d)[k]; var done := Applied(w, Rename(d, r.from, r.to));
      && done.ok == (r.from !in Froms(c.Pairs(d)[..k]))
      && Holds(c, Renaming(c, e, d, c.Pairs(d)[..k + 1]), w.With(d, done.fs))
  {
    hide Sound, Holds, Applied, Froms, Sane, Consumed;
    var r, pairs := c.Pairs(d)[k], c.Pairs(d)[..k];
    var now := Renaming(c, e, d, pairs);
    NextPair(c, d, k);
    FrontConsumed(c.Pairs(d), k);
    RenamingIsSane(c, e, d, pairs);
    StepRename(c, now, w, d, r.from, r.to);
    var done := Applied(w, Rename(d, r.from, r.to));
    forall d': Side, x: Path
      ensures AfterRename(c, e, d, k, done.ok)(d', x) == Renaming(c, e, d, c.Pairs(d)[..k + 1])(d', x) {
      NextCell(c, e, d, k, d', x);
    }
    SameCells(c, AfterRename(c, e, d, k, done.ok), Renaming(c, e, d, c.Pairs(d)[..k + 1]), w.With(d, done.fs));
  }

  /** The plan before the k-th rename, changed as that rename changes it. */
  function AfterRename(c: Input, e: Plan, d: Side, k: nat, ok: bool): Plan
    requires k < |c.Pairs(d)|
  {
    var r, now := c.Pairs(d)[k], Renaming(c, e, d, c.Pairs(d)[..k]);
    if ok then Put(Put(now, d, r.from, None), d, r.to, now(d, r.from)) else now
  }

  lemma NextCell(c: Input, e: Plan, d: Side, k: nat, d': Side, x: Path)
    requires Sound(c) && k < |c.Pairs(d)| && forall q: Path :: e(d, q) == c.On(d, q)
    ensures var ok := c.Pairs(d)[k].from !in Froms(c.Pairs(d)[..k]);
      AfterRename(c, e, d, k, ok)(d', x) == Renaming(c, e, d, c.Pairs(d)[..k + 1])(d', x)
  {
    hide Sound, Froms;
    var r, pairs := c.Pairs(d)[k], c.Pairs(d)[..k];
    NextPair(c, d, k);
    OneMorePrefix(c.Pairs(d), k, d);
    assert (pairs + [r])[..k] == pairs;
  }

  lemma {:induction false} RenameRun(c: Input, e: Plan, w: World, d: Side, k: nat)
    requires Sound(c) && k <= |c.Pairs(d)|
    requires Sane(c, e) && forall x: Path :: e(d, x) == c.On(d, x)
    requires Holds(c, e, w)
    ensures var r := ExecAll(w, RenameOps(d, c.Pairs(d)[..k]));
      r.errs == Repeats(c.Pairs(d)[..k]) && Holds(c, Renaming(c, e, d, c.Pairs(d)[..k]), r.w)
  {
    hide Sound, Holds, Applied, Sane, Froms;
    if k == 0 {
      SameCells(c, e, Renaming(c, e, d, c.Pairs(d)[..0]), w);
    } else {
      RenameRun(c, e, w, d, k - 1);
      var ops := RenameOps(d, c.Pairs(d)[..k - 1]);
      var before := ExecAll(w, ops);
      RenameOne(c, e, before.w, d, k - 1);
      OneMorePrefix(c.Pairs(d), k - 1, d);
      var op := Rename(d, c.Pairs(d)[k - 1].from, c.Pairs(d)[k - 1].to);
      assert (ops + [op])[..|ops|] == ops;
    }
  }
}

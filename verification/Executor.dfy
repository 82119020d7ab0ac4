/** Applying operations to the two trees (internal/apply/executor.go) in the order main.go chooses. */
module Executor {
  import opened Options
  import opened Model
  import opened FileTree
  import opened Reconcile

  datatype World = World(primary: FileSystem, secondary: FileSystem)
  {
    function On(d: Side): FileSystem { if d == Primary then primary else secondary }
    function With(d: Side, f: FileSystem): World { if d == Primary then this.(primary := f) else this.(secondary := f) }
  }

  /** A file or link of src at q comes to dst, with the directories above it. */
  function CopyEntry(src: FileSystem, dst: FileSystem, q: Path, kind: FileType): Done {
    var up := MkdirAll(dst, Parent(q));
    if !up.ok then up
    else if kind == Symlink then
      match At<Node>(src, q)
      case Some(LinkNode(target)) =>
        var cleared := Remove(up.fs, q).fs;
        if q in cleared then Done(cleared, false) else Done(cleared[q := LinkNode(target)], true)
      case _ => Done(up.fs, false)
    else
      match At<Node>(src, q)
      case Some(FileNode(size, mtimeNS)) => Install(up.fs, q, FileNode(size, mtimeNS))
      case _ => Done(up.fs, false)
  }

  function RenameEntry(f: FileSystem, from: Path, to: Path): Done {
    var up := MkdirAll(f, Parent(to));
    if up.ok then RenameTo(up.fs, from, to) else up
  }

  /** What one operation makes of the tree it is applied to. */
  function Applied(w: World, op: Op): Done {
    var f := w.On(op.dst);
    match op
    case Mkdir(_, q) => MkdirAll(f, q)
    case Copy(_, src, q, kind) => CopyEntry(w.On(src), f, q, kind)
    case Delete(_, q) => Remove(f, q)
    case Rmdir(_, q) => RemoveAll(f, q)
    case Rename(_, from, to) => RenameEntry(f, from, to)
    case ConflictRename(_, from, to) => RenameTo(f, from, to)
  }

  datatype Outcome = Outcome(w: World, errs: nat)

  /** Operations in a row; one that fails is counted and the next one goes on. */
  function ExecAll(w: World, ops: seq<Op>): Outcome {
    if ops == [] then Outcome(w, 0)
    else
      var r := ExecAll(w, ops[..|ops| - 1]);
      var op := ops[|ops| - 1];
      var done := Applied(r.w, op);
      Outcome(r.w.With(op.dst, done.fs), r.errs + if done.ok then 0 else 1)
  }

  function Creates(ops: seq<Op>): seq<Op> {
    if ops == [] then []
    else Creates(ops[..|ops| - 1]) + if ops[|ops| - 1].Deletes() then [] else [ops[|ops| - 1]]
  }

  function Removals(ops: seq<Op>): seq<Op> {
    if ops == [] then []
    else Removals(ops[..|ops| - 1]) + if ops[|ops| - 1].Deletes() then [ops[|ops| - 1]] else []
  }

  function Reversed<T>(s: seq<T>): (r: seq<T>)
    ensures |r| == |s| && forall i :: 0 <= i < |s| ==> r[i] == s[|s| - 1 - i]
  {
    seq(|s|, i requires 0 <= i < |s| => s[|s| - 1 - i])
  }

  /** First all that creates, in order, then all that removes, in reverse order. */
  function InOrder(w: World, ops: seq<Op>): Outcome {
    var first := ExecAll(w, Creates(ops));
    var second := ExecAll(first.w, Reversed(Removals(ops)));
    Outcome(second.w, first.errs + second.errs)
  }

  /** The loop that swaps the ends of a slice until they meet. */
  method Reverse<T>(s: seq<T>) returns (r: seq<T>)
    ensures r == Reversed(s)
  {
    r := s;
    var i, j := 0, |r| - 1;
    while i < j
      invariant |r| == |s| && 0 <= i <= j + 1 && j == |s| - 1 - i
      invariant forall k :: i <= k <= j ==> r[k] == s[k]
      invariant forall k :: 0 <= k < i || j < k < |s| ==> r[k] == s[|s| - 1 - k]
    {
      var x, y := r[i], r[j];
      r := r[i := y];
      r := r[j := x];
      i, j := i + 1, j - 1;
    }
  }

  class Executor {
    var primary: FileSystem
    var secondary: FileSystem

    constructor (w: World)
      ensures Now() == w
    {
      primary, secondary := w.primary, w.secondary;
    }

    function Now(): World
      reads this
    {
      World(primary, secondary)
    }

    method ApplyOne(op: Op) returns (ok: bool)
      modifies this
      ensures var done := Applied(old(Now()), op); Now() == old(Now()).With(op.dst, done.fs) && ok == done.ok
    {
      var done := Applied(Now(), op);
      if op.dst == Primary { primary := done.fs; } else { secondary := done.fs; }
      ok := done.ok;
    }

    method Apply(ops: seq<Op>) returns (errs: nat)
      modifies this
      ensures Outcome(Now(), errs) == ExecAll(old(Now()), ops)
    {
      hide Applied;
      errs := 0;
      for i := 0 to |ops|
        invariant Outcome(Now(), errs) == ExecAll(old(Now()), ops[..i])
      {
        assert ops[..i + 1][..i] == ops[..i];
        var ok := ApplyOne(ops[i]);
        if !ok { errs := errs + 1; }
      }
      assert ops[..|ops|] == ops;
    }

    /** Split, reverse the deletes in place, apply both lists. */
    method ApplyOrdered(ops: seq<Op>) returns (errs: nat)
      modifies this
      ensures Outcome(Now(), errs) == InOrder(old(Now()), ops)
    {
      hide ExecAll;
      var creates, deletes: seq<Op> := [], [];
      for i := 0 to |ops|
        invariant creates == Creates(ops[..i]) && deletes == Removals(ops[..i])
      {
        assert ops[..i + 1][..i] == ops[..i];
        if ops[i].Deletes() { deletes := deletes + [ops[i]]; } else { creates := creates + [ops[i]]; }
      }
      assert ops[..|ops|] == ops;
      errs := Apply(creates);
      deletes := Reverse(deletes);
      var more := Apply(deletes);
      errs := errs + more;
    }
  }

  // ---- composition

  lemma {:induction false} ExecConcat(w: World, x: seq<Op>, y: seq<Op>)
    ensures ExecAll(w, x + y) == Outcome(ExecAll(ExecAll(w, x).w, y).w,
      ExecAll(w, x).errs + ExecAll(ExecAll(w, x).w, y).errs)
  {
    hide Applied;
    if y == [] {
      assert x + y == x;
    } else {
      assert (x + y)[..|x + y| - 1] == x + y[..|y| - 1];
      ExecConcat(w, x, y[..|y| - 1]);
    }
  }

  lemma {:induction false} SplitConcat(x: seq<Op>, y: seq<Op>)
    ensures Creates(x + y) == Creates(x) + Creates(y)
    ensures Removals(x + y) == Removals(x) + Removals(y)
  {
    if y == [] {
      assert x + y == x;
    } else {
      assert (x + y)[..|x + y| - 1] == x + y[..|y| - 1];
      SplitConcat(x, y[..|y| - 1]);
    }
  }

  lemma {:induction false} RemovalMembers(ops: seq<Op>, op: Op)
    ensures op in Removals(ops) <==> op in ops && op.Deletes()
  {
    if ops != [] {
      RemovalMembers(ops[..|ops| - 1], op);
      assert ops == ops[..|ops| - 1] + [ops[|ops| - 1]];
    }
  }

  lemma {:induction false} SplitSizes(ops: seq<Op>)
    ensures |Creates(ops)| + |Removals(ops)| == |ops|
  {
    if ops != [] {
      SplitSizes(ops[..|ops| - 1]);
    }
  }

  lemma {:induction false} SplitMembers(ops: seq<Op>)
    ensures multiset(Creates(ops)) + multiset(Removals(ops)) == multiset(ops)
  {
    if ops != [] {
      var front, op := ops[..|ops| - 1], ops[|ops| - 1];
      SplitMembers(front);
      OnePart(Creates(front), Removals(front), front, op, op.Deletes());
      assert ops == front + [op];
    }
  }

  lemma OnePart(x: seq<Op>, y: seq<Op>, front: seq<Op>, op: Op, second: bool)
    requires multiset(x) + multiset(y) == multiset(front)
    ensures multiset(x + if second then [] else [op]) + multiset(y + if second then [op]
      else []) == multiset(front + [op])
  {
    assert x + [] == x && y + [] == y;
  }

  lemma {:induction false} NoDeletes(ops: seq<Op>)
    requires forall i :: 0 <= i < |ops| ==> !ops[i].Deletes()
    ensures Creates(ops) == ops && Removals(ops) == []
  {
    if ops != [] {
      NoDeletes(ops[..|ops| - 1]);
    }
  }

  // ---- trees stay trees

  ghost predicate Trees(w: World) {
    PrefixClosed(w.primary) && PrefixClosed(w.secondary)
  }

  predicate RealPath(op: Op) {
    op.path != []
  }

  /** Whatever operation runs and whether or not it succeeds, every entry keeps a directory above it. */
  lemma AppliedKeepsTrees(w: World, op: Op)
    requires Trees(w) && RealPath(op)
    ensures PrefixClosed(Applied(w, op).fs)
  {
    var f := w.On(op.dst);
    match op
    case Mkdir(_, q) => MkdirAllKeeps(f, q);
    case Copy(_, src, q, kind) => CopyKeeps(w.On(src), f, q, kind);
    case Delete(_, q) => RemoveKeeps(f, q);
    case Rmdir(_, q) => RemoveAllKeeps(f, q);
    case Rename(_, from, to) =>
      MkdirAllKeeps(f, Parent(to));
      RenameToKeeps(MkdirAll(f, Parent(to)).fs, from, to);
    case ConflictRename(_, from, to) => RenameToKeeps(f, from, to);
  }

  lemma CopyKeeps(src: FileSystem, dst: FileSystem, q: Path, kind: FileType)
    requires PrefixClosed(dst) && q != []
    ensures PrefixClosed(CopyEntry(src, dst, q, kind).fs)
  {
    hide PrefixClosed, Passable;
    var up := MkdirAll(dst, Parent(q));
    MkdirAllKeeps(dst, Parent(q));
    if up.ok && q in src && src[q] != DirNode {
      ParentMade(dst, q);
      if kind == Symlink {
        LinkKeeps(up.fs, q, src[q]);
      } else {
        InstallKeeps(up.fs, q, src[q]);
      }
    }
  }

  lemma ParentMade(dst: FileSystem, q: Path)
    requires MkdirAll(dst, Parent(q)).ok
    ensures Parent(q) == [] || At(MkdirAll(dst, Parent(q)).fs, Parent(q)) == Some(DirNode)
  {
    MkdirAllAt(dst, Parent(q), Parent(q));
  }

  lemma LinkKeeps(f: FileSystem, q: Path, n: Node)
    requires PrefixClosed(f) && q != [] && n != DirNode
    requires Parent(q) == [] || At(f, Parent(q)) == Some(DirNode)
    ensures var g := Remove(f, q).fs; PrefixClosed(g) && (q !in g ==> PrefixClosed(g[q := n]))
  {
    hide PrefixClosed;
    var g := Remove(f, q).fs;
    RemoveKeeps(f, q);
    assert At(g, Parent(q)) == At(f, Parent(q));
    if q !in g {
      InstallKeeps(g, q, n);
    }
  }

  lemma {:induction false} ExecKeepsTrees(w: World, ops: seq<Op>)
    requires Trees(w) && forall op :: op in ops ==> RealPath(op)
    ensures Trees(ExecAll(w, ops).w)
  {
    hide Applied;
    if ops != [] {
      var front, op := ops[..|ops| - 1], ops[|ops| - 1];
      ExecKeepsTrees(w, front);
      AppliedKeepsTrees(ExecAll(w, front).w, op);
    }
  }
}

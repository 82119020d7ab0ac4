/** The sender of the one-way network leg (internal/remote/sender.go). */
module Sender {
  import opened Options
  import opened Model
  import opened FileTree
  import opened Reconcile
  import opened Executor
  import opened Merge
  import opened RemoteTree
  import opened Passes
  import opened Baseline
  import opened Guard
  import opened PathOrder

  datatype Verdict = Frozen | NotReady | OverBudget | NothingToDo | Sent

  /** What becomes of a request on its way: it is carried, the receiver refuses it unread, or the connection breaks. */
  datatype Carriage = Works | Refuses | Breaks

  /** An operation of a pass: asked for, at a time when it was due, and answered; or left for a later pass. */
  datatype Event = Tried(op: Op, asked: int, answered: int, ok: bool) | Left(op: Op, asked: int)

  /** What happened while the operations of a pass were sent; lost: the connection broke before all had their turn. */
  datatype Log = Log(events: seq<Event>, lost: bool)
  {
    /** Nothing was left and nothing failed. */
    predicate Smooth() {
      !lost && forall i :: 0 <= i < |events| ==> events[i].Tried? && events[i].ok
    }

    predicate Asks(q: Path) {
      exists i :: 0 <= i < |events| && events[i].Tried? && events[i].op.path == q
    }

    predicate Fails(q: Path) {
      exists i :: 0 <= i < |events| && events[i].Tried? && events[i].op.path == q && !events[i].ok
    }
  }

  /** The receiver's tree after these events. */
  function Reached(f: FileSystem, es: seq<Event>, prim: Tree, line: nat -> Carriage): FileSystem {
    if es == [] then f
    else
      var g, e := Reached(f, es[..|es| - 1], prim, line), es[|es| - 1];
      if e.Tried? && line(|es| - 1) == Works then Served(g, e.op, EntryFor(prim, e.op)).fs else g
  }

  /** A request was acknowledged exactly if it was carried and could be served as the receiver's tree was by then. */
  ghost predicate Carried(f: FileSystem, es: seq<Event>, prim: Tree, line: nat -> Carriage) {
    forall i :: 0 <= i < |es| && es[i].Tried? ==>
      es[i].ok == (line(i) == Works && Served(Reached(f, es[..i], prim, line), es[i].op, EntryFor(prim, es[i].op)).ok)
  }

  /** The connection broke at the last request. */
  predicate Broken(es: seq<Event>, line: nat -> Carriage) {
    es != [] && es[|es| - 1].Tried? && line(|es| - 1) == Breaks
  }

  predicate Timed(es: seq<Event>, clock: nat -> int) {
    forall i :: 0 <= i < |es| ==> es[i].asked == clock(2 * i) && (es[i].Tried? ==> es[i].answered == clock(2 * i + 1))
  }

  /** The operations that were acknowledged. */
  function Acks(es: seq<Event>): seq<Op> {
    if es == [] then []
    else
      var e := es[|es| - 1];
      Acks(es[..|es| - 1]) + if e.Tried? && e.ok then [e.op] else []
  }

  /** Below a directory whose creation has failed before in the pass. */
  predicate Blocked(es: seq<Event>, q: Path) {
    exists i :: 0 <= i < |es| && Bars(es[i], q)
  }

  predicate Bars(e: Event, q: Path) {
    e.Tried? && !e.ok && e.op.Mkdir? && e.op.path <= q && e.op.path != q
  }

  /** No request went below a directory whose creation has failed. */
  ghost predicate BlockedBelow(es: seq<Event>) {
    forall i, j :: 0 <= i < |es| && 0 <= j < |es| && es[j].Tried? ==> !Bars(es[i], es[j].op.path)
  }

  /** Exactly what is in backoff, in quarantine or below a directory that could not be made is left. */
  ghost predicate Due(before: Items, es: seq<Event>, i: nat)
    requires i < |es|
  {
    es[i].Tried? <==> !Skipped(before, es[i].op.path, es[i].asked) && !Blocked(es[..i], es[i].op.path)
  }

  ghost predicate Fair(before: Items, es: seq<Event>) {
    forall i :: 0 <= i < |es| ==> Due(before, es, i)
  }

  /** The record of one event: a failure counts, is waited for longer than the one before, and the tenth ends it. */
  ghost predicate Entered(before: Items, now: Items, e: Event) {
    match e
    case Left(op, _) => At(now, op.path) == At(before, op.path)
    case Tried(op, _, answered, ok) =>
      if ok then op.path !in now
      else
        var n := Attempts(before, op.path) + 1;
        op.path in now && now[op.path] == Item(n, (answered + Backoff(n)) / SECOND, n >= 10)
  }

  /** What a pass leaves on record about failures. */
  ghost predicate Booked(before: Items, now: Items, es: seq<Event>) {
    && (forall i :: 0 <= i < |es| ==> Entered(before, now, es[i]))
    && forall q: Path :: (forall i :: 0 <= i < |es| ==> es[i].op.path != q) ==> At(now, q) == At(before, q)
  }

  class Sender {
    const budget: Budget
    const marks: Markers
    const retry: RetryState
    var source: int
    var baseline: Tree
    var remote: FileSystem
    var connected: bool
    ghost var approvals: nat
    ghost var excess: nat
    /** How often an approval was used that could not be removed. */
    ghost var stuck: nat

    /** The baseline describes the receiver, nobody is retried after the tenth failure, and there were not more
        passes over the budget than approvals, counting one that could not be removed again each time. */
    ghost predicate Valid()
      reads this, marks, retry
    {
      && Mirrors(baseline, remote)
      && ItemsOk(retry.items)
      && excess + (if marks.approve then 1 else 0) <= approvals + stuck
    }

    constructor (budget: Budget, remote: FileSystem)
      requires PrefixClosed(remote) && forall q :: q in remote ==> remote[q] == DirNode
      ensures Valid() && fresh(marks) && fresh(retry) && baseline == map[] && this.remote == remote
      ensures approvals == excess == stuck == 0
    {
      this.budget := budget;
      this.remote := remote;
      baseline, source, connected, approvals, excess, stuck := map[], 0, false, 0, 0, 0;
      marks := new Markers();
      retry := new RetryState();
    }

    /** The operator approves the pending mass delete. */
    method Approve()
      requires Valid()
      modifies marks, this`approvals
      ensures Valid() && approvals == old(approvals) + 1 && marks.approve && !marks.freeze
    {
      marks.Approve();
      approvals := approvals + 1;
    }

    /** The device the source was first seen on has to be the one it is on now; 0 stands for unknown. */
    method CheckSource(dev: Option<int>) returns (ok: bool)
      modifies this`source
      ensures dev == None ==> !ok
      ensures dev != None && dev.value in {0, old(source)} ==> ok
      ensures dev != None && old(source) == 0 ==> ok
      ensures dev != None && old(source) != 0 && dev.value !in {0, old(source)} ==> !ok
      ensures source == if dev != None && old(source) == 0 then dev.value else old(source)
    {
      if dev == None { return false; }
      if dev.value == 0 { return true; }
      if source == 0 {
        source := dev.value;
        return true;
      }
      ok := source == dev.value;
    }

    /** One request and its answer. */
    method SendOp(op: Op, e: Entry, line: Carriage) returns (ok: bool)
      requires PrefixClosed(remote) && op.path != []
      modifies this`remote, this`connected
      ensures ok == (old(connected) && line == Works && Served(old(remote), op, e).ok)
      ensures remote == if old(connected) && line == Works then Served(old(remote), op, e).fs else old(remote)
      ensures connected == (old(connected) && line != Breaks)
      ensures !ok ==> PrefixClosed(remote) && OnlyAddsDirs(old(remote), remote)
    {
      SameOnlyAdds(remote);
      ok := false;
      if !connected || line == Refuses { return; }
      if line == Breaks {
        connected := false;
        return;
      }
      var done := Served(remote, op, e);
      ServedKeepsTree(remote, op, e);
      if !done.ok { FailureAddsOnlyDirs(remote, op, e); }
      remote := done.fs;
      ok := done.ok;
    }

    /** Record an acknowledged operation, walking over the entries for the children of a directory. */
    method ApplyToBaseline(op: Op, prim: Tree)
      requires op.Rename? ==> !(op.oldPath <= op.path) && !(op.path <= op.oldPath)
      modifies this`baseline
      ensures baseline == Acked(old(baseline), op, prim)
    {
      if op.Deletes() {
        baseline := baseline - {op.path};
        if op.Rmdir? { DropChildren(op.path); }
      } else if op.Rename? {
        MoveEntry(op.oldPath, op.path);
      } else if op.path in prim {
        baseline := baseline[op.path := prim[op.path]];
      }
    }

    method DropChildren(q: Path)
      requires q !in baseline
      modifies this`baseline
      ensures baseline == map k | k in old(baseline) && !(q <= k) :: old(baseline)[k]
    {
      var todo := baseline.Keys;
      while todo != {}
        invariant todo <= old(baseline).Keys
        invariant forall k :: k in baseline <==> k in old(baseline) && (q <= k ==> k in todo)
        invariant forall k :: k in baseline ==> baseline[k] == old(baseline)[k]
        decreases todo
      {
        var p :| p in todo;
        todo := todo - {p};
        if q <= p { baseline := baseline - {p}; }
      }
    }

    method MoveEntry(from: Path, to: Path)
      requires !(from <= to) && !(to <= from)
      modifies this`baseline
      ensures baseline == Move(old(baseline), from, to)
    {
      hide HalfMoved, Move;
      ghost var b := baseline;
      if from in baseline {
        var e := baseline[from];
        baseline := baseline - {from};
        baseline := baseline[to := e];
      }
      var todo := baseline.Keys;
      MoveStarts(b, from, to);
      while todo != {}
        invariant Moving(b, from, to, todo, baseline)
        decreases todo
      {
        var p :| p in todo;
        MoveOne(b, from, to, todo, p, baseline);
        todo := todo - {p};
        if from < p {
          var e := baseline[p];
          baseline := baseline - {p};
          baseline := baseline[to + p[|from|..] := e];
        }
      }
      MoveEnds(b, from, to, baseline);
    }

    /** One operation that is neither in backoff nor blocked: request, retry bookkeeping, baseline. */
    method Attempt(op: Op, prim: Tree, answered: int, line: Carriage) returns (ok: bool)
      requires Valid() && ForPeer(prim, op) && !Quarantined(retry.items, op.path)
      modifies this`baseline, this`remote, this`connected, retry
      ensures Valid()
      ensures ok == (old(connected) && line == Works && Served(old(remote), op, EntryFor(prim, op)).ok)
      ensures remote
        == if old(connected) && line == Works then Served(old(remote), op, EntryFor(prim, op)).fs else old(remote)
      ensures connected == (old(connected) && line != Breaks)
      ensures baseline == if ok then Acked(old(baseline), op, prim) else old(baseline)
      ensures forall q :: q != op.path ==> At(retry.items, q) == At(old(retry.items), q)
      ensures ok ==> op.path !in retry.items
      ensures !ok ==> op.path in retry.items
      ensures !ok ==> var item := retry.items[op.path];
        && item.attempts == Attempts(old(retry.items), op.path) + 1
        && item.nextTry == (answered + Backoff(item.attempts)) / SECOND
        && (item.quarantined <==> item.attempts >= 10) && item.attempts <= 10
    {
      hide Mirrors, Served, Acked, OnlyAddsDirs, ForPeer;
      MirrorsAt(baseline, remote, op.path);
      PeerPath(prim, op);
      ghost var f := remote;
      ok := SendOp(op, EntryFor(prim, op), line);
      if ok {
        retry.Clear(op.path);
        ServedMirrors(baseline, f, op, prim);
        RenameApart(f, op, prim);
        ApplyToBaseline(op, prim);
      } else {
        MoreDirsMirror(baseline, f, remote);
        var justQuarantined := retry.Fail(op.path, answered);
      }
    }

    /** The operations of a pass in order.  What is in backoff, in quarantine or below a directory that could not be
        made is left for a later pass; when the connection breaks, the rest is. */
    method Deliver(order: seq<Op>, prim: Tree, clock: nat -> int, line: nat -> Carriage) returns (ghost log: Log)
      requires connected && Valid() && ParentsFirst(order) && Apart(order)
      requires forall op :: op in order ==> ForPeer(prim, op)
      modifies this`baseline, this`remote, this`connected, retry
      ensures Valid() && baseline == AckedAll(old(baseline), Acks(log.events), prim)
      ensures Along(log.events, order) && (log.lost <==> |log.events| < |order|) && (log.lost ==> !connected)
      ensures Timed(log.events, clock) && Carried(old(remote), log.events, prim, line)
      ensures remote == Reached(old(remote), log.events, prim, line) && connected == !Broken(log.events, line)
      ensures BlockedBelow(log.events) && OnePerPath(log.events)
      ensures Fair(old(retry.items), log.events) && Booked(old(retry.items), retry.items, log.events)
    {
      hide Mirrors, AckedAll, Acked, ForPeer, ItemsOk, Fair, Booked, Entered, BlockedBelow, Blocked, Backoff, Served;
      hide Timed;
      hide Carried, EntryFor;
      ghost var es: seq<Event> := [];
      NothingHappened(retry.items);
      NothingAcked(baseline, prim);
      NothingCarried(remote, prim, clock, line);
      var blocked: seq<Path> := [];
      var i, alive := 0, true;
      while i < |order| && alive
        invariant i <= |order| && |es| == i && Valid() && Along(es, order) && alive == connected == !Broken(es, line)
        invariant Timed(es, clock) && Carried(old(remote), es, prim, line)
          && remote == Reached(old(remote), es, prim, line)
        invariant baseline == AckedAll(old(baseline), Acks(es), prim)
        invariant forall q :: IsBlocked(blocked, q) <==> Blocked(es, q)
        invariant BlockedBelow(es) && Fair(old(retry.items), es) && Booked(old(retry.items), retry.items, es)
        decreases |order| - i
      {
        var op := order[i];
        ghost var items, barred := retry.items, blocked;
        StillUntouched(old(retry.items), items, es, order);
        var asked := clock(2 * i);
        var skip := retry.Skip(op.path, asked);
        ghost var e := Left(op, asked);
        if !skip && !IsBlocked(blocked, op.path) {
          var answered := clock(2 * i + 1);
          var ok := Attempt(op, prim, answered, line(i));
          e := Tried(op, asked, answered, ok);
          if !ok {
            if op.Mkdir? { blocked := blocked + [op.path]; }
            alive := connected;
          }
        }
        NextAck(old(baseline), es, e, prim);
        EventEntered(old(retry.items), items, retry.items, e);
        NextEntry(old(retry.items), items, retry.items, es, e, order);
        NextBlocked(es, e, order, barred, blocked);
        NextCarried(old(remote), es, e, prim, clock, line);
        es := es + [e];
        i := i + 1;
      }
      log := Log(es, i < |order|);
      AlongApart(es, order);
    }

    /** One pass: approval and freeze, source check, connection, merge, budget, then the operations. */
    method Pass(prim: Tree, stamp: string, dev: Option<int>, reachable: bool, approveGoes: bool, freezeGoes: bool,
                writable: bool, clock: nat -> int, line: nat -> Carriage)
      returns (v: Verdict, ghost c: Input, ghost paths: seq<Path>, ghost log: Log)
      requires Valid() && PrefixClosed(Nodes(prim))
      modifies this`source, this`baseline, this`remote, this`connected, this`excess, this`stuck, marks, retry
      ensures Valid()
      ensures old(marks.freeze) && !old(marks.approve) <==> v == Frozen
      ensures v == NotReady
        <==> v != Frozen && (!reachable || dev == None || (old(source) != 0 && dev.value !in {0, old(source)}))
      ensures source == if v != Frozen && dev != None && old(source) == 0 then dev.value else old(source)
      ensures v in {OverBudget, NothingToDo, Sent} ==> SenderPass(c, paths) && c.b == old(baseline) && c.p == prim
      ensures v in {OverBudget, NothingToDo, Sent} ==>
        (v == OverBudget <==> !old(marks.approve) && budget.Exceeded(|Removals(SenderOps(c, paths))|, |old(baseline)|))
      ensures v in {OverBudget, NothingToDo, Sent} ==> (v == NothingToDo <==> SenderOps(c, paths) == [])
      ensures marks.approve == (old(marks.approve) && !approveGoes)
      ensures marks.freeze
        == ((v == OverBudget && writable) || (old(marks.freeze) && !(old(marks.approve) && freezeGoes)))
      ensures stuck == old(stuck) + if marks.approve then 1 else 0
      ensures v != Sent ==> baseline == old(baseline) && remote == old(remote) && log.events == []
      ensures v == Sent ==> Ran(c, paths, log, baseline) && (log.lost ==> Broken(log.events, line))
      ensures v == Sent ==> Timed(log.events, clock) && Carried(old(remote), log.events, prim, line)
      ensures v == Sent ==> remote == Reached(old(remote), log.events, prim, line)
      ensures excess == old(excess)
        + if v == Sent && budget.Exceeded(|Removals(SenderOps(c, paths))|, |old(baseline)|) then 1 else 0
      ensures BlockedBelow(log.events)
      ensures PassMade(Memory(old(source), old(retry.items)), Memory(source, retry.items), Turn(dev, log))
    {
      hide Mirrors, ItemsOk, SenderPass, Visits, Detected, Ran, SenderOps, PrefixClosed, Removals, Creates;
      hide Fair, Booked, BlockedBelow, OnePerPath, Timed, Carried;
      c, paths, log := Input(baseline, prim, baseline, stamp, [], []), [], Log([], false);
      NothingHappened(retry.items);
      var approved, ready := Ready(dev, reachable, approveGoes, freezeGoes);
      if ready != Sent { return ready, c, paths, log; }
      var creates, deletes;
      creates, deletes, c, paths := Plan(prim, stamp);
      SplitSizes(SenderOps(c, paths));
      v := Judge(|creates|, |deletes|, approved, writable);
      if v == Sent {
        if budget.Exceeded(|deletes|, |baseline|) { excess := excess + 1; }
        log := DeliverAll(creates, deletes, prim, clock, line, c, paths);
      }
    }

    /** Sort and send. */
    method DeliverAll(creates: seq<Op>, deletes: seq<Op>, prim: Tree, clock: nat -> int, line: nat -> Carriage,
                      ghost c: Input, ghost paths: seq<Path>)
      returns (ghost log: Log)
      requires connected && Valid() && SenderPass(c, paths) && c.b == baseline && c.p == prim
      requires creates == Creates(SenderOps(c, paths)) && deletes == Removals(SenderOps(c, paths))
      modifies this`baseline, this`remote, this`connected, retry
      ensures Valid() && Ran(c, paths, log, baseline) && (log.lost ==> Broken(log.events, line))
      ensures Timed(log.events, clock) && Carried(old(remote), log.events, prim, line)
      ensures remote == Reached(old(remote), log.events, prim, line)
      ensures BlockedBelow(log.events) && OnePerPath(log.events)
      ensures Fair(old(retry.items), log.events) && Booked(old(retry.items), retry.items, log.events)
    {
      hide Mirrors, ItemsOk, SenderPass, Visits, Detected, Ran, SenderOps, PrefixClosed, Removals, Creates;
      hide Fair, Booked, BlockedBelow, Along, OnePerPath, Timed, Carried;
      NoRootVisited(c, paths);
      var order := Sorted(creates, true) + Sorted(deletes, false);
      OrderOfPass(c, paths, order);
      log := Deliver(order, prim, clock, line);
      RanInOrder(c, paths, order, log, baseline);
    }

    /** Whether a pass with these numbers of operations is sent. */
    method Judge(creates: nat, deletes: nat, approved: bool, writable: bool) returns (v: Verdict)
      modifies marks
      ensures marks.approve == old(marks.approve)
      ensures v in {OverBudget, NothingToDo, Sent} && (v == NothingToDo <==> creates + deletes == 0)
      ensures v == OverBudget <==> !approved && budget.Exceeded(deletes, |baseline|)
      ensures marks.freeze == (old(marks.freeze) || (v == OverBudget && writable))
    {
      if budget.Exceeded(deletes, |baseline|) && !approved {
        marks.Freeze(writable);
        return OverBudget;
      }
      v := if creates + deletes == 0 then NothingToDo else Sent;
    }

    /** What has to hold before anything is compared: not frozen or approved, the right source, a connection. */
    method Ready(dev: Option<int>, reachable: bool, approveGoes: bool, freezeGoes: bool)
      returns (approved: bool, v: Verdict)
      requires Valid()
      modifies this`source, this`connected, this`stuck, marks
      ensures approved == old(marks.approve) && marks.approve == (approved && !approveGoes)
      ensures marks.freeze == (old(marks.freeze) && !(approved && freezeGoes))
      ensures stuck == old(stuck) + if marks.approve then 1 else 0
      ensures Valid() && (approved ==> excess < approvals + stuck - if marks.approve then 1 else 0)
      ensures v in {Frozen, NotReady, Sent} && (v == Frozen <==> old(marks.freeze) && !approved)
      ensures v == NotReady
        <==> v != Frozen && (!reachable || dev == None || (old(source) != 0 && dev.value !in {0, old(source)}))
      ensures source == if v != Frozen && dev != None && old(source) == 0 then dev.value else old(source)
      ensures v == Sent ==> connected
    {
      approved := marks.ConsumeApproval(approveGoes, freezeGoes);
      if marks.approve { stuck := stuck + 1; }
      if !approved && marks.freeze { return approved, Frozen; }
      var same := CheckSource(dev);
      if !same { return approved, NotReady; }
      connected := reachable;
      v := if connected then Sent else NotReady;
    }

    /** The operations that bring the primary to the receiver as the baseline knows it. */
    method Plan(prim: Tree, stamp: string)
      returns (creates: seq<Op>, deletes: seq<Op>, ghost c: Input, ghost paths: seq<Path>)
      requires Valid() && PrefixClosed(Nodes(prim))
      ensures SenderPass(c, paths) && c.b == baseline && c.p == prim && NoRoot(paths)
      ensures creates == Creates(SenderOps(c, paths)) && deletes == Removals(SenderOps(c, paths))
    {
      hide Mirrors, ItemsOk, SenderPass, Lists, Detected, Consumed, MergeEffect, PrefixClosed, Creates, Removals;
      NoRoots(baseline, remote, prim);
      var res, rp, rs, visited := ReconcileTrees(baseline, prim, baseline, stamp);
      c, paths := Input(baseline, prim, baseline, stamp, rp, rs), visited;
      PassBegins(c, paths);
      assert res.Value().ops == res.ops;
      creates, deletes := Split(res.ops);
    }
  }

  method Split(ops: seq<Op>) returns (creates: seq<Op>, deletes: seq<Op>)
    ensures creates == Creates(ops) && deletes == Removals(ops)
  {
    creates, deletes := [], [];
    for i := 0 to |ops|
      invariant creates == Creates(ops[..i]) && deletes == Removals(ops[..i])
    {
      assert ops[..i + 1][..i] == ops[..i];
      if ops[i].Deletes() { deletes := deletes + [ops[i]]; } else { creates := creates + [ops[i]]; }
    }
    assert ops[..|ops|] == ops;
  }

  /** What a pass that got as far as sending has done: each of its operations had its turn unless the connection broke,
      those acknowledged, all if nothing was left and nothing failed, make the baseline what it is now. */
  ghost predicate Ran(c: Input, paths: seq<Path>, log: Log, now: Tree)
    requires NoRoot(paths)
  {
    && SomeOf(Acks(log.events), c, paths) && now == AckedAll(c.b, Acks(log.events), c.p)
    && (forall i :: 0 <= i < |log.events| ==> log.events[i].op in SenderOps(c, paths))
    && (!log.lost ==> forall op :: op in SenderOps(c, paths) ==> Considered(log.events, op))
    && (log.Smooth() ==> AllOf(Acks(log.events), c, paths))
    && Along(log.events, SendingOrder(c, paths)) && (log.lost <==> |log.events| < |SendingOrder(c, paths)|)
  }

  /** Creating operations by path, then deleting ones in the opposite order. */
  function SendingOrder(c: Input, paths: seq<Path>): seq<Op>
    requires NoRoot(paths)
  {
    Sorted(Creates(SenderOps(c, paths)), true) + Sorted(Removals(SenderOps(c, paths)), false)
  }

  predicate Considered(es: seq<Event>, op: Op) {
    exists i :: 0 <= i < |es| && es[i].op == op
  }

  lemma NoRoots(b: Tree, f: FileSystem, prim: Tree)
    requires Mirrors(b, f) && PrefixClosed(Nodes(prim))
    ensures [] !in AllPaths(b, prim, b)
  {
    hide Mirrors;
    MirrorsAt(b, f, []);
    assert [] !in Nodes(prim);
  }

  lemma PassBegins(c: Input, paths: seq<Path>)
    requires c.s == c.b && [] !in AllPaths(c.b, c.p, c.b) && Detected(c.b, c.p, c.s, c.onPrimary)
    requires Detected(c.b, c.s, c.p, c.onSecondary)
    requires Visits(c, paths)
    ensures SenderPass(c, paths)
  {
    hide Detected, Lists, Consumed;
  }

  lemma {:induction false} CreateMembers(ops: seq<Op>, op: Op)
    ensures op in Creates(ops) <==> op in ops && !op.Deletes()
  {
    if ops != [] {
      CreateMembers(ops[..|ops| - 1], op);
      assert ops == ops[..|ops| - 1] + [ops[|ops| - 1]];
    }
  }

  lemma OrderOfPass(c: Input, paths: seq<Path>, order: seq<Op>)
    requires SenderPass(c, paths)
    requires NoRoot(paths) && order == SendingOrder(c, paths)
    ensures ParentsFirst(order) && ChildrenFirst(order) && Apart(order) && AllOf(order, c, paths)
    ensures forall op :: op in order ==> ForPeer(c.p, op)
  {
    hide SenderPass, SenderOps, Sorted, Creates, Removals, ParentsFirst, ChildrenFirst, ForPeer, Apart;
    NoRootVisited(c, paths);
    var ops := SenderOps(c, paths);
    SplitMembers(ops);
    OneOpPerPath(c, paths);
    ApartReordered(ops, order);
    forall op ensures op in order <==> op in ops {
      assert op in multiset(order) <==> op in multiset(ops);
    }
    forall op | op in ops ensures ForPeer(c.p, op) && op.path != [] {
      SenderOpKinds(c, paths, op);
      PeerPath(c.p, op);
    }
    forall op
      ensures (op in Creates(ops) ==> op in ops && !op.Deletes()) && (op in Removals(ops) ==> op in ops && op.Deletes())
    {
      CreateMembers(ops, op);
      RemovalMembers(ops, op);
    }
    SendOrder(Creates(ops), Removals(ops));
  }

  lemma RanInOrder(c: Input, paths: seq<Path>, order: seq<Op>, log: Log, now: Tree)
    requires NoRoot(paths) && AllOf(order, c, paths) && now == AckedAll(c.b, Acks(log.events), c.p)
    requires order == SendingOrder(c, paths)
    requires Along(log.events, order) && (log.lost <==> |log.events| < |order|)
    ensures Ran(c, paths, log, now)
  {
    hide SenderOps, AckedAll, Acks, SendingOrder;
    forall op | op in Acks(log.events) ensures op in order {
      AckedHappened(log.events, op);
    }
    forall op | op in order && !log.lost ensures Considered(log.events, op) {
      var i :| 0 <= i < |order| && order[i] == op;
      assert log.events[i].op == op;
    }
    if log.Smooth() {
      SmoothAcks(log.events, order);
    }
  }

  lemma {:induction false} AckedHappened(es: seq<Event>, op: Op)
    requires op in Acks(es)
    ensures exists i :: 0 <= i < |es| && es[i].op == op && es[i].Tried? && es[i].ok
  {
    var front, e := es[..|es| - 1], es[|es| - 1];
    if op in Acks(front) {
      AckedHappened(front, op);
      var i :| 0 <= i < |front| && front[i].op == op && front[i].Tried? && front[i].ok;
      assert es[i] == front[i];
    }
  }

  lemma {:induction false} SmoothAcks(es: seq<Event>, order: seq<Op>)
    requires |es| == |order| && Along(es, order) && forall i :: 0 <= i < |es| ==> es[i].Tried? && es[i].ok
    ensures Acks(es) == order
  {
    if es != [] {
      SmoothAcks(es[..|es| - 1], order[..|order| - 1]);
      assert order == order[..|order| - 1] + [order[|order| - 1]];
    }
  }

  /** The merge makes at most one operation for each path. */
  lemma OneOpPerPath(c: Input, paths: seq<Path>)
    requires SenderPass(c, paths) && NoRoot(paths)
    ensures Apart(SenderOps(c, paths))
  {
    hide PathsEffect, Detected, Apart;
    SenderNoRenamesBack(c, paths);
    var renames, rest := RenameOps(Secondary, c.onPrimary), PathsEffect(c.b, c.p, c.s, c.stamp, paths).ops;
    RenamesApart(c, paths);
    UnitsApart(c, paths);
    assert SenderOps(c, paths) == renames + rest;
    forall i, j | 0 <= i < |renames| && 0 <= j < |rest| ensures renames[i].path != rest[j].path {
      assert c.onPrimary[i] in c.onPrimary && rest[j] in rest;
      PathsOps(c, paths, rest[j]);
    }
    ApartParts(renames, rest);
  }

  lemma ApartParts(x: seq<Op>, y: seq<Op>)
    requires Apart(x) && Apart(y) && forall i, j :: 0 <= i < |x| && 0 <= j < |y| ==> x[i].path != y[j].path
    ensures Apart(x + y)
  {
  }

  lemma RenamesApart(c: Input, paths: seq<Path>)
    requires SenderPass(c, paths)
    ensures Apart(RenameOps(Secondary, c.onPrimary))
  {
    hide DeletedByKey, RenameFits;
    var bOrder, nOrder :| Lists(bOrder, c.b.Keys) && Lists(nOrder, c.p.Keys)
      && c.onPrimary == RenamePairs(c.b, c.p, c.b, DeletedByKey(c.b, c.p, bOrder), nOrder);
    TargetsDiffer(c.b, c.p, c.b, DeletedByKey(c.b, c.p, bOrder), nOrder, c.onPrimary);
  }

  lemma {:induction false} UnitsApart(c: Input, paths: seq<Path>)
    requires OneWay(c, Secondary) && NoRoot(paths) && forall i, j :: 0 <= i < j < |paths| ==> paths[i] != paths[j]
    ensures Apart(PathsEffect(c.b, c.p, c.s, c.stamp, paths).ops)
  {
    hide PathEffect;
    if paths != [] {
      var front, q := paths[..|paths| - 1], paths[|paths| - 1];
      UnitsApart(c, front);
      OneOpForPath(c, q);
      var before, here := PathsEffect(c.b, c.p, c.s, c.stamp, front).ops, Unit(c, q).ops;
      forall i, j | 0 <= i < |before| && 0 <= j < |here| ensures before[i].path != here[j].path {
        assert before[i] in before && here[j] in here;
        PathsOps(c, front, before[i]);
      }
      ApartParts(before, here);
    }
  }

  lemma OneOpForPath(c: Input, q: Path)
    requires OneWay(c, Secondary) && q != []
    ensures |Unit(c, q).ops| <= 1 && forall op :: op in Unit(c, q).ops ==> op.path == q
  {
    hide ConflictPath;
  }

  // ---- what a pass guarantees

  /** A pass without an approval takes out of the baseline, apart from the old names of renames, at most as many entries
      as the budget allows, however large the subtrees it removes. */
  lemma UnapprovedDamage(s: Budget, c: Input, paths: seq<Path>, log: Log, now: Tree)
    requires SenderPass(c, paths) && PrefixClosed(Nodes(c.p)) && Ran(c, paths, log, now)
    requires !s.Exceeded(|Removals(SenderOps(c, paths))|, |c.b|)
    ensures var lost := |c.b.Keys - now.Keys - Froms(c.onPrimary)|;
      && (s.maxCount > 0 ==> lost <= s.maxCount)
      && (s.maxPercent > 0 && |c.b| > 0 ==> lost * 100 < (s.maxPercent + 1) * |c.b|)
  {
    hide SenderPass, SenderOps, AckedAll, Removals, Froms;
    NoRootVisited(c, paths);
    BoundedDamage(c, paths, Acks(log.events));
    BudgetBounds(s, |Removals(SenderOps(c, paths))|, |c.b|);
  }

  // ---- passes in a row

  /** What a sender remembers between passes, apart from its baseline. */
  datatype Memory = Memory(source: int, items: Items)

  /** How a pass went: on which device it found the source, and what it sent. */
  datatype Turn = Turn(dev: Option<int>, log: Log)

  /** A recorded device stays, and a pass that finds another one asks for nothing. */
  ghost predicate SourceKept(before: int, now: int, turn: Turn) {
    before != 0 ==>
      now == before && (turn.log.events != [] ==> turn.dev != None && turn.dev.value in {0, before})
  }

  ghost predicate PassMade(before: Memory, now: Memory, turn: Turn) {
    && ItemsOk(before.items) && ItemsOk(now.items) && SourceKept(before.source, now.source, turn)
    && Fair(before.items, turn.log.events) && Booked(before.items, now.items, turn.log.events)
    && OnePerPath(turn.log.events)
  }

  ghost predicate OnePerPath(es: seq<Event>) {
    forall i, j :: 0 <= i < j < |es| ==> es[i].op.path != es[j].op.path
  }

  ghost predicate PassesInRow(states: seq<Memory>, turns: seq<Turn>) {
    && |states| == |turns| + 1
    && forall i :: 0 <= i < |turns| ==> PassMade(states[i], states[i + 1], turns[i])
  }

  /** Once the device of the source is known it is never forgotten, and no pass that finds the source on another device,
      or cannot tell, asks the receiver for anything. */
  lemma {:induction false} SourceForever(states: seq<Memory>, turns: seq<Turn>, i: nat, j: nat)
    requires PassesInRow(states, turns) && i <= j <= |turns| && states[i].source != 0
    ensures states[j].source == states[i].source
    ensures j < |turns| && (turns[j].dev == None || turns[j].dev.value !in {0, states[i].source})
      ==> turns[j].log.events == []
  {
    hide Fair, Booked, ItemsOk;
    if i < j {
      SourceForever(states, turns, i, j - 1);
      assert PassMade(states[j - 1], states[j], turns[j - 1]);
    }
    assert j < |turns| ==> PassMade(states[j], states[j + 1], turns[j]);
  }

  /** What one pass does to the record of one path. */
  lemma OnePass(before: Memory, now: Memory, turn: Turn, q: Path)
    requires PassMade(before, now, turn)
    ensures Quarantined(before.items, q) ==> !turn.log.Asks(q)
    ensures !turn.log.Asks(q) ==> At(now.items, q) == At(before.items, q)
    ensures turn.log.Fails(q) ==> Attempts(now.items, q) == Attempts(before.items, q) + 1
    ensures turn.log.Asks(q) && !turn.log.Fails(q) ==> q !in now.items
  {
    hide ItemsOk, Blocked, Backoff;
    var es := turn.log.events;
    forall i | 0 <= i < |es| && es[i].op.path == q
      ensures Due(before.items, es, i) && Entered(before.items, now.items, es[i]) {
    }
  }

  /** A path once quarantined is never asked for and never cleared again, in any later pass. */
  lemma {:induction false} QuarantineForever(states: seq<Memory>, turns: seq<Turn>, q: Path, i: nat, j: nat)
    requires PassesInRow(states, turns) && i <= j <= |turns| && Quarantined(states[i].items, q)
    ensures Quarantined(states[j].items, q) && states[j].items[q] == states[i].items[q]
    ensures j < |turns| ==> !turns[j].log.Asks(q)
  {
    hide PassMade;
    if i < j {
      QuarantineForever(states, turns, q, i, j - 1);
      OnePass(states[j - 1], states[j], turns[j - 1], q);
    }
    if j < |turns| {
      OnePass(states[j], states[j + 1], turns[j], q);
    }
  }

  /** In how many of the passes from i to j the path was asked for and failed. */
  function Failures(turns: seq<Turn>, q: Path, i: nat, j: nat): nat
    requires i <= j <= |turns|
  {
    if i == j then 0 else Failures(turns, q, i, j - 1) + if turns[j - 1].log.Fails(q) then 1 else 0
  }

  /** Between two successes of a path every failure counts, and it is in quarantine exactly when ten have. */
  lemma {:induction false} TenFailuresQuarantine(states: seq<Memory>, turns: seq<Turn>, q: Path, i: nat, j: nat)
    requires PassesInRow(states, turns) && i <= j <= |turns| && q !in states[i].items && ItemsOk(states[i].items)
    requires forall k :: i <= k < j ==> (turns[k].log.Asks(q) ==> turns[k].log.Fails(q))
    ensures Attempts(states[j].items, q) == Failures(turns, q, i, j) <= 10
    ensures Quarantined(states[j].items, q) <==> Failures(turns, q, i, j) == 10
  {
    hide PassMade;
    if i < j {
      TenFailuresQuarantine(states, turns, q, i, j - 1);
      OnePass(states[j - 1], states[j], turns[j - 1], q);
    }
    RecordOk(states, turns, j);
  }

  lemma RecordOk(states: seq<Memory>, turns: seq<Turn>, j: nat)
    requires PassesInRow(states, turns) && j <= |turns| && (turns == [] ==> ItemsOk(states[0].items))
    ensures ItemsOk(states[j].items)
  {
    hide Fair, Booked, ItemsOk;
    if j > 0 {
      assert PassMade(states[j - 1], states[j], turns[j - 1]);
    } else if turns != [] {
      assert PassMade(states[0], states[1], turns[0]);
    }
  }

  /** After its n-th failure in a row a path is not asked for again before 2^n seconds, at most five minutes, have
      passed, up to the full second, whatever passes there are in between. */
  lemma RetryWaits(states: seq<Memory>, turns: seq<Turn>, q: Path, i: nat, j: nat, k: nat, m: nat)
    requires PassesInRow(states, turns) && i < j < |turns| && k < |turns[i].log.events| && m < |turns[j].log.events|
    requires var e := turns[i].log.events[k]; e.Tried? && !e.ok && e.op.path == q
    requires var e := turns[j].log.events[m]; e.Tried? && e.op.path == q
    requires forall l :: i < l < j ==> !turns[l].log.Asks(q)
    ensures var wait := Pow2(Attempts(states[i].items, q) + 1) * 1_000_000_000;
      turns[j].log.events[m].asked > turns[i].log.events[k].answered
        + (if wait < 300_000_000_000 then wait else 300_000_000_000) - 1_000_000_000
  {
    hide ItemsOk, Backoff, Pow2;
    var e, f := turns[i].log.events[k], turns[j].log.events[m];
    var n := Attempts(states[i].items, q) + 1;
    assert PassMade(states[i], states[i + 1], turns[i]) && Entered(states[i].items, states[i + 1].items, e);
    assert PassMade(states[j], states[j + 1], turns[j]) && Due(states[j].items, turns[j].log.events, m);
    Unasked(states, turns, q, i + 1, j);
    BackoffDoubles(n);
    Seconds(f.asked, e.answered + Backoff(n));
  }

  lemma {:induction false} Unasked(states: seq<Memory>, turns: seq<Turn>, q: Path, i: nat, j: nat)
    requires PassesInRow(states, turns) && i <= j <= |turns| && forall l :: i <= l < j ==> !turns[l].log.Asks(q)
    ensures At(states[j].items, q) == At(states[i].items, q)
  {
    hide PassMade;
    if i < j {
      Unasked(states, turns, q, i, j - 1);
      OnePass(states[j - 1], states[j], turns[j - 1], q);
    }
  }
  /** Two passes of an unchanged primary in which nothing was skipped and nothing failed leave nothing to send. */
  lemma SmoothPassesFinish(c1: Input, p1: seq<Path>, log1: Log, c2: Input, p2: seq<Path>, log2: Log, c3: Input,
                           p3: seq<Path>, f: FileSystem)
    requires SenderPass(c1, p1) && SenderPass(c2, p2) && SenderPass(c3, p3)
    requires PrefixClosed(Nodes(c1.p)) && Mirrors(c1.b, f) && c2.p == c1.p && c3.p == c1.p
    requires Ran(c1, p1, log1, c2.b) && log1.Smooth() && Ran(c2, p2, log2, c3.b) && log2.Smooth()
    ensures SenderOps(c3, p3) == [] && Nodes(c3.b) == Nodes(c1.p)
  {
    hide SenderPass, SenderOps, AckedAll, Mirrors, AllOf, SomeOf, SendingOrder, Along;
    MirrorsTidy(c1.b, f);
    TwoPassesSuffice(c1, p1, Acks(log1.events), c2, p2, Acks(log2.events), c3, p3);
  }

  predicate IsBlocked(blocked: seq<Path>, q: Path) {
    exists i :: 0 <= i < |blocked| && blocked[i] <= q && blocked[i] != q
  }

  /** The events are about the operations of the order, from its start. */
  ghost predicate Along(es: seq<Event>, order: seq<Op>) {
    |es| <= |order| && forall i :: 0 <= i < |es| ==> es[i].op == order[i]
  }

  lemma PeerPath(prim: Tree, op: Op)
    requires ForPeer(prim, op)
    ensures op.path != []
  {
  }

  /** A rename that was served is between places neither of which contains the other. */
  lemma RenameApart(f: FileSystem, op: Op, prim: Tree)
    requires PrefixClosed(f) && ForPeer(prim, op) && Served(f, op, EntryFor(prim, op)).ok
    ensures op.Rename? ==> !(op.oldPath <= op.path) && !(op.path <= op.oldPath)
  {
    if op.Rename? {
      var up := MkdirAll(f, Parent(op.path)).fs;
      MkdirAllKeeps(f, Parent(op.path));
      if op.path <= op.oldPath {
        AncestorIsDir(up, op.oldPath, op.path);
      }
    }
  }

  lemma NothingAcked(b: Tree, prim: Tree)
    ensures AckedAll(b, [], prim) == b
  {
  }

  lemma NextAck(b: Tree, es: seq<Event>, e: Event, prim: Tree)
    ensures AckedAll(b, Acks(es + [e]), prim)
      == if e.Tried? && e.ok then Acked(AckedAll(b, Acks(es), prim), e.op, prim) else AckedAll(b, Acks(es), prim)
  {
    hide Acked;
    assert (es + [e])[..|es|] == es;
    assert (Acks(es) + [e.op])[..|Acks(es)|] == Acks(es);
    assert Acks(es) + [] == Acks(es);
  }

  lemma AlongApart(es: seq<Event>, order: seq<Op>)
    requires Along(es, order) && Apart(order)
    ensures OnePerPath(es)
  {
  }

  lemma NothingCarried(f: FileSystem, prim: Tree, clock: nat -> int, line: nat -> Carriage)
    ensures Timed([], clock) && Carried(f, [], prim, line)
  {
  }

  lemma NextCarried(f: FileSystem, es: seq<Event>, e: Event, prim: Tree, clock: nat -> int, line: nat -> Carriage)
    requires Timed(es, clock) && Carried(f, es, prim, line)
    requires e.asked == clock(2 * |es|) && (e.Tried? ==> e.answered == clock(2 * |es| + 1))
    requires var g := Reached(f, es, prim, line);
      e.Tried? ==> e.ok == (line(|es|) == Works && Served(g, e.op, EntryFor(prim, e.op)).ok)
    ensures Timed(es + [e], clock) && Carried(f, es + [e], prim, line)
    ensures Reached(f, es + [e], prim, line)
      == if e.Tried? && line(|es|) == Works then Served(Reached(f, es, prim, line), e.op, EntryFor(prim, e.op)).fs
         else Reached(f, es, prim, line)
  {
    hide Served, EntryFor;
    var more := es + [e];
    assert more[..|es|] == es;
    forall i | 0 <= i < |more| && more[i].Tried?
      ensures more[i].ok
        == (line(i) == Works && Served(Reached(f, more[..i], prim, line), more[i].op, EntryFor(prim, more[i].op)).ok)
    {
      if i < |es| {
        assert more[..i] == es[..i] && more[i] == es[i];
      }
    }
  }

  lemma NothingHappened(items: Items)
    ensures Fair(items, []) && Booked(items, items, []) && BlockedBelow([]) && OnePerPath([])
    ensures forall q :: IsBlocked([], q) <==> Blocked([], q)
  {
  }

  /** The record about an operation that has not had its turn is as the pass found it. */
  lemma StillUntouched(before: Items, items: Items, es: seq<Event>, order: seq<Op>)
    requires Booked(before, items, es) && Along(es, order) && |es| < |order| && Apart(order)
    ensures var q := order[|es|].path; At(items, q) == At(before, q)
  {
    hide Entered;
  }

  lemma EventEntered(before: Items, items: Items, now: Items, e: Event)
    requires At(items, e.op.path) == At(before, e.op.path)
    requires e.Left? ==> now == items
    requires e.Tried? && e.ok ==> e.op.path !in now
    requires e.Tried? && !e.ok ==> e.op.path in now
    requires e.Tried? && !e.ok ==> var item := now[e.op.path];
      && item.attempts == Attempts(items, e.op.path) + 1
      && item.nextTry == (e.answered + Backoff(item.attempts)) / SECOND
      && (item.quarantined <==> item.attempts >= 10)
    ensures Entered(before, now, e)
  {
    hide Backoff;
  }

  /** One more event keeps the records right and the choice fair. */
  lemma NextEntry(before: Items, items: Items, now: Items, es: seq<Event>, e: Event, order: seq<Op>)
    requires Along(es, order) && |es| < |order| && e.op == order[|es|] && Apart(order)
    requires Fair(before, es) && Booked(before, items, es) && Entered(before, now, e)
    requires forall q :: q != e.op.path ==> At(now, q) == At(items, q)
    requires e.Tried? <==> !Skipped(before, e.op.path, e.asked) && !Blocked(es, e.op.path)
    ensures Along(es + [e], order) && Fair(before, es + [e]) && Booked(before, now, es + [e])
  {
    hide Skipped, Blocked, Backoff;
    var more := es + [e];
    assert more[..|es|] == es;
    forall i | 0 <= i < |more| ensures Due(before, more, i) && Entered(before, now, more[i]) {
      if i < |es| {
        assert more[..i] == es[..i] && more[i] == es[i] && Due(before, es, i);
        assert Entered(before, items, es[i]);
        assert At(now, es[i].op.path) == At(items, es[i].op.path);
      }
    }
    forall q: Path | forall i :: 0 <= i < |more| ==> more[i].op.path != q ensures At(now, q) == At(before, q) {
      assert more[|es|] == e;
      assert forall i :: 0 <= i < |es| ==> more[i] == es[i];
    }
  }

  /** The list of barred directories is what the events say, and no request goes below one. */
  lemma NextBlocked(es: seq<Event>, e: Event, order: seq<Op>, blocked: seq<Path>, blocked': seq<Path>)
    requires Along(es, order) && |es| < |order| && e.op == order[|es|] && ParentsFirst(order) && BlockedBelow(es)
    requires forall q :: IsBlocked(blocked, q) <==> Blocked(es, q)
    requires e.Tried? ==> !Blocked(es, e.op.path)
    requires blocked' == if e.Tried? && !e.ok && e.op.Mkdir? then blocked + [e.op.path] else blocked
    ensures BlockedBelow(es + [e]) && forall q :: IsBlocked(blocked', q) <==> Blocked(es + [e], q)
  {
    forall q ensures IsBlocked(blocked', q) <==> Blocked(es + [e], q) {
      BlockedGrows(es, e, q);
      BarredGrows(blocked, e.op.path, q);
    }
    var more := es + [e];
    forall i, j | 0 <= i < |more| && 0 <= j < |more| && more[j].Tried? ensures !Bars(more[i], more[j].op.path) {
      if i < |es| && j == |es| {
        assert !Blocked(es, e.op.path) && more[i] == es[i];
      }
      if i == |es| && j < |es| {
        assert order[j] == more[j].op;
      }
    }
  }

  lemma BlockedGrows(es: seq<Event>, e: Event, q: Path)
    ensures Blocked(es + [e], q) <==> Blocked(es, q) || Bars(e, q)
  {
    var more := es + [e];
    assert more[|es|] == e && forall i :: 0 <= i < |es| ==> more[i] == es[i];
  }

  lemma BarredGrows(blocked: seq<Path>, a: Path, q: Path)
    ensures IsBlocked(blocked + [a], q) <==> IsBlocked(blocked, q) || (a <= q && a != q)
  {
    var more := blocked + [a];
    assert more[|blocked|] == a && forall i :: 0 <= i < |blocked| ==> more[i] == blocked[i];
  }

  /** While the children of `from` are being moved: those in todo are still there. */
  ghost predicate HalfMoved(b: Tree, from: Path, to: Path, todo: set<Path>, x: Path, now: Option<Entry>) {
    if from <= x then now == if x in todo then At(b, x) else None
    else if to <= x && from + x[|to|..] in b && from + x[|to|..] !in todo then now == Some(b[from + x[|to|..]])
    else now == At(b, x)
  }

  ghost predicate Moving(b: Tree, from: Path, to: Path, todo: set<Path>, m: Tree) {
    && (forall k :: k in todo && from <= k ==> k in b && k in m && k != from)
    && forall x :: HalfMoved(b, from, to, todo, x, At(m, x))
  }

  lemma MoveStarts(b: Tree, from: Path, to: Path)
    requires !(from <= to) && !(to <= from)
    ensures var m := if from in b then (b - {from})[to := b[from]] else b; Moving(b, from, to, m.Keys, m)
  {
    var m := if from in b then (b - {from})[to := b[from]] else b;
    forall x ensures HalfMoved(b, from, to, m.Keys, x, At(m, x)) {
      if !(from <= x) && to <= x {
        var j := from + x[|to|..];
        assert j == from ==> x == to;
      }
    }
  }

  lemma MoveOne(b: Tree, from: Path, to: Path, todo: set<Path>, p: Path, m: Tree)
    requires !(from <= to) && !(to <= from) && Moving(b, from, to, todo, m) && p in todo
    ensures from < p ==> p in m
    ensures Moving(b, from, to, todo - {p}, if from < p then (m - {p})[to + p[|from|..] := m[p]] else m)
  {
    hide HalfMoved;
    var m' := if from < p then (m - {p})[to + p[|from|..] := m[p]] else m;
    forall x ensures HalfMoved(b, from, to, todo - {p}, x, At(m', x)) {
      MoveCell(b, from, to, todo, p, m, x);
    }
  }

  lemma MoveCell(b: Tree, from: Path, to: Path, todo: set<Path>, p: Path, m: Tree, x: Path)
    requires !(from <= to) && !(to <= from) && Moving(b, from, to, todo, m) && p in todo
    requires from < p ==> p in m
    ensures HalfMoved(b, from, to, todo - {p}, x, At(if from < p then (m - {p})[to + p[|from|..] := m[p]] else m, x))
  {
    assert HalfMoved(b, from, to, todo, x, At(m, x)) && HalfMoved(b, from, to, todo, p, At(m, p));
    if from < p {
      var np := to + p[|from|..];
      assert from + np[|to|..] == p;
      assert to <= x && from + x[|to|..] == p ==> x == np;
    }
  }

  lemma MoveEnds(b: Tree, from: Path, to: Path, m: Tree)
    requires !(from <= to) && !(to <= from) && Moving(b, from, to, {}, m)
    ensures m == Move(b, from, to)
  {
    hide Move, HalfMoved;
    forall x ensures At(m, x) == At(Move(b, from, to), x) {
      MovedEntry(b, from, to, m, x);
    }
    SameEntries(m, Move(b, from, to));
  }

  lemma MovedEntry(b: Tree, from: Path, to: Path, m: Tree, x: Path)
    requires !(from <= to) && !(to <= from) && Moving(b, from, to, {}, m)
    ensures At(m, x) == At(Move(b, from, to), x)
  {
    hide Move;
    assert HalfMoved(b, from, to, {}, x, At(m, x));
    if to <= x && from + x[|to|..] in b {
      Arrived(b, from, to, x, from + x[|to|..]);
    } else {
      forall j ensures !CameFrom(b, from, to, x, j) {
        if CameFrom(b, from, to, x, j) {
          OriginIs(b, from, to, x, j);
        }
      }
      NotArrived(b, from, to, x);
    }
  }

  lemma SameEntries(m: Tree, n: Tree)
    requires forall x: Path :: At(m, x) == At(n, x)
    ensures m == n
  {
    assert forall x :: x in m ==> At(m, x) == At(n, x);
    assert forall x :: x in n ==> At(m, x) == At(n, x);
    assert m.Keys == n.Keys;
  }
}

/** The order in which the sender sends: by path, as the slash-joined names compare. */
module PathOrder {
  import opened Model
  import opened Reconcile

  function Joined(q: Path): string {
    if q == [] then "" else if |q| == 1 then q[0] else Joined(q[..|q| - 1]) + "/" + q[|q| - 1]
  }

  predicate Less(s: string, t: string) {
    t != [] && (s == [] || s[0] < t[0] || (s[0] == t[0] && Less(s[1..], t[1..])))
  }

  lemma {:induction false} LessAsym(s: string, t: string)
    requires Less(s, t)
    ensures !Less(t, s)
  {
    if s != [] && s[0] == t[0] {
      LessAsym(s[1..], t[1..]);
    }
  }

  lemma {:induction false} NotLessTrans(s: string, t: string, u: string)
    requires !Less(t, s) && !Less(u, t)
    ensures !Less(u, s)
  {
    if s != [] && t != [] && u != [] && s[0] == t[0] == u[0] {
      NotLessTrans(s[1..], t[1..], u[1..]);
    }
  }

  lemma {:induction false} PrefixIsLess(s: string, t: string)
    requires t != []
    ensures Less(s, s + t)
  {
    if s != [] {
      assert (s + t)[1..] == s[1..] + t;
      PrefixIsLess(s[1..], t);
    }
  }

  lemma {:induction false} BelowJoined(a: Path, q: Path) returns (rest: string)
    requires a != [] && a <= q && a != q
    ensures rest != [] && Joined(q) == Joined(a) + rest
  {
    var up, name := q[..|q| - 1], q[|q| - 1];
    if up == a {
      rest := "/" + name;
    } else {
      var r := BelowJoined(a, up);
      rest := r + "/" + name;
      assert Joined(a) + r + "/" + name == Joined(a) + rest;
    }
  }

  /** A directory comes before everything below it. */
  lemma ParentIsLess(a: Path, q: Path)
    requires a != [] && a <= q && a != q
    ensures Less(Joined(a), Joined(q))
  {
    var rest := BelowJoined(a, q);
    PrefixIsLess(Joined(a), rest);
  }

  /** x may stand before y. */
  predicate Goes(x: Op, y: Op, ascending: bool) {
    if ascending then !Less(Joined(y.path), Joined(x.path)) else !Less(Joined(x.path), Joined(y.path))
  }

  predicate Ordered(s: seq<Op>, ascending: bool) {
    forall i, j :: 0 <= i < j < |s| ==> Goes(s[i], s[j], ascending)
  }

  function Insert(x: Op, s: seq<Op>, ascending: bool): (r: seq<Op>)
    ensures multiset(r) == multiset{x} + multiset(s)
  {
    if s == [] then [x]
    else if Goes(x, s[0], ascending) then
      assert multiset([x] + s) == multiset{x} + multiset(s);
      [x] + s
    else
      assert s == [s[0]] + s[1..];
      [s[0]] + Insert(x, s[1..], ascending)
  }

  function Sorted(s: seq<Op>, ascending: bool): (r: seq<Op>)
    ensures multiset(r) == multiset(s)
  {
    if s == [] then []
    else
      assert s == [s[0]] + s[1..];
      Insert(s[0], Sorted(s[1..], ascending), ascending)
  }

  lemma GoesTrans(x: Op, y: Op, z: Op, ascending: bool)
    requires Goes(x, y, ascending) && Goes(y, z, ascending)
    ensures Goes(x, z, ascending)
  {
    if ascending {
      NotLessTrans(Joined(x.path), Joined(y.path), Joined(z.path));
    } else {
      NotLessTrans(Joined(z.path), Joined(y.path), Joined(x.path));
    }
  }

  lemma GoesTotal(x: Op, y: Op, ascending: bool)
    ensures Goes(x, y, ascending) || Goes(y, x, ascending)
  {
    if Less(Joined(x.path), Joined(y.path)) {
      LessAsym(Joined(x.path), Joined(y.path));
    }
  }

  lemma OrderedCons(x: Op, s: seq<Op>, ascending: bool)
    requires Ordered(s, ascending) && forall y :: y in s ==> Goes(x, y, ascending)
    ensures Ordered([x] + s, ascending)
  {
    hide Goes;
  }

  lemma InsertMembers(x: Op, s: seq<Op>, ascending: bool, y: Op)
    requires y in Insert(x, s, ascending)
    ensures y == x || y in s
  {
    hide Goes, Insert;
    assert y in multiset(Insert(x, s, ascending));
  }

  lemma {:induction false} InsertOrdered(x: Op, s: seq<Op>, ascending: bool)
    requires Ordered(s, ascending)
    ensures Ordered(Insert(x, s, ascending), ascending)
  {
    hide Goes;
    if s == [] {
    } else if Goes(x, s[0], ascending) {
      forall y | y in s ensures Goes(x, y, ascending) {
        var i :| 0 <= i < |s| && s[i] == y;
        if i > 0 {
          GoesTrans(x, s[0], s[i], ascending);
        }
      }
      OrderedCons(x, s, ascending);
    } else {
      GoesTotal(x, s[0], ascending);
      InsertOrdered(x, s[1..], ascending);
      forall y | y in Insert(x, s[1..], ascending) ensures Goes(s[0], y, ascending) {
        InsertMembers(x, s[1..], ascending, y);
      }
      OrderedCons(s[0], Insert(x, s[1..], ascending), ascending);
    }
  }

  lemma {:induction false} SortedIsOrdered(s: seq<Op>, ascending: bool)
    ensures Ordered(Sorted(s, ascending), ascending)
  {
    hide Goes, Insert;
    if s != [] {
      SortedIsOrdered(s[1..], ascending);
      InsertOrdered(s[0], Sorted(s[1..], ascending), ascending);
    }
  }

  lemma SortedMembers(s: seq<Op>, ascending: bool, op: Op)
    ensures op in Sorted(s, ascending) <==> op in s
  {
    hide Goes;
    assert op in multiset(Sorted(s, ascending)) <==> op in multiset(s);
  }

  /** No directory is made after something below it was sent. */
  ghost predicate ParentsFirst(s: seq<Op>) {
    forall i, j :: 0 <= i < j < |s| && s[j].Mkdir? ==> !(s[j].path <= s[i].path && s[j].path != s[i].path)
  }

  /** No directory is removed before something below it that is removed as well. */
  ghost predicate ChildrenFirst(s: seq<Op>) {
    forall i, j :: 0 <= i < j < |s| && s[i].Deletes() && s[j].Deletes() ==>
      !(s[i].path <= s[j].path && s[i].path != s[j].path)
  }

  /** Creates ascending and then deletes descending: directories are made before what goes into them, and emptied before
      they are removed. */
  lemma SendOrder(creates: seq<Op>, deletes: seq<Op>)
    requires forall op :: op in creates ==> op.path != [] && !op.Deletes()
    requires forall op :: op in deletes ==> op.path != [] && op.Deletes()
    ensures ParentsFirst(Sorted(creates, true) + Sorted(deletes, false))
    ensures ChildrenFirst(Sorted(creates, true) + Sorted(deletes, false))
  {
    hide Sorted, Less, Joined;
    var s: seq<Op>, t: seq<Op> := Sorted(creates, true), Sorted(deletes, false);
    SortedIsOrdered(creates, true);
    SortedIsOrdered(deletes, false);
    forall i | 0 <= i < |s| ensures s[i] in creates { SortedMembers(creates, true, s[i]); }
    forall i | 0 <= i < |t| ensures t[i] in deletes { SortedMembers(deletes, false, t[i]); }
    forall i, j | 0 <= i < j < |s| && s[j].path <= s[i].path && s[j].path != s[i].path ensures false {
      assert Goes(s[i], s[j], true);
      ParentIsLess(s[j].path, s[i].path);
    }
    forall i, j | 0 <= i < j < |t| && t[i].path <= t[j].path && t[i].path != t[j].path ensures false {
      assert Goes(t[i], t[j], false);
      ParentIsLess(t[i].path, t[j].path);
    }
  }

  /** No two operations are about the same path. */
  predicate Apart(ops: seq<Op>) {
    forall i, j :: 0 <= i < j < |ops| ==> ops[i].path != ops[j].path
  }

  lemma ApartWithout(ops: seq<Op>, k: nat)
    requires Apart(ops) && k < |ops|
    ensures var rest := ops[..k] + ops[k + 1..];
      && Apart(rest) && multiset(ops) == multiset{ops[k]} + multiset(rest)
      && forall op :: op in rest ==> op.path != ops[k].path
  {
    assert ops == ops[..k] + [ops[k]] + ops[k + 1..];
  }

  lemma WithoutFirst(ops: seq<Op>, rest: seq<Op>, order: seq<Op>)
    requires order != [] && multiset(ops) == multiset(order) && multiset(ops) == multiset{order[0]} + multiset(rest)
    ensures multiset(rest) == multiset(order[1..])
  {
    var first, tail := multiset{order[0]}, multiset(order[1..]);
    assert multiset(order) == first + tail by { assert order == [order[0]] + order[1..]; }
    assert multiset(rest) == (first + multiset(rest)) - first == (first + tail) - first == tail;
  }

  lemma SameMember(rest: seq<Op>, order: seq<Op>, j: nat)
    requires multiset(rest) == multiset(order) && j < |order|
    ensures order[j] in rest
  {
    assert order[j] in multiset(order) && order[j] in multiset(rest);
  }

  lemma FoundIn(ops: seq<Op>, order: seq<Op>) returns (k: nat)
    requires order != [] && multiset(ops) == multiset(order)
    ensures k < |ops| && ops[k] == order[0]
  {
    SameMember(ops, order, 0);
    k :| 0 <= k < |ops| && ops[k] == order[0];
  }

  /** Nor when they are put into another order. */
  lemma {:induction false} ApartReordered(ops: seq<Op>, order: seq<Op>)
    requires Apart(ops) && multiset(ops) == multiset(order)
    ensures Apart(order)
  {
    if order != [] {
      var k := FoundIn(ops, order);
      var rest, tail := ops[..k] + ops[k + 1..], order[1..];
      ApartWithout(ops, k);
      WithoutFirst(ops, rest, order);
      ApartReordered(rest, tail);
      forall j | 0 <= j < |tail| ensures tail[j].path != order[0].path {
        SameMember(rest, tail, j);
      }
      ApartFirst(order);
    }
  }

  lemma ApartFirst(order: seq<Op>)
    requires order != [] && Apart(order[1..])
    requires forall j :: 0 <= j < |order| - 1 ==> order[1..][j].path != order[0].path
    ensures Apart(order)
  {
    assert forall j :: 1 <= j < |order| ==> order[j] == order[1..][j - 1];
  }
}

/** What rotation and pruning keep: slot discipline, identities, labels. */
module SnapshotProofs {
  import opened Options
  import opened Snapshots

  lemma HasAt(l: Snaps, i: nat)
    requires i < |l| && Disciplined(l)
    ensures Find(l, l[i].slot) == i && GuidAt(l, l[i].slot) == Some(l[i].guid)
  {
  }

  lemma SameGuids(l: Snaps, r: Snaps)
    requires |l| == |r| && forall i :: 0 <= i < |l| ==> r[i].guid == l[i].guid
    ensures Guids(r) == Guids(l)
  {
    forall x | x in l ensures x.guid in Guids(r) { var i :| 0 <= i < |l| && l[i] == x; assert r[i] in r; }
    forall x | x in r ensures x.guid in Guids(l) { var i :| 0 <= i < |r| && r[i] == x; assert l[i] in l; }
  }

  lemma RelabelDisciplined(l: Snaps, from: Slot, to: Slot)
    requires Disciplined(l) && Has(l, from) && !Has(l, to)
    requires forall i :: 0 <= i < |l| && l[i].slot != from ==>
      if i < Find(l, from) then Rank(l[i].slot) <= Rank(to) else Rank(to) <= Rank(l[i].slot)
    ensures Disciplined(Relabel(l, from, to))
  {
  }

  /** Two disciplined lists with the same snapshots in a slot agree on the slot. */
  lemma SlotAgrees(l: Snaps, r: Snaps, slot: Slot)
    requires Disciplined(l) && Disciplined(r)
    requires forall x: Snap :: x.slot == slot ==> (x in l <==> x in r)
    ensures GuidAt(r, slot) == GuidAt(l, slot)
  {
    if Has(l, slot) {
      var x := l[Find(l, slot)];
      assert x in r;
      var k :| 0 <= k < |r| && r[k] == x;
      HasAt(r, k);
    }
  }

  lemma RelabelMember(l: Snaps, from: Slot, to: Slot, x: Snap)
    requires x.slot != from && x.slot != to
    ensures x in l <==> x in Relabel(l, from, to)
  {
    var r := Relabel(l, from, to);
    if x in l {
      var i :| 0 <= i < |l| && l[i] == x;
      assert r[i] == x;
    }
  }

  lemma RelabelFacts(l: Snaps, from: Slot, to: Slot)
    requires Disciplined(l) && Has(l, from) && !Has(l, to) && from != to
    requires forall i :: 0 <= i < |l| && l[i].slot != from ==>
      if i < Find(l, from) then Rank(l[i].slot) <= Rank(to) else Rank(to) <= Rank(l[i].slot)
    ensures Disciplined(Relabel(l, from, to))
    ensures Guids(Relabel(l, from, to)) == Guids(l)
    ensures GuidAt(Relabel(l, from, to), to) == GuidAt(l, from) && !Has(Relabel(l, from, to), from)
    ensures forall s :: s != from && s != to ==> GuidAt(Relabel(l, from, to), s) == GuidAt(l, s)
  {
    RelabelDisciplined(l, from, to);
    var r, f := Relabel(l, from, to), Find(l, from);
    SameGuids(l, r);
    HasAt(r, f);
    forall s | s != from && s != to
      ensures GuidAt(r, s) == GuidAt(l, s)
    {
      forall x: Snap | x.slot == s ensures x in l <==> x in r { RelabelMember(l, from, to, x); }
      SlotAgrees(l, r, s);
    }
  }

  lemma DestroyAt(l: Snaps, slot: Slot, i: nat)
    requires Disciplined(l) && Has(l, slot) && i < |l|
    ensures |Destroy(l, slot)| == |l| - 1
    ensures i < Find(l, slot) ==> Destroy(l, slot)[i] == l[i]
    ensures i > Find(l, slot) ==> Destroy(l, slot)[i - 1] == l[i]
  {
  }

  lemma DestroyDisciplined(l: Snaps, slot: Slot)
    requires Disciplined(l)
    ensures Disciplined(Destroy(l, slot)) && !Has(Destroy(l, slot), slot)
  {
    var f, r := Find(l, slot), Destroy(l, slot);
    if f >= 0 {
      forall i | 0 <= i < |r| ensures r[i] == l[if i < f then i else i + 1] {}
    }
  }

  lemma SameGuid(l: Snaps, x: Snap, y: Snap)
    requires Disciplined(l) && x in l && y in l && (x.guid == y.guid || x.slot == y.slot)
    ensures x == y
  {
    var i :| 0 <= i < |l| && l[i] == x;
    var j :| 0 <= j < |l| && l[j] == y;
  }

  lemma DestroyMember(l: Snaps, slot: Slot, x: Snap)
    requires Disciplined(l)
    ensures x in Destroy(l, slot) <==> x in l && x.slot != slot
  {
    DestroyDisciplined(l, slot);
    if x in l && x.slot != slot && Has(l, slot) {
      var i :| 0 <= i < |l| && l[i] == x;
      DestroyAt(l, slot, i);
    }
  }

  lemma DestroyOthers(l: Snaps, slot: Slot, other: Slot)
    requires Disciplined(l) && other != slot
    ensures GuidAt(Destroy(l, slot), other) == GuidAt(l, other)
  {
    DestroyDisciplined(l, slot);
    forall x: Snap | x.slot == other ensures x in l <==> x in Destroy(l, slot) { DestroyMember(l, slot, x); }
    SlotAgrees(l, Destroy(l, slot), other);
  }

  lemma DestroyGuids(l: Snaps, slot: Slot)
    requires Disciplined(l)
    ensures Guids(Destroy(l, slot)) == Guids(l) - (if Has(l, slot) then {l[Find(l, slot)].guid} else {})
  {
    var r := Destroy(l, slot);
    forall x ensures x in r <==> x in l && x.slot != slot { DestroyMember(l, slot, x); }
    if Has(l, slot) {
      var gone := l[Find(l, slot)];
      assert gone in l;
      hide *;
      forall x | x in l && x.slot == slot ensures x == gone { SameGuid(l, x, gone); }
      forall x | x in l && x.guid == gone.guid ensures x == gone { SameGuid(l, x, gone); }
      GuidsWithout(l, r, gone);
    }
  }

  lemma GuidsWithout(l: Snaps, r: Snaps, gone: Snap)
    requires gone in l
    requires forall x :: x in r <==> x in l && x != gone
    requires forall x :: x in l && x.guid == gone.guid ==> x == gone
    ensures Guids(r) == Guids(l) - {gone.guid}
  {
  }

  lemma DestroyFacts(l: Snaps, slot: Slot)
    requires Disciplined(l)
    ensures Disciplined(Destroy(l, slot)) && !Has(Destroy(l, slot), slot)
    ensures !Has(l, slot) ==> Destroy(l, slot) == l
    ensures Guids(Destroy(l, slot)) <= Guids(l)
    ensures forall s :: s != slot ==> GuidAt(Destroy(l, slot), s) == GuidAt(l, s)
    ensures Guids(Destroy(l, slot)) == Guids(l) - (if Has(l, slot) then {l[Find(l, slot)].guid} else {})
  {
    DestroyDisciplined(l, slot);
    DestroyGuids(l, slot);
    forall s | s != slot ensures GuidAt(Destroy(l, slot), s) == GuidAt(l, s) { DestroyOthers(l, slot, s); }
  }

  lemma MarkFacts(l: Snaps, slot: Slot)
    requires Disciplined(l)
    ensures Disciplined(Mark(l, slot)) && Guids(Mark(l, slot)) == Guids(l)
    ensures forall s :: GuidAt(Mark(l, slot), s) == GuidAt(l, s)
  {
    var r := Mark(l, slot);
    SameGuids(l, r);
    forall s ensures GuidAt(r, s) == GuidAt(l, s) { SameSlots(l, r, s); }
  }

  lemma {:induction false} SameSlots(l: Snaps, r: Snaps, slot: Slot)
    requires |l| == |r| && forall i :: 0 <= i < |l| ==> r[i].slot == l[i].slot && r[i].guid == l[i].guid
    ensures GuidAt(r, slot) == GuidAt(l, slot)
  {
    if l != [] && l[0].slot != slot { SameSlots(l[1..], r[1..], slot); }
  }

  lemma GuidAtMember(l: Snaps, slot: Slot)
    requires Has(l, slot)
    ensures GuidAt(l, slot).Some? && GuidAt(l, slot).value in Guids(l)
  {
    assert l[Find(l, slot)] in l;
  }

  lemma WhereMember(l: Snaps, g: Guid)
    requires Where(l, g) >= 0
    ensures g in Guids(l)
  {
    assert l[Where(l, g)] in l;
  }

  lemma WhereMembers(l: Snaps)
    ensures forall g :: Where(l, g) >= 0 ==> g in Guids(l)
  {
    forall g | Where(l, g) >= 0 ensures g in Guids(l) { WhereMember(l, g); }
  }

  // ---- the stages of a rotation

  /** Eviction frees n1 and loses at most the snapshot that was there. */
  lemma EvictFacts(l: Snaps, keep: bool, cal: Calendar)
    requires Disciplined(l)
    ensures var r := Evict(l, keep, cal);
      && Disciplined(r) && !Has(r, N1)
      && GuidAt(r, N0) == GuidAt(l, N0) && GuidAt(r, New) == GuidAt(l, New)
      && Guids(r) <= Guids(l)
      && (forall x :: x in l && x.guid !in Guids(r) ==> x.slot == N1)
  {
    if Has(l, N1) {
      match EvictTarget(l, keep, cal, l[Find(l, N1)])
      case Some(k) => RelabelFacts(l, N1, k);
      case None =>
        DestroyFacts(l, N1);
        forall x | x in l && x.slot != N1 ensures x in Destroy(l, N1) { DestroyMember(l, N1, x); }
    }
  }

  lemma ShiftFacts(l: Snaps)
    requires Disciplined(l) && !Has(l, N1)
    ensures Disciplined(ShiftN0(l)) && !Has(ShiftN0(l), N0)
    ensures GuidAt(ShiftN0(l), N1) == GuidAt(l, N0) && GuidAt(ShiftN0(l), New) == GuidAt(l, New)
    ensures Guids(ShiftN0(l)) == Guids(l)
  {
    if Has(l, N0) { RelabelFacts(l, N0, N1); }
  }

  lemma PromoteFacts(l: Snaps)
    requires Disciplined(l) && Has(l, New) && !Has(l, N0)
    ensures Disciplined(Promote(l)) && !Has(Promote(l), New)
    ensures GuidAt(Promote(l), N0) == GuidAt(l, New) && GuidAt(Promote(l), N1) == GuidAt(l, N1)
    ensures Guids(Promote(l)) == Guids(l)
  {
    RelabelFacts(l, New, N0);
  }

  lemma RotatedFacts(l: Snaps, keep: bool, cal: Calendar)
    requires Disciplined(l) && Has(l, New)
    ensures var r := Rotated(l, keep, cal);
      && Disciplined(r) && !Has(r, New)
      && GuidAt(r, N0) == GuidAt(l, New) && GuidAt(r, N1) == GuidAt(l, N0)
      && Guids(r) <= Guids(l)
      && (forall x :: x in l && x.guid !in Guids(r) ==> x.slot == N1)
  {
    EvictFacts(l, keep, cal);
    ShiftFacts(Evict(l, keep, cal));
    PromoteFacts(ShiftN0(Evict(l, keep, cal)));
  }

  // ---- pruning

  lemma {:induction false} PrunedMember(l: Snaps, ret: Retention, now: int, stuck: set<Slot>, x: Snap)
    ensures x in Pruned(l, ret, now, stuck) <==> x in l && !(Expired(x, ret, now) && x.slot !in stuck)
  {
    if l != [] { PrunedMember(l[1..], ret, now, stuck, x); }
  }

  lemma {:induction false} PrunedDisciplined(l: Snaps, ret: Retention, now: int, stuck: set<Slot>)
    requires Disciplined(l)
    ensures Disciplined(Pruned(l, ret, now, stuck))
  {
    if l != [] {
      var r := Pruned(l[1..], ret, now, stuck);
      PrunedDisciplined(l[1..], ret, now, stuck);
      forall j | 0 <= j < |r|
        ensures Rank(l[0].slot) <= Rank(r[j].slot) && l[0].slot != r[j].slot && l[0].guid != r[j].guid
      {
        PrunedMember(l[1..], ret, now, stuck, r[j]);
      }
    }
  }

  /** Pruning takes kept slots only: n1, n0 and new stay what they were. */
  lemma PrunedFacts(l: Snaps, ret: Retention, now: int, stuck: set<Slot>, slot: Slot)
    requires Disciplined(l) && !slot.Kept()
    ensures Disciplined(Pruned(l, ret, now, stuck))
    ensures GuidAt(Pruned(l, ret, now, stuck), slot) == GuidAt(l, slot)
    ensures Guids(Pruned(l, ret, now, stuck)) <= Guids(l)
  {
    var r := Pruned(l, ret, now, stuck);
    PrunedDisciplined(l, ret, now, stuck);
    forall x ensures x in r <==> x in l && !(Expired(x, ret, now) && x.slot !in stuck) {
      PrunedMember(l, ret, now, stuck, x);
    }
    SlotAgrees(l, r, slot);
  }

  lemma {:induction false} PrunedAppend(a: Snaps, b: Snaps, ret: Retention, now: int, stuck: set<Slot>)
    ensures Pruned(a + b, ret, now, stuck) == Pruned(a, ret, now, stuck) + Pruned(b, ret, now, stuck)
  {
    if a == [] {
      assert a + b == b;
    } else {
      assert (a + b)[1..] == a[1..] + b;
      PrunedAppend(a[1..], b, ret, now, stuck);
    }
  }

  lemma {:induction false} PrunedStuck(l: Snaps, ret: Retention, now: int, stuck: set<Slot>, slot: Slot)
    requires forall i :: 0 <= i < |l| ==> l[i].slot != slot
    ensures Pruned(l, ret, now, stuck + {slot}) == Pruned(l, ret, now, stuck)
  {
    if l != [] { PrunedStuck(l[1..], ret, now, stuck, slot); }
  }

  lemma DestroyMiddle(a: Snaps, x: Snap, b: Snaps)
    requires forall i :: 0 <= i < |a| ==> a[i].slot != x.slot
    ensures Destroy(a + [x] + b, x.slot) == a + b
    ensures Has(a + [x] + b, x.slot) && (a + [x] + b)[Find(a + [x] + b, x.slot)] == x
  {
    var l := a + [x] + b;
    assert l[|a|] == x;
    assert forall i :: 0 <= i < |a| ==> l[i] == a[i];
    assert Find(l, x.slot) == |a|;
  }

  /** One turn of the prune loop: l is split into what was looked at, the snapshot at hand, and the rest. */
  lemma PruneTurn(a: Snaps, x: Snap, ret: Retention, now: int, stuck: set<Slot>)
    requires forall i :: 0 <= i < |a| ==> a[i].slot != x.slot
    requires x.slot !in stuck
    ensures Pruned(a + [x], ret, now, stuck) == Pruned(a, ret, now, stuck) + if Expired(x, ret, now) then [] else [x]
    ensures Pruned(a + [x], ret, now, stuck + {x.slot}) == Pruned(a, ret, now, stuck) + [x]
    ensures forall i :: 0 <= i < |Pruned(a, ret, now, stuck)| ==> Pruned(a, ret, now, stuck)[i].slot != x.slot
  {
    PrunedAppend(a, [x], ret, now, stuck);
    PrunedAppend(a, [x], ret, now, stuck + {x.slot});
    PrunedStuck(a, ret, now, stuck, x.slot);
    assert Pruned([x], ret, now, stuck + {x.slot}) == [x] + Pruned([], ret, now, stuck + {x.slot});
    var r := Pruned(a, ret, now, stuck);
    forall i | 0 <= i < |r| ensures r[i].slot != x.slot { PrunedMember(a, ret, now, stuck, r[i]); }
  }

  lemma Distinct(l: Snaps, i: nat)
    requires Disciplined(l) && i < |l|
    ensures forall j :: 0 <= j < |l| && j != i ==> l[j].slot != l[i].slot
  {
  }

  lemma AppendAssoc(a: Snaps, b: Snaps, c: Snaps)
    ensures a + (b + c) == a + b + c
  {
  }

  lemma PruneParts(a: Snaps, s: Snap, b: Snaps, ret: Retention, now: int, stuck: set<Slot>)
    requires forall j :: 0 <= j < |a| ==> a[j].slot != s.slot
    requires s.slot !in stuck
    ensures var before := Pruned(a, ret, now, stuck) + ([s] + b);
      && before == Pruned(a + [s], ret, now, stuck + {s.slot}) + b
      && Pruned(a + [s], ret, now, stuck) + b == (if Expired(s, ret, now) then Destroy(before, s.slot) else before)
      && Has(before, s.slot) && before[Find(before, s.slot)] == s
  {
    hide *;
    var done := Pruned(a, ret, now, stuck);
    PruneTurn(a, s, ret, now, stuck);
    AppendAssoc(done, [s], b);
    DestroyMiddle(done, s, b);
    if Expired(s, ret, now) {
      assert done + [] == done;
    }
  }

  lemma PruneStep(l: Snaps, i: nat, ret: Retention, now: int, stuck: set<Slot>)
    requires Disciplined(l) && i < |l| && l[i].slot !in stuck
    ensures forall j :: i < j < |l| ==> l[j].slot != l[i].slot
    ensures var before := Pruned(l[..i], ret, now, stuck) + l[i..];
      && before == Pruned(l[..i + 1], ret, now, stuck + {l[i].slot}) + l[i + 1..]
      && Pruned(l[..i + 1], ret, now, stuck) + l[i + 1..]
         == (if Expired(l[i], ret, now) then Destroy(before, l[i].slot) else before)
      && Has(before, l[i].slot) && before[Find(before, l[i].slot)] == l[i]
  {
    Distinct(l, i);
    hide *;
    assert l[..i + 1] == l[..i] + [l[i]];
    assert l[i..] == [l[i]] + l[i + 1..];
    PruneParts(l[..i], l[i], l[i + 1..], ret, now, stuck);
  }

  lemma PrunedNothing(l: Snaps, ret: Retention, now: int)
    ensures l == Pruned(l[..0], ret, now, {}) + l[0..]
  {
  }

  // ---- taking and receiving

  lemma NotThere(l: Snaps, slot: Slot)
    ensures !Has(l, slot) <==> forall x :: x in l ==> x.slot != slot
  {
    if Has(l, slot) { assert l[Find(l, slot)] in l; }
  }

  lemma AppendedDisciplined(l: Snaps, x: Snap)
    requires Disciplined(l) && x.slot == New && x.guid !in Guids(l) && forall y :: y in l ==> y.slot != New
    ensures Disciplined(l + [x])
  {
    hide Find;
    var r := l + [x];
    forall i, j | 0 <= i < j < |r|
      ensures Rank(r[i].slot) <= Rank(r[j].slot) && r[i].slot != r[j].slot && r[i].guid != r[j].guid
    {
      assert r[i] == l[i] && l[i] in l;
    }
  }

  lemma DestroyLast(l: Snaps, x: Snap)
    requires Find(l + [x], x.slot) == |l|
    ensures Destroy(l + [x], x.slot) == l
  {
    hide Find;
    assert (l + [x])[..|l|] == l && (l + [x])[|l| + 1..] == [];
  }

  lemma AppendedSlot(l: Snaps, x: Snap, slot: Slot)
    requires Disciplined(l) && Disciplined(l + [x]) && slot != x.slot
    ensures GuidAt(l + [x], slot) == GuidAt(l, slot)
  {
    hide *;
    assert forall y :: y in l + [x] <==> y in l || y == x;
    SlotAgrees(l, l + [x], slot);
  }

  lemma AppendedGuids(l: Snaps, x: Snap)
    ensures Guids(l + [x]) == Guids(l) + {x.guid}
  {
    assert forall y :: y in l + [x] <==> y in l || y == x;
  }

  /** A new snapshot at the end of the list. */
  lemma Appended(l: Snaps, x: Snap)
    requires Disciplined(l) && !Has(l, New) && x.slot == New && x.guid !in Guids(l)
    ensures Disciplined(l + [x]) && Has(l + [x], New) && GuidAt(l + [x], New) == Some(x.guid)
    ensures Guids(l + [x]) == Guids(l) + {x.guid}
    ensures forall s :: s != New ==> GuidAt(l + [x], s) == GuidAt(l, s)
    ensures Destroy(l + [x], New) == l
  {
    NotThere(l, New);
    AppendedDisciplined(l, x);
    AppendedGuids(l, x);
    HasAt(l + [x], |l|);
    hide Find, Disciplined, Guids, Destroy, GuidAt;
    DestroyLast(l, x);
    forall s | s != New ensures GuidAt(l + [x], s) == GuidAt(l, s) { AppendedSlot(l, x, s); }
  }

  // ---- the consistency mark

  /** The snapshot in the slot carries the mark that makes rotation keep it as a frozen one. */
  ghost predicate FrozenAs(l: Snaps, slot: Slot) {
    exists x :: x in l && x.slot == slot && x.frozen
  }

  lemma MarkFreezes(l: Snaps, slot: Slot)
    requires Has(l, slot)
    ensures FrozenAs(Mark(l, slot), slot)
  {
    var i := Find(l, slot);
    assert Mark(l, slot)[i].frozen && Mark(l, slot)[i] in Mark(l, slot);
  }

  lemma EvictKeepsNew(l: Snaps, keep: bool, cal: Calendar, x: Snap)
    requires Disciplined(l) && x in l && x.slot == New
    ensures x in Evict(l, keep, cal)
  {
    if Has(l, N1) {
      match EvictTarget(l, keep, cal, l[Find(l, N1)])
      case Some(k) => RelabelMember(l, N1, k, x);
      case None => DestroyMember(l, N1, x);
    }
  }

  /** A rotation passes the mark on to n0. */
  lemma RotationKeepsMark(l: Snaps, keep: bool, cal: Calendar, ret: Retention, now: int, stuck: set<Slot>)
    requires Disciplined(l) && FrozenAs(l, New)
    ensures FrozenAs(Pruned(Rotated(l, keep, cal), ret, now, stuck), N0)
  {
    var x :| x in l && x.slot == New && x.frozen;
    var m := ShiftN0(Evict(l, keep, cal));
    EvictKeepsNew(l, keep, cal, x);
    if Has(Evict(l, keep, cal), N0) {
      RelabelMember(Evict(l, keep, cal), N0, N1, x);
    }
    var i :| 0 <= i < |m| && m[i] == x;
    assert Promote(m)[i] == x.(slot := N0) && Promote(m)[i] in Promote(m);
    PrunedMember(Promote(m), ret, now, stuck, x.(slot := N0));
  }
}

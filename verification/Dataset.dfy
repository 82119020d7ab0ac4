/** One dataset on a host, changed by one zfs command at a time (zfs.go).

    Every command may fail and then leaves the dataset as it was.  A process that dies between two
    commands leaves the dataset exactly as one whose next command fails, so what a method promises
    about a failed run it promises about a crash at any point. */
module ZfsDataset {
  import opened Snapshots
  import opened SnapshotProofs

  class Dataset {
    var snaps: Snaps
    /** Which zfs commands on this dataset work, by their number, and how many have been issued. */
    const works: nat -> bool
    var issued: nat
    /** Every snapshot ever destroyed here, as it was when it was destroyed. */
    ghost var lost: set<Snap>

    constructor (l: Snaps, works: nat -> bool)
      ensures snaps == l && this.works == works && issued == 0 && lost == {}
    {
      snaps, this.works, issued := l, works, 0;
      lost := {};
    }

    /** No command has failed from that number on. */
    ghost predicate Worked(from: nat)
      reads this
    {
      forall n :: from <= n < issued ==> works(n)
    }

    /** zfs rename refuses a target that exists, so the callers below must show that theirs is free. */
    method Rename(from: Slot, to: Slot) returns (ok: bool)
      requires Has(snaps, from) && !Has(snaps, to)
      modifies this`snaps, this`issued
      ensures ok == works(old(issued)) && issued == old(issued) + 1
      ensures snaps == if ok then Relabel(old(snaps), from, to) else old(snaps)
    {
      ok := works(issued);
      issued := issued + 1;
      if ok { snaps := Relabel(snaps, from, to); }
    }

    method DestroySnap(slot: Slot) returns (ok: bool)
      modifies this
      ensures ok == (works(old(issued)) && Has(old(snaps), slot)) && issued == old(issued) + 1
      ensures snaps == if ok then Destroy(old(snaps), slot) else old(snaps)
      ensures lost == old(lost) + if ok then {old(snaps)[Find(old(snaps), slot)]} else {}
    {
      ok := works(issued) && Has(snaps, slot);
      issued := issued + 1;
      if ok {
        lost := lost + {snaps[Find(snaps, slot)]};
        snaps := Destroy(snaps, slot);
      }
    }

    /** zfs recv -s -F of an increment on the snapshot at `base`: rolls back to the base, adds the new snapshot. */
    method ReceiveForced(base: nat, x: Snap) returns (ok: bool)
      requires base < |snaps|
      modifies this
      ensures ok == works(old(issued)) && issued == old(issued) + 1
      ensures snaps == if ok then ReceiveOnto(old(snaps), base, x) else old(snaps)
      ensures lost == old(lost) + if ok then Members(old(snaps)[base + 1..]) else {}
    {
      ok := works(issued);
      issued := issued + 1;
      if ok {
        lost := lost + Members(snaps[base + 1..]);
        snaps := ReceiveOnto(snaps, base, x);
      }
    }

    /** zfs snapshot: refused while a snapshot of that name exists. */
    method TakeNew(guid: Guid, created: int) returns (ok: bool)
      modifies this`snaps, this`issued
      ensures ok == (works(old(issued)) && !Has(old(snaps), New)) && issued == old(issued) + 1
      ensures snaps == if ok then old(snaps) + [Snap(New, guid, created, false)] else old(snaps)
    {
      ok := works(issued) && !Has(snaps, New);
      issued := issued + 1;
      if ok { snaps := snaps + [Snap(New, guid, created, false)]; }
    }

    method SetConsistent(slot: Slot) returns (ok: bool)
      modifies this`snaps, this`issued
      ensures ok == works(old(issued)) && issued == old(issued) + 1
      ensures snaps == if ok then Mark(old(snaps), slot) else old(snaps)
    {
      ok := works(issued);
      issued := issued + 1;
      if ok { snaps := Mark(snaps, slot); }
    }

    /** new -> n0, n0 -> n1, the old n1 is kept under its day or hour or destroyed; then prune.
        A failed run stops at one of the three places between the commands. */
    method Rotate(keep: bool, cal: Calendar, ret: Retention, now: int) returns (ok: bool, ghost stuck: set<Slot>)
      requires Disciplined(snaps)
      modifies this
      ensures Disciplined(snaps)
      ensures old(issued) <= issued && (ok ==> Has(old(snaps), New))
      ensures Has(old(snaps), New) && Worked(old(issued)) ==> ok && stuck == {}
      ensures ok ==> snaps == Pruned(Rotated(old(snaps), keep, cal), ret, now, stuck)
      ensures !ok ==>
                || snaps == old(snaps)
                || (Has(old(snaps), New) && snaps == Evict(old(snaps), keep, cal))
                || (Has(old(snaps), New) && snaps == ShiftN0(Evict(old(snaps), keep, cal)))
      ensures ok ==> !Has(snaps, New) && GuidAt(snaps, N0) == GuidAt(old(snaps), New)
      ensures !ok ==> GuidAt(snaps, New) == GuidAt(old(snaps), New) && (snaps == old(snaps) || Has(old(snaps), New))
      ensures Guids(snaps) <= Guids(old(snaps))
      ensures old(lost) <= lost && forall x :: x in lost - old(lost) ==> x.slot == N1 || Expired(x, ret, now)
    {
      hide Find, Pruned, Disciplined, Guids, Evict, ShiftN0, Promote;
      var l := snaps;
      stuck := {};
      if !Has(l, New) { return false, {}; }
      ok := EvictN1(l, keep, cal);
      if !ok { return; }
      EvictFacts(l, keep, cal);
      ok := MoveUp();
      if !ok { return; }
      stuck := Prune(ret, now);
      PrunedFacts(Rotated(l, keep, cal), ret, now, stuck, New);
      PrunedFacts(Rotated(l, keep, cal), ret, now, stuck, N0);
    }

    /** The two renames of a rotation. */
    method MoveUp() returns (ok: bool)
      requires Disciplined(snaps) && Has(snaps, New) && !Has(snaps, N1)
      modifies this`snaps, this`issued
      ensures old(issued) <= issued && (Worked(old(issued)) ==> ok)
      ensures if ok then snaps == Promote(ShiftN0(old(snaps))) else snaps == old(snaps) || snaps == ShiftN0(old(snaps))
      ensures Disciplined(snaps) && Guids(snaps) == Guids(old(snaps))
      ensures GuidAt(snaps, if ok then N0 else New) == GuidAt(old(snaps), New) && (ok ==> !Has(snaps, New))
    {
      hide Find, Disciplined, Guids, Promote, Relabel;
      ok := true;
      ShiftFacts(snaps);
      if Has(snaps, N0) {
        ok := Rename(N0, N1);
        if !ok { return; }
      }
      PromoteFacts(snaps);
      PromoteIs(snaps);
      ok := Rename(New, N0);
    }

    /** The first command of a rotation: the old n1 makes room. */
    method EvictN1(l: Snaps, keep: bool, cal: Calendar) returns (ok: bool)
      requires Disciplined(l) && snaps == l
      modifies this
      ensures snaps == (if ok then Evict(l, keep, cal) else l)
      ensures old(issued) <= issued && (Worked(old(issued)) ==> ok)
      ensures old(lost) <= lost && forall x :: x in lost - old(lost) ==> x.slot == N1
    {
      ok := true;
      if Has(l, N1) {
        match EvictTarget(l, keep, cal, l[Find(l, N1)]) {
          case Some(k) => ok := Rename(N1, k);
          case None => ok := DestroySnap(N1);
        }
      }
    }

    /** Destroys what is out of retention; a destroy that fails is only logged. */
    method Prune(ret: Retention, now: int) returns (stuck: set<Slot>)
      requires Disciplined(snaps)
      modifies this
      ensures Disciplined(snaps)
      ensures snaps == Pruned(old(snaps), ret, now, stuck)
      ensures old(issued) <= issued && (Worked(old(issued)) ==> stuck == {})
      ensures old(lost) <= lost && forall x :: x in lost - old(lost) ==> Expired(x, ret, now)
    {
      var l := snaps;
      stuck := {};
      PrunedNothing(l, ret, now);
      hide Find, Has, Pruned, Disciplined, Destroy, Expired, Members, Guids, GuidAt, Rank;
      for i := 0 to |l|
        invariant snaps == Pruned(l[..i], ret, now, stuck) + l[i..]
        invariant forall j :: i <= j < |l| ==> l[j].slot !in stuck
        invariant old(issued) <= issued && (Worked(old(issued)) ==> stuck == {})
        invariant old(lost) <= lost && forall x :: x in lost - old(lost) ==> Expired(x, ret, now)
      {
        var s := l[i];
        PruneStep(l, i, ret, now, stuck);
        if Expired(s, ret, now) {
          StillThere(Pruned(l[..i], ret, now, stuck), l[i..]);
          var ok := DestroySnap(s.slot);
          if !ok { stuck := stuck + {s.slot}; }
        }
      }
      assert l[..|l|] == l && l[|l|..] == [];
      assert snaps == Pruned(l, ret, now, stuck);
      PrunedDisciplined(l, ret, now, stuck);
    }
  }

  lemma PromoteIs(l: Snaps)
    ensures Promote(l) == Relabel(l, New, N0)
  {
  }

  lemma StillThere(x: Snaps, y: Snaps)
    requires y != []
    ensures Has(x + y, y[0].slot)
  {
    assert (x + y)[|x|] == y[0];
  }
}

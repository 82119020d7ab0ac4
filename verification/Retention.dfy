/** What retention guarantees: bounded storage, and no hour or day of its window that lost a snapshot is left without
    one. */
module RetentionProofs {
  import opened Options
  import opened Snapshots
  import opened SnapshotProofs

  // ---- labels

  /** What eviction does to each snapshot: all but n1 stay, n1 is kept under its own label or destroyed. */
  lemma EvictMember(l: Snaps, keep: bool, cal: Calendar, x: Snap)
    requires Disciplined(l) && x in Evict(l, keep, cal)
    ensures || (x in l && x.slot != N1)
            || (exists y ::
                  y in l && y.slot == N1 && EvictTarget(l, keep, cal, y) == Some(x.slot) && x == y.(slot := x.slot))
  {
    if Has(l, N1) {
      var y := l[Find(l, N1)];
      assert y in l;
      match EvictTarget(l, keep, cal, y)
      case Some(k) =>
        var r := Relabel(l, N1, k);
        var i :| 0 <= i < |r| && r[i] == x;
        assert l[i] in l;
        if l[i].slot == N1 { SameGuid(l, l[i], y); }
      case None => DestroyMember(l, N1, x);
    }
  }

  lemma RelabelLabelled(l: Snaps, from: Slot, to: Slot, cal: Calendar)
    requires Labelled(l, cal) && !to.Kept()
    ensures Labelled(Relabel(l, from, to), cal)
  {
    var r := Relabel(l, from, to);
    forall x | x in r ensures LabelOk(x, cal) {
      var i :| 0 <= i < |r| && r[i] == x;
      assert l[i] in l;
    }
  }

  lemma EvictLabelled(l: Snaps, keep: bool, cal: Calendar)
    requires Disciplined(l) && Labelled(l, cal)
    ensures Labelled(Evict(l, keep, cal), cal)
  {
    forall x | x in Evict(l, keep, cal) ensures LabelOk(x, cal) {
      EvictMember(l, keep, cal, x);
    }
  }

  lemma RotatedLabelled(l: Snaps, keep: bool, cal: Calendar)
    requires Disciplined(l) && Labelled(l, cal)
    ensures Labelled(Rotated(l, keep, cal), cal)
  {
    EvictLabelled(l, keep, cal);
    var e := Evict(l, keep, cal);
    if Has(e, N0) { RelabelLabelled(e, N0, N1, cal); }
    RelabelLabelled(ShiftN0(e), New, N0, cal);
  }

  lemma PrunedMembers(l: Snaps, ret: Retention, now: int, stuck: set<Slot>)
    ensures forall x :: x in Pruned(l, ret, now, stuck) <==> x in l && !(Expired(x, ret, now) && x.slot !in stuck)
  {
    forall x ensures x in Pruned(l, ret, now, stuck) <==> x in l && !(Expired(x, ret, now) && x.slot !in stuck) {
      PrunedMember(l, ret, now, stuck, x);
    }
  }

  // ---- bounded storage

  lemma {:induction false} InjectionBound(xs: set<Snap>, f: Snap -> int, lo: int, hi: int)
    requires lo <= hi + 1
    requires forall x :: x in xs ==> lo <= f(x) <= hi
    requires forall x, y :: x in xs && y in xs && f(x) == f(y) ==> x == y
    ensures |xs| <= hi - lo + 1
    decreases hi - lo
  {
    if xs != {} {
      if top :| top in xs && f(top) == hi {
        assert |xs| == |xs - {top}| + 1;
        InjectionBound(xs - {top}, f, lo, hi - 1);
      } else {
        InjectionBound(xs, f, lo, hi - 1);
      }
    }
  }

  ghost function KeptHours(l: Snaps): set<Snap> { set x | x in l && x.slot.KeptHour? }
  ghost function KeptDays(l: Snaps): set<Snap> { set x | x in l && x.slot.KeptDay? }
  ghost function KeptFrozens(l: Snaps): set<Snap> { set x | x in l && x.slot.KeptFrozen? }

  /** After a rotation and a prune whose destroys all went through, a dataset holds n0, n1 and at most
      keepHours + 1 hourly, keepDays + 1 daily and keepDays + 1 frozen snapshots, however many cycles it has seen. */
  lemma BoundedStorage(l: Snaps, keep: bool, cal: Calendar, ret: Retention, now: int)
    requires Disciplined(l) && Labelled(l, cal) && Has(l, New)
    requires ret.keepHours >= 0 && ret.keepDays >= 0
    requires forall x :: x in l ==> x.created <= now
    ensures var r := Pruned(Rotated(l, keep, cal), ret, now, {});
      && |KeptHours(r)| <= ret.keepHours + 1
      && |KeptDays(r)| <= ret.keepDays + 1
      && |KeptFrozens(r)| <= ret.keepDays + 1
      && (forall x :: x in r && !x.slot.Kept() ==> x.slot == N0 || x.slot == N1)
  {
    var m := Rotated(l, keep, cal);
    var r := Pruned(m, ret, now, {});
    RotatedFacts(l, keep, cal);
    NotThere(m, New);
    RotatedLabelled(l, keep, cal);
    hide Find, Rotated, Pruned, Disciplined, Guids, Rank;
    RotatedTimes(l, keep, cal, now);
    PrunedDisciplined(m, ret, now, {});
    PrunedMembers(m, ret, now, {});
    KeptBounds(r, cal, ret, now);
    forall x | x in r && !x.slot.Kept() ensures x.slot != New { assert x in m; }
  }

  lemma RotatedTimes(l: Snaps, keep: bool, cal: Calendar, now: int)
    requires Disciplined(l) && forall x :: x in l ==> x.created <= now
    ensures forall x :: x in Rotated(l, keep, cal) ==> x.created <= now
  {
    var e := Evict(l, keep, cal);
    forall x | x in e ensures x.created <= now { EvictMember(l, keep, cal, x); }
    var m := ShiftN0(e);
    forall i | 0 <= i < |m| ensures m[i].created <= now { assert e[i] in e; }
    var r := Promote(m);
    forall i | 0 <= i < |r| ensures r[i].created <= now { assert m[i] in m; }
  }

  lemma KeptBounds(r: Snaps, cal: Calendar, ret: Retention, now: int)
    requires Disciplined(r) && Labelled(r, cal)
    requires ret.keepHours >= 0 && ret.keepDays >= 0
    requires forall x :: x in r ==> x.created <= now && !Expired(x, ret, now)
    ensures |KeptHours(r)| <= ret.keepHours + 1
    ensures |KeptDays(r)| <= ret.keepDays + 1
    ensures |KeptFrozens(r)| <= ret.keepDays + 1
  {
    forall x, y | x in r && y in r && x.slot == y.slot ensures x == y { SameGuid(r, x, y); }
    InjectionBound(KeptHours(r), (x: Snap) => cal.Hour(x.created), cal.Hour(now) - ret.keepHours, cal.Hour(now));
    InjectionBound(KeptDays(r), (x: Snap) => cal.Day(x.created), cal.Day(now) - ret.keepDays, cal.Day(now));
    InjectionBound(KeptFrozens(r), (x: Snap) => cal.Day(x.created), cal.Day(now) - ret.keepDays, cal.Day(now));
  }

  // ---- what becomes of the n1 that makes room

  /** The evicted n1 is kept as the frozen one of its day if it is frozen and there is none; otherwise, if versions are
      kept, as the one of its day, or else of its hour, where there is none; otherwise it is destroyed. */
  lemma EvictedExactly(l: Snaps, keep: bool, cal: Calendar, y: Snap)
    requires Disciplined(l) && y in l && y.slot == N1
    ensures var r := Evict(l, keep, cal);
      var kf, kd := KeptFrozen(cal.DayLabel(y.created)), KeptDay(cal.DayLabel(y.created));
      var kh := KeptHour(cal.HourLabel(y.created));
      && (y.frozen && !Has(l, kf) ==> y.(slot := kf) in r)
      && (keep && !(y.frozen && !Has(l, kf)) && !Has(l, kd) ==> y.(slot := kd) in r)
      && (keep && !(y.frozen && !Has(l, kf)) && Has(l, kd) && !Has(l, kh) ==> y.(slot := kh) in r)
      && (y.guid in Guids(r) <==> (y.frozen && !Has(l, kf)) || (keep && !(Has(l, kd) && Has(l, kh))))
  {
    var i := IndexOfN1(l, y);
    var r := Evict(l, keep, cal);
    match EvictTarget(l, keep, cal, y)
    case Some(k) =>
      assert r[i] == y.(slot := k);
      assert r[i] in r;
    case None =>
      DestroyFacts(l, N1);
  }

  lemma IndexOfN1(l: Snaps, y: Snap) returns (i: nat)
    requires Disciplined(l) && y in l && y.slot == N1
    ensures i < |l| && l[i] == y && Find(l, N1) == i
  {
    i :| 0 <= i < |l| && l[i] == y;
    HasAt(l, i);
  }

  /** y is the n1, young enough, and nothing is kept yet for its day or nothing for its hour. */
  ghost predicate Roomy(l: Snaps, y: Snap, cal: Calendar, ret: Retention, now: int) {
    && y in l && y.slot == N1
    && now - y.created <= ret.keepHours * 3600 && now - y.created <= ret.keepDays * 86400
    && (GuidAt(l, KeptDay(cal.DayLabel(y.created))) == None || GuidAt(l, KeptHour(cal.HourLabel(y.created))) == None)
  }

  ghost predicate KeptAs(r: Snaps, y: Snap) {
    exists k :: k in r && k.slot.Kept() && k == y.(slot := k.slot)
  }

  /** Such an n1 is kept in its turn. */
  ghost predicate N1Stays(l: Snaps, r: Snaps, cal: Calendar, ret: Retention, now: int) {
    forall y :: Roomy(l, y, cal, ret, now) ==> KeptAs(r, y)
  }

  lemma RelabelKeepsAs(l: Snaps, from: Slot, to: Slot, y: Snap)
    requires KeptAs(l, y) && !from.Kept()
    ensures KeptAs(Relabel(l, from, to), y)
  {
    var k :| k in l && k.slot.Kept() && k == y.(slot := k.slot);
    var i :| 0 <= i < |l| && l[i] == k;
    assert Relabel(l, from, to)[i] == k;
  }

  lemma EvictKeepsRoomy(l: Snaps, y: Snap, cal: Calendar, ret: Retention, now: int)
    requires Disciplined(l) && Roomy(l, y, cal, ret, now)
    ensures KeptAs(Evict(l, true, cal), y)
  {
    EvictedExactly(l, true, cal, y);
    hide Evict, Find, Disciplined, Guids;
  }

  /** With versions kept, a rotation that ran through keeps it. */
  lemma RotationKeepsN1(l: Snaps, cal: Calendar, ret: Retention, now: int, stuck: set<Slot>)
    requires Disciplined(l)
    ensures N1Stays(l, Pruned(Rotated(l, true, cal), ret, now, stuck), cal, ret, now)
  {
    hide Evict, Find, Disciplined, GuidAt;
    var e := Evict(l, true, cal);
    var m := ShiftN0(e);
    forall y | Roomy(l, y, cal, ret, now) ensures KeptAs(Pruned(Promote(m), ret, now, stuck), y) {
      EvictKeepsRoomy(l, y, cal, ret, now);
      if Has(e, N0) { RelabelKeepsAs(e, N0, N1, y); }
      RelabelKeepsAs(m, New, N0, y);
      var k :| k in Promote(m) && k.slot.Kept() && k == y.(slot := k.slot);
      PrunedMember(Promote(m), ret, now, stuck, k);
    }
  }

  /** A snapshot more at the end, or a mark on the new, makes no difference to that. */
  lemma N1StaysFrom(l: Snaps, l': Snaps, r: Snaps, cal: Calendar, ret: Retention, now: int)
    requires N1Stays(l', r, cal, ret, now)
    requires forall y :: y in l && y.slot == N1 ==> y in l'
    requires forall slot: Slot :: slot != New ==> GuidAt(l', slot) == GuidAt(l, slot)
    ensures N1Stays(l, r, cal, ret, now)
  {
    hide GuidAt, KeptAs;
    forall y | Roomy(l, y, cal, ret, now) ensures KeptAs(r, y) {
      assert Roomy(l', y, cal, ret, now);
    }
  }

  // ---- coverage

  /** A snapshot that made room as n1, and whether versions were kept. */
  datatype Eviction = Eviction(x: Snap, keep: bool)

  /** A dataset with the history of what rotations have evicted from n1, and the time of the last step. */
  datatype Shelf = Shelf(l: Snaps, evicted: set<Eviction>, now: int)

  datatype ShelfStep =
    | Take(x: Snap)
    | Discard
    | MarkNew
    | EvictStep(keep: bool)
    | ShiftStep
    | PromoteStep
    | PruneStep(now: int, stuck: set<Slot>)
    | WaitStep(now: int)

  ghost predicate CanStep(s: Shelf, a: ShelfStep) {
    match a
    case Take(x) => !Has(s.l, New) && x.slot == New && x.guid !in Guids(s.l)
    case Discard => true
    case MarkNew => true
    case EvictStep(_) => Has(s.l, New)
    case ShiftStep => Has(s.l, New) && !Has(s.l, N1)
    case PromoteStep => Has(s.l, New) && !Has(s.l, N0)
    case PruneStep(now, _) => s.now <= now
    case WaitStep(now) => s.now <= now
  }

  ghost function Leaving(l: Snaps, keep: bool): set<Eviction> {
    set x | x in l && x.slot == N1 :: Eviction(x, keep)
  }

  /** The commands a cycle issues on one dataset; a run may stop and start anew between any two. */
  ghost function StepShelf(s: Shelf, a: ShelfStep, cal: Calendar, ret: Retention): Shelf {
    match a
    case Take(x) => s.(l := s.l + [x])
    case Discard => s.(l := Destroy(s.l, New))
    case MarkNew => s.(l := Mark(s.l, New))
    case EvictStep(keep) => s.(l := Evict(s.l, keep, cal), evicted := s.evicted + Leaving(s.l, keep))
    case ShiftStep => s.(l := ShiftN0(s.l))
    case PromoteStep => s.(l := Promote(s.l))
    case PruneStep(now, stuck) => s.(l := Pruned(s.l, ret, now, stuck), now := now)
    case WaitStep(now) => s.(now := now)
  }

  /** What is kept apart: one an hour, one a day, and one frozen one a day. */
  datatype Tier = Hourly | Daily | Frozen
  {
    /** The hour or day of a time, and when one begins. */
    function Of(cal: Calendar, t: int): int { if Hourly? then cal.Hour(t) else cal.Day(t) }
    function Begins(cal: Calendar, n: int): int { (if Hourly? then n * 3600 else n * 86400) - cal.offset }

    function Window(ret: Retention): int { if Hourly? then ret.keepHours * 3600 else ret.keepDays * 86400 }

    /** Which evictions leave something behind, and in which slots. */
    predicate Claims(e: Eviction) { if Frozen? then e.x.frozen else e.keep }
    predicate Serves(slot: Slot) {
      slot.KeptFrozen? || (slot.KeptDay? && !Frozen?) || (slot.KeptHour? && Hourly?)
    }

    /** Labels carry no year: within a dataset equal names are taken to mean the same hour or day. */
    ghost predicate NamesDistinct(l: Snaps, cal: Calendar) {
      forall x, y :: x in l && y in l && Label(cal, x.created) == Label(cal, y.created) ==>
        Of(cal, x.created) == Of(cal, y.created)
    }
    function Label(cal: Calendar, t: int): int { if Hourly? then cal.HourLabel(t) else cal.DayLabel(t) }
  }

  ghost predicate StillKept(l: Snaps, tier: Tier, cal: Calendar, n: int) {
    exists k :: k in l && tier.Serves(k.slot) && tier.Of(cal, k.created) == n
  }

  ghost predicate Owed(s: Shelf, tier: Tier, cal: Calendar, ret: Retention, e: Eviction) {
    e in s.evicted && tier.Claims(e) && s.now - tier.Begins(cal, tier.Of(cal, e.x.created)) <= tier.Window(ret)
  }

  /** Every hour or day that lies inside the retention window and lost a snapshot still has a kept one. */
  ghost predicate Covered(s: Shelf, tier: Tier, cal: Calendar, ret: Retention) {
    forall e :: Owed(s, tier, cal, ret, e) ==> StillKept(s.l, tier, cal, tier.Of(cal, e.x.created))
  }

  ghost predicate ShelfOk(s: Shelf, tier: Tier, cal: Calendar, ret: Retention) {
    Disciplined(s.l) && Labelled(s.l, cal) && Covered(s, tier, cal, ret)
  }

  /** The evicted n1 lives on in a kept slot of its hour or day, or that was already taken care of. */
  lemma EvictKeepsOwn(l: Snaps, keep: bool, tier: Tier, cal: Calendar, e: Snap)
    requires Disciplined(l) && Labelled(l, cal) && tier.NamesDistinct(l, cal)
    requires e in l && e.slot == N1 && tier.Claims(Eviction(e, keep))
    ensures StillKept(Evict(l, keep, cal), tier, cal, tier.Of(cal, e.created))
  {
    var r := Evict(l, keep, cal);
    var i := IndexOfN1(l, e);
    var target := EvictTarget(l, keep, cal, e);
    if target != None && tier.Serves(target.value) {
      assert r[i] == e.(slot := target.value) && r[i] in r;
    } else {
      var slot := match tier
        case Hourly => KeptHour(cal.HourLabel(e.created))
        case Daily => KeptDay(cal.DayLabel(e.created))
        case Frozen => KeptFrozen(cal.DayLabel(e.created));
      var h := l[Find(l, slot)];
      assert h in l && LabelOk(h, cal);
      assert StillKept(l, tier, cal, tier.Of(cal, e.created));
      EvictKeepsOthers(l, keep, tier, cal, tier.Of(cal, e.created));
    }
  }

  lemma EvictKeepsOthers(l: Snaps, keep: bool, tier: Tier, cal: Calendar, n: int)
    requires Disciplined(l) && StillKept(l, tier, cal, n)
    ensures StillKept(Evict(l, keep, cal), tier, cal, n)
  {
    var k :| k in l && tier.Serves(k.slot) && tier.Of(cal, k.created) == n;
    var i :| 0 <= i < |l| && l[i] == k;
    if Has(l, N1) {
      match EvictTarget(l, keep, cal, l[Find(l, N1)])
      case Some(to) => assert Relabel(l, N1, to)[i] == k;
      case None => DestroyMember(l, N1, k);
    }
  }

  lemma RelabelKeeps(l: Snaps, from: Slot, to: Slot, tier: Tier, cal: Calendar, n: int)
    requires StillKept(l, tier, cal, n) && !from.Kept()
    ensures StillKept(Relabel(l, from, to), tier, cal, n)
  {
    var k :| k in l && tier.Serves(k.slot) && tier.Of(cal, k.created) == n;
    var i :| 0 <= i < |l| && l[i] == k;
    assert Relabel(l, from, to)[i] == k;
  }

  lemma TakeShape(l: Snaps, x: Snap, cal: Calendar)
    requires Disciplined(l) && Labelled(l, cal) && !Has(l, New) && x.slot == New && x.guid !in Guids(l)
    ensures Disciplined(l + [x]) && Labelled(l + [x], cal)
  {
    AppendedDisciplined(l, x);
  }

  lemma DiscardShape(l: Snaps, cal: Calendar)
    requires Disciplined(l) && Labelled(l, cal)
    ensures Disciplined(Destroy(l, New)) && Labelled(Destroy(l, New), cal)
  {
    DestroyFacts(l, New);
    forall x | x in Destroy(l, New) ensures x in l { DestroyMember(l, New, x); }
  }

  lemma MarkShape(l: Snaps, cal: Calendar)
    requires Disciplined(l) && Labelled(l, cal)
    ensures Disciplined(Mark(l, New)) && Labelled(Mark(l, New), cal)
  {
    MarkFacts(l, New);
    var r := Mark(l, New);
    forall i | 0 <= i < |r| ensures LabelOk(r[i], cal) { assert l[i] in l; }
  }

  lemma StepKeepsShape(s: Shelf, a: ShelfStep, cal: Calendar, ret: Retention)
    requires Disciplined(s.l) && Labelled(s.l, cal) && CanStep(s, a)
    ensures Disciplined(StepShelf(s, a, cal, ret).l) && Labelled(StepShelf(s, a, cal, ret).l, cal)
  {
    hide Find, Disciplined, Labelled, Guids, Evict, Destroy, Pruned, Promote;
    match a
    case Take(x) => TakeShape(s.l, x, cal);
    case Discard => DiscardShape(s.l, cal);
    case MarkNew => MarkShape(s.l, cal);
    case EvictStep(keep) => EvictFacts(s.l, keep, cal); EvictLabelled(s.l, keep, cal);
    case ShiftStep => ShiftShape(s.l, cal);
    case PromoteStep => PromoteShape(s.l, cal);
    case PruneStep(now, stuck) => PruneShape(s.l, cal, ret, now, stuck);
    case WaitStep(_) =>
  }

  lemma ShiftShape(l: Snaps, cal: Calendar)
    requires Disciplined(l) && Labelled(l, cal) && Has(l, New) && !Has(l, N1)
    ensures Disciplined(ShiftN0(l)) && Labelled(ShiftN0(l), cal)
  {
    hide Find, Disciplined, Labelled;
    ShiftFacts(l);
    if Has(l, N0) { RelabelLabelled(l, N0, N1, cal); }
  }

  lemma PromoteShape(l: Snaps, cal: Calendar)
    requires Disciplined(l) && Labelled(l, cal) && Has(l, New) && !Has(l, N0)
    ensures Disciplined(Promote(l)) && Labelled(Promote(l), cal)
  {
    hide Find, Disciplined, Labelled;
    PromoteFacts(l);
    RelabelLabelled(l, New, N0, cal);
  }

  lemma PruneShape(l: Snaps, cal: Calendar, ret: Retention, now: int, stuck: set<Slot>)
    requires Disciplined(l) && Labelled(l, cal)
    ensures Disciplined(Pruned(l, ret, now, stuck)) && Labelled(Pruned(l, ret, now, stuck), cal)
  {
    PrunedDisciplined(l, ret, now, stuck);
    PrunedMembers(l, ret, now, stuck);
  }

  lemma StepKeepsKept(s: Shelf, a: ShelfStep, tier: Tier, cal: Calendar, ret: Retention, n: int)
    requires Disciplined(s.l) && CanStep(s, a) && StillKept(s.l, tier, cal, n)
    requires tier.Hourly? ==> ret.keepHours * 3600 <= ret.keepDays * 86400
    requires a.PruneStep? ==> a.now - tier.Begins(cal, n) <= tier.Window(ret)
    ensures StillKept(StepShelf(s, a, cal, ret).l, tier, cal, n)
  {
    var k :| k in s.l && tier.Serves(k.slot) && tier.Of(cal, k.created) == n;
    match a
    case Take(x) => assert k in s.l + [x];
    case Discard => DestroyMember(s.l, New, k);
    case MarkNew => var i :| 0 <= i < |s.l| && s.l[i] == k; assert Mark(s.l, New)[i] == k;
    case EvictStep(keep) => EvictKeepsOthers(s.l, keep, tier, cal, n);
    case ShiftStep => if Has(s.l, N0) { RelabelKeeps(s.l, N0, N1, tier, cal, n); }
    case PromoteStep => RelabelKeeps(s.l, New, N0, tier, cal, n);
    case PruneStep(now, stuck) =>
      PrunedMember(s.l, ret, now, stuck, k);
      Younger(tier, cal, ret, k, now);
    case WaitStep(_) =>
  }

  /** A snapshot is not older than the hour or day it belongs to. */
  lemma Younger(tier: Tier, cal: Calendar, ret: Retention, k: Snap, now: int)
    requires tier.Serves(k.slot) && (tier.Hourly? ==> ret.keepHours * 3600 <= ret.keepDays * 86400)
    requires now - tier.Begins(cal, tier.Of(cal, k.created)) <= tier.Window(ret)
    ensures !Expired(k, ret, now)
  {
  }

  lemma StepCovers(s: Shelf, a: ShelfStep, tier: Tier, cal: Calendar, ret: Retention)
    requires ShelfOk(s, tier, cal, ret) && CanStep(s, a) && tier.NamesDistinct(s.l, cal)
    requires tier.Hourly? ==> ret.keepHours * 3600 <= ret.keepDays * 86400
    ensures ShelfOk(StepShelf(s, a, cal, ret), tier, cal, ret)
  {
    StepKeepsShape(s, a, cal, ret);
    hide Disciplined, Labelled, Find, Evict, Destroy, Pruned, Promote, ShiftN0, Mark;
    var t := StepShelf(s, a, cal, ret);
    forall e | Owed(t, tier, cal, ret, e) ensures StillKept(t.l, tier, cal, tier.Of(cal, e.x.created)) {
      if e in s.evicted {
        assert Owed(s, tier, cal, ret, e);
        StepKeepsKept(s, a, tier, cal, ret, tier.Of(cal, e.x.created));
      } else {
        EvictKeepsOwn(s.l, a.keep, tier, cal, e.x);
      }
    }
  }

  ghost predicate IsShelfRun(run: seq<Shelf>, steps: seq<ShelfStep>, cal: Calendar, ret: Retention) {
    && |run| == |steps| + 1
    && forall i :: 0 <= i < |steps| ==> CanStep(run[i], steps[i]) && run[i + 1] == StepShelf(run[i], steps[i], cal, ret)
  }

  lemma {:induction false} RunCovers(run: seq<Shelf>, steps: seq<ShelfStep>, tier: Tier, cal: Calendar, ret: Retention,
                                     i: nat)
    requires IsShelfRun(run, steps, cal, ret) && i < |run| && ShelfOk(run[0], tier, cal, ret)
    requires tier.Hourly? ==> ret.keepHours * 3600 <= ret.keepDays * 86400
    requires forall j :: 0 <= j < |run| ==> tier.NamesDistinct(run[j].l, cal)
    ensures ShelfOk(run[i], tier, cal, ret)
  {
    hide ShelfOk, StepShelf, CanStep;
    if i > 0 {
      RunCovers(run, steps, tier, cal, ret, i - 1);
      StepCovers(run[i - 1], steps[i - 1], tier, cal, ret);
    }
  }

  /** Over any run of snapshot, rotation and prune commands, interrupted and resumed anywhere: an hour inside the
      window from which a snapshot was ever evicted with versions on has a kept snapshot. */
  lemma HourlyCoverage(run: seq<Shelf>, steps: seq<ShelfStep>, cal: Calendar, ret: Retention, i: nat, e: Eviction)
    requires IsShelfRun(run, steps, cal, ret) && i < |run| && ShelfOk(run[0], Hourly, cal, ret)
    requires ret.keepHours * 3600 <= ret.keepDays * 86400
    requires forall j :: 0 <= j < |run| ==> Hourly.NamesDistinct(run[j].l, cal)
    requires e in run[i].evicted && e.keep
    requires run[i].now - (cal.Hour(e.x.created) * 3600 - cal.offset) <= ret.keepHours * 3600
    ensures exists k :: k in run[i].l && k.slot.Kept() && cal.Hour(k.created) == cal.Hour(e.x.created)
  {
    RunCovers(run, steps, Hourly, cal, ret, i);
    assert Owed(run[i], Hourly, cal, ret, e);
    var k :| k in run[i].l && Hourly.Serves(k.slot) && Hourly.Of(cal, k.created) == cal.Hour(e.x.created);
  }

  /** Likewise a day inside the window from which a snapshot was ever evicted with versions on has one kept for the day,
      whatever the hours to be kept. */
  lemma DailyCoverage(run: seq<Shelf>, steps: seq<ShelfStep>, cal: Calendar, ret: Retention, i: nat, e: Eviction)
    requires IsShelfRun(run, steps, cal, ret) && i < |run| && ShelfOk(run[0], Daily, cal, ret)
    requires forall j :: 0 <= j < |run| ==> Daily.NamesDistinct(run[j].l, cal)
    requires e in run[i].evicted && e.keep
    requires run[i].now - (cal.Day(e.x.created) * 86400 - cal.offset) <= ret.keepDays * 86400
    ensures exists k ::
      k in run[i].l && (k.slot.KeptDay? || k.slot.KeptFrozen?) && cal.Day(k.created) == cal.Day(e.x.created)
  {
    RunCovers(run, steps, Daily, cal, ret, i);
    assert Owed(run[i], Daily, cal, ret, e);
    var k :| k in run[i].l && Daily.Serves(k.slot) && Daily.Of(cal, k.created) == cal.Day(e.x.created);
  }

  /** And a day from which a frozen snapshot was ever evicted has a frozen one, also where no versions are kept. */
  lemma FrozenCoverage(run: seq<Shelf>, steps: seq<ShelfStep>, cal: Calendar, ret: Retention, i: nat, e: Eviction)
    requires IsShelfRun(run, steps, cal, ret) && i < |run| && ShelfOk(run[0], Frozen, cal, ret)
    requires forall j :: 0 <= j < |run| ==> Frozen.NamesDistinct(run[j].l, cal)
    requires e in run[i].evicted && e.x.frozen
    requires run[i].now - (cal.Day(e.x.created) * 86400 - cal.offset) <= ret.keepDays * 86400
    ensures exists k :: k in run[i].l && k.slot.KeptFrozen? && cal.Day(k.created) == cal.Day(e.x.created)
  {
    RunCovers(run, steps, Frozen, cal, ret, i);
    assert Owed(run[i], Frozen, cal, ret, e);
    var k :| k in run[i].l && Frozen.Serves(k.slot) && Frozen.Of(cal, k.created) == cal.Day(e.x.created);
  }
}

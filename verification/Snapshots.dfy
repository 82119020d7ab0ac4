/** The sync snapshots of one ZFS dataset and what rotation and pruning do to them (zfs.go).

    A dataset is the list of its sync snapshots, oldest first.  A snapshot is named by its slot. */
module Snapshots {
  import opened Options

  type Guid = int

  /** new, n0, n1, kd<MMDD>, kh<MMDDHH>, kf<MMDD>. */
  datatype Slot = New | N0 | N1 | KeptDay(day: int) | KeptHour(hour: int) | KeptFrozen(day: int)
  {
    predicate Kept() {
      KeptDay? || KeptHour? || KeptFrozen?
    }
  }

  datatype Snap = Snap(slot: Slot, guid: Guid, created: int, frozen: bool)

  type Snaps = seq<Snap>

  /** How the host's clock names days and hours: a fixed offset from UTC and the two date formats. */
  datatype Calendar = Calendar(offset: int, dayName: int -> int, hourName: int -> int)
  {
    function Day(t: int): int { (t + offset) / 86400 }
    function Hour(t: int): int { (t + offset) / 3600 }
    function DayLabel(t: int): int { dayName(Day(t)) }
    function HourLabel(t: int): int { hourName(Hour(t)) }
  }

  datatype Retention = Retention(keepHours: int, keepDays: int)

  /** Position of the first snapshot in the given slot, -1 if there is none. */
  function Find(l: Snaps, slot: Slot): (i: int)
    ensures -1 <= i < |l|
    ensures i >= 0 ==> l[i].slot == slot
    ensures forall j :: 0 <= j < (if i < 0 then |l| else i) ==> l[j].slot != slot
  {
    if l == [] then -1
    else if l[0].slot == slot then 0
    else
      var i := Find(l[1..], slot);
      if i < 0 then -1 else i + 1
  }

  predicate Has(l: Snaps, slot: Slot) {
    Find(l, slot) >= 0
  }

  function GuidAt(l: Snaps, slot: Slot): Option<Guid> {
    if Has(l, slot) then Some(l[Find(l, slot)].guid) else None
  }

  ghost function Guids(l: Snaps): set<Guid> {
    set x | x in l :: x.guid
  }

  ghost function Members(l: Snaps): set<Snap> {
    set x | x in l
  }

  function Rank(slot: Slot): nat {
    match slot
    case New => 3
    case N0 => 2
    case N1 => 1
    case _ => 0
  }

  /** Slot discipline: kept slots, then at most one n1, n0 and new in that order; no slot and no GUID twice. */
  ghost predicate Disciplined(l: Snaps) {
    forall i, j :: 0 <= i < j < |l| ==>
      && Rank(l[i].slot) <= Rank(l[j].slot)
      && l[i].slot != l[j].slot
      && l[i].guid != l[j].guid
  }

  /** A kept slot carries the label of the snapshot's own creation time. */
  ghost predicate LabelOk(x: Snap, cal: Calendar) {
    match x.slot
    case KeptDay(d) => d == cal.DayLabel(x.created)
    case KeptFrozen(d) => d == cal.DayLabel(x.created)
    case KeptHour(h) => h == cal.HourLabel(x.created)
    case _ => true
  }

  ghost predicate Labelled(l: Snaps, cal: Calendar) {
    forall x :: x in l ==> LabelOk(x, cal)
  }

  // ---- zfs commands on one dataset

  /** zfs rename: the snapshot in slot `from` moves to slot `to`. */
  function Relabel(l: Snaps, from: Slot, to: Slot): (r: Snaps)
    ensures |r| == |l|
    ensures forall i :: 0 <= i < |l| ==> r[i] == if l[i].slot == from then l[i].(slot := to) else l[i]
  {
    seq(|l|, i requires 0 <= i < |l| => if l[i].slot == from then l[i].(slot := to) else l[i])
  }

  /** zfs destroy. */
  function Destroy(l: Snaps, slot: Slot): Snaps {
    var i := Find(l, slot);
    if i < 0 then l else l[..i] + l[i + 1..]
  }

  /** zfs set cs:consistent on the snapshot in a slot. */
  function Mark(l: Snaps, slot: Slot): (r: Snaps)
    ensures |r| == |l|
    ensures forall i :: 0 <= i < |l| ==> r[i] == if l[i].slot == slot then l[i].(frozen := true) else l[i]
  {
    seq(|l|, i requires 0 <= i < |l| => if l[i].slot == slot then l[i].(frozen := true) else l[i])
  }

  /** zfs recv -F of an increment on `base`: what is newer than the base goes, the received snapshot comes. */
  function ReceiveOnto(l: Snaps, base: nat, x: Snap): Snaps
    requires base < |l|
  {
    l[..base + 1] + [x]
  }

  // ---- rotate

  /** Where rotation keeps the evicted n1, if it keeps it at all. */
  function EvictTarget(l: Snaps, keep: bool, cal: Calendar, n1: Snap): Option<Slot> {
    var kd, kh, kf := KeptDay(cal.DayLabel(n1.created)), KeptHour(cal.HourLabel(n1.created)),
      KeptFrozen(cal.DayLabel(n1.created));
    if n1.frozen && !Has(l, kf) then Some(kf)
    else if keep && !Has(l, kd) then Some(kd)
    else if keep && !Has(l, kh) then Some(kh)
    else None
  }

  function Evict(l: Snaps, keep: bool, cal: Calendar): Snaps {
    if !Has(l, N1) then l
    else match EvictTarget(l, keep, cal, l[Find(l, N1)])
      case Some(k) => Relabel(l, N1, k)
      case None => Destroy(l, N1)
  }

  function ShiftN0(l: Snaps): Snaps {
    if Has(l, N0) then Relabel(l, N0, N1) else l
  }

  function Promote(l: Snaps): Snaps {
    Relabel(l, New, N0)
  }

  /** What a rotation that ran through has made of the list, before pruning. */
  function Rotated(l: Snaps, keep: bool, cal: Calendar): Snaps {
    Promote(ShiftN0(Evict(l, keep, cal)))
  }

  // ---- prune

  predicate Expired(s: Snap, ret: Retention, now: int) {
    || (s.slot.KeptHour? && now - s.created > ret.keepHours * 3600)
    || ((s.slot.KeptDay? || s.slot.KeptFrozen?) && now - s.created > ret.keepDays * 86400)
  }

  /** The list after pruning, when the destroys of the slots in `stuck` failed (prune only warns then). */
  function Pruned(l: Snaps, ret: Retention, now: int, stuck: set<Slot>): Snaps {
    if l == [] then []
    else (if Expired(l[0], ret, now) && l[0].slot !in stuck then [] else [l[0]]) + Pruned(l[1..], ret, now, stuck)
  }

  // ---- the common base

  /** What a primary tells about a snapshot. */
  datatype SnapRef = SnapRef(slot: Slot, guid: Guid)

  function Refs(l: Snaps): (r: seq<SnapRef>)
    ensures |r| == |l| && forall i :: 0 <= i < |l| ==> r[i] == SnapRef(l[i].slot, l[i].guid)
  {
    seq(|l|, i requires 0 <= i < |l| => SnapRef(l[i].slot, l[i].guid))
  }

  /** Position of the snapshot with the given GUID, -1 if there is none. */
  function Where(l: Snaps, guid: Guid): (i: int)
    ensures -1 <= i < |l|
    ensures i >= 0 ==> l[i].guid == guid
    ensures i < 0 ==> guid !in Guids(l)
  {
    if l == [] then -1
    else if l[0].guid == guid then 0
    else
      var i := Where(l[1..], guid);
      if i < 0 then -1 else i + 1
  }

  /** The newest snapshot of the primary, apart from new, that the backup holds too. */
  function CommonBase(refs: seq<SnapRef>, bl: Snaps): (r: Option<Guid>)
    ensures r.Some? ==> exists i :: 0 <= i < |refs| && refs[i].guid == r.value && refs[i].slot != New
    ensures r.Some? ==> Where(bl, r.value) >= 0
    ensures r.None? ==> forall i :: 0 <= i < |refs| && refs[i].slot != New ==> refs[i].guid !in Guids(bl)
  {
    if refs == [] then None
    else
      var last := refs[|refs| - 1];
      if last.slot != New && Where(bl, last.guid) >= 0 then Some(last.guid)
      else CommonBase(refs[..|refs| - 1], bl)
  }

  function Newest(l: Snaps): Guid
    requires l != []
  {
    l[|l| - 1].guid
  }

  /** A receive that broke off: the snapshot it was for and the base it builds on. */
  datatype Partial = Partial(guid: Guid, base: Guid)
}

/** Local mode: primary and backup dataset on one host, replicated by one process (zfs.go). */
module ZfsLocal {
  import opened Options
  import opened Snapshots
  import opened SnapshotProofs
  import opened RetentionProofs
  import opened ZfsDataset

  // ---- states between two commands

  /** Both sides end in the same n0 and nothing is under way. */
  ghost predicate Settled(p: Snaps, b: Snaps) {
    && Disciplined(p) && Disciplined(b)
    && !Has(p, New) && !Has(b, New)
    && Has(p, N0) && GuidAt(p, N0) == GuidAt(b, N0)
  }

  /** Nothing confirmed: both n0 still agree, and a new on the backup is unknown to the primary. */
  ghost predicate Unconfirmed(p: Snaps, b: Snaps) {
    && Has(p, N0) && GuidAt(p, N0) == GuidAt(b, N0)
    && (Has(b, New) ==> GuidAt(b, New).value !in Guids(p))
  }

  /** Received, and the primary's rotation has not come to its end. */
  ghost predicate Confirmed(p: Snaps, b: Snaps) {
    Has(p, New) && GuidAt(p, New) == GuidAt(b, New)
  }

  /** The primary has rotated, the backup's rotation has not come to its end. */
  ghost predicate HalfRotated(p: Snaps, b: Snaps) {
    !Has(p, New) && Has(p, N0) && GuidAt(p, N0) == GuidAt(b, New)
  }

  /** Every state a crash inside a cycle, a rotation or a recovery can leave behind. */
  ghost predicate Recoverable(p: Snaps, b: Snaps) {
    Disciplined(p) && Disciplined(b) && (Unconfirmed(p, b) || Confirmed(p, b) || HalfRotated(p, b))
  }

  lemma NewestIsN0(l: Snaps)
    requires Disciplined(l) && !Has(l, New) && Has(l, N0)
    ensures l != [] && l[|l| - 1].slot == N0 && GuidAt(l, N0) == Some(Newest(l))
  {
    assert l[|l| - 1].slot == N0;
    HasAt(l, Find(l, N0));
  }

  /** In a settled pair the newest common snapshot is the newest one of the backup: nothing to roll back. */
  lemma SettledBase(p: Snaps, b: Snaps)
    requires Settled(p, b)
    ensures b != [] && CommonBase(Refs(p), b) == Some(Newest(b))
  {
    NewestIsN0(p);
    NewestIsN0(b);
    assert b[|b| - 1] in b;
  }

  /** What the backup may lose without an approval: the n1 a rotation evicts, what is out of retention,
      and a new of which the primary knows nothing. */
  ghost predicate FairLoss(lost: set<Snap>, known: set<Guid>, ret: Retention, now: int) {
    forall x :: x in lost ==> x.slot == N1 || Expired(x, ret, now) || (x.slot == New && x.guid !in known)
  }

  /** What holds between any two commands of the service. */
  ghost predicate StateOk(p: Snaps, b: Snaps, partial: Option<Partial>, next: Guid) {
    && Recoverable(p, b)
    && (forall g :: g in Guids(p) || g in Guids(b) ==> g < next)
    && (partial.Some? ==> partial.value.guid < next)
    && (partial.Some? && partial.value.guid in Guids(p) ==> GuidAt(p, New) == Some(partial.value.guid))
    && (partial.Some? ==> partial.value.guid !in Guids(b))
  }

  // One lemma for each way a command moves the pair on.

  lemma PrimaryRotated(p: Snaps, b: Snaps, p': Snaps, partial: Option<Partial>, next: Guid)
    requires StateOk(p, b, partial, next) && Confirmed(p, b)
    requires Disciplined(p') && Guids(p') <= Guids(p) && !Has(p', New) && GuidAt(p', N0) == GuidAt(p, New)
    ensures StateOk(p', b, partial, next) && HalfRotated(p', b)
  {
    GuidAtMember(p, New);
    GuidAtMember(b, New);
  }

  lemma PrimaryStopped(p: Snaps, b: Snaps, p': Snaps, partial: Option<Partial>, next: Guid)
    requires StateOk(p, b, partial, next) && Confirmed(p, b)
    requires Disciplined(p') && Guids(p') <= Guids(p) && GuidAt(p', New) == GuidAt(p, New)
    ensures StateOk(p', b, partial, next)
  {
  }

  lemma BackupRotated(p: Snaps, b: Snaps, b': Snaps, partial: Option<Partial>, next: Guid)
    requires StateOk(p, b, partial, next) && HalfRotated(p, b)
    requires Disciplined(b') && Guids(b') <= Guids(b) && !Has(b', New) && GuidAt(b', N0) == GuidAt(b, New)
    ensures StateOk(p, b', partial, next) && Settled(p, b')
  {
  }

  lemma BackupStopped(p: Snaps, b: Snaps, b': Snaps, partial: Option<Partial>, next: Guid)
    requires StateOk(p, b, partial, next) && HalfRotated(p, b)
    requires Disciplined(b') && Guids(b') <= Guids(b) && GuidAt(b', New) == GuidAt(b, New)
    ensures StateOk(p, b', partial, next)
  {
  }

  /** The backup's unconfirmed new goes. */
  lemma BackupDiscarded(p: Snaps, b: Snaps, partial: Option<Partial>, next: Guid)
    requires StateOk(p, b, partial, next) && Unconfirmed(p, b)
    ensures var b' := Destroy(b, New); StateOk(p, b', partial, next) && Unconfirmed(p, b') && !Has(b', New)
    ensures !Has(b, New) ==> Destroy(b, New) == b
    ensures Has(b, New) ==> b[Find(b, New)].guid !in Guids(p)
  {
    DestroyFacts(b, New);
    hide Find, Disciplined, Guids, Destroy;
  }

  /** The primary's unconfirmed new goes. */
  lemma PrimaryDiscarded(p: Snaps, b: Snaps, partial: Option<Partial>, next: Guid)
    requires StateOk(p, b, partial, next) && Unconfirmed(p, b) && !Has(b, New)
    ensures var p' := Destroy(p, New); StateOk(p', b, partial, next) && Settled(p', b)
    ensures !Has(p, New) ==> Destroy(p, New) == p
  {
    DestroyFacts(p, New);
    hide Find, Disciplined, Guids, Destroy;
  }

  lemma UnconfirmedIsNeither(p: Snaps, b: Snaps)
    requires Disciplined(p) && Disciplined(b) && Has(b, New)
    ensures Unconfirmed(p, b) ==> !Confirmed(p, b) && !HalfRotated(p, b)
  {
    if Has(p, New) { GuidAtMember(p, New); }
    if Has(p, N0) { GuidAtMember(p, N0); }
  }

  lemma ReceivedOnNewest(b: Snaps, x: Snap)
    requires b != []
    ensures ReceiveOnto(b, |b| - 1, x) == b + [x]
  {
    assert b[..|b|] == b;
  }

  /** The increment arrived, whether or not the sender heard of it. */
  lemma Received(p: Snaps, b: Snaps, x: Snap, partial: Option<Partial>, next: Guid)
    requires Settled(p, b) && StateOk(p, b, partial, next) && x.slot == New && x.guid == next
    ensures StateOk(p + [x], b + [x], None, next + 1) && Confirmed(p + [x], b + [x])
    ensures GuidAt(b + [x], New) == Some(next)
  {
    Appended(p, x);
    Appended(b, x);
    hide Find, Disciplined, Guids, GuidAt, Has, Destroy, Where;
  }

  /** The increment arrived and the sender took it for lost: it destroys its own new. */
  lemma ReceivedUnheard(p: Snaps, b: Snaps, x: Snap, partial: Option<Partial>, next: Guid)
    requires Settled(p, b) && StateOk(p, b, partial, next) && x.slot == New && x.guid == next
    ensures StateOk(p, b + [x], None, next + 1)
  {
    Appended(b, x);
    hide Find, Disciplined, Guids, GuidAt, Has, Destroy, Where;
  }

  lemma SettledShape(p: Snaps, b: Snaps)
    requires Settled(p, b)
    ensures Disciplined(p) && Disciplined(b) && !Has(p, New) && !Has(b, New)
  {
  }

  /** What a send that brought nothing over may leave of the partial receive. */
  ghost predicate PartialAfter(partial: Option<Partial>, before: Option<Partial>, guid: Guid) {
    partial == before || partial == None || (partial.Some? && partial.value.guid == guid)
  }

  /** A snapshot was taken and nothing came over. */
  lemma Taken(p: Snaps, b: Snaps, x: Snap, partial: Option<Partial>, after: Option<Partial>, next: Guid)
    requires Settled(p, b) && StateOk(p, b, partial, next) && x.slot == New && x.guid == next
    requires PartialAfter(after, partial, next)
    ensures StateOk(p + [x], b, after, next + 1)
    ensures StateOk(p, b, after, next + 1)
  {
    Appended(p, x);
    hide Find, Disciplined, Guids, GuidAt, Has, Destroy, Where;
  }

  lemma Marked(p: Snaps, b: Snaps, partial: Option<Partial>, next: Guid)
    requires StateOk(p, b, partial, next) && Confirmed(p, b)
    ensures StateOk(Mark(p, New), b, partial, next) && Confirmed(Mark(p, New), b)
    ensures StateOk(p, Mark(b, New), partial, next) && Confirmed(p, Mark(b, New))
    ensures GuidAt(Mark(b, New), New) == GuidAt(b, New)
    ensures FrozenAs(Mark(p, New), New) && FrozenAs(Mark(b, New), New)
  {
    MarkFreezes(p, New);
    MarkFreezes(b, New);
    MarkFacts(p, New);
    MarkFacts(b, New);
    hide Find, Disciplined, Guids, Mark;
  }

  lemma NoPartialInSettled(p: Snaps, b: Snaps, partial: Option<Partial>, next: Guid)
    requires Settled(p, b) && StateOk(p, b, partial, next)
    ensures partial.Some? ==> partial.value.guid !in Guids(p)
  {
  }

  lemma WhereNewest(l: Snaps)
    requires Disciplined(l) && l != []
    ensures Where(l, Newest(l)) == |l| - 1 && Members(l[|l| - 1 + 1..]) == {}
  {
    assert l[|l| - 1] in l;
  }

  /** A settled pair about to send; the token of an old partial receive names nothing the primary still has. */
  ghost predicate Ready(pl: Snaps, b: Snaps, p: Snaps, partial: Option<Partial>) {
    Settled(pl, b) && (partial.Some? ==> partial.value.guid !in Guids(p))
  }

  /** What a send from a ready pair does to the backup: it appends, or it leaves the list alone. */
  ghost predicate SendOutcome(b: Snaps, b': Snaps, received: bool, x: Snap, partial: Option<Partial>,
                              after: Option<Partial>) {
    && b != []
    && b' == (if received then ReceiveOnto(b, |b| - 1, x) else b)
    && (if received then after == None else PartialAfter(after, partial, x.guid))
  }

  datatype Marks = Marks(approve: Option<(Guid, Guid)>, blocked: Option<(Guid, Guid)>)

  /** What a send without a partial receive may do: without a common snapshot nothing; where the newest common one is
      not the newest of the backup nothing either but to ask, unless nobody has to be asked or exactly this is approved;
      else what it receives goes onto that base, and a success uses the approval up. */
  ghost predicate Gated(pl: Snaps, bl: Snaps, now: Snaps, x: Snap, ok: bool, received: bool, auto: bool, before: Marks,
                        after: Marks) {
    match CommonBase(Refs(pl), bl)
    case None => !received && now == bl && after == before
    case Some(base) =>
      && bl != []
      && if base == Newest(bl) || auto || before.approve == Some((base, Newest(bl))) then
           && now == (if received then ReceiveOnto(bl, Where(bl, base), x) else bl)
           && after == (if ok then before.(approve := None) else before)
         else !received && now == bl && after == before.(blocked := Some((base, Newest(bl))))
  }

  /** After the send, whatever came of it, and whether or not the primary keeps its new. */
  lemma Sent(p: Snaps, p1: Snaps, b: Snaps, x: Snap, b': Snaps, received: bool, partial: Option<Partial>,
    after: Option<Partial>,
             next: Guid)
    requires Settled(p, b) && StateOk(p, b, partial, next) && x.slot == New && x.guid == next && p1 == p + [x]
    requires SendOutcome(b, b', received, x, partial, after)
    ensures StateOk(p1, b', after, next + 1) && StateOk(p, b', after, next + 1)
    ensures received ==> Confirmed(p1, b') && GuidAt(b', New) == Some(next) == GuidAt(p1, New) && b' == b + [x]
  {
    if received {
      Received(p, b, x, partial, next);
      ReceivedUnheard(p, b, x, partial, next);
      ReceivedOnNewest(b, x);
    } else {
      Taken(p, b, x, partial, after, next);
    }
  }

  lemma TransferReady(p: Snaps, b: Snaps, x: Snap, partial: Option<Partial>, next: Guid)
    requires Settled(p, b) && StateOk(p, b, partial, next) && x.slot == New && x.guid == next
    ensures Ready(p, b, p + [x], partial) && Destroy(p + [x], New) == p
  {
    NewestIsN0(b);
    Appended(p, x);
  }

  lemma MarkKeepsN1(b: Snaps, b': Snaps, r: Snaps, cal: Calendar, ret: Retention, now: int)
    requires Disciplined(b) && (b' == b || b' == Mark(b, New)) && N1Stays(b', r, cal, ret, now)
    ensures N1Stays(b, r, cal, ret, now)
  {
    hide Disciplined, N1Stays, GuidAt;
    MarkFacts(b, New);
    forall y | y in b && y.slot == N1 ensures y in b' {
      var i :| 0 <= i < |b| && b[i] == y;
      assert b'[i] == y;
    }
    N1StaysFrom(b, b', r, cal, ret, now);
  }

  lemma NewFits(p: Snaps, b: Snaps, x: Snap, partial: Option<Partial>, next: Guid)
    requires Settled(p, b) && StateOk(p, b, partial, next) && x.slot == New && x.guid == next
    ensures forall slot: Slot :: slot != New ==> GuidAt(b + [x], slot) == GuidAt(b, slot)
  {
    Appended(b, x);
  }

  /** Recovery leaves a settled pair as it is. */
  lemma SettledIsLeft(p: Snaps, b: Snaps, partial: Option<Partial>, next: Guid)
    requires StateOk(p, b, partial, next)
    ensures Disciplined(p) && Disciplined(b)
    ensures Settled(p, b) ==> Unconfirmed(p, b) && Destroy(p, New) == p && Destroy(b, New) == b
  {
    DestroyFacts(p, New);
    DestroyFacts(b, New);
  }

  // ---- the service

  class LocalPair {
    const primary: Dataset
    const backup: Dataset
    const versions: bool
    const rollbackAuto: bool
    const cal: Calendar
    const ret: Retention
    var partial: Option<Partial>
    var nextGuid: Guid
    var approve: Option<(Guid, Guid)>
    var blocked: Option<(Guid, Guid)>
    /** Which of the transfers between the two datasets, and of the looks at their outcome, work, by their number. */
    const works: nat -> bool
    var issued: nat
    /** How many interrupted receives have been resumed. */
    ghost var resumes: nat

    constructor (primary: Dataset, backup: Dataset, versions: bool, rollbackAuto: bool, cal: Calendar, ret: Retention,
                 nextGuid: Guid, works: nat -> bool)
      ensures this.primary == primary && this.backup == backup && this.nextGuid == nextGuid
      ensures partial == None && approve == None && blocked == None && resumes == 0
    {
      this.primary, this.backup, this.versions, this.rollbackAuto := primary, backup, versions, rollbackAuto;
      this.cal, this.ret, this.nextGuid, this.works, issued := cal, ret, nextGuid, works, 0;
      partial, approve, blocked, resumes := None, None, None, 0;
    }

    ghost predicate Valid()
      reads this, primary, backup
    {
      primary != backup && StateOk(primary.snaps, backup.snaps, partial, nextGuid)
    }

    /** No command on either side and no transfer has failed since then. */
    ghost predicate Undisturbed(p: nat, b: nat, own: nat)
      reads this, primary, backup
    {
      primary.Worked(p) && backup.Worked(b) && forall n :: own <= n < issued ==> works(n)
    }

    /** The counters only go up. */
    ghost predicate Onward(p: nat, b: nat, own: nat)
      reads this, primary, backup
    {
      p <= primary.issued && b <= backup.issued && own <= issued
    }

    /** Completes or discards a half-finished cycle; everything is derived from the two lists. */
    method RecoverCycle(now: int) returns (ok: bool)
      requires Valid()
      modifies primary, backup, this`blocked
      ensures Valid()
      ensures Onward(old(primary.issued), old(backup.issued), old(issued))
      ensures Undisturbed(old(primary.issued), old(backup.issued), old(issued)) ==> ok
      ensures ok ==> Settled(primary.snaps, backup.snaps)
      ensures ok && Unconfirmed(old(primary.snaps), old(backup.snaps)) ==>
        primary.snaps == Destroy(old(primary.snaps), New) && backup.snaps == Destroy(old(backup.snaps), New)
      ensures ok && !Unconfirmed(old(primary.snaps), old(backup.snaps)) ==>
        && GuidAt(backup.snaps, N0) == GuidAt(old(backup.snaps), New)
        && N1Stays(old(backup.snaps), backup.snaps, cal, ret, now)
      ensures blocked == old(blocked) || blocked == None
      ensures old(backup.lost) <= backup.lost
      ensures FairLoss(backup.lost - old(backup.lost), Guids(old(primary.snaps)), ret, now)
    {
      var pl, bl := primary.snaps, backup.snaps;
      if Has(bl, New) { UnconfirmedIsNeither(pl, bl); }
      if Has(pl, New) && Has(bl, New) && GuidAt(pl, New) == GuidAt(bl, New) {
        ok := CompleteBoth(now);
      } else if Has(bl, New) && Has(pl, N0) && GuidAt(pl, N0) == GuidAt(bl, New) {
        GuidAtMember(pl, N0);
        ok := CompleteBackup(now);
      } else {
        ok := Discard();
      }
    }

    method CompleteBoth(now: int) returns (ok: bool)
      requires Valid() && Confirmed(primary.snaps, backup.snaps)
      modifies primary, backup, this`blocked
      ensures Valid()
      ensures Onward(old(primary.issued), old(backup.issued), old(issued))
      ensures Undisturbed(old(primary.issued), old(backup.issued), old(issued)) ==> ok
      ensures ok ==> Settled(primary.snaps, backup.snaps) && GuidAt(backup.snaps, N0) == GuidAt(old(backup.snaps), New)
      ensures ok && FrozenAs(old(primary.snaps), New) ==> FrozenAs(primary.snaps, N0)
      ensures ok && FrozenAs(old(backup.snaps), New) ==> FrozenAs(backup.snaps, N0)
      ensures ok ==> N1Stays(old(backup.snaps), backup.snaps, cal, ret, now)
      ensures blocked == old(blocked) || blocked == None
      ensures old(backup.lost) <= backup.lost
      ensures forall x :: x in backup.lost - old(backup.lost) ==> x.slot == N1 || Expired(x, ret, now)
    {
      var pl, bl := primary.snaps, backup.snaps;
      hide Find, Disciplined, Pruned, Rotated, Evict, ShiftN0, Expired, Guids, GuidAt, Has, StateOk, Settled;
      hide N1Stays, FrozenAs, Dataset.Worked;
      ghost var stuck;
      ok, stuck := primary.Rotate(versions, cal, ret, now);
      if !ok {
        PrimaryStopped(pl, bl, primary.snaps, partial, nextGuid);
        return;
      }
      if FrozenAs(pl, New) { RotationKeepsMark(pl, versions, cal, ret, now, stuck); }
      PrimaryRotated(pl, bl, primary.snaps, partial, nextGuid);
      blocked := None;
      ok := CompleteBackup(now);
    }

    method CompleteBackup(now: int) returns (ok: bool)
      requires Valid() && HalfRotated(primary.snaps, backup.snaps)
      modifies backup, this`blocked
      ensures Valid()
      ensures Onward(old(primary.issued), old(backup.issued), old(issued))
      ensures Undisturbed(old(primary.issued), old(backup.issued), old(issued)) ==> ok
      ensures ok ==> Settled(primary.snaps, backup.snaps) && GuidAt(backup.snaps, N0) == GuidAt(old(backup.snaps), New)
      ensures ok && FrozenAs(old(backup.snaps), New) ==> FrozenAs(backup.snaps, N0)
      ensures ok ==> N1Stays(old(backup.snaps), backup.snaps, cal, ret, now)
      ensures blocked == old(blocked) || blocked == None
      ensures old(backup.lost) <= backup.lost
      ensures forall x :: x in backup.lost - old(backup.lost) ==> x.slot == N1 || Expired(x, ret, now)
    {
      var bl := backup.snaps;
      hide Find, Disciplined, Pruned, Rotated, Evict, ShiftN0, Expired, Guids, GuidAt, Has, StateOk, Settled;
      hide N1Stays, FrozenAs, Dataset.Worked;
      ghost var stuck;
      ok, stuck := backup.Rotate(true, cal, ret, now);
      if ok {
        RotationKeepsN1(bl, cal, ret, now, stuck);
        if FrozenAs(bl, New) { RotationKeepsMark(bl, true, cal, ret, now, stuck); }
        BackupRotated(primary.snaps, bl, backup.snaps, partial, nextGuid);
        blocked := None;
      } else {
        BackupStopped(primary.snaps, bl, backup.snaps, partial, nextGuid);
      }
    }

    /** Nothing was confirmed: a new goes, first the backup's, then the primary's. */
    method Discard() returns (ok: bool)
      requires Valid() && Unconfirmed(primary.snaps, backup.snaps)
      modifies primary, backup
      ensures Valid()
      ensures Onward(old(primary.issued), old(backup.issued), old(issued))
      ensures Undisturbed(old(primary.issued), old(backup.issued), old(issued)) ==> ok
      ensures ok ==> Settled(primary.snaps, backup.snaps)
      ensures ok ==>
        primary.snaps == Destroy(old(primary.snaps), New) && backup.snaps == Destroy(old(backup.snaps), New)
      ensures old(backup.lost) <= backup.lost
      ensures forall x :: x in backup.lost - old(backup.lost) ==> x.slot == New && x.guid !in Guids(old(primary.snaps))
    {
      hide Find, Disciplined, Guids, GuidAt, Destroy, StateOk, Settled, Unconfirmed;
      ok := DiscardBackup();
      if ok { ok := DiscardPrimary(); }
    }

    method DiscardBackup() returns (ok: bool)
      requires Valid() && Unconfirmed(primary.snaps, backup.snaps)
      modifies backup
      ensures Valid()
      ensures Onward(old(primary.issued), old(backup.issued), old(issued))
      ensures Undisturbed(old(primary.issued), old(backup.issued), old(issued)) ==> ok
      ensures ok ==> Unconfirmed(primary.snaps, backup.snaps) && !Has(backup.snaps, New)
      ensures ok ==> backup.snaps == Destroy(old(backup.snaps), New)
      ensures old(backup.lost) <= backup.lost
      ensures forall x :: x in backup.lost - old(backup.lost) ==> x.slot == New && x.guid !in Guids(primary.snaps)
    {
      BackupDiscarded(primary.snaps, backup.snaps, partial, nextGuid);
      hide Find, Disciplined, Guids, GuidAt, Destroy, StateOk, Unconfirmed;
      ok := true;
      if Has(backup.snaps, New) { ok := backup.DestroySnap(New); }
    }

    method DiscardPrimary() returns (ok: bool)
      requires Valid() && Unconfirmed(primary.snaps, backup.snaps) && !Has(backup.snaps, New)
      modifies primary
      ensures Valid()
      ensures Onward(old(primary.issued), old(backup.issued), old(issued))
      ensures Undisturbed(old(primary.issued), old(backup.issued), old(issued)) ==> ok
      ensures ok ==> Settled(primary.snaps, backup.snaps)
      ensures ok ==> primary.snaps == Destroy(old(primary.snaps), New)
    {
      PrimaryDiscarded(primary.snaps, backup.snaps, partial, nextGuid);
      hide Find, Disciplined, Guids, GuidAt, Destroy, StateOk, Settled, Unconfirmed;
      ok := true;
      if Has(primary.snaps, New) { ok := primary.DestroySnap(New); }
    }

    /** The rollback gate: the approval has to name exactly this base and this newest snapshot of the backup. */
    method Gate(base: Guid, newest: Guid) returns (go: bool)
      modifies this`blocked
      ensures go == (base == newest || rollbackAuto || approve == Some((base, newest)))
      ensures blocked == if go then old(blocked) else Some((base, newest))
    {
      go := base == newest || rollbackAuto || approve == Some((base, newest));
      if !go { blocked := Some((base, newest)); }
    }

    /** zfs send -i base new | zfs recv -s -F: may arrive without the sender hearing of it, may leave a partial
        receive. */
    method Pipe(base: Guid, x: Snap) returns (ok: bool, received: bool)
      requires Where(backup.snaps, base) >= 0
      modifies backup, this`partial, this`issued
      ensures received == backup.works(old(backup.issued)) && ok == (received && works(old(issued)))
      ensures backup.issued == old(backup.issued) + 1 && issued == old(issued) + 2
      ensures backup.snaps == if received then ReceiveOnto(old(backup.snaps), Where(old(backup.snaps), base), x)
        else old(backup.snaps)
      ensures backup.lost == old(backup.lost)
        + if received then Members(old(backup.snaps)[Where(old(backup.snaps), base) + 1..]) else {}
      ensures received ==> partial == None
      ensures !received ==> partial == old(partial) || partial == Some(Partial(x.guid, base))
    {
      received := backup.ReceiveForced(Where(backup.snaps, base), x);
      ok := works(issued) && received;
      var kept := works(issued + 1);
      issued := issued + 2;
      if received {
        partial := None;
      } else if kept {
        partial := Some(Partial(x.guid, base));
      }
    }

    /** zfs send -t token | zfs recv -s: the token's snapshot must still be on the primary; otherwise the partial is
        discarded. */
    method Resume() returns (resumed: bool)
      modifies backup, this`partial, this`resumes, this`issued
      ensures backup.issued == old(backup.issued) && issued == old(issued) + 2
      ensures old(partial).Some? && Where(primary.snaps, old(partial).value.guid) >= 0 && works(old(issued)) ==> resumed
      ensures resumed ==> old(partial).Some? && Where(primary.snaps, old(partial).value.guid) >= 0
      ensures !resumed ==> backup.snaps == old(backup.snaps) && (partial == old(partial) || partial == None)
      ensures backup.lost == old(backup.lost) && resumes == old(resumes) + if resumed then 1 else 0
    {
      resumed := false;
      var arrived, aborted := works(issued), !works(issued + 1);
      issued := issued + 2;
      if partial.Some? {
        var i := Where(primary.snaps, partial.value.guid);
        if i >= 0 && arrived {
          backup.snaps := backup.snaps + [primary.snaps[i].(slot := New, frozen := false)];
          partial := None;
          resumed := true;
          resumes := resumes + 1;
        } else {
          if aborted { partial := None; }
        }
      }
    }

    /** The sending half of a cycle, from the lists as they are: resume, base, gate, send. */
    method Transfer(pl: Snaps, x: Snap) returns (ok: bool, received: bool)
      requires primary != backup
      modifies backup, this`partial, this`approve, this`blocked, this`resumes, this`issued
      ensures ok ==> received
      ensures Onward(old(primary.issued), old(backup.issued), old(issued))
      ensures Ready(pl, old(backup.snaps), primary.snaps, old(partial)) ==>
        (Undisturbed(old(primary.issued), old(backup.issued), old(issued)) ==> ok)
      ensures Ready(pl, old(backup.snaps), primary.snaps, old(partial)) ==>
        && SendOutcome(old(backup.snaps), backup.snaps, received, x, old(partial), partial)
        && blocked == old(blocked) && backup.lost == old(backup.lost) && resumes == old(resumes)
      ensures old(partial) == None ==>
        Gated(pl, old(backup.snaps), backup.snaps, x, ok, received, rollbackAuto,
              Marks(old(approve), old(blocked)), Marks(approve, blocked))
    {
      hide Find, Disciplined, Guids, GuidAt, Has, Settled, Where, CommonBase, Refs, ReceiveOnto, Members, Newest;
      ok, received := false, false;
      ghost var ready := Ready(pl, backup.snaps, primary.snaps, partial);
      var resumed := Resume();
      if ready {
        WhereMembers(primary.snaps);
        SettledBase(pl, backup.snaps);
        SettledShape(pl, backup.snaps);
        WhereNewest(backup.snaps);
      }
      var bl := backup.snaps;
      var base := CommonBase(Refs(pl), bl);
      if base.None? { return; }
      var go := Gate(base.value, Newest(bl));
      if !go { return; }
      ok, received := Pipe(base.value, x);
      if ok { approve := None; }
    }

    /** One replication cycle, which never resumes an interrupted receive: recover, take a snapshot, send it, see it
        confirmed, rotate both sides. */
    method Cycle(now: int, created: int, changed: bool, consistent: bool) returns (ok: bool, sent: bool)
      requires Valid()
      modifies this, primary, backup
      ensures Valid()
      ensures Onward(old(primary.issued), old(backup.issued), old(issued))
      ensures Undisturbed(old(primary.issued), old(backup.issued), old(issued)) ==> ok
      ensures ok ==> Settled(primary.snaps, backup.snaps)
      ensures ok ==> (sent <==> changed)
      ensures ok && sent ==> GuidAt(backup.snaps, N0) == Some(old(nextGuid))
      ensures changed && consistent && Undisturbed(old(primary.issued), old(backup.issued), old(issued)) ==>
        FrozenAs(primary.snaps, N0) && FrozenAs(backup.snaps, N0)
      ensures ok && sent && Settled(old(primary.snaps), old(backup.snaps)) ==>
        N1Stays(old(backup.snaps), backup.snaps, cal, ret, now)
      ensures resumes == old(resumes)
      ensures blocked == old(blocked) || blocked == None
      ensures old(backup.lost) <= backup.lost
      ensures FairLoss(backup.lost - old(backup.lost), Guids(old(primary.snaps)), ret, now)
    {
      hide Find, Disciplined, Guids, StateOk, Settled, Destroy, Mark, ReceiveOnto, Expired, Newest, N1Stays;
      hide Unconfirmed, FrozenAs;
      sent := false;
      SettledIsLeft(primary.snaps, backup.snaps, partial, nextGuid);
      ok := RecoverCycle(now);
      if !ok { return; }
      var pl, bl := primary.snaps, backup.snaps;
      NoPartialInSettled(pl, bl, partial, nextGuid);
      if Has(pl, N0) && !changed { return; }
      ok, sent := SendChanges(now, created, consistent);
    }

    /** The rest of a cycle that found changes, from a settled pair. */
    method SendChanges(now: int, created: int, consistent: bool) returns (ok: bool, sent: bool)
      requires Valid() && Settled(primary.snaps, backup.snaps)
      modifies this, primary, backup
      ensures Valid()
      ensures Onward(old(primary.issued), old(backup.issued), old(issued))
      ensures Undisturbed(old(primary.issued), old(backup.issued), old(issued)) ==> ok
      ensures ok ==> sent && Settled(primary.snaps, backup.snaps) && GuidAt(backup.snaps, N0) == Some(old(nextGuid))
      ensures consistent && Undisturbed(old(primary.issued), old(backup.issued), old(issued)) ==>
        FrozenAs(primary.snaps, N0) && FrozenAs(backup.snaps, N0)
      ensures ok ==> N1Stays(old(backup.snaps), backup.snaps, cal, ret, now)
      ensures resumes == old(resumes)
      ensures blocked == old(blocked) || blocked == None
      ensures old(backup.lost) <= backup.lost
      ensures forall x :: x in backup.lost - old(backup.lost) ==> x.slot == N1 || Expired(x, ret, now)
    {
      hide Find, Disciplined, Guids, GuidAt, Has, StateOk, Settled, Destroy, Expired, N1Stays, FrozenAs;
      ghost var bl, x := backup.snaps, Snap(New, nextGuid, created, false);
      NewFits(primary.snaps, bl, x, partial, nextGuid);
      ok, sent := Ship(created);
      if !ok { return; }
      ok := Finish(now, consistent);
      if ok { N1StaysFrom(bl, bl + [x], backup.snaps, cal, ret, now); }
    }

    /** Take the snapshot, send it and compare the GUIDs; if anything fails the primary's new goes again. */
    method Ship(created: int) returns (ok: bool, sent: bool)
      requires Valid() && Settled(primary.snaps, backup.snaps)
      modifies this, primary, backup
      ensures Valid() && sent == ok
      ensures Onward(old(primary.issued), old(backup.issued), old(issued))
      ensures Undisturbed(old(primary.issued), old(backup.issued), old(issued)) ==> ok
      ensures ok ==> Confirmed(primary.snaps, backup.snaps) && GuidAt(backup.snaps, New) == Some(old(nextGuid))
      ensures ok ==> backup.snaps == old(backup.snaps) + [Snap(New, old(nextGuid), created, false)]
      ensures blocked == old(blocked) && resumes == old(resumes)
      ensures backup.lost == old(backup.lost)
    {
      var pl := primary.snaps;
      var x := Snap(New, nextGuid, created, false);
      ghost var next := nextGuid;
      TransferReady(pl, backup.snaps, x, partial, nextGuid);
      hide Find, Disciplined, Guids, GuidAt, Has, StateOk, Settled, Destroy, Confirmed, Ready;
      ok := primary.TakeNew(nextGuid, created);
      sent := ok;
      if !ok { return; }
      nextGuid := nextGuid + 1;
      sent := SendNew(pl, x, next);
      ok := sent;
    }

    /** Send the snapshot that was taken, and look at both lists again to compare the GUIDs. */
    method SendNew(pl: Snaps, x: Snap, ghost next: Guid) returns (sent: bool)
      requires primary != backup && Settled(pl, backup.snaps) && StateOk(pl, backup.snaps, partial, next)
      requires x.slot == New && x.guid == next && primary.snaps == pl + [x] && nextGuid == next + 1
      modifies primary, backup, this`partial, this`approve, this`blocked, this`resumes, this`issued
      ensures Valid()
      ensures Onward(old(primary.issued), old(backup.issued), old(issued))
      ensures Undisturbed(old(primary.issued), old(backup.issued), old(issued)) ==> sent
      ensures sent ==> Confirmed(primary.snaps, backup.snaps) && GuidAt(backup.snaps, New) == Some(next)
      ensures sent ==> backup.snaps == old(backup.snaps) + [x]
      ensures blocked == old(blocked) && resumes == old(resumes) && backup.lost == old(backup.lost)
    {
      hide Find, Disciplined, Guids, GuidAt, Has, StateOk, Settled, Destroy, Ready, SendOutcome, Gated, Confirmed;
      ghost var bl, was := backup.snaps, partial;
      TransferReady(pl, bl, x, partial, next);
      var ok, received := Transfer(pl, x);
      Sent(pl, primary.snaps, bl, x, backup.snaps, received, was, partial, next);
      sent := ok && works(issued) && GuidAt(primary.snaps, New) == GuidAt(backup.snaps, New);
      issued := issued + 1;
      if !sent { Withdraw(pl); }
    }

    /** The failed cycle's snapshot goes, or stays for the next recovery. */
    method Withdraw(ghost pl: Snaps)
      requires Valid() && Destroy(primary.snaps, New) == pl && StateOk(pl, backup.snaps, partial, nextGuid)
      modifies primary
      ensures Valid() && old(primary.issued) <= primary.issued
    {
      var destroyed := primary.DestroySnap(New);
    }

    /** After the confirmation: the consistency mark goes on both sides, then both sides rotate. */
    method Finish(now: int, consistent: bool) returns (ok: bool)
      requires Valid() && Confirmed(primary.snaps, backup.snaps)
      modifies this, primary, backup
      ensures Valid()
      ensures Onward(old(primary.issued), old(backup.issued), old(issued))
      ensures Undisturbed(old(primary.issued), old(backup.issued), old(issued)) ==> ok
      ensures ok ==> Settled(primary.snaps, backup.snaps) && GuidAt(backup.snaps, N0) == GuidAt(old(backup.snaps), New)
      ensures consistent && Undisturbed(old(primary.issued), old(backup.issued), old(issued)) ==>
        FrozenAs(primary.snaps, N0) && FrozenAs(backup.snaps, N0)
      ensures ok ==> N1Stays(old(backup.snaps), backup.snaps, cal, ret, now)
      ensures resumes == old(resumes)
      ensures blocked == old(blocked) || blocked == None
      ensures old(backup.lost) <= backup.lost
      ensures forall x :: x in backup.lost - old(backup.lost) ==> x.slot == N1 || Expired(x, ret, now)
    {
      hide Find, Disciplined, Guids, GuidAt, Has, StateOk, Settled, Mark, Expired, Confirmed, N1Stays, FrozenAs;
      ghost var bl := backup.snaps;
      SettledIsLeft(primary.snaps, bl, partial, nextGuid);
      if consistent {
        Marked(primary.snaps, backup.snaps, partial, nextGuid);
        ok := primary.SetConsistent(New);
        Marked(primary.snaps, backup.snaps, partial, nextGuid);
        ok := backup.SetConsistent(New);
      }
      ghost var marked := backup.snaps;
      ok := CompleteBoth(now);
      if ok { MarkKeepsN1(bl, marked, backup.snaps, cal, ret, now); }
    }
  }
}

/** Safety of the LAN protocol: what every step keeps, and what follows for every reachable state. */
module ZfsNetProofs {
  import opened Options
  import opened Snapshots
  import opened SnapshotProofs
  import opened ZfsNet

  // ---- the invariant

  /** The GUID is on the list, and not as new. */
  ghost predicate HeldOld(l: Snaps, g: Guid) {
    g in Guids(l) && GuidAt(l, New) != Some(g)
  }

  ghost predicate GuidsBelow(l: Snaps, next: Guid) {
    forall g :: g in Guids(l) ==> g < next
  }

  /** A snapshot on its way, or half received: if the primary still has it, it is the primary's new. */
  ghost predicate OnlyAsNew(l: Snaps, g: Guid) {
    g in Guids(l) ==> GuidAt(l, New) == Some(g)
  }

  ghost predicate Basic(s: State) {
    && Disciplined(s.prim) && Disciplined(s.back)
    && GuidsBelow(s.prim, s.next) && GuidsBelow(s.back, s.next)
    && (s.approve.Some? ==> s.approve.value in s.placed)
  }

  /** A new on the backup, left there because it could not be destroyed, is none of the primary's. */
  ghost predicate NewUnknown(prim: Snaps, back: Snaps) {
    Has(back, New) ==> GuidAt(back, New).value !in Guids(prim)
  }

  ghost predicate PartialOk(s: State) {
    s.partial.Some? ==>
      && NewUnknown(s.prim, s.back) && GuidAt(s.back, New) != Some(s.partial.value.base)
      && s.partial.value.guid !in Guids(s.back)
      && s.partial.value.guid < s.next
      && OnlyAsNew(s.prim, s.partial.value.guid)
  }

  /** Main result, part one: the two sides always have a snapshot in common. */
  ghost predicate Shared(prim: Snaps, back: Snaps) {
    exists g: Guid :: g in Guids(prim) && g in Guids(back)
  }

  /** Main result, part two: a new on the backup is unknown to the primary, or is there as new or n0. */
  ghost predicate BackNewOk(prim: Snaps, back: Snaps) {
    Has(back, New) ==>
      var g := GuidAt(back, New);
      g.value !in Guids(prim) || GuidAt(prim, New) == g || GuidAt(prim, N0) == g
  }

  predicate AtRest(b: BackupPc) { b.Serving? || b.Accepting? }

  predicate IncSide(b: BackupPc, base: Guid) { AtRest(b) || (b.ReceivingInc? && b.base == base) }

  predicate ResumeSide(b: BackupPc, t: Partial) { AtRest(b) || b == ReceivingResume(t) }

  ghost predicate BaseOk(s: State, base: Guid) {
    HeldOld(s.prim, base) && base in Guids(s.back)
  }

  /** A side in the middle of a rotation: where the snapshot g stands, and which slots are free by now. */
  ghost predicate MidRotation(l: Snaps, st: Stage, g: Guid) {
    match st
    case Evicting => GuidAt(l, New) == Some(g)
    case Shifting => GuidAt(l, New) == Some(g) && !Has(l, N1)
    case Promoting => GuidAt(l, New) == Some(g) && !Has(l, N0)
    case Pruning => GuidAt(l, N0) == Some(g) && !Has(l, New)
  }

  ghost predicate PrimaryInv(s: State) {
    match s.p
    case Idle => true
    case Dialed => AtRest(s.b) && s.toB == None && s.toP == None
    case AwaitPlan =>
      (s.toP.Some? && s.toP.value.Planned? ==>
        match s.toP.value.plan
        case PlanInc(base) => BaseOk(s, base) && NewUnknown(s.prim, s.back) && s.toB == None && IncSide(s.b, base)
        case PlanResume(t) => s.toB == None && ResumeSide(s.b, t)
        case PlanRotate =>
          && s.toB == None && AtRest(s.b) && !Has(s.back, New) && Has(s.prim, New)
          && GuidAt(s.prim, New) == GuidAt(s.back, N0)
        case _ => s.toB == None && AtRest(s.b))
    case Stale(base) =>
      BaseOk(s, base) && NewUnknown(s.prim, s.back) && s.toB == None && s.toP == None && IncSide(s.b, base)
    case Taking(base) =>
      && BaseOk(s, base) && NewUnknown(s.prim, s.back) && !Has(s.prim, New)
      && s.toB == None && s.toP == None && IncSide(s.b, base)
    case Sending(base) =>
      && BaseOk(s, base) && NewUnknown(s.prim, s.back)
      && Has(s.prim, New) && GuidAt(s.prim, New).value !in Guids(s.back)
      && s.toB == None && s.toP == None && IncSide(s.b, base)
    case AwaitDone(base) => BaseOk(s, base) && Has(s.prim, New) && IncSide(s.b, base)
      && (s.toP.Some? && s.toP.value.Done? && s.toP.value.ok && s.toP.value.newGuid == GuidAt(s.prim, New) ==>
            AtRest(s.b) && s.toB == None && GuidAt(s.back, New) == GuidAt(s.prim, New))
    case Failing(base) => BaseOk(s, base) && IncSide(s.b, base)
    case Resuming(t) => s.toB == None && ResumeSide(s.b, t)
    case AwaitResumed(t) => ResumeSide(s.b, t)
    case Rotating(st, tell) => s.toB == None && AtRest(s.b) && (tell || !Has(s.back, New))
      && exists g: Guid :: MidRotation(s.prim, st, g) && GuidAt(s.back, if tell then New else N0) == Some(g)
    case RotatedTell => s.toB == None && AtRest(s.b) && Has(s.prim, N0) && GuidAt(s.prim, N0) == GuidAt(s.back, New)
    case AwaitRotated => AtRest(s.b) || s.b.MsgRotating?
  }

  /** The primary that sent this hello is still waiting for the plan, or gone; its list has not changed since. */
  ghost predicate HelloCurrent(s: State, h: seq<SnapRef>) {
    h == Refs(s.prim) && (s.p.Idle? || (s.p.AwaitPlan? && s.toP == None))
  }

  ghost predicate GrantOk(c: Config, s: State, base: Guid, grant: Grant) {
    && s.back != []
    && match grant
       case Unneeded => Newest(s.back) == base
       case Automatic => c.rollbackAuto
       case Approved => (base, Newest(s.back)) in s.placed
  }

  predicate SendsInc(p: PrimaryPc, base: Guid) {
    p.Idle? || p.AwaitPlan? || p == Stale(base) || p == Taking(base) || p == Sending(base) || p == AwaitDone(base)
      || p == Failing(base)
  }

  ghost predicate StreamOk(s: State, x: Snap) {
    x.slot == New && x.guid < s.next && x.guid !in Guids(s.back) && OnlyAsNew(s.prim, x.guid)
  }

  ghost predicate BackupInv(c: Config, s: State) {
    match s.b
    case Accepting => s.toB == None
    case Serving => (
      match s.toB
      case Some(Hello(h)) => HelloCurrent(s, h)
      case Some(RotateNow) =>
        (s.p.Idle? || s.p.AwaitRotated?) && Has(s.back, New) && GuidAt(s.prim, N0) == GuidAt(s.back, New)
      case Some(Stream(x, _)) => x.guid < s.next
      case None => true)
    case Planning(h) => HelloCurrent(s, h) && s.toB == None
    case PlanRotating(st, h, slot) =>
      && HelloCurrent(s, h) && s.toB == None && s.partial == None && (slot == New || slot == N0)
      && exists g: Guid :: GuidAt(s.prim, slot) == Some(g) && MidRotation(s.back, st, g)
    case Choosing(h) => HelloCurrent(s, h) && s.toB == None && s.partial == None && NewUnknown(s.prim, s.back)
    case ReceivingInc(base, grant) =>
      && BaseOk(s, base) && NewUnknown(s.prim, s.back) && s.partial == None && GrantOk(c, s, base, grant)
      && SendsInc(s.p, base) && (s.p.AwaitPlan? ==> s.toP == Some(Planned(PlanInc(base))))
      && (s.toB.Some? ==> s.toB.value.Stream? && StreamOk(s, s.toB.value.snap))
    case ReceivingResume(t) => s.partial == Some(t)
      && (s.p.Idle? || s.p == Resuming(t) || s.p == AwaitResumed(t)
          || (s.p.AwaitPlan? && s.toP == Some(Planned(PlanResume(t)))))
      && (s.toB.Some? ==> s.toB.value.Stream? && s.toB.value.snap.slot == New && s.toB.value.snap.guid == t.guid)
    case MsgRotating(st) =>
      && (s.p.Idle? || s.p.AwaitRotated?) && s.toB == None && s.partial == None
      && exists g: Guid :: GuidAt(s.prim, N0) == Some(g) && MidRotation(s.back, st, g)
  }

  ghost predicate Inv(c: Config, s: State) {
    && Basic(s) && PartialOk(s) && Shared(s.prim, s.back) && BackNewOk(s.prim, s.back)
    && PrimaryInv(s) && BackupInv(c, s)
  }

  // ---- steps that touch no snapshot

  lemma EnvironmentSteps(c: Config, s: State, a: Action)
    requires Inv(c, s) && Enabled(c, s, a)
    requires a.Tick? || a.PlaceApproval? || a.CutStream? || a.IgnoreStream? || a.HangUp? || a.BackupDies?
    ensures Inv(c, Do(c, s, a))
  {
    hide Find, Disciplined, Guids, GuidAt, Has, Newest, Destroy, MidRotation, Shared, BackNewOk, HeldOld, OnlyAsNew;
    hide GuidsBelow, Refs;
    match a
    case Tick(_) =>
    case PlaceApproval(_) =>
    case CutStream =>
    case IgnoreStream =>
    case HangUp =>
    case BackupDies =>
  }

  lemma ConnectionSteps(c: Config, s: State, a: Action)
    requires Inv(c, s) && Enabled(c, s, a)
    requires a.Dial? || a.SendHello? || a.SendFails? || a.PrimaryDies? || a.ReadResumed? || a.ReadRotated?
      || a.ReadHello?
    ensures Inv(c, Do(c, s, a))
  {
    hide Find, Disciplined, Guids, GuidAt, Has, Newest, Destroy, MidRotation, Shared, BackNewOk, HeldOld, OnlyAsNew;
    hide GuidsBelow, Refs;
    match a
    case Dial =>
    case SendHello =>
    case SendFails =>
    case PrimaryDies =>
    case ReadResumed =>
    case ReadRotated =>
    case ReadHello =>
  }

  lemma ReadPlanStep(c: Config, s: State)
    requires Inv(c, s) && Enabled(c, s, ReadPlan)
    ensures Inv(c, Do(c, s, ReadPlan))
  {
    hide Find, Disciplined, Guids, GuidsBelow, Shared, BackNewOk, HeldOld, OnlyAsNew, Newest;
    if s.toP.value.plan.PlanRotate? {
      assert MidRotation(s.prim, Evicting, GuidAt(s.prim, New).value);
    }
  }

  // ---- the primary's snapshot steps

  /** Destroying new takes exactly its GUID from the list. */
  lemma WithoutNew(l: Snaps)
    requires Disciplined(l)
    ensures var r := Destroy(l, New);
      && Disciplined(r) && !Has(r, New)
      && (forall s :: s != New ==> GuidAt(r, s) == GuidAt(l, s))
      && (forall g :: g in Guids(r) <==> g in Guids(l) && GuidAt(l, New) != Some(g))
  {
    DestroyFacts(l, New);
  }

  /** The primary's new goes while an older common snapshot stays. */
  lemma StillShared(prim: Snaps, back: Snaps, base: Guid)
    requires Disciplined(prim) && HeldOld(prim, base) && base in Guids(back) && BackNewOk(prim, back)
    ensures var r := Destroy(prim, New);
      && Disciplined(r) && !Has(r, New) && HeldOld(r, base) && Shared(r, back) && BackNewOk(r, back)
      && (NewUnknown(prim, back) ==> NewUnknown(r, back))
      && (forall n :: GuidsBelow(prim, n) ==> GuidsBelow(r, n))
      && (forall g :: OnlyAsNew(prim, g) ==> OnlyAsNew(r, g))
  {
    WithoutNew(prim);
    hide Find, Disciplined, Guids, Destroy;
  }

  lemma DestroyStaleStep(c: Config, s: State)
    requires Inv(c, s) && Enabled(c, s, DestroyStale)
    ensures Inv(c, Do(c, s, DestroyStale))
  {
    hide Find, Disciplined, Guids, GuidAt, Has, Newest, Destroy, MidRotation, Shared, BackNewOk, HeldOld, OnlyAsNew;
    hide GuidsBelow, Refs;
    StillShared(s.prim, s.back, s.p.base);
  }

  lemma DestroyNewStep(c: Config, s: State)
    requires Inv(c, s) && Enabled(c, s, DestroyNew)
    ensures Inv(c, Do(c, s, DestroyNew))
  {
    hide Find, Disciplined, Guids, GuidAt, Has, Newest, Destroy, MidRotation, Shared, BackNewOk, HeldOld, OnlyAsNew;
    hide GuidsBelow, Refs;
    StillShared(s.prim, s.back, s.p.base);
  }

  /** A fresh snapshot on the primary disturbs nothing. */
  lemma FreshTaken(prim: Snaps, back: Snaps, x: Snap, base: Guid)
    requires Disciplined(prim) && !Has(prim, New) && x.slot == New && GuidsBelow(prim, x.guid)
    requires GuidsBelow(back, x.guid)
    requires HeldOld(prim, base) && Shared(prim, back) && NewUnknown(prim, back)
    ensures var r := prim + [x];
      && Disciplined(r) && Has(r, New) && GuidAt(r, New) == Some(x.guid) && x.guid !in Guids(back)
      && HeldOld(r, base) && Shared(r, back) && BackNewOk(r, back) && NewUnknown(r, back)
      && GuidsBelow(r, x.guid + 1) && GuidsBelow(back, x.guid + 1)
      && (forall g :: g < x.guid && OnlyAsNew(prim, g) ==> OnlyAsNew(r, g))
  {
    hide Find, Disciplined, Guids, Destroy;
    BelowMember(prim, x.guid);
    if Has(back, New) {
      GuidAtMember(back, New);
    }
    Appended(prim, x);
  }

  lemma TakeSnapshotStep(c: Config, s: State, created: int)
    requires Inv(c, s) && Enabled(c, s, TakeSnapshot(created))
    ensures Inv(c, Do(c, s, TakeSnapshot(created)))
  {
    hide Find, Disciplined, Guids, GuidAt, Has, Newest, Destroy, MidRotation, Shared, BackNewOk, HeldOld, OnlyAsNew;
    hide GuidsBelow, Refs;
    FreshTaken(s.prim, s.back, Snap(New, s.next, created, false), s.p.base);
  }

  lemma OwnNewSent(prim: Snaps)
    requires Has(prim, New)
    ensures var x := prim[Find(prim, New)].(frozen := false);
      x.slot == New && GuidAt(prim, New) == Some(x.guid) && x.guid in Guids(prim) && OnlyAsNew(prim, x.guid)
  {
    GuidAtMember(prim, New);
  }

  lemma SendStreamStep(c: Config, s: State, complete: bool)
    requires Inv(c, s) && Enabled(c, s, SendStream(complete))
    ensures Inv(c, Do(c, s, SendStream(complete)))
  {
    hide Find, Disciplined, Guids, GuidAt, Has, Newest, Destroy, MidRotation, Shared, BackNewOk, HeldOld, OnlyAsNew;
    hide GuidsBelow, Refs;
    OwnNewSent(s.prim);
    BelowMember(s.prim, s.next);
  }

  lemma BelowMember(l: Snaps, next: Guid)
    ensures GuidsBelow(l, next) ==> forall g :: g in Guids(l) ==> g < next
  {
  }

  lemma SendResumedStep(c: Config, s: State, complete: bool)
    requires Inv(c, s) && Enabled(c, s, SendResumed(complete))
    ensures Inv(c, Do(c, s, SendResumed(complete)))
  {
    hide Find, Disciplined, Guids, GuidAt, Has, Newest, Destroy, MidRotation, Shared, BackNewOk, HeldOld, OnlyAsNew;
    hide GuidsBelow, Refs, Where;
    WhereMember(s.prim, s.p.token.guid);
    BelowMember(s.prim, s.next);
  }

  lemma ReadDoneStep(c: Config, s: State)
    requires Inv(c, s) && Enabled(c, s, ReadDone)
    ensures Inv(c, Do(c, s, ReadDone))
  {
    hide Find, Disciplined, Guids, Newest, Destroy, Shared, BackNewOk, OnlyAsNew, GuidsBelow, Refs;
    assert MidRotation(s.prim, Evicting, GuidAt(s.prim, New).value);
  }

  // ---- rotation on either side

  /** A stage takes a rotation on; the snapshot being promoted never leaves the list. */
  lemma StageMoves(l: Snaps, st: Stage, g: Guid, keep: bool, cal: Calendar)
    requires Disciplined(l) && MidRotation(l, st, g)
    ensures var r := RunStage(l, st, keep, cal);
      && Disciplined(r) && MidRotation(r, NextStage(st), g) && Guids(r) <= Guids(l)
  {
    match st
    case Evicting => EvictFacts(l, keep, cal);
    case Shifting => ShiftFacts(l);
    case Promoting => PromoteFacts(l);
    case Pruning =>
  }

  lemma PruneMoves(l: Snaps, g: Guid, slot: Slot)
    requires Disciplined(l) && MidRotation(l, Pruning, g) && slot.Kept()
    ensures var r := Destroy(l, slot);
      && Disciplined(r) && MidRotation(r, Pruning, g) && Guids(r) <= Guids(l)
  {
    hide Find, Disciplined, Guids, Destroy, Has;
    DestroyFacts(l, slot);
    assert GuidAt(Destroy(l, slot), New) == GuidAt(l, New);
  }

  lemma ExpiredKept(l: Snaps, slot: Slot, ret: Retention, now: int)
    requires Has(l, slot) && Expired(l[Find(l, slot)], ret, now)
    ensures slot.Kept()
  {
  }

  lemma MidMember(l: Snaps, st: Stage, g: Guid)
    requires MidRotation(l, st, g)
    ensures g in Guids(l)
  {
    GuidAtMember(l, if st.Pruning? then N0 else New);
  }

  /** What the primary's rotation keeps, given that the backup holds the snapshot it promotes. */
  lemma OwnMoves(prim: Snaps, r: Snaps, back: Snaps, st: Stage, st': Stage, g: Guid, tell: bool)
    requires MidRotation(prim, st, g) && MidRotation(r, st', g) && Guids(r) <= Guids(prim)
    requires GuidAt(back, if tell then New else N0) == Some(g) && (tell || !Has(back, New))
    requires st.Pruning? ==> st'.Pruning?
    ensures Shared(r, back) && BackNewOk(r, back)
    ensures forall n :: GuidsBelow(prim, n) ==> GuidsBelow(r, n)
    ensures forall h :: h !in Guids(back) && OnlyAsNew(prim, h) ==> OnlyAsNew(r, h)
  {
    MidMember(r, st', g);
    GuidAtMember(back, if tell then New else N0);
    hide Find, Disciplined, Guids, Destroy;
  }

  lemma RunOwnStageStep(c: Config, s: State)
    requires Inv(c, s) && Enabled(c, s, RunOwnStage)
    ensures Inv(c, Do(c, s, RunOwnStage))
  {
    hide Find, Disciplined, Guids, GuidAt, Has, Newest, Destroy, MidRotation, Shared, BackNewOk, HeldOld, OnlyAsNew;
    hide GuidsBelow, Refs, RunStage;
    var st, tell := s.p.stage, s.p.tell;
    var g: Guid :| MidRotation(s.prim, st, g) && GuidAt(s.back, if tell then New else N0) == Some(g);
    var r := RunStage(s.prim, st, c.versions, c.cal);
    StageMoves(s.prim, st, g, c.versions, c.cal);
    OwnMoves(s.prim, r, s.back, st, NextStage(st), g, tell);
  }

  lemma PruneOwnStep(c: Config, s: State, slot: Slot)
    requires Inv(c, s) && Enabled(c, s, PruneOwn(slot))
    ensures Inv(c, Do(c, s, PruneOwn(slot)))
  {
    hide Find, Disciplined, Guids, GuidAt, Has, Newest, Destroy, MidRotation, Shared, BackNewOk, HeldOld, OnlyAsNew;
    hide GuidsBelow, Refs;
    var tell := s.p.tell;
    var g: Guid :| MidRotation(s.prim, Pruning, g) && GuidAt(s.back, if tell then New else N0) == Some(g);
    ExpiredKept(s.prim, slot, c.primaryRet, s.now);
    PruneMoves(s.prim, g, slot);
    OwnMoves(s.prim, Destroy(s.prim, slot), s.back, Pruning, Pruning, g, tell);
  }

  lemma MarkMoves(l: Snaps, g: Guid)
    requires Disciplined(l) && MidRotation(l, Evicting, g)
    ensures Disciplined(Mark(l, New)) && MidRotation(Mark(l, New), Evicting, g) && Guids(Mark(l, New)) <= Guids(l)
  {
    MarkFacts(l, New);
  }

  lemma MarkOwnStep(c: Config, s: State)
    requires Inv(c, s) && Enabled(c, s, MarkOwn)
    ensures Inv(c, Do(c, s, MarkOwn))
  {
    hide Find, Disciplined, Guids, GuidAt, Has, Newest, Destroy, MidRotation, Shared, BackNewOk, HeldOld, OnlyAsNew;
    hide GuidsBelow, Refs, Mark;
    var g: Guid :| MidRotation(s.prim, Evicting, g) && GuidAt(s.back, New) == Some(g);
    MarkMoves(s.prim, g);
    OwnMoves(s.prim, Mark(s.prim, New), s.back, Evicting, Evicting, g, true);
  }

  lemma EndOwnRotationStep(c: Config, s: State)
    requires Inv(c, s) && Enabled(c, s, EndOwnRotation)
    ensures Inv(c, Do(c, s, EndOwnRotation))
  {
    hide Find, Disciplined, Guids, Newest, Destroy, Shared, BackNewOk, OnlyAsNew, GuidsBelow, Refs;
  }

  lemma SendRotateStep(c: Config, s: State)
    requires Inv(c, s) && Enabled(c, s, SendRotate)
    ensures Inv(c, Do(c, s, SendRotate))
  {
    hide Find, Disciplined, Guids, Newest, Destroy, Shared, BackNewOk, OnlyAsNew, GuidsBelow, Refs;
  }

  // ---- the backup's steps

  /** What the backup's rotation keeps, given that the primary holds the snapshot it promotes as new or n0. */
  lemma BackMoves(prim: Snaps, slot: Slot, back: Snaps, r: Snaps, st': Stage, g: Guid)
    requires GuidAt(prim, slot) == Some(g) && (slot == New || slot == N0)
    requires MidRotation(r, st', g) && Guids(r) <= Guids(back)
    ensures Shared(prim, r) && BackNewOk(prim, r)
    ensures forall n :: GuidsBelow(back, n) ==> GuidsBelow(r, n)
  {
    GuidAtMember(prim, slot);
    MidMember(r, st', g);
    hide Find, Disciplined, Guids, Destroy;
  }

  /** The slot under which the primary holds what the backup is rotating. */
  function RotatingSlot(b: BackupPc): Slot { if b.PlanRotating? then b.slot else N0 }

  lemma RunBackStageStep(c: Config, s: State)
    requires Inv(c, s) && Enabled(c, s, RunBackStage)
    ensures Inv(c, Do(c, s, RunBackStage))
  {
    hide Find, Disciplined, Guids, GuidAt, Has, Newest, Destroy, MidRotation, Shared, BackNewOk, HeldOld, OnlyAsNew;
    hide GuidsBelow, Refs, RunStage;
    var st, slot := s.b.stage, RotatingSlot(s.b);
    var g: Guid :| GuidAt(s.prim, slot) == Some(g) && MidRotation(s.back, st, g);
    StageMoves(s.back, st, g, true, c.cal);
    BackMoves(s.prim, slot, s.back, RunStage(s.back, st, true, c.cal), NextStage(st), g);
  }

  lemma PruneBackStep(c: Config, s: State, slot: Slot)
    requires Inv(c, s) && Enabled(c, s, PruneBack(slot))
    ensures Inv(c, Do(c, s, PruneBack(slot)))
  {
    hide Find, Disciplined, Guids, GuidAt, Has, Newest, Destroy, MidRotation, Shared, BackNewOk, HeldOld, OnlyAsNew;
    hide GuidsBelow, Refs;
    var held := RotatingSlot(s.b);
    var g: Guid :| GuidAt(s.prim, held) == Some(g) && MidRotation(s.back, Pruning, g);
    ExpiredKept(s.back, slot, c.backupRet, s.now);
    PruneMoves(s.back, g, slot);
    BackMoves(s.prim, held, s.back, Destroy(s.back, slot), Pruning, g);
  }

  lemma MarkBackStep(c: Config, s: State)
    requires Inv(c, s) && Enabled(c, s, MarkBack)
    ensures Inv(c, Do(c, s, MarkBack))
  {
    hide Find, Disciplined, Guids, GuidAt, Has, Newest, Destroy, MidRotation, Shared, BackNewOk, HeldOld, OnlyAsNew;
    hide GuidsBelow, Refs, Mark;
    var g: Guid :| GuidAt(s.prim, N0) == Some(g) && MidRotation(s.back, Evicting, g);
    MarkMoves(s.back, g);
    BackMoves(s.prim, N0, s.back, Mark(s.back, New), Evicting, g);
  }

  lemma EndBackRotationSteps(c: Config, s: State, a: Action)
    requires Inv(c, s) && Enabled(c, s, a) && (a.EndBackRotation? || a.RotationFails?)
    ensures Inv(c, Do(c, s, a))
  {
    hide Find, Disciplined, Guids, Newest, Destroy, Shared, BackNewOk, OnlyAsNew, GuidsBelow, Refs;
  }

  lemma RotatedIsKnown(prim: Snaps, back: Snaps)
    requires Has(back, New) && GuidAt(prim, N0) == GuidAt(back, New)
    ensures !NewUnknown(prim, back)
  {
    GuidAtMember(prim, N0);
  }

  lemma ReadRotateNowStep(c: Config, s: State)
    requires Inv(c, s) && Enabled(c, s, ReadRotateNow)
    ensures Inv(c, Do(c, s, ReadRotateNow))
  {
    hide Find, Disciplined, Guids, Newest, Destroy, Shared, BackNewOk, OnlyAsNew, GuidsBelow, Refs;
    assert MidRotation(s.back, Evicting, GuidAt(s.back, New).value);
    RotatedIsKnown(s.prim, s.back);
  }

  lemma {:induction false} SlotOfFacts(refs: seq<SnapRef>, g: Guid)
    ensures match SlotOf(refs, g)
            case Some(k) => exists i :: 0 <= i < |refs| && refs[i] == SnapRef(k, g)
            case None => forall i :: 0 <= i < |refs| ==> refs[i].guid != g
  {
    if refs != [] && refs[|refs| - 1].guid != g {
      var rest := refs[..|refs| - 1];
      SlotOfFacts(rest, g);
      if SlotOf(rest, g).Some? {
        var i :| 0 <= i < |rest| && rest[i] == SnapRef(SlotOf(rest, g).value, g);
        assert refs[i] == rest[i];
      } else {
        assert forall i :: 0 <= i < |rest| ==> refs[i] == rest[i];
      }
    }
  }

  /** Looked up in the primary's current hello, a GUID gets the slot it has on the primary. */
  lemma SlotOfCurrent(prim: Snaps, g: Guid)
    requires Disciplined(prim)
    ensures match SlotOf(Refs(prim), g)
            case Some(k) => GuidAt(prim, k) == Some(g)
            case None => g !in Guids(prim)
  {
    SlotOfFacts(Refs(prim), g);
    match SlotOf(Refs(prim), g)
    case Some(k) =>
      var i :| 0 <= i < |prim| && Refs(prim)[i] == SnapRef(k, g);
      HasAt(prim, i);
    case None =>
      forall x | x in prim ensures x.guid != g {
        var i :| 0 <= i < |prim| && prim[i] == x;
        assert Refs(prim)[i].guid == x.guid;
      }
  }

  lemma OneSlot(l: Snaps, a: Slot, b: Slot)
    requires Disciplined(l) && Has(l, a) && GuidAt(l, a) == GuidAt(l, b)
    ensures a == b
  {
    SameGuid(l, l[Find(l, a)], l[Find(l, b)]);
  }

  /** The backup's new that the hello does not list as new or n0 is unknown to the primary. */
  lemma OtherwiseUnknown(prim: Snaps, back: Snaps)
    requires Disciplined(prim) && BackNewOk(prim, back) && Has(back, New)
    requires SlotOf(Refs(prim), GuidAt(back, New).value) != Some(New)
    requires SlotOf(Refs(prim), GuidAt(back, New).value) != Some(N0)
    ensures GuidAt(back, New).value !in Guids(prim)
  {
    var g := GuidAt(back, New).value;
    SlotOfCurrent(prim, g);
    match SlotOf(Refs(prim), g)
    case Some(k) => OneSlot(prim, k, if GuidAt(prim, New) == Some(g) then New else N0);
    case None =>
  }

  lemma UnknownDropped(prim: Snaps, back: Snaps)
    requires Disciplined(back) && Shared(prim, back) && Has(back, New) && GuidAt(back, New).value !in Guids(prim)
    ensures var r := Destroy(back, New);
      && Disciplined(r) && !Has(r, New) && Shared(prim, r) && BackNewOk(prim, r)
      && (forall n :: GuidsBelow(back, n) ==> GuidsBelow(r, n))
  {
    WithoutNew(back);
    hide Find, Disciplined, Guids, Destroy;
  }

  lemma DecideStep(c: Config, s: State)
    requires Inv(c, s) && Enabled(c, s, Decide)
    ensures Inv(c, Do(c, s, Decide))
  {
    hide Find, Disciplined, Guids, Newest, Destroy, Shared, BackNewOk, HeldOld, OnlyAsNew, GuidsBelow, Refs, SlotOf;
    if s.partial == None && Has(s.back, New) {
      var g := GuidAt(s.back, New).value;
      SlotOfCurrent(s.prim, g);
      if SlotOf(s.b.hello, g) == Some(New) || SlotOf(s.b.hello, g) == Some(N0) {
        assert MidRotation(s.back, Evicting, g);
      } else {
        OtherwiseUnknown(s.prim, s.back);
        UnknownDropped(s.prim, s.back);
      }
    }
  }

  /** The base chosen from a current hello is on both sides, and not as the primary's new. */
  lemma ChosenBase(prim: Snaps, back: Snaps)
    requires Disciplined(prim) && CommonBase(Refs(prim), back).Some?
    ensures HeldOld(prim, CommonBase(Refs(prim), back).value) && CommonBase(Refs(prim), back).value in Guids(back)
  {
    var base := CommonBase(Refs(prim), back).value;
    var i :| 0 <= i < |prim| && Refs(prim)[i].guid == base && Refs(prim)[i].slot != New;
    HasAt(prim, i);
    GuidAtMember(prim, prim[i].slot);
    if GuidAt(prim, New) == Some(base) { OneSlot(prim, prim[i].slot, New); }
    WhereMember(back, base);
  }

  lemma ChooseStep(c: Config, s: State)
    requires Inv(c, s) && Enabled(c, s, Choose)
    ensures Inv(c, Do(c, s, Choose))
  {
    hide Find, Disciplined, Guids, GuidAt, Has, Newest, Destroy, MidRotation, Shared, BackNewOk, HeldOld, OnlyAsNew;
    hide GuidsBelow, Refs, CommonBase;
    if CommonBase(s.b.hello, s.back).Some? { ChosenBase(s.prim, s.back); }
  }

  lemma {:induction false} WhereAt(l: Snaps, i: nat)
    requires i < |l| && Disciplined(l)
    ensures Where(l, l[i].guid) == i
  {
    if i > 0 { WhereAt(l[1..], i - 1); }
  }

  lemma PrefixFacts(l: Snaps, k: nat)
    requires Disciplined(l) && k < |l| && l[k].slot != New
    ensures var r := l[..k + 1]; Disciplined(r) && !Has(r, New) && Guids(r) <= Guids(l) && l[k].guid in Guids(r)
  {
    var r := l[..k + 1];
    assert r[k] in r;
    assert forall y :: y in r ==> y in l;
    NotThere(r, New);
  }

  lemma ReceivedResumed(prim: Snaps, back: Snaps, x: Snap)
    requires Disciplined(back) && !Has(back, New) && Shared(prim, back)
    requires x.slot == New && x.guid !in Guids(back) && OnlyAsNew(prim, x.guid)
    ensures var r := back + [x];
      && Disciplined(r) && Shared(prim, r) && BackNewOk(prim, r) && Has(r, New) && GuidAt(r, New) == Some(x.guid)
      && Guids(back) <= Guids(r)
      && (forall n :: GuidsBelow(back, n) && x.guid < n ==> GuidsBelow(r, n))
  {
    hide Find, Disciplined, Guids, Destroy, Has;
    Appended(back, x);
  }

  lemma BaseIsOld(prim: Snaps, back: Snaps, k: nat)
    requires Disciplined(back) && NewUnknown(prim, back) && k < |back| && back[k].guid in Guids(prim)
    ensures back[k].slot != New
  {
    if back[k].slot == New {
      HasAt(back, k);
    }
  }

  lemma NewIsNewest(l: Snaps)
    requires Disciplined(l) && Has(l, New)
    ensures l != [] && GuidAt(l, New) == Some(Newest(l))
  {
    var i := Find(l, New);
    HasAt(l, |l| - 1);
  }

  /** Receiving onto a base: the base and what is older stay, the received snapshot is the new. */
  lemma ReceivedOnto(prim: Snaps, back: Snaps, base: Guid, x: Snap)
    requires Disciplined(back) && NewUnknown(prim, back) && HeldOld(prim, base) && Where(back, base) >= 0
    requires x.slot == New && x.guid !in Guids(back) && OnlyAsNew(prim, x.guid)
    ensures var r := ReceiveOnto(back, Where(back, base), x);
      && Disciplined(r) && base in Guids(r) && Shared(prim, r) && BackNewOk(prim, r)
      && Has(r, New) && GuidAt(r, New) == Some(x.guid)
      && (forall n :: GuidsBelow(back, n) && x.guid < n ==> GuidsBelow(r, n))
  {
    var k := Where(back, base);
    BaseIsOld(prim, back, k);
    PrefixFacts(back, k);
    hide Find, Disciplined, Guids, Has, GuidAt, Where, BackNewOk, OnlyAsNew;
    ReceivedResumed(prim, back[..k + 1], x);
    assert forall n :: GuidsBelow(back, n) ==> GuidsBelow(back[..k + 1], n);
  }

  lemma ReceiveIncStep(c: Config, s: State)
    requires Inv(c, s) && Enabled(c, s, ReceiveIncArrives)
    ensures Inv(c, Do(c, s, ReceiveIncArrives))
  {
    hide Find, Disciplined, Guids, GuidAt, Has, Newest, Destroy, MidRotation, Shared, BackNewOk, HeldOld, OnlyAsNew;
    hide GuidsBelow, Refs, Where, ReceiveOnto;
    ReceivedOnto(s.prim, s.back, s.b.base, s.toB.value.snap);
  }

  lemma ReceiveResumeStep(c: Config, s: State)
    requires Inv(c, s) && Enabled(c, s, ReceiveResumeArrives)
    ensures Inv(c, Do(c, s, ReceiveResumeArrives))
  {
    hide Find, Disciplined, Guids, GuidAt, Has, Newest, Destroy, MidRotation, Shared, BackNewOk, HeldOld, OnlyAsNew;
    hide GuidsBelow, Refs, ReceiveOnto;
    if Has(s.back, New) {
      NewIsNewest(s.back);
    }
    ReceivedResumed(s.prim, s.back, s.toB.value.snap);
  }

  lemma KeepNewStep(c: Config, s: State)
    requires Inv(c, s) && Enabled(c, s, KeepNew)
    ensures Inv(c, Do(c, s, KeepNew))
  {
    hide Find, Disciplined, Guids, Newest, Destroy, Shared, HeldOld, OnlyAsNew, GuidsBelow, Refs, SlotOf, MidRotation;
    OtherwiseUnknown(s.prim, s.back);
  }

  /** The base of an increment is the primary's, so it is not a new that the primary does not know. */
  lemma BaseIsNotNew(prim: Snaps, back: Snaps, base: Guid)
    requires NewUnknown(prim, back) && HeldOld(prim, base)
    ensures GuidAt(back, New) != Some(base)
  {
  }

  lemma ReceiveFailsStep(c: Config, s: State, left: Option<Partial>)
    requires Inv(c, s) && Enabled(c, s, ReceiveFails(left))
    ensures Inv(c, Do(c, s, ReceiveFails(left)))
  {
    hide Find, Disciplined, Guids, GuidAt, Has, Newest, Destroy, MidRotation, Shared, BackNewOk, HeldOld, OnlyAsNew;
    hide GuidsBelow, Refs, NewUnknown;
    if s.b.ReceivingInc? {
      BaseIsNotNew(s.prim, s.back, s.b.base);
    }
  }

  // ---- every step, every run

  lemma StepKeepsInv(c: Config, s: State, a: Action)
    requires Inv(c, s) && Enabled(c, s, a)
    ensures Inv(c, Do(c, s, a))
  {
    hide Inv, Do, Enabled;
    match a
    case Tick(_) => EnvironmentSteps(c, s, a);
    case PlaceApproval(_) => EnvironmentSteps(c, s, a);
    case CutStream => EnvironmentSteps(c, s, a);
    case IgnoreStream => EnvironmentSteps(c, s, a);
    case HangUp => EnvironmentSteps(c, s, a);
    case BackupDies => EnvironmentSteps(c, s, a);
    case Dial => ConnectionSteps(c, s, a);
    case SendHello => ConnectionSteps(c, s, a);
    case SendFails => ConnectionSteps(c, s, a);
    case PrimaryDies => ConnectionSteps(c, s, a);
    case ReadResumed => ConnectionSteps(c, s, a);
    case ReadRotated => ConnectionSteps(c, s, a);
    case ReadHello => ConnectionSteps(c, s, a);
    case ReadPlan => ReadPlanStep(c, s);
    case DestroyStale => DestroyStaleStep(c, s);
    case DestroyNew => DestroyNewStep(c, s);
    case TakeSnapshot(created) => TakeSnapshotStep(c, s, created);
    case SendStream(complete) => SendStreamStep(c, s, complete);
    case SendResumed(complete) => SendResumedStep(c, s, complete);
    case ReadDone => ReadDoneStep(c, s);
    case MarkOwn => MarkOwnStep(c, s);
    case RunOwnStage => RunOwnStageStep(c, s);
    case PruneOwn(slot) => PruneOwnStep(c, s, slot);
    case EndOwnRotation => EndOwnRotationStep(c, s);
    case SendRotate => SendRotateStep(c, s);
    case Decide => DecideStep(c, s);
    case RunBackStage => RunBackStageStep(c, s);
    case PruneBack(slot) => PruneBackStep(c, s, slot);
    case EndBackRotation => EndBackRotationSteps(c, s, a);
    case RotationFails => EndBackRotationSteps(c, s, a);
    case KeepNew => KeepNewStep(c, s);
    case Choose => ChooseStep(c, s);
    case ReceiveIncArrives => ReceiveIncStep(c, s);
    case ReceiveResumeArrives => ReceiveResumeStep(c, s);
    case ReceiveFails(left) => ReceiveFailsStep(c, s, left);
    case ReadRotateNow => ReadRotateNowStep(c, s);
    case MarkBack => MarkBackStep(c, s);
  }

  /** After the first snapshot was confirmed: nobody connected, both sides end in the same n0. */
  ghost predicate Start(s: State) {
    && Disciplined(s.prim) && Disciplined(s.back)
    && !Has(s.prim, New) && !Has(s.back, New) && Has(s.prim, N0) && GuidAt(s.prim, N0) == GuidAt(s.back, N0)
    && GuidsBelow(s.prim, s.next) && GuidsBelow(s.back, s.next)
    && s.partial == None && s.p == Idle && s.b == Accepting && s.toB == None && s.toP == None && s.approve == None
  }

  lemma StartInv(c: Config, s: State)
    requires Start(s)
    ensures Inv(c, s)
  {
    GuidAtMember(s.prim, N0);
    GuidAtMember(s.back, N0);
    hide Find, Disciplined, Guids;
  }

  ghost predicate IsRun(c: Config, run: seq<State>, steps: seq<Action>) {
    && |run| == |steps| + 1
    && forall i :: 0 <= i < |steps| ==> Enabled(c, run[i], steps[i]) && run[i + 1] == Do(c, run[i], steps[i])
  }

  lemma {:induction false} RunKeepsInv(c: Config, run: seq<State>, steps: seq<Action>, i: nat)
    requires IsRun(c, run, steps) && i < |run| && Start(run[0])
    ensures Inv(c, run[i])
  {
    if i == 0 {
      StartInv(c, run[0]);
    } else {
      RunKeepsInv(c, run, steps, i - 1);
      StepKeepsInv(c, run[i - 1], steps[i - 1]);
    }
  }

  /** In every reachable state, whatever died or broke between any two steps: both sides hold a common snapshot,
      a new on the backup is unknown to the primary or is there as new or n0, and both lists keep slot discipline. */
  lemma LanSafety(c: Config, run: seq<State>, steps: seq<Action>, i: nat)
    requires IsRun(c, run, steps) && i < |run| && Start(run[0])
    ensures Shared(run[i].prim, run[i].back)
    ensures BackNewOk(run[i].prim, run[i].back)
    ensures Disciplined(run[i].prim) && Disciplined(run[i].back)
  {
    RunKeepsInv(c, run, steps, i);
  }

  /** From the plan to the confirmation. */
  predicate OnItsWay(p: PrimaryPc) {
    p.Stale? || p.Taking? || p.Sending? || p.AwaitDone? || p.Failing?
  }

  /** A primary that gives a cycle up without dying, after a refusal, a lost stream or a GUID that is not its own, does
      so by destroying its new. */
  lemma GivesUpClean(c: Config, s: State, a: Action)
    requires Inv(c, s) && Enabled(c, s, a) && a != PrimaryDies && OnItsWay(s.p)
    ensures var t := Do(c, s, a);
      && (t.p.Idle? ==> a == DestroyNew && !Has(t.prim, New))
      && (OnItsWay(t.p) || t.p.Idle? || (t.p == Rotating(Evicting, true) && GuidAt(t.prim, New) == GuidAt(t.back, New)))
      && (a.SendFails? || (a.SendStream? && !a.complete) ==> t.p.Failing?)
  {
    hide Find, Disciplined, Guids, GuidAt, Newest, Destroy, MidRotation, Shared, BackNewOk, HeldOld, OnlyAsNew;
    hide GuidsBelow;
    hide Refs, Has, SlotOf, Where, ReceiveOnto, RunStage, Mark, Expired, CommonBase, BackupInv;
    if a == DestroyNew {
      WithoutNew(s.prim);
    }
  }

  // ---- what may disappear from the backup

  /** x stands behind the base on the list, so a receive onto the base destroys it. */
  ghost predicate NewerThan(l: Snaps, base: Guid, x: Snap) {
    Where(l, base) >= 0 && exists i :: Where(l, base) < i < |l| && l[i] == x
  }

  /** The four ways for a backup snapshot to go. */
  ghost predicate Accounted(c: Config, s: State, a: Action, x: Snap)
    requires Enabled(c, s, a)
  {
    || (a.Decide? && x.slot == New && x.guid !in Guids(s.prim))
    || (a.RunBackStage? && s.b.stage.Evicting? && x.slot == N1)
    || (a.PruneBack? && Expired(x, c.backupRet, s.now))
    || (a.ReceiveIncArrives? && NewerThan(s.back, s.b.base, x)
      && (c.rollbackAuto || (s.b.base, Newest(s.back)) in s.placed))
  }

  lemma DestroyedIs(l: Snaps, slot: Slot, x: Snap)
    requires Disciplined(l) && x in l && x.guid !in Guids(Destroy(l, slot))
    ensures Has(l, slot) && x == l[Find(l, slot)]
  {
    DestroyMember(l, slot, x);
    NotThere(l, slot);
    SameGuid(l, x, l[Find(l, slot)]);
  }

  lemma RolledBackIs(l: Snaps, base: Guid, x: Snap, y: Snap)
    requires Disciplined(l) && Where(l, base) >= 0 && x in l && x.guid !in Guids(ReceiveOnto(l, Where(l, base), y))
    ensures NewerThan(l, base, x) && Newest(l) != base
  {
    var k, r := Where(l, base), ReceiveOnto(l, Where(l, base), y);
    assert forall j :: 0 <= j <= k ==> r[j] == l[j] && r[j] in r;
    var i :| 0 <= i < |l| && l[i] == x;
    WhereAt(l, |l| - 1);
  }

  lemma StageLoses(l: Snaps, st: Stage, keep: bool, cal: Calendar, g: Guid, x: Snap)
    requires Disciplined(l) && MidRotation(l, st, g) && x in l && x.guid !in Guids(RunStage(l, st, keep, cal))
    ensures st.Evicting? && x.slot == N1
  {
    match st
    case Evicting => EvictFacts(l, keep, cal);
    case Shifting => ShiftFacts(l);
    case Promoting => PromoteFacts(l);
    case Pruning =>
  }

  lemma DecideLoses(c: Config, s: State, x: Snap)
    requires Inv(c, s) && Enabled(c, s, Decide)
    requires x in s.back && x.guid !in Guids(Do(c, s, Decide).back)
    ensures x.slot == New && x.guid !in Guids(s.prim)
  {
    hide Find, Disciplined, MidRotation, Destroy, SlotOf, Refs, HeldOld, OnlyAsNew, GuidsBelow, BackNewOk, Shared;
    hide NewUnknown, PrimaryInv;
    DestroyedIs(s.back, New, x);
    FoundAt(s.back, New);
    OtherwiseUnknown(s.prim, s.back);
  }

  lemma StageStepLoses(c: Config, s: State, x: Snap)
    requires Inv(c, s) && Enabled(c, s, RunBackStage)
    requires x in s.back && x.guid !in Guids(Do(c, s, RunBackStage).back)
    ensures s.b.stage.Evicting? && x.slot == N1
  {
    hide Find, Disciplined, MidRotation, RunStage, HeldOld, OnlyAsNew, GuidsBelow, BackNewOk, Shared, NewUnknown;
    hide PrimaryInv;
    var g: Guid :| MidRotation(s.back, s.b.stage, g);
    StageLoses(s.back, s.b.stage, true, c.cal, g, x);
  }

  lemma PruneStepLoses(c: Config, s: State, slot: Slot, x: Snap)
    requires Inv(c, s) && Enabled(c, s, PruneBack(slot))
    requires x in s.back && x.guid !in Guids(Do(c, s, PruneBack(slot)).back)
    ensures Expired(x, c.backupRet, s.now)
  {
    hide Find, Disciplined, MidRotation, Destroy, HeldOld, OnlyAsNew, GuidsBelow, BackNewOk, Shared, NewUnknown;
    hide PrimaryInv;
    DestroyedIs(s.back, slot, x);
  }

  lemma ReceiveStepLoses(c: Config, s: State, x: Snap)
    requires Inv(c, s) && Enabled(c, s, ReceiveIncArrives)
    requires x in s.back && x.guid !in Guids(Do(c, s, ReceiveIncArrives).back)
    ensures NewerThan(s.back, s.b.base, x) && (c.rollbackAuto || (s.b.base, Newest(s.back)) in s.placed)
  {
    hide Find, Disciplined, MidRotation, ReceiveOnto, Newest, Where, NewerThan, HeldOld, OnlyAsNew, GuidsBelow;
    hide BackNewOk, Shared, NewUnknown, PrimaryInv;
    RolledBackIs(s.back, s.b.base, x, s.toB.value.snap);
  }

  lemma MarkStepLoses(c: Config, s: State, x: Snap)
    requires Inv(c, s) && Enabled(c, s, MarkBack) && x in s.back
    ensures x.guid in Guids(Do(c, s, MarkBack).back)
  {
    hide Find, Disciplined, PrimaryInv;
    MarkFacts(s.back, New);
  }

  lemma StepLosesAccounted(c: Config, s: State, a: Action, x: Snap)
    requires Inv(c, s) && Enabled(c, s, a)
    requires x in s.back && x.guid !in Guids(Do(c, s, a).back)
    ensures Accounted(c, s, a, x)
  {
    hide Inv, Destroy, RunStage, ReceiveOnto, Newest, SlotOf, Refs, Where, NewerThan, Expired;
    match a
    case Decide => DecideLoses(c, s, x);
    case RunBackStage => StageStepLoses(c, s, x);
    case PruneBack(slot) => PruneStepLoses(c, s, slot, x);
    case ReceiveIncArrives => ReceiveStepLoses(c, s, x);
    case MarkBack => MarkStepLoses(c, s, x);
    case _ =>
  }

  lemma FoundAt(l: Snaps, slot: Slot)
    requires Has(l, slot)
    ensures l[Find(l, slot)].slot == slot && GuidAt(l, slot) == Some(l[Find(l, slot)].guid)
  {
  }

  /** Over any run in ask mode a backup snapshot goes only as a new the primary knows nothing of, as the n1 a
      rotation evicts, out of retention, or behind a base for which the operator placed an approval naming exactly
      that base and the then newest snapshot of the backup. */
  lemma RollbackAccounting(c: Config, run: seq<State>, steps: seq<Action>, i: nat, x: Snap)
    requires IsRun(c, run, steps) && i < |steps| && Start(run[0]) && !c.rollbackAuto
    requires x in run[i].back && x.guid !in Guids(run[i + 1].back)
    ensures var s := run[i];
      || (x.slot == New && x.guid !in Guids(s.prim))
      || x.slot == N1
      || Expired(x, c.backupRet, s.now)
      || (exists base :: NewerThan(s.back, base, x) && (base, Newest(s.back)) in s.placed)
  {
    RunKeepsInv(c, run, steps, i);
    StepLosesAccounted(c, run[i], steps[i], x);
  }

  // ---- the renames of a rotation

  /** Every rename a rotation issues finds its source and a free target, also when it resumes a rotation cut short. */
  lemma RenamesFindTheirTargetFree(c: Config, s: State, a: Action)
    requires Inv(c, s) && Enabled(c, s, a) && (a.RunOwnStage? || a.RunBackStage?)
    ensures var (l, st) := if a.RunOwnStage? then (s.prim, s.p.stage) else (s.back, s.b.stage);
      match st
      case Evicting => true
      case Shifting => !Has(l, N1) && Has(l, New)
      case Promoting => !Has(l, N0) && Has(l, New)
      case Pruning => false
  {
    hide Find, Disciplined, Guids;
  }
}

/** When a LAN cycle gets a plan to send on, in ask mode and as long as the operator has approved nothing. */
module ZfsNetPlans {
  import opened Options
  import opened Snapshots
  import opened SnapshotProofs
  import opened ZfsLocal
  import opened ZfsNet
  import opened ZfsNetProofs

  /** Both sides have the same n0. */
  ghost predicate SameTip(prim: Snaps, back: Snaps) {
    Has(prim, N0) && GuidAt(prim, N0) == GuidAt(back, N0)
  }

  /** How far the two sides can be apart: not at all, a rotation of the backup behind, or, when the backup has rotated
      and the primary has not, a rotation ahead. */
  ghost predicate Tips(prim: Snaps, back: Snaps) {
    || SameTip(prim, back)
    || (Has(back, New) && (GuidAt(prim, New) == GuidAt(back, New) || GuidAt(prim, N0) == GuidAt(back, New)))
    || (!Has(back, New) && Has(back, N0) && GuidAt(prim, New) == GuidAt(back, N0))
  }

  /** An increment is planned, under way or left in part. */
  predicate UnderWay(s: State) {
    || s.partial.Some? || s.b.ReceivingInc?
    || s.p.Stale? || s.p.Taking? || s.p.Sending? || s.p.AwaitDone? || s.p.Failing?
    || (s.p.AwaitPlan? && s.toP.Some? && s.toP.value.Planned? && s.toP.value.plan.PlanInc?)
  }

  ghost predicate Unapproved(s: State) {
    Tips(s.prim, s.back) && (UnderWay(s) ==> SameTip(s.prim, s.back)) && s.placed == {}
  }

  lemma StartUnapproved(s: State)
    requires Start(s) && s.placed == {}
    ensures Unapproved(s)
  {
  }

  // ---- the choice of the base

  lemma LastRef(l: Snaps, back: Snaps)
    requires l != []
    ensures var last := l[|l| - 1];
      CommonBase(Refs(l), back) == if last.slot != New && Where(back, last.guid) >= 0 then Some(last.guid)
                                   else CommonBase(Refs(l[..|l| - 1]), back)
  {
    hide Where;
    assert Refs(l)[..|l| - 1] == Refs(l[..|l| - 1]);
  }

  /** Of the common snapshots, the primary's new apart, the base is the one that stands last in the hello. */
  lemma {:induction false} CommonIsNewest(refs: seq<SnapRef>, back: Snaps, k: nat)
    requires k < |refs| && refs[k].slot != New && refs[k].guid in Guids(back)
    ensures CommonBase(refs, back).Some?
    ensures exists i :: k <= i < |refs| && refs[i].slot != New && refs[i].guid == CommonBase(refs, back).value
  {
    var last := refs[|refs| - 1];
    if last.slot != New && Where(back, last.guid) >= 0 {
      assert refs[|refs| - 1].guid == CommonBase(refs, back).value;
    } else {
      WhereKnown(back, refs[k].guid);
      var front := refs[..|refs| - 1];
      CommonIsNewest(front, back, k);
      var i :| k <= i < |front| && front[i].slot != New && front[i].guid == CommonBase(front, back).value;
      assert refs[i] == front[i];
    }
  }

  lemma TipAtEnd(l: Snaps, back: Snaps)
    requires Disciplined(l) && SameTip(l, back) && l != [] && l[|l| - 1].slot == N0
    ensures CommonBase(Refs(l), back) == GuidAt(l, N0)
  {
    hide CommonBase, Refs, Where;
    LastRef(l, back);
    HasAt(l, |l| - 1);
    GuidAtMember(back, N0);
    WhereKnown(back, l[|l| - 1].guid);
  }

  lemma WhereKnown(l: Snaps, g: Guid)
    requires g in Guids(l)
    ensures Where(l, g) >= 0
  {
  }

  /** With the same n0 the base is that n0, also when the primary has a new. */
  lemma BaseIsTip(prim: Snaps, back: Snaps)
    requires Disciplined(prim) && SameTip(prim, back)
    ensures CommonBase(Refs(prim), back) == GuidAt(prim, N0)
  {
    hide CommonBase, Refs, Where, SameTip, GuidAt, Guids, Find;
    TipHas(prim, back);
    TipIsLast(prim);
    if prim[|prim| - 1].slot == New {
      var front := prim[..|prim| - 1];
      FrontTip(prim, back);
      TipHas(front, back);
      TipIsLast(front);
      FrontHasNoNew(prim);
      LastRef(prim, back);
      TipAtEnd(front, back);
    } else {
      TipAtEnd(prim, back);
    }
  }

  lemma TipHas(prim: Snaps, back: Snaps)
    requires SameTip(prim, back)
    ensures Has(prim, N0)
  {
  }

  lemma FrontHasNoNew(l: Snaps)
    requires Disciplined(l) && l != [] && l[|l| - 1].slot == New
    ensures forall i :: 0 <= i < |l| - 1 ==> l[i].slot != New
  {
  }

  lemma TipIsLast(l: Snaps)
    requires Disciplined(l) && Has(l, N0)
    ensures l != [] && (l[|l| - 1].slot == New || l[|l| - 1].slot == N0)
  {
    var i := Find(l, N0);
    assert Rank(l[i].slot) <= Rank(l[|l| - 1].slot);
    HasAt(l, |l| - 1);
  }

  lemma FrontTip(l: Snaps, back: Snaps)
    requires Disciplined(l) && SameTip(l, back) && l[|l| - 1].slot == New
    ensures Disciplined(l[..|l| - 1]) && SameTip(l[..|l| - 1], back) && GuidAt(l[..|l| - 1], N0) == GuidAt(l, N0)
  {
    var i := Find(l, N0);
    assert l[..|l| - 1][i] == l[i];
    HasAt(l[..|l| - 1], i);
  }

  /** The plan of a cycle that cannot send. */
  predicate NoPlan(m: Option<ToPrimary>) {
    m == Some(Planned(PlanBlocked)) || m == Some(Planned(PlanError))
  }

  /** At the choice: no plan to send on exactly if a stale new is left on the backup or the primary's new is the
      backup's n0; otherwise an increment on the common n0. */
  lemma ChoiceExact(c: Config, s: State)
    requires Inv(c, s) && Unapproved(s) && s.b.Choosing? && !c.rollbackAuto
    ensures NoPlan(DoChoose(c, s).toP) <==> (Has(s.back, New) || GuidAt(s.prim, New) == GuidAt(s.back, N0))
    ensures NoPlan(DoChoose(c, s).toP) || SameTip(s.prim, s.back)
  {
    hide Find, Disciplined, Guids, GuidAt, Has, MidRotation, Shared, BackNewOk, HeldOld, OnlyAsNew, GuidsBelow, Refs;
    hide CommonBase, PrimaryInv, Newest;
    if Has(s.back, New) {
      StaleIsNewest(s.prim, s.back);
    } else if SameTip(s.prim, s.back) {
      SameTipFits(s.prim, s.back);
    } else {
      AheadBlocks(s.prim, s.back);
    }
  }

  lemma StaleIsNewest(prim: Snaps, back: Snaps)
    requires Disciplined(prim) && Disciplined(back) && Has(back, New) && NewUnknown(prim, back)
    ensures back != [] && CommonBase(Refs(prim), back) != Some(Newest(back))
  {
    NewIsNewest(back);
    if CommonBase(Refs(prim), back).Some? {
      ChosenBase(prim, back);
    }
  }

  lemma SameTipFits(prim: Snaps, back: Snaps)
    requires Disciplined(prim) && Disciplined(back) && !Has(back, New) && SameTip(prim, back)
    ensures back != [] && CommonBase(Refs(prim), back) == Some(Newest(back)) == GuidAt(prim, N0)
    ensures GuidAt(prim, New) != GuidAt(back, N0)
  {
    GuidAtMember(prim, N0);
    GuidAtMember(back, N0);
    NewestIsN0(back);
    BaseIsTip(prim, back);
    if GuidAt(prim, New) == GuidAt(prim, N0) {
      OneSlot(prim, N0, New);
    }
  }

  lemma AheadBlocks(prim: Snaps, back: Snaps)
    requires Disciplined(prim) && Disciplined(back) && !Has(back, New) && Has(back, N0)
    requires GuidAt(prim, New) == GuidAt(back, N0)
    ensures back != [] && CommonBase(Refs(prim), back) != Some(Newest(back))
  {
    NewestIsN0(back);
    if CommonBase(Refs(prim), back).Some? {
      ChosenBase(prim, back);
    }
  }

  // ---- every step

  /** Steps that leave the two lists alone and start nothing. */
  predicate Plain(a: Action) {
    match a
    case PlaceApproval(_) => false
    case SendHello => false
    case DestroyStale => false
    case DestroyNew => false
    case TakeSnapshot(_) => false
    case MarkOwn => false
    case RunOwnStage => false
    case PruneOwn(_) => false
    case Decide => false
    case RunBackStage => false
    case PruneBack(_) => false
    case MarkBack => false
    case Choose => false
    case ReceiveIncArrives => false
    case ReceiveResumeArrives => false
    case _ => true
  }

  lemma PlainStep(c: Config, s: State, a: Action)
    requires Inv(c, s) && Unapproved(s) && Enabled(c, s, a) && Plain(a)
    ensures Unapproved(Do(c, s, a))
  {
    hide Find, Disciplined, Guids, GuidAt, Has, MidRotation, Shared, BackNewOk, HeldOld, OnlyAsNew, GuidsBelow, Refs;
    hide SlotOf, Newest, Where, PrimaryInv, Tips, SameTip, NewUnknown;
  }

  lemma HelloTips(c: Config, s: State)
    requires Inv(c, s) && Unapproved(s) && Enabled(c, s, SendHello)
    ensures Unapproved(Do(c, s, SendHello))
  {
    hide Find, Disciplined, Guids, GuidAt, Has, MidRotation, Shared, BackNewOk, HeldOld, OnlyAsNew, GuidsBelow, Refs;
    hide BackupInv, Tips, SameTip, NewUnknown;
  }

  lemma KeptTip(prim: Snaps, back: Snaps, prim': Snaps, back': Snaps)
    requires SameTip(prim, back) && GuidAt(prim', N0) == GuidAt(prim, N0) && GuidAt(back', N0) == GuidAt(back, N0)
    ensures SameTip(prim', back') && Tips(prim', back')
  {
  }

  lemma DestroySteps(c: Config, s: State, a: Action)
    requires Inv(c, s) && Unapproved(s) && Enabled(c, s, a) && (a.DestroyStale? || a.DestroyNew?)
    ensures Unapproved(Do(c, s, a))
  {
    hide Find, Guids, GuidAt, Has, MidRotation, Shared, BackNewOk, HeldOld, OnlyAsNew, GuidsBelow, Newest, PrimaryInv;
    hide BackupInv, Tips, SameTip, NewUnknown, Destroy;
    WithoutNew(s.prim);
    KeptTip(s.prim, s.back, Destroy(s.prim, New), s.back);
  }

  lemma TakeStep(c: Config, s: State, created: int)
    requires Inv(c, s) && Unapproved(s) && Enabled(c, s, TakeSnapshot(created))
    ensures Unapproved(Do(c, s, TakeSnapshot(created)))
  {
    hide Find, Guids, GuidAt, Has, MidRotation, Shared, BackNewOk, HeldOld, OnlyAsNew, Newest, PrimaryInv, BackupInv;
    hide Tips, SameTip, NewUnknown;
    var x := Snap(New, s.next, created, false);
    BelowMember(s.prim, s.next);
    Appended(s.prim, x);
    KeptTip(s.prim, s.back, s.prim + [x], s.back);
  }

  /** A new that the primary does not know leaves no other way for the tips than to agree. */
  lemma UnknownMeansSame(prim: Snaps, back: Snaps)
    requires Tips(prim, back) && Has(back, New) && NewUnknown(prim, back)
    ensures SameTip(prim, back)
  {
    if GuidAt(prim, New) == GuidAt(back, New) {
      GuidAtMember(prim, New);
    }
    if GuidAt(prim, N0) == GuidAt(back, New) {
      GuidAtMember(prim, N0);
    }
  }

  lemma DecideTips(c: Config, s: State)
    requires Inv(c, s) && Unapproved(s) && Enabled(c, s, Decide)
    ensures Unapproved(Do(c, s, Decide))
  {
    hide Find, Disciplined, Guids, GuidAt, Has, MidRotation, Shared, BackNewOk, HeldOld, OnlyAsNew, GuidsBelow, Refs;
    hide SlotOf, Newest, PrimaryInv, Tips, SameTip, NewUnknown, Destroy;
    if s.partial == None && Has(s.back, New) && Do(c, s, Decide).back != s.back {
      OtherwiseUnknown(s.prim, s.back);
      UnknownFrom(s.prim, s.back);
      UnknownMeansSame(s.prim, s.back);
      WithoutNew(s.back);
      KeptTip(s.prim, s.back, s.prim, Destroy(s.back, New));
    }
  }

  lemma UnknownFrom(prim: Snaps, back: Snaps)
    requires Has(back, New) && GuidAt(back, New).value !in Guids(prim)
    ensures NewUnknown(prim, back)
  {
  }

  lemma ChooseTips(c: Config, s: State)
    requires Inv(c, s) && Unapproved(s) && Enabled(c, s, Choose) && !c.rollbackAuto
    ensures Unapproved(Do(c, s, Choose))
  {
    hide Find, Disciplined, Guids, GuidAt, Has, MidRotation, Shared, BackNewOk, HeldOld, OnlyAsNew, GuidsBelow, Refs;
    hide CommonBase, Newest, PrimaryInv, Tips, SameTip, NewUnknown;
    ChoiceExact(c, s);
  }

  lemma ReceiveTips(c: Config, s: State)
    requires Inv(c, s) && Unapproved(s) && Enabled(c, s, ReceiveIncArrives) && !c.rollbackAuto
    ensures Unapproved(Do(c, s, ReceiveIncArrives))
  {
    hide Find, Guids, GuidAt, Has, MidRotation, Shared, BackNewOk, HeldOld, OnlyAsNew, GuidsBelow, Newest, PrimaryInv;
    hide Tips, SameTip, NewUnknown, Where, ReceiveOnto;
    var x := s.toB.value.snap;
    UnneededGrant(c, s);
    OnNewest(s.prim, s.back, x);
    KeptTip(s.prim, s.back, s.prim, s.back + [x]);
  }

  lemma UnneededGrant(c: Config, s: State)
    requires Inv(c, s) && Unapproved(s) && s.b.ReceivingInc? && !c.rollbackAuto
    ensures s.back != [] && Newest(s.back) == s.b.base && HeldOld(s.prim, s.b.base)
  {
    hide Find, Disciplined, Guids, GuidAt, Has, MidRotation, Shared, BackNewOk, OnlyAsNew, GuidsBelow, PrimaryInv, Tips;
    hide SameTip, NewUnknown, HeldOld;
  }

  lemma OnNewest(prim: Snaps, back: Snaps, x: Snap)
    requires Disciplined(back) && back != [] && NewUnknown(prim, back) && HeldOld(prim, Newest(back))
    requires x.slot == New && x.guid !in Guids(back)
    ensures ReceiveOnto(back, Where(back, Newest(back)), x) == back + [x] && GuidAt(back + [x], N0) == GuidAt(back, N0)
  {
    if Has(back, New) {
      NewIsNewest(back);
      BaseIsNotNew(prim, back, Newest(back));
    }
    WhereNewest(back);
    ReceivedOnNewest(back, x);
    Appended(back, x);
  }

  lemma ResumeTips(c: Config, s: State)
    requires Inv(c, s) && Unapproved(s) && Enabled(c, s, ReceiveResumeArrives)
    ensures Unapproved(Do(c, s, ReceiveResumeArrives))
  {
    hide Find, Guids, GuidAt, Has, MidRotation, Shared, BackNewOk, HeldOld, OnlyAsNew, GuidsBelow, Newest, PrimaryInv;
    hide Tips, SameTip, NewUnknown;
    var x := s.toB.value.snap;
    if Has(s.back, New) {
      NewIsNewest(s.back);
    }
    Appended(s.back, x);
    KeptTip(s.prim, s.back, s.prim, s.back + [x]);
  }

  // ---- rotations

  /** In a rotation of the primary the tips follow from where it stands, and no partial receive is left. */
  lemma OwnRotationTips(c: Config, s: State)
    requires Inv(c, s) && s.p.Rotating?
    ensures Tips(s.prim, s.back)
    ensures s.partial.Some? && SameTip(s.prim, s.back) ==> s.p.stage == Pruning && !s.p.tell
    ensures s.partial.Some? && s.p.stage == Pruning && !s.p.tell ==> SameTip(s.prim, s.back)
  {
    hide Find, Disciplined, Guids, Shared, BackNewOk, HeldOld, OnlyAsNew, GuidsBelow, BackupInv;
    var g: Guid :| MidRotation(s.prim, s.p.stage, g) && GuidAt(s.back, if s.p.tell then New else N0) == Some(g);
    if s.p.tell {
      KnownIsNotUnknown(s.prim, s.back, if s.p.stage == Pruning then N0 else New);
    } else if s.p.stage != Pruning {
      TwoSlots(s.prim, New, N0);
    }
  }

  lemma KnownIsNotUnknown(prim: Snaps, back: Snaps, slot: Slot)
    requires Has(back, New) && GuidAt(prim, slot) == GuidAt(back, New)
    ensures !NewUnknown(prim, back)
  {
    GuidAtMember(prim, slot);
  }

  lemma TwoSlots(l: Snaps, a: Slot, b: Slot)
    requires Disciplined(l) && a != b && Has(l, a)
    ensures GuidAt(l, a) != GuidAt(l, b)
  {
    if GuidAt(l, a) == GuidAt(l, b) {
      OneSlot(l, a, b);
    }
  }

  lemma OwnRotationSteps(c: Config, s: State, a: Action)
    requires Inv(c, s) && Unapproved(s) && Enabled(c, s, a) && (a.MarkOwn? || a.RunOwnStage? || a.PruneOwn?)
    ensures Unapproved(Do(c, s, a))
  {
    hide Find, Disciplined, Guids, GuidAt, Has, MidRotation, Shared, BackNewOk, HeldOld, OnlyAsNew, GuidsBelow;
    hide PrimaryInv, BackupInv, Tips, SameTip, NewUnknown, Evict, ShiftN0, Promote, RunStage, Destroy, Mark, Expired;
    hide Inv;
    StepKeepsInv(c, s, a);
    OwnRotationTips(c, s);
    OwnRotationTips(c, Do(c, s, a));
    NoReceiveInRotation(c, s);
  }

  lemma NoReceiveInRotation(c: Config, s: State)
    requires Inv(c, s) && s.p.Rotating?
    ensures AtRest(s.b)
  {
    hide Find, Disciplined, Guids, GuidAt, Has, MidRotation, Shared, BackNewOk, HeldOld, OnlyAsNew, GuidsBelow;
    hide BackupInv;
  }

  lemma BackRotationTips(c: Config, s: State)
    requires Inv(c, s) && (s.b.PlanRotating? || s.b.MsgRotating?)
    ensures Tips(s.prim, s.back) && !UnderWay(s)
  {
    hide Find, Disciplined, Guids, Shared, BackNewOk, HeldOld, OnlyAsNew, GuidsBelow, PrimaryInv;
    var slot := RotatingSlot(s.b);
    var stage := s.b.stage;
    var g: Guid :| GuidAt(s.prim, slot) == Some(g) && MidRotation(s.back, stage, g);
  }

  lemma BackRotationSteps(c: Config, s: State, a: Action)
    requires Inv(c, s) && Unapproved(s) && Enabled(c, s, a) && (a.MarkBack? || a.RunBackStage? || a.PruneBack?)
    ensures Unapproved(Do(c, s, a))
  {
    hide Find, Disciplined, Guids, GuidAt, Has, MidRotation, Shared, BackNewOk, HeldOld, OnlyAsNew, GuidsBelow;
    hide PrimaryInv, BackupInv, Tips, SameTip, NewUnknown, Evict, ShiftN0, Promote, RunStage, Destroy, Mark, Expired;
    hide Inv;
    StepKeepsInv(c, s, a);
    BackRotationTips(c, Do(c, s, a));
  }

  lemma StepKeepsUnapproved(c: Config, s: State, a: Action)
    requires Inv(c, s) && Unapproved(s) && Enabled(c, s, a) && !c.rollbackAuto && !a.PlaceApproval?
    ensures Unapproved(Do(c, s, a))
  {
    hide Inv, Do, Enabled, Unapproved;
    match a
    case SendHello => HelloTips(c, s);
    case DestroyStale => DestroySteps(c, s, a);
    case DestroyNew => DestroySteps(c, s, a);
    case TakeSnapshot(created) => TakeStep(c, s, created);
    case MarkOwn => OwnRotationSteps(c, s, a);
    case RunOwnStage => OwnRotationSteps(c, s, a);
    case PruneOwn(_) => OwnRotationSteps(c, s, a);
    case Decide => DecideTips(c, s);
    case RunBackStage => BackRotationSteps(c, s, a);
    case PruneBack(_) => BackRotationSteps(c, s, a);
    case MarkBack => BackRotationSteps(c, s, a);
    case Choose => ChooseTips(c, s);
    case ReceiveIncArrives => ReceiveTips(c, s);
    case ReceiveResumeArrives => ResumeTips(c, s);
    case _ => PlainStep(c, s, a);
  }

  lemma {:induction false} RunKeepsUnapproved(c: Config, run: seq<State>, steps: seq<Action>, i: nat)
    requires IsRun(c, run, steps) && i < |run| && Start(run[0]) && run[0].placed == {} && !c.rollbackAuto
    requires forall k :: 0 <= k < i ==> !steps[k].PlaceApproval?
    ensures Unapproved(run[i])
  {
    if i == 0 {
      StartUnapproved(run[0]);
    } else {
      RunKeepsUnapproved(c, run, steps, i - 1);
      RunKeepsInv(c, run, steps, i - 1);
      StepKeepsUnapproved(c, run[i - 1], steps[i - 1]);
    }
  }

  /** Over any run in ask mode without an approval, with crashes and lost connections anywhere: the backup's plan is to
      send nothing exactly if a stale new could not be destroyed or the primary's new is what the backup already has as
      n0, which is what a lost rotate plan leaves. */
  lemma BlockedExactly(c: Config, run: seq<State>, steps: seq<Action>, i: nat)
    requires IsRun(c, run, steps) && i < |steps| && Start(run[0]) && run[0].placed == {} && !c.rollbackAuto
    requires steps[i] == Choose && forall k :: 0 <= k < i ==> !steps[k].PlaceApproval?
    ensures NoPlan(run[i + 1].toP)
      <==> (Has(run[i].back, New) || GuidAt(run[i].prim, New) == GuidAt(run[i].back, N0))
  {
    RunKeepsInv(c, run, steps, i);
    RunKeepsUnapproved(c, run, steps, i);
    assert run[i + 1] == Do(c, run[i], Choose) && Enabled(c, run[i], Choose);
    ChoiceExact(c, run[i]);
  }

  ghost predicate NoStale(s: State) {
    s.b.Choosing? ==> !Has(s.back, New)
  }

  lemma DecideLeavesNoStale(c: Config, s: State)
    requires Inv(c, s) && Enabled(c, s, Decide)
    ensures NoStale(Do(c, s, Decide))
  {
    hide Find, Disciplined, Guids, GuidAt, Has, Shared, BackNewOk, HeldOld, OnlyAsNew, GuidsBelow, PrimaryInv;
    hide BackupInv, NewUnknown, Destroy, SlotOf;
    WithoutNew(s.back);
  }

  lemma RotationLeavesNoStale(c: Config, s: State)
    requires Inv(c, s) && Enabled(c, s, EndBackRotation)
    ensures NoStale(Do(c, s, EndBackRotation))
  {
    hide Find, Disciplined, Guids, GuidAt, Has, Shared, BackNewOk, HeldOld, OnlyAsNew, GuidsBelow, PrimaryInv;
    hide NewUnknown;
  }

  /** The other steps neither come to a choice nor change the backup during one. */
  lemma OtherLeavesNoStale(c: Config, s: State, a: Action)
    requires NoStale(s) && Enabled(c, s, a) && a != KeepNew && !a.Decide? && !a.EndBackRotation?
    ensures NoStale(Do(c, s, a))
  {
    hide Find, Has, Destroy, SlotOf, Refs, Where, Expired, RunStage, Mark, CommonBase, Newest, GuidAt, ReceiveOnto;
  }

  lemma StepKeepsNoStale(c: Config, s: State, a: Action)
    requires Inv(c, s) && NoStale(s) && Enabled(c, s, a) && a != KeepNew
    ensures NoStale(Do(c, s, a))
  {
    hide Inv, Do, Enabled, NoStale;
    if a.Decide? {
      DecideLeavesNoStale(c, s);
    } else if a.EndBackRotation? {
      RotationLeavesNoStale(c, s);
    } else {
      OtherLeavesNoStale(c, s, a);
    }
  }

  lemma {:induction false} RunKeepsNoStale(c: Config, run: seq<State>, steps: seq<Action>, i: nat)
    requires IsRun(c, run, steps) && i < |run| && Start(run[0]) && forall k :: 0 <= k < i ==> steps[k] != KeepNew
    ensures NoStale(run[i])
  {
    if i > 0 {
      RunKeepsNoStale(c, run, steps, i - 1);
      RunKeepsInv(c, run, steps, i - 1);
      StepKeepsNoStale(c, run[i - 1], steps[i - 1]);
    }
  }

  /** Where no destroy of a stale new has failed, only a lost plan can keep a cycle from sending. */
  lemma BlockedOnlyByLostPlan(c: Config, run: seq<State>, steps: seq<Action>, i: nat)
    requires IsRun(c, run, steps) && i < |steps| && Start(run[0]) && run[0].placed == {} && !c.rollbackAuto
    requires steps[i] == Choose && forall k :: 0 <= k < i ==> !steps[k].PlaceApproval? && steps[k] != KeepNew
    ensures NoPlan(run[i + 1].toP) <==> GuidAt(run[i].prim, New) == GuidAt(run[i].back, N0)
  {
    hide Inv, Do, NoPlan;
    BlockedExactly(c, run, steps, i);
    RunKeepsNoStale(c, run, steps, i);
    assert Enabled(c, run[i], Choose);
  }
}

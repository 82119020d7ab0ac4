/** From which states at rest a LAN pair gets back in step by itself. */
module ZfsNetRecovery {
  import opened Options
  import opened Snapshots
  import opened SnapshotProofs
  import opened ZfsNet
  import opened ZfsNetProofs
  import opened ZfsNetPlans
  import opened ZfsNetCycle
  import opened ZfsNetResume

  // ---- an interrupted receive still fits

  /** What was left in part builds on the newest snapshot of the backup. */
  ghost predicate ResumeReady(s: State) {
    s.partial.Some? ==> s.back != [] && Newest(s.back) == s.partial.value.base
  }

  /** As long as a part is left, the backup's list does not change. */
  lemma OthersKeepReady(c: Config, s: State, a: Action)
    requires BackupInv(c, s) && ResumeReady(s) && Enabled(c, s, a) && !a.ReceiveFails?
    ensures ResumeReady(Do(c, s, a))
  {
    hide Find, Guids, GuidAt, Has, MidRotation, HeldOld, OnlyAsNew, Refs, SlotOf, Newest, Destroy, NewUnknown, Where;
    hide ReceiveOnto, RunStage, Mark, Expired, CommonBase;
  }

  lemma FailureKeepsReady(c: Config, s: State, left: Option<Partial>)
    requires Inv(c, s) && Unapproved(s) && ResumeReady(s) && Enabled(c, s, ReceiveFails(left)) && !c.rollbackAuto
    ensures ResumeReady(Do(c, s, ReceiveFails(left)))
  {
    if s.b.ReceivingInc? {
      UnneededGrant(c, s);
    }
    hide Find, Disciplined, Guids, GuidAt, Has, Shared, BackNewOk, OnlyAsNew, GuidsBelow, NewUnknown, PrimaryInv;
    hide Unapproved;
  }

  lemma StepKeepsReady(c: Config, s: State, a: Action)
    requires Inv(c, s) && Unapproved(s) && ResumeReady(s) && Enabled(c, s, a) && !c.rollbackAuto
    ensures ResumeReady(Do(c, s, a))
  {
    hide Enabled, Do, BackupInv, Unapproved, ResumeReady;
    if a.ReceiveFails? {
      FailureKeepsReady(c, s, a.left);
    } else {
      OthersKeepReady(c, s, a);
    }
  }

  lemma {:induction false} RunKeepsReady(c: Config, run: seq<State>, steps: seq<Action>, i: nat)
    requires IsRun(c, run, steps) && i < |run| && Start(run[0]) && run[0].placed == {} && !c.rollbackAuto
    requires forall k :: 0 <= k < i ==> !steps[k].PlaceApproval?
    ensures ResumeReady(run[i])
  {
    hide Inv, Enabled, Do, Unapproved;
    if i > 0 {
      RunKeepsReady(c, run, steps, i - 1);
      RunKeepsInv(c, run, steps, i - 1);
      RunKeepsUnapproved(c, run, steps, i - 1);
      StepKeepsReady(c, run[i - 1], steps[i - 1]);
    }
  }

  // ---- runs in which nothing goes wrong

  /** A death, a failing command, a lost connection, or the operator. */
  predicate Disturbs(a: Action) {
    match a
    case PlaceApproval(_) => true
    case CutStream => true
    case SendStream(complete) => !complete
    case SendFails => true
    case SendResumed(complete) => !complete
    case PrimaryDies => true
    case KeepNew => true
    case RotationFails => true
    case ReceiveFails(_) => true
    case IgnoreStream => true
    case BackupDies => true
    case _ => false
  }

  predicate Calm(steps: seq<Action>) {
    forall i :: 0 <= i < |steps| ==> !Disturbs(steps[i])
  }

  ghost predicate CanSettle(c: Config, s: State) {
    exists steps, t :: Calm(steps) && Leads(c, s, steps, t) && Start(t)
  }

  lemma CycleIsCalm(created: int)
    ensures Calm(CYCLE(created)) && Calm(ROUND(created)) && Calm(ASK) && Calm(STAGES) && Calm(OWN_STAGES)
  {
    assert Calm(PLAN);
    assert Calm(SHIP(created));
    assert Calm(OWN_HALF);
    assert Calm(BACK_HALF);
  }

  // ---- a backup that has yet to rotate

  /** The backup has rotated what the primary has as new, and the primary follows. */
  const CATCH_UP: seq<Action> :=
    ASK + [Decide] + STAGES + [EndBackRotation] + [ReadPlan] + OWN_STAGES + [EndOwnRotation] + [HangUp]

  lemma HearPlan(c: Config, s: State, h: seq<SnapRef>)
    requires s.p == AwaitPlan && s.b == PlanRotating(Pruning, h, New)
    ensures var t := s.(b := Serving, toP := Some(Planned(PlanRotate)));
      Takes(c, s, EndBackRotation, t)
        && Takes(c, t, ReadPlan, s.(b := Serving, toP := None, p := Rotating(Evicting, false)))
  {
  }

  lemma EndOwn(c: Config, s: State)
    requires s.p == Rotating(Pruning, false) && s.b == Serving
    ensures Takes(c, s, EndOwnRotation, s.(p := Idle))
    ensures Takes(c, s.(p := Idle), HangUp, s.(p := Idle, b := Accepting, toB := None))
  {
  }

  /** The backup has read the hello and rotates. */
  lemma AskedAndRotated(c: Config, s: State, slot: Slot)
    requires s.p == Idle && s.b == Accepting && s.partial == None && Disciplined(s.prim) && Disciplined(s.back)
    requires Has(s.back, New) && GuidAt(s.prim, slot) == GuidAt(s.back, New) && (slot == New || slot == N0)
    ensures Leads(c, s, ASK + [Decide] + STAGES,
                  s.(back := Rotated(s.back, true, c.cal), p := AwaitPlan, toB := None, toP := None,
                     b := PlanRotating(Pruning, Refs(s.prim), slot)))
  {
    OwnSlot(s.prim, slot);
    hide Leads, Takes, Has, GuidAt, SlotOf, Refs, Rotated, ASK, STAGES, Disciplined;
    Asked(c, s);
    var s1 := s.(p := AwaitPlan, b := Planning(Refs(s.prim)), toB := None, toP := None);
    DecideRotates(c, s1, slot);
    var s2 := s1.(b := PlanRotating(Evicting, Refs(s.prim), slot));
    LeadsThen(c, s, ASK, s1, Decide, s2);
    BackStages(c, s2);
    LeadsOn(c, s, ASK + [Decide], s2, STAGES,
            s2.(back := Rotated(s.back, true, c.cal), b := PlanRotating(Pruning, Refs(s.prim), slot)));
  }

  /** What is new on both sides becomes n0 on both, and of the backup's snapshots at most the old n1 goes. */
  lemma CaughtUp(c: Config, s: State) returns (t: State)
    requires Inv(c, s) && s.p == Idle && s.b == Accepting && s.partial == None && s.approve == None
    requires Has(s.back, New) && GuidAt(s.prim, New) == GuidAt(s.back, New)
    ensures Leads(c, s, CATCH_UP, t) && Start(t) && GuidAt(t.prim, N0) == GuidAt(s.prim, New)
    ensures forall x :: x in s.back && x.guid !in Guids(t.back) ==> x.slot == N1
  {
    BothHave(s.prim, s.back);
    RotatedFacts(s.prim, c.versions, c.cal);
    RotatedFacts(s.back, true, c.cal);
    hide Leads, Takes, Find, Has, GuidAt, Refs, Rotated, ASK, STAGES, OWN_STAGES, Disciplined, Guids, Start, Shared;
    hide BackNewOk;
    hide SameTip, PrimaryInv, BackupInv, GuidsBelow;
    AskedAndRotated(c, s, New);
    var h := Refs(s.prim);
    var s1 := s.(back := Rotated(s.back, true, c.cal), p := AwaitPlan, b := PlanRotating(Pruning, h, New), toB := None,
      toP := None);
    HearPlan(c, s1, h);
    LeadsThen(c, s, ASK + [Decide] + STAGES, s1, EndBackRotation, s1.(b := Serving, toP := Some(Planned(PlanRotate))));
    var s2 := s1.(b := Serving, toP := None, p := Rotating(Evicting, false));
    LeadsThen(c, s, ASK + [Decide] + STAGES + [EndBackRotation], s1.(b := Serving, toP := Some(Planned(PlanRotate))),
      ReadPlan, s2);
    OwnStages(c, s2, false);
    var s3 := s2.(prim := Rotated(s.prim, c.versions, c.cal), p := Rotating(Pruning, false));
    LeadsOn(c, s, ASK + [Decide] + STAGES + [EndBackRotation] + [ReadPlan], s2, OWN_STAGES, s3);
    EndOwn(c, s3);
    LeadsThen(c, s, ASK + [Decide] + STAGES + [EndBackRotation] + [ReadPlan] + OWN_STAGES, s3, EndOwnRotation,
      s3.(p := Idle));
    t := s3.(p := Idle, b := Accepting);
    LeadsThen(c, s, ASK + [Decide] + STAGES + [EndBackRotation] + [ReadPlan] + OWN_STAGES + [EndOwnRotation],
      s3.(p := Idle), HangUp, t);
    LeadsInv(c, s, CATCH_UP, t);
    SameTipFrom(t.prim, t.back);
    StartAgain(c, t);
  }

  lemma BothHave(prim: Snaps, back: Snaps)
    requires Has(back, New) && GuidAt(prim, New) == GuidAt(back, New)
    ensures Has(prim, New) && GuidAt(prim, New).Some?
  {
  }

  lemma SameTipFrom(prim: Snaps, back: Snaps)
    requires GuidAt(prim, N0).Some? && GuidAt(prim, N0) == GuidAt(back, N0)
    ensures SameTip(prim, back)
  {
  }

  function ROTATE_FIRST(created: int): seq<Action> {
    ASK + [Decide] + STAGES + [EndBackRotation] + ROUND(created)
  }

  lemma EndAtChoice(c: Config, s: State, h: seq<SnapRef>)
    requires s.b == PlanRotating(Pruning, h, N0)
    ensures Takes(c, s, EndBackRotation, s.(b := Choosing(h)))
  {
  }

  /** The primary has rotated already: the backup follows, and the cycle goes on to send. */
  lemma RotatedFirst(c: Config, s: State, created: int) returns (t: State)
    requires Inv(c, s) && s.p == Idle && s.b == Accepting && s.partial == None
    requires Has(s.back, New) && GuidAt(s.prim, N0) == GuidAt(s.back, New)
    ensures Leads(c, s, ROTATE_FIRST(created), t) && Start(t) && GuidAt(t.prim, N0) == Some(s.next)
  {
    RotatedFacts(s.back, true, c.cal);
    NewIsSome(s.back);
    hide Leads, Takes, Find, Has, GuidAt, Refs, Rotated, ASK, STAGES, Disciplined, Guids, Start, Shared, BackNewOk;
    hide ROUND;
    hide SameTip, PrimaryInv, BackupInv, GuidsBelow;
    AskedAndRotated(c, s, N0);
    var h := Refs(s.prim);
    var s1 := s.(back := Rotated(s.back, true, c.cal), p := AwaitPlan, b := PlanRotating(Pruning, h, N0), toB := None,
      toP := None);
    EndAtChoice(c, s1, h);
    var s2 := s1.(b := Choosing(h));
    LeadsThen(c, s, ASK + [Decide] + STAGES, s1, EndBackRotation, s2);
    LeadsInv(c, s, ASK + [Decide] + STAGES + [EndBackRotation], s2);
    SameTipFrom(s2.prim, s2.back);
    t := TipRoundDone(c, s2, created);
    LeadsOn(c, s, ASK + [Decide] + STAGES + [EndBackRotation], s2, ROUND(created), t);
  }

  lemma NewIsSome(l: Snaps)
    requires Has(l, New)
    ensures GuidAt(l, New).Some?
  {
  }

  // ---- resuming

  const RESUME: seq<Action> :=
    ASK + [Decide] + [ReadPlan] + [SendResumed(true)] + [ReceiveResumeArrives] + [ReadResumed] + [HangUp]

  lemma SendRest(c: Config, s: State, tok: Partial, x: Snap)
    requires s.p == Resuming(tok) && s.b == ReceivingResume(tok) && s.toB == None && s.toP == None
    requires Where(s.prim, tok.guid) >= 0 && x == s.prim[Where(s.prim, tok.guid)].(slot := New, frozen := false)
    requires s.back != [] && Newest(s.back) == tok.base
    ensures var t := s.(toB := Some(Stream(x, true)), p := AwaitResumed(tok));
      var u := s.(back := s.back + [x], partial := None, b := Serving, p := AwaitResumed(tok),
                  toP := Some(Done(true, GuidAt(s.back + [x], New))));
      Takes(c, s, SendResumed(true), t) && Takes(c, t, ReceiveResumeArrives, u)
  {
    hide Where, Newest, GuidAt;
  }

  lemma EndResumed(c: Config, s: State, tok: Partial)
    requires s.p == AwaitResumed(tok) && s.b == Serving && s.toP.Some? && s.toP.value.Done?
    ensures Takes(c, s, ReadResumed, s.(toP := None, p := Idle))
      && Takes(c, s.(toP := None, p := Idle), HangUp, s.(toP := None, p := Idle, b := Accepting, toB := None))
  {
  }

  /** The rest of an interrupted snapshot arrives: it is new on both sides then. */
  lemma Resumed(c: Config, s: State, tok: Partial) returns (t: State)
    requires Inv(c, s) && ResumeReady(s) && s.p == Idle && s.b == Accepting && s.partial == Some(tok)
    requires tok.guid in Guids(s.prim)
    ensures Leads(c, s, RESUME, t) && t.p == Idle && t.b == Accepting && t.partial == None && t.approve == s.approve
    ensures Has(t.back, New) && GuidAt(t.prim, New) == GuidAt(t.back, New)
  {
    var x := TokenSnap(c, s, tok);
    hide Leads, Takes, Find, Has, GuidAt, Refs, ASK, Disciplined, Guids, Where, Newest, Inv;
    Asked(c, s);
    var s1 := s.(p := AwaitPlan, b := Planning(Refs(s.prim)), toB := None, toP := None);
    AskedToResume(c, s1, tok);
    var s2 := s1.(toP := Some(Planned(PlanResume(tok))), b := ReceivingResume(tok));
    LeadsThen(c, s, ASK, s1, Decide, s2);
    var s3 := s2.(toP := None, p := Resuming(tok));
    LeadsThen(c, s, ASK + [Decide], s2, ReadPlan, s3);
    SendRest(c, s3, tok, x);
    var s4 := s3.(toB := Some(Stream(x, true)), p := AwaitResumed(tok));
    LeadsThen(c, s, ASK + [Decide] + [ReadPlan], s3, SendResumed(true), s4);
    var s5 := s3.(back := s.back + [x], partial := None, b := Serving, p := AwaitResumed(tok),
                  toP := Some(Done(true, GuidAt(s.back + [x], New))));
    LeadsThen(c, s, ASK + [Decide] + [ReadPlan] + [SendResumed(true)], s4, ReceiveResumeArrives, s5);
    EndResumed(c, s5, tok);
    var s6 := s5.(toP := None, p := Idle);
    LeadsThen(c, s, ASK + [Decide] + [ReadPlan] + [SendResumed(true)] + [ReceiveResumeArrives], s5, ReadResumed, s6);
    t := s6.(b := Accepting);
    LeadsThen(c, s, ASK + [Decide] + [ReadPlan] + [SendResumed(true)] + [ReceiveResumeArrives] + [ReadResumed], s6,
      HangUp, t);
  }

  lemma TokenSnap(c: Config, s: State, tok: Partial) returns (x: Snap)
    requires Inv(c, s) && ResumeReady(s) && s.partial == Some(tok) && tok.guid in Guids(s.prim)
    ensures Where(s.prim, tok.guid) >= 0 && x == s.prim[Where(s.prim, tok.guid)].(slot := New, frozen := false)
    ensures Has(s.back + [x], New) && GuidAt(s.back + [x], New) == GuidAt(s.prim, New)
  {
    WhereKnown(s.prim, tok.guid);
    x := s.prim[Where(s.prim, tok.guid)].(slot := New, frozen := false);
    hide Find, Disciplined, Guids, Where, PrimaryInv, BackupInv, GuidAt, Has;
    if Has(s.back, New) {
      NewIsNewest(s.back);
    }
    Appended(s.back, x);
  }

  // ---- where the pair is stuck

  /** The primary still calls new what the backup already has as n0. */
  ghost predicate Lost(s: State) {
    !Has(s.back, New) && Has(s.prim, New) && GuidAt(s.prim, New) == GuidAt(s.back, N0)
  }

  /** The backup waits for the rest of a snapshot that the primary no longer has. */
  ghost predicate Orphaned(s: State) {
    s.partial.Some? && s.partial.value.guid !in Guids(s.prim)
  }

  /** An approval that names the newest common snapshot and what the backup has that is newest. */
  ghost predicate Answers(s: State, pair: (Guid, Guid)) {
    CommonBase(Refs(s.prim), s.back) == Some(pair.0) && s.back != [] && pair.1 == Newest(s.back)
  }

  /** There is a base to go back to, and nobody has to be asked or exactly this has been approved. */
  ghost predicate MayGoBack(c: Config, s: State) {
    && CommonBase(Refs(s.prim), s.back) != None
    && (c.rollbackAuto || (s.approve != None && Answers(s, s.approve.value)))
  }

  /** The backup has rotated and the primary has not, no plan to follow is on its way, and the backup may not be rolled
      back. */
  ghost predicate LeftBehind(c: Config, s: State) {
    && Lost(s) && s.partial == None && !MayGoBack(c, s)
    && (s.p.Idle? || s.p.Dialed?
        || (s.p.AwaitPlan? && (s.toP.Some? && s.toP.value.Planned? ==> NoPlan(s.toP))))
    && (s.b.Accepting? || s.b.Serving? || s.b.Planning? || s.b.Choosing?)
  }

  lemma BehindChooses(c: Config, s: State)
    requires Inv(c, s) && LeftBehind(c, s) && s.b.Choosing?
    ensures NoPlan(DoChoose(c, s).toP)
  {
    var g := GuidAt(s.prim, New).value;
    assert Has(s.back, N0);
    hide Find, Disciplined, Guids, GuidAt, Has, Shared, BackNewOk, GuidsBelow, Refs, CommonBase, PrimaryInv, Newest;
    AheadBlocks(s.prim, s.back);
  }

  lemma BehindOtherwise(c: Config, s: State, a: Action)
    requires LeftBehind(c, s) && Enabled(c, s, a) && !a.Choose? && (s.p.Dialed? ==> s.toP == None)
    requires a.PlaceApproval? ==> !Answers(s, a.pair)
    ensures var t := Do(c, s, a); LeftBehind(c, t) && t.prim == s.prim && t.back == s.back
  {
    hide Find, Guids, GuidAt, Has, Refs, SlotOf, Newest, Destroy, Where, ReceiveOnto, RunStage, Mark, Expired;
    hide CommonBase;
  }

  lemma BehindStep(c: Config, s: State, a: Action)
    requires Inv(c, s) && LeftBehind(c, s) && Enabled(c, s, a) && (a.PlaceApproval? ==> !Answers(s, a.pair))
    ensures var t := Do(c, s, a); LeftBehind(c, t) && t.prim == s.prim && t.back == s.back
  {
    hide Has, GuidAt, CommonBase, Newest, Refs, Basic, PartialOk, Shared, BackNewOk, BackupInv;
    if a.Choose? {
      BehindChooses(c, s);
    } else {
      hide Do, Enabled;
      BehindOtherwise(c, s, a);
    }
  }

  /** Over any run, with crashes and lost connections anywhere, in which no approval names the newest common snapshot
      and the backup's newest one: no snapshot is taken, sent, rotated or lost on either side. */
  lemma {:induction false} LeftBehindForever(c: Config, run: seq<State>, steps: seq<Action>, i: nat)
    requires IsRun(c, run, steps) && i < |run| && Inv(c, run[0]) && LeftBehind(c, run[0])
    requires forall k :: 0 <= k < i && steps[k].PlaceApproval? ==> !Answers(run[0], steps[k].pair)
    ensures LeftBehind(c, run[i]) && run[i].prim == run[0].prim && run[i].back == run[0].back
  {
    hide Inv, Enabled, Do, LeftBehind, CommonBase, Newest, Refs;
    if i > 0 {
      LeftBehindForever(c, run, steps, i - 1);
      InvAlong(c, run, steps, i - 1);
      BehindStep(c, run[i - 1], steps[i - 1]);
    }
  }

  lemma {:induction false} OrphanedStays(c: Config, run: seq<State>, steps: seq<Action>, i: nat, tok: Partial)
    requires IsRun(c, run, steps) && i < |run| && Inv(c, run[0]) && TokenOk(run[0]) && Trapped(run[0], tok)
    requires Calm(steps)
    ensures TokenOk(run[i]) && Trapped(run[i], tok)
  {
    hide Inv, Enabled, Do, Trapped, TokenOk;
    if i > 0 {
      OrphanedStays(c, run, steps, i - 1, tok);
      InvAlong(c, run, steps, i - 1);
      assert !Disturbs(steps[i - 1]);
      StepKeepsToken(c, run[i - 1], steps[i - 1]);
      TrapStep(c, run[i - 1], tok, steps[i - 1]);
    }
  }

  lemma StuckStays(c: Config, s: State, steps: seq<Action>, t: State)
    requires Inv(c, s) && s.p == Idle && s.b == Accepting
    requires Orphaned(s) || (Lost(s) && s.partial == None && !MayGoBack(c, s))
    requires Calm(steps) && Leads(c, s, steps, t)
    ensures !Start(t)
  {
    hide Inv, Enabled, Do, Guids, Has, GuidAt, Find, MayGoBack;
    var run :| IsRun(c, run, steps) && run[0] == s && run[|steps|] == t;
    if Orphaned(s) {
      AtRestTrapped(c, s);
      OrphanedStays(c, run, steps, |steps|, s.partial.value);
    } else {
      forall k | 0 <= k < |steps| ensures !steps[k].PlaceApproval? { assert !Disturbs(steps[k]); }
      LeftBehindForever(c, run, steps, |steps|);
    }
  }

  lemma AtRestTrapped(c: Config, s: State)
    requires Inv(c, s) && s.p == Idle && s.b == Accepting && Orphaned(s)
    ensures TokenOk(s) && Trapped(s, s.partial.value)
  {
    hide Guids, Disciplined, GuidsBelow, Shared, BackNewOk, NewUnknown, OnlyAsNew, GuidAt;
  }

  // ---- the exact condition

  /** Everything that is not stuck settles: at most one cycle to complete a receive, one to send or to catch up. */
  lemma Recovers(c: Config, s: State)
    requires Inv(c, s) && Unapproved(s) && ResumeReady(s) && s.p == Idle && s.b == Accepting
    requires !Orphaned(s) && !Lost(s)
    ensures CanSettle(c, s)
  {
    hide Inv, Disturbs, Start, Guids, Has, GuidAt, Find, Leads, Calm, CATCH_UP, RESUME, ROTATE_FIRST, CYCLE, NewUnknown;
    hide Newest, SameTip, CanSettle;
    NothingPlaced(c, s);
    if s.partial.Some? {
      ResumesAndCatchesUp(c, s, s.partial.value);
    } else {
      RecoversWhole(c, s);
    }
  }

  lemma NothingPlaced(c: Config, s: State)
    requires Inv(c, s) && Unapproved(s)
    ensures s.approve == None
  {
  }

  lemma CatchesUp(c: Config, s: State)
    requires Inv(c, s) && s.p == Idle && s.b == Accepting && s.partial == None && s.approve == None
    requires Has(s.back, New) && GuidAt(s.prim, New) == GuidAt(s.back, New)
    ensures exists t :: Calm(CATCH_UP) && Leads(c, s, CATCH_UP, t) && Start(t)
  {
    CycleIsCalm(0);
    hide Inv, Start, Has, GuidAt, Leads, ASK, STAGES, OWN_STAGES, Guids;
    assert Calm(CATCH_UP);
    var t := CaughtUp(c, s);
  }

  lemma ResumesAndCatchesUp(c: Config, s: State, tok: Partial)
    requires Inv(c, s) && ResumeReady(s) && s.p == Idle && s.b == Accepting && s.approve == None
    requires s.partial == Some(tok) && tok.guid in Guids(s.prim)
    ensures CanSettle(c, s)
  {
    CycleIsCalm(0);
    hide Inv, Start, Has, GuidAt, Leads, ASK, CATCH_UP, Guids;
    assert Calm(RESUME);
    var u := Resumed(c, s, tok);
    LeadsInv(c, s, RESUME, u);
    CatchesUp(c, u);
    var t :| Calm(CATCH_UP) && Leads(c, u, CATCH_UP, t) && Start(t);
    LeadsOn(c, s, RESUME, u, CATCH_UP, t);
    assert Calm(RESUME + CATCH_UP);
  }

  lemma RecoversWhole(c: Config, s: State)
    requires Inv(c, s) && Unapproved(s) && s.p == Idle && s.b == Accepting && s.approve == None && s.partial == None
    requires !Lost(s)
    ensures CanSettle(c, s)
  {
    CycleIsCalm(0);
    WhereItStands(c, s);
    hide Inv, Start, Has, GuidAt, Leads, ASK, STAGES, ROUND, CATCH_UP, Guids, SameTip, NewUnknown, Unapproved, CYCLE;
    if Has(s.back, New) && GuidAt(s.prim, New) == GuidAt(s.back, New) {
      CatchesUp(c, s);
    } else if Has(s.back, New) && GuidAt(s.prim, N0) == GuidAt(s.back, New) {
      assert Calm(ROTATE_FIRST(0));
      var t := RotatedFirst(c, s, 0);
    } else {
      var t := UndisturbedCycle(c, s, 0);
    }
  }

  lemma WhereItStands(c: Config, s: State)
    requires Inv(c, s) && Unapproved(s) && !Lost(s)
    ensures || (Has(s.back, New) && GuidAt(s.prim, New) == GuidAt(s.back, New))
            || (Has(s.back, New) && GuidAt(s.prim, N0) == GuidAt(s.back, New))
            || (SameTip(s.prim, s.back) && NewUnknown(s.prim, s.back))
  {
    hide Find, Guids, Disciplined, PrimaryInv, BackupInv, PartialOk;
  }

  /** In ask mode without approval, after any run with crashes and lost connections anywhere: from a state at rest,
      undisturbed steps can bring the pair back to a settled state exactly if the primary does not call new what the
      backup already has as n0, and the backup does not wait for the rest of a snapshot that the primary has
      destroyed. */
  lemma SettlesExactly(c: Config, run: seq<State>, steps: seq<Action>, i: nat)
    requires IsRun(c, run, steps) && i < |run| && Start(run[0]) && run[0].placed == {} && !c.rollbackAuto
    requires forall k :: 0 <= k < i ==> !steps[k].PlaceApproval?
    requires run[i].p == Idle && run[i].b == Accepting
    ensures CanSettle(c, run[i]) <==> !Lost(run[i]) && !Orphaned(run[i])
  {
    var s := run[i];
    RunKeepsInv(c, run, steps, i);
    RunKeepsUnapproved(c, run, steps, i);
    RunKeepsReady(c, run, steps, i);
    hide Inv, Start, Leads, Calm, Lost, Orphaned, IsRun, ResumeReady, Enabled, Do, Unapproved;
    if !Lost(s) && !Orphaned(s) {
      Recovers(c, s);
    } else if CanSettle(c, s) {
      var more, t :| Calm(more) && Leads(c, s, more, t) && Start(t);
      NothingPlaced(c, s);
      if Lost(s) {
        LostIsWhole(c, s);
      }
      StuckStays(c, s, more, t);
    }
  }

  lemma LostIsWhole(c: Config, s: State)
    requires Inv(c, s) && Unapproved(s) && Lost(s)
    ensures s.partial == None
  {
    hide Find, Guids, Shared, BackNewOk, PrimaryInv, BackupInv, PartialOk;
    if s.partial.Some? {
      TwoSlots(s.prim, New, N0);
    }
  }

  // ---- with an approval

  lemma LostAtChoice(c: Config, s: State) returns (t: State, base: Guid, grant: Grant)
    requires Inv(c, s) && s.p == Idle && s.b == Accepting && s.partial == None && Lost(s) && MayGoBack(c, s)
    ensures Leads(c, s, ASK + [Decide], t) && Granted(c, t, base, grant) && grant != Unneeded
    ensures t == s.(p := AwaitPlan, b := Choosing(Refs(s.prim)), toB := None, toP := None)
  {
    Asked(c, s);
    Overtaken(c, s);
    hide Leads, Takes, Inv, Has, GuidAt, Refs, ASK, CommonBase, Newest;
    var s1 := s.(p := AwaitPlan, b := Planning(Refs(s.prim)), toB := None, toP := None);
    DecideNothing(c, s1);
    t := s1.(b := Choosing(Refs(s.prim)));
    LeadsThen(c, s, ASK, s1, Decide, t);
    LeadsInv(c, s, ASK + [Decide], t);
    base := CommonBase(Refs(s.prim), s.back).value;
    grant := if c.rollbackAuto then Automatic else Approved;
  }

  /** The backup's newest snapshot is none that the primary could build on. */
  lemma Overtaken(c: Config, s: State)
    requires Inv(c, s) && Lost(s)
    ensures s.back != [] && CommonBase(Refs(s.prim), s.back) != Some(Newest(s.back))
  {
    var g := GuidAt(s.prim, New).value;
    assert Has(s.back, N0);
    hide Find, Disciplined, Guids, GuidAt, Has, Shared, BackNewOk, GuidsBelow, Refs, CommonBase, PrimaryInv, BackupInv;
    hide Newest;
    AheadBlocks(s.prim, s.back);
  }

  /** With the rollback approved, or where nobody has to be asked, one undisturbed cycle makes the next snapshot n0 on
      both sides.  It goes back to the newest common snapshot, and the approval is used up. */
  lemma RolledBack(c: Config, s: State, created: int) returns (t: State)
    requires Inv(c, s) && s.p == Idle && s.b == Accepting && s.partial == None && Lost(s) && MayGoBack(c, s)
    ensures Leads(c, s, CYCLE(created), t) && Start(t) && t.approve == None
    ensures GuidAt(t.prim, N0) == GuidAt(t.back, N0) == Some(s.next) && GuidAt(s.prim, New).value !in Guids(t.back)
  {
    hide Leads, Inv, Find, Has, GuidAt, Guids, ASK, ROUND, CommonBase, Newest, Granted, Refs, MayGoBack, Disciplined;
    hide Landed;
    hide Rotated;
    var s1, base, grant := LostAtChoice(c, s);
    t := RoundDone(c, s1, base, grant, created);
    LeadsOn(c, s, ASK + [Decide], s1, ROUND(created), t);
    var x := Snap(New, s.next, created, false);
    ShipFacts(c, s1, base, grant, x);
    RotatedFacts(Landed(s1.back, base, x), true, c.cal);
    NewerGoes(c, s1, base, grant, x);
  }

  /** What the backup had beyond the base is gone. */
  lemma NewerGoes(c: Config, s: State, base: Guid, grant: Grant, x: Snap)
    requires Granted(c, s, base, grant) && grant != Unneeded && x.guid == s.next && Lost(s)
    ensures GuidAt(s.prim, New).value !in Guids(Landed(s.back, base, x))
  {
    var g := GuidAt(s.prim, New).value;
    GuidAtMember(s.prim, New);
    BelowMember(s.prim, s.next);
    LastGoes(s.back, base, x, g);
  }

  lemma LastGoes(back: Snaps, base: Guid, x: Snap, g: Guid)
    requires Disciplined(back) && Where(back, base) >= 0 && Newest(back) == g != base && x.guid != g
    ensures g !in Guids(Landed(back, base, x))
  {
  }

  /** From every reachable state at rest in which the backup has gone ahead: undisturbed steps can bring the pair back
      to a settled state exactly if there is a common snapshot to go back to and this rollback is automatic or approved,
      by its base and the newest snapshot it takes away. */
  lemma GoesBackExactly(c: Config, run: seq<State>, steps: seq<Action>, i: nat)
    requires IsRun(c, run, steps) && i < |run| && Start(run[0])
    requires run[i].p == Idle && run[i].b == Accepting && run[i].partial == None && Lost(run[i])
    ensures CanSettle(c, run[i]) <==> MayGoBack(c, run[i])
  {
    var s := run[i];
    RunKeepsInv(c, run, steps, i);
    CycleIsCalm(0);
    hide Inv, Start, Leads, Calm, Lost, IsRun, Enabled, Do, MayGoBack, CYCLE, GuidAt, Guids;
    if MayGoBack(c, s) {
      var t := RolledBack(c, s, 0);
    } else if CanSettle(c, s) {
      var more, t :| Calm(more) && Leads(c, s, more, t) && Start(t);
      StuckStays(c, s, more, t);
    }
  }
}

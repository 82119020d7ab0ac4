/** LAN cycles that nothing disturbs, and the run in which a plan is lost. */
module ZfsNetCycle {
  import opened Options
  import opened Snapshots
  import opened SnapshotProofs
  import opened ZfsLocal
  import opened ZfsNet
  import opened ZfsNetProofs
  import opened ZfsNetPlans

  ghost predicate Takes(c: Config, s: State, a: Action, t: State) {
    Enabled(c, s, a) && Do(c, s, a) == t
  }

  /** Some run takes these steps from s to t. */
  ghost predicate Leads(c: Config, s: State, steps: seq<Action>, t: State) {
    exists run :: IsRun(c, run, steps) && run[0] == s && run[|steps|] == t
  }

  lemma LeadsOn(c: Config, s: State, go: seq<Action>, u: State, more: seq<Action>, t: State)
    requires Leads(c, s, go, u) && Leads(c, u, more, t)
    ensures Leads(c, s, go + more, t)
  {
    hide Enabled, Do;
    var run :| IsRun(c, run, go) && run[0] == s && run[|go|] == u;
    var rest :| IsRun(c, rest, more) && rest[0] == u && rest[|more|] == t;
    var whole, steps := run[..|go|] + rest, go + more;
    assert whole[|go|] == rest[0];
    forall i | 0 <= i < |steps| ensures Enabled(c, whole[i], steps[i]) && whole[i + 1] == Do(c, whole[i], steps[i]) {
      if i < |go| {
        assert Enabled(c, run[i], go[i]) && run[i + 1] == Do(c, run[i], go[i]);
      } else {
        assert Enabled(c, rest[i - |go|], more[i - |go|]);
      }
    }
    assert IsRun(c, whole, steps) && whole[0] == s && whole[|steps|] == t;
  }

  lemma LeadsStep(c: Config, s: State, a: Action, t: State)
    requires Takes(c, s, a, t)
    ensures Leads(c, s, [a], t)
  {
    assert IsRun(c, [s, t], [a]);
  }

  lemma LeadsThen(c: Config, s: State, steps: seq<Action>, u: State, a: Action, t: State)
    requires Leads(c, s, steps, u) && Takes(c, u, a, t)
    ensures Leads(c, s, steps + [a], t)
  {
    LeadsStep(c, u, a, t);
    LeadsOn(c, s, steps, u, [a], t);
  }

  lemma {:induction false} InvAlong(c: Config, run: seq<State>, steps: seq<Action>, i: nat)
    requires IsRun(c, run, steps) && i < |run| && Inv(c, run[0])
    ensures Inv(c, run[i])
  {
    hide Inv, Enabled, Do;
    if i > 0 {
      InvAlong(c, run, steps, i - 1);
      StepKeepsInv(c, run[i - 1], steps[i - 1]);
    }
  }

  lemma LeadsInv(c: Config, s: State, steps: seq<Action>, t: State)
    requires Inv(c, s) && Leads(c, s, steps, t)
    ensures Inv(c, t)
  {
    hide Inv;
    var run :| IsRun(c, run, steps) && run[0] == s && run[|steps|] == t;
    InvAlong(c, run, steps, |steps|);
  }

  // ---- the hello and the backup's decision

  const ASK: seq<Action> := [Dial] + [SendHello] + [ReadHello]

  /** A new connection, up to the point where the backup has read the hello. */
  lemma Asked(c: Config, s: State)
    requires s.p == Idle && s.b == Accepting
    ensures Leads(c, s, ASK, s.(p := AwaitPlan, b := Planning(Refs(s.prim)), toB := None, toP := None))
  {
    hide Leads, Refs;
    var s1 := s.(p := Dialed, b := Serving, toB := None, toP := None);
    LeadsStep(c, s, Dial, s1);
    var s2 := s1.(toB := Some(Hello(Refs(s1.prim))), p := AwaitPlan);
    LeadsThen(c, s, [Dial], s1, SendHello, s2);
    LeadsThen(c, s, [Dial] + [SendHello], s2, ReadHello, s2.(toB := None, b := Planning(Refs(s1.prim))));
  }

  lemma DecideNothing(c: Config, s: State)
    requires s.b.Planning? && s.partial == None && !Has(s.back, New)
    ensures Takes(c, s, Decide, s.(b := Choosing(s.b.hello)))
  {
    hide Has;
  }

  lemma DecideDrops(c: Config, s: State)
    requires s.b.Planning? && s.partial == None && Has(s.back, New)
    requires var slot := SlotOf(s.b.hello, GuidAt(s.back, New).value); slot != Some(New) && slot != Some(N0)
    ensures Takes(c, s, Decide, s.(back := Destroy(s.back, New), b := Choosing(s.b.hello)))
  {
    hide Has, SlotOf, GuidAt, Destroy;
  }

  lemma DecideRotates(c: Config, s: State, slot: Slot)
    requires s.b.Planning? && s.partial == None && Has(s.back, New) && (slot == New || slot == N0)
    requires SlotOf(s.b.hello, GuidAt(s.back, New).value) == Some(slot)
    ensures Takes(c, s, Decide, s.(b := PlanRotating(Evicting, s.b.hello, slot)))
  {
    hide Has, SlotOf, GuidAt;
  }

  lemma OwnSlot(l: Snaps, slot: Slot)
    requires Disciplined(l) && Has(l, slot)
    ensures SlotOf(Refs(l), GuidAt(l, slot).value) == Some(slot)
  {
    var g := GuidAt(l, slot).value;
    GuidAtMember(l, slot);
    SlotOfCurrent(l, g);
    match SlotOf(Refs(l), g)
    case Some(k) => OneSlot(l, slot, k);
    case None =>
  }

  // ---- rotations, with no failing command

  const STAGES: seq<Action> := [RunBackStage] + [RunBackStage] + [RunBackStage]

  lemma BackStage(c: Config, s: State, st: Stage)
    requires (s.b.PlanRotating? || s.b.MsgRotating?) && s.b.stage == st && st != Pruning
    ensures Takes(c, s, RunBackStage, s.(back := RunStage(s.back, st, true, c.cal), b := SetStage(s.b, NextStage(st))))
  {
    hide RunStage;
  }

  lemma BackStages(c: Config, s: State)
    requires (s.b.PlanRotating? || s.b.MsgRotating?) && s.b.stage == Evicting
    ensures Leads(c, s, STAGES, s.(back := Rotated(s.back, true, c.cal), b := SetStage(s.b, Pruning)))
  {
    hide Leads, Takes, Evict, ShiftN0, Promote;
    BackStage(c, s, Evicting);
    var s1 := s.(back := Evict(s.back, true, c.cal), b := SetStage(s.b, Shifting));
    LeadsStep(c, s, RunBackStage, s1);
    BackStage(c, s1, Shifting);
    var s2 := s1.(back := ShiftN0(s1.back), b := SetStage(s.b, Promoting));
    LeadsThen(c, s, [RunBackStage], s1, RunBackStage, s2);
    BackStage(c, s2, Promoting);
    LeadsThen(c, s, [RunBackStage] + [RunBackStage], s2, RunBackStage,
              s2.(back := Promote(s2.back), b := SetStage(s.b, Pruning)));
  }

  const OWN_STAGES: seq<Action> := [RunOwnStage] + [RunOwnStage] + [RunOwnStage]

  lemma OwnStage(c: Config, s: State, st: Stage, tell: bool)
    requires s.p == Rotating(st, tell) && st != Pruning
    ensures Takes(c, s, RunOwnStage,
                  s.(prim := RunStage(s.prim, st, c.versions, c.cal), p := Rotating(NextStage(st), tell)))
  {
    hide RunStage;
  }

  lemma OwnStages(c: Config, s: State, tell: bool)
    requires s.p == Rotating(Evicting, tell)
    ensures Leads(c, s, OWN_STAGES, s.(prim := Rotated(s.prim, c.versions, c.cal), p := Rotating(Pruning, tell)))
  {
    hide Leads, Takes, Evict, ShiftN0, Promote;
    OwnStage(c, s, Evicting, tell);
    var s1 := s.(prim := Evict(s.prim, c.versions, c.cal), p := Rotating(Shifting, tell));
    LeadsStep(c, s, RunOwnStage, s1);
    OwnStage(c, s1, Shifting, tell);
    var s2 := s1.(prim := ShiftN0(s1.prim), p := Rotating(Promoting, tell));
    LeadsThen(c, s, [RunOwnStage], s1, RunOwnStage, s2);
    OwnStage(c, s2, Promoting, tell);
    LeadsThen(c, s, [RunOwnStage] + [RunOwnStage], s2, RunOwnStage,
              s2.(prim := Promote(s2.prim), p := Rotating(Pruning, tell)));
  }

  // ---- from the choice of the base to the confirmation

  const PLAN: seq<Action> := [Choose] + [ReadPlan] + [DestroyStale]

  /** The backup is about to choose a base and to send nothing back but the plan for it. */
  ghost predicate Granted(c: Config, s: State, base: Guid, grant: Grant) {
    && Inv(c, s) && s.p == AwaitPlan && s.b.Choosing? && s.back != [] && CommonBase(s.b.hello, s.back) == Some(base)
    && grant == (if base == Newest(s.back) then Unneeded else if c.rollbackAuto then Automatic else Approved)
    && (grant.Approved? ==> s.approve == Some((base, Newest(s.back))))
  }

  lemma ChooseStep(c: Config, s: State, base: Guid, grant: Grant)
    requires Granted(c, s, base, grant)
    ensures Takes(c, s, Choose, s.(toP := Some(Planned(PlanInc(base))), b := ReceivingInc(base, grant)))
  {
    hide CommonBase, Newest, Inv;
  }

  lemma BaseAgreed(c: Config, s: State, base: Guid, grant: Grant)
    requires Granted(c, s, base, grant)
    ensures Leads(c, s, PLAN,
                  s.(toP := None, prim := Destroy(s.prim, New), p := Taking(base), b := ReceivingInc(base, grant)))
  {
    ChooseStep(c, s, base, grant);
    hide Leads, CommonBase, Newest, Destroy, Inv;
    var s1 := s.(toP := Some(Planned(PlanInc(base))), b := ReceivingInc(base, grant));
    LeadsStep(c, s, Choose, s1);
    var s2 := s1.(toP := None, p := Stale(base));
    LeadsThen(c, s, [Choose], s1, ReadPlan, s2);
    LeadsThen(c, s, [Choose] + [ReadPlan], s2, DestroyStale, s2.(prim := Destroy(s.prim, New), p := Taking(base)));
  }

  lemma SnapshotSteps(c: Config, s: State, base: Guid, created: int, complete: bool)
    requires s.p == Taking(base) && s.b.ReceivingInc? && !Has(s.prim, New)
    ensures var x := Snap(New, s.next, created, false);
      var t := s.(prim := s.prim + [x], next := s.next + 1, p := Sending(base));
      && Takes(c, s, TakeSnapshot(created), t)
      && (Has(t.prim, New) && t.prim[Find(t.prim, New)] == x ==>
            Takes(c, t, SendStream(complete),
                  t.(toB := Some(Stream(x, complete)), p := if complete then AwaitDone(base) else Failing(base))))
  {
    hide Has, Find;
  }

  /** The stream arrives whole; an approval goes, needed or not. */
  lemma ReceiveStep(c: Config, s: State, base: Guid, grant: Grant, x: Snap, back: Snaps)
    requires s.p == AwaitDone(base) && s.b == ReceivingInc(base, grant) && s.toB == Some(Stream(x, true))
    requires Where(s.back, base) >= 0 && ReceiveOnto(s.back, Where(s.back, base), x) == back
    requires GuidAt(back, New) == Some(x.guid)
    ensures Takes(c, s, ReceiveIncArrives,
                  s.(back := back, partial := None, approve := None, b := Serving, toB := None,
                     toP := Some(Done(true, Some(x.guid)))))
  {
    hide Where, ReceiveOnto, GuidAt;
  }

  lemma ConfirmStep(c: Config, s: State, base: Guid, g: Guid)
    requires s.p == AwaitDone(base) && s.toP == Some(Done(true, Some(g))) && GuidAt(s.prim, New) == Some(g)
    ensures Takes(c, s, ReadDone, s.(toP := None, p := Rotating(Evicting, true)))
  {
    hide GuidAt;
  }

  function SHIP(created: int): seq<Action> {
    [TakeSnapshot(created)] + [SendStream(true)] + [ReceiveIncArrives] + [ReadDone]
  }

  lemma ShipSteps(c: Config, s: State, base: Guid, grant: Grant, created: int, x: Snap, back: Snaps)
    requires s.p == Taking(base) && s.b == ReceivingInc(base, grant) && s.toB == None && s.toP == None
    requires !Has(s.prim, New) && x == Snap(New, s.next, created, false)
    requires Has(s.prim + [x], New) && (s.prim + [x])[Find(s.prim + [x], New)] == x
    requires GuidAt(s.prim + [x], New) == Some(x.guid) == GuidAt(back, New)
    requires Where(s.back, base) >= 0 && ReceiveOnto(s.back, Where(s.back, base), x) == back
    ensures Leads(c, s, SHIP(created),
                  s.(prim := s.prim + [x], back := back, partial := None, approve := None, next := s.next + 1,
                     p := Rotating(Evicting, true), b := Serving))
  {
    hide Leads, Takes, Find, Where, GuidAt, ReceiveOnto, Has;
    SnapshotSteps(c, s, base, created, true);
    var s1 := s.(prim := s.prim + [x], next := s.next + 1, p := Sending(base));
    LeadsStep(c, s, TakeSnapshot(created), s1);
    var s2 := s1.(toB := Some(Stream(x, true)), p := AwaitDone(base));
    LeadsThen(c, s, [TakeSnapshot(created)], s1, SendStream(true), s2);
    ReceiveStep(c, s2, base, grant, x, back);
    var s3 := s2.(back := back, partial := None, approve := None, b := Serving, toB := None,
                  toP := Some(Done(true, Some(x.guid))));
    LeadsThen(c, s, [TakeSnapshot(created)] + [SendStream(true)], s2, ReceiveIncArrives, s3);
    ConfirmStep(c, s3, base, x.guid);
    LeadsThen(c, s, [TakeSnapshot(created)] + [SendStream(true)] + [ReceiveIncArrives], s3, ReadDone,
              s3.(toP := None, p := Rotating(Evicting, true)));
  }

  lemma OwnNewIs(l: Snaps, x: Snap)
    requires Disciplined(l + [x]) && x.slot == New
    ensures Find(l + [x], New) == |l| && (l + [x])[|l|] == x
  {
    assert (l + [x])[|l|] == x;
    HasAt(l + [x], |l|);
  }

  /** What the backup has when the snapshot x has arrived on the base. */
  function Landed(back: Snaps, base: Guid, x: Snap): Snaps {
    if Where(back, base) < 0 then back else ReceiveOnto(back, Where(back, base), x)
  }

  lemma ShipFacts(c: Config, s: State, base: Guid, grant: Grant, x: Snap)
    requires Granted(c, s, base, grant) && x.slot == New && x.guid == s.next
    ensures var prim := Destroy(s.prim, New);
      && Disciplined(prim + [x]) && !Has(prim, New)
      && Has(prim + [x], New) && (prim + [x])[Find(prim + [x], New)] == x
      && GuidAt(prim + [x], New) == Some(x.guid) && GuidAt(prim + [x], N0) == GuidAt(s.prim, N0)
    ensures var back := Landed(s.back, base, x);
      && Disciplined(back) && Has(back, New) && GuidAt(back, New) == Some(x.guid)
      && Where(s.back, base) >= 0 && ReceiveOnto(s.back, Where(s.back, base), x) == back
  {
    var prim := Destroy(s.prim, New);
    ChoiceIdle(c, s);
    WithoutNew(s.prim);
    BelowMember(s.prim, s.next);
    BelowMember(s.back, s.next);
    ChosenBase(s.prim, s.back);
    hide Find, Disciplined, Has, GuidAt, CommonBase, Where, Guids, Destroy, PrimaryInv, BackupInv, PartialOk, Shared;
    hide BackNewOk, HeldOld, NewUnknown;
    Appended(prim, x);
    OwnNewIs(prim, x);
    StrangerTo(s.prim, x.guid);
    ReceivedOnto(s.prim, s.back, base, x);
  }

  lemma StrangerTo(l: Snaps, g: Guid)
    requires g !in Guids(l)
    ensures OnlyAsNew(l, g)
  {
  }

  lemma ChoiceIdle(c: Config, s: State)
    requires Inv(c, s) && s.p == AwaitPlan && s.b.Choosing?
    ensures s.b == Choosing(Refs(s.prim)) && s.toB == None && s.toP == None && s.partial == None
    ensures NewUnknown(s.prim, s.back)
  {
    hide Disciplined, Has, Refs, GuidsBelow, PrimaryInv, Shared, BackNewOk, NewUnknown;
  }

  /** From the choice to the confirmation: both sides get the next snapshot as their new. */
  lemma Shipped(c: Config, s: State, base: Guid, grant: Grant, created: int)
    requires Granted(c, s, base, grant)
    ensures var x := Snap(New, s.next, created, false);
      Leads(c, s, PLAN + SHIP(created),
            s.(prim := Destroy(s.prim, New) + [x], back := Landed(s.back, base, x), approve := None, next := s.next + 1,
               p := Rotating(Evicting, true), b := Serving))
  {
    hide Leads, Find, Disciplined, Has, GuidAt, CommonBase, Where, ReceiveOnto, Destroy, Inv, PLAN, SHIP, Landed;
    hide NewUnknown;
    var x := Snap(New, s.next, created, false);
    ChoiceIdle(c, s);
    ShipFacts(c, s, base, grant, x);
    BaseAgreed(c, s, base, grant);
    var s1 := s.(prim := Destroy(s.prim, New), p := Taking(base), b := ReceivingInc(base, grant));
    ShipSteps(c, s1, base, grant, created, x, Landed(s.back, base, x));
    LeadsOn(c, s, PLAN, s1, SHIP(created),
            s1.(prim := s1.prim + [x], back := Landed(s.back, base, x), approve := None, next := s.next + 1,
                p := Rotating(Evicting, true), b := Serving));
  }

  /** The backup is about to choose, and both sides have the same n0. */
  ghost predicate AtChoice(c: Config, s: State) {
    && Inv(c, s) && s.p == AwaitPlan && s.b.Choosing? && !Has(s.back, New) && SameTip(s.prim, s.back)
  }

  /** Then that n0 is the base, and a receive on it adds to what the backup has. */
  lemma TipGranted(c: Config, s: State, x: Snap)
    requires AtChoice(c, s) && x.slot == New && x.guid == s.next
    ensures s.back != [] && Granted(c, s, Newest(s.back), Unneeded)
    ensures Landed(s.back, Newest(s.back), x) == s.back + [x]
    ensures Disciplined(s.back + [x]) && Has(s.back + [x], New) && GuidAt(s.back + [x], N0) == GuidAt(s.back, N0)
    ensures GuidAt(s.back + [x], New) == Some(x.guid)
  {
    ChoiceIdle(c, s);
    BelowMember(s.back, s.next);
    hide Find, Has, GuidAt, CommonBase, Where, Guids, PrimaryInv, BackupInv, PartialOk, Shared, BackNewOk, SameTip;
    hide Disciplined, NewUnknown;
    SameTipFits(s.prim, s.back);
    WhereNewest(s.back);
    ReceivedOnNewest(s.back, x);
    Appended(s.back, x);
  }

  // ---- the two rotations of a cycle

  const OWN_HALF: seq<Action> := OWN_STAGES + [EndOwnRotation] + [SendRotate]

  lemma OwnRotated(c: Config, s: State)
    requires s.p == Rotating(Evicting, true) && s.b == Serving
    ensures Leads(c, s, OWN_HALF,
      s.(prim := Rotated(s.prim, c.versions, c.cal), p := AwaitRotated, toB := Some(RotateNow)))
  {
    hide Leads, Rotated, OWN_STAGES;
    OwnStages(c, s, true);
    var s1 := s.(prim := Rotated(s.prim, c.versions, c.cal), p := Rotating(Pruning, true));
    LeadsThen(c, s, OWN_STAGES, s1, EndOwnRotation, s1.(p := RotatedTell));
    LeadsThen(c, s, OWN_STAGES + [EndOwnRotation], s1.(p := RotatedTell), SendRotate,
              s1.(p := AwaitRotated, toB := Some(RotateNow)));
  }

  const BACK_HALF: seq<Action> := [ReadRotateNow] + STAGES + [EndBackRotation] + [ReadRotated] + [HangUp]

  lemma HearRotate(c: Config, s: State)
    requires s.b == Serving && s.toB == Some(RotateNow) && Has(s.back, New)
    ensures Takes(c, s, ReadRotateNow, s.(toB := None, b := MsgRotating(Evicting)))
  {
    hide Has;
  }

  lemma EndSteps(c: Config, s: State)
    requires s.b == MsgRotating(Pruning) && s.p == AwaitRotated && s.toB == None && s.toP == None
    ensures var t := s.(b := Serving, toP := Some(Done(true, None)));
      && Takes(c, s, EndBackRotation, t)
      && Takes(c, t, ReadRotated, s.(b := Serving, p := Idle))
      && Takes(c, s.(b := Serving, p := Idle), HangUp, s.(b := Accepting, p := Idle))
  {
  }

  lemma BackRotated(c: Config, s: State)
    requires s.p == AwaitRotated && s.b == Serving && s.toB == Some(RotateNow) && s.toP == None && Has(s.back, New)
    ensures Leads(c, s, BACK_HALF, s.(back := Rotated(s.back, true, c.cal), p := Idle, b := Accepting, toB := None))
  {
    hide Leads, Takes, Rotated, Has, STAGES;
    HearRotate(c, s);
    var s1 := s.(toB := None, b := MsgRotating(Evicting));
    LeadsStep(c, s, ReadRotateNow, s1);
    BackStages(c, s1);
    var s2 := s1.(back := Rotated(s.back, true, c.cal), b := MsgRotating(Pruning));
    LeadsOn(c, s, [ReadRotateNow], s1, STAGES, s2);
    EndSteps(c, s2);
    var s3 := s2.(b := Serving, toP := Some(Done(true, None)));
    LeadsThen(c, s, [ReadRotateNow] + STAGES, s2, EndBackRotation, s3);
    var s4 := s2.(b := Serving, p := Idle);
    LeadsThen(c, s, [ReadRotateNow] + STAGES + [EndBackRotation], s3, ReadRotated, s4);
    LeadsThen(c, s, [ReadRotateNow] + STAGES + [EndBackRotation] + [ReadRotated], s4, HangUp, s4.(b := Accepting));
  }

  // ---- the undisturbed cycle

  lemma StartAgain(c: Config, t: State)
    requires Inv(c, t) && SameTip(t.prim, t.back) && !Has(t.prim, New) && !Has(t.back, New)
    requires t.partial == None && t.p == Idle && t.b == Accepting && t.toB == None && t.toP == None && t.approve == None
    ensures Start(t)
  {
    hide Disciplined, Has, GuidAt, PrimaryInv, BackupInv;
  }

  function ROUND(created: int): seq<Action> {
    PLAN + SHIP(created) + OWN_HALF + BACK_HALF
  }

  /** What a completed round has made of the state s it started from. */
  ghost predicate Advanced(s: State, t: State) {
    && Start(t) && t.placed == s.placed
    && GuidAt(t.prim, N0) == GuidAt(t.back, N0) == Some(s.next) && GuidAt(t.prim, N1) == GuidAt(s.prim, N0)
  }

  lemma RoundDone(c: Config, s: State, base: Guid, grant: Grant, created: int) returns (t: State)
    requires Granted(c, s, base, grant)
    ensures Leads(c, s, ROUND(created), t) && Advanced(s, t)
    ensures t.back == Rotated(Landed(s.back, base, Snap(New, s.next, created, false)), true, c.cal)
  {
    hide Leads, Find, Disciplined, Guids, GuidAt, Has, Rotated, Destroy, PLAN, SHIP, OWN_HALF, BACK_HALF, Inv, SameTip;
    hide CommonBase, Where, ReceiveOnto, Start, Landed, NewUnknown;
    var x := Snap(New, s.next, created, false);
    var prim, back := Destroy(s.prim, New) + [x], Landed(s.back, base, x);
    ChoiceIdle(c, s);
    Shipped(c, s, base, grant, created);
    ShipFacts(c, s, base, grant, x);
    RotatedFacts(prim, c.versions, c.cal);
    RotatedFacts(back, true, c.cal);
    var s1 := s.(prim := prim, back := back, approve := None, next := s.next + 1,
                 p := Rotating(Evicting, true), b := Serving);
    OwnRotated(c, s1);
    var s2 := s1.(prim := Rotated(s1.prim, c.versions, c.cal), p := AwaitRotated, toB := Some(RotateNow));
    LeadsOn(c, s, PLAN + SHIP(created), s1, OWN_HALF, s2);
    BackRotated(c, s2);
    t := s2.(back := Rotated(s2.back, true, c.cal), p := Idle, b := Accepting, toB := None);
    LeadsOn(c, s, PLAN + SHIP(created) + OWN_HALF, s2, BACK_HALF, t);
    LeadsInv(c, s, ROUND(created), t);
    TipOf(t.prim, t.back, s.next);
    StartAgain(c, t);
  }

  /** With the same n0 on both sides nothing is rolled back. */
  lemma TipRoundDone(c: Config, s: State, created: int) returns (t: State)
    requires AtChoice(c, s)
    ensures Leads(c, s, ROUND(created), t) && Advanced(s, t) && GuidAt(t.back, N1) == GuidAt(s.back, N0)
    ensures forall x :: x in s.back && x.guid !in Guids(t.back) ==> x.slot == N1
  {
    hide Leads, Find, Disciplined, GuidAt, Has, Rotated, ROUND, Inv, SameTip, CommonBase, Where, Start, Landed, Newest;
    var x := Snap(New, s.next, created, false);
    TipGranted(c, s, x);
    t := RoundDone(c, s, Newest(s.back), Unneeded, created);
    RotatedFacts(s.back + [x], true, c.cal);
  }

  lemma TipOf(prim: Snaps, back: Snaps, g: Guid)
    requires GuidAt(prim, N0) == Some(g) == GuidAt(back, N0)
    ensures SameTip(prim, back)
  {
  }

  function CYCLE(created: int): seq<Action> {
    ASK + [Decide] + ROUND(created)
  }

  /** The backup's decision without a rotation leaves it with no new. */
  lemma DecideSame(c: Config, s: State)
    requires s.b == Planning(Refs(s.prim)) && s.partial == None && Disciplined(s.prim) && Disciplined(s.back)
    requires NewUnknown(s.prim, s.back)
    ensures Takes(c, s, Decide, s.(back := Destroy(s.back, New), b := Choosing(s.b.hello)))
  {
    hide Takes, Find, Disciplined, Guids, Refs, Destroy, SlotOf;
    DestroyFacts(s.back, New);
    if Has(s.back, New) {
      var g := GuidAt(s.back, New).value;
      SlotOfCurrent(s.prim, g);
      match SlotOf(s.b.hello, g) {
        case Some(k) => GuidAtMember(s.prim, k);
        case None =>
      }
      DecideDrops(c, s);
    } else {
      DecideNothing(c, s);
    }
  }

  lemma OnlyNewGoes(l: Snaps, x: Snap)
    requires Disciplined(l) && x in l && x.guid !in Guids(Destroy(l, New))
    ensures x.slot == New
  {
    DestroyMember(l, New, x);
  }

  /** From any state at rest in which both sides have the same n0, and the backup at most a new that the primary does
      not know, a cycle that nothing disturbs sends the next snapshot and leaves it as n0 on both sides, the former n0
      behind it as n1; of the backup's snapshots at most the old n1 and that new are gone, so nothing was rolled
      back. */
  lemma UndisturbedCycle(c: Config, s: State, created: int) returns (t: State)
    requires Inv(c, s) && s.p == Idle && s.b == Accepting && s.partial == None
    requires SameTip(s.prim, s.back) && NewUnknown(s.prim, s.back)
    ensures Leads(c, s, CYCLE(created), t) && Advanced(s, t) && GuidAt(t.back, N1) == GuidAt(s.back, N0)
    ensures forall x :: x in s.back && x.guid !in Guids(t.back) ==> x.slot == N1 || x.slot == New
  {
    hide Leads, Find, Guids, GuidAt, Has, ASK, ROUND, SameTip, NewUnknown, Destroy, Start, SlotOf, Refs, Takes;
    hide PrimaryInv, BackupInv, PartialOk, Shared, BackNewOk, Disciplined;
    Asked(c, s);
    var s1 := s.(p := AwaitPlan, b := Planning(Refs(s.prim)), toB := None, toP := None);
    DecideSame(c, s1);
    var s2 := s1.(back := Destroy(s.back, New), b := Choosing(Refs(s.prim)));
    LeadsThen(c, s, ASK, s1, Decide, s2);
    LeadsInv(c, s, ASK + [Decide], s2);
    WithoutNew(s.back);
    KeptTip(s.prim, s.back, s.prim, s2.back);
    t := TipRoundDone(c, s2, created);
    LeadsOn(c, s, ASK + [Decide], s2, ROUND(created), t);
    forall x | x in s.back && x.guid !in Guids(t.back) ensures x.slot == N1 || x.slot == New {
      if x.guid !in Guids(s2.back) {
        OnlyNewGoes(s.back, x);
      } else {
        StaysItself(s.back, x);
      }
    }
  }

  lemma StaysItself(l: Snaps, x: Snap)
    requires Disciplined(l) && x in l && x.guid in Guids(Destroy(l, New))
    ensures x in Destroy(l, New)
  {
    DestroyMember(l, New, x);
  }

  // ---- a lost plan

  const LOSE_PLAN: seq<Action> := [EndBackRotation] + [PrimaryDies] + [HangUp]

  lemma EndPlanRotation(c: Config, s: State, h: seq<SnapRef>)
    requires s.b == PlanRotating(Pruning, h, New)
    ensures Takes(c, s, EndBackRotation, s.(b := Serving, toP := Some(Planned(PlanRotate))))
  {
  }

  lemma GoingDown(c: Config, s: State)
    requires s.b == Serving
    ensures Takes(c, s, PrimaryDies, s.(p := Idle))
    ensures Takes(c, s.(p := Idle), HangUp, s.(p := Idle, b := Accepting, toB := None))
  {
  }

  lemma PlanLost(c: Config, s: State, h: seq<SnapRef>)
    requires s.b == PlanRotating(Pruning, h, New)
    ensures Leads(c, s, LOSE_PLAN, s.(p := Idle, b := Accepting, toB := None, toP := Some(Planned(PlanRotate))))
  {
    hide Leads, Takes;
    EndPlanRotation(c, s, h);
    var s1 := s.(b := Serving, toP := Some(Planned(PlanRotate)));
    LeadsStep(c, s, EndBackRotation, s1);
    GoingDown(c, s1);
    LeadsThen(c, s, [EndBackRotation], s1, PrimaryDies, s1.(p := Idle));
    LeadsThen(c, s, [EndBackRotation] + [PrimaryDies], s1.(p := Idle), HangUp,
      s1.(p := Idle, b := Accepting, toB := None));
  }

  lemma RotatedWhileNew(c: Config, s: State, h: seq<SnapRef>)
    requires Inv(c, s) && s.b == PlanRotating(Pruning, h, New)
    ensures Disciplined(s.prim) && Disciplined(s.back) && s.partial == None && !Has(s.back, New) && Has(s.back, N0)
    ensures GuidAt(s.prim, New) == GuidAt(s.back, N0) == Some(Newest(s.back))
  {
    NewestIsN0(s.back);
  }

  lemma ChooseOlder(c: Config, s: State) returns (t: State)
    requires s.b.Choosing? && s.back != [] && CommonBase(s.b.hello, s.back) != Some(Newest(s.back))
    requires !c.rollbackAuto && s.approve == None
    ensures Takes(c, s, Choose, t) && t.prim == s.prim && t.back == s.back
    ensures NoPlan(t.toP)
  {
    hide CommonBase, Newest;
    t := DoChoose(c, s);
  }

  /** The backup completes the rotation of an interrupted cycle, and the plan that tells the primary so is lost.  The
      primary still has the snapshot as its new, which is never a base: what both have confirmed now counts as newer
      than the base, and the next cycle, in which nothing goes wrong, asks the operator for a rollback. */
  lemma LostPlanBlocks(c: Config, s: State, h: seq<SnapRef>) returns (t: State)
    requires Inv(c, s) && s.b == PlanRotating(Pruning, h, New) && !c.rollbackAuto && s.approve == None
    ensures Leads(c, s, LOSE_PLAN + ASK + [Decide] + [Choose], t) && NoPlan(t.toP)
    ensures t.prim == s.prim && t.back == s.back && GuidAt(t.prim, New) == GuidAt(t.back, N0) == Some(Newest(t.back))
  {
    RotatedWhileNew(c, s, h);
    AheadBlocks(s.prim, s.back);
    hide Leads, Takes, Inv, CommonBase, Refs, Newest, Has, GuidAt, Disciplined, NoPlan, LOSE_PLAN, ASK;
    PlanLost(c, s, h);
    var s1 := s.(p := Idle, b := Accepting, toB := None, toP := Some(Planned(PlanRotate)));
    Asked(c, s1);
    var s2 := s1.(p := AwaitPlan, b := Planning(Refs(s.prim)), toB := None, toP := None);
    LeadsOn(c, s, LOSE_PLAN, s1, ASK, s2);
    DecideNothing(c, s2);
    var s3 := s2.(b := Choosing(Refs(s.prim)));
    LeadsThen(c, s, LOSE_PLAN + ASK, s2, Decide, s3);
    t := ChooseOlder(c, s3);
    LeadsThen(c, s, LOSE_PLAN + ASK + [Decide], s3, Choose, t);
  }

  function INTERRUPTED(created: int): seq<Action> {
    ASK + [Decide] + (PLAN + SHIP(created)) + CRASH + ASK + [Decide] + STAGES
  }

  lemma StartAtChoice(c: Config, s: State) returns (t: State)
    requires Start(s)
    ensures Leads(c, s, ASK + [Decide], t) && AtChoice(c, t)
    ensures t == s.(p := AwaitPlan, b := Choosing(Refs(s.prim)), toB := None, toP := None)
  {
    StartInv(c, s);
    Asked(c, s);
    hide Leads, Takes, Inv, Disciplined, Refs, ASK, GuidAt, GuidsBelow;
    var s1 := s.(p := AwaitPlan, b := Planning(Refs(s.prim)), toB := None, toP := None);
    DecideNothing(c, s1);
    t := s1.(b := Choosing(Refs(s.prim)));
    LeadsThen(c, s, ASK, s1, Decide, t);
    LeadsInv(c, s, ASK + [Decide], t);
  }

  const CRASH: seq<Action> := [PrimaryDies] + [HangUp]

  lemma Crashed(c: Config, s: State)
    requires s.b == Serving
    ensures Leads(c, s, CRASH, s.(p := Idle, b := Accepting, toB := None))
  {
    hide Leads, Takes;
    GoingDown(c, s);
    LeadsStep(c, s, PrimaryDies, s.(p := Idle));
    LeadsThen(c, s, [PrimaryDies], s.(p := Idle), HangUp, s.(p := Idle, b := Accepting, toB := None));
  }

  /** The first half of a cycle: both sides hold the next snapshot as their new. */
  lemma StartShipped(c: Config, s: State, created: int) returns (t: State)
    requires Start(s)
    ensures Leads(c, s, ASK + [Decide] + (PLAN + SHIP(created)), t)
    ensures var x := Snap(New, s.next, created, false);
      && t == s.(prim := Destroy(s.prim, New) + [x], back := s.back + [x], approve := None, next := s.next + 1,
                 p := Rotating(Evicting, true), b := Serving, toB := None, toP := None)
      && Disciplined(t.prim) && Has(t.prim, New) && GuidAt(t.prim, New) == Some(s.next)
      && Disciplined(t.back) && Has(t.back, New) && GuidAt(t.back, New) == Some(s.next)
  {
    hide Leads, Find, Has, GuidAt, Refs, ASK, PLAN, SHIP, Disciplined, SameTip, CommonBase, Where, ReceiveOnto, Destroy;
    hide AtChoice, Granted, Landed, Newest, Inv, NewUnknown;
    var s1 := StartAtChoice(c, s);
    var x := Snap(New, s.next, created, false);
    TipGranted(c, s1, x);
    var base := Newest(s1.back);
    Shipped(c, s1, base, Unneeded, created);
    ShipFacts(c, s1, base, Unneeded, x);
    t := s1.(prim := Destroy(s.prim, New) + [x], back := s.back + [x], approve := None, next := s.next + 1,
             p := Rotating(Evicting, true), b := Serving);
    LeadsOn(c, s, ASK + [Decide], s1, PLAN + SHIP(created), t);
  }

  /** Both sides hold the next snapshot as new when the primary dies. */
  lemma CrashedAfterShip(c: Config, s: State, created: int) returns (t: State)
    requires Start(s)
    ensures Leads(c, s, ASK + [Decide] + (PLAN + SHIP(created)) + CRASH, t)
    ensures t.p == Idle && t.b == Accepting && t.partial == None && t.approve == None
    ensures Disciplined(t.prim) && Has(t.prim, New) && Has(t.back, New)
    ensures GuidAt(t.prim, New) == GuidAt(t.back, New) == Some(s.next)
  {
    hide Leads, Find, Has, GuidAt, ASK, PLAN, SHIP, CRASH, Disciplined, Destroy;
    var s1 := StartShipped(c, s, created);
    Crashed(c, s1);
    t := s1.(p := Idle, b := Accepting, toB := None);
    LeadsOn(c, s, ASK + [Decide] + (PLAN + SHIP(created)), s1, CRASH, t);
  }

  /** When it is asked again after that, the backup rotates. */
  lemma RotatesAhead(c: Config, s: State, created: int) returns (u: State)
    requires Start(s)
    ensures Leads(c, s, INTERRUPTED(created), u) && u.b == PlanRotating(Pruning, Refs(u.prim), New)
    ensures Inv(c, u) && u.approve == None && GuidAt(u.prim, New) == Some(s.next)
  {
    StartInv(c, s);
    hide Leads, Inv, Has, GuidAt, SlotOf, Refs, ASK, PLAN, SHIP, STAGES, CRASH, Disciplined, Start;
    var t := CrashedAfterShip(c, s, created);
    OwnSlot(t.prim, New);
    u := GoesAhead(c, s, ASK + [Decide] + (PLAN + SHIP(created)) + CRASH, t, s.next);
    LeadsInv(c, s, INTERRUPTED(created), u);
  }

  lemma GoesAhead(c: Config, s: State, go: seq<Action>, s3: State, g: Guid) returns (u: State)
    requires Leads(c, s, go, s3) && s3.p == Idle && s3.b == Accepting && s3.partial == None
    requires Has(s3.back, New) && GuidAt(s3.back, New) == Some(g) && SlotOf(Refs(s3.prim), g) == Some(New)
    ensures Leads(c, s, go + ASK + [Decide] + STAGES, u) && u.b == PlanRotating(Pruning, Refs(u.prim), New)
    ensures u.approve == s3.approve && u.prim == s3.prim
  {
    hide Leads, Takes, Has, GuidAt, SlotOf, Refs, Rotated, ASK, STAGES;
    Asked(c, s3);
    var s4 := s3.(p := AwaitPlan, b := Planning(Refs(s3.prim)), toB := None, toP := None);
    LeadsOn(c, s, go, s3, ASK, s4);
    DecideRotates(c, s4, New);
    var s5 := s4.(b := PlanRotating(Evicting, Refs(s3.prim), New));
    LeadsThen(c, s, go + ASK, s4, Decide, s5);
    BackStages(c, s5);
    u := s5.(back := Rotated(s5.back, true, c.cal), b := PlanRotating(Pruning, Refs(s3.prim), New));
    LeadsOn(c, s, go + ASK + [Decide], s5, STAGES, u);
  }

  /** From every start a run of crashes leads to a cycle that cannot send, although both sides hold the same confirmed
      snapshot. */
  lemma BlockedIsReachable(c: Config, s: State, created: int) returns (t: State)
    requires Start(s) && !c.rollbackAuto
    ensures Leads(c, s, INTERRUPTED(created) + (LOSE_PLAN + ASK + [Decide] + [Choose]), t) && NoPlan(t.toP)
    ensures GuidAt(t.prim, New) == GuidAt(t.back, N0) == Some(s.next)
  {
    hide Leads, Inv, GuidAt, NoPlan, INTERRUPTED, LOSE_PLAN, ASK;
    var u := RotatesAhead(c, s, created);
    t := LostPlanBlocks(c, u, Refs(u.prim));
    LeadsOn(c, s, INTERRUPTED(created), u, LOSE_PLAN + ASK + [Decide] + [Choose], t);
  }
}

/** Resuming an interrupted receive in LAN mode: when it works, and when it can never work again. */
module ZfsNetResume {
  import opened Options
  import opened Snapshots
  import opened SnapshotProofs
  import opened ZfsNet
  import opened ZfsNetProofs
  import opened ZfsNetPlans
  import opened ZfsNetCycle

  // ---- the token a primary is asked to resume

  function HeldToken(s: State): Option<Partial> {
    if s.p.Resuming? then Some(s.p.token)
    else if s.p.AwaitPlan? && s.toP.Some? && s.toP.value.Planned? && s.toP.value.plan.PlanResume? then
      Some(s.toP.value.plan.token)
    else None
  }

  /** The token names what the backup's partial receive, if it still has one, is about. */
  ghost predicate TokenOk(s: State) {
    HeldToken(s).Some? ==>
      var t := HeldToken(s).value;
      OnlyAsNew(s.prim, t.guid) && t.guid < s.next && (s.partial == None || s.partial == Some(t))
  }

  lemma StepKeepsToken(c: Config, s: State, a: Action)
    requires Inv(c, s) && TokenOk(s) && Enabled(c, s, a)
    ensures TokenOk(Do(c, s, a))
  {
    hide Find, Disciplined, Guids, GuidAt, Has, MidRotation, Shared, BackNewOk, HeldOld, OnlyAsNew, GuidsBelow, Refs;
    hide SlotOf, Newest, Destroy, NewUnknown, Where, ReceiveOnto, RunStage, Mark, Expired, CommonBase, BackupInv, Basic;
  }

  lemma {:induction false} RunKeepsToken(c: Config, run: seq<State>, steps: seq<Action>, i: nat)
    requires IsRun(c, run, steps) && i < |run| && Start(run[0])
    ensures TokenOk(run[i])
  {
    hide Inv, Enabled, Do;
    if i > 0 {
      RunKeepsToken(c, run, steps, i - 1);
      RunKeepsInv(c, run, steps, i - 1);
      StepKeepsToken(c, run[i - 1], steps[i - 1]);
    }
  }

  /** A primary asked to resume can do so exactly if the snapshot of the interrupted stream still is its new. */
  lemma ResumeExact(c: Config, run: seq<State>, steps: seq<Action>, i: nat, complete: bool)
    requires IsRun(c, run, steps) && i < |run| && Start(run[0]) && run[i].p.Resuming?
    ensures Enabled(c, run[i], SendResumed(complete)) <==> GuidAt(run[i].prim, New) == Some(run[i].p.token.guid)
  {
    RunKeepsToken(c, run, steps, i);
    hide Inv, Do, IsRun, Where;
    var l, g := run[i].prim, run[i].p.token.guid;
    if g in Guids(l) {
      WhereKnown(l, g);
    }
    if GuidAt(l, New) == Some(g) {
      GuidAtMember(l, New);
    }
  }

  // ---- the trap

  /** The backup holds a partial receive of a snapshot that the primary no longer has, and no increment is on its way
      that could replace it. */
  ghost predicate Trapped(s: State, t: Partial) {
    && s.partial == Some(t) && t.guid !in Guids(s.prim) && t.guid < s.next
    && (s.p.Idle? || s.p.Dialed? || s.p.Resuming? || s.p.Rotating? || s.p.RotatedTell? || s.p.AwaitRotated?
        || (s.p.AwaitPlan? && !(s.toP.Some? && s.toP.value.Planned? && s.toP.value.plan.PlanInc?)))
    && !(s.toB.Some? && s.toB.value.Stream?)
  }

  /** The backup drops its partial receive. */
  predicate Drops(a: Action) {
    a == ReceiveFails(None)
  }

  lemma OwnStepShrinks(c: Config, s: State, a: Action)
    requires Inv(c, s) && Enabled(c, s, a) && (a.MarkOwn? || a.RunOwnStage? || a.PruneOwn?)
    ensures Guids(Do(c, s, a).prim) <= Guids(s.prim)
  {
    hide Find, Guids, GuidAt, Has, MidRotation, Shared, BackNewOk, HeldOld, OnlyAsNew, GuidsBelow, NewUnknown, RunStage;
    hide Destroy, Mark, BackupInv, Expired, Disciplined;
    if a.RunOwnStage? {
      var g: Guid :| MidRotation(s.prim, s.p.stage, g);
      StageMoves(s.prim, s.p.stage, g, c.versions, c.cal);
    } else if a.PruneOwn? {
      DestroyFacts(s.prim, a.slot);
    } else {
      MarkFacts(s.prim, New);
    }
  }

  lemma TrappedRotates(c: Config, s: State, t: Partial, a: Action)
    requires Inv(c, s) && Trapped(s, t) && Enabled(c, s, a) && (a.MarkOwn? || a.RunOwnStage? || a.PruneOwn?)
    ensures Trapped(Do(c, s, a), t) && Do(c, s, a).back == s.back
  {
    OwnStepShrinks(c, s, a);
    hide Guids, Find, Destroy, Has, RunStage, Mark, Expired, Inv;
  }

  lemma TrappedAsks(c: Config, s: State, t: Partial)
    requires Inv(c, s) && Trapped(s, t) && Enabled(c, s, SendHello)
    ensures Trapped(Do(c, s, SendHello), t)
  {
    hide Guids, Refs, Basic, PartialOk, BackNewOk, Shared, BackupInv;
  }

  lemma NotResumed(c: Config, s: State, t: Partial, complete: bool)
    requires TokenOk(s) && Trapped(s, t)
    ensures !Enabled(c, s, SendResumed(complete))
  {
    hide Guids, OnlyAsNew;
    if s.p.Resuming? && Where(s.prim, s.p.token.guid) >= 0 {
      WhereMember(s.prim, s.p.token.guid);
    }
  }

  lemma TrappedOtherwise(c: Config, s: State, t: Partial, a: Action)
    requires BackupInv(c, s) && Trapped(s, t) && Enabled(c, s, a) && !Drops(a)
    requires !a.MarkOwn? && !a.RunOwnStage? && !a.PruneOwn? && !a.SendHello? && !a.SendResumed?
    ensures Trapped(Do(c, s, a), t) && Do(c, s, a).back == s.back
    ensures !a.TakeSnapshot? && !a.SendStream?
  {
    hide Find, Guids, GuidAt, Has, MidRotation, HeldOld, OnlyAsNew, Refs, SlotOf, Newest, Destroy, NewUnknown, Where;
    hide ReceiveOnto, RunStage, Mark, Expired, CommonBase;
  }

  /** Whatever happens in the trap, the backup does not change and nothing is sent, until the partial is dropped. */
  lemma TrapStep(c: Config, s: State, t: Partial, a: Action)
    requires Inv(c, s) && TokenOk(s) && Trapped(s, t) && Enabled(c, s, a) && !Drops(a)
    ensures Trapped(Do(c, s, a), t) && Do(c, s, a).back == s.back
    ensures !a.TakeSnapshot? && !a.SendStream? && !a.SendResumed?
  {
    hide Enabled, Trapped, TokenOk, BackupInv;
    if a.MarkOwn? || a.RunOwnStage? || a.PruneOwn? {
      TrappedRotates(c, s, t, a);
    } else if a.SendHello? {
      TrappedAsks(c, s, t);
    } else if a.SendResumed? {
      NotResumed(c, s, t, a.complete);
    } else {
      TrappedOtherwise(c, s, t, a);
    }
  }

  /** Over any run, with crashes, lost connections and approvals anywhere: as long as the partial is not dropped,
      nothing is sent and the backup stays as it is. */
  lemma {:induction false} TrapLasts(c: Config, run: seq<State>, steps: seq<Action>, i: nat, j: nat, t: Partial)
    requires IsRun(c, run, steps) && i <= j < |run| && Start(run[0]) && Trapped(run[i], t)
    requires forall k :: i <= k < j ==> !Drops(steps[k])
    ensures Trapped(run[j], t) && run[j].back == run[i].back
    ensures forall k :: i <= k < j ==> !steps[k].TakeSnapshot? && !steps[k].SendStream? && !steps[k].SendResumed?
  {
    hide Inv, Enabled, Do, Trapped, TokenOk;
    if i < j {
      TrapLasts(c, run, steps, i, j - 1, t);
      RunKeepsInv(c, run, steps, j - 1);
      RunKeepsToken(c, run, steps, j - 1);
      TrapStep(c, run[j - 1], t, steps[j - 1]);
    }
  }

  // ---- how to get there

  function BREAK(x: Guid, base: Guid, created: int): seq<Action> {
    [TakeSnapshot(created)] + [SendStream(false)] + [ReceiveFails(Some(Partial(x, base)))] + [DestroyNew] + [HangUp]
  }

  lemma BreakSteps(c: Config, s: State, x: Snap, base: Guid)
    requires s.p == Failing(base) && s.b == ReceivingInc(base, Unneeded) && s.toB == Some(Stream(x, false))
    ensures var tok := Some(Partial(x.guid, base));
      var t := s.(partial := tok, b := Serving, toB := None);
      && Takes(c, s, ReceiveFails(tok), t)
      && Takes(c, t, DestroyNew, t.(prim := Destroy(s.prim, New), p := Idle))
  {
    hide Destroy;
  }

  /** The stream breaks while the primary lives: the backup keeps the part it has, the primary destroys its new. */
  lemma Broken(c: Config, s: State, base: Guid, created: int, x: Snap)
    requires s.p == Taking(base) && s.b == ReceivingInc(base, Unneeded) && s.toB == None && s.toP == None
    requires !Has(s.prim, New) && x == Snap(New, s.next, created, false)
    requires Has(s.prim + [x], New) && (s.prim + [x])[Find(s.prim + [x], New)] == x
    requires Destroy(s.prim + [x], New) == s.prim
    ensures Leads(c, s, BREAK(s.next, base, created),
                  s.(partial := Some(Partial(s.next, base)), next := s.next + 1, p := Idle, b := Accepting))
  {
    hide Leads, Takes, Find, Has, Destroy;
    SnapshotSteps(c, s, base, created, false);
    var s1 := s.(prim := s.prim + [x], next := s.next + 1, p := Sending(base));
    LeadsStep(c, s, TakeSnapshot(created), s1);
    var s2 := s1.(toB := Some(Stream(x, false)), p := Failing(base));
    LeadsThen(c, s, [TakeSnapshot(created)], s1, SendStream(false), s2);
    BreakSteps(c, s2, x, base);
    var tok := Some(Partial(s.next, base));
    var s3 := s2.(partial := tok, b := Serving, toB := None);
    LeadsThen(c, s, [TakeSnapshot(created)] + [SendStream(false)], s2, ReceiveFails(tok), s3);
    var s4 := s3.(prim := s.prim, p := Idle);
    LeadsThen(c, s, [TakeSnapshot(created)] + [SendStream(false)] + [ReceiveFails(tok)], s3, DestroyNew, s4);
    GoingDown(c, s4);
    LeadsThen(c, s, [TakeSnapshot(created)] + [SendStream(false)] + [ReceiveFails(tok)] + [DestroyNew], s4, HangUp,
              s4.(b := Accepting));
  }

  lemma AskedToResume(c: Config, s: State, tok: Partial)
    requires s.p == AwaitPlan && s.b.Planning? && s.toP == None && s.partial == Some(tok)
    ensures var t := s.(toP := Some(Planned(PlanResume(tok))), b := ReceivingResume(tok));
      Takes(c, s, Decide, t) && Takes(c, t, ReadPlan, t.(toP := None, p := Resuming(tok)))
  {
  }

  function TRAP(x: Guid, base: Guid, created: int): seq<Action> {
    ASK + [Decide] + PLAN + BREAK(x, base, created) + ASK + [Decide] + [ReadPlan]
  }

  /** From every start a single broken stream leads to a primary that is asked to resume what it no longer has. */
  lemma TrapIsReachable(c: Config, s: State, created: int) returns (t: State, tok: Partial)
    requires Start(s)
    ensures Leads(c, s, TRAP(tok.guid, tok.base, created), t) && t.p == Resuming(tok) && Trapped(t, tok)
    ensures t.prim == s.prim && t.back == s.back && tok == Partial(s.next, Newest(s.back)) == t.partial.value
  {
    hide Leads, Takes, Refs, ASK, PLAN, BREAK, GuidAt, GuidsBelow, Guids, Has, Find, Disciplined, AtChoice, Where;
    hide CommonBase;
    hide ReceiveOnto, Destroy, Newest, Granted, Landed;
    var s1 := StartAtChoice(c, s);
    var x := Snap(New, s.next, created, false);
    TipGranted(c, s1, x);
    var base := Newest(s.back);
    ShipFacts(c, s1, base, Unneeded, x);
    OnlyPrimary(s, x);
    BaseAgreed(c, s1, base, Unneeded);
    tok := Partial(s.next, base);
    var s2 := s1.(toP := None, p := Taking(base), b := ReceivingInc(base, Unneeded));
    LeadsOn(c, s, ASK + [Decide], s1, PLAN, s2);
    Broken(c, s2, base, created, x);
    var s3 := s2.(partial := Some(tok), next := s.next + 1, p := Idle, b := Accepting);
    LeadsOn(c, s, ASK + [Decide] + PLAN, s2, BREAK(s.next, base, created), s3);
    Asked(c, s3);
    var s4 := s3.(p := AwaitPlan, b := Planning(Refs(s.prim)), toB := None, toP := None);
    LeadsOn(c, s, ASK + [Decide] + PLAN + BREAK(s.next, base, created), s3, ASK, s4);
    AskedToResume(c, s4, tok);
    var s5 := s4.(toP := Some(Planned(PlanResume(tok))), b := ReceivingResume(tok));
    LeadsThen(c, s, ASK + [Decide] + PLAN + BREAK(s.next, base, created) + ASK, s4, Decide, s5);
    t := s5.(toP := None, p := Resuming(tok));
    LeadsThen(c, s, ASK + [Decide] + PLAN + BREAK(s.next, base, created) + ASK + [Decide], s5, ReadPlan, t);
  }

  lemma OnlyPrimary(s: State, x: Snap)
    requires Start(s) && x.slot == New && x.guid == s.next
    ensures Destroy(s.prim, New) == s.prim && s.next !in Guids(s.prim) && Destroy(s.prim + [x], New) == s.prim
  {
    BelowMember(s.prim, s.next);
    hide Find, Disciplined, Guids, GuidAt, Destroy;
    DestroyFacts(s.prim, New);
    Appended(s.prim, x);
  }
}

/** What the two sides of a LAN pair keep of each hour and day, over any run of the protocol. */
module ZfsNetRetention {
  import opened Snapshots
  import opened RetentionProofs
  import opened ZfsNet
  import opened ZfsNetProofs
  import opened ZfsNetPlans

  // ---- one expired snapshot goes

  lemma {:induction false} AllStuck(l: Snaps, ret: Retention, now: int, stuck: set<Slot>)
    requires forall x :: x in l ==> x.slot in stuck
    ensures Pruned(l, ret, now, stuck) == l
  {
    if l != [] {
      AllStuck(l[1..], ret, now, stuck);
    }
  }

  lemma {:induction false} PrunedOne(l: Snaps, slot: Slot, ret: Retention, now: int, stuck: set<Slot>)
    requires Disciplined(l) && Has(l, slot) && Expired(l[Find(l, slot)], ret, now)
    requires slot !in stuck && forall x :: x in l && x.slot != slot ==> x.slot in stuck
    ensures Pruned(l, ret, now, stuck) == Destroy(l, slot)
  {
    hide Expired, Disciplined;
    var rest := l[1..];
    if l[0].slot == slot {
      OthersStuck(l, slot, stuck);
      AllStuck(rest, ret, now, stuck);
    } else {
      assert l[0] in l;
      RestDisciplined(l);
      RestFacts(l, slot);
      PrunedOne(rest, slot, ret, now, stuck);
    }
  }

  lemma OthersStuck(l: Snaps, slot: Slot, stuck: set<Slot>)
    requires Disciplined(l) && l != [] && l[0].slot == slot
    requires forall x :: x in l && x.slot != slot ==> x.slot in stuck
    ensures forall x :: x in l[1..] ==> x.slot in stuck
  {
    forall x | x in l[1..] ensures x.slot in stuck {
      var i :| 0 <= i < |l[1..]| && l[1..][i] == x;
      assert l[0].slot != l[i + 1].slot && l[i + 1] in l;
    }
  }

  lemma RestDisciplined(l: Snaps)
    requires Disciplined(l) && l != []
    ensures Disciplined(l[1..])
  {
    var rest := l[1..];
    forall i, j | 0 <= i < j < |rest|
      ensures Rank(rest[i].slot) <= Rank(rest[j].slot) && rest[i].slot != rest[j].slot && rest[i].guid != rest[j].guid {
      assert rest[i] == l[i + 1] && rest[j] == l[j + 1];
    }
  }

  lemma RestFacts(l: Snaps, slot: Slot)
    requires l != [] && l[0].slot != slot && Has(l, slot)
    ensures Has(l[1..], slot) && l[1..][Find(l[1..], slot)] == l[Find(l, slot)]
    ensures Destroy(l, slot) == [l[0]] + Destroy(l[1..], slot)
  {
    var i := Find(l[1..], slot);
    assert Find(l, slot) == i + 1;
    hide Find;
    WithoutLater(l, i);
  }

  lemma WithoutLater(l: Snaps, i: nat)
    requires i + 1 < |l|
    ensures l[..i + 1] + l[i + 2..] == [l[0]] + (l[1..][..i] + l[1..][i + 1..])
  {
    assert l[..i + 1] == [l[0]] + l[1..i + 1];
    assert l[1..][..i] == l[1..i + 1] && l[1..][i + 1..] == l[i + 2..];
  }

  // ---- the primary

  /** What a step of a run evicts on the primary, and what on the backup, which keeps versions in any case. */
  ghost function OwnLeaving(c: Config, s: State, a: Action): set<Eviction> {
    if a.RunOwnStage? && s.p.Rotating? && s.p.stage.Evicting? then Leaving(s.prim, c.versions) else {}
  }

  ghost function BackLeaving(s: State, a: Action): set<Eviction> {
    if a.RunBackStage? && (s.b.PlanRotating? || s.b.MsgRotating?) && s.b.stage.Evicting? then Leaving(s.back, true)
    else {}
  }

  ghost function OwnShelf(s: State, evicted: set<Eviction>): Shelf {
    Shelf(s.prim, evicted, s.now)
  }

  ghost function BackShelf(s: State, evicted: set<Eviction>): Shelf {
    Shelf(s.back, evicted, s.now)
  }

  /** The tier can be kept: hours only as long as days. */
  predicate Keepable(tier: Tier, ret: Retention) {
    tier.Hourly? ==> ret.keepHours * 3600 <= ret.keepDays * 86400
  }

  lemma StageCovers(h: Shelf, st: Stage, keep: bool, tier: Tier, cal: Calendar, ret: Retention)
    requires ShelfOk(h, tier, cal, ret) && tier.NamesDistinct(h.l, cal) && Keepable(tier, ret) && Has(h.l, New)
    requires (st.Shifting? ==> !Has(h.l, N1)) && (st.Promoting? ==> !Has(h.l, N0)) && !st.Pruning?
    ensures ShelfOk(Shelf(RunStage(h.l, st, keep, cal), h.evicted + if st.Evicting? then Leaving(h.l, keep)
      else {}, h.now),
                    tier, cal, ret)
  {
    hide ShelfOk, Has, Evict, ShiftN0, Promote;
    assert h.evicted + {} == h.evicted;
    match st
    case Evicting => StepCovers(h, EvictStep(keep), tier, cal, ret);
    case Shifting => StepCovers(h, ShiftStep, tier, cal, ret);
    case Promoting => StepCovers(h, PromoteStep, tier, cal, ret);
  }

  lemma DestroyCovers(h: Shelf, slot: Slot, tier: Tier, cal: Calendar, ret: Retention)
    requires ShelfOk(h, tier, cal, ret) && tier.NamesDistinct(h.l, cal) && Keepable(tier, ret)
    requires Has(h.l, slot) && Expired(h.l[Find(h.l, slot)], ret, h.now)
    ensures ShelfOk(h.(l := Destroy(h.l, slot)), tier, cal, ret)
  {
    var stuck := (set x | x in h.l :: x.slot) - {slot};
    PrunedOne(h.l, slot, ret, h.now, stuck);
    hide ShelfOk, Has, Find, Expired, Pruned, Destroy;
    StepCovers(h, PruneStep(h.now, stuck), tier, cal, ret);
  }

  /** Steps that change nothing on the primary's dataset but the time. */
  predicate OwnIdle(a: Action) {
    !a.TakeSnapshot? && !a.DestroyStale? && !a.DestroyNew? && !a.MarkOwn? && !a.RunOwnStage? && !a.PruneOwn?
  }

  lemma OwnIdleStep(c: Config, s: State, a: Action)
    requires Enabled(c, s, a) && OwnIdle(a)
    ensures var t := Do(c, s, a); t.prim == s.prim && s.now <= t.now && OwnLeaving(c, s, a) == {}
  {
    hide Find, Guids, GuidAt, Has, Refs, SlotOf, Newest, Destroy, Where, ReceiveOnto, RunStage, Mark, Expired;
    hide CommonBase;
  }

  lemma OwnOther(c: Config, s: State, a: Action)
    requires Enabled(c, s, a) && !OwnIdle(a)
    ensures Do(c, s, a).now == s.now && (!a.RunOwnStage? ==> OwnLeaving(c, s, a) == {})
  {
    hide Find, Guids, GuidAt, Has, Refs, SlotOf, Newest, Destroy, Where, ReceiveOnto, RunStage, Mark, Expired;
    hide CommonBase;
  }

  lemma FreshGuid(c: Config, s: State)
    requires Inv(c, s)
    ensures s.next !in Guids(s.prim)
  {
    hide PrimaryInv, BackupInv, PartialOk, Disciplined;
    BelowMember(s.prim, s.next);
  }

  lemma OwnStageEffect(c: Config, s: State)
    requires Enabled(c, s, RunOwnStage)
    ensures var t := Do(c, s, RunOwnStage);
      && t.prim == RunStage(s.prim, s.p.stage, c.versions, c.cal) && t.now == s.now && !s.p.stage.Pruning?
      && OwnLeaving(c, s, RunOwnStage) == if s.p.stage.Evicting? then Leaving(s.prim, c.versions) else {}
  {
    hide RunStage, Leaving;
  }

  lemma OwnStageCovers(c: Config, s: State, evicted: set<Eviction>, tier: Tier)
    requires Inv(c, s) && Enabled(c, s, RunOwnStage) && ShelfOk(OwnShelf(s, evicted), tier, c.cal, c.primaryRet)
    requires tier.NamesDistinct(s.prim, c.cal) && Keepable(tier, c.primaryRet)
    ensures ShelfOk(OwnShelf(Do(c, s, RunOwnStage), evicted + OwnLeaving(c, s, RunOwnStage)), tier, c.cal, c.primaryRet)
  {
    RenamesFindTheirTargetFree(c, s, RunOwnStage);
    RotationHasNew(c, s, RunOwnStage);
    OwnStageEffect(c, s);
    hide ShelfOk, Inv, Has, RunStage, Leaving, Tier.NamesDistinct, Enabled, Do;
    StageCovers(OwnShelf(s, evicted), s.p.stage, c.versions, tier, c.cal, c.primaryRet);
  }

  /** The other steps of the primary on its own dataset. */
  lemma OwnEffect(c: Config, s: State, a: Action)
    requires Enabled(c, s, a)
    ensures var t := Do(c, s, a);
      && (a.TakeSnapshot? ==> t.prim == s.prim + [Snap(New, s.next, a.created, false)] && !Has(s.prim, New))
      && (a.DestroyStale? || a.DestroyNew? ==> t.prim == Destroy(s.prim, New))
      && (a.MarkOwn? ==> t.prim == Mark(s.prim, New))
      && (a.PruneOwn? ==> t.prim == Destroy(s.prim, a.slot) && Has(s.prim, a.slot)
                          && Expired(s.prim[Find(s.prim, a.slot)], c.primaryRet, s.now))
  {
    hide Find, Has, Destroy, Mark, Expired;
    match a
    case TakeSnapshot(_) =>
    case DestroyStale =>
    case DestroyNew =>
    case MarkOwn =>
    case PruneOwn(_) =>
    case _ =>
  }

  lemma OwnChangeCovers(c: Config, s: State, a: Action, h: Shelf, tier: Tier)
    requires Enabled(c, s, a) && !OwnIdle(a) && !a.RunOwnStage? && s.next !in Guids(s.prim)
    requires h.l == s.prim && h.now == s.now && ShelfOk(h, tier, c.cal, c.primaryRet)
    requires tier.NamesDistinct(h.l, c.cal) && Keepable(tier, c.primaryRet)
    ensures ShelfOk(h.(l := Do(c, s, a).prim), tier, c.cal, c.primaryRet)
  {
    hide ShelfOk, Find, Has, Guids, RunStage, Destroy, Mark, Expired, Tier.NamesDistinct, Enabled, Do;
    OwnEffect(c, s, a);
    if a.TakeSnapshot? {
      StepCovers(h, Take(Snap(New, s.next, a.created, false)), tier, c.cal, c.primaryRet);
    } else if a.MarkOwn? {
      StepCovers(h, MarkNew, tier, c.cal, c.primaryRet);
    } else if a.PruneOwn? {
      DestroyCovers(h, a.slot, tier, c.cal, c.primaryRet);
    } else {
      StepCovers(h, Discard, tier, c.cal, c.primaryRet);
    }
  }

  lemma OwnStepCovers(c: Config, s: State, a: Action, evicted: set<Eviction>, tier: Tier)
    requires Inv(c, s) && Enabled(c, s, a) && ShelfOk(OwnShelf(s, evicted), tier, c.cal, c.primaryRet)
    requires tier.NamesDistinct(s.prim, c.cal) && Keepable(tier, c.primaryRet)
    ensures ShelfOk(OwnShelf(Do(c, s, a), evicted + OwnLeaving(c, s, a)), tier, c.cal, c.primaryRet)
  {
    var h := OwnShelf(s, evicted);
    FreshGuid(c, s);
    hide ShelfOk, Inv, Find, Has, Guids, RunStage, Destroy, Mark, Expired, Leaving, Tier.NamesDistinct, OwnLeaving;
    hide Enabled, Do;
    assert evicted + {} == evicted;
    if OwnIdle(a) {
      OwnIdleStep(c, s, a);
      StepCovers(h, WaitStep(Do(c, s, a).now), tier, c.cal, c.primaryRet);
    } else if a.RunOwnStage? {
      OwnStageCovers(c, s, evicted, tier);
    } else {
      OwnOther(c, s, a);
      OwnChangeCovers(c, s, a, h, tier);
    }
  }

  lemma RotationHasNew(c: Config, s: State, a: Action)
    requires Inv(c, s) && Enabled(c, s, a) && (a.RunOwnStage? || a.RunBackStage?)
    ensures Has(if a.RunOwnStage? then s.prim else s.back, New)
  {
    hide Find, Disciplined, Guids, Shared, BackNewOk, GuidsBelow, PartialOk;
  }

  ghost function OwnHistory(c: Config, run: seq<State>, steps: seq<Action>, i: nat): set<Eviction>
    requires i <= |steps| && |run| == |steps| + 1
  {
    if i == 0 then {} else OwnHistory(c, run, steps, i - 1) + OwnLeaving(c, run[i - 1], steps[i - 1])
  }

  /** The primary over any run, approved rollbacks and crashes included: whatever hour or day of its window has lost an
      n1 to a rotation is still there, in the tiers the rotation keeps. */
  lemma {:induction false} PrimaryCoverage(c: Config, run: seq<State>, steps: seq<Action>, i: nat, tier: Tier)
    requires IsRun(c, run, steps) && i < |run| && Start(run[0]) && Labelled(run[0].prim, c.cal)
    requires Keepable(tier, c.primaryRet) && forall j :: 0 <= j < |run| ==> tier.NamesDistinct(run[j].prim, c.cal)
    ensures ShelfOk(OwnShelf(run[i], OwnHistory(c, run, steps, i)), tier, c.cal, c.primaryRet)
  {
    hide Inv, Enabled, Do, Labelled, Tier.NamesDistinct;
    if i > 0 {
      PrimaryCoverage(c, run, steps, i - 1, tier);
      RunKeepsInv(c, run, steps, i - 1);
      OwnStepCovers(c, run[i - 1], steps[i - 1], OwnHistory(c, run, steps, i - 1), tier);
    }
  }

  // ---- the backup

  predicate BackIdle(a: Action) {
    && !a.Decide? && !a.MarkBack? && !a.RunBackStage? && !a.PruneBack?
    && !a.ReceiveIncArrives? && !a.ReceiveResumeArrives?
  }

  lemma BackIdleStep(c: Config, s: State, a: Action)
    requires Enabled(c, s, a) && BackIdle(a)
    ensures var t := Do(c, s, a); t.back == s.back && s.now <= t.now && BackLeaving(s, a) == {}
  {
    hide Find, Guids, GuidAt, Has, Refs, SlotOf, Newest, Destroy, Where, ReceiveOnto, RunStage, Mark, Expired;
    hide CommonBase;
  }

  lemma BackOther(c: Config, s: State, a: Action)
    requires Enabled(c, s, a) && !BackIdle(a)
    ensures Do(c, s, a).now == s.now && (!a.RunBackStage? ==> BackLeaving(s, a) == {})
  {
    hide Find, Guids, GuidAt, Has, Refs, SlotOf, Newest, Destroy, Where, ReceiveOnto, RunStage, Mark, Expired;
    hide CommonBase;
  }

  lemma BackStageEffect(c: Config, s: State)
    requires Enabled(c, s, RunBackStage)
    ensures var t := Do(c, s, RunBackStage);
      && (s.b.PlanRotating? || s.b.MsgRotating?) && !s.b.stage.Pruning?
      && t.back == RunStage(s.back, s.b.stage, true, c.cal) && t.now == s.now
      && BackLeaving(s, RunBackStage) == if s.b.stage.Evicting? then Leaving(s.back, true) else {}
  {
    hide RunStage, Leaving;
  }

  lemma BackStageFits(c: Config, s: State)
    requires Inv(c, s) && Enabled(c, s, RunBackStage) && (s.b.PlanRotating? || s.b.MsgRotating?)
    ensures Has(s.back, New) && (s.b.stage.Shifting? ==> !Has(s.back, N1))
    ensures (s.b.stage.Promoting? ==> !Has(s.back, N0))
  {
    hide Find, Disciplined, Guids, Shared, BackNewOk, GuidsBelow, PartialOk, PrimaryInv;
  }

  lemma BackStageCovers(c: Config, s: State, evicted: set<Eviction>, tier: Tier)
    requires Inv(c, s) && Enabled(c, s, RunBackStage) && ShelfOk(BackShelf(s, evicted), tier, c.cal, c.backupRet)
    requires tier.NamesDistinct(s.back, c.cal) && Keepable(tier, c.backupRet)
    ensures ShelfOk(BackShelf(Do(c, s, RunBackStage), evicted + BackLeaving(s, RunBackStage)), tier, c.cal, c.backupRet)
  {
    hide ShelfOk, Inv, Has, RunStage, Leaving, Tier.NamesDistinct, Enabled, Do, BackLeaving;
    BackStageEffect(c, s);
    BackStageFits(c, s);
    StageCovers(BackShelf(s, evicted), s.b.stage, true, tier, c.cal, c.backupRet);
  }

  /** The other steps of the backup on its own dataset, apart from receiving. */
  lemma BackEffect(c: Config, s: State, a: Action)
    requires Enabled(c, s, a)
    ensures var t := Do(c, s, a);
      && (a.Decide? ==> t.back == s.back || t.back == Destroy(s.back, New))
      && (a.MarkBack? ==> t.back == Mark(s.back, New))
      && (a.PruneBack? ==> t.back == Destroy(s.back, a.slot) && Has(s.back, a.slot)
                           && Expired(s.back[Find(s.back, a.slot)], c.backupRet, s.now))
  {
    hide Find, Has, Destroy, Mark, Expired, SlotOf, GuidAt;
    match a
    case Decide =>
    case MarkBack =>
    case PruneBack(_) =>
    case _ =>
  }

  /** Without an approval and in ask mode a receive only adds. */
  lemma ReceiveAppends(c: Config, s: State, a: Action) returns (x: Snap)
    requires Inv(c, s) && Unapproved(s) && Enabled(c, s, a) && !c.rollbackAuto
    requires a.ReceiveIncArrives? || a.ReceiveResumeArrives?
    ensures Do(c, s, a).back == s.back + [x] && x.slot == New && !Has(s.back, New) && x.guid !in Guids(s.back)
  {
    hide Find, Guids, GuidAt, Has, MidRotation, Shared, BackNewOk, HeldOld, OnlyAsNew, GuidsBelow, Newest, PrimaryInv;
    hide Tips, SameTip, NewUnknown, Where, ReceiveOnto;
    x := s.toB.value.snap;
    if a.ReceiveIncArrives? {
      UnneededGrant(c, s);
      OnNewest(s.prim, s.back, x);
      NoNewBelowBase(s.prim, s.back);
    } else if Has(s.back, New) {
      NewIsNewest(s.back);
    }
  }

  lemma NoNewBelowBase(prim: Snaps, back: Snaps)
    requires Disciplined(back) && back != [] && NewUnknown(prim, back) && HeldOld(prim, Newest(back))
    ensures !Has(back, New)
  {
    if Has(back, New) {
      NewIsNewest(back);
      BaseIsNotNew(prim, back, Newest(back));
    }
  }

  lemma BackStepCovers(c: Config, s: State, a: Action, evicted: set<Eviction>, tier: Tier)
    requires Inv(c, s) && Unapproved(s) && Enabled(c, s, a) && !c.rollbackAuto
    requires ShelfOk(BackShelf(s, evicted), tier, c.cal, c.backupRet)
    requires tier.NamesDistinct(s.back, c.cal) && Keepable(tier, c.backupRet)
    ensures ShelfOk(BackShelf(Do(c, s, a), evicted + BackLeaving(s, a)), tier, c.cal, c.backupRet)
  {
    var h := BackShelf(s, evicted);
    hide ShelfOk, Inv, Find, Has, Guids, RunStage, Destroy, Mark, Expired, Leaving, Tier.NamesDistinct, BackLeaving;
    hide Enabled, Do, Unapproved;
    assert evicted + {} == evicted;
    BackEffect(c, s, a);
    if BackIdle(a) {
      BackIdleStep(c, s, a);
      StepCovers(h, WaitStep(Do(c, s, a).now), tier, c.cal, c.backupRet);
    } else if a.RunBackStage? {
      BackStageCovers(c, s, evicted, tier);
    } else {
      BackOther(c, s, a);
      if a.Decide? {
        StepCovers(h, Discard, tier, c.cal, c.backupRet);
      } else if a.MarkBack? {
        StepCovers(h, MarkNew, tier, c.cal, c.backupRet);
      } else if a.PruneBack? {
        DestroyCovers(h, a.slot, tier, c.cal, c.backupRet);
      } else {
        var x := ReceiveAppends(c, s, a);
        StepCovers(h, Take(x), tier, c.cal, c.backupRet);
      }
    }
  }

  ghost function BackHistory(run: seq<State>, steps: seq<Action>, i: nat): set<Eviction>
    requires i <= |steps| && |run| == |steps| + 1
  {
    if i == 0 then {} else BackHistory(run, steps, i - 1) + BackLeaving(run[i - 1], steps[i - 1])
  }

  /** The backup over any run in ask mode without approval: whatever hour or day of its window has lost an n1 to a
      rotation is still there, whether or not the primary keeps versions. */
  lemma {:induction false} BackupCoverage(c: Config, run: seq<State>, steps: seq<Action>, i: nat, tier: Tier)
    requires IsRun(c, run, steps) && i < |run| && Start(run[0]) && run[0].placed == {} && !c.rollbackAuto
    requires Labelled(run[0].back, c.cal) && forall k :: 0 <= k < i ==> !steps[k].PlaceApproval?
    requires Keepable(tier, c.backupRet) && forall j :: 0 <= j < |run| ==> tier.NamesDistinct(run[j].back, c.cal)
    ensures ShelfOk(BackShelf(run[i], BackHistory(run, steps, i)), tier, c.cal, c.backupRet)
  {
    hide Inv, Enabled, Do, Labelled, Tier.NamesDistinct, Unapproved;
    if i > 0 {
      BackupCoverage(c, run, steps, i - 1, tier);
      RunKeepsInv(c, run, steps, i - 1);
      RunKeepsUnapproved(c, run, steps, i - 1);
      BackStepCovers(c, run[i - 1], steps[i - 1], BackHistory(run, steps, i - 1), tier);
    }
  }
}

/** Two crashes of the primary can take the last common snapshot from a pair whose sides hold the same data. */
module ZfsNetRebase {
  import opened Options
  import opened Snapshots
  import opened SnapshotProofs
  import opened ZfsNet
  import opened ZfsNetProofs
  import opened ZfsNetCycle
  import opened ZfsNetRecovery

  const HALF_OWN: seq<Action> := [RunOwnStage] + [RunOwnStage] + CRASH

  /** The primary dies between the two renames of its rotation. */
  lemma HalfRotated(c: Config, s: State)
    requires s.p == Rotating(Evicting, true) && s.b == Serving
    ensures Leads(c, s, HALF_OWN,
                  s.(prim := ShiftN0(Evict(s.prim, c.versions, c.cal)), p := Idle, b := Accepting, toB := None))
  {
    hide Leads, Takes, Evict, ShiftN0, CRASH;
    OwnStage(c, s, Evicting, true);
    var s1 := s.(prim := Evict(s.prim, c.versions, c.cal), p := Rotating(Shifting, true));
    LeadsStep(c, s, RunOwnStage, s1);
    OwnStage(c, s1, Shifting, true);
    var s2 := s1.(prim := ShiftN0(s1.prim), p := Rotating(Promoting, true));
    LeadsThen(c, s, [RunOwnStage], s1, RunOwnStage, s2);
    Crashed(c, s2);
    LeadsOn(c, s, [RunOwnStage] + [RunOwnStage], s2, CRASH, s2.(p := Idle, b := Accepting, toB := None));
  }

  const HEAR: seq<Action> := ASK + [Decide] + STAGES + [EndBackRotation] + [ReadPlan] + [RunOwnStage] + CRASH

  /** Asked again, the backup rotates and says so; the primary dies after the first command of its own rotation. */
  lemma HeardAndDied(c: Config, s: State)
    requires s.p == Idle && s.b == Accepting && s.partial == None && Disciplined(s.prim) && Disciplined(s.back)
    requires Has(s.back, New) && GuidAt(s.prim, New) == GuidAt(s.back, New)
    ensures Leads(c, s, HEAR,
                  s.(prim := Evict(s.prim, c.versions, c.cal), back := Rotated(s.back, true, c.cal), toB := None,
                    toP := None))
  {
    hide Leads, Takes, Has, GuidAt, Refs, Rotated, Evict, ASK, STAGES, CRASH, Disciplined;
    AskedAndRotated(c, s, New);
    var h := Refs(s.prim);
    var s1 := s.(back := Rotated(s.back, true, c.cal), p := AwaitPlan, b := PlanRotating(Pruning, h, New),
                 toB := None, toP := None);
    HearPlan(c, s1, h);
    var s2 := s1.(b := Serving, toP := Some(Planned(PlanRotate)));
    LeadsThen(c, s, ASK + [Decide] + STAGES, s1, EndBackRotation, s2);
    var s3 := s1.(b := Serving, toP := None, p := Rotating(Evicting, false));
    LeadsThen(c, s, ASK + [Decide] + STAGES + [EndBackRotation], s2, ReadPlan, s3);
    OwnStage(c, s3, Evicting, false);
    var s4 := s3.(prim := Evict(s3.prim, c.versions, c.cal), p := Rotating(Shifting, false));
    LeadsThen(c, s, ASK + [Decide] + STAGES + [EndBackRotation] + [ReadPlan], s3, RunOwnStage, s4);
    Crashed(c, s4);
    LeadsOn(c, s, ASK + [Decide] + STAGES + [EndBackRotation] + [ReadPlan] + [RunOwnStage], s4, CRASH,
            s4.(p := Idle, b := Accepting, toB := None));
  }

  /** What the two halves of a rotation make of a primary that held one snapshot. */
  lemma OneByOne(y: Snap, x: Snap, cal: Calendar)
    requires y.slot == N0 && x.slot == New && !y.frozen && y.guid != x.guid
    ensures ShiftN0(Evict([y] + [x], false, cal)) == [y.(slot := N1), x]
    ensures Evict([y.(slot := N1), x], false, cal) == [x]
  {
    var l := [y] + [x];
    assert l == [y, x];
    SlotsOfTwo(y, x);
    assert Evict(l, false, cal) == l;
    var m := [y.(slot := N1), x];
    assert ShiftN0(l) == Relabel(l, N0, N1) == m;
    SlotsOfTwo(y.(slot := N1), x);
    assert m[..0] + m[1..] == [x];
  }

  lemma SlotsOfTwo(y: Snap, x: Snap)
    requires y.slot != x.slot
    ensures Find([y, x], y.slot) == 0 && Find([y, x], x.slot) == 1
    ensures forall slot :: slot != y.slot && slot != x.slot ==> Find([y, x], slot) == -1
  {
    assert [y, x][1..] == [x] && [x][1..] == [];
  }

  function DIE_TWICE(created: int): seq<Action> {
    ASK + [Decide] + (PLAN + SHIP(created)) + HALF_OWN + HEAR
  }

  lemma DiedOnce(c: Config, s: State, created: int, x: Snap, y: Snap) returns (t: State)
    requires Start(s) && s.prim == [y] && !y.frozen && !c.versions && x == Snap(New, s.next, created, false)
    ensures Leads(c, s, ASK + [Decide] + (PLAN + SHIP(created)) + HALF_OWN, t)
    ensures t == s.(prim := [y.(slot := N1), x], back := s.back + [x], next := s.next + 1, toB := None, toP := None)
    ensures Disciplined(s.back + [x]) && Has(s.back + [x], New) && GuidAt(s.back + [x], New) == Some(x.guid)
  {
    TheOnlyOne(s);
    OneByOne(y, x, c.cal);
    hide Leads, Has, GuidAt, ASK, PLAN, SHIP, HALF_OWN, Disciplined, Destroy, Evict, ShiftN0, Start;
    var s2 := StartShipped(c, s, created);
    HalfRotated(c, s2);
    t := s2.(prim := [y.(slot := N1), x], p := Idle, b := Accepting, toB := None);
    LeadsOn(c, s, ASK + [Decide] + (PLAN + SHIP(created)), s2, HALF_OWN, t);
  }

  /** In its first cycle a primary that keeps no versions can, by dying twice, come to hold nothing but its new.  The
      backup has that very snapshot as n0, but a new is no base: whatever is approved, nothing is sent ever again. */
  lemma NoWayBack(c: Config, s: State, created: int) returns (t: State)
    requires Start(s) && |s.prim| == 1 && !s.prim[0].frozen && !c.versions
    ensures Leads(c, s, DIE_TWICE(created), t) && LeftBehind(c, t) && CommonBase(Refs(t.prim), t.back) == None
    ensures GuidAt(t.prim, New) == GuidAt(t.back, N0) == Some(s.next)
  {
    var y, x := s.prim[0], Snap(New, s.next, created, false);
    TheOnlyOne(s);
    OneByOne(y, x, c.cal);
    hide Leads, Find, Has, GuidAt, Refs, ASK, PLAN, SHIP, HALF_OWN, HEAR, Disciplined, CommonBase, Guids, Rotated;
    hide Evict;
    hide ShiftN0, Start, LeftBehind;
    var s3 := DiedOnce(c, s, created, x, y);
    TwoSnaps(y.(slot := N1), x);
    HeardAndDied(c, s3);
    t := s3.(prim := [x], back := Rotated(s3.back, true, c.cal));
    LeadsOn(c, s, ASK + [Decide] + (PLAN + SHIP(created)) + HALF_OWN, s3, HEAR, t);
    RotatedFacts(s.back + [x], true, c.cal);
    OnlyNew(c, t, x);
  }

  lemma TheOnlyOne(s: State)
    requires Start(s) && |s.prim| == 1
    ensures s.prim == [s.prim[0]] && s.prim[0].slot == N0 && s.prim[0].guid < s.next
    ensures Destroy(s.prim, New) == s.prim && s.partial == None && s.toB == None && s.toP == None && s.approve == None
    ensures s.p == Idle && s.b == Accepting
  {
    var y := s.prim[0];
    assert y in s.prim && y.guid in Guids(s.prim);
    BelowMember(s.prim, s.next);
    assert s.prim[Find(s.prim, N0)] == y;
  }

  lemma TwoSnaps(y: Snap, x: Snap)
    requires y.slot == N1 && x.slot == New && y.guid != x.guid
    ensures Disciplined([y, x]) && GuidAt([y, x], New) == Some(x.guid)
  {
    SlotsOfTwo(y, x);
  }

  lemma OnlyNew(c: Config, t: State, x: Snap)
    requires t.prim == [x] && x.slot == New && GuidAt(t.back, N0) == Some(x.guid) && !Has(t.back, New)
    requires t.p == Idle && t.b == Accepting && t.partial == None
    ensures LeftBehind(c, t) && CommonBase(Refs(t.prim), t.back) == None && GuidAt(t.prim, New) == Some(x.guid)
  {
    assert Refs(t.prim) == [SnapRef(New, x.guid)];
    assert Refs(t.prim)[..0] == [];
    assert Find([x], New) == 0;
  }
}

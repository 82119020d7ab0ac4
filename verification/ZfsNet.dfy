/** LAN mode: primary and backup on two hosts, talking over one connection at a time (zfsnet.go).

    Every zfs command and every message is one step; either process may die and the connection may
    break between any two steps.  The backup serves one connection after the other, so a new dial
    waits until the old handler has returned. */
module ZfsNet {
  import opened Options
  import opened Snapshots

  // ---- messages

  datatype Plan = PlanInc(base: Guid) | PlanResume(token: Partial) | PlanRotate | PlanBlocked | PlanError

  datatype ToBackup =
    | Hello(refs: seq<SnapRef>)
    | Stream(snap: Snap, complete: bool)   // incomplete: the connection broke inside the stream
    | RotateNow

  datatype ToPrimary = Planned(plan: Plan) | Done(ok: bool, newGuid: Option<Guid>)

  // ---- where the two processes stand

  datatype Stage = Evicting | Shifting | Promoting | Pruning

  datatype PrimaryPc =
    | Idle                                     // not connected: between cycles, or just restarted
    | Dialed
    | AwaitPlan
    | Stale(base: Guid)                        // plan inc: an old new of its own goes first
    | Taking(base: Guid)
    | Sending(base: Guid)
    | AwaitDone(base: Guid)
    | Failing(base: Guid)                      // about to destroy its new
    | Resuming(token: Partial)
    | AwaitResumed(token: Partial)
    | Rotating(stage: Stage, tell: bool)       // tell: the backup has yet to rotate
    | RotatedTell
    | AwaitRotated

  /** Why a plan inc was allowed although the base is not the newest snapshot of the backup. */
  datatype Grant = Unneeded | Automatic | Approved

  datatype BackupPc =
    | Accepting
    | Serving                                  // connected, waiting for a frame
    | Planning(hello: seq<SnapRef>)
    | PlanRotating(stage: Stage, hello: seq<SnapRef>, slot: Slot)
    | Choosing(hello: seq<SnapRef>)
    | ReceivingInc(base: Guid, grant: Grant)
    | ReceivingResume(token: Partial)
    | MsgRotating(stage: Stage)

  datatype Config = Config(
    versions: bool, rollbackAuto: bool, cal: Calendar, primaryRet: Retention, backupRet: Retention)

  datatype State = State(
    prim: Snaps, back: Snaps, partial: Option<Partial>,
    p: PrimaryPc, b: BackupPc, toB: Option<ToBackup>, toP: Option<ToPrimary>,
    next: Guid, approve: Option<(Guid, Guid)>, placed: set<(Guid, Guid)>, now: int)

  // ---- rotation, one command at a time

  function NextStage(st: Stage): Stage {
    match st
    case Evicting => Shifting
    case Shifting => Promoting
    case _ => Pruning
  }

  function RunStage(l: Snaps, st: Stage, keep: bool, cal: Calendar): Snaps {
    match st
    case Evicting => Evict(l, keep, cal)
    case Shifting => ShiftN0(l)
    case Promoting => Promote(l)
    case Pruning => l
  }

  // ---- steps

  datatype Action =
    // environment
    | Tick(t: int)
    | PlaceApproval(pair: (Guid, Guid))
    | CutStream
    // primary
    | Dial | SendHello | ReadPlan | DestroyStale | TakeSnapshot(created: int) | SendStream(complete: bool) | SendFails
    | ReadDone | DestroyNew | MarkOwn | RunOwnStage | PruneOwn(slot: Slot) | EndOwnRotation | SendRotate | ReadRotated
    | SendResumed(complete: bool) | ReadResumed | PrimaryDies
    // backup
    | ReadHello | Decide | KeepNew | RunBackStage | PruneBack(slot: Slot) | EndBackRotation | RotationFails | Choose
    | ReceiveIncArrives | ReceiveResumeArrives | ReceiveFails(left: Option<Partial>) | IgnoreStream
    | ReadRotateNow | MarkBack | HangUp | BackupDies

  /** A frame reaches the backup only while a handler is running. */
  function Deliver(s: State, m: ToBackup): State {
    if s.b.Accepting? then s else s.(toB := Some(m))
  }

  /** The slot the primary's hello gives for a GUID, if it lists it. */
  function SlotOf(refs: seq<SnapRef>, g: Guid): Option<Slot> {
    if refs == [] then None
    else if refs[|refs| - 1].guid == g then Some(refs[|refs| - 1].slot)
    else SlotOf(refs[..|refs| - 1], g)
  }

  /** The snapshot that the increment being received builds on. */
  function ReceiveBase(b: BackupPc): Guid
    requires b.ReceivingInc? || b.ReceivingResume?
  {
    if b.ReceivingInc? then b.base else b.token.base
  }

  ghost predicate Enabled(c: Config, s: State, a: Action) {
    match a
    case Tick(t) => s.now <= t
    case PlaceApproval(_) => true
    case CutStream => s.toB.Some? && s.toB.value.Stream?
    case Dial => s.p.Idle? && s.b.Accepting?
    case SendHello => s.p.Dialed?
    case ReadPlan => s.p.AwaitPlan? && s.toP.Some? && s.toP.value.Planned?
    case DestroyStale => s.p.Stale?
    case TakeSnapshot(_) => s.p.Taking? && !Has(s.prim, New)
    case SendStream(_) => s.p.Sending? && Has(s.prim, New)
    case SendFails => s.p.Sending? || s.p.AwaitDone?
    case ReadDone => s.p.AwaitDone? && s.toP.Some? && s.toP.value.Done?
    case DestroyNew => s.p.Failing?
    case MarkOwn => s.p == Rotating(Evicting, true)
    case RunOwnStage => s.p.Rotating? && !s.p.stage.Pruning?
    case PruneOwn(slot) =>
      && s.p.Rotating? && s.p.stage.Pruning? && Has(s.prim, slot)
      && Expired(s.prim[Find(s.prim, slot)], c.primaryRet, s.now)
    case EndOwnRotation => s.p.Rotating? && s.p.stage.Pruning?
    case SendRotate => s.p.RotatedTell?
    case ReadRotated => s.p.AwaitRotated? && s.toP.Some? && s.toP.value.Done?
    case SendResumed(_) => s.p.Resuming? && Where(s.prim, s.p.token.guid) >= 0
    case ReadResumed => s.p.AwaitResumed? && s.toP.Some? && s.toP.value.Done?
    case PrimaryDies => true
    case ReadHello => s.b.Serving? && s.toB.Some? && s.toB.value.Hello?
    case Decide => s.b.Planning?
    case KeepNew => s.b.Planning? && s.partial == None && Has(s.back, New)
      && SlotOf(s.b.hello, GuidAt(s.back, New).value) != Some(New)
      && SlotOf(s.b.hello, GuidAt(s.back, New).value) != Some(N0)
    case RunBackStage => (s.b.PlanRotating? || s.b.MsgRotating?) && !s.b.stage.Pruning?
    case PruneBack(slot) =>
      && (s.b.PlanRotating? || s.b.MsgRotating?) && s.b.stage.Pruning? && Has(s.back, slot)
      && Expired(s.back[Find(s.back, slot)], c.backupRet, s.now)
    case EndBackRotation => (s.b.PlanRotating? || s.b.MsgRotating?) && s.b.stage.Pruning?
    case RotationFails => s.b.PlanRotating? || s.b.MsgRotating?
    case Choose => s.b.Choosing?
    case ReceiveIncArrives => s.b.ReceivingInc? && s.toB.Some? && s.toB.value.Stream? && Where(s.back, s.b.base) >= 0
    case ReceiveResumeArrives =>
      s.b.ReceivingResume? && s.toB.Some? && s.toB.value.Stream? && s.back != [] && Newest(s.back) == s.b.token.base
    case ReceiveFails(left) => (s.b.ReceivingInc? || s.b.ReceivingResume?)
      && (left == s.partial || left == None
          || (s.toB.Some? && s.toB.value.Stream? && left == Some(Partial(s.toB.value.snap.guid, ReceiveBase(s.b)))))
    case IgnoreStream => s.b.Serving? && s.toB.Some? && s.toB.value.Stream?
    case ReadRotateNow => s.b.Serving? && s.toB == Some(RotateNow)
    case MarkBack => s.b == MsgRotating(Evicting)
    case HangUp => s.b.Serving?
    case BackupDies => true
  }

  // ---- what each step does: the primary

  function DoReadPlan(s: State): State
    requires s.toP.Some? && s.toP.value.Planned?
  {
    s.(toP := None, p := match s.toP.value.plan
       case PlanInc(base) => Stale(base)
       case PlanResume(token) => Resuming(token)
       case PlanRotate => Rotating(Evicting, false)
       case PlanBlocked => Idle
       case PlanError => Idle)
  }

  function DoTakeSnapshot(s: State, created: int): State
    requires s.p.Taking?
  {
    s.(prim := s.prim + [Snap(New, s.next, created, false)], next := s.next + 1, p := Sending(s.p.base))
  }

  function DoSendStream(s: State, complete: bool): State
    requires s.p.Sending? && Has(s.prim, New)
  {
    Deliver(s, Stream(s.prim[Find(s.prim, New)].(frozen := false), complete))
      .(p := if complete then AwaitDone(s.p.base) else Failing(s.p.base))
  }

  /** The confirmation: the backup must name the GUID of the primary's own new. */
  function DoReadDone(s: State): State
    requires s.p.AwaitDone? && s.toP.Some? && s.toP.value.Done?
  {
    s.(toP := None,
       p := if s.toP.value.ok && s.toP.value.newGuid.Some? && GuidAt(s.prim, New) == s.toP.value.newGuid
            then Rotating(Evicting, true) else Failing(s.p.base))
  }

  function DoSendResumed(s: State, complete: bool): State
    requires s.p.Resuming? && Where(s.prim, s.p.token.guid) >= 0
  {
    Deliver(s, Stream(s.prim[Where(s.prim, s.p.token.guid)].(slot := New, frozen := false), complete))
      .(p := if complete then AwaitResumed(s.p.token) else Idle)
  }

  // ---- what each step does: the backup

  /** planBackup up to the point where a rotation is due or the base has to be chosen. */
  function DoDecide(s: State): State
    requires s.b.Planning?
  {
    var h := s.b.hello;
    if s.partial.Some? then s.(toP := Some(Planned(PlanResume(s.partial.value))), b := ReceivingResume(s.partial.value))
    else if Has(s.back, New) then
      match SlotOf(h, GuidAt(s.back, New).value)
      case Some(New) => s.(b := PlanRotating(Evicting, h, New))
      case Some(N0) => s.(b := PlanRotating(Evicting, h, N0))
      case _ => s.(back := Destroy(s.back, New), b := Choosing(h))
    else s.(b := Choosing(h))
  }

  /** The end of planBackup: the newest common base and the rollback gate. */
  function DoChoose(c: Config, s: State): State
    requires s.b.Choosing?
  {
    var base := CommonBase(s.b.hello, s.back);
    if s.back == [] || base.None? then s.(toP := Some(Planned(PlanError)), b := Serving)
    else
      var newest := Newest(s.back);
      var sends := s.(toP := Some(Planned(PlanInc(base.value))));
      if base.value == newest then sends.(b := ReceivingInc(base.value, Unneeded))
      else if c.rollbackAuto then sends.(b := ReceivingInc(base.value, Automatic))
      else if s.approve == Some((base.value, newest)) then sends.(b := ReceivingInc(base.value, Approved))
      else s.(toP := Some(Planned(PlanBlocked)), b := Serving)
  }

  function SetStage(b: BackupPc, st: Stage): BackupPc
    requires b.PlanRotating? || b.MsgRotating?
  {
    if b.PlanRotating? then b.(stage := st) else MsgRotating(st)
  }

  function DoEndBackRotation(s: State): State
    requires s.b.PlanRotating? || s.b.MsgRotating?
  {
    if s.b.MsgRotating? then s.(b := Serving, toP := Some(Done(true, None)))
    else if s.b.slot == New then s.(b := Serving, toP := Some(Planned(PlanRotate)))
    else s.(b := Choosing(s.b.hello))
  }

  function DoRotationFails(s: State): State
    requires s.b.PlanRotating? || s.b.MsgRotating?
  {
    s.(b := Serving, toP := Some(if s.b.MsgRotating? then Done(false, None) else Planned(PlanError)))
  }

  /** The answer to a stream: only a stream that came to its end is answered. */
  function Answer(s: State, back: Snaps, complete: bool): Option<ToPrimary> {
    if complete then Some(Done(true, GuidAt(back, New))) else s.toP
  }

  function DoReceiveInc(s: State): State
    requires s.b.ReceivingInc? && s.toB.Some? && s.toB.value.Stream? && Where(s.back, s.b.base) >= 0
  {
    var back := ReceiveOnto(s.back, Where(s.back, s.b.base), s.toB.value.snap);
    s.(back := back, partial := None, b := Serving, toB := None, toP := Answer(s, back, s.toB.value.complete),
       approve := if s.toB.value.complete then None else s.approve)
  }

  function DoReceiveResume(s: State): State
    requires s.b.ReceivingResume? && s.toB.Some? && s.toB.value.Stream?
  {
    var back := s.back + [s.toB.value.snap];
    s.(back := back, partial := None, b := Serving, toB := None, toP := Answer(s, back, s.toB.value.complete))
  }

  function DoReceiveFails(s: State, left: Option<Partial>): State {
    s.(partial := left, b := Serving, toB := None,
       toP := if s.toB.Some? && s.toB.value.Stream? && s.toB.value.complete then Some(Done(false, None)) else s.toP)
  }

  function Do(c: Config, s: State, a: Action): State
    requires Enabled(c, s, a)
  {
    match a
    case Tick(t) => s.(now := t)
    case PlaceApproval(pair) => s.(approve := Some(pair), placed := s.placed + {pair})
    case CutStream => s.(toB := Some(s.toB.value.(complete := false)))
    case Dial => s.(p := Dialed, b := Serving, toB := None, toP := None)
    case SendHello => Deliver(s, Hello(Refs(s.prim))).(p := AwaitPlan)
    case ReadPlan => DoReadPlan(s)
    case DestroyStale => s.(prim := Destroy(s.prim, New), p := Taking(s.p.base))
    case TakeSnapshot(created) => DoTakeSnapshot(s, created)
    case SendStream(complete) => DoSendStream(s, complete)
    case SendFails => s.(p := Failing(s.p.base))
    case ReadDone => DoReadDone(s)
    case DestroyNew => s.(prim := Destroy(s.prim, New), p := Idle)
    case MarkOwn => s.(prim := Mark(s.prim, New))
    case RunOwnStage =>
      s.(prim := RunStage(s.prim, s.p.stage, c.versions, c.cal), p := s.p.(stage := NextStage(s.p.stage)))
    case PruneOwn(slot) => s.(prim := Destroy(s.prim, slot))
    case EndOwnRotation => s.(p := if s.p.tell then RotatedTell else Idle)
    case SendRotate => Deliver(s, RotateNow).(p := AwaitRotated)
    case ReadRotated => s.(toP := None, p := Idle)
    case SendResumed(complete) => DoSendResumed(s, complete)
    case ReadResumed => s.(toP := None, p := Idle)
    case PrimaryDies => s.(p := Idle)
    case ReadHello => s.(toB := None, b := Planning(s.toB.value.refs))
    case Decide => DoDecide(s)
    case KeepNew => s.(b := Choosing(s.b.hello)) // the destroy of the stale new failed, which is ignored
    case RunBackStage => s.(back := RunStage(s.back, s.b.stage, true, c.cal), b := SetStage(s.b, NextStage(s.b.stage)))
    case PruneBack(slot) => s.(back := Destroy(s.back, slot))
    case EndBackRotation => DoEndBackRotation(s)
    case RotationFails => DoRotationFails(s)
    case Choose => DoChoose(c, s)
    case ReceiveIncArrives => DoReceiveInc(s)
    case ReceiveResumeArrives => DoReceiveResume(s)
    case ReceiveFails(left) => DoReceiveFails(s, left)
    case IgnoreStream => s.(toB := None)
    case ReadRotateNow =>
      if Has(s.back, New) then s.(toB := None, b := MsgRotating(Evicting))
        else s.(toB := None, toP := Some(Done(false, None)))
    case MarkBack => s.(back := Mark(s.back, New))
    case HangUp => s.(b := Accepting, toB := None)
    case BackupDies => s.(b := Accepting, toB := None)
  }
}

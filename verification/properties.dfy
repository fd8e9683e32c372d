/**
 * What the reconciliation steps promise: one group of lemmas per handler, the
 * routing of frames, an invariant every event preserves, and two scenarios.
 */
module ReconcileProperties {
  import opened Wrappers
  import opened Hap
  import opened Communication
  import opened Reconcile

  // ---------------------------------------------------------------- status reply

  /** First status reply: the contact reading alone sets all three door fields. */
  lemma GetStatusInitialises(c: Context, open: bool)
    requires !Initialized(c)
    ensures var r := GetStatusStep(c, Some(open));
      var s := if open then OPEN else CLOSED;
      && r.ctx.currentState == Some(s)
      && r.ctx.lastState == Some(s)
      && r.ctx.targetState == Some(s)
      && r.ctx.obstruction == (if c.obstruction.None? then Some(0) else c.obstruction)
      && r.out == [PublishDoor(s)]
      && !r.crashed
  {
  }

  /**
   * A first status reply without an `input:0` channel throws on reading its state:
   * only the obstruction default has happened by then.
   */
  lemma GetStatusInitNeedsInput(c: Context)
    requires !Initialized(c)
    ensures var r := GetStatusStep(c, None);
      && r.crashed && r.out == []
      && r.ctx.currentState == c.currentState
      && r.ctx.lastState == c.lastState
      && r.ctx.targetState == c.targetState
      && r.ctx.obstruction == (if c.obstruction.None? then Some(0) else c.obstruction)
  {
  }

  /**
   * The obstruction default is independent of the door fields: every status reply
   * leaves obstruction defined, and it only ever changes a defined value to 1.
   */
  lemma GetStatusObstruction(c: Context, input0: Option<bool>)
    ensures var o := GetStatusStep(c, input0).ctx.obstruction;
      && (c.obstruction.None? ==> o == Some(0) || o == Some(1))
      && (c.obstruction.Some? ==> o == c.obstruction || o == Some(1))
  {
  }

  /** Opening, and the contact already reported open: the opening is confirmed. */
  lemma GetStatusOpeningConfirmed(c: Context, input0: Option<bool>)
    requires OpeningToOpen(c) && c.currentState == Some(OPEN)
    ensures var r := GetStatusStep(c, input0);
      && r.ctx.lastState == Some(OPEN)
      && r.ctx.targetState == Some(TARGET_OPEN)
      && r.ctx.currentState == c.currentState
      && r.ctx.obstruction == (if c.obstruction.None? then Some(0) else c.obstruction)
      && r.out == [PublishDoor(OPEN)]
      && !r.crashed
  {
  }

  /**
   * Opening, but the contact has not reported open: obstruction is raised and
   * lastState falls back to CLOSED while targetState stays OPEN.
   */
  lemma GetStatusOpeningFailed(c: Context, input0: Option<bool>)
    requires OpeningToOpen(c) && c.currentState != Some(OPEN)
    ensures var r := GetStatusStep(c, input0);
      && r.ctx.obstruction == Some(1)
      && r.ctx.lastState == Some(CLOSED)
      && r.ctx.targetState == Some(TARGET_OPEN)
      && r.ctx.currentState == c.currentState
      && r.out == [PublishObstruction(1), PublishDoor(CLOSED)]
      && !r.crashed
  {
  }

  /**
   * Closing: lastState and targetState never change; obstruction is raised and
   * published exactly when the contact has not reported closed, and a confirmed
   * close does not clear an earlier obstruction.
   */
  lemma GetStatusClosing(c: Context, input0: Option<bool>)
    requires ClosingToClosed(c)
    ensures var r := GetStatusStep(c, input0);
      && r.ctx.lastState == c.lastState
      && r.ctx.targetState == c.targetState
      && r.ctx.currentState == c.currentState
      && (c.currentState != Some(CLOSED) <==> r.out == [PublishObstruction(1)])
      && (c.currentState != Some(CLOSED) ==> r.ctx.obstruction == Some(1))
      && (c.currentState == Some(CLOSED) ==>
            r.out == [] && r.ctx.obstruction == (if c.obstruction.None? then Some(0) else c.obstruction))
      && !r.crashed
  {
  }

  /** Settled (targetState == lastState): both are re-derived from the fresh reading. */
  lemma GetStatusSettled(c: Context, open: bool)
    requires Initialized(c) && c.targetState == c.lastState
    ensures var r := GetStatusStep(c, Some(open));
      var s := if open then OPEN else CLOSED;
      && r.ctx.lastState == Some(s)
      && r.ctx.targetState == Some(s)
      && r.ctx.currentState == c.currentState
      && r.ctx.obstruction == (if c.obstruction.None? then Some(0) else c.obstruction)
      && r.out == [PublishDoor(s)]
      && !r.crashed
  {
  }

  /**
   * Settled, but the reply has no `input:0` channel: reading its state throws after
   * the obstruction default, and nothing else changes.
   */
  lemma GetStatusSettledNeedsInput(c: Context)
    requires Initialized(c) && c.targetState == c.lastState
    ensures GetStatusStep(c, None) == Step(DefaultObstruction(c), [], true)
  {
  }

  /** Any other initialised state: nothing but the obstruction default happens. */
  lemma GetStatusOtherwiseNoop(c: Context, input0: Option<bool>)
    requires Initialized(c) && !OpeningToOpen(c) && !ClosingToClosed(c)
    requires c.targetState != c.lastState
    ensures var r := GetStatusStep(c, input0);
      && r.ctx == DefaultObstruction(c)
      && r.out == [] && !r.crashed
  {
  }

  /** Outside initialisation a status reply never writes currentState. */
  lemma GetStatusKeepsCurrentState(c: Context, input0: Option<bool>)
    requires Initialized(c)
    ensures GetStatusStep(c, input0).ctx.currentState == c.currentState
  {
  }

  /** While a movement is pending the reply's own reading is not consulted at all. */
  lemma GetStatusIgnoresReadingWhileMoving(c: Context, x: Option<bool>, y: Option<bool>)
    requires OpeningToOpen(c) || ClosingToClosed(c)
    ensures GetStatusStep(c, x) == GetStatusStep(c, y)
  {
  }

  /** After a failed opening further status replies change nothing: obstruction is raised once. */
  lemma FailedOpenNotReraised(c: Context, x: Option<bool>, y: Option<bool>)
    requires OpeningToOpen(c) && c.currentState != Some(OPEN)
    ensures var d := GetStatusStep(c, x).ctx;
      GetStatusStep(d, y) == Unchanged(d)
  {
    GetStatusOpeningFailed(c, x);
  }

  // ---------------------------------------------------------------- notification

  /** A "closed" notification always ends CLOSED on all three door fields; obstruction untouched. */
  lemma NotifyClosedIsAuthoritative(c: Context)
    ensures var r := NotifyStatusStep(c, Some(false));
      && r.ctx == Context(Some(CLOSED), Some(CLOSED), Some(TARGET_CLOSED), c.obstruction)
      && r.out == [PublishDoor(CLOSED)]
      && !r.crashed
  {
  }

  /**
   * An "open" notification sets currentState to OPEN; lastState follows unless the
   * accessory is itself opening; targetState and obstruction are never touched.
   */
  lemma NotifyOpened(c: Context)
    ensures var r := NotifyStatusStep(c, Some(true));
      && r.ctx.currentState == Some(OPEN)
      && r.ctx.targetState == c.targetState
      && r.ctx.obstruction == c.obstruction
      && r.ctx.lastState == (if OpeningToOpen(c) then c.lastState else Some(OPEN))
      && r.out == (if OpeningToOpen(c) then [] else [PublishDoor(OPEN)])
      && !r.crashed
  {
  }

  /** A notification without an `input:0` channel changes nothing. */
  lemma NotifyWithoutInput(c: Context)
    ensures NotifyStatusStep(c, None) == Unchanged(c)
  {
  }

  // ---------------------------------------------------------------- set request

  /**
   * OPEN requested while CLOSED, or CLOSED while OPEN: one switch command, the new
   * target and movement published, and one status check after the configured time.
   */
  lemma TargetSetStartsMovement(c: Context, cfg: DeviceConfig, v: int)
    requires (v == TARGET_OPEN && c.lastState == Some(CLOSED))
          || (v == TARGET_CLOSED && c.lastState == Some(OPEN))
    ensures var r := TargetSetStep(c, cfg, v);
      var moving := if v == TARGET_OPEN then OPENING else CLOSING;
      var seconds := if v == TARGET_OPEN then cfg.openTime else cfg.closeTime;
      && r.ctx == c.(targetState := Some(v), lastState := Some(moving))
      && r.out == [SWITCH_CMD, PublishDoor(moving), ScheduleStatusCheck(seconds * 1000)]
      && !r.crashed
  {
  }

  /** Any request while OPENING or CLOSING stops the gate; no check is scheduled or cancelled. */
  lemma TargetSetStops(c: Context, cfg: DeviceConfig, v: int)
    requires v == TARGET_OPEN || v == TARGET_CLOSED
    requires c.lastState == Some(OPENING) || c.lastState == Some(CLOSING)
    ensures var r := TargetSetStep(c, cfg, v);
      && r.ctx == c.(lastState := Some(STOPPED))
      && r.out == [SWITCH_CMD, PublishDoor(STOPPED)]
      && !r.crashed
  {
  }

  /** Requesting the state already held sends nothing and only resets targetState to currentState. */
  lemma TargetSetAlreadyThere(c: Context, cfg: DeviceConfig, v: int)
    requires v == TARGET_OPEN || v == TARGET_CLOSED
    requires c.lastState == Some(v)
    ensures var r := TargetSetStep(c, cfg, v);
      && r.ctx.targetState == c.currentState
      && r.ctx.currentState == c.currentState
      && r.ctx.lastState == c.lastState
      && r.ctx.obstruction == c.obstruction
      && r.out == [] && !r.crashed
  {
  }

  /**
   * From STOPPED the direction follows the stored targetState: CLOSED resumes
   * opening with an openTime check, OPEN resumes closing with no check.
   */
  lemma TargetSetResumes(c: Context, cfg: DeviceConfig, v: int)
    requires v == TARGET_OPEN || v == TARGET_CLOSED
    requires c.lastState == Some(STOPPED)
    ensures var r := TargetSetStep(c, cfg, v);
      && (c.targetState == Some(TARGET_CLOSED) ==>
            r.ctx == c.(lastState := Some(OPENING), targetState := Some(TARGET_OPEN))
            && r.out == [SWITCH_CMD, PublishDoor(OPENING), ScheduleStatusCheck(cfg.openTime * 1000)])
      && (c.targetState == Some(TARGET_OPEN) ==>
            r.ctx == c.(lastState := Some(CLOSING), targetState := Some(TARGET_CLOSED))
            && r.out == [SWITCH_CMD, PublishDoor(CLOSING)])
      && (c.targetState != Some(TARGET_OPEN) && c.targetState != Some(TARGET_CLOSED) ==>
            r.ctx == c && r.out == [SWITCH_CMD])
      && !r.crashed
  {
  }

  /** From STOPPED the requested value makes no difference. */
  lemma TargetSetResumeIgnoresRequest(c: Context, cfg: DeviceConfig)
    requires c.lastState == Some(STOPPED)
    ensures TargetSetStep(c, cfg, TARGET_OPEN) == TargetSetStep(c, cfg, TARGET_CLOSED)
  {
  }

  /** A value that is not a target, or a lastState that is not a door state, is ignored. */
  lemma TargetSetIgnored(c: Context, cfg: DeviceConfig, v: int)
    requires (v != TARGET_OPEN && v != TARGET_CLOSED)
          || c.lastState.None? || !(OPEN <= c.lastState.value <= STOPPED)
    ensures TargetSetStep(c, cfg, v) == Unchanged(c)
  {
  }

  /** Effects that call neither getter send nothing. */
  lemma {:induction false} WireWithoutRequests(out: seq<Effect>, src: string)
    requires forall i :: 0 <= i < |out| ==> out[i] != Call(SendGetStatus) && out[i] != Call(SendGetDeviceInfo)
    ensures Wire(out, src) == []
  {
    if out != [] {
      assert out[0].Call? ==> out[0].call == SendSet;
      WireWithoutRequests(out[1..], src);
    }
  }

  /** The wire of concatenated effect lists is the concatenation of their wires. */
  lemma {:induction false} WireAppend(a: seq<Effect>, b: seq<Effect>, src: string)
    ensures Wire(a + b, src) == Wire(a, src) + Wire(b, src)
  {
    if a != [] {
      assert (a + b)[0] == a[0];
      assert (a + b)[1..] == a[1..] + b;
      WireAppend(a[1..], b, src);
    } else {
      assert a + b == b;
    }
  }

  /** Because `sendSet` is a stub, a set request never puts a message on the wire. */
  lemma TargetSetSendsNothing(c: Context, cfg: DeviceConfig, v: int)
    ensures Wire(TargetSetStep(c, cfg, v).out, cfg.name) == []
  {
    WireWithoutRequests(TargetSetStep(c, cfg, v).out, cfg.name);
  }

  // ---------------------------------------------------------------- routing

  /** Only status replies and notifications touch the door fields. */
  lemma MessageStepDoorFields(c: Context, f: Frame)
    requires Classify(f) != StatusMsg && Classify(f) != NotifyMsg
    ensures MessageStep(c, f).ctx == c
  {
  }

  /** A dropped frame or a switch-set reply has no effect at all. */
  lemma MessageStepDropped(c: Context, f: Frame)
    requires Classify(f) == Dropped || Classify(f) == SwitchSetMsg
    ensures MessageStep(c, f) == Unchanged(c)
  {
  }

  /** A reply with a truthy id and no result object throws before any handler runs. */
  lemma MessageStepNoResult(c: Context, f: Frame)
    requires IdTruthy(f) && f.result.None?
    ensures MessageStep(c, f) == Step(c, [], true)
  {
  }

  // ---------------------------------------------------------------- invariant over runs

  predicate StableDoor(v: Option<int>) {
    v == Some(OPEN) || v == Some(CLOSED)
  }

  /**
   * What every context reached from UNSET satisfies: currentState and targetState
   * are undefined or stable, lastState is undefined or a door state and then
   * currentState is defined, obstruction is undefined, 0 or 1.
   */
  predicate Inv(c: Context) {
    && (c.currentState.None? || StableDoor(c.currentState))
    && (c.targetState.None? || StableDoor(c.targetState))
    && (c.lastState.Some? ==> c.currentState.Some? && OPEN <= c.lastState.value <= STOPPED)
    && (c.obstruction.None? || c.obstruction == Some(0) || c.obstruction == Some(1))
  }

  lemma UnsetSatisfiesInv()
    ensures Inv(UNSET)
  {
  }

  lemma GetStatusPreservesInv(c: Context, input0: Option<bool>)
    requires Inv(c)
    ensures Inv(GetStatusStep(c, input0).ctx)
  {
  }

  lemma NotifyStatusPreservesInv(c: Context, input0: Option<bool>)
    requires Inv(c)
    ensures Inv(NotifyStatusStep(c, input0).ctx)
  {
  }

  lemma TargetSetPreservesInv(c: Context, cfg: DeviceConfig, v: int)
    requires Inv(c)
    ensures Inv(TargetSetStep(c, cfg, v).ctx)
  {
  }

  /** Every event preserves the invariant. */
  lemma ApplyPreservesInv(c: Context, cfg: DeviceConfig, e: Event)
    requires Inv(c)
    ensures Inv(Apply(c, cfg, e).ctx)
  {
    match e {
      case Inbound(f) =>
        match Classify(f) {
          case StatusMsg => GetStatusPreservesInv(c, f.input0);
          case NotifyMsg => NotifyStatusPreservesInv(c, f.input0);
          case _ =>
        }
      case TargetSet(v) => TargetSetPreservesInv(c, cfg, v);
      case StatusCheckDue =>
    }
  }

  /** The invariant holds after any sequence of events. */
  lemma {:induction false} RunPreservesInv(c: Context, cfg: DeviceConfig, events: seq<Event>)
    requires Inv(c)
    ensures Inv(Run(c, cfg, events).ctx)
    decreases |events|
  {
    if events != [] {
      ApplyPreservesInv(c, cfg, events[0]);
      RunPreservesInv(Apply(c, cfg, events[0]).ctx, cfg, events[1..]);
    }
  }

  lemma ApplyKeepsInitialized(c: Context, cfg: DeviceConfig, e: Event)
    requires Inv(c) && Initialized(c)
    ensures Initialized(Apply(c, cfg, e).ctx)
  {
  }

  /** Initialisation is sticky: once done, no sequence of events undoes it. */
  lemma {:induction false} RunKeepsInitialized(c: Context, cfg: DeviceConfig, events: seq<Event>)
    requires Inv(c) && Initialized(c)
    ensures Initialized(Run(c, cfg, events).ctx)
    decreases |events|
  {
    if events != [] {
      ApplyPreservesInv(c, cfg, events[0]);
      ApplyKeepsInitialized(c, cfg, events[0]);
      RunKeepsInitialized(Apply(c, cfg, events[0]).ctx, cfg, events[1..]);
    }
  }

  /** From a fresh accessory, targetState only ever holds OPEN or CLOSED once defined. */
  lemma ReachableTargetIsStable(cfg: DeviceConfig, events: seq<Event>)
    ensures var d := Run(UNSET, cfg, events).ctx;
      && (d.targetState.None? || d.targetState == Some(TARGET_OPEN) || d.targetState == Some(TARGET_CLOSED))
      && (d.lastState.None? || OPEN <= d.lastState.value <= STOPPED)
  {
    UnsetSatisfiesInv();
    RunPreservesInv(UNSET, cfg, events);
  }

  // ---------------------------------------------------------------- scenarios

  function NotifyFrame(open: bool): Frame {
    Frame(None, Some("NotifyStatus"), None, Some(open), DeviceInfo("", "", ""))
  }

  function StatusFrame(open: bool): Frame {
    Frame(Some(REQUEST_ID), None, Some({"sys"}), Some(open), DeviceInfo("", "", ""))
  }

  const SETTLED_CLOSED := Context(Some(CLOSED), Some(CLOSED), Some(TARGET_CLOSED), Some(0))

  function OpenCycleEffects(cfg: DeviceConfig): seq<Effect> {
    [SWITCH_CMD, PublishDoor(OPENING), ScheduleStatusCheck(cfg.openTime * 1000),
     Call(SendGetStatus), PublishDoor(OPEN)]
  }

  lemma OpenCycleRun(cfg: DeviceConfig)
    ensures Run(SETTLED_CLOSED, cfg,
        [TargetSet(TARGET_OPEN), Inbound(NotifyFrame(true)), StatusCheckDue, Inbound(StatusFrame(true))])
      == Step(Context(Some(OPEN), Some(OPEN), Some(TARGET_OPEN), Some(0)), OpenCycleEffects(cfg), false)
  {
    var e0, e1, e2, e3 := TargetSet(TARGET_OPEN), Inbound(NotifyFrame(true)), StatusCheckDue, Inbound(StatusFrame(true));
    var c1 := Context(Some(CLOSED), Some(OPENING), Some(TARGET_OPEN), Some(0));
    var c2 := Context(Some(OPEN), Some(OPENING), Some(TARGET_OPEN), Some(0));
    var c3 := Context(Some(OPEN), Some(OPEN), Some(TARGET_OPEN), Some(0));
    assert [e0, e1, e2, e3][1..] == [e1, e2, e3];
    assert [e1, e2, e3][1..] == [e2, e3];
    assert [e2, e3][1..] == [e3];
    assert [e3][1..] == [];
    assert Run(c2, cfg, [e3]) == Step(c3, [PublishDoor(OPEN)], false);
    assert Run(c2, cfg, [e2, e3]) == Step(c3, [Call(SendGetStatus), PublishDoor(OPEN)], false);
    assert Run(c1, cfg, [e1, e2, e3]) == Step(c3, [Call(SendGetStatus), PublishDoor(OPEN)], false);
    assert Apply(SETTLED_CLOSED, cfg, e0)
        == Step(c1, [SWITCH_CMD, PublishDoor(OPENING), ScheduleStatusCheck(cfg.openTime * 1000)], false);
  }

  lemma OpenCycleWire(cfg: DeviceConfig)
    ensures Wire(OpenCycleEffects(cfg), cfg.name) == [Encode(GetStatus, cfg.name)]
  {
    var start := [SWITCH_CMD, PublishDoor(OPENING), ScheduleStatusCheck(cfg.openTime * 1000)];
    var poll, confirm := [Call(SendGetStatus)], [PublishDoor(OPEN)];
    assert OpenCycleEffects(cfg) == start + poll + confirm;
    WireAppend(start + poll, confirm, cfg.name);
    WireAppend(start, poll, cfg.name);
    WireWithoutRequests(start, cfg.name);
    WireWithoutRequests(confirm, cfg.name);
    assert poll[1..] == [];
  }

  /**
   * An open cycle: the user asks to open, the contact reports open, the deferred
   * check fires and its reply confirms. The only request on the wire is the status poll.
   */
  lemma OpenCycle(cfg: DeviceConfig)
    ensures var r := Run(SETTLED_CLOSED, cfg,
        [TargetSet(TARGET_OPEN), Inbound(NotifyFrame(true)), StatusCheckDue, Inbound(StatusFrame(true))]);
      && r.ctx == Context(Some(OPEN), Some(OPEN), Some(TARGET_OPEN), Some(0))
      && r.out == [SWITCH_CMD, PublishDoor(OPENING), ScheduleStatusCheck(cfg.openTime * 1000),
                   Call(SendGetStatus), PublishDoor(OPEN)]
      && !r.crashed
      && Wire(r.out, cfg.name) == [Encode(GetStatus, cfg.name)]
  {
    OpenCycleRun(cfg);
    OpenCycleWire(cfg);
  }

  /**
   * Without the "open" notification the deferred check reports an obstruction even
   * though the reply itself reads open: the reply's reading is not consulted.
   */
  lemma OpenWithoutNotification(cfg: DeviceConfig)
    ensures var r := Run(SETTLED_CLOSED, cfg,
        [TargetSet(TARGET_OPEN), StatusCheckDue, Inbound(StatusFrame(true))]);
      r.ctx == Context(Some(CLOSED), Some(CLOSED), Some(TARGET_OPEN), Some(1))
  {
    var e0, e1, e2 := TargetSet(TARGET_OPEN), StatusCheckDue, Inbound(StatusFrame(true));
    var c1 := Context(Some(CLOSED), Some(OPENING), Some(TARGET_OPEN), Some(0));
    var c2 := Context(Some(CLOSED), Some(CLOSED), Some(TARGET_OPEN), Some(1));
    assert [e0, e1, e2][1..] == [e1, e2];
    assert [e1, e2][1..] == [e2];
    assert [e2][1..] == [];
    assert Run(c1, cfg, [e2]).ctx == c2;
    assert Run(c1, cfg, [e1, e2]).ctx == c2;
    assert Apply(SETTLED_CLOSED, cfg, e0).ctx == c1;
  }
}

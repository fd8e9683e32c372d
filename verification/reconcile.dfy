/**
 * The door-state reconciliation of the driveway gate accessory, as pure step
 * functions: each takes the four context fields and one event and gives the
 * new fields, the effects emitted in order, and whether the handler threw.
 * The class in module Accessory runs the same steps in place and is proved
 * against these functions.
 */
module Reconcile {
  import opened Wrappers
  import opened Hap
  import opened Communication

  /**
   * The four fields the accessory keeps in `accessory.context`. Each is
   * `undefined` (None) until first written; door fields hold HAP numbers and
   * `obstruction` holds 0 or 1.
   */
  datatype Context = Context(
    currentState: Option<int>,
    lastState: Option<int>,
    targetState: Option<int>,
    obstruction: Option<int>)

  /** A fresh accessory: every field undefined. */
  const UNSET := Context(None, None, None, None)

  /** The parts of the device configuration the accessory reads; times in seconds. */
  datatype DeviceConfig = DeviceConfig(name: string, openTime: int, closeTime: int)

  /**
   * One observable effect of a handler:
   * a characteristic value published to the host (`setCharacteristic`),
   * a call to one of the send wrappers (`Call(SendSet)` is the switch command),
   * or a deferred status re-poll armed with `setTimeout` after `delayMs`.
   */
  datatype Effect =
    | Publish(characteristic: Characteristic, value: Value)
    | Call(call: SendCall)
    | ScheduleStatusCheck(delayMs: int)

  /** The switch command, `sendSet()`. */
  const SWITCH_CMD := Call(SendSet)

  function PublishDoor(state: int): Effect {
    Publish(CurrentDoorState, Num(state))
  }

  function PublishObstruction(flag: int): Effect {
    Publish(ObstructionDetected, Num(flag))
  }

  /** The outcome of one event. `crashed` means the handler threw a TypeError part-way. */
  datatype Step = Step(ctx: Context, out: seq<Effect>, crashed: bool)

  /** An event that changes nothing and emits nothing. */
  function Unchanged(c: Context): Step {
    Step(c, [], false)
  }

  /** The context has been initialised: neither lastState nor targetState is undefined. */
  predicate Initialized(c: Context) {
    c.lastState.Some? && c.targetState.Some?
  }

  /** The accessory has commanded an opening and not yet confirmed it. */
  predicate OpeningToOpen(c: Context) {
    c.lastState == Some(OPENING) && c.targetState == Some(TARGET_OPEN)
  }

  /** The accessory has commanded a closing and not yet confirmed it. */
  predicate ClosingToClosed(c: Context) {
    c.lastState == Some(CLOSING) && c.targetState == Some(TARGET_CLOSED)
  }

  /** The door state read off the `input:0` contact: true means open. */
  function DoorOfInput(open: bool): int {
    if open then OPEN else CLOSED
  }

  /** The status handler first gives an undefined obstruction the value 0. */
  function DefaultObstruction(c: Context): Context {
    if c.obstruction.None? then c.(obstruction := Some(0)) else c
  }

  /** `handleGetStatus`: a status reply whose `input:0` state is `input0`. */
  function GetStatusStep(c: Context, input0: Option<bool>): (r: Step)
    ensures r.ctx.obstruction.Some?
    ensures r.crashed <==> input0.None? && (!Initialized(c) || c.targetState == c.lastState)
    ensures !r.crashed ==> Initialized(r.ctx)
    ensures Initialized(c) ==> r.ctx.currentState == c.currentState
    ensures |r.out| <= 2
  {
    var c1 := DefaultObstruction(c);
    if !Initialized(c) then
      match input0
      case None => Step(c1, [], true)
      case Some(open) =>
        var s := DoorOfInput(open);
        Step(c1.(currentState := Some(s), lastState := Some(s), targetState := Some(s)),
             [PublishDoor(s)], false)
    else if OpeningToOpen(c) then
      if c.currentState == Some(OPEN) then
        Step(c1.(lastState := Some(OPEN)), [PublishDoor(OPEN)], false)
      else
        Step(c1.(obstruction := Some(1), lastState := Some(CLOSED)),
             [PublishObstruction(1), PublishDoor(CLOSED)], false)
    else if ClosingToClosed(c) then
      if c.currentState == Some(CLOSED) then
        Step(c1, [], false)
      else
        Step(c1.(obstruction := Some(1)), [PublishObstruction(1)], false)
    else if c.targetState == c.lastState then
      match input0
      case None => Step(c1, [], true)
      case Some(open) =>
        var s := DoorOfInput(open);
        Step(c1.(lastState := Some(s), targetState := Some(s)), [PublishDoor(s)], false)
    else
      Step(c1, [], false)
  }

  /** `handleNotifyStatus`: an unsolicited status notification. */
  function NotifyStatusStep(c: Context, input0: Option<bool>): (r: Step)
    ensures !r.crashed && r.ctx.obstruction == c.obstruction
    ensures input0.None? ==> r.ctx == c && r.out == []
    ensures input0.Some? ==>
      && r.ctx.currentState == Some(DoorOfInput(input0.value))
      && r.ctx.lastState.Some?
      && (r.out == [] || r.out == [PublishDoor(DoorOfInput(input0.value))])
  {
    match input0
    case None => Unchanged(c)
    case Some(open) =>
      if open then
        var c1 := c.(currentState := Some(OPEN));
        if OpeningToOpen(c) then Step(c1, [], false)
        else Step(c1.(lastState := Some(OPEN)), [PublishDoor(OPEN)], false)
      else
        var c1 := c.(currentState := Some(CLOSED));
        var c2 := if ClosingToClosed(c) then c1 else c1.(targetState := Some(TARGET_CLOSED));
        Step(c2.(lastState := Some(CLOSED)), [PublishDoor(CLOSED)], false)
  }

  /** `handleGetDeviceInfo`: publishes the device metadata, touches no door field. */
  function GetDeviceInfoStep(c: Context, info: DeviceInfo): (r: Step)
    ensures r.ctx == c && !r.crashed && |r.out| == 4
    ensures forall i :: 0 <= i < |r.out| ==> r.out[i].Publish? && r.out[i].value.Text?
  {
    Step(c, [Publish(Manufacturer, Text("Shelly Plus 1")), Publish(Model, Text(info.model)),
             Publish(SerialNumber, Text(info.mac)), Publish(FirmwareRevision, Text(info.ver))], false)
  }

  /** Start a movement from a stable state towards `target`. */
  function StartMovement(c: Context, target: int, moving: int, seconds: int): Step {
    Step(c.(targetState := Some(target), lastState := Some(moving)),
         [SWITCH_CMD, PublishDoor(moving), ScheduleStatusCheck(seconds * 1000)], false)
  }

  /** Stop a movement; no timer is cancelled. */
  function StopMovement(c: Context): Step {
    Step(c.(lastState := Some(STOPPED)), [SWITCH_CMD, PublishDoor(STOPPED)], false)
  }

  /** Resume after a stop: the direction follows the stored targetState. */
  function ResumeMovement(c: Context, cfg: DeviceConfig): Step {
    if c.targetState == Some(TARGET_CLOSED) then
      Step(c.(lastState := Some(OPENING), targetState := Some(TARGET_OPEN)),
           [SWITCH_CMD, PublishDoor(OPENING), ScheduleStatusCheck(cfg.openTime * 1000)], false)
    else if c.targetState == Some(TARGET_OPEN) then
      Step(c.(lastState := Some(CLOSING), targetState := Some(TARGET_CLOSED)),
           [SWITCH_CMD, PublishDoor(CLOSING)], false)
    else
      Step(c, [SWITCH_CMD], false)
  }

  /** `handleTargetDoorStateSet`: the host asks for target `value`. */
  function TargetSetStep(c: Context, cfg: DeviceConfig, value: int): (r: Step)
    ensures !r.crashed
    ensures r.ctx.currentState == c.currentState && r.ctx.obstruction == c.obstruction
    ensures r.out != [] ==> r.out[0] == SWITCH_CMD
    ensures forall i :: 0 < i < |r.out| ==> r.out[i] != SWITCH_CMD && !r.out[i].Call?
    ensures r.ctx.lastState != c.lastState ==> r.out != []
  {
    if value == TARGET_OPEN then
      if c.lastState == Some(CLOSED) then StartMovement(c, value, OPENING, cfg.openTime)
      else if c.lastState == Some(CLOSING) || c.lastState == Some(OPENING) then StopMovement(c)
      else if c.lastState == Some(OPEN) then Step(c.(targetState := c.currentState), [], false)
      else if c.lastState == Some(STOPPED) then ResumeMovement(c, cfg)
      else Unchanged(c)
    else if value == TARGET_CLOSED then
      if c.lastState == Some(OPEN) then StartMovement(c, value, CLOSING, cfg.closeTime)
      else if c.lastState == Some(OPENING) || c.lastState == Some(CLOSING) then StopMovement(c)
      else if c.lastState == Some(CLOSED) then Step(c.(targetState := c.currentState), [], false)
      else if c.lastState == Some(STOPPED) then ResumeMovement(c, cfg)
      else Unchanged(c)
    else
      Unchanged(c)
  }

  /** A deferred status check fires: `sendGetStatus()`, nothing else. */
  function StatusCheckStep(c: Context): (r: Step)
    ensures r.ctx == c && !r.crashed
    ensures forall src :: Wire(r.out, src) == [Encode(GetStatus, src)]
  {
    Step(c, [Call(SendGetStatus)], false)
  }

  /** `handleMessage`: route a frame to its handler. */
  function MessageStep(c: Context, f: Frame): (r: Step)
    ensures Classify(f) != StatusMsg && Classify(f) != NotifyMsg ==> r.ctx == c
    ensures r.crashed ==> Classify(f) == NoResultFault || (Classify(f) == StatusMsg && f.input0.None?)
    ensures Classify(f) == NoResultFault ==> r.crashed
  {
    match Classify(f)
    case DeviceInfoMsg => GetDeviceInfoStep(c, f.info)
    case StatusMsg => GetStatusStep(c, f.input0)
    case SwitchSetMsg => Unchanged(c)
    case NotifyMsg => NotifyStatusStep(c, f.input0)
    case Dropped => Unchanged(c)
    case NoResultFault => Step(c, [], true)
  }

  /** The events the accessory reacts to. */
  datatype Event =
    | Inbound(frame: Frame)       // a frame from the device
    | TargetSet(value: int)       // a set request from the host
    | StatusCheckDue              // an armed deferred check fires

  function Apply(c: Context, cfg: DeviceConfig, e: Event): Step {
    match e
    case Inbound(f) => MessageStep(c, f)
    case TargetSet(v) => TargetSetStep(c, cfg, v)
    case StatusCheckDue => StatusCheckStep(c)
  }

  /** Events processed one after another in arrival order; effects concatenated. */
  function Run(c: Context, cfg: DeviceConfig, events: seq<Event>): Step
    decreases |events|
  {
    if events == [] then Unchanged(c)
    else
      var first := Apply(c, cfg, events[0]);
      var rest := Run(first.ctx, cfg, events[1..]);
      Step(rest.ctx, first.out + rest.out, first.crashed || rest.crashed)
  }

  /** The requests that a sequence of effects hands to the connection. */
  function Wire(out: seq<Effect>, src: string): (reqs: seq<Request>)
    ensures |reqs| <= |out|
    ensures forall i :: 0 <= i < |reqs| ==>
      reqs[i].id == REQUEST_ID && reqs[i].src == src && reqs[i].params.None?
  {
    if out == [] then []
    else
      (match out[0] case Call(call) => Outbound(call, src) case _ => []) + Wire(out[1..], src)
  }
}

/**
 * The driveway gate accessory as an object: it reads and writes the four door
 * fields of the host-owned `accessory.context` through getters and setters and
 * appends every effect to a log. Each handler is proved to do exactly what the
 * matching step function of module Reconcile describes.
 */
module Accessory {
  import opened Wrappers
  import opened Hap
  import opened Communication
  import opened Reconcile
  import Utils

  /** The host's `accessory.context` record; the host persists it across restarts. */
  class AccessoryContext {
    var currentState: Option<int>
    var lastState: Option<int>
    var targetState: Option<int>
    var obstruction: Option<int>

    /** A newly registered accessory: every field undefined. */
    constructor ()
      ensures currentState.None? && lastState.None? && targetState.None? && obstruction.None?
    {
      currentState, lastState, targetState, obstruction := None, None, None, None;
    }
  }

  class DrivewayGateAccessory {
    const accessory: AccessoryContext
    const deviceConfig: DeviceConfig
    /** Every effect emitted so far, oldest first. */
    var effects: seq<Effect>

    /** The context fields as a value. */
    function State(): Context
      reads accessory
    {
      Context(accessory.currentState, accessory.lastState, accessory.targetState, accessory.obstruction)
    }

    /** Creating the accessory requests device info and status, then publishes the display name. */
    constructor (accessory: AccessoryContext, deviceConfig: DeviceConfig, displayName: string)
      ensures this.accessory == accessory && this.deviceConfig == deviceConfig
      ensures effects == [Call(SendGetDeviceInfo), Call(SendGetStatus), Publish(Name, Text(displayName))]
    {
      this.accessory := accessory;
      this.deviceConfig := deviceConfig;
      effects := [Call(SendGetDeviceInfo), Call(SendGetStatus), Publish(Name, Text(displayName))];
    }

    // -------------------------------------------------------------- getters and setters

    function CurrentState(): (r: Option<int>)
      reads accessory
      ensures r == State().currentState
    {
      accessory.currentState
    }

    function LastState(): (r: Option<int>)
      reads accessory
      ensures r == State().lastState
    {
      accessory.lastState
    }

    function TargetState(): (r: Option<int>)
      reads accessory
      ensures r == State().targetState
    {
      accessory.targetState
    }

    function Obstruction(): (r: Option<int>)
      reads accessory
      ensures r == State().obstruction
    {
      accessory.obstruction
    }

    method SetCurrentState(value: Option<int>)
      modifies accessory
      ensures State() == old(State()).(currentState := value)
    {
      accessory.currentState := value;
    }

    method SetLastState(value: Option<int>)
      modifies accessory
      ensures State() == old(State()).(lastState := value)
    {
      accessory.lastState := value;
    }

    method SetTargetState(value: Option<int>)
      modifies accessory
      ensures State() == old(State()).(targetState := value)
    {
      accessory.targetState := value;
    }

    method SetObstructionDetected(value: Option<int>)
      modifies accessory
      ensures State() == old(State()).(obstruction := value)
    {
      accessory.obstruction := value;
    }

    // -------------------------------------------------------------- effects

    /** `service.setCharacteristic(characteristic, value)`. */
    method SetCharacteristic(characteristic: Characteristic, value: Value)
      modifies this
      ensures effects == old(effects) + [Publish(characteristic, value)]
      ensures State() == old(State())
    {
      effects := effects + [Publish(characteristic, value)];
    }

    /** `sendSet()`, the switch command. */
    method SendSet()
      modifies this
      ensures effects == old(effects) + [SWITCH_CMD]
    {
      effects := effects + [SWITCH_CMD];
    }

    /** `setTimeout(() => this.sendGetStatus(), seconds * 1000)`. */
    method ScheduleStatusCheckAfter(seconds: int)
      modifies this
      ensures effects == old(effects) + [ScheduleStatusCheck(seconds * 1000)]
    {
      effects := effects + [ScheduleStatusCheck(seconds * 1000)];
    }

    // -------------------------------------------------------------- handlers

    /** `handleGetDeviceInfo`: publishes the device metadata. */
    method HandleGetDeviceInfo(info: DeviceInfo)
      modifies this
      ensures effects == old(effects) + GetDeviceInfoStep(State(), info).out
    {
      SetCharacteristic(Manufacturer, Text("Shelly Plus 1"));
      SetCharacteristic(Model, Text(info.model));
      SetCharacteristic(SerialNumber, Text(info.mac));
      SetCharacteristic(FirmwareRevision, Text(info.ver));
    }

    /** `handleGetStatus`: a status reply; `crashed` when reading a missing `input:0` throws. */
    method HandleGetStatus(input0: Option<bool>) returns (crashed: bool)
      modifies this, accessory
      ensures var s := GetStatusStep(old(State()), input0);
        State() == s.ctx && effects == old(effects) + s.out && crashed == s.crashed
    {
      crashed := false;
      if Obstruction().None? {
        SetObstructionDetected(Some(0));
      }
      if LastState().None? || TargetState().None? {
        if input0.None? {
          crashed := true;
          return;
        }
        if input0.value {
          SetCurrentState(Some(OPEN));
          SetLastState(Some(OPEN));
          SetCharacteristic(CurrentDoorState, Num(OPEN));
        } else {
          SetCurrentState(Some(CLOSED));
          SetLastState(Some(CLOSED));
          SetCharacteristic(CurrentDoorState, Num(CLOSED));
        }
        SetTargetState(LastState());
      } else if LastState() == Some(OPENING) && TargetState() == Some(TARGET_OPEN) {
        if CurrentState() == Some(OPEN) {
          SetLastState(Some(OPEN));
          SetCharacteristic(CurrentDoorState, Num(OPEN));
        } else {
          SetObstructionDetected(Some(1));
          SetCharacteristic(ObstructionDetected, Num(1));
          SetLastState(Some(CLOSED));
          SetCharacteristic(CurrentDoorState, Num(CLOSED));
        }
      } else if LastState() == Some(CLOSING) && TargetState() == Some(TARGET_CLOSED) {
        if CurrentState() != Some(CLOSED) {
          SetObstructionDetected(Some(1));
          SetCharacteristic(ObstructionDetected, Num(1));
        }
      } else if TargetState() == LastState() {
        if input0.None? {
          crashed := true;
          return;
        }
        if input0.value {
          SetLastState(Some(OPEN));
          SetCharacteristic(CurrentDoorState, Num(OPEN));
        } else {
          SetLastState(Some(CLOSED));
          SetCharacteristic(CurrentDoorState, Num(CLOSED));
        }
        SetTargetState(LastState());
      }
    }

    /** `handleNotifyStatus`: an unsolicited status notification. */
    method HandleNotifyStatus(input0: Option<bool>)
      modifies this, accessory
      ensures var s := NotifyStatusStep(old(State()), input0);
        State() == s.ctx && effects == old(effects) + s.out
    {
      if input0 == Some(true) {
        SetCurrentState(Some(OPEN));
        if !(LastState() == Some(OPENING) && TargetState() == Some(TARGET_OPEN)) {
          SetLastState(Some(OPEN));
          SetCharacteristic(CurrentDoorState, Num(OPEN));
        }
      } else if input0 == Some(false) {
        SetCurrentState(Some(CLOSED));
        if !(LastState() == Some(CLOSING) && TargetState() == Some(TARGET_CLOSED)) {
          SetTargetState(Some(TARGET_CLOSED));
        }
        SetLastState(Some(CLOSED));
        SetCharacteristic(CurrentDoorState, Num(CLOSED));
      }
    }

    /** `handleMessage`: routes a frame to at most one handler. */
    method HandleMessage(frame: Frame) returns (crashed: bool)
      modifies this, accessory
      ensures var s := MessageStep(old(State()), frame);
        State() == s.ctx && effects == old(effects) + s.out && crashed == s.crashed
    {
      crashed := false;
      match Classify(frame)
      case DeviceInfoMsg => HandleGetDeviceInfo(frame.info);
      case StatusMsg => crashed := HandleGetStatus(frame.input0);
      case SwitchSetMsg =>
      case NotifyMsg => HandleNotifyStatus(frame.input0);
      case Dropped =>
      case NoResultFault => crashed := true;
    }

    /** Resume after a stop, in the direction opposite to the stored target. */
    method ResumeAfterStop()
      modifies this, accessory
      ensures var s := ResumeMovement(old(State()), deviceConfig);
        State() == s.ctx && effects == old(effects) + s.out
    {
      SendSet();
      if TargetState() == Some(TARGET_CLOSED) {
        SetLastState(Some(OPENING));
        SetTargetState(Some(TARGET_OPEN));
        SetCharacteristic(CurrentDoorState, Num(OPENING));
        ScheduleStatusCheckAfter(deviceConfig.openTime);
      } else if TargetState() == Some(TARGET_OPEN) {
        SetLastState(Some(CLOSING));
        SetTargetState(Some(TARGET_CLOSED));
        SetCharacteristic(CurrentDoorState, Num(CLOSING));
      }
    }

    /** Stop a movement: one switch command, lastState STOPPED. */
    method Stop()
      modifies this, accessory
      ensures var s := StopMovement(old(State()));
        State() == s.ctx && effects == old(effects) + s.out
    {
      SendSet();
      SetLastState(Some(STOPPED));
      SetCharacteristic(CurrentDoorState, Num(STOPPED));
    }

    /** `handleTargetDoorStateSet`: the host asks for target `targetValue`. */
    method HandleTargetDoorStateSet(targetValue: int)
      modifies this, accessory
      ensures var s := TargetSetStep(old(State()), deviceConfig, targetValue);
        State() == s.ctx && effects == old(effects) + s.out
    {
      if targetValue == TARGET_OPEN {
        if LastState() == Some(CLOSED) {
          SendSet();
          SetTargetState(Some(targetValue));
          SetLastState(Some(OPENING));
          SetCharacteristic(CurrentDoorState, Num(OPENING));
          ScheduleStatusCheckAfter(deviceConfig.openTime);
        } else if LastState() == Some(CLOSING) {
          Stop();
        } else if LastState() == Some(OPENING) {
          Stop();
        } else if LastState() == Some(OPEN) {
          SetTargetState(CurrentState());
        } else if LastState() == Some(STOPPED) {
          ResumeAfterStop();
        }
      } else if targetValue == TARGET_CLOSED {
        if LastState() == Some(OPEN) {
          SendSet();
          SetTargetState(Some(targetValue));
          SetLastState(Some(CLOSING));
          SetCharacteristic(CurrentDoorState, Num(CLOSING));
          ScheduleStatusCheckAfter(deviceConfig.closeTime);
        } else if LastState() == Some(OPENING) {
          Stop();
        } else if LastState() == Some(CLOSING) {
          Stop();
        } else if LastState() == Some(CLOSED) {
          SetTargetState(CurrentState());
        } else if LastState() == Some(STOPPED) {
          ResumeAfterStop();
        }
      }
    }

    /** The callback of an armed deferred check: `sendGetStatus()`. */
    method StatusCheckFired()
      modifies this
      ensures effects == old(effects) + StatusCheckStep(State()).out
    {
      effects := effects + [Call(SendGetStatus)];
    }

    /** The host reads CurrentDoorState: it is served from lastState. */
    method HandleCurrentDoorStateGet() returns (r: Option<int>)
      ensures r == accessory.lastState
    {
      r := LastState();
    }

    /** The host reads TargetDoorState. */
    method HandleTargetDoorStateGet() returns (r: Option<int>)
      ensures r == accessory.targetState
    {
      r := TargetState();
    }

    /** The host reads ObstructionDetected. */
    method HandleObstructionDetectedGet() returns (r: Option<int>)
      ensures r == accessory.obstruction
    {
      r := Obstruction();
    }

    /** The accessory's own copy of the state-name table; it agrees with Utils. */
    function TranslateState(state: int): (name: string)
      ensures name == Utils.TranslateState(state)
    {
      match state
      case 0 => "OPEN"
      case 1 => "CLOSED"
      case 2 => "OPENING"
      case 3 => "CLOSING"
      case 4 => "STOPPED"
      case _ => "undefined"
    }
  }

  /** A client: a fresh accessory, its first status reply reads closed, then the user opens. */
  method OpenFromFreshAccessory(cfg: DeviceConfig) returns (gate: DrivewayGateAccessory)
    ensures gate.State() == Context(Some(CLOSED), Some(OPENING), Some(TARGET_OPEN), Some(0))
    ensures gate.effects == [Call(SendGetDeviceInfo), Call(SendGetStatus), Publish(Name, Text(cfg.name)),
                             PublishDoor(CLOSED), SWITCH_CMD, PublishDoor(OPENING),
                             ScheduleStatusCheck(cfg.openTime * 1000)]
  {
    var context := new AccessoryContext();
    gate := new DrivewayGateAccessory(context, cfg, cfg.name);
    var crashed := gate.HandleGetStatus(Some(false));
    gate.HandleTargetDoorStateSet(TARGET_OPEN);
  }
}

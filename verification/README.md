# Shelly driveway gate accessory — Dafny model

This project models the core of a Homebridge plugin that drives a garage/driveway
gate through a Shelly Plus 1 relay. Its centre is the door-state reconciliation
of `DrivewayGateAccessory`. The accessory keeps four fields in the host-owned
`accessory.context`: `currentState`, `lastState`, `targetState` and `obstruction`.
Each field starts `undefined`. Four events update them:
- a status reply carrying the `input:0` contact reading;
- an unsolicited status notification;
- a user's set request for the target door state;
- a device-info reply, which touches no door field.

Each event emits effects:
- published characteristic values;
- switch commands (`sendSet`);
- deferred status re-polls armed with `setTimeout`.

Beside it sit the frame classifier and request encoder of the communication
handler, and the state-name helpers of `Utils`.

Modules:
- `Wrappers` (wrappers.dfy): `Option`, standing for JavaScript's `undefined`.
- `Hap` (hap.dfy): the HAP door-state numbers. CurrentDoorState is OPEN=0, CLOSED=1,
  OPENING=2, CLOSING=3, STOPPED=4. TargetDoorState is OPEN=0, CLOSED=1. The code
  compares the two enums numerically, so both share one integer encoding here.
- `Utils` (utils.dfy): `translateState` and `printCurrentStates`.
- `Communication` (communication.dfy): RPC method strings, the request encoder,
  the three send wrappers, inbound frames as records, and the `handleMessage` routing.
- `Reconcile` (reconcile.dfy): each handler as a pure step function from the four
  fields to new fields, an ordered effect list and a "handler threw" flag. Also
  events, runs over event sequences, and the requests a run hands to the connection.
- `ReconcileProperties` (properties.dfy): the lemmas about those steps. They cover
  every handler branch, the routing, an invariant preserved by every event
  sequence, and two scenarios.
- `Accessory` (accessory.dfy): the classes. `AccessoryContext` is the host's context
  record. `DrivewayGateAccessory` updates that record through its getters and
  setters and appends to an effect log. Each handler method is proved equal to
  its step function.

Behaviours of the code worth knowing, all modelled as the code has them:
- A failed opening leaves `targetState` at OPEN; it is not regressed to CLOSED.
  After a failed opening, later status replies therefore change nothing
  (`FailedOpenNotReraised`).
- A confirmed close does not clear `obstruction`. No notification clears it either.
- A stop cancels no timer. A check armed earlier stays armed.
- Resuming towards CLOSING from STOPPED arms no status check, so a CLOSING
  lastState does not always have a check armed.
- The direction of a resume comes from the stored `targetState`, not from the
  requested value.
- `sendSet` sends nothing: its `send` call is commented out.
- Outside initialisation, a status reply judges a pending movement by the stored
  `currentState`. Only notifications update that field. The reply's own reading is
  not consulted (`GetStatusIgnoresReadingWhileMoving`, `OpenWithoutNotification`).
- Two faults are modelled as `crashed`, with the state as it was when the throw happened:
  - a status reply without an `input:0` channel, when the handler reads its state;
  - a reply with a truthy id but no `result` object (`'name' in undefined`).

## Model

| member | source | states |
|---|---|---|
| Utils.TranslateState | src/utils.ts:5-20 | 0..4 map to "OPEN", "CLOSED", "OPENING", "CLOSING", "STOPPED" in that order (agrees with the table STATE_NAMES); every other number gives "undefined" |
| Utils.TranslateStateInjective | src/utils.ts:5-20 | the five door states have five distinct names, none of them "undefined" |
| Utils.TranslateStateKnown | src/utils.ts:18-19 | a number is a door state exactly when its name is not "undefined" |
| Utils.PrintCurrentStates | src/utils.ts:22-24 | the line opens with "[CURRENT=", ends with "]", and its first "]" closes the current state's name |
| Utils.PrintCurrentStatesDecodes | src/utils.ts:22-24 | the "[CURRENT=…] [LAST=…] [TARGET=…]" line determines the three names it was built from |
| Utils.PrintCurrentStatesInjective | src/utils.ts:22-24 | for door-state numbers the summary line determines the three states |
| Communication.MethodName | src/communicationHandler.ts:6-10 | each method's wire string ("Shelly.GetDeviceInfo", "Shelly.GetStatus", "Switch.Set") is read back as that method, so the three strings are distinct |
| Communication.MethodOfName | src/communicationHandler.ts:6-10 | a string is read back as a method exactly when it is one of the three ShellyMethod strings |
| Communication.MethodOfNameSound | src/communicationHandler.ts:6-10 | a string read back as a method is that method's wire string |
| Communication.MethodNameRoundTrip | src/communicationHandler.ts:6-10 | the three method strings are read back as the methods they name |
| Communication.Encode | src/communicationHandler.ts:63-78 | every request has id 2 and src = the device name; the method string is the method's; params {id:0, on:true} exactly for Switch.Set |
| Communication.EncodeRoundTrip | src/communicationHandler.ts:63-78 | decoding an encoded request gives back its method and source |
| Communication.DecodeRequestSound | src/communicationHandler.ts:63-78 | whatever the decoder accepts is exactly the encoding of what it returns |
| Communication.Outbound | src/communicationHandler.ts:26-39 | sendGetDeviceInfo and sendGetStatus hand one encoded request to the connection; sendSet hands none |
| Communication.NoSwitchSetOnWire | src/communicationHandler.ts:36-39 | no send wrapper ever puts a Switch.Set request on the wire |
| Communication.Classify | src/communicationHandler.ts:41-57 | a truthy id routes by the first result key present (name > sys > was_on); an id with none of them is dropped; without a truthy id (also id 0) a truthy method routes to the notify handler, otherwise the frame is dropped; a truthy id with no result object throws |
| Communication.ClassifyIgnoresPayloadWithoutId | src/communicationHandler.ts:45-56 | without a truthy id the routing depends on method alone, not on params or result |
| Communication.RepliesAreNotNotifications | src/communicationHandler.ts:45-54 | a reply echoing the request id 2 is never routed to the notify handler |
| Reconcile.GetStatusStep | src/platformAccessory.ts:83-146 | with its helper DefaultObstruction (lines 86-88): obstruction is always defined afterwards; the handler throws exactly when input:0 is missing and the reply is an initialisation or a settled refresh; a reply that does not throw leaves the context initialised; outside initialisation currentState is kept; at most two values are published |
| Reconcile.NotifyStatusStep | src/platformAccessory.ts:148-176 | never throws and never touches obstruction; without input:0 nothing changes; with input:0, currentState becomes OPEN/CLOSED from the reading, lastState is defined, and at most that door state is published |
| Reconcile.GetDeviceInfoStep | src/platformAccessory.ts:74-81 | the context is unchanged and exactly four text values are published |
| Reconcile.TargetSetStep | src/platformAccessory.ts:197-282 | with its helpers StartMovement, StopMovement and ResumeMovement: never throws and never touches currentState or obstruction; any effect list starts with the one switch command and calls no other send wrapper; lastState changes only together with a switch command |
| Reconcile.StatusCheckStep | src/platformAccessory.ts:208-211 | a firing check changes nothing and puts exactly one GetStatus request on the wire |
| Reconcile.MessageStep | src/communicationHandler.ts:41-57 | only frames routed to the status or notify handler change the context; a throw comes only from a missing result object or from a status reply without input:0; a missing result object always throws |
| Reconcile.Wire | src/communicationHandler.ts:26-39 | the requests handed to the connection are no more than the effects; each has id 2, the device name as src and no params |
| ReconcileProperties.GetStatusInitialises | src/platformAccessory.ts:86-101 | with lastState or targetState undefined, currentState = lastState = targetState = OPEN/CLOSED from input:0, that state is published, obstruction becomes 0 only if undefined |
| ReconcileProperties.GetStatusInitNeedsInput | src/platformAccessory.ts:86-91 | an uninitialised status reply without input:0 throws after defaulting obstruction and changes nothing else |
| ReconcileProperties.GetStatusObstruction | src/platformAccessory.ts:86-88 | every status reply leaves obstruction defined, and it changes a defined obstruction only to 1 |
| ReconcileProperties.GetStatusOpeningConfirmed | src/platformAccessory.ts:106-111 | OPENING towards OPEN with currentState OPEN: lastState becomes OPEN and is published, nothing else changes |
| ReconcileProperties.GetStatusOpeningFailed | src/platformAccessory.ts:112-118 | OPENING towards OPEN otherwise: obstruction 1 and lastState CLOSED are published, targetState stays OPEN |
| ReconcileProperties.GetStatusClosing | src/platformAccessory.ts:120-130 | CLOSING towards CLOSED never changes lastState or targetState; obstruction 1 is set and published iff currentState is not CLOSED; a confirmed close does not clear obstruction |
| ReconcileProperties.GetStatusSettled | src/platformAccessory.ts:132-143 | when targetState == lastState both become OPEN/CLOSED from the fresh reading, which is published |
| ReconcileProperties.GetStatusSettledNeedsInput | src/platformAccessory.ts:132-135 | a settled reply without input:0 throws after the obstruction default and changes nothing else |
| ReconcileProperties.GetStatusOtherwiseNoop | src/platformAccessory.ts:103-145 | every other initialised case changes nothing but the obstruction default and emits nothing |
| ReconcileProperties.GetStatusKeepsCurrentState | src/platformAccessory.ts:103-145 | outside initialisation a status reply never writes currentState |
| ReconcileProperties.GetStatusIgnoresReadingWhileMoving | src/platformAccessory.ts:106-130 | while OPENING→OPEN or CLOSING→CLOSED the outcome does not depend on the reply's reading |
| ReconcileProperties.FailedOpenNotReraised | src/platformAccessory.ts:112-118 | after a failed opening any further status reply changes nothing and publishes nothing |
| ReconcileProperties.NotifyClosedIsAuthoritative | src/platformAccessory.ts:161-171 | input:0 false always ends with currentState, lastState and targetState CLOSED, CLOSED published, obstruction unchanged |
| ReconcileProperties.NotifyOpened | src/platformAccessory.ts:151-160 | input:0 true sets currentState OPEN; lastState becomes OPEN (and is published) unless OPENING towards OPEN; targetState and obstruction untouched |
| ReconcileProperties.NotifyWithoutInput | src/platformAccessory.ts:172-174 | a notification without an input:0 state changes no field and emits nothing |
| ReconcileProperties.TargetSetStartsMovement | src/platformAccessory.ts:200-212 | OPEN requested while CLOSED (or CLOSED while OPEN, lines 241-253): exactly one switch command, targetState = request, lastState OPENING/CLOSING published, one check after openTime/closeTime × 1000 ms |
| ReconcileProperties.TargetSetStops | src/platformAccessory.ts:213-220 | any request while OPENING or CLOSING (also lines 254-261): one switch command, lastState STOPPED, targetState unchanged, no check scheduled and none cancelled |
| ReconcileProperties.TargetSetAlreadyThere | src/platformAccessory.ts:221-223 | requesting the state already held (also lines 262-264) sends nothing and changes only targetState, to currentState |
| ReconcileProperties.TargetSetResumes | src/platformAccessory.ts:224-239 | from STOPPED (also lines 265-280): stored target CLOSED resumes OPENING/OPEN with an openTime check; stored OPEN resumes CLOSING/CLOSED with no check; otherwise only the switch command |
| ReconcileProperties.TargetSetResumeIgnoresRequest | src/platformAccessory.ts:224-280 | from STOPPED requesting OPEN and requesting CLOSED have the same outcome |
| ReconcileProperties.TargetSetIgnored | src/platformAccessory.ts:197-282 | a value other than OPEN/CLOSED, or an undefined or unknown lastState, changes nothing |
| ReconcileProperties.WireAppend | src/communicationHandler.ts:26-39 | the requests of two effect lists in a row are the first list's requests followed by the second's |
| ReconcileProperties.WireWithoutRequests | src/communicationHandler.ts:26-39 | effects that call neither sendGetStatus nor sendGetDeviceInfo hand no request to the connection |
| ReconcileProperties.TargetSetSendsNothing | src/communicationHandler.ts:36-39 | a set request never puts a message on the wire, because sendSet is a stub |
| ReconcileProperties.MessageStepDoorFields | src/communicationHandler.ts:45-56 | frames not routed to the status or notify handler leave all four fields unchanged |
| ReconcileProperties.MessageStepDropped | src/communicationHandler.ts:45-56 | dropped frames and switch-set replies have no effect at all |
| ReconcileProperties.MessageStepNoResult | src/communicationHandler.ts:45-46 | a truthy-id frame without a result object throws and changes nothing |
| ReconcileProperties.UnsetSatisfiesInv | src/platformAccessory.ts:42-72 | a fresh context (all fields undefined) satisfies the invariant |
| ReconcileProperties.GetStatusPreservesInv | src/platformAccessory.ts:83-146 | a status reply preserves the invariant |
| ReconcileProperties.NotifyStatusPreservesInv | src/platformAccessory.ts:148-176 | a notification preserves the invariant |
| ReconcileProperties.TargetSetPreservesInv | src/platformAccessory.ts:197-282 | a set request preserves the invariant |
| ReconcileProperties.ApplyPreservesInv | src/communicationHandler.ts:41-57 | every event preserves the invariant (current/target undefined or stable, lastState a door state with currentState defined, obstruction 0/1) |
| ReconcileProperties.RunPreservesInv | src/platformAccessory.ts:83-282 | the invariant holds after any sequence of events |
| ReconcileProperties.ApplyKeepsInitialized | src/platformAccessory.ts:89 | no single event undoes initialisation |
| ReconcileProperties.RunKeepsInitialized | src/platformAccessory.ts:89-103 | initialisation is sticky: no event sequence makes lastState or targetState undefined again |
| ReconcileProperties.ReachableTargetIsStable | src/platformAccessory.ts:101 | from a fresh accessory targetState only ever holds OPEN or CLOSED once defined, lastState a door state |
| ReconcileProperties.OpenCycle | src/platformAccessory.ts:200-211 | open request, open notification, check firing and status reply end OPEN/OPEN/OPEN with obstruction untouched; the only request on the wire is one GetStatus |
| ReconcileProperties.OpenWithoutNotification | src/platformAccessory.ts:106-118 | without the open notification the check reports an obstruction although the reply reads open |
| Accessory.AccessoryContext.constructor | src/platform.ts:60-64 | a newly registered accessory's context has all four fields undefined |
| Accessory.DrivewayGateAccessory.constructor | src/platformAccessory.ts:17-40 | creating the accessory requests device info, then status, then publishes the display name |
| Accessory.DrivewayGateAccessory.CurrentState | src/platformAccessory.ts:42-44 | reads currentState of the context |
| Accessory.DrivewayGateAccessory.LastState | src/platformAccessory.ts:50-52 | reads lastState of the context |
| Accessory.DrivewayGateAccessory.TargetState | src/platformAccessory.ts:58-60 | reads targetState of the context |
| Accessory.DrivewayGateAccessory.Obstruction | src/platformAccessory.ts:66-68 | reads obstruction of the context |
| Accessory.DrivewayGateAccessory.SetCurrentState | src/platformAccessory.ts:46-48 | writes currentState of the context and nothing else |
| Accessory.DrivewayGateAccessory.SetLastState | src/platformAccessory.ts:54-56 | writes lastState of the context and nothing else |
| Accessory.DrivewayGateAccessory.SetTargetState | src/platformAccessory.ts:62-64 | writes targetState of the context and nothing else |
| Accessory.DrivewayGateAccessory.SetObstructionDetected | src/platformAccessory.ts:70-72 | writes obstruction of the context and nothing else |
| Accessory.DrivewayGateAccessory.SetCharacteristic | src/platformAccessory.ts:94 | appends one published (characteristic, value) pair and changes no context field |
| Accessory.DrivewayGateAccessory.SendSet | src/communicationHandler.ts:36-39 | logs one switch command |
| Accessory.DrivewayGateAccessory.ScheduleStatusCheckAfter | src/platformAccessory.ts:208-211 | logs one status check armed after seconds × 1000 ms |
| Accessory.DrivewayGateAccessory.HandleGetDeviceInfo | src/platformAccessory.ts:74-81 | publishes manufacturer "Shelly Plus 1", model, MAC as serial number and firmware version; no door field changes |
| Accessory.DrivewayGateAccessory.HandleGetStatus | src/platformAccessory.ts:83-146 | the new context, the appended effects and the throw flag are those of GetStatusStep |
| Accessory.DrivewayGateAccessory.HandleNotifyStatus | src/platformAccessory.ts:148-176 | the new context and the appended effects are those of NotifyStatusStep |
| Accessory.DrivewayGateAccessory.HandleMessage | src/communicationHandler.ts:41-57 | runs exactly the handler Classify picks, with the effects of MessageStep |
| Accessory.DrivewayGateAccessory.Stop | src/platformAccessory.ts:213-220 | one switch command, lastState STOPPED published, nothing else |
| Accessory.DrivewayGateAccessory.ResumeAfterStop | src/platformAccessory.ts:224-239 | switch command, then direction from the stored target, as ResumeMovement |
| Accessory.DrivewayGateAccessory.HandleTargetDoorStateSet | src/platformAccessory.ts:197-282 | the new context and the appended effects are those of TargetSetStep |
| Accessory.DrivewayGateAccessory.StatusCheckFired | src/platformAccessory.ts:208-211 | a firing check calls sendGetStatus and changes no field |
| Accessory.DrivewayGateAccessory.HandleCurrentDoorStateGet | src/platformAccessory.ts:182-185 | the host's CurrentDoorState read is served from lastState |
| Accessory.DrivewayGateAccessory.HandleTargetDoorStateGet | src/platformAccessory.ts:187-190 | the host's TargetDoorState read returns targetState |
| Accessory.DrivewayGateAccessory.HandleObstructionDetectedGet | src/platformAccessory.ts:192-195 | the host's ObstructionDetected read returns obstruction |
| Accessory.DrivewayGateAccessory.TranslateState | src/platformAccessory.ts:284-299 | agrees with Utils.TranslateState on every input |
| Accessory.OpenFromFreshAccessory | src/platformAccessory.ts:83-212 | a fresh accessory whose first reply reads closed, asked to open, is OPENING towards OPEN with obstruction 0 and the expected effect log |

## Left out

- src/connectionHandler.ts (WebSocket lifecycle, reconnect, listener attach and detach, awaiting a connection) is I/O and is not part of this model. `Wire` gives the requests handed to `sendMessage`. Whether they reach the device is not modelled.
- src/platform.ts and src/index.ts (discovery, UUIDs, registration, cache removal) use host APIs and are not part of this model. Only a new accessory's empty context is modelled.
- JSON parsing and serialisation are not modelled. Frames and requests are records of their fields. A parse failure throws before any handler runs and is outside the model.
- Real timers and wall-clock time are not modelled. `setTimeout` becomes the logged effect `ScheduleStatusCheck(delayMs)`, and the timer firing is the separate event `StatusCheckDue`. Several armed checks may be outstanding, as in the code.
- Logging is not modelled, and neither are the HAP internals of `setCharacteristic`, `onGet` and `onSet`. Only the published (characteristic, value) pair is kept.
- `handleSet` and `handleError` only log, so the model gives them no effect.
- A notification without a `params` object would throw. It is not modelled: the record keeps the `input:0` state only, following the `NotifyStatus` type, which makes `params` mandatory.
- Non-numeric ids, and a `result` that is a non-object value, are not modelled.
- `openTime` and `closeTime` are whole seconds. Fractional values, and the timer's clamping of negative or huge delays, are not modelled.
- Target values are integers. A non-numeric `CharacteristicValue` never equals 0 or 1 under `===`, so it behaves like an ignored integer.
- After a handler throws, the model goes on processing later events. What the host process does with the unhandled rejection is outside the model.

/**
 * The Shelly RPC layer of the gate accessory: the outbound request encoder, the
 * send wrappers and the classifier that routes an inbound frame to one handler.
 * JSON text is not modelled: requests and frames are records of their fields.
 */
module Communication {
  import opened Wrappers

  /** The RPC methods the accessory can request. */
  datatype ShellyMethod = GetDeviceInfo | GetStatus | SwitchSet

  /** The method string put on the wire for each RPC method. */
  function MethodName(m: ShellyMethod): (name: string)
    ensures MethodOfName(name) == Some(m)
  {
    match m
    case GetDeviceInfo => "Shelly.GetDeviceInfo"
    case GetStatus => "Shelly.GetStatus"
    case SwitchSet => "Switch.Set"
  }

  /** Reads a method string back; the left inverse of MethodName. */
  function MethodOfName(name: string): (m: Option<ShellyMethod>)
    ensures m.Some? <==> name in {"Shelly.GetDeviceInfo", "Shelly.GetStatus", "Switch.Set"}
  {
    if name == "Shelly.GetDeviceInfo" then Some(GetDeviceInfo)
    else if name == "Shelly.GetStatus" then Some(GetStatus)
    else if name == "Switch.Set" then Some(SwitchSet)
    else None
  }

  /** A string that is read back as a method is that method's wire string. */
  lemma MethodOfNameSound(name: string)
    ensures MethodOfName(name).Some? ==> MethodName(MethodOfName(name).value) == name
  {
  }

  /** Every method string is read back as the method it names. */
  lemma MethodNameRoundTrip(m: ShellyMethod)
    ensures MethodOfName(MethodName(m)) == Some(m)
  {
  }

  /** The correlation id of every request: a constant, not a counter. */
  const REQUEST_ID := 2

  /** The `params` of a switch command: switch channel 0, turn on. */
  datatype SwitchParams = SwitchParams(id: int, on: bool)

  /** An outbound request `{id, src, method, params?}`. */
  datatype Request = Request(id: int, src: string, rpcMethod: string, params: Option<SwitchParams>)

  /** The request sent for `m` by a device whose configured name is `src`. */
  function Encode(m: ShellyMethod, src: string): (r: Request)
    ensures r.id == REQUEST_ID && r.src == src && r.rpcMethod == MethodName(m)
    ensures r.params.Some? <==> m == SwitchSet
    ensures r.params.Some? ==> r.params.value == SwitchParams(0, true)
  {
    match m
    case GetDeviceInfo => Request(REQUEST_ID, src, MethodName(m), None)
    case GetStatus => Request(REQUEST_ID, src, MethodName(m), None)
    case SwitchSet => Request(REQUEST_ID, src, MethodName(m), Some(SwitchParams(0, true)))
  }

  /** Reads a request back: its method and source, when its shape is one Encode produces. */
  function DecodeRequest(r: Request): Option<(ShellyMethod, string)> {
    match MethodOfName(r.rpcMethod)
    case None => None
    case Some(m) =>
      if r.id != REQUEST_ID then None
      else if m == SwitchSet && r.params != Some(SwitchParams(0, true)) then None
      else if m != SwitchSet && r.params.Some? then None
      else Some((m, r.src))
  }

  /** Encoding loses nothing: the method and the source are read back. */
  lemma EncodeRoundTrip(m: ShellyMethod, src: string)
    ensures DecodeRequest(Encode(m, src)) == Some((m, src))
  {
    MethodNameRoundTrip(m);
  }

  /** DecodeRequest accepts exactly what Encode produces. */
  lemma DecodeRequestSound(r: Request)
    ensures DecodeRequest(r).Some? ==> Encode(DecodeRequest(r).value.0, DecodeRequest(r).value.1) == r
  {
  }

  /** The accessory's three send wrappers. */
  datatype SendCall = SendGetDeviceInfo | SendGetStatus | SendSet

  /** What a send wrapper hands to the connection: `sendSet` has its send commented out. */
  function Outbound(call: SendCall, src: string): (msgs: seq<Request>)
    ensures call == SendSet <==> msgs == []
    ensures call == SendGetDeviceInfo ==> msgs == [Encode(GetDeviceInfo, src)]
    ensures call == SendGetStatus ==> msgs == [Encode(GetStatus, src)]
  {
    match call
    case SendGetDeviceInfo => [Encode(GetDeviceInfo, src)]
    case SendGetStatus => [Encode(GetStatus, src)]
    case SendSet => []
  }

  /** No send wrapper ever puts a switch command on the wire. */
  lemma NoSwitchSetOnWire(call: SendCall, src: string, r: Request)
    requires r in Outbound(call, src)
    ensures r.rpcMethod != MethodName(SwitchSet) && r.params.None?
  {
  }

  /** The fields of a device-info reply that the accessory publishes. */
  datatype DeviceInfo = DeviceInfo(model: string, mac: string, ver: string)

  /**
   * An inbound frame, after JSON parsing. `id` and `rpcMethod` (the `method` key) are the top-level
   * keys; `result` records which of the keys the router tests ("name", "sys",
   * "was_on") the `result` object has (None when the frame has no result
   * object); `input0` is the `state` of the `input:0`
   * channel, read from `result` in a reply and from `params` in a notification
   * (None when that channel is absent); `info` holds the device-info fields.
   */
  datatype Frame = Frame(
    id: Option<int>,
    rpcMethod: Option<string>,
    result: Option<set<string>>,
    input0: Option<bool>,
    info: DeviceInfo)

  /** JavaScript truthiness of the `id` key: absent and 0 are falsy. */
  predicate IdTruthy(f: Frame) {
    f.id.Some? && f.id.value != 0
  }

  /** JavaScript truthiness of the `method` key: absent and "" are falsy. */
  predicate MethodTruthy(f: Frame) {
    f.rpcMethod.Some? && f.rpcMethod.value != ""
  }

  predicate HasResultKey(f: Frame, key: string) {
    f.result.Some? && key in f.result.value
  }

  /** Where a frame is routed. */
  datatype MessageKind =
    | DeviceInfoMsg   // handleGetDeviceInfo
    | StatusMsg       // handleGetStatus
    | SwitchSetMsg    // handleSet
    | NotifyMsg       // handleNotifyStatus
    | Dropped         // no handler is called
    | NoResultFault   // `'name' in response.result` throws: the reply has no result object

  /** The routing of `handleMessage`: replies by the first result key of name, sys, was_on. */
  function Classify(f: Frame): (k: MessageKind)
    ensures k == NoResultFault <==> IdTruthy(f) && f.result.None?
    ensures k == DeviceInfoMsg <==> IdTruthy(f) && HasResultKey(f, "name")
    ensures k == StatusMsg <==> IdTruthy(f) && !HasResultKey(f, "name") && HasResultKey(f, "sys")
    ensures k == SwitchSetMsg <==>
      IdTruthy(f) && !HasResultKey(f, "name") && !HasResultKey(f, "sys") && HasResultKey(f, "was_on")
    ensures k == NotifyMsg <==> !IdTruthy(f) && MethodTruthy(f)
    ensures k == Dropped <==>
      (IdTruthy(f) && f.result.Some? && !HasResultKey(f, "name") && !HasResultKey(f, "sys")
         && !HasResultKey(f, "was_on"))
      || (!IdTruthy(f) && !MethodTruthy(f))
  {
    if IdTruthy(f) then
      match f.result
      case None => NoResultFault
      case Some(keys) =>
        if "name" in keys then DeviceInfoMsg
        else if "sys" in keys then StatusMsg
        else if "was_on" in keys then SwitchSetMsg
        else Dropped
    else if MethodTruthy(f) then NotifyMsg
    else Dropped
  }

  /** A frame without a truthy id is routed on `method` alone, whatever else it carries. */
  lemma ClassifyIgnoresPayloadWithoutId(f: Frame, g: Frame)
    requires !IdTruthy(f) && !IdTruthy(g)
    requires MethodTruthy(f) == MethodTruthy(g)
    ensures Classify(f) == Classify(g)
  {
  }

  /** A reply echoing the request id is routed by its result, never as a notification. */
  lemma RepliesAreNotNotifications(f: Frame)
    requires f.id == Some(REQUEST_ID)
    ensures Classify(f) != NotifyMsg
  {
  }
}

/** The message vocabulary shared by the relay and the clients: session modes,
    message kinds and envelopes.  Payloads are decoded values; `Malformed` stands
    for a payload whose JSON does not decode into the type a handler expects. */
module Protocol {

  datatype Option<+T> = None | Some(value: T)

  const MODE_VIEW := "view"
  const MODE_VIEW_CONTROL := "view-control"

  const ROLE_CONTROLLER := "controller"
  const ROLE_CONTROLLED := "controlled"
  const ROLE_PEER := "peer"

  const RELAY := "relay"

  /** Every mode other than view-control, the empty one included, means view. */
  function NormalizeMode(mode: string): (m: string)
    ensures IsMode(m)
    ensures m == MODE_VIEW_CONTROL <==> mode == MODE_VIEW_CONTROL
  {
    if mode == MODE_VIEW_CONTROL then MODE_VIEW_CONTROL else MODE_VIEW
  }

  predicate IsMode(mode: string) {
    mode == MODE_VIEW || mode == MODE_VIEW_CONTROL
  }

  predicate AllowsInput(mode: string) {
    NormalizeMode(mode) == MODE_VIEW_CONTROL
  }

  datatype Kind =
    | DeviceRegister | DeviceRegistered | AuthCodePublish
    | WebShareCreate | WebShareList | WebShareRevoke | WebShareStatus
    | HeartbeatPing | HeartbeatPong
    | SessionRequest | SessionConfirm | SessionReady | SessionClose
    | StreamFrame | StreamControl | InputMouse | InputKeyboard | TelemetryStats
    | ErrorReply | Unknown

  datatype Payload =
    | Malformed
    | Raw(bytes: seq<bv8>)
    | Registration(deviceId: string, deviceName: string, role: string, token: string)
    | Registered(registeredId: string, registeredName: string)
    | AuthCode(code: string, codeTtlMillis: int)
    | ShareSpec(shareTtlMillis: int, shareMode: string, shareLabel: string)
    | ShareRef(shareId: string, shareToken: string)
    | Request(target: string, mode: string, authCode: string,
              requesterName: string, requesterRole: string, inputRequested: bool)
    | Confirm(accepted: bool, reason: string, acceptedMode: string, confirmInput: bool)
    | Ready(readySession: string, peerId: string, peerName: string, readyMode: string,
            readyInput: bool, localRole: string, shouldSendView: bool)
    | Closed(closedSession: string, closeReason: string)
    | Note(text: string)

  datatype Envelope = Envelope(kind: Kind, sessionId: string, from: string, to: string, payload: Payload)

  predicate IsInput(kind: Kind) {
    kind == InputMouse || kind == InputKeyboard
  }

  /** Kinds that only the controller of a session may send. */
  predicate ControllerOnly(kind: Kind) {
    IsInput(kind) || kind == StreamControl
  }

  /** Kinds the relay forwards inside a session without looking at the payload. */
  predicate IsSessionTraffic(kind: Kind) {
    ControllerOnly(kind) || kind == StreamFrame || kind == TelemetryStats
  }

  /** Two's-complement wrap-around of a 64-bit product. */
  function WrapInt64(x: int): (r: int)
    ensures -0x8000_0000_0000_0000 <= r < 0x8000_0000_0000_0000
    ensures (x - r) % 0x1_0000_0000_0000_0000 == 0
    ensures -0x8000_0000_0000_0000 <= x < 0x8000_0000_0000_0000 ==> r == x
  {
    var m := x % 0x1_0000_0000_0000_0000;
    if m < 0x8000_0000_0000_0000 then m else m - 0x1_0000_0000_0000_0000
  }

  const MILLISECOND := 1_000_000
  const SECOND := 1000 * MILLISECOND
  const MINUTE := 60 * SECOND

  /** `time.Duration(ms) * time.Millisecond` on 64-bit integers. */
  function MillisToDuration(ms: int): (d: int)
    ensures -0x8000_0000_0000_0000 <= d < 0x8000_0000_0000_0000
    ensures -9_223_372_036_854 <= ms <= 9_223_372_036_854 ==> d == 1_000_000 * ms
    ensures (1_000_000 * ms - d) % 0x1_0000_0000_0000_0000 == 0
  {
    WrapInt64(ms * MILLISECOND)
  }
}

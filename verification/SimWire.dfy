/** Scenario, messages and endpoints of the simulator. A SIP message is kept as what its builder
    put into it; an encoded frame parses back to the message unless its first byte was zeroed. */
module SimWire {
  import opened Wrappers

  datatype Method = Register | Message | Invite | Ack | Bye | Cancel | Info | OtherMethod

  datatype Body = NoBody | Keepalive | CatalogQuery(deviceId: string) | CatalogResponse | Sdp

  /** `authorized`: the request carries an Authorization header; `challenge`: the response carries a
      parseable WWW-Authenticate header; `user`: the user part of the From header, if any. */
  datatype SipMessage =
    | Request(verb: Method, authorized: bool, user: Option<string>, body: Body)
    | Response(code: nat, challenge: bool)

  datatype Bytes = Encoded(message: SipMessage) | Corrupted

  function Parse(bytes: Bytes): Option<SipMessage> {
    if bytes.Encoded? then Some(bytes.message) else None
  }

  datatype Endpoint = Platform | Device(index: nat)

  datatype MessageClass = AnyClass | RegisterClass | KeepaliveClass | CatalogClass | MediaClass | MessageClass

  predicate ClassMatches(target: MessageClass, actual: MessageClass) {
    target == AnyClass || target == actual
  }

  function Classify(msg: SipMessage): MessageClass {
    match msg
    case Response(_, _) => AnyClass
    case Request(verb, _, _, body) =>
      match verb
      case Register => RegisterClass
      case Message =>
        (match body
         case Keepalive => KeepaliveClass
         case CatalogQuery(_) => CatalogClass
         case CatalogResponse => CatalogClass
         case _ => MessageClass)
      case OtherMethod => MessageClass
      case _ => MediaClass
  }

  datatype Direction = DeviceToPlatform | PlatformToDevice | Both

  predicate DirectionMatches(direction: Direction, fromDevice: bool) {
    match direction
    case Both => true
    case DeviceToPlatform => fromDevice
    case PlatformToDevice => !fromDevice
  }

  datatype FaultKind =
    | Drop(direction: Direction, target: MessageClass)
    | Delay(extraMs: nat, jitterMs: nat, direction: Direction, target: MessageClass)
    | Reorder(window: nat, direction: Direction)
    | Duplicate(direction: Direction, target: MessageClass)
    | HalfPacket(direction: Direction)
    | Malformed(direction: Direction, target: MessageClass)
    | SipError(code: nat, target: MessageClass)

  datatype StepAction = QueryCatalog | SendInvite | SendBye

  datatype ScriptedStep = ScriptedStep(action: StepAction, atMs: nat)

  datatype Scenario = Scenario(
    shards: nat,
    deviceCount: nat,
    durationMs: nat,
    staggerMs: nat,
    udpSockets: nat,
    tcpPool: nat,
    keepaliveMs: nat,
    steps: seq<ScriptedStep>,
    faults: seq<FaultKind>)

  const MAX_U64: nat := 0xFFFF_FFFF_FFFF_FFFF

  /** The fields fit the integer types they are read into. */
  predicate Representable(s: Scenario) {
    && s.durationMs <= MAX_U64 && s.staggerMs <= MAX_U64 && s.keepaliveMs <= MAX_U64
    && (forall i | 0 <= i < |s.steps| :: s.steps[i].atMs <= MAX_U64)
    && (forall i | 0 <= i < |s.faults| ::
          s.faults[i].Delay? ==> s.faults[i].extraMs <= MAX_U64 && s.faults[i].jitterMs <= MAX_U64)
    && (forall i | 0 <= i < |s.faults| :: s.faults[i].Reorder? ==> s.faults[i].window <= 0xFFFF_FFFF)
  }

  /** `Scenario::validate` for UDP; fault rates do not occur in the model. */
  predicate Validated(s: Scenario) {
    && s.shards >= 1 && s.deviceCount >= 1 && s.durationMs >= 1
    && s.udpSockets >= 1 && s.tcpPool >= 1 && s.keepaliveMs >= 1
    && (forall i | 0 <= i < |s.faults| ::
          && !s.faults[i].HalfPacket?
          && (s.faults[i].Reorder? ==> s.faults[i].window >= 1)
          && (s.faults[i].SipError? ==> 300 <= s.faults[i].code <= 699))
    && (forall i | 0 <= i < |s.steps| :: s.steps[i].atMs < s.durationMs)
  }
}

/** Values shared by the codec, the sessions and the broker. */
module Types {

  type byte = x: int | 0 <= x < 256
  type u16 = x: int | 0 <= x < 65536

  /** A string slice: its UTF-8 bytes. */
  type Str = seq<byte>

  datatype Option<+T> = None | Some(value: T)

  datatype Result<+T> = Ok(value: T) | Err(error: MqttError) {
    predicate IsFailure() { Err? }
    function PropagateFailure<U>(): Result<U>
      requires Err?
    {
      Err(error)
    }
    function Extract(): T
      requires Ok?
    {
      value
    }
  }

  datatype MqttError =
    | Io
    | ChannelClosed
    | AckTimeout
    | Protocol(violation: Violation)
    | Codec(codec: CodecError)

  datatype Violation =
    | InvalidProtocolName
    | UnsupportedProtocolLevel(level: byte)
    | EmptyTopic
    | TopicTooLong
    | WildcardInPublishTopic
    | HashWildcardNotTerminal
    | WildcardMixedWithLiteral
    | SessionAlreadyBound
    | PacketTooLarge(len: nat, max: nat)

  datatype CodecError =
    | UnexpectedEof
    | InvalidPacketType(raw: byte)
    | MalformedLength
    | InvalidUtf8
    | PayloadTooLong(len: nat, max: nat)
    | QosInvalid(bits: byte)
    | ReservedFlagSet
    | MissingPacketId
    | ZeroPacketId
    | TopicTooLongForWire(len: nat, max: nat)
    | BodyTooLong(len: nat, max: nat)

  datatype QoS = AtMostOnce | AtLeastOnce | ExactlyOnce {
    function AsByte(): byte {
      match this
      case AtMostOnce => 0
      case AtLeastOnce => 1
      case ExactlyOnce => 2
    }

    function Min(other: QoS): QoS {
      if AsByte() <= other.AsByte() then this else other
    }
  }

  function QosFromByte(v: byte): Option<QoS> {
    if v == 0 then Some(AtMostOnce)
    else if v == 1 then Some(AtLeastOnce)
    else if v == 2 then Some(ExactlyOnce)
    else None
  }

  datatype SubackCode = Granted(qos: QoS) | Failure {
    function AsByte(): byte {
      match this
      case Granted(q) => q.AsByte()
      case Failure => 0x80
    }
  }

  function SubackCodeFromByte(v: byte): Option<SubackCode> {
    if v == 0x80 then Some(Failure)
    else match QosFromByte(v)
      case Some(q) => Some(Granted(q))
      case None => None
  }

  datatype ConnackReturnCode =
    | Accepted
    | UnacceptableProtocolVersion
    | IdentifierRejected
    | ServerUnavailable
    | BadUsernameOrPassword
    | NotAuthorized
  {
    function AsByte(): byte {
      match this
      case Accepted => 0
      case UnacceptableProtocolVersion => 1
      case IdentifierRejected => 2
      case ServerUnavailable => 3
      case BadUsernameOrPassword => 4
      case NotAuthorized => 5
    }
  }

  function ReturnCodeFromByte(v: byte): Option<ConnackReturnCode> {
    if v == 0 then Some(Accepted)
    else if v == 1 then Some(UnacceptableProtocolVersion)
    else if v == 2 then Some(IdentifierRejected)
    else if v == 3 then Some(ServerUnavailable)
    else if v == 4 then Some(BadUsernameOrPassword)
    else if v == 5 then Some(NotAuthorized)
    else None
  }

  datatype PublishPacket = PublishPacket(
    topic: Str, payload: seq<byte>, dup: bool, qos: QoS, retain: bool, packetId: Option<u16>)

  datatype WillMessage = WillMessage(topic: Str, payload: seq<byte>, qos: QoS, retain: bool)

  datatype ConnectPacket = ConnectPacket(
    clientId: Str, cleanSession: bool, keepAlive: u16,
    username: Option<Str>, password: Option<seq<byte>>, will: Option<WillMessage>)

  datatype TopicFilter = TopicFilter(filter: Str, qos: QoS)

  datatype Packet =
    | Connect(connect: ConnectPacket)
    | Connack(sessionPresent: bool, returnCode: ConnackReturnCode)
    | Publish(publish: PublishPacket)
    | Puback(id: u16)
    | Pubrec(id: u16)
    | Pubrel(id: u16)
    | Pubcomp(id: u16)
    | Subscribe(id: u16, subscriptions: seq<TopicFilter>)
    | Suback(id: u16, returnCodes: seq<SubackCode>)
    | Unsubscribe(id: u16, topics: seq<Str>)
    | Unsuback(id: u16)
    | Pingreq
    | Pingresp
    | Disconnect

  /** Well-formed UTF-8 byte sequences (Table 3-7 of the Unicode Standard). */
  predicate ValidUtf8(s: Str) {
    if s == [] then true
    else if s[0] < 0x80 then ValidUtf8(s[1..])
    else if 0xC2 <= s[0] <= 0xDF then
      |s| >= 2 && Continuation(s[1]) && ValidUtf8(s[2..])
    else if 0xE0 <= s[0] <= 0xEF then
      && |s| >= 3
      && (if s[0] == 0xE0 then 0xA0 else 0x80) <= s[1] <= (if s[0] == 0xED then 0x9F else 0xBF)
      && Continuation(s[2])
      && ValidUtf8(s[3..])
    else if 0xF0 <= s[0] <= 0xF4 then
      && |s| >= 4
      && (if s[0] == 0xF0 then 0x90 else 0x80) <= s[1] <= (if s[0] == 0xF4 then 0x8F else 0xBF)
      && Continuation(s[2])
      && Continuation(s[3])
      && ValidUtf8(s[4..])
    else false
  }

  /** A string that fits a length-prefixed field. */
  predicate Field(s: Str) { |s| < 65536 && ValidUtf8(s) }

  predicate Continuation(b: byte) { 0x80 <= b <= 0xBF }
}

/** Packet encoders. Bit masks are written as sums of distinct powers of two. */
module Encode {
  import opened Types
  import opened Varint
  import opened Primitives

  /** The fixed header and body of one packet on the wire. */
  function Frame(first: byte, body: seq<byte>): seq<byte> {
    [first] + EncodedLength(|body|) + body
  }

  /** The bytes of a packet, or why the encoder refuses it. */
  function Encoded(p: Packet): Result<seq<byte>> {
    if p.Publish? then
      var id :- PublishIdToWrite(p.publish);
      var body := PublishBody(p.publish, id);
      if |body| > SPEC_MAX_PACKET_SIZE then Err(Codec(BodyTooLong(|body|, SPEC_MAX_PACKET_SIZE)))
      else Ok(Frame(FirstByte(p), body))
    else Ok(Frame(FirstByte(p), Body(p)))
  }

  function FirstByte(p: Packet): byte {
    match p
    case Connect(_) => 0x10
    case Connack(_, _) => 0x20
    case Publish(m) => 0x30 + PublishFlags(m)
    case Puback(_) => 0x40
    case Pubrec(_) => 0x50
    case Pubrel(_) => 0x62
    case Pubcomp(_) => 0x70
    case Subscribe(_, _) => 0x82
    case Suback(_, _) => 0x90
    case Unsubscribe(_, _) => 0xA2
    case Unsuback(_) => 0xB0
    case Pingreq => 0xC0
    case Pingresp => 0xD0
    case Disconnect => 0xE0
  }

  function Body(p: Packet): seq<byte> {
    match p
    case Connect(c) => ConnectBody(c)
    case Connack(present, code) => [if present then 1 else 0, code.AsByte()]
    case Publish(m) => PublishBody(m, if m.qos.AtMostOnce? then None else m.packetId)
    case Subscribe(id, subs) => U16Bytes(id) + SubscriptionBytes(subs)
    case Suback(id, codes) => U16Bytes(id) + CodeBytes(codes)
    case Unsubscribe(id, topics) => U16Bytes(id) + TopicBytes(topics)
    case Pingreq => []
    case Pingresp => []
    case Disconnect => []
    case _ => U16Bytes(p.id)
  }

  function ConnectBody(c: ConnectPacket): seq<byte> {
    [0, 4, 'M' as int, 'Q' as int, 'T' as int, 'T' as int, 4, ConnectFlags(c)]
    + U16Bytes(c.keepAlive) + ConnectPayload(c)
  }

  function ConnectPayload(c: ConnectPacket): seq<byte> {
    Prefixed(c.clientId) + (WillBytes(c.will) + (OptionalBytes(c.username) + OptionalBytes(c.password)))
  }

  function OptionalBytes(b: Option<seq<byte>>): seq<byte> {
    if b.Some? then Prefixed(b.value) else []
  }

  function WillBytes(w: Option<WillMessage>): seq<byte> {
    if w.Some? then Prefixed(w.value.topic) + Prefixed(w.value.payload) else []
  }

  function ConnectFlags(c: ConnectPacket): byte {
    (if c.cleanSession then 2 else 0)
    + (if c.will.Some? then 4 + 8 * c.will.value.qos.AsByte() + (if c.will.value.retain then 32 else 0) else 0)
    + (if c.username.Some? then 128 else 0)
    + (if c.password.Some? then 64 else 0)
  }

  /** Flags are packed into the low half of the first byte. */
  function PublishFlags(m: PublishPacket): (f: byte)
    ensures f < 16
  {
    (if m.dup then 8 else 0) + (if m.retain then 1 else 0) + 2 * m.qos.AsByte()
  }

  /** Everything both PUBLISH encoders must refuse before writing a byte. */
  function PublishIdToWrite(m: PublishPacket): Result<Option<u16>> {
    if |m.topic| > 65535 then Err(Codec(TopicTooLongForWire(|m.topic|, 65535)))
    else if m.qos.AtMostOnce? then Ok(None)
    else match m.packetId
      case None => Err(Codec(MissingPacketId))
      case Some(id) => if id == 0 then Err(Codec(ZeroPacketId)) else Ok(Some(id))
  }

  function PublishBody(m: PublishPacket, id: Option<u16>): seq<byte> {
    Prefixed(m.topic) + ((if id.Some? then U16Bytes(id.value) else []) + m.payload)
  }

  function SubscriptionBytes(subs: seq<TopicFilter>): seq<byte> {
    if subs == [] then []
    else Prefixed(subs[0].filter) + ([subs[0].qos.AsByte()] + SubscriptionBytes(subs[1..]))
  }

  function TopicBytes(topics: seq<Str>): seq<byte> {
    if topics == [] then [] else Prefixed(topics[0]) + TopicBytes(topics[1..])
  }

  function CodeBytes(codes: seq<SubackCode>): seq<byte> {
    if codes == [] then [] else [codes[0].AsByte()] + CodeBytes(codes[1..])
  }

  /** The first byte on the wire: packet type and flags of section 2.2 of MQTT 3.1.1. */
  lemma WireFirstByte(p: Packet)
    requires Encoded(p).Ok?
    ensures |Encoded(p).value| >= 2
    ensures var first := Encoded(p).value[0];
            && (p.Connect? ==> first == 1 * 16) && (p.Connack? ==> first == 2 * 16)
            && (p.Publish? ==>
                  first == 3 * 16 + (if p.publish.dup then 8 else 0) + 2 * p.publish.qos.AsByte()
                           + (if p.publish.retain then 1 else 0))
            && (p.Puback? ==> first == 4 * 16) && (p.Pubrec? ==> first == 5 * 16)
            && (p.Pubrel? ==> first == 6 * 16 + 2) && (p.Pubcomp? ==> first == 7 * 16)
            && (p.Subscribe? ==> first == 8 * 16 + 2) && (p.Suback? ==> first == 9 * 16)
            && (p.Unsubscribe? ==> first == 10 * 16 + 2) && (p.Unsuback? ==> first == 11 * 16)
            && (p.Pingreq? ==> first == 12 * 16) && (p.Pingresp? ==> first == 13 * 16)
            && (p.Disconnect? ==> first == 14 * 16)
  {
    assert |EncodedLength(|Body(p)|)| >= 1;
    if p.Publish? {
      assert |EncodedLength(|PublishBody(p.publish, PublishIdToWrite(p.publish).value)|)| >= 1;
    }
  }

  /** Only a PUBLISH is ever refused: for a topic or body too long for the wire, or an
      acknowledged one without a nonzero id. */
  lemma EncodedExactly(p: Packet)
    ensures Encoded(p).Ok? <==>
              (p.Publish? ==>
                 var m := p.publish;
                 && |m.topic| <= 65535
                 && (m.qos == AtMostOnce || (m.packetId.Some? && m.packetId.value != 0))
                 && 2 + |m.topic| + (if m.qos == AtMostOnce then 0 else 2) + |m.payload| <= 268435455)
  {
  }

  // ---- the encoders -----------------------------------------------------------

  method WriteLengthPrefixed(out: seq<byte>, b: seq<byte>) returns (out': seq<byte>)
    ensures out' == out + Prefixed(b)
  {
    out' := out + U16Bytes(|b| % 65536);
    out' := out' + b;
  }

  method FinishFrame(first: byte, body: seq<byte>) returns (buf: seq<byte>)
    ensures buf == Frame(first, body)
  {
    var len := EncodeRemainingLength(|body|);
    buf := [first];
    buf := buf + len;
    buf := buf + body;
  }

  method PackConnectFlags(c: ConnectPacket) returns (flags: byte)
    ensures flags == ConnectFlags(c)
  {
    flags := 0;
    if c.cleanSession {
      flags := flags + 2;
    }
    if c.will.Some? {
      flags := flags + 4;
      flags := flags + 8 * c.will.value.qos.AsByte();
      if c.will.value.retain {
        flags := flags + 32;
      }
    }
    if c.username.Some? {
      flags := flags + 128;
    }
    if c.password.Some? {
      flags := flags + 64;
    }
  }

  method WriteOptional(out: seq<byte>, b: Option<seq<byte>>) returns (out': seq<byte>)
    ensures out' == out + OptionalBytes(b)
  {
    out' := out;
    if b.Some? {
      out' := WriteLengthPrefixed(out', b.value);
    }
  }

  method WriteWill(out: seq<byte>, will: Option<WillMessage>) returns (out': seq<byte>)
    ensures out' == out + WillBytes(will)
  {
    out' := out;
    if will.Some? {
      out' := WriteLengthPrefixed(out', will.value.topic);
      out' := WriteLengthPrefixed(out', will.value.payload);
    }
  }

  method WriteConnectPayload(out: seq<byte>, c: ConnectPacket) returns (out': seq<byte>)
    ensures out' == out + ConnectPayload(c)
  {
    out' := WriteLengthPrefixed(out, c.clientId);
    out' := WriteWill(out', c.will);
    out' := WriteOptional(out', c.username);
    out' := WriteOptional(out', c.password);
    FivePieces(out, Prefixed(c.clientId), WillBytes(c.will), OptionalBytes(c.username), OptionalBytes(c.password));
  }

  lemma FivePieces(a: seq<byte>, b: seq<byte>, c: seq<byte>, d: seq<byte>, e: seq<byte>)
    ensures a + b + c + d + e == a + (b + (c + (d + e)))
  {
  }

  method EncodeConnect(c: ConnectPacket) returns (buf: seq<byte>)
    ensures Encoded(Connect(c)) == Ok(buf)
  {
    var body: seq<byte> := [0, 4, 'M' as int, 'Q' as int, 'T' as int, 'T' as int];
    body := body + [4];
    var flags := PackConnectFlags(c);
    body := body + [flags];
    body := body + U16Bytes(c.keepAlive);
    body := WriteConnectPayload(body, c);
    assert body == ConnectBody(c);
    buf := FinishFrame(0x10, body);
  }

  method EncodeSubscribe(id: u16, subs: seq<TopicFilter>) returns (buf: seq<byte>)
    ensures Encoded(Subscribe(id, subs)) == Ok(buf)
  {
    var body := U16Bytes(id);
    for i := 0 to |subs|
      invariant body + SubscriptionBytes(subs[i..]) == Body(Subscribe(id, subs))
    {
      assert subs[i..][1..] == subs[i + 1..];
      body := WriteLengthPrefixed(body, subs[i].filter);
      body := body + [subs[i].qos.AsByte()];
    }
    assert body == Body(Subscribe(id, subs));
    buf := FinishFrame(0x82, body);
  }

  method EncodeSuback(id: u16, codes: seq<SubackCode>) returns (buf: seq<byte>)
    ensures Encoded(Suback(id, codes)) == Ok(buf)
  {
    var body := U16Bytes(id);
    for i := 0 to |codes|
      invariant body + CodeBytes(codes[i..]) == Body(Suback(id, codes))
    {
      assert codes[i..][1..] == codes[i + 1..];
      body := body + [codes[i].AsByte()];
    }
    assert body == Body(Suback(id, codes));
    buf := FinishFrame(0x90, body);
  }

  method EncodeUnsubscribe(id: u16, topics: seq<Str>) returns (buf: seq<byte>)
    ensures Encoded(Unsubscribe(id, topics)) == Ok(buf)
  {
    var body := U16Bytes(id);
    for i := 0 to |topics|
      invariant body + TopicBytes(topics[i..]) == Body(Unsubscribe(id, topics))
    {
      assert topics[i..][1..] == topics[i + 1..];
      body := WriteLengthPrefixed(body, topics[i]);
    }
    assert body == Body(Unsubscribe(id, topics));
    buf := FinishFrame(0xA2, body);
  }

  method PackPublishFlags(m: PublishPacket) returns (flags: byte)
    ensures flags == PublishFlags(m)
  {
    flags := 0;
    if m.dup {
      flags := flags + 8;
    }
    if m.retain {
      flags := flags + 1;
    }
    flags := flags + 2 * m.qos.AsByte();
  }

  method EncodePublish(m: PublishPacket) returns (r: Result<seq<byte>>)
    ensures r == Encoded(Publish(m))
  {
    var id :- PublishIdToWrite(m);
    var body := U16Bytes(|m.topic|);
    body := body + m.topic;
    if id.Some? {
      body := body + U16Bytes(id.value);
    }
    body := body + m.payload;
    assert body == PublishBody(m, id);
    if |body| > SPEC_MAX_PACKET_SIZE {
      return Err(Codec(BodyTooLong(|body|, SPEC_MAX_PACKET_SIZE)));
    }
    var flags := PackPublishFlags(m);
    var buf := FinishFrame(0x30 + flags, body);
    return Ok(buf);
  }

  method EncodePacket(p: Packet) returns (r: Result<seq<byte>>)
    ensures r == Encoded(p)
  {
    assert EncodedLength(0) == [0] && EncodedLength(2) == [2];
    var buf: seq<byte>;
    match p {
      case Connect(c) => buf := EncodeConnect(c);
      case Connack(present, code) => buf := [0x20, 2, if present then 1 else 0, code.AsByte()];
      case Publish(m) =>
        r := EncodePublish(m);
        return;
      case Puback(id) => buf := [0x40, 2, id / 256, id % 256];
      case Pubrec(id) => buf := [0x50, 2, id / 256, id % 256];
      case Pubrel(id) => buf := [0x62, 2, id / 256, id % 256];
      case Pubcomp(id) => buf := [0x70, 2, id / 256, id % 256];
      case Subscribe(id, subs) => buf := EncodeSubscribe(id, subs);
      case Suback(id, codes) => buf := EncodeSuback(id, codes);
      case Unsubscribe(id, topics) => buf := EncodeUnsubscribe(id, topics);
      case Unsuback(id) => buf := [0xB0, 2, id / 256, id % 256];
      case Pingreq => buf := [0xC0, 0];
      case Pingresp => buf := [0xD0, 0];
      case Disconnect => buf := [0xE0, 0];
    }
    assert buf == Frame(FirstByte(p), Body(p));
    r := Ok(buf);
  }
}

/** The zero-copy PUBLISH write path, and why fan-out never meets a refusal. */
module PublishWriter {
  import opened Types
  import opened Streams
  import opened Varint
  import opened Primitives
  import opened Encode
  import opened Decode
  import opened PacketRoundTrip

  /** The two PUBLISH encoders agree: a refusal is the same one and writes
      nothing; otherwise the bytes put on the transport are the encoder's, all of
      them, or those up to where the transport failed. */
  method WritePublishPacket(writer: ByteWriter, m: PublishPacket) returns (r: Result<()>)
    requires |writer.written| <= writer.capacity
    modifies writer
    ensures |writer.written| <= writer.capacity
    ensures match Encoded(Publish(m))
            case Err(e) => r == Err(e) && writer.written == old(writer.written)
            case Ok(bytes) =>
              var sent := old(writer.written) + bytes;
              if |sent| <= writer.capacity then r == Ok(()) && writer.written == sent
              else r == Err(Io) && writer.written == sent[..writer.capacity]
  {
    var id :- PublishIdToWrite(m);
    var varHeaderLen := 2 + |m.topic|;
    if id.Some? {
      varHeaderLen := varHeaderLen + 2;
    }
    var bodyLen := varHeaderLen + |m.payload|;
    if bodyLen > SPEC_MAX_PACKET_SIZE {
      return Err(Codec(BodyTooLong(bodyLen, SPEC_MAX_PACKET_SIZE)));
    }
    var header := BuildHeader(m, id, bodyLen);
    ghost var before := writer.written;
    TwoWrites(before, header, m.payload, writer.capacity);
    var w := writer.WriteAll(header);
    if w.Err? {
      return w;
    }
    r := writer.WriteAll(m.payload);
  }

  /** Fixed and variable header: the frame without its payload. */
  method BuildHeader(m: PublishPacket, id: Option<u16>, bodyLen: nat) returns (header: seq<byte>)
    requires PublishIdToWrite(m) == Ok(id) && bodyLen == |PublishBody(m, id)|
    ensures header + m.payload == Frame(0x30 + PublishFlags(m), PublishBody(m, id))
  {
    var flags := PackPublishFlags(m);
    var len := EncodeRemainingLength(bodyLen);
    header := [0x30 + flags];
    header := header + len;
    header := header + U16Bytes(|m.topic|);
    header := header + m.topic;
    if id.Some? {
      header := header + U16Bytes(id.value);
    }
    HeaderThenPayload(m, id, header);
  }

  /** Two writes to a transport that fails put out what one would. */
  lemma TwoWrites(before: seq<byte>, a: seq<byte>, b: seq<byte>, capacity: nat)
    ensures before + a + b == before + (a + b)
    ensures capacity < |before + a| ==> (before + a)[..capacity] == (before + (a + b))[..capacity]
  {
  }

  lemma HeaderThenPayload(m: PublishPacket, id: Option<u16>, header: seq<byte>)
    requires PublishIdToWrite(m) == Ok(id)
    requires header == [0x30 + PublishFlags(m)] + EncodedLength(|PublishBody(m, id)|) + U16Bytes(|m.topic|) + m.topic
                       + (if id.Some? then U16Bytes(id.value) else [])
    ensures header + m.payload == Frame(0x30 + PublishFlags(m), PublishBody(m, id))
  {
    SixPieces([0x30 + PublishFlags(m)], EncodedLength(|PublishBody(m, id)|), U16Bytes(|m.topic|), m.topic,
              if id.Some? then U16Bytes(id.value) else [], m.payload);
  }

  lemma SixPieces(a: seq<byte>, b: seq<byte>, c: seq<byte>, d: seq<byte>, e: seq<byte>, f: seq<byte>)
    ensures a + b + c + d + e + f == a + b + ((c + d) + (e + f))
  {
  }

  /** The copy of a message that fan-out hands to one subscriber. */
  function FanOutCopy(m: PublishPacket, granted: QoS, id: Option<u16>): PublishPacket {
    PublishPacket(m.topic, m.payload, false, m.qos.Min(granted), false, id)
  }

  /** A nonzero id exactly when the copy needs one. */
  predicate IdFor(qos: QoS, id: Option<u16>) {
    if qos == AtMostOnce then id == None else id.Some? && id.value != 0
  }

  /** Any PUBLISH that was received, fanned out at any granted QoS, is accepted
      by the encoders and its body is no longer than the one received. */
  lemma FanOutIsEncodable(first: byte, body: seq<byte>, m: PublishPacket, granted: QoS, id: Option<u16>)
    requires ParsedPublish(first, body) == Ok(Publish(m))
    requires |body| <= SPEC_MAX_PACKET_SIZE
    requires IdFor(m.qos.Min(granted), id)
    ensures Encoded(Publish(FanOutCopy(m, granted, id))).Ok?
    ensures |Body(Publish(FanOutCopy(m, granted, id)))| <= |body|
  {
    var topic := TakeStr(body).value;
    var rest := TakeOptionalId(m.qos != AtMostOnce, topic.rest).value.rest;
    assert |body| == 2 + |m.topic| + |topic.rest| && rest == m.payload;
  }

  /** So is the Will of any CONNECT that was received, published by the broker. */
  lemma WillIsEncodable(body: seq<byte>, c: ConnectPacket, granted: QoS, id: Option<u16>)
    requires ParsedConnect(body) == Ok(Connect(c)) && c.will.Some?
    requires IdFor(c.will.value.qos.Min(granted), id)
    ensures Encoded(Publish(FanOutCopy(WillPublish(c.will.value), granted, id))).Ok?
  {
    ConnectIsWellFormed(body[7], U16Of(body[8], body[9]), body[10..]);
  }

  /** `m` is the Will as registered: its own topic, payload, QoS and retain flag, no
      duplicate flag and no id. */
  predicate SaysWill(m: PublishPacket, w: WillMessage) {
    && m.topic == w.topic && m.payload == w.payload && m.qos == w.qos && m.retain == w.retain
    && !m.dup && m.packetId.None?
  }

  /** The PUBLISH a broker makes of a Will. */
  function WillPublish(w: WillMessage): PublishPacket {
    PublishPacket(w.topic, w.payload, false, w.qos, w.retain, None)
  }
}

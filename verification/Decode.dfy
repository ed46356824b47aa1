/** Packet-body parsers: the grammar over the bytes still to be read, and the cursor
    parsers proved against it. */
module Decode {
  import opened Types
  import opened Primitives

  predicate HasBit(b: byte, weight: nat)
    requires weight > 0
  {
    b / weight % 2 == 1
  }

  /** The body of a frame whose first byte names packet type `first / 16`. */
  function Parsed(first: byte, body: seq<byte>): Result<Packet>
    requires 1 <= first / 16 <= 14
  {
    var kind := first / 16;
    if kind == 1 then ParsedConnect(body)
    else if kind == 2 then ParsedConnack(body)
    else if kind == 3 then ParsedPublish(first, body)
    else if kind <= 7 then ParsedAck(first, body)
    else if kind == 8 then ParsedSubscribe(body)
    else if kind == 9 then ParsedSuback(body)
    else if kind == 10 then ParsedUnsubscribe(body)
    else if kind == 11 then
      if |body| != 2 then Err(Codec(PayloadTooLong(|body|, 2))) else Ok(Unsuback(U16Of(body[0], body[1])))
    else if body != [] then Err(Codec(PayloadTooLong(|body|, 0)))
    else Ok(if kind == 12 then Pingreq else if kind == 13 then Pingresp else Disconnect)
  }

  function ParsedConnack(body: seq<byte>): Result<Packet> {
    if |body| < 2 then Err(Codec(UnexpectedEof))
    else match ReturnCodeFromByte(body[1])
      case Some(code) => Ok(Connack(HasBit(body[0], 1), code))
      case None => Err(Codec(InvalidPacketType(body[1])))
  }

  function ParsedAck(first: byte, body: seq<byte>): Result<Packet>
    requires 4 <= first / 16 <= 7
  {
    var kind := first / 16;
    if |body| != 2 then Err(Codec(PayloadTooLong(|body|, 2)))
    else if first % 16 != (if kind == 6 then 2 else 0) then Err(Codec(ReservedFlagSet))
    else
      var id := U16Of(body[0], body[1]);
      Ok(if kind == 4 then Puback(id) else if kind == 5 then Pubrec(id)
         else if kind == 6 then Pubrel(id) else Pubcomp(id))
  }

  function ParsedConnect(body: seq<byte>): Result<Packet> {
    if |body| < 10 then Err(Codec(UnexpectedEof))
    else if body[..6] != [0, 4, 'M' as int, 'Q' as int, 'T' as int, 'T' as int] then
      Err(Protocol(InvalidProtocolName))
    else if body[6] != 4 then Err(Protocol(UnsupportedProtocolLevel(body[6])))
    else ConnectFields(body[7], U16Of(body[8], body[9]), body[10..])
  }

  /** A CONNECT is read only under the protocol's name at level 4, and is refused for
      the name before the level. */
  lemma ConnectNeedsItsName(body: seq<byte>)
    ensures ParsedConnect(body).Ok? ==>
              |body| >= 12 && body[..7] == [0, 4, 77, 81, 84, 84, 4]
    ensures |body| >= 10 && body[..6] != [0, 4, 77, 81, 84, 84] ==>
              ParsedConnect(body) == Err(Protocol(InvalidProtocolName))
    ensures |body| >= 10 && body[..6] == [0, 4, 77, 81, 84, 84] && body[6] != 4 ==>
              ParsedConnect(body) == Err(Protocol(UnsupportedProtocolLevel(body[6])))
  {
    if ParsedConnect(body).Ok? {
      assert body[..7] == body[..6] + [body[6]];
      assert TakeStr(body[10..]).Ok?;
    }
  }

  /** An ack is read exactly from two bytes under its own reserved flags. */
  lemma AckNeedsItsFlags(first: byte, body: seq<byte>)
    requires 4 <= first / 16 <= 7
    ensures Parsed(first, body).Ok? <==> |body| == 2 && first in {0x40, 0x50, 0x62, 0x70}
    ensures Parsed(first, body).Ok? ==>
              var high: int := body[0];
              var id := 256 * high + body[1];
              Parsed(first, body).value ==
                (if first == 0x40 then Puback(id) else if first == 0x50 then Pubrec(id)
                 else if first == 0x62 then Pubrel(id) else Pubcomp(id))
  {
  }

  function ConnectFields(flags: byte, keepAlive: u16, s: seq<byte>): Result<Packet> {
    var client :- TakeStr(s);
    var will :- TakeWill(flags, client.rest);
    var user :- TakeOptionalStr(HasBit(flags, 128), will.rest);
    var pass :- TakeOptionalBytes(HasBit(flags, 64), user.rest);
    Ok(Connect(ConnectPacket(client.value, HasBit(flags, 2), keepAlive, user.value, pass.value, will.value)))
  }

  function TakeWill(flags: byte, s: seq<byte>): (r: Result<Taken<Option<WillMessage>>>)
    ensures r.Ok? && r.value.value.Some? ==>
              Field(r.value.value.value.topic) && |r.value.value.value.payload| < 65536
  {
    if !HasBit(flags, 4) then Ok(Taken(None, s))
    else
      var w :- TakeWillFields(s);
      match QosFromByte(flags / 8 % 4)
      case None => Err(Codec(QosInvalid(flags / 8 % 4)))
      case Some(qos) => Ok(Taken(Some(WillMessage(w.value.0, w.value.1, qos, HasBit(flags, 32))), w.rest))
  }

  function TakeWillFields(s: seq<byte>): (r: Result<Taken<(Str, seq<byte>)>>)
    ensures r.Ok? ==> Field(r.value.value.0) && |r.value.value.1| < 65536
  {
    var topic :- TakeStr(s);
    var payload :- TakeBytes(topic.rest);
    Ok(Taken((topic.value, payload.value), payload.rest))
  }

  function TakeOptionalStr(present: bool, s: seq<byte>): (r: Result<Taken<Option<Str>>>)
    ensures r.Ok? && r.value.value.Some? ==> Field(r.value.value.value)
  {
    if !present then Ok(Taken(None, s))
    else
      var t :- TakeStr(s);
      Ok(Taken(Some(t.value), t.rest))
  }

  function TakeOptionalBytes(present: bool, s: seq<byte>): (r: Result<Taken<Option<seq<byte>>>>)
    ensures r.Ok? && r.value.value.Some? ==> |r.value.value.value| < 65536
  {
    if !present then Ok(Taken(None, s))
    else
      var t :- TakeBytes(s);
      Ok(Taken(Some(t.value), t.rest))
  }

  function ParsedPublish(first: byte, body: seq<byte>): Result<Packet> {
    if |body| < 2 then Err(Codec(UnexpectedEof))
    else match QosFromByte(first / 2 % 4)
      case None => Err(Codec(QosInvalid(first / 2 % 4)))
      case Some(qos) =>
        var topic :- TakeStr(body);
        var id :- TakeOptionalId(qos != AtMostOnce, topic.rest);
        Ok(Publish(PublishPacket(topic.value, id.rest, HasBit(first, 8), qos, HasBit(first, 1), id.value)))
  }

  function TakeOptionalId(present: bool, s: seq<byte>): Result<Taken<Option<u16>>> {
    if !present then Ok(Taken(None, s))
    else
      var t :- TakeU16(s);
      Ok(Taken(Some(t.value), t.rest))
  }

  function ParsedSubscribe(body: seq<byte>): Result<Packet> {
    if |body| < 5 then Err(Codec(UnexpectedEof))
    else
      var id :- TakeU16(body);
      var subs :- SubscriptionsIn(id.rest);
      Ok(Subscribe(id.value, subs))
  }

  function SubscriptionsIn(s: seq<byte>): Result<seq<TopicFilter>> {
    if s == [] then Ok([])
    else
      var sub :- TakeSubscription(s);
      var more :- SubscriptionsIn(sub.rest);
      Ok([sub.value] + more)
  }

  function TakeSubscription(s: seq<byte>): (r: Result<Taken<TopicFilter>>)
    ensures r.Ok? ==> |r.value.rest| < |s|
  {
    var topic :- TakeStr(s);
    if topic.rest == [] then Err(Codec(UnexpectedEof))
    else match QosFromByte(topic.rest[0])
      case None => Err(Codec(QosInvalid(topic.rest[0])))
      case Some(qos) => Ok(Taken(TopicFilter(topic.value, qos), topic.rest[1..]))
  }

  function ParsedUnsubscribe(body: seq<byte>): Result<Packet> {
    if |body| < 4 then Err(Codec(UnexpectedEof))
    else
      var id :- TakeU16(body);
      var topics :- TopicsIn(id.rest);
      Ok(Unsubscribe(id.value, topics))
  }

  function TopicsIn(s: seq<byte>): Result<seq<Str>> {
    if s == [] then Ok([])
    else
      var topic :- TakeStr(s);
      var more :- TopicsIn(topic.rest);
      Ok([topic.value] + more)
  }

  function ParsedSuback(body: seq<byte>): Result<Packet> {
    if |body| < 3 then Err(Codec(UnexpectedEof))
    else
      var codes :- CodesIn(body[2..]);
      Ok(Suback(U16Of(body[0], body[1]), codes))
  }

  function CodesIn(s: seq<byte>): Result<seq<SubackCode>> {
    if s == [] then Ok([])
    else match SubackCodeFromByte(s[0])
      case None => Err(Codec(InvalidPacketType(s[0])))
      case Some(code) =>
        var more :- CodesIn(s[1..]);
        Ok([code] + more)
  }

  // ---- the cursor parsers -----------------------------------------------------

  method ParseConnect(body: seq<byte>) returns (r: Result<Packet>)
    ensures r == ParsedConnect(body)
  {
    if |body| < 10 {
      return Err(Codec(UnexpectedEof));
    }
    var nameLen := U16Of(body[0], body[1]);
    assert nameLen == 4 <==> body[..2] == [0, 4];
    assert body[..6] == body[..2] + body[2..6];
    if nameLen != 4 || body[2..6] != ['M' as int, 'Q' as int, 'T' as int, 'T' as int] {
      return Err(Protocol(InvalidProtocolName));
    }
    if body[6] != 4 {
      return Err(Protocol(UnsupportedProtocolLevel(body[6])));
    }
    var flags, keepAlive := body[7], U16Of(body[8], body[9]);
    var client, cursor := ReadArcStr(body, 10);
    if client.Err? {
      return Err(client.error);
    }
    var will: Option<WillMessage>;
    will, cursor := None, cursor;
    if HasBit(flags, 4) {
      var topic, payload;
      topic, cursor := ReadArcStr(body, cursor);
      if topic.Err? {
        return Err(topic.error);
      }
      payload, cursor := ReadBytes(body, cursor);
      if payload.Err? {
        return Err(payload.error);
      }
      var qos := QosFromByte(flags / 8 % 4);
      if qos.None? {
        return Err(Codec(QosInvalid(flags / 8 % 4)));
      }
      will := Some(WillMessage(topic.value, payload.value, qos.value, HasBit(flags, 32)));
    }
    var username: Option<Str> := None;
    if HasBit(flags, 128) {
      var user;
      user, cursor := ReadArcStr(body, cursor);
      if user.Err? {
        return Err(user.error);
      }
      username := Some(user.value);
    }
    var password: Option<seq<byte>> := None;
    if HasBit(flags, 64) {
      var pass;
      pass, cursor := ReadBytes(body, cursor);
      if pass.Err? {
        return Err(pass.error);
      }
      password := Some(pass.value);
    }
    return Ok(Connect(ConnectPacket(client.value, HasBit(flags, 2), keepAlive, username, password, will)));
  }

  method ParsePublish(first: byte, body: seq<byte>) returns (r: Result<Packet>)
    ensures r == ParsedPublish(first, body)
  {
    if |body| < 2 {
      return Err(Codec(UnexpectedEof));
    }
    var flags := first % 16;
    LowHalf(first);
    var qos := QosFromByte(flags / 2 % 4);
    if qos.None? {
      return Err(Codec(QosInvalid(flags / 2 % 4)));
    }
    assert body[0..] == body;
    var topic, cursor := ReadArcStr(body, 0);
    if topic.Err? {
      return Err(topic.error);
    }
    var packetId: Option<u16> := None;
    if qos.value != AtMostOnce {
      var id;
      id, cursor := ReadU16(body, cursor);
      if id.Err? {
        return Err(id.error);
      }
      packetId := Some(id.value);
    }
    return Ok(Publish(PublishPacket(
      topic.value, body[cursor..], HasBit(flags, 8), qos.value, HasBit(flags, 1), packetId)));
  }

  /** The flags of a first byte are those of its low half. */
  lemma LowHalf(first: byte)
    ensures HasBit(first % 16, 8) == HasBit(first, 8)
    ensures HasBit(first % 16, 1) == HasBit(first, 1)
    ensures first % 16 / 2 % 4 == first / 2 % 4
  {
    var high, low := first / 16, first % 16;
    assert first == 16 * high + low;
    assert first / 8 == 2 * high + low / 8;
    assert first / 2 == 8 * high + low / 2;
  }

  /** `done` followed by what a list grammar says about the rest. */
  function Onto<T>(done: seq<T>, more: Result<seq<T>>): Result<seq<T>> {
    match more
    case Ok(m) => Ok(done + m)
    case Err(e) => Err(e)
  }

  method ReadSubscription(body: seq<byte>, cursor: nat) returns (r: Result<TopicFilter>, cursor': nat)
    requires cursor <= |body|
    ensures Reads(body, cursor, TakeSubscription(body[cursor..]), r, cursor')
  {
    var topic, at := ReadArcStr(body, cursor);
    if topic.Err? {
      return Err(topic.error), at;
    }
    if at >= |body| {
      return Err(Codec(UnexpectedEof)), at;
    }
    var qos := QosFromByte(body[at]);
    if qos.None? {
      return Err(Codec(QosInvalid(body[at]))), at;
    }
    assert body[at..][1..] == body[at + 1..];
    return Ok(TopicFilter(topic.value, qos.value)), at + 1;
  }

  method ParseSubscribe(body: seq<byte>) returns (r: Result<Packet>)
    ensures r == ParsedSubscribe(body)
  {
    if |body| < 5 {
      return Err(Codec(UnexpectedEof));
    }
    assert body[0..] == body;
    var id, cursor := ReadU16(body, 0);
    var subs: seq<TopicFilter> := [];
    ghost var whole := SubscriptionsIn(body[cursor..]);
    OntoNil(whole);
    while cursor < |body|
      invariant cursor <= |body|
      invariant whole == Onto(subs, SubscriptionsIn(body[cursor..]))
    {
      var sub, next := ReadSubscription(body, cursor);
      if sub.Err? {
        return Err(sub.error);
      }
      OntoOnto(subs, sub.value, SubscriptionsIn(body[next..]));
      cursor := next;
      subs := subs + [sub.value];
    }
    assert subs + [] == subs;
    return Ok(Subscribe(id.value, subs));
  }

  method ParseUnsubscribe(body: seq<byte>) returns (r: Result<Packet>)
    ensures r == ParsedUnsubscribe(body)
  {
    if |body| < 4 {
      return Err(Codec(UnexpectedEof));
    }
    assert body[0..] == body;
    var id, cursor := ReadU16(body, 0);
    var topics: seq<Str> := [];
    ghost var whole := TopicsIn(body[cursor..]);
    OntoNil(whole);
    while cursor < |body|
      invariant cursor <= |body|
      invariant whole == Onto(topics, TopicsIn(body[cursor..]))
    {
      var topic, next := ReadArcStr(body, cursor);
      if topic.Err? {
        return Err(topic.error);
      }
      OntoOnto(topics, topic.value, TopicsIn(body[next..]));
      cursor := next;
      topics := topics + [topic.value];
    }
    assert topics + [] == topics;
    return Ok(Unsubscribe(id.value, topics));
  }

  lemma OntoNil<T>(more: Result<seq<T>>)
    ensures Onto([], more) == more
  {
    if more.Ok? {
      assert [] + more.value == more.value;
    }
  }

  lemma OntoOnto<T>(done: seq<T>, x: T, more: Result<seq<T>>)
    ensures Onto(done, Onto([x], more)) == Onto(done + [x], more)
  {
    if more.Ok? {
      assert done + ([x] + more.value) == done + [x] + more.value;
    }
  }

  method ParsePacket(first: byte, body: seq<byte>) returns (r: Result<Packet>)
    requires 1 <= first / 16 <= 14
    ensures r == Parsed(first, body)
  {
    var kind := first / 16;
    if kind == 1 {
      r := ParseConnect(body);
    } else if kind == 3 {
      r := ParsePublish(first, body);
    } else if kind == 8 {
      r := ParseSubscribe(body);
    } else if kind == 10 {
      r := ParseUnsubscribe(body);
    } else {
      r := Parsed(first, body);
    }
  }
}

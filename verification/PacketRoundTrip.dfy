/** Parsing a packet's body inverts encoding it. */
module PacketRoundTrip {
  import opened Types
  import opened Primitives
  import opened Encode
  import opened Decode

  /** The packets the wire format can carry: length fields of 16 bits, UTF-8
      strings, nonempty lists, an id on every acknowledged PUBLISH. */
  predicate WellFormed(p: Packet) {
    match p
    case Connect(c) =>
      && Field(c.clientId)
      && (c.will.Some? ==> Field(c.will.value.topic) && |c.will.value.payload| < 65536)
      && (c.username.Some? ==> Field(c.username.value))
      && (c.password.Some? ==> |c.password.value| < 65536)
    case Publish(m) => Field(m.topic) && (m.qos != AtMostOnce ==> m.packetId.Some?)
    case Subscribe(_, subs) => subs != [] && forall i :: 0 <= i < |subs| ==> Field(subs[i].filter)
    case Suback(_, codes) => codes != []
    case Unsubscribe(_, topics) => topics != [] && forall i :: 0 <= i < |topics| ==> Field(topics[i])
    case _ => true
  }

  /** What a receiver sees of a packet: a QoS 0 PUBLISH carries no id. */
  function AsDecoded(p: Packet): Packet {
    if p.Publish? && p.publish.qos.AtMostOnce? then Publish(p.publish.(packetId := None)) else p
  }

  // ---- decode after encode ----------------------------------------------------

  lemma BodyRoundTrip(p: Packet)
    requires WellFormed(p)
    ensures Parsed(FirstByte(p), Body(p)) == Ok(AsDecoded(p))
  {
    match p {
      case Connect(c) => ConnectRoundTrip(c);
      case Publish(m) => PublishRoundTrip(m);
      case Subscribe(id, subs) => SubscribeRoundTrip(id, subs);
      case Suback(id, codes) => SubackRoundTrip(id, codes);
      case Unsubscribe(id, topics) => UnsubscribeRoundTrip(id, topics);
      case _ =>
    }
  }

  lemma SubscribeRoundTrip(id: u16, subs: seq<TopicFilter>)
    requires WellFormed(Subscribe(id, subs))
    ensures ParsedSubscribe(Body(Subscribe(id, subs))) == Ok(Subscribe(id, subs))
  {
    U16RoundTrip(id, SubscriptionBytes(subs));
    SubscriptionsRoundTrip(subs);
  }

  lemma UnsubscribeRoundTrip(id: u16, topics: seq<Str>)
    requires WellFormed(Unsubscribe(id, topics))
    ensures ParsedUnsubscribe(Body(Unsubscribe(id, topics))) == Ok(Unsubscribe(id, topics))
  {
    U16RoundTrip(id, TopicBytes(topics));
    TopicsRoundTrip(topics);
  }

  lemma SubackRoundTrip(id: u16, codes: seq<SubackCode>)
    requires codes != []
    ensures ParsedSuback(Body(Suback(id, codes))) == Ok(Suback(id, codes))
  {
    CodesRoundTrip(codes);
    assert Body(Suback(id, codes))[2..] == CodeBytes(codes);
  }

  lemma TakeSubscriptionRoundTrip(sub: TopicFilter, rest: seq<byte>)
    requires Field(sub.filter)
    ensures TakeSubscription(Prefixed(sub.filter) + ([sub.qos.AsByte()] + rest)) == Ok(Taken(sub, rest))
  {
    var tail := [sub.qos.AsByte()] + rest;
    StrRoundTrip(sub.filter, tail);
    assert tail[1..] == rest;
  }

  lemma {:induction false} SubscriptionsRoundTrip(subs: seq<TopicFilter>)
    requires forall i :: 0 <= i < |subs| ==> Field(subs[i].filter)
    ensures SubscriptionsIn(SubscriptionBytes(subs)) == Ok(subs)
    ensures |SubscriptionBytes(subs)| >= 3 * |subs|
  {
    if subs != [] {
      TakeSubscriptionRoundTrip(subs[0], SubscriptionBytes(subs[1..]));
      SubscriptionsRoundTrip(subs[1..]);
      assert [subs[0]] + subs[1..] == subs;
    }
  }

  lemma {:induction false} TopicsRoundTrip(topics: seq<Str>)
    requires forall i :: 0 <= i < |topics| ==> Field(topics[i])
    ensures TopicsIn(TopicBytes(topics)) == Ok(topics)
    ensures |TopicBytes(topics)| >= 2 * |topics|
  {
    if topics != [] {
      StrRoundTrip(topics[0], TopicBytes(topics[1..]));
      TopicsRoundTrip(topics[1..]);
      assert [topics[0]] + topics[1..] == topics;
    }
  }

  lemma {:induction false} CodesRoundTrip(codes: seq<SubackCode>)
    ensures CodesIn(CodeBytes(codes)) == Ok(codes)
    ensures |CodeBytes(codes)| == |codes|
  {
    if codes != [] {
      assert CodeBytes(codes)[1..] == CodeBytes(codes[1..]);
      CodesRoundTrip(codes[1..]);
      assert [codes[0]] + codes[1..] == codes;
    }
  }

  lemma PublishRoundTrip(m: PublishPacket)
    requires WellFormed(Publish(m))
    ensures ParsedPublish(FirstByte(Publish(m)), Body(Publish(m))) == Ok(AsDecoded(Publish(m)))
  {
    var id := if m.qos.AtMostOnce? then None else m.packetId;
    var tail := (if id.Some? then U16Bytes(id.value) else []) + m.payload;
    StrRoundTrip(m.topic, tail);
    if id.Some? {
      U16RoundTrip(id.value, m.payload);
    } else {
      assert tail == m.payload;
    }
    PublishFlagBits(m);
  }

  lemma PublishFlagBits(m: PublishPacket)
    ensures var first := 0x30 + PublishFlags(m);
            && first / 16 == 3
            && HasBit(first, 8) == m.dup
            && HasBit(first, 1) == m.retain
            && first / 2 % 4 == m.qos.AsByte()
  {
  }

  lemma ConnectRoundTrip(c: ConnectPacket)
    requires WellFormed(Connect(c))
    ensures ParsedConnect(ConnectBody(c)) == Ok(Connect(c))
  {
    ConnectHeader(ConnectFlags(c), c.keepAlive, ConnectPayload(c));
    ConnectFieldsRoundTrip(c);
  }

  lemma ConnectHeader(flags: byte, keepAlive: u16, payload: seq<byte>)
    ensures ParsedConnect([0, 4, 'M' as int, 'Q' as int, 'T' as int, 'T' as int, 4, flags]
                          + U16Bytes(keepAlive) + payload)
         == ConnectFields(flags, keepAlive, payload)
  {
    var head := [0, 4, 'M' as int, 'Q' as int, 'T' as int, 'T' as int, 4, flags];
    var body := head + U16Bytes(keepAlive) + payload;
    assert body[..6] == head[..6];
    assert body[8] == keepAlive / 256 && body[9] == keepAlive % 256;
    assert body[10..] == payload;
  }

  lemma ConnectFieldsRoundTrip(c: ConnectPacket)
    requires WellFormed(Connect(c))
    ensures ConnectFields(ConnectFlags(c), c.keepAlive, ConnectPayload(c)) == Ok(Connect(c))
  {
    ConnectFlagBits(c);
    var pass := OptionalBytes(c.password);
    var user := OptionalBytes(c.username) + pass;
    var will := WillBytes(c.will) + user;
    StrRoundTrip(c.clientId, will);
    WillRoundTrip(c, user);
    assert TakeOptionalStr(c.username.Some?, user) == Ok(Taken(c.username, pass)) by {
      if c.username.Some? {
        StrRoundTrip(c.username.value, pass);
      } else {
        assert user == pass;
      }
    }
    assert TakeOptionalBytes(c.password.Some?, pass) == Ok(Taken(c.password, [])) by {
      if c.password.Some? {
        BytesRoundTrip(c.password.value, []);
        assert pass + [] == pass;
      }
    }
  }

  lemma WillRoundTrip(c: ConnectPacket, suffix: seq<byte>)
    requires WellFormed(Connect(c))
    ensures TakeWill(ConnectFlags(c), WillBytes(c.will) + suffix) == Ok(Taken(c.will, suffix))
  {
    ConnectFlagBits(c);
    if c.will.Some? {
      TakeWillRoundTrip(ConnectFlags(c), c.will.value, suffix);
    } else {
      assert WillBytes(c.will) + suffix == suffix;
    }
  }

  lemma TakeWillRoundTrip(flags: byte, w: WillMessage, suffix: seq<byte>)
    requires HasBit(flags, 4) && flags / 8 % 4 == w.qos.AsByte() && HasBit(flags, 32) == w.retain
    requires Field(w.topic) && |w.payload| < 65536
    ensures TakeWill(flags, WillBytes(Some(w)) + suffix) == Ok(Taken(Some(w), suffix))
  {
    assert WillBytes(Some(w)) + suffix == Prefixed(w.topic) + (Prefixed(w.payload) + suffix);
    WillFieldsRoundTrip(w.topic, w.payload, suffix);
  }

  lemma WillFieldsRoundTrip(topic: Str, payload: seq<byte>, suffix: seq<byte>)
    requires Field(topic) && |payload| < 65536
    ensures TakeWillFields(Prefixed(topic) + (Prefixed(payload) + suffix)) == Ok(Taken((topic, payload), suffix))
  {
    StrRoundTrip(topic, Prefixed(payload) + suffix);
    BytesRoundTrip(payload, suffix);
  }

  lemma ConnectFlagBits(c: ConnectPacket)
    ensures var flags := ConnectFlags(c);
            && HasBit(flags, 2) == c.cleanSession
            && HasBit(flags, 4) == c.will.Some?
            && HasBit(flags, 64) == c.password.Some?
            && HasBit(flags, 128) == c.username.Some?
            && (c.will.Some? ==>
                  && flags / 8 % 4 == c.will.value.qos.AsByte()
                  && HasBit(flags, 32) == c.will.value.retain)
  {
  }

  // ---- every parsed packet is one the format can carry --------------------------

  lemma ParsedIsWellFormed(first: byte, body: seq<byte>)
    requires 1 <= first / 16 <= 14
    requires Parsed(first, body).Ok?
    ensures WellFormed(Parsed(first, body).value)
    ensures AsDecoded(Parsed(first, body).value) == Parsed(first, body).value
  {
    var kind := first / 16;
    if kind == 1 {
      ConnectIsWellFormed(body[7], U16Of(body[8], body[9]), body[10..]);
    } else if kind == 3 {
      PublishIsWellFormed(first, body);
    } else if kind == 8 {
      SubscriptionsAreFields(body[2..]);
    } else if kind == 9 {
      assert CodesIn(body[2..]).value != [];
    } else if kind == 10 {
      TopicsAreFields(body[2..]);
    }
  }

  lemma ConnectIsWellFormed(flags: byte, keepAlive: u16, s: seq<byte>)
    requires ConnectFields(flags, keepAlive, s).Ok?
    ensures var p := ConnectFields(flags, keepAlive, s).value; p.Connect? && WellFormed(p)
  {
  }

  lemma PublishIsWellFormed(first: byte, body: seq<byte>)
    requires ParsedPublish(first, body).Ok?
    ensures var p := ParsedPublish(first, body).value; p.Publish? && WellFormed(p) && AsDecoded(p) == p
  {
  }

  lemma {:induction false} SubscriptionsAreFields(s: seq<byte>)
    requires SubscriptionsIn(s).Ok?
    ensures forall i :: 0 <= i < |SubscriptionsIn(s).value| ==> Field(SubscriptionsIn(s).value[i].filter)
    ensures s != [] ==> SubscriptionsIn(s).value != []
    decreases |s|
  {
    if s != [] {
      SubscriptionsAreFields(TakeSubscription(s).value.rest);
    }
  }

  lemma {:induction false} TopicsAreFields(s: seq<byte>)
    requires TopicsIn(s).Ok?
    ensures forall i :: 0 <= i < |TopicsIn(s).value| ==> Field(TopicsIn(s).value[i])
    ensures s != [] ==> TopicsIn(s).value != []
    decreases |s|
  {
    if s != [] {
      TopicsAreFields(TakeStr(s).value.rest);
    }
  }
}

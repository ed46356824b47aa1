/** The inbound dispatch of one connection, on its session, its command queue and
    its broker. */
module Connection {
  import opened Types
  import opened Acks
  import opened Session
  import opened BrokerState
  import opened Broker
  import opened InboundQos2

  /** What an inbound packet does to the waiters: acks wake their own kind. */
  function AcksAfter(t: AckTable, p: Packet, client: bool): AckTable {
    match p
    case Puback(id) => t.Wake(id, KPuback, OfId(id))
    case Pubrec(id) => t.Wake(id, KPubrec, OfId(id))
    case Pubcomp(id) => t.Wake(id, KPubcomp, OfId(id))
    case Suback(id, codes) => if client then t.Wake(id, KSuback, OfCodes(codes)) else t
    case Unsuback(id) => if client then t.Wake(id, KUnsuback, OfUnit) else t
    case _ => t
  }

  /** Only the end of a flow ends its retransmit record: a PUBREC keeps it. */
  function InflightAfter(inflight: map<u16, PublishPacket>, p: Packet): map<u16, PublishPacket> {
    if p.Puback? || p.Pubcomp? then inflight - {p.id} else inflight
  }

  /** The packet that answers a waiter, and what it is sent: PUBACK, PUBREC and PUBCOMP
      the waiters of their kind, with the id; in a client also SUBACK with its codes,
      and UNSUBACK. */
  predicate Answers(p: Packet, client: bool, w: Waiter, v: AckValue) {
    || (w.kind == KPuback && p == Puback(w.id) && v == OfId(w.id))
    || (w.kind == KPubrec && p == Pubrec(w.id) && v == OfId(w.id))
    || (w.kind == KPubcomp && p == Pubcomp(w.id) && v == OfId(w.id))
    || (client && w.kind == KSuback && p.Suback? && p.id == w.id && v == OfCodes(p.returnCodes))
    || (client && w.kind == KUnsuback && p == Unsuback(w.id) && v == OfUnit)
  }

  /** Dispatching a packet delivers to a pending waiter exactly when the packet answers
      it, and otherwise leaves it pending; settled waiters stay as they are. */
  lemma DispatchWakesExactly(t: AckTable, p: Packet, client: bool, w: nat)
    requires t.Consistent() && w < |t.waiters|
    ensures var t' := AcksAfter(t, p, client);
            && t'.Consistent() && |t'.waiters| == |t.waiters|
            && t'.waiters[w].id == t.waiters[w].id && t'.waiters[w].kind == t.waiters[w].kind
            && (!t.waiters[w].cell.Pending? ==> t'.waiters[w] == t.waiters[w])
            && (t.waiters[w].cell.Pending? ==>
                  && (forall v :: t'.waiters[w].cell == Delivered(v) <==> Answers(p, client, t.waiters[w], v))
                  && ((forall v :: !Answers(p, client, t.waiters[w], v)) ==> t'.waiters[w].cell.Pending?))
  {
    if p.Puback? || p.Pubrec? || p.Pubcomp? || (client && (p.Suback? || p.Unsuback?)) {
      var kind := if p.Puback? then KPuback else if p.Pubrec? then KPubrec else if p.Pubcomp? then KPubcomp
                  else if p.Suback? then KSuback else KUnsuback;
      var v := if p.Suback? then OfCodes(p.returnCodes) else if p.Unsuback? then OfUnit else OfId(p.id);
      assert AcksAfter(t, p, client) == t.Step(OpWake(p.id, kind, v));
      StepKeepsConsistent(t, OpWake(p.id, kind, v));
      StepDecides(t, OpWake(p.id, kind, v), w);
    }
  }

  /** A retransmit record goes exactly at the PUBACK or PUBCOMP of its id. */
  lemma InflightEndsExactly(inflight: map<u16, PublishPacket>, p: Packet, id: u16)
    requires id in inflight
    ensures id !in InflightAfter(inflight, p) <==> p == Puback(id) || p == Pubcomp(id)
    ensures id in InflightAfter(inflight, p) ==> InflightAfter(inflight, p)[id] == inflight[id]
  {
  }

  class ConnectionState {
    const client: bool
    const session: MqttSession
    /** Commands enqueued for the writer. */
    var outbox: seq<Packet>
    /** Publishes handed to the chain worker, or dispatched to endpoints. */
    var handed: seq<PublishPacket>
    /** Whether the writer and the chain worker still take input. */
    var writerAlive: bool
    var workerAlive: bool

    ghost function View(): Link
      reads this, session
    {
      Link(client, session.qos2Recv, outbox, handed)
    }

    constructor (client: bool)
      ensures fresh(session) && session.Valid() && View() == FreshLink(client)
    {
      this.client := client;
      session := new MqttSession();
      outbox, handed, writerAlive, workerAlive := [], [], true, true;
    }

    method SendPacket(p: Packet) returns (r: Result<()>)
      modifies this`outbox
      ensures r == if writerAlive then Ok(()) else Err(ChannelClosed)
      ensures outbox == if writerAlive then old(outbox) + [p] else old(outbox)
    {
      if !writerAlive {
        return Err(ChannelClosed);
      }
      outbox := outbox + [p];
      return Ok(());
    }

    method SendWork(m: PublishPacket) returns (r: Result<()>)
      modifies this`handed
      ensures r == if workerAlive then Ok(()) else Err(ChannelClosed)
      ensures handed == if workerAlive then old(handed) + [m] else old(handed)
    {
      if !workerAlive {
        return Err(ChannelClosed);
      }
      handed := handed + [m];
      return Ok(());
    }

    /** PUBACK or PUBREC before anything else; a QoS 2 message is held first. */
    method AckInboundPublishPreChain(m: PublishPacket) returns (r: Result<()>)
      modifies this`outbox, session`qos2Recv
      ensures session.qos2Recv == Step(old(View()), Arrives(Publish(m))).held
      ensures r.Ok? ==> outbox == Step(old(View()), Arrives(Publish(m))).replies
      ensures r.Err? ==> r.error == ChannelClosed && !writerAlive && outbox == old(outbox)
    {
      if m.qos == AtLeastOnce && m.packetId.Some? {
        r := SendPacket(Puback(m.packetId.value));
      } else if m.qos == ExactlyOnce && m.packetId.Some? {
        session.StashQos2Publish(m.packetId.value, m);
        r := SendPacket(Pubrec(m.packetId.value));
      } else {
        r := Ok(());
      }
    }

    /** The ack arms of both dispatchers: settled on this connection's session. */
    method SettleAck(p: Packet)
      requires session.Valid()
      requires p.Puback? || p.Pubrec? || p.Pubcomp? || (client && (p.Suback? || p.Unsuback?))
      modifies session
      ensures session.Valid() && session.qos2Recv == old(session.qos2Recv)
      ensures session.View().acks == AcksAfter(old(session.View()).acks, p, client)
      ensures session.outboundInflight == InflightAfter(old(session.outboundInflight), p)
    {
      match p {
        case Puback(id) =>
          session.WakeAckWaiter(id, KPuback);
          session.ClearOutboundInflight(id);
        case Pubrec(id) =>
          session.WakeAckWaiter(id, KPubrec);
        case Pubcomp(id) =>
          session.WakeAckWaiter(id, KPubcomp);
          session.ClearOutboundInflight(id);
        case Suback(id, codes) => session.WakeSubackWaiter(id, codes);
        case Unsuback(id) => session.WakeUnsubackWaiter(id);
      }
    }

    /** Everything but SUBSCRIBE and UNSUBSCRIBE is one step of the inbound
        machine; a failed send stops inside that step and ends the reader. */
    method DispatchServerInbound(p: Packet, broker: MqttBroker, c: ClientId, k: ConnId) returns (r: Result<()>)
      requires !client && session.Valid()
      modifies this`outbox, this`handed, session, broker, broker.tree
      ensures session.Valid()
      ensures session.View().acks == AcksAfter(old(session.View()).acks, p, client)
      ensures session.outboundInflight == InflightAfter(old(session.outboundInflight), p)
      ensures p.Connect? ==> r == Err(Protocol(SessionAlreadyBound)) && View() == old(View())
      ensures r.Err? && !p.Connect? ==> r.error == ChannelClosed && (!writerAlive || !workerAlive)
      ensures p.Subscribe? || p.Unsubscribe? ==>
                && handed == old(handed) && session.qos2Recv == old(session.qos2Recv)
                && (r.Err? ==> outbox == old(outbox))
      ensures r.Ok? && !p.Subscribe? && !p.Unsubscribe? ==> View() == Step(old(View()), Arrives(p))
      ensures r.Err? ==> Within(old(View()), View(), Step(old(View()), Arrives(p)))
      ensures p.Subscribe? ==>
                && broker.View() == Subscribed(old(broker.View()), c, k, p.subscriptions)
                && (r.Ok? ==> outbox == old(outbox) + [Suback(p.id, Codes(old(broker.View()), c, k, p.subscriptions))])
      ensures p.Unsubscribe? ==>
                && broker.View() == Unsubscribed(old(broker.View()), c, k, p.topics)
                && (r.Ok? ==> outbox == old(outbox) + [Unsuback(p.id)])
      ensures !p.Subscribe? && !p.Unsubscribe? ==> broker.View() == old(broker.View())
    {
      match p {
        case Publish(m) => r := AckThenHand(m);
        case Subscribe(id, subs) =>
          var codes := broker.Subscribe(c, k, subs);
          assert codes == Codes(old(broker.View()), c, k, subs);
          r := SendPacket(Suback(id, codes));
        case Unsubscribe(id, topics) =>
          broker.Unsubscribe(c, k, topics);
          r := SendPacket(Unsuback(id));
        case Pingreq => r := SendPacket(Pingresp);
        case Puback(_) =>
          SettleAck(p);
          r := Ok(());
        case Pubrec(id) =>
          SettleAck(p);
          r := SendPacket(Pubrel(id));
        case Pubcomp(_) =>
          SettleAck(p);
          r := Ok(());
        case Pubrel(id) => r := ReleaseToWorker(id);
        case Connect(_) => r := Err(Protocol(SessionAlreadyBound));
        case _ => r := Ok(());
      }
    }

    method AckThenHand(m: PublishPacket) returns (r: Result<()>)
      requires !client
      modifies this`outbox, this`handed, session`qos2Recv
      ensures r.Err? ==> r.error == ChannelClosed && (!writerAlive || !workerAlive)
      ensures r.Ok? ==> View() == Step(old(View()), Arrives(Publish(m)))
      ensures r.Err? ==> Within(old(View()), View(), Step(old(View()), Arrives(Publish(m))))
    {
      r := AckInboundPublishPreChain(m);
      if r.Err? || m.qos == ExactlyOnce {
        return;
      }
      r := SendWork(m);
    }

    method ReleaseToWorker(id: u16) returns (r: Result<()>)
      requires !client
      modifies this`outbox, this`handed, session`qos2Recv
      ensures r.Err? ==> r.error == ChannelClosed && (!writerAlive || !workerAlive)
      ensures r.Ok? ==> View() == Step(old(View()), Arrives(Pubrel(id)))
      ensures r.Err? ==> Within(old(View()), View(), Step(old(View()), Arrives(Pubrel(id))))
    {
      var stored := session.TakeQos2Publish(id);
      if stored.Some? {
        var m := stored.value;
        r := SendWork(PublishPacket(m.topic, m.payload, false, m.qos, m.retain, Some(id)));
        if r.Err? {
          return;
        }
      }
      r := SendPacket(Pubcomp(id));
    }

    method ReleaseToEndpoints(id: u16) returns (r: Result<()>)
      requires client
      modifies this`outbox, this`handed, session`qos2Recv
      ensures r.Err? ==> r.error == ChannelClosed && !writerAlive
      ensures r.Ok? ==> View() == Step(old(View()), Arrives(Pubrel(id)))
      ensures r.Err? ==> Within(old(View()), View(), Step(old(View()), Arrives(Pubrel(id))))
    {
      var stored := session.TakeQos2Publish(id);
      if stored.Some? {
        handed := handed + [stored.value];
      }
      r := SendPacket(Pubcomp(id));
    }

    /** The client's half: endpoints take what is handed to them. True means the
        peer disconnected. */
    method DispatchClientInbound(p: Packet) returns (r: Result<bool>)
      requires client && session.Valid()
      modifies this`outbox, this`handed, session
      ensures session.Valid()
      ensures session.View().acks == AcksAfter(old(session.View()).acks, p, client)
      ensures session.outboundInflight == InflightAfter(old(session.outboundInflight), p)
      ensures r.Err? ==> r.error == ChannelClosed && !writerAlive && Within(old(View()), View(), Step(old(View()), Arrives(p)))
      ensures r.Ok? ==> View() == Step(old(View()), Arrives(p)) && r.value == p.Disconnect?
    {
      r := Ok(p.Disconnect?);
      match p {
        case Publish(m) =>
          var acked := AckInboundPublishPreChain(m);
          if acked.Err? {
            return Err(acked.error);
          }
          if m.qos != ExactlyOnce {
            handed := handed + [m];
          }
        case Pubrec(id) =>
          SettleAck(p);
          var sent := SendPacket(Pubrel(id));
          if sent.Err? {
            return Err(sent.error);
          }
        case Pubrel(id) =>
          var sent := ReleaseToEndpoints(id);
          if sent.Err? {
            return Err(sent.error);
          }
        case Puback(_) => SettleAck(p);
        case Pubcomp(_) => SettleAck(p);
        case Suback(_, _) => SettleAck(p);
        case Unsuback(_) => SettleAck(p);
        case _ =>
      }
    }
  }

  /** The per-filter verdicts of a SUBSCRIBE. */
  function Codes(st: State, c: ClientId, k: ConnId, filters: seq<TopicFilter>): seq<SubackCode> {
    seq(|filters|, i requires 0 <= i < |filters| => if OwnedBy(st, c, k) then CodeFor(filters[i]) else Failure)
  }

  /** A step cut short: the table is as after it, queues are part of the way. */
  ghost predicate Within(before: Link, now: Link, after: Link) {
    && now.held == after.held
    && before.handed <= now.handed <= after.handed
    && before.replies <= now.replies <= after.replies
  }
}

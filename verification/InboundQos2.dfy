/** Inbound publishes of one connection: acknowledge on arrival, hold a QoS 2
    message until its PUBREL, hand it on once (section 4.3.3 of MQTT 3.1.1). */
module InboundQos2 {
  import opened Types

  /** `held` is the session's table of QoS 2 messages awaiting PUBREL, `replies`
      what the reader enqueued, `handed` what it passed to the endpoints. */
  datatype Link = Link(client: bool, held: map<u16, PublishPacket>, replies: seq<Packet>, handed: seq<PublishPacket>)

  function FreshLink(client: bool): Link { Link(client, map[], [], []) }

  /** What a PUBREL passes on of a held message: a server rebuilds the packet. */
  function Release(client: bool, m: PublishPacket, id: u16): (r: PublishPacket)
    ensures r.topic == m.topic && r.payload == m.payload && r.qos == m.qos && r.retain == m.retain
    ensures !client ==> !r.dup && r.packetId == Some(id)
  {
    if client then m else PublishPacket(m.topic, m.payload, false, m.qos, m.retain, Some(id))
  }

  /** A packet the reader dispatched, or the channel being closed. */
  datatype Event = Arrives(packet: Packet) | Closes

  predicate Stashes(e: Event, id: u16) {
    e.Arrives? && e.packet.Publish? && e.packet.publish.qos.ExactlyOnce? && e.packet.publish.packetId == Some(id)
  }

  function Step(l: Link, e: Event): Link {
    match e
    case Closes => l.(held := map[])
    case Arrives(p) =>
      match p
      case Publish(m) =>
        (match (m.qos, m.packetId)
         case (ExactlyOnce, Some(id)) => l.(held := l.held[id := m], replies := l.replies + [Pubrec(id)])
         case (ExactlyOnce, None) => l
         case (AtLeastOnce, Some(id)) => l.(replies := l.replies + [Puback(id)], handed := l.handed + [m])
         case _ => l.(handed := l.handed + [m]))
      case Pubrel(id) =>
        l.(held := l.held - {id},
           replies := l.replies + [Pubcomp(id)],
           handed := if id in l.held then l.handed + [Release(l.client, l.held[id], id)] else l.handed)
      case Pubrec(id) => l.(replies := l.replies + [Pubrel(id)])
      case Pingreq => if l.client then l else l.(replies := l.replies + [Pingresp])
      case _ => l
  }

  function Run(l: Link, es: seq<Event>): Link
    decreases |es|
  {
    if es == [] then l else Step(Run(l, es[..|es| - 1]), es[|es| - 1])
  }

  // ---- the history-only account ----------------------------------------------------

  /** The message a PUBREL for `id` should find: that of the latest QoS 2 PUBLISH
      for `id`, unless a PUBREL for `id` or a close came after it. */
  function Latest(es: seq<Event>, id: u16): Option<PublishPacket>
    decreases |es|
  {
    if es == [] then None
    else
      var e := es[|es| - 1];
      if Stashes(e, id) then Some(e.packet.publish)
      else if e.Closes? || e == Arrives(Pubrel(id)) then None
      else Latest(es[..|es| - 1], id)
  }

  /** What event `e` hands on after the history `before`. */
  function Hands(client: bool, before: seq<Event>, e: Event): seq<PublishPacket> {
    match e
    case Arrives(Publish(m)) => if m.qos.ExactlyOnce? then [] else [m]
    case Arrives(Pubrel(id)) =>
      (match Latest(before, id)
       case Some(m) => [Release(client, m, id)]
       case None => [])
    case _ => []
  }

  function AllHands(client: bool, es: seq<Event>): seq<PublishPacket>
    decreases |es|
  {
    if es == [] then []
    else AllHands(client, es[..|es| - 1]) + Hands(client, es[..|es| - 1], es[|es| - 1])
  }

  /** The reply to an event depends on the event alone. */
  function Reply(client: bool, e: Event): seq<Packet> {
    match e
    case Arrives(Publish(m)) =>
      if m.packetId.None? || m.qos.AtMostOnce? then []
      else if m.qos.ExactlyOnce? then [Pubrec(m.packetId.value)] else [Puback(m.packetId.value)]
    case Arrives(Pubrel(id)) => [Pubcomp(id)]
    case Arrives(Pubrec(id)) => [Pubrel(id)]
    case Arrives(Pingreq) => if client then [] else [Pingresp]
    case _ => []
  }

  function AllReplies(client: bool, es: seq<Event>): seq<Packet>
    decreases |es|
  {
    if es == [] then [] else AllReplies(client, es[..|es| - 1]) + Reply(client, es[|es| - 1])
  }

  /** The table holds exactly what history says is held. */
  ghost predicate Mirrors(held: map<u16, PublishPacket>, es: seq<Event>) {
    forall id: u16 :: if id in held then Latest(es, id) == Some(held[id]) else Latest(es, id) == None
  }

  /** Exactly once, over every trace: a PUBREL hands a message on exactly when the
      latest earlier QoS 2 event for its id is a PUBLISH, and hands on that
      PUBLISH; every PUBLISH and PUBREL is answered, repeated or not. */
  lemma {:induction false} ExactlyOnceDelivery(client: bool, es: seq<Event>)
    ensures var l := Run(FreshLink(client), es);
            && l.client == client
            && Mirrors(l.held, es)
            && l.handed == AllHands(client, es)
            && l.replies == AllReplies(client, es)
    decreases |es|
  {
    if es != [] {
      var before, e := es[..|es| - 1], es[|es| - 1];
      ExactlyOnceDelivery(client, before);
      var l, l' := Run(FreshLink(client), before), Run(FreshLink(client), es);
      StepMirrors(l, before, e);
      assert before + [e] == es;
      StepHands(l, before, e);
    }
  }

  lemma StepMirrors(l: Link, before: seq<Event>, e: Event)
    requires Mirrors(l.held, before)
    ensures Mirrors(Step(l, e).held, before + [e])
  {
    var es := before + [e];
    assert es[..|es| - 1] == before && es[|es| - 1] == e;
    var held := Step(l, e).held;
    forall id: u16 ensures if id in held then Latest(es, id) == Some(held[id]) else Latest(es, id) == None {
      assert if id in l.held then Latest(before, id) == Some(l.held[id]) else Latest(before, id) == None;
    }
  }

  lemma StepHands(l: Link, before: seq<Event>, e: Event)
    requires Mirrors(l.held, before)
    ensures Step(l, e).client == l.client
    ensures Step(l, e).handed == l.handed + Hands(l.client, before, e)
    ensures Step(l, e).replies == l.replies + Reply(l.client, e)
  {
  }

  // ---- repeats and other ids ---------------------------------------------------------

  /** Two links that differ at most in replies and in what a release ignores. */
  ghost predicate Alike(a: Link, b: Link) {
    && a.client == b.client && a.handed == b.handed && a.held.Keys == b.held.Keys
    && forall id :: id in a.held ==> Release(a.client, a.held[id], id) == Release(a.client, b.held[id], id)
  }

  /** A repeat: the PUBLISH already held, or a PUBREL for nothing held. */
  ghost predicate Repeats(l: Link, e: Event) {
    || (exists id: u16 :: Stashes(e, id) && id in l.held
          && Release(l.client, l.held[id], id) == Release(l.client, e.packet.publish, id))
    || (e.Arrives? && e.packet.Pubrel? && e.packet.id !in l.held)
  }

  /** Dropping a repeat from a trace changes nothing that is handed on. */
  lemma {:induction false} RepeatsAreHarmless(l: Link, e: Event, es: seq<Event>)
    requires Repeats(l, e)
    ensures Run(Step(l, e), es).handed == Run(l, es).handed
  {
    assert Alike(Step(l, e), l);
    AlikeRun(Step(l, e), l, es);
  }

  lemma {:induction false} AlikeRun(a: Link, b: Link, es: seq<Event>)
    requires Alike(a, b)
    ensures Alike(Run(a, es), Run(b, es))
    decreases |es|
  {
    if es != [] {
      AlikeRun(a, b, es[..|es| - 1]);
      AlikeStep(Run(a, es[..|es| - 1]), Run(b, es[..|es| - 1]), es[|es| - 1]);
    }
  }

  lemma AlikeStep(a: Link, b: Link, e: Event)
    requires Alike(a, b)
    ensures Alike(Step(a, e), Step(b, e))
  {
    if e.Arrives? && e.packet.Pubrel? {
      AlikeRelease(a, b, e.packet.id);
    } else if e.Arrives? && e.packet.Publish? {
      AlikePublish(a, b, e.packet.publish);
    }
  }

  lemma AlikePublish(a: Link, b: Link, m: PublishPacket)
    requires Alike(a, b)
    ensures Alike(Step(a, Arrives(Publish(m))), Step(b, Arrives(Publish(m))))
  {
    if m.qos.ExactlyOnce? && m.packetId.Some? {
      var id := m.packetId.value;
      assert a.held[id := m].Keys == b.held[id := m].Keys;
    }
  }

  lemma AlikeRelease(a: Link, b: Link, id: u16)
    requires Alike(a, b)
    ensures Alike(Step(a, Arrives(Pubrel(id))), Step(b, Arrives(Pubrel(id))))
  {
    var a', b' := Step(a, Arrives(Pubrel(id))), Step(b, Arrives(Pubrel(id)));
    assert a'.held.Keys == a.held.Keys - {id} && b'.held.Keys == b.held.Keys - {id};
  }

  /** The events that concern `id`. */
  predicate Concerns(e: Event, id: u16) { Stashes(e, id) || e == Arrives(Pubrel(id)) || e.Closes? }

  function Only(es: seq<Event>, id: u16): seq<Event>
    decreases |es|
  {
    if es == [] then []
    else Only(es[..|es| - 1], id) + (if Concerns(es[|es| - 1], id) then [es[|es| - 1]] else [])
  }

  /** What is handed on for `id`, in a trace of everything. */
  function HandsFor(client: bool, es: seq<Event>, id: u16): seq<PublishPacket>
    decreases |es|
  {
    if es == [] then []
    else
      HandsFor(client, es[..|es| - 1], id)
      + (if es[|es| - 1] == Arrives(Pubrel(id)) then Hands(client, es[..|es| - 1], es[|es| - 1]) else [])
  }

  /** What is handed on for `id` is settled by the events of `id` alone. */
  lemma {:induction false} OtherIdsDoNotInterfere(client: bool, es: seq<Event>, id: u16)
    ensures Latest(es, id) == Latest(Only(es, id), id)
    ensures HandsFor(client, es, id) == AllHands(client, Only(es, id))
    decreases |es|
  {
    if es != [] {
      var before, e := es[..|es| - 1], es[|es| - 1];
      OtherIdsDoNotInterfere(client, before, id);
      var kept := Only(before, id);
      if Concerns(e, id) {
        assert (kept + [e])[..|kept|] == kept;
      } else {
        assert Only(es, id) == kept;
      }
    }
  }
}

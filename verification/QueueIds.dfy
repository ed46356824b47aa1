/** The packet ids fan-out puts on a subscriber's queue, over every run. */
module QueueIds {
  import opened Types
  import opened PacketIds
  import opened BrokerState
  import opened FanOut
  import opened PublishWriter
  import opened BrokerRefinement
  import opened BrokerRuns

  /** The queue's ids are the counter's sequence from the start, and while the writer
      is alive the counter stands where they end. */
  ghost predicate Numbered(ch: Channel) {
    && Sequenced(ch.queue, 0)
    && (ch.writerAlive ==> ch.session.counter == CounterAfter(0, AckedCount(ch.queue)))
  }

  ghost predicate AllNumbered(channels: map<ConnId, Channel>) {
    forall j :: j in channels ==> Numbered(channels[j])
  }

  lemma PushAllNumbers(ch: Channel, m: PublishPacket, grants: seq<QoS>)
    requires Numbered(ch)
    ensures Numbered(PushAll(ch, m, grants))
  {
    var ch' := PushAll(ch, m, grants);
    PushAllCopies(ch, m, grants);
    if ch.writerAlive {
      PushAllIds(ch, m, grants);
      var d := ch'.queue[|ch.queue|..];
      assert ch'.queue == ch.queue + d;
      SequencedAppend(ch.queue, d, 0);
      AckedCountAppend(ch.queue, d);
      CountersAdd(0, AckedCount(ch.queue), AckedCount(d));
    }
  }

  lemma PublishNumbers(st: State, cause: Cause, m: PublishPacket, order: seq<Hit>)
    requires AllNumbered(st.channels)
    ensures AllNumbered(PublishTo(st, cause, m, order).channels)
  {
    PublishFrame(st, cause, m, order);
    var channels := PublishTo(st, cause, m, order).channels;
    forall j | j in channels ensures Numbered(channels[j]) {
      ChannelAfter(st, cause, m, order, j);
      PushAllNumbers(st.channels[j], m, Grants(HitsOn(st.sessions, cause.Source(), order, j)));
    }
  }

  lemma WillNumbers(st: State, cause: Cause, will: Option<WillMessage>, order: seq<Hit>)
    requires AllNumbered(st.channels)
    ensures AllNumbered(WillTo(st, cause, will, order).channels)
  {
    if will.Some? {
      PublishNumbers(st, cause, WillPublish(will.value), order);
    }
  }

  lemma CloseNumbers(st: State, k: ConnId)
    requires AllNumbered(st.channels)
    ensures AllNumbered(CloseChannel(st, k).channels)
  {
  }

  lemma StepNumbers(st: State, op: Op)
    requires AllNumbered(st.channels)
    ensures AllNumbered(Do(st, op).channels)
  {
    match op {
      case OpRegister(c, _, _, _, order) =>
        if c in st.sessions {
          var e := st.sessions[c];
          CloseNumbers(st.(sessions := st.sessions - {c}), e.conn);
          WillNumbers(CloseChannel(st.(sessions := st.sessions - {c}), e.conn), TakeoverWill(e.conn), e.will, order);
        }
      case OpUnregister(c, k, graceful, order) =>
        WillNumbers(Without(st, c), OwnWill(k), TeardownWill(st, c, k, graceful), order);
      case OpPublish(cause, m, order) => PublishNumbers(st, cause, m, order);
      case OpSubscribe(c, k, filters) => if OwnedBy(st, c, k) { SubscribeKeepsChannels(st, c, filters); }
      case OpUnsubscribe(c, k, topics) => if OwnedBy(st, c, k) { UnsubscribeKeepsChannels(st, c, topics); }
      case OpClose(k) => CloseNumbers(st, k);
      case _ =>
    }
  }

  lemma {:induction false} RunNumbers(st: State, ops: seq<Op>)
    requires AllNumbered(st.channels)
    ensures AllNumbered(Exec(st, ops).channels)
    decreases |ops|
  {
    if ops != [] {
      StepNumbers(st, ops[0]);
      RunNumbers(Do(st, ops[0]), ops[1..]);
    }
  }

  /** Over every run the acknowledged copies on a subscriber's queue, publish after
      publish, carry the ids of the counter's sequence from its first; so among the
      first 65535 no two share an id. */
  lemma QueueIdsInSequence(ops: seq<Op>, j: ConnId, a: nat, b: nat)
    requires j in Exec(EmptyBroker, ops).channels
    requires var queue := Exec(EmptyBroker, ops).channels[j].queue;
             a < b < |queue| && queue[a].packetId.Some? && queue[b].packetId.Some?
    ensures var queue := Exec(EmptyBroker, ops).channels[j].queue;
            && queue[a].packetId.value == NthId(0, AckedCount(queue[..a]))
            && queue[b].packetId.value == NthId(0, AckedCount(queue[..b]))
            && (AckedCount(queue[..b]) < 65535 ==> queue[a].packetId != queue[b].packetId)
  {
    RunNumbers(EmptyBroker, ops);
    var queue := Exec(EmptyBroker, ops).channels[j].queue;
    assert Numbered(Exec(EmptyBroker, ops).channels[j]);
    if AckedCount(queue[..b]) < 65535 {
      SequencedIdsDiffer(queue, 0, a, b);
    }
  }
}

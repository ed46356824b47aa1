/** All connections of a server around one broker: readers hand publishes to
    chain workers, workers publish, connections come and go. */
module Server {
  import opened Types
  import opened BrokerState
  import opened FanOut
  import opened BrokerRefinement
  import opened BrokerRuns
  import opened InboundQos2

  // ---- the endpoint chain -----------------------------------------------------------

  /** What one endpoint did with the message it was shown. */
  datatype Endpoint = Ran(fanout: bool, incoming: Option<PublishPacket>) | Errored

  /** The last edit stands, whole; the id and dup flag are not the chain's. */
  function Edited(m: PublishPacket, outs: seq<Endpoint>): PublishPacket {
    if outs == [] then m
    else
      var last := outs[|outs| - 1];
      if last.Ran? && last.incoming.Some? then
        var inc := last.incoming.value;
        m.(topic := inc.topic, payload := inc.payload, qos := inc.qos, retain := inc.retain)
      else Edited(m, outs[..|outs| - 1])
  }

  /** Nobody suppressed the message or failed. */
  predicate FansOut(outs: seq<Endpoint>) {
    forall i :: 0 <= i < |outs| ==> outs[i].Ran? && outs[i].fanout
  }

  function ChainResult(m: PublishPacket, outs: seq<Endpoint>): Option<PublishPacket> {
    if FansOut(outs) then Some(Edited(m, outs)) else None
  }

  method RunServerChainThenDecideFanout(publish: PublishPacket, outs: seq<Endpoint>) returns (r: Option<PublishPacket>)
    ensures r == ChainResult(publish, outs)
  {
    var fanout := true;
    var current := publish;
    for i := 0 to |outs|
      invariant current == Edited(publish, outs[..i])
      invariant fanout == FansOut(outs[..i])
    {
      assert outs[..i + 1][..i] == outs[..i];
      ghost var before := current;
      match outs[i] {
        case Ran(keeps, incoming) =>
          if !keeps {
            fanout := false;
          }
          if incoming.Some? {
            current := current.(topic := incoming.value.topic);
            current := current.(payload := incoming.value.payload);
            current := current.(qos := incoming.value.qos);
            current := current.(retain := incoming.value.retain);
            EditedKeepsRest(publish, outs[..i]);
          }
        case Errored =>
          fanout := false;
      }
    }
    assert outs[..|outs|] == outs;
    return if fanout then Some(current) else None;
  }

  lemma {:induction false} EditedKeepsRest(m: PublishPacket, outs: seq<Endpoint>)
    ensures Edited(m, outs).dup == m.dup && Edited(m, outs).packetId == m.packetId
  {
    if outs != [] {
      EditedKeepsRest(m, outs[..|outs| - 1]);
    }
  }

  predicate Edits(e: Endpoint) { e.Ran? && e.incoming.Some? }

  lemma {:induction false} LaterEndpointsKeep(m: PublishPacket, before: seq<Endpoint>, after: seq<Endpoint>)
    requires forall i :: 0 <= i < |after| ==> !Edits(after[i])
    ensures Edited(m, before + after) == Edited(m, before)
    decreases |after|
  {
    var outs := before + after;
    if after == [] {
      assert outs == before;
    } else {
      var n := |after| - 1;
      LaterEndpointsKeep(m, before, after[..n]);
      assert outs[..|outs| - 1] == before + after[..n];
    }
  }

  /** One endpoint anywhere in the chain: if it fails or suppresses, nothing goes out;
      if it is the last to edit and nobody stops the message, its content goes out
      under the message's own id and dup flag. */
  lemma EndpointDecides(m: PublishPacket, before: seq<Endpoint>, e: Endpoint, after: seq<Endpoint>)
    ensures var r := ChainResult(m, before + [e] + after);
            && (e.Errored? ==> r == None)
            && (e.Ran? && !e.fanout ==> r == None)
            && (Edits(e) && (forall i :: 0 <= i < |after| ==> !Edits(after[i])) && r.Some? ==>
                  var inc := e.incoming.value;
                  r.value == PublishPacket(inc.topic, inc.payload, m.dup, inc.qos, inc.retain, m.packetId))
  {
    var outs := before + [e] + after;
    assert outs[|before|] == e;
    if Edits(e) && (forall i :: 0 <= i < |after| ==> !Edits(after[i])) {
      LaterEndpointsKeep(m, before + [e], after);
      assert (before + [e])[..|before|] == before;
      EditedKeepsRest(m, before);
    }
  }

  /** And the message goes out as it came if nobody edits, exactly unless somebody fails
      or suppresses. */
  lemma ChainPasses(m: PublishPacket, outs: seq<Endpoint>)
    ensures ChainResult(m, outs).Some? <==> forall i :: 0 <= i < |outs| ==> outs[i].Ran? && outs[i].fanout
    ensures ChainResult(m, outs).Some? && (forall i :: 0 <= i < |outs| ==> !Edits(outs[i])) ==>
              ChainResult(m, outs) == Some(m)
  {
    if forall i :: 0 <= i < |outs| ==> !Edits(outs[i]) {
      LaterEndpointsKeep(m, [], outs);
      assert [] + outs == outs;
    }
  }

  // ---- connections --------------------------------------------------------------------

  /** `handle_server`: before and after registration, reading, winding down the
      worker, returned. */
  datatype Phase = Arrived | Registered | Serving | Draining(graceful: bool) | Over

  /** `results` is what the endpoint chain made of each handed publish so far;
      None means suppressed. History: `will` is the Will it registered, `trace` what
      the reader dispatched, `outs` what the endpoints did with each message. */
  datatype Conn = Conn(
    phase: Phase, client: ClientId, link: Link, results: seq<Option<PublishPacket>>, will: Option<WillMessage>,
    trace: seq<Event>, outs: seq<seq<Endpoint>>)
  {
    function Sees(e: Event): Conn { this.(link := InboundQos2.Step(link, e), trace := trace + [e]) }

    function Made(result: Option<PublishPacket>, out: seq<Endpoint>): Conn {
      this.(results := results + [result], outs := outs + [out])
    }
  }

  datatype Sys = Sys(broker: State, conns: map<ConnId, Conn>)

  const EmptySys := Sys(EmptyBroker, map[])

  function SetConn(s: Sys, k: ConnId, conn: Conn): Sys { s.(conns := s.conns[k := conn]) }

  /** `Leave` is every way out of the read loop but a DISCONNECT or a second CONNECT,
      which are `Inbound` packets: deadline, wire closed, malformed packet, a dispatch
      that failed, shutdown. */
  datatype Move =
    | Accept(k: ConnId)
    | WriterExits(k: ConnId)
    | Admit(k: ConnId, c: ClientId, will: Option<WillMessage>, clean: bool, order: seq<Hit>)
    | ConnackSent(k: ConnId)
    | ConnackFailed(k: ConnId, order: seq<Hit>)
    | Inbound(k: ConnId, p: Packet)
    | Leave(k: ConnId)
    | Work(k: ConnId, outs: seq<Endpoint>, order: seq<Hit>)
    | Finish(k: ConnId, order: seq<Hit>)

  /** `close` on a channel: the first call drops what the session held. */
  function Closing(s: Sys, k: ConnId): map<ConnId, Conn> {
    if k in s.conns && k in s.broker.channels && s.broker.channels[k].open
    then s.conns[k := s.conns[k].Sees(Closes)] else s.conns
  }

  function Admitted(s: Sys, k: ConnId, c: ClientId, will: Option<WillMessage>, clean: bool, order: seq<Hit>): Sys
    requires k in s.conns
  {
    var conns := Displaced(s, c);
    Sys(Register(s.broker, c, k, will, clean, order),
        conns[k := conns[k].(phase := Registered, client := c, will := will)])
  }

  /** The connections once the one that held the name is closed. */
  function Displaced(s: Sys, c: ClientId): (conns: map<ConnId, Conn>)
    ensures conns.Keys == s.conns.Keys
  {
    if c in s.broker.sessions then Closing(s, s.broker.sessions[c].conn) else s.conns
  }

  /** Unregister and return. */
  function Return(s: Sys, k: ConnId, graceful: bool, order: seq<Hit>): Sys
    requires k in s.conns
  {
    Sys(Unregister(s.broker, s.conns[k].client, k, graceful, order), s.conns[k := s.conns[k].(phase := Over)])
  }

  /** What the chain makes of the next message in the worker's queue. */
  function NextResult(conn: Conn, outs: seq<Endpoint>): Option<PublishPacket> {
    if |conn.results| < |conn.link.handed| then ChainResult(conn.link.handed[|conn.results|], outs) else None
  }

  /** The publish of message `i` of connection `k`, unless it was suppressed. */
  function WorkedBroker(st: State, c: ClientId, k: ConnId, i: nat, result: Option<PublishPacket>, order: seq<Hit>): State {
    if result.Some? then PublishTo(st, Message(c, k, i), result.value, order) else st
  }

  function Worked(s: Sys, k: ConnId, outs: seq<Endpoint>, order: seq<Hit>): Sys
    requires k in s.conns
  {
    var conn := s.conns[k];
    var result := NextResult(conn, outs);
    Sys(WorkedBroker(s.broker, conn.client, k, |conn.results|, result, order), s.conns[k := conn.Made(result, outs)])
  }

  function Received(s: Sys, k: ConnId, p: Packet): Sys
    requires k in s.conns
  {
    var conn := s.conns[k];
    SetConn(s.(broker := BrokerSide(s.broker, conn.client, k, p)), k, conn.Sees(Arrives(p)))
  }

  /** A DISCONNECT ends the read loop, and a second CONNECT is an error that does. */
  predicate EndsLoop(p: Packet) { p.Disconnect? || p.Connect? }

  /** Out of the read loop: the channel is closed, the worker winds down. */
  function Left(s: Sys, k: ConnId, graceful: bool): Sys
    requires k in s.conns
  {
    s.(broker := CloseChannel(s.broker, k), conns := Closing(s, k)[k := Closing(s, k)[k].(phase := Draining(graceful))])
  }

  /** What the broker does on an inbound packet. */
  function BrokerSide(st: State, c: ClientId, k: ConnId, p: Packet): State {
    if p.Subscribe? then Subscribed(st, c, k, p.subscriptions)
    else if p.Unsubscribe? then Unsubscribed(st, c, k, p.topics)
    else st
  }

  ghost predicate Can(s: Sys, m: Move) {
    match m
    case Accept(k) => k !in s.conns
    case WriterExits(k) => k in s.conns
    case Admit(k, c, _, _, order) =>
      k in s.conns && s.conns[k].phase.Arrived? && WillOrder(order, s.broker.subs, DisplacedWill(s.broker, c))
    case ConnackSent(k) => k in s.conns && s.conns[k].phase.Registered?
    case ConnackFailed(k, order) =>
      && k in s.conns && s.conns[k].phase.Registered?
      && WillOrder(order, TreeRemoveClient(s.broker.subs, s.conns[k].client),
                   TeardownWill(s.broker, s.conns[k].client, k, false))
    case Inbound(k, p) => k in s.conns && s.conns[k].phase.Serving?
    case Leave(k) => k in s.conns && s.conns[k].phase.Serving?
    case Work(k, outs, order) =>
      && k in s.conns && (s.conns[k].phase.Serving? || s.conns[k].phase.Draining?)
      && |s.conns[k].results| < |s.conns[k].link.handed|
      && (NextResult(s.conns[k], outs).Some? ==>
            Enumerates(order, s.broker.subs, NextResult(s.conns[k], outs).value.topic))
    case Finish(k, order) =>
      && k in s.conns && s.conns[k].phase.Draining?
      && |s.conns[k].results| == |s.conns[k].link.handed|
      && WillOrder(order, TreeRemoveClient(s.broker.subs, s.conns[k].client),
                   TeardownWill(s.broker, s.conns[k].client, k, s.conns[k].phase.graceful))
  }

  function Apply(s: Sys, m: Move): Sys
    requires m.Accept? || m.k in s.conns
  {
    match m
    case Accept(k) =>
      s.(broker := BrokerRefinement.Do(s.broker, OpAccept(k)),
         conns := s.conns[k := Conn(Arrived, [], FreshLink(false), [], None, [], [])])
    case WriterExits(k) => s.(broker := BrokerRefinement.Do(s.broker, OpWriterExit(k)))
    case Admit(k, c, will, clean, order) => Admitted(s, k, c, will, clean, order)
    case ConnackSent(k) => SetConn(s, k, s.conns[k].(phase := Serving))
    case ConnackFailed(k, order) => Return(s, k, false, order)
    case Inbound(k, p) => if EndsLoop(p) then Left(Received(s, k, p), k, p.Disconnect?) else Received(s, k, p)
    case Leave(k) => Left(s, k, false)
    case Work(k, outs, order) => Worked(s, k, outs, order)
    case Finish(k, order) => Return(s, k, s.conns[k].phase.Draining? && s.conns[k].phase.graceful, order)
  }

  /** A run: every move possible when it is made. */
  ghost predicate Possible(s: Sys, moves: seq<Move>)
    decreases |moves|
  {
    moves == [] || (Can(s, moves[0]) && Possible(Apply(s, moves[0]), moves[1..]))
  }

  ghost function After(s: Sys, moves: seq<Move>): Sys
    requires Possible(s, moves)
    decreases |moves|
  {
    if moves == [] then s else After(Apply(s, moves[0]), moves[1..])
  }

  // ---- sessions and connections ------------------------------------------------------

  ghost predicate ConnOk(conn: Conn) {
    && conn.link == InboundQos2.Run(FreshLink(false), conn.trace)
    && |conn.results| == |conn.outs| <= |conn.link.handed|
    && (forall i :: 0 <= i < |conn.results| ==> conn.results[i] == ChainResult(conn.link.handed[i], conn.outs[i]))
    && (conn.phase.Arrived? || conn.phase.Registered? ==> conn.link.handed == [])
    && (conn.phase.Over? ==> |conn.results| == |conn.link.handed|)
  }

  /** An entry belongs to a connection that registered under that name, with that
      Will, and has not returned. */
  ghost predicate EntryLive(conns: map<ConnId, Conn>, c: ClientId, e: Entry) {
    && e.conn in conns && conns[e.conn].client == c && conns[e.conn].will == e.will
    && !conns[e.conn].phase.Arrived? && !conns[e.conn].phase.Over?
  }

  ghost predicate Sound(s: Sys) {
    && Valid(s.broker)
    && s.conns.Keys == s.broker.channels.Keys
    && (forall c :: c in s.broker.sessions ==> EntryLive(s.conns, c, s.broker.sessions[c]))
    && (forall k :: k in s.conns ==> ConnOk(s.conns[k]))
  }

  lemma SeesKeepsTrace(conn: Conn, e: Event)
    requires conn.link == InboundQos2.Run(FreshLink(false), conn.trace)
    ensures conn.Sees(e).link == InboundQos2.Run(FreshLink(false), conn.Sees(e).trace)
    ensures conn.link.handed <= conn.Sees(e).link.handed
    ensures e.Closes? ==> conn.Sees(e).link.handed == conn.link.handed
  {
    var t := conn.trace + [e];
    assert t[..|t| - 1] == conn.trace && t[|t| - 1] == e;
  }

  /** The same connections, at most closed. */
  ghost predicate Similar(conns: map<ConnId, Conn>, conns': map<ConnId, Conn>) {
    && conns'.Keys == conns.Keys
    && forall j :: j in conns ==> SimilarConn(conns[j], conns'[j])
  }

  ghost predicate SimilarConn(conn: Conn, conn': Conn) {
    && conn'.phase == conn.phase && conn'.client == conn.client
    && conn'.results == conn.results && conn'.link.handed == conn.link.handed
    && conn'.will == conn.will && conn'.outs == conn.outs
    && ConnOk(conn')
  }

  lemma ClosingIsSimilar(s: Sys, k: ConnId)
    requires Sound(s)
    ensures Similar(s.conns, Closing(s, k))
    ensures forall j :: j in s.conns && j != k ==> Closing(s, k)[j] == s.conns[j]
  {
    if k in s.conns {
      assert ConnOk(s.conns[k]);
      SeesKeepsTrace(s.conns[k], Closes);
    }
    forall j | j in s.conns ensures SimilarConn(s.conns[j], Closing(s, k)[j]) {
      assert ConnOk(s.conns[j]);
    }
  }

  lemma AdmitSound(s: Sys, m: Move)
    requires Sound(s) && Can(s, m) && m.Admit?
    ensures Sound(Apply(s, m))
  {
    var k, c := m.k, m.c;
    var broker := Register(s.broker, c, k, m.will, m.clean, m.order);
    ArrivedHoldsNothing(s, k);
    RegisterRefines(s.broker, c, k, m.will, m.clean, m.order);
    RegisterFrame(s.broker, c, k, m.will, m.clean, m.order);
    DisplacedIsSimilar(s, c);
    AdmitConns(s.broker.sessions, broker.sessions, s.conns, Displaced(s, c), k, c, Entry(k, map[], m.will, m.clean));
  }

  lemma ArrivedHoldsNothing(s: Sys, k: ConnId)
    requires Sound(s) && k in s.conns && s.conns[k].phase.Arrived?
    ensures k in s.broker.channels && forall d :: d in s.broker.sessions ==> s.broker.sessions[d].conn != k
  {
    forall d | d in s.broker.sessions ensures s.broker.sessions[d].conn != k {
      assert EntryLive(s.conns, d, s.broker.sessions[d]);
    }
  }

  lemma DisplacedIsSimilar(s: Sys, c: ClientId)
    requires Sound(s)
    ensures Similar(s.conns, Displaced(s, c))
  {
    if c in s.broker.sessions {
      ClosingIsSimilar(s, s.broker.sessions[c].conn);
    } else {
      forall j | j in s.conns ensures SimilarConn(s.conns[j], s.conns[j]) {
        assert ConnOk(s.conns[j]);
      }
    }
  }

  lemma AdmitConns(
    sessions: map<ClientId, Entry>, sessions': map<ClientId, Entry>, conns: map<ConnId, Conn>, conns1: map<ConnId, Conn>,
    k: ConnId, c: ClientId, e: Entry)
    requires Similar(conns, conns1) && k in conns && conns[k].phase.Arrived?
    requires sessions' == sessions[c := e] && e.conn == k
    requires forall d :: d in sessions ==> EntryLive(conns, d, sessions[d])
    ensures var conns2 := conns1[k := conns1[k].(phase := Registered, client := c, will := e.will)];
            && conns2.Keys == conns.Keys
            && (forall d :: d in sessions' ==> EntryLive(conns2, d, sessions'[d]))
            && (forall j :: j in conns2 ==> ConnOk(conns2[j]))
  {
    var conns2 := conns1[k := conns1[k].(phase := Registered, client := c, will := e.will)];
    assert SimilarConn(conns[k], conns1[k]);
    forall d | d in sessions' ensures EntryLive(conns2, d, sessions'[d]) {
      if d != c {
        assert EntryLive(conns, d, sessions[d]);
        assert SimilarConn(conns[sessions[d].conn], conns1[sessions[d].conn]);
      }
    }
    forall j | j in conns2 ensures ConnOk(conns2[j]) {
      assert SimilarConn(conns[j], conns1[j]);
    }
  }

  /** Unregistering leaves no entry with the connection's id. */
  lemma EndSound(s: Sys, k: ConnId, graceful: bool, order: seq<Hit>)
    requires Sound(s) && k in s.conns
    requires |s.conns[k].results| == |s.conns[k].link.handed|
    ensures Sound(Return(s, k, graceful, order))
  {
    var s', c := Return(s, k, graceful, order), s.conns[k].client;
    UnregisterRefines(s.broker, c, k, graceful, order);
    if OwnedBy(s.broker, c, k) {
      WillFrame(Without(s.broker, c), OwnWill(k), TeardownWill(s.broker, c, k, graceful), order);
    }
    ReturnConns(s.broker, s'.broker.sessions, s.conns, k);
  }

  lemma ReturnConns(st: State, sessions': map<ClientId, Entry>, conns: map<ConnId, Conn>, k: ConnId)
    requires k in conns && |conns[k].results| == |conns[k].link.handed|
    requires forall d :: d in st.sessions ==> EntryLive(conns, d, st.sessions[d])
    requires forall j :: j in conns ==> ConnOk(conns[j])
    requires sessions' == if OwnedBy(st, conns[k].client, k) then st.sessions - {conns[k].client} else st.sessions
    ensures var conns' := conns[k := conns[k].(phase := Over)];
            && (forall d :: d in sessions' ==> EntryLive(conns', d, sessions'[d]))
            && (forall j :: j in conns' ==> ConnOk(conns'[j]))
  {
    var conns' := conns[k := conns[k].(phase := Over)];
    forall d | d in sessions' ensures EntryLive(conns', d, sessions'[d]) {
      assert EntryLive(conns, d, st.sessions[d]);
    }
    forall j | j in conns' ensures ConnOk(conns'[j]) {
      assert ConnOk(conns[j]);
    }
  }

  /** Every entry keeps its owner and its Will. */
  ghost predicate SameOwners(sessions: map<ClientId, Entry>, sessions': map<ClientId, Entry>) {
    && sessions'.Keys == sessions.Keys
    && forall c :: c in sessions ==> sessions'[c].conn == sessions[c].conn && sessions'[c].will == sessions[c].will
  }

  /** Only connection `k` changes, and neither arrives again nor returns. */
  ghost predicate OneMoves(conns: map<ConnId, Conn>, conns': map<ConnId, Conn>, k: ConnId) {
    && k in conns && conns'.Keys == conns.Keys
    && conns'[k].client == conns[k].client && conns'[k].will == conns[k].will
    && (conns'[k].phase.Arrived? || conns'[k].phase.Over? ==> conns'[k].phase == conns[k].phase)
    && forall j :: j in conns && j != k ==> conns'[j] == conns[j]
  }

  lemma EntriesStayLive(
    sessions: map<ClientId, Entry>, sessions': map<ClientId, Entry>, conns: map<ConnId, Conn>, conns': map<ConnId, Conn>,
    k: ConnId)
    requires SameOwners(sessions, sessions') && OneMoves(conns, conns', k)
    requires forall c :: c in sessions ==> EntryLive(conns, c, sessions[c])
    ensures forall c :: c in sessions' ==> EntryLive(conns', c, sessions'[c])
  {
    forall d | d in sessions' ensures EntryLive(conns', d, sessions'[d]) {
      assert EntryLive(conns, d, sessions[d]);
    }
  }

  /** A step of one connection over a broker step that keeps every entry's owner. */
  lemma ConnStepSound(s: Sys, s': Sys, k: ConnId)
    requires Sound(s) && OneMoves(s.conns, s'.conns, k) && ConnOk(s'.conns[k])
    requires Valid(s'.broker) && s'.broker.channels.Keys == s.broker.channels.Keys
    requires SameOwners(s.broker.sessions, s'.broker.sessions)
    ensures Sound(s')
  {
    EntriesStayLive(s.broker.sessions, s'.broker.sessions, s.conns, s'.conns, k);
    forall j | j in s'.conns ensures ConnOk(s'.conns[j]) {
      assert ConnOk(s.conns[j]);
    }
  }

  lemma ReceivedSound(s: Sys, k: ConnId, p: Packet)
    requires Sound(s) && k in s.conns && s.conns[k].phase.Serving?
    ensures Sound(Received(s, k, p))
  {
    var conn := s.conns[k];
    assert ConnOk(conn);
    SeesKeepsTrace(conn, Arrives(p));
    BrokerSideStep(s.broker, conn.client, k, p);
    ConnStepSound(s, Received(s, k, p), k);
  }

  lemma InboundSound(s: Sys, m: Move)
    requires Sound(s) && Can(s, m) && m.Inbound?
    ensures Sound(Apply(s, m))
  {
    ReceivedSound(s, m.k, m.p);
    if EndsLoop(m.p) {
      LeftSound(Received(s, m.k, m.p), m.k, m.p.Disconnect?);
    }
  }

  /** Changing subscriptions leaves owners and channels as they are. */
  lemma BrokerSideStep(st: State, c: ClientId, k: ConnId, p: Packet)
    requires Valid(st)
    ensures var st' := BrokerSide(st, c, k, p);
            && Valid(st') && st'.channels == st.channels
            && st'.log == st.log && SameOwners(st.sessions, st'.sessions)
  {
    if OwnedBy(st, c, k) {
      if p.Subscribe? {
        SubscribeAllRefines(st, c, p.subscriptions);
        SubscribeKeepsChannels(st, c, p.subscriptions);
        SubscribeKeepsEntries(st, c, p.subscriptions);
      } else if p.Unsubscribe? {
        UnsubscribeAllRefines(st, c, p.topics);
        UnsubscribeKeepsChannels(st, c, p.topics);
        UnsubscribeKeepsEntries(st, c, p.topics);
      }
    }
  }

  lemma LeftSound(s: Sys, k: ConnId, graceful: bool)
    requires Sound(s) && k in s.conns && s.conns[k].phase.Serving?
    ensures Sound(Left(s, k, graceful))
  {
    ClosingIsSimilar(s, k);
    SameIndexes(s.broker, CloseChannel(s.broker, k));
    assert SimilarConn(s.conns[k], Closing(s, k)[k]);
    ConnStepSound(s, Left(s, k, graceful), k);
  }

  lemma WorkSound(s: Sys, m: Move)
    requires Sound(s) && Can(s, m) && m.Work?
    ensures Sound(Apply(s, m))
  {
    var conn := s.conns[m.k];
    assert ConnOk(conn);
    NextResultOk(conn, m.outs);
    WorkedBrokerStep(s.broker, conn.client, m.k, |conn.results|, NextResult(conn, m.outs), m.order);
    ConnStepSound(s, Apply(s, m), m.k);
  }

  lemma WorkedBrokerStep(st: State, c: ClientId, k: ConnId, i: nat, result: Option<PublishPacket>, order: seq<Hit>)
    requires Valid(st)
    ensures var st' := WorkedBroker(st, c, k, i, result, order);
            Valid(st') && st'.channels.Keys == st.channels.Keys && SameOwners(st.sessions, st'.sessions)
  {
    if result.Some? {
      PublishRefines(st, Message(c, k, i), result.value, order);
      PublishFrame(st, Message(c, k, i), result.value, order);
    }
  }

  lemma NextResultOk(conn: Conn, outs: seq<Endpoint>)
    requires ConnOk(conn) && |conn.results| < |conn.link.handed|
    ensures ConnOk(conn.Made(NextResult(conn, outs), outs))
  {
  }

  lemma AcceptSound(s: Sys, m: Move)
    requires Sound(s) && Can(s, m) && m.Accept?
    ensures Sound(Apply(s, m))
  {
    ChannelOpRefines(s.broker, OpAccept(m.k));
    var s' := Apply(s, m);
    forall d | d in s'.broker.sessions ensures EntryLive(s'.conns, d, s'.broker.sessions[d]) {
      assert EntryLive(s.conns, d, s.broker.sessions[d]);
    }
    forall j | j in s'.conns ensures ConnOk(s'.conns[j]) {
      if j in s.conns && j != m.k {
        assert ConnOk(s.conns[j]);
      }
    }
  }

  lemma MoveSound(s: Sys, m: Move)
    requires Sound(s) && Can(s, m)
    ensures Sound(Apply(s, m))
  {
    match m {
      case Accept(_) => AcceptSound(s, m);
      case WriterExits(k) =>
        ChannelOpRefines(s.broker, OpWriterExit(k));
        assert ConnOk(s.conns[k]);
        ConnStepSound(s, Apply(s, m), k);
      case Admit(_, _, _, _, _) => AdmitSound(s, m);
      case ConnackSent(k) =>
        assert ConnOk(s.conns[k]);
        ConnStepSound(s, Apply(s, m), k);
      case ConnackFailed(k, order) =>
        assert ConnOk(s.conns[k]);
        EndSound(s, k, false, order);
      case Inbound(_, _) => InboundSound(s, m);
      case Leave(k) => LeftSound(s, k, false);
      case Work(_, _, _) => WorkSound(s, m);
      case Finish(k, order) => EndSound(s, k, s.conns[k].phase.graceful, order);
    }
  }
}

/** Safety over every run of a server: no session outlives its connection, and
    publishes keep their order up to the subscribers' queues. */
module ServerRuns {
  import opened Types
  import opened PublishWriter
  import opened BrokerState
  import opened FanOut
  import opened BrokerRefinement
  import opened CallLog
  import opened BrokerRuns
  import opened InboundQos2
  import opened Server

  // ---- a server's moves are the broker's operations ------------------------------------

  /** The broker operation a move makes, if any. */
  function BrokerOps(s: Sys, m: Move): seq<Op>
    requires m.Accept? || m.k in s.conns
  {
    match m
    case Accept(k) => [OpAccept(k)]
    case WriterExits(k) => [OpWriterExit(k)]
    case Admit(k, c, will, clean, order) => [OpRegister(c, k, will, clean, order)]
    case ConnackSent(_) => []
    case ConnackFailed(k, order) => [OpUnregister(s.conns[k].client, k, false, order)]
    case Inbound(k, p) => if EndsLoop(p) then [OpClose(k)] else SubscriptionOps(s.conns[k].client, k, p)
    case Leave(k) => [OpClose(k)]
    case Work(k, outs, order) => PublishOps(s.conns[k], k, outs, order)
    case Finish(k, order) =>
      [OpUnregister(s.conns[k].client, k, s.conns[k].phase.Draining? && s.conns[k].phase.graceful, order)]
  }

  function SubscriptionOps(c: ClientId, k: ConnId, p: Packet): seq<Op> {
    if p.Subscribe? then [OpSubscribe(c, k, p.subscriptions)]
    else if p.Unsubscribe? then [OpUnsubscribe(c, k, p.topics)]
    else []
  }

  function PublishOps(conn: Conn, k: ConnId, outs: seq<Endpoint>, order: seq<Hit>): seq<Op> {
    var result := NextResult(conn, outs);
    if result.Some? then [OpPublish(Message(conn.client, k, |conn.results|), result.value, order)] else []
  }

  lemma OneOp(st: State, op: Op)
    ensures Exec(st, [op]) == Do(st, op)
    ensures Legal(st, [op]) <==> Enabled(st, op)
  {
    assert Exec(Do(st, op), [op][1..]) == Do(st, op);
    assert Legal(Do(st, op), [op][1..]);
  }

  lemma WorkIsOp(s: Sys, m: Move)
    requires Can(s, m) && m.Work?
    ensures Legal(s.broker, BrokerOps(s, m))
    ensures Apply(s, m).broker == Exec(s.broker, BrokerOps(s, m))
  {
    var conn := s.conns[m.k];
    var result := NextResult(conn, m.outs);
    if result.Some? {
      OneOp(s.broker, OpPublish(Message(conn.client, m.k, |conn.results|), result.value, m.order));
    }
  }

  lemma InboundIsOp(s: Sys, m: Move)
    requires Can(s, m) && m.Inbound?
    ensures Legal(s.broker, BrokerOps(s, m))
    ensures Apply(s, m).broker == Exec(s.broker, BrokerOps(s, m))
  {
    var ops := BrokerOps(s, m);
    if ops != [] {
      OneOp(s.broker, ops[0]);
    }
  }

  lemma MoveIsOp(s: Sys, m: Move)
    requires Sound(s) && Can(s, m)
    ensures Legal(s.broker, BrokerOps(s, m))
    ensures Apply(s, m).broker == Exec(s.broker, BrokerOps(s, m))
  {
    match m {
      case Work(_, _, _) => WorkIsOp(s, m);
      case Inbound(_, _) => InboundIsOp(s, m);
      case ConnackSent(_) =>
      case _ =>
        if m.Admit? {
          ArrivedHoldsNothing(s, m.k);
        }
        OneOp(s.broker, BrokerOps(s, m)[0]);
    }
  }

  lemma BrokerSideSubscriptions(st: State, c: ClientId, k: ConnId, p: Packet, d: ClientId)
    requires Valid(st)
    ensures SubsOf(BrokerSide(st, c, k, p).subs, d) == SubsSaid(st, c, k, p, d)
  {
    if OwnedBy(st, c, k) {
      if p.Subscribe? {
        SubscribeAllRefines(st, c, p.subscriptions);
      } else if p.Unsubscribe? {
        UnsubscribeAllRefines(st, c, p.topics);
      }
    }
  }

  /** The subscriptions of `d` once packet `p` of client `c` on connection `k` is
      through: the connection that has the name changes its client's as the packet
      says and nobody else's. */
  function SubsSaid(st: State, c: ClientId, k: ConnId, p: Packet, d: ClientId): map<Str, QoS> {
    var own := SubsOf(st.subs, d);
    if d != c || !OwnedBy(st, c, k) then own
    else if p.Subscribe? then Granting(own, p.subscriptions)
    else if p.Unsubscribe? then own - (set f | f in p.topics)
    else own
  }

  lemma InboundSubscriptions(s: Sys, k: ConnId, p: Packet, d: ClientId)
    requires Sound(s) && Can(s, Inbound(k, p))
    ensures SubsOf(Apply(s, Inbound(k, p)).broker.subs, d) == SubsSaid(s.broker, s.conns[k].client, k, p, d)
  {
    BrokerSideSubscriptions(s.broker, s.conns[k].client, k, p, d);
  }

  // ---- nothing is undone ------------------------------------------------------------------

  ghost predicate Grows(conns: map<ConnId, Conn>, conns': map<ConnId, Conn>) {
    && conns.Keys <= conns'.Keys
    && forall k :: k in conns ==> ConnGrows(conns[k], conns'[k])
  }

  ghost predicate ConnGrows(conn: Conn, conn': Conn) {
    && conn.results <= conn'.results
    && (conn.phase.Over? ==> conn'.phase.Over?)
    && (!conn.phase.Arrived? ==> !conn'.phase.Arrived? && conn'.client == conn.client && conn'.will == conn.will)
  }

  /** Every connection stands where its worker left it. */
  ghost predicate Rests(conns: map<ConnId, Conn>, conns': map<ConnId, Conn>) {
    Grows(conns, conns') && conns'.Keys == conns.Keys && forall k :: k in conns ==> conns'[k].results == conns[k].results
  }

  lemma SimilarRests(conns: map<ConnId, Conn>, conns': map<ConnId, Conn>)
    requires Similar(conns, conns')
    ensures Rests(conns, conns')
  {
    forall k | k in conns ensures ConnGrows(conns[k], conns'[k]) && conns'[k].results == conns[k].results {
      assert SimilarConn(conns[k], conns'[k]);
    }
  }

  lemma SetRests(conns: map<ConnId, Conn>, conns1: map<ConnId, Conn>, k: ConnId, conn: Conn)
    requires Rests(conns, conns1) && k in conns && conn.results == conns[k].results && ConnGrows(conns[k], conn)
    ensures Rests(conns, conns1[k := conn])
  {
    forall j | j in conns ensures ConnGrows(conns[j], conns1[k := conn][j]) {
      assert ConnGrows(conns[j], conns1[j]);
    }
  }

  // ---- the log against the connections ------------------------------------------------------

  /** What an entry's cause says of it: a message is what the chain made of it, under
      its sender's name, and a Will is the one registered, published by a teardown
      only when the connection returns. */
  ghost predicate CallOk(call: Call, conns: map<ConnId, Conn>) {
    && call.cause.conn in conns
    && var conn := conns[call.cause.conn];
      && !conn.phase.Arrived?
      && match call.cause
         case Message(source, _, i) => source == conn.client && i < |conn.results| && conn.results[i] == Some(call.m)
         case OwnWill(_) => conn.phase.Over? && conn.will.Some? && SaysWill(call.m, conn.will.value)
         case TakeoverWill(_) => conn.will.Some? && SaysWill(call.m, conn.will.value)
  }

  /** `x` may come before `y`: one connection's messages in the order handed over,
      each once, and none of them after the Will of its own teardown. */
  predicate InOrder(x: Cause, y: Cause) {
    y.Message? && x.conn == y.conn ==> !x.OwnWill? && (x.Message? ==> x.index < y.index)
  }

  ghost predicate CallsOk(log: seq<Call>, conns: map<ConnId, Conn>) {
    && (forall a :: 0 <= a < |log| ==> CallOk(log[a], conns))
    && (forall a, b :: 0 <= a < b < |log| ==> InOrder(log[a].cause, log[b].cause))
  }

  /** What the chain did not suppress, in order. */
  function Kept(results: seq<Option<PublishPacket>>): seq<PublishPacket> {
    if results == [] then []
    else
      var last := results[|results| - 1];
      Kept(results[..|results| - 1]) + (if last.Some? then [last.value] else [])
  }

  predicate IsMessageOf(call: Call, k: ConnId) { call.cause.Message? && call.cause.conn == k }

  /** What connection `k` published, in order. */
  function Published(log: seq<Call>, k: ConnId): seq<PublishPacket> {
    if log == [] then []
    else
      var last := log[|log| - 1];
      Published(log[..|log| - 1], k) + (if IsMessageOf(last, k) then [last.m] else [])
  }

  ghost predicate Accounts(log: seq<Call>, conns: map<ConnId, Conn>) {
    forall k :: k in conns ==> Published(log, k) == Kept(conns[k].results)
  }

  lemma CallsGrow(log: seq<Call>, conns: map<ConnId, Conn>, conns': map<ConnId, Conn>)
    requires CallsOk(log, conns) && Grows(conns, conns')
    ensures CallsOk(log, conns')
  {
    forall a | 0 <= a < |log| ensures CallOk(log[a], conns') {
      assert CallOk(log[a], conns);
      assert ConnGrows(conns[log[a].cause.conn], conns'[log[a].cause.conn]);
    }
  }

  /** A cause no earlier entry conflicts with: the next message of a connection that
      has not returned, or a Will. */
  predicate NextCause(cause: Cause, conns: map<ConnId, Conn>) {
    cause.Message? ==>
      cause.conn in conns && cause.index == |conns[cause.conn].results| && !conns[cause.conn].phase.Over?
  }

  lemma CallsAppend(log: seq<Call>, call: Call, conns: map<ConnId, Conn>, conns': map<ConnId, Conn>)
    requires CallsOk(log, conns) && Grows(conns, conns') && NextCause(call.cause, conns) && CallOk(call, conns')
    ensures CallsOk(log + [call], conns')
  {
    CallsGrow(log, conns, conns');
    forall a | 0 <= a < |log| ensures InOrder(log[a].cause, call.cause) {
      assert CallOk(log[a], conns);
    }
    var log' := log + [call];
    forall a | 0 <= a < |log'| ensures CallOk(log'[a], conns') {
      if a < |log| {
        assert CallOk(log[a], conns');
      }
    }
  }

  lemma PublishedAppend(log: seq<Call>, call: Call, k: ConnId)
    ensures Published(log + [call], k) == Published(log, k) + (if IsMessageOf(call, k) then [call.m] else [])
  {
    assert (log + [call])[..|log|] == log;
  }

  lemma KeptAppend(results: seq<Option<PublishPacket>>, r: Option<PublishPacket>)
    ensures Kept(results + [r]) == Kept(results) + (if r.Some? then [r.value] else [])
  {
    assert (results + [r])[..|results|] == results;
  }

  lemma {:induction false} PublishedNothing(log: seq<Call>, k: ConnId)
    requires forall a :: 0 <= a < |log| ==> !IsMessageOf(log[a], k)
    ensures Published(log, k) == []
  {
    if log != [] {
      PublishedNothing(log[..|log| - 1], k);
    }
  }

  lemma AccountsRest(log: seq<Call>, conns: map<ConnId, Conn>, conns': map<ConnId, Conn>)
    requires Accounts(log, conns) && Rests(conns, conns')
    ensures Accounts(log, conns')
  {
    forall k | k in conns' ensures Published(log, k) == Kept(conns'[k].results) {
      assert Published(log, k) == Kept(conns[k].results);
    }
  }

  // ---- each move ----------------------------------------------------------------------------

  ghost predicate Orderly(s: Sys) { CallsOk(s.broker.log, s.conns) && Accounts(s.broker.log, s.conns) }

  /** A move that publishes nothing and lets the worker do nothing. */
  lemma QuietMove(s: Sys, s': Sys)
    requires Orderly(s) && Rests(s.conns, s'.conns) && s'.broker.log == s.broker.log
    ensures Orderly(s')
  {
    CallsGrow(s.broker.log, s.conns, s'.conns);
    AccountsRest(s.broker.log, s.conns, s'.conns);
  }

  /** A move that publishes at most a Will. */
  lemma WillMove(s: Sys, s': Sys, cause: Cause, will: Option<WillMessage>)
    requires Orderly(s) && Rests(s.conns, s'.conns) && !cause.Message?
    requires Logs(s.broker.log, s'.broker.log, cause, will)
    requires will.Some? ==> cause.conn in s'.conns && s'.conns[cause.conn].will == will
    requires will.Some? ==> !s'.conns[cause.conn].phase.Arrived?
    requires will.Some? && cause.OwnWill? ==> s'.conns[cause.conn].phase.Over?
    ensures Orderly(s')
  {
    if will.None? {
      QuietMove(s, s');
    } else {
      var log := s.broker.log;
      var call :| s'.broker.log == log + [call] && call.cause == cause && SaysWill(call.m, will.value);
      CallsAppend(log, call, s.conns, s'.conns);
      AccountsRest(log, s.conns, s'.conns);
      forall k | k in s'.conns ensures Published(log + [call], k) == Kept(s'.conns[k].results) {
        PublishedAppend(log, call, k);
        assert Published(log, k) == Kept(s'.conns[k].results);
      }
    }
  }

  lemma AdmitOrderly(s: Sys, m: Move)
    requires Sound(s) && Orderly(s) && Can(s, m) && m.Admit?
    ensures Orderly(Apply(s, m))
  {
    var s', k, c := Apply(s, m), m.k, m.c;
    AdmitRests(s, m);
    RegisterLogs(s.broker, c, k, m.will, m.clean, m.order);
    if c in s.broker.sessions {
      var e := s.broker.sessions[c];
      assert EntryLive(s.conns, c, e);
      assert ConnGrows(s.conns[e.conn], s'.conns[e.conn]);
      WillMove(s, s', TakeoverWill(e.conn), e.will);
    } else {
      QuietMove(s, s');
    }
  }

  lemma AdmitRests(s: Sys, m: Move)
    requires Sound(s) && Can(s, m) && m.Admit?
    ensures Rests(s.conns, Apply(s, m).conns)
  {
    var conns := Displaced(s, m.c);
    DisplacedIsSimilar(s, m.c);
    SimilarRests(s.conns, conns);
    SetRests(s.conns, conns, m.k, conns[m.k].(phase := Registered, client := m.c, will := m.will));
  }

  lemma ReturnOrderly(s: Sys, k: ConnId, graceful: bool, order: seq<Hit>)
    requires Sound(s) && Orderly(s) && k in s.conns && !s.conns[k].phase.Arrived?
    ensures Orderly(Return(s, k, graceful, order))
  {
    var s', c := Return(s, k, graceful, order), s.conns[k].client;
    var will := TeardownWill(s.broker, c, k, graceful);
    SetRests(s.conns, s.conns, k, s.conns[k].(phase := Over));
    if OwnedBy(s.broker, c, k) {
      assert EntryLive(s.conns, c, s.broker.sessions[c]);
      WillLogs(Without(s.broker, c), OwnWill(k), will, order);
      WillMove(s, s', OwnWill(k), will);
    } else {
      QuietMove(s, s');
    }
  }

  lemma WorkOrderly(s: Sys, m: Move)
    requires Sound(s) && Orderly(s) && Can(s, m) && m.Work?
    ensures Orderly(Apply(s, m))
  {
    if NextResult(s.conns[m.k], m.outs).Some? {
      WorkPublishes(s, m);
    } else {
      WorkSuppresses(s, m);
    }
  }

  lemma WorkPublishes(s: Sys, m: Move)
    requires Orderly(s) && Can(s, m) && m.Work? && NextResult(s.conns[m.k], m.outs).Some?
    ensures Orderly(Apply(s, m))
  {
    var conn := s.conns[m.k];
    var p, cause := NextResult(conn, m.outs).value, Message(conn.client, m.k, |conn.results|);
    var call := CallOf(s.broker, Spread(s.broker, conn.client, p, m.order), cause, p);
    MessageLogged(s.broker.log, call, s.conns, conn.Made(Some(p), m.outs));
  }

  /** Logging the next message of a connection along with its result. */
  lemma MessageLogged(log: seq<Call>, call: Call, conns: map<ConnId, Conn>, conn': Conn)
    requires CallsOk(log, conns) && Accounts(log, conns) && call.cause.Message? && call.cause.conn in conns
    requires var conn := conns[call.cause.conn];
             && !conn.phase.Arrived? && !conn.phase.Over? && call.cause.source == conn.client
             && call.cause.index == |conn.results|
             && conn' == conn.(results := conn.results + [Some(call.m)], outs := conn'.outs)
    ensures var conns' := conns[call.cause.conn := conn'];
            CallsOk(log + [call], conns') && Accounts(log + [call], conns')
  {
    var k := call.cause.conn;
    var conns' := conns[k := conn'];
    assert Grows(conns, conns');
    CallsAppend(log, call, conns, conns');
    KeptAppend(conns[k].results, Some(call.m));
    AccountCall(log, conns, k, call, conns');
  }

  lemma WorkSuppresses(s: Sys, m: Move)
    requires Orderly(s) && Can(s, m) && m.Work? && NextResult(s.conns[m.k], m.outs).None?
    ensures Orderly(Apply(s, m))
  {
    var s' := Apply(s, m);
    KeptAppend(s.conns[m.k].results, None);
    assert Grows(s.conns, s'.conns);
    CallsGrow(s.broker.log, s.conns, s'.conns);
    forall j | j in s'.conns ensures Published(s'.broker.log, j) == Kept(s'.conns[j].results) {
      assert Published(s.broker.log, j) == Kept(s.conns[j].results);
    }
  }

  lemma AccountCall(log: seq<Call>, conns: map<ConnId, Conn>, k: ConnId, call: Call, conns': map<ConnId, Conn>)
    requires Accounts(log, conns) && k in conns && IsMessageOf(call, k) && conns'.Keys == conns.Keys
    requires Kept(conns'[k].results) == Kept(conns[k].results) + [call.m]
    requires forall j :: j in conns && j != k ==> conns'[j] == conns[j]
    ensures Accounts(log + [call], conns')
  {
    forall j | j in conns' ensures Published(log + [call], j) == Kept(conns'[j].results) {
      assert Published(log, j) == Kept(conns[j].results);
      PublishedAppend(log, call, j);
    }
  }

  lemma AcceptOrderly(s: Sys, m: Move)
    requires Orderly(s) && Can(s, m) && m.Accept?
    ensures Orderly(Apply(s, m))
  {
    var s', log, k := Apply(s, m), s.broker.log, m.k;
    assert Grows(s.conns, s'.conns);
    CallsGrow(log, s.conns, s'.conns);
    forall a | 0 <= a < |log| ensures !IsMessageOf(log[a], k) {
      assert CallOk(log[a], s.conns);
    }
    PublishedNothing(log, k);
    forall j | j in s'.conns ensures Published(log, j) == Kept(s'.conns[j].results) {
      if j != k {
        assert Published(log, j) == Kept(s.conns[j].results);
      }
    }
  }

  lemma LeftOrderly(s: Sys, k: ConnId, graceful: bool)
    requires Sound(s) && Orderly(s) && k in s.conns && s.conns[k].phase.Serving?
    ensures Orderly(Left(s, k, graceful))
  {
    var conns := Closing(s, k);
    ClosingIsSimilar(s, k);
    SimilarRests(s.conns, conns);
    assert SimilarConn(s.conns[k], conns[k]);
    SetRests(s.conns, conns, k, conns[k].(phase := Draining(graceful)));
    QuietMove(s, Left(s, k, graceful));
  }

  lemma ReceivedOrderly(s: Sys, k: ConnId, p: Packet)
    requires Sound(s) && Orderly(s) && k in s.conns && s.conns[k].phase.Serving?
    ensures Orderly(Received(s, k, p))
  {
    var conn := s.conns[k];
    BrokerSideStep(s.broker, conn.client, k, p);
    SetRests(s.conns, s.conns, k, conn.Sees(Arrives(p)));
    QuietMove(s, Received(s, k, p));
  }

  lemma InboundOrderly(s: Sys, m: Move)
    requires Sound(s) && Orderly(s) && Can(s, m) && m.Inbound?
    ensures Orderly(Apply(s, m))
  {
    ReceivedOrderly(s, m.k, m.p);
    if EndsLoop(m.p) {
      ReceivedSound(s, m.k, m.p);
      LeftOrderly(Received(s, m.k, m.p), m.k, m.p.Disconnect?);
    }
  }

  lemma OtherMoveOrderly(s: Sys, m: Move)
    requires Orderly(s) && Can(s, m) && (m.WriterExits? || m.ConnackSent?)
    ensures Orderly(Apply(s, m))
  {
    if m.ConnackSent? {
      SetRests(s.conns, s.conns, m.k, s.conns[m.k].(phase := Serving));
    }
    QuietMove(s, Apply(s, m));
  }

  lemma MoveOrderly(s: Sys, m: Move)
    requires Sound(s) && Orderly(s) && Can(s, m)
    ensures Orderly(Apply(s, m))
  {
    match m {
      case Accept(_) => AcceptOrderly(s, m);
      case Admit(_, _, _, _, _) => AdmitOrderly(s, m);
      case ConnackFailed(k, order) => ReturnOrderly(s, k, false, order);
      case Inbound(_, _) => InboundOrderly(s, m);
      case Leave(k) => LeftOrderly(s, k, false);
      case Work(_, _, _) => WorkOrderly(s, m);
      case Finish(k, order) => ReturnOrderly(s, k, s.conns[k].phase.graceful, order);
      case _ => OtherMoveOrderly(s, m);
    }
  }

  lemma MoveDelivers(s: Sys, m: Move)
    requires Sound(s) && Delivering(s.broker) && Can(s, m)
    ensures Delivering(Apply(s, m).broker)
  {
    MoveIsOp(s, m);
    RunDelivers(s.broker, BrokerOps(s, m));
  }

  // ---- what the moves of a run gave each connection -------------------------------------------

  function ChainRun(m: Move, k: ConnId): seq<seq<Endpoint>> { if m.Work? && m.k == k then [m.outs] else [] }

  /** What the endpoints did with the messages of `k`, in the order they ran. */
  function Chains(moves: seq<Move>, k: ConnId): seq<seq<Endpoint>> {
    if moves == [] then [] else ChainRun(moves[0], k) + Chains(moves[1..], k)
  }

  function Arrival(m: Move, k: ConnId): seq<Packet> { if m.Inbound? && m.k == k then [m.p] else [] }

  /** The packets the reader of `k` took off its socket. */
  function Arrivals(moves: seq<Move>, k: ConnId): seq<Packet> {
    if moves == [] then [] else Arrival(moves[0], k) + Arrivals(moves[1..], k)
  }

  /** The packets in a trace. */
  function Packets(trace: seq<Event>): seq<Packet> {
    if trace == [] then []
    else
      var last := trace[|trace| - 1];
      Packets(trace[..|trace| - 1]) + (if last.Arrives? then [last.packet] else [])
  }

  lemma PacketsAppend(trace: seq<Event>, e: Event)
    ensures Packets(trace + [e]) == Packets(trace) + (if e.Arrives? then [e.packet] else [])
  {
    assert (trace + [e])[..|trace|] == trace;
  }

  function OutsOf(s: Sys, k: ConnId): seq<seq<Endpoint>> { if k in s.conns then s.conns[k].outs else [] }

  function PacketsOf(s: Sys, k: ConnId): seq<Packet> { if k in s.conns then Packets(s.conns[k].trace) else [] }

  lemma ClosingRecords(s: Sys, j: ConnId, k: ConnId)
    requires k in s.conns
    ensures k in Closing(s, j) && Closing(s, j)[k].outs == s.conns[k].outs
    ensures Packets(Closing(s, j)[k].trace) == Packets(s.conns[k].trace)
  {
    PacketsAppend(s.conns[k].trace, Closes);
  }

  lemma InboundRecords(s: Sys, m: Move, k: ConnId)
    requires Can(s, m) && m.Inbound? && k in s.conns
    ensures OutsOf(Apply(s, m), k) == s.conns[k].outs
    ensures PacketsOf(Apply(s, m), k) == Packets(s.conns[k].trace) + Arrival(m, k)
  {
    var s1 := Received(s, m.k, m.p);
    PacketsAppend(s.conns[k].trace, Arrives(m.p));
    assert PacketsOf(s1, k) == Packets(s.conns[k].trace) + Arrival(m, k);
    if EndsLoop(m.p) {
      ClosingRecords(s1, m.k, k);
    }
  }

  /** What a move adds to the records of one connection. */
  lemma ConnRecords(s: Sys, m: Move, k: ConnId)
    requires Can(s, m) && k in s.conns
    ensures OutsOf(Apply(s, m), k) == s.conns[k].outs + ChainRun(m, k)
    ensures PacketsOf(Apply(s, m), k) == Packets(s.conns[k].trace) + Arrival(m, k)
  {
    match m {
      case Admit(_, c, _, _, _) => if c in s.broker.sessions { ClosingRecords(s, s.broker.sessions[c].conn, k); }
      case Leave(j) => ClosingRecords(s, j, k);
      case Inbound(_, _) => InboundRecords(s, m, k);
      case _ =>
    }
  }

  lemma MoveRecords(s: Sys, m: Move, k: ConnId)
    requires Can(s, m)
    ensures OutsOf(Apply(s, m), k) == OutsOf(s, k) + ChainRun(m, k)
    ensures PacketsOf(Apply(s, m), k) == PacketsOf(s, k) + Arrival(m, k)
  {
    if k in s.conns {
      ConnRecords(s, m, k);
    }
  }

  lemma {:induction false} RunRecords(s: Sys, moves: seq<Move>, k: ConnId)
    requires Possible(s, moves)
    ensures OutsOf(After(s, moves), k) == OutsOf(s, k) + Chains(moves, k)
    ensures PacketsOf(After(s, moves), k) == PacketsOf(s, k) + Arrivals(moves, k)
    decreases |moves|
  {
    if moves != [] {
      var next := Apply(s, moves[0]);
      MoveRecords(s, moves[0], k);
      RunRecords(next, moves[1..], k);
      Regroup(OutsOf(s, k), ChainRun(moves[0], k), Chains(moves[1..], k));
      Regroup(PacketsOf(s, k), Arrival(moves[0], k), Arrivals(moves[1..], k));
    }
  }

  lemma Regroup<T>(a: seq<T>, b: seq<T>, c: seq<T>)
    ensures (a + b) + c == a + (b + c)
  {
  }

  // ---- every run ---------------------------------------------------------------------------

  ghost predicate Good(s: Sys) { Sound(s) && Orderly(s) && Delivering(s.broker) }

  lemma EmptyIsGood()
    ensures Good(EmptySys)
  {
    EmptyIsValid();
  }

  lemma MoveIsGood(s: Sys, m: Move)
    requires Good(s) && Can(s, m)
    ensures Good(Apply(s, m))
  {
    MoveSound(s, m);
    MoveOrderly(s, m);
    MoveDelivers(s, m);
  }

  lemma {:induction false} RunIsGood(s: Sys, moves: seq<Move>)
    requires Good(s) && Possible(s, moves)
    ensures Good(After(s, moves))
    decreases |moves|
  {
    if moves != [] {
      MoveIsGood(s, moves[0]);
      RunIsGood(Apply(s, moves[0]), moves[1..]);
    }
  }

  lemma RunFromStart(moves: seq<Move>)
    requires Possible(EmptySys, moves)
    ensures Good(After(EmptySys, moves))
  {
    EmptyIsGood();
    RunIsGood(EmptySys, moves);
  }

  /** When `handle_server` has returned after registering, whatever else happened,
      no session entry carries its connection id. */
  lemma NoLeak(moves: seq<Move>, k: ConnId, c: ClientId)
    requires Possible(EmptySys, moves)
    requires k in After(EmptySys, moves).conns && After(EmptySys, moves).conns[k].phase.Over?
    ensures !OwnedBy(After(EmptySys, moves).broker, c, k)
  {
    RunFromStart(moves);
    var s := After(EmptySys, moves);
    if c in s.broker.sessions {
      assert EntryLive(s.conns, c, s.broker.sessions[c]);
    }
  }

  /** What the chain makes of messages `ms`, endpoints doing `outs`. */
  function Results(ms: seq<PublishPacket>, outs: seq<seq<Endpoint>>): (r: seq<Option<PublishPacket>>)
    requires |ms| == |outs|
    ensures |r| == |ms| && forall i :: 0 <= i < |r| ==> r[i] == ChainResult(ms[i], outs[i])
  {
    seq(|ms|, i requires 0 <= i < |ms| => ChainResult(ms[i], outs[i]))
  }

  lemma ResultsOfConn(conn: Conn)
    requires ConnOk(conn)
    ensures var handed := AllHands(false, conn.trace);
            && |conn.outs| <= |handed| && conn.results == Results(handed[..|conn.outs|], conn.outs)
            && (conn.phase.Over? ==> |conn.outs| == |handed|)
  {
    ExactlyOnceDelivery(false, conn.trace);
    assert conn.link.handed == AllHands(false, conn.trace);
  }

  /** The records of a connection new in a run are those of the run's moves. */
  lemma NewConnRecords(s: Sys, moves: seq<Move>, k: ConnId)
    requires Possible(s, moves) && k !in s.conns
    ensures OutsOf(After(s, moves), k) == Chains(moves, k)
    ensures PacketsOf(After(s, moves), k) == Arrivals(moves, k)
  {
    RunRecords(s, moves, k);
    assert [] + Chains(moves, k) == Chains(moves, k);
    assert [] + Arrivals(moves, k) == Arrivals(moves, k);
  }

  lemma ResultsOfRun(moves: seq<Move>, k: ConnId)
    requires Possible(EmptySys, moves) && k in After(EmptySys, moves).conns
    ensures var conn := After(EmptySys, moves).conns[k];
            var handed, outs := AllHands(false, conn.trace), Chains(moves, k);
            && Packets(conn.trace) == Arrivals(moves, k)
            && |outs| <= |handed| && conn.results == Results(handed[..|outs|], outs)
            && (conn.phase.Over? ==> |outs| == |handed|)
  {
    RunFromStart(moves);
    NewConnRecords(EmptySys, moves, k);
    ResultsOfConn(After(EmptySys, moves).conns[k]);
  }

  /** A connection's publishes reach the broker in the order its reader handed them
      over: the packets that arrived decide what was handed over, and the broker's
      log has, for this connection, exactly what the chain made of a prefix of that,
      in order, less what it suppressed. Once the connection has returned nothing
      handed over is left. */
  lemma PublishedInOrder(moves: seq<Move>, k: ConnId)
    requires Possible(EmptySys, moves) && k in After(EmptySys, moves).conns
    ensures var s := After(EmptySys, moves);
            var handed, outs := AllHands(false, s.conns[k].trace), Chains(moves, k);
            && Packets(s.conns[k].trace) == Arrivals(moves, k)
            && |outs| <= |handed|
            && Published(s.broker.log, k) == Kept(Results(handed[..|outs|], outs))
            && (s.conns[k].phase.Over? ==> |outs| == |handed|)
  {
    RunFromStart(moves);
    ResultsOfRun(moves, k);
  }

  lemma {:induction false} KeptAll(ms: seq<PublishPacket>, outs: seq<seq<Endpoint>>)
    requires |ms| == |outs| && forall i :: 0 <= i < |outs| ==> outs[i] == []
    ensures Kept(Results(ms, outs)) == ms
  {
    if ms != [] {
      var n := |ms| - 1;
      KeptAll(ms[..n], outs[..n]);
      assert Results(ms, outs)[..n] == Results(ms[..n], outs[..n]);
      assert ChainResult(ms[n], outs[n]) == Some(ms[n]);
    }
  }

  /** With no endpoint matching, what was handed over is published as it is. */
  lemma PublishedUnchanged(moves: seq<Move>, k: ConnId)
    requires Possible(EmptySys, moves) && k in After(EmptySys, moves).conns
    requires forall i :: 0 <= i < |Chains(moves, k)| ==> Chains(moves, k)[i] == []
    ensures var s := After(EmptySys, moves);
            var handed, n := AllHands(false, s.conns[k].trace), |Chains(moves, k)|;
            && n <= |handed| && Published(s.broker.log, k) == handed[..n]
            && (s.conns[k].phase.Over? ==> n == |handed|)
  {
    PublishedInOrder(moves, k);
    var handed := AllHands(false, After(EmptySys, moves).conns[k].trace);
    KeptAll(handed[..|Chains(moves, k)|], Chains(moves, k));
  }

  /** A log entry is what the run says it is: what the chain made of message `index`
      handed over by that connection, or the Will that connection registered. */
  ghost predicate Accounted(call: Call, moves: seq<Move>, s: Sys) {
    && call.cause.conn in s.conns
    && var k, conn := call.cause.conn, s.conns[call.cause.conn];
      if call.cause.Message? then
        var handed, outs, i := AllHands(false, conn.trace), Chains(moves, k), call.cause.index;
        i < |outs| <= |handed| && ChainResult(handed[i], outs[i]) == Some(call.m)
      else
        conn.will.Some? && SaysWill(call.m, conn.will.value)
  }

  /** The log of every run: each entry accounted for, each connection's messages in
      the order handed over and before the Will of its own teardown. */
  lemma OwnWillComesLast(moves: seq<Move>, a: nat, b: nat)
    requires Possible(EmptySys, moves) && a < b < |After(EmptySys, moves).broker.log|
    ensures var s := After(EmptySys, moves);
            && InOrder(s.broker.log[a].cause, s.broker.log[b].cause)
            && Accounted(s.broker.log[a], moves, s) && Accounted(s.broker.log[b], moves, s)
  {
    RunFromStart(moves);
    EntryIsAccounted(moves, a);
    EntryIsAccounted(moves, b);
  }

  lemma EntryIsAccounted(moves: seq<Move>, a: nat)
    requires Possible(EmptySys, moves) && a < |After(EmptySys, moves).broker.log|
    ensures Accounted(After(EmptySys, moves).broker.log[a], moves, After(EmptySys, moves))
  {
    RunFromStart(moves);
    var s := After(EmptySys, moves);
    var call := s.broker.log[a];
    assert CallOk(call, s.conns);
    ResultsOfRun(moves, call.cause.conn);
  }

  ghost predicate CopyOf(item: PublishPacket, m: PublishPacket) {
    exists granted :: CopyAt(item, m, granted)
  }

  /** On every subscriber's queue: the queue is what the logged publishes served it,
      in log order, each publish having served exactly the subscribers it met. So of
      two items, the earlier comes from no later publish, each is a copy of what that
      publish sent, and that is what the chain made of the message handed over, or
      the Will registered. */
  lemma QueuesInOrder(moves: seq<Move>, j: ConnId, a: nat, b: nat)
    requires Possible(EmptySys, moves) && j in After(EmptySys, moves).broker.channels
    requires a <= b < |After(EmptySys, moves).broker.channels[j].queue|
    ensures var s := After(EmptySys, moves);
            var queue, log := s.broker.channels[j].queue, s.broker.log;
            && queue == Flat(log, j)
            && var x, y := Origin(log, j, a), Origin(log, j, b);
              && x <= y < |log| && (x < y ==> InOrder(log[x].cause, log[y].cause))
              && Right(log[x]) && CopyOf(queue[a], log[x].m) && Accounted(log[x], moves, s)
              && Right(log[y]) && CopyOf(queue[b], log[y].m) && Accounted(log[y], moves, s)
  {
    RunFromStart(moves);
    var s := After(EmptySys, moves);
    var log := s.broker.log;
    OriginsInOrder(log, j, a, b);
    ItemIsCopy(s.broker, j, a);
    ItemIsCopy(s.broker, j, b);
    EntryIsAccounted(moves, Origin(log, j, a));
    EntryIsAccounted(moves, Origin(log, j, b));
  }

  lemma ItemIsCopy(st: State, j: ConnId, a: nat)
    requires Delivering(st) && j in st.channels && a < |st.channels[j].queue|
    ensures st.channels[j].queue == Flat(st.log, j) && Origin(st.log, j, a) < |st.log|
    ensures Right(st.log[Origin(st.log, j, a)])
    ensures CopyOf(st.channels[j].queue[a], st.log[Origin(st.log, j, a)].m)
  {
    OriginServes(st.log, j, a);
    var call := st.log[Origin(st.log, j, a)];
    var i :| 0 <= i < |ServedTo(call, j)| && ServedTo(call, j)[i] == Flat(st.log, j)[a];
    ServedAreCopies(call, j, i);
  }
}

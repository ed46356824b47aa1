/** The broker's state and what each of its methods does to it. The state of all
    channels, shared by reference in the program, is one table keyed by
    connection id; the order in which a map is iterated is a parameter. */
module BrokerState {
  import opened Types
  import opened Topic
  import opened Session
  import opened PublishWriter

  type ClientId = Str
  type ConnId = nat
  type Subs = map<Str, map<ClientId, QoS>>

  /** `writerAlive` says whether the writer still takes commands. */
  datatype Channel = Channel(open: bool, writerAlive: bool, queue: seq<PublishPacket>, session: SessionState) {
    function Close(): Channel {
      if open then this.(open := false, session := Abandoned(session)) else this
    }

    /** Hand one copy of `m` to the subscriber behind this channel. */
    function Push(m: PublishPacket, granted: QoS): Channel {
      if m.qos.Min(granted) == AtMostOnce then Enqueue(FanOutCopy(m, granted, None))
      else
        var id := session.NextId();
        this.(session := session.TakeId().Track(id, m)).Enqueue(FanOutCopy(m, granted, Some(id)))
    }

    function Enqueue(copy: PublishPacket): Channel {
      if writerAlive then this.(queue := queue + [copy]) else this
    }
  }

  const FreshChannel := Channel(true, true, [], FreshSession)

  datatype Entry = Entry(conn: ConnId, filters: map<Str, QoS>, will: Option<WillMessage>, clean: bool)

  /** What a publish is for: message number `index` handed over by connection
      `conn`, or the Will of `conn`, taken over or leaving. */
  datatype Cause =
    | Message(source: ClientId, conn: ConnId, index: nat)
    | TakeoverWill(conn: ConnId)
    | OwnWill(conn: ConnId)
  {
    /** The Will goes out under the empty client id. */
    function Source(): ClientId { if Message? then source else [] }

    predicate WillFor(k: ConnId) { !Message? && conn == k }
  }

  /** One publish: what went out, the tree and the holders of client ids it met, the
      channels whose writer was alive, and what it put on each queue. */
  datatype Call = Call(
    cause: Cause, m: PublishPacket, subs: Subs, holders: map<ClientId, ConnId>, alive: set<ConnId>,
    served: map<ConnId, seq<PublishPacket>>)

  /** `log` is history: every publish made, in order. */
  datatype State = State(
    sessions: map<ClientId, Entry>, subs: Subs, channels: map<ConnId, Channel>, log: seq<Call>)

  const EmptyBroker := State(map[], map[], map[], [])

  // ---- the subscription tree ------------------------------------------------------

  function TreeSubscribe(subs: Subs, c: ClientId, f: Str, q: QoS): Subs {
    subs[f := (if f in subs then subs[f] else map[])[c := q]]
  }

  function TreeUnsubscribe(subs: Subs, c: ClientId, f: Str): Subs {
    if f in subs then subs[f := subs[f] - {c}] else subs
  }

  function TreeRemoveClient(subs: Subs, c: ClientId): Subs {
    map f | f in subs :: subs[f] - {c}
  }

  /** A client's subscriptions: what the tree means. */
  function SubsOf(subs: Subs, c: ClientId): map<Str, QoS> {
    map f | f in subs && c in subs[f] :: subs[f][c]
  }

  /** One (client, filter) pair of the tree. */
  datatype Hit = Hit(filter: Str, client: ClientId, qos: QoS)

  predicate IsHit(subs: Subs, topic: Str, h: Hit) {
    && h.filter in subs && h.client in subs[h.filter] && h.qos == subs[h.filter][h.client]
    && LevelsMatch(Split(h.filter), Split(topic))
  }

  ghost predicate NoDup<T(!new)>(s: seq<T>) {
    forall i, j :: 0 <= i < j < |s| ==> s[i] != s[j]
  }

  /** `order` lists the matching pairs once each: what iterating the tree yields. */
  ghost predicate Enumerates(order: seq<Hit>, subs: Subs, topic: Str) {
    NoDup(order) && forall h :: h in order <==> IsHit(subs, topic, h)
  }

  // ---- fan-out --------------------------------------------------------------------

  function Deliver(st: State, source: ClientId, m: PublishPacket, h: Hit): State {
    if h.client == source || h.client !in st.sessions || st.sessions[h.client].conn !in st.channels then st
    else
      var k := st.sessions[h.client].conn;
      st.(channels := st.channels[k := st.channels[k].Push(m, h.qos)])
  }

  function Spread(st: State, source: ClientId, m: PublishPacket, order: seq<Hit>): State
    decreases |order|
  {
    if order == [] then st else Spread(Deliver(st, source, m, order[0]), source, m, order[1..])
  }

  /** What each queue gained. */
  function Gains(before: map<ConnId, Channel>, after: map<ConnId, Channel>): map<ConnId, seq<PublishPacket>> {
    map j | j in before && j in after && |before[j].queue| <= |after[j].queue| :: after[j].queue[|before[j].queue|..]
  }

  /** The entry for a publish that took `st` to `st'`. */
  function CallOf(st: State, st': State, cause: Cause, m: PublishPacket): Call {
    var holders := map c | c in st.sessions :: st.sessions[c].conn;
    var alive := set k | k in st.channels && st.channels[k].writerAlive;
    Call(cause, m, st.subs, holders, alive, Gains(st.channels, st'.channels))
  }

  function PublishTo(st: State, cause: Cause, m: PublishPacket, order: seq<Hit>): State {
    var st' := Spread(st, cause.Source(), m, order);
    st'.(log := st.log + [CallOf(st, st', cause, m)])
  }

  function WillTo(st: State, cause: Cause, will: Option<WillMessage>, order: seq<Hit>): State {
    if will.Some? then PublishTo(st, cause, WillPublish(will.value), order) else st
  }

  ghost predicate WillOrder(order: seq<Hit>, subs: Subs, will: Option<WillMessage>) {
    will.Some? ==> Enumerates(order, subs, will.value.topic)
  }

  // ---- sessions -------------------------------------------------------------------

  function CloseChannel(st: State, k: ConnId): State {
    if k in st.channels then st.(channels := st.channels[k := st.channels[k].Close()]) else st
  }

  predicate Present(st: State, c: ClientId, clean: bool) { !clean && c in st.sessions }

  /** The Will a registration of `c` has to discharge. */
  function DisplacedWill(st: State, c: ClientId): Option<WillMessage> {
    if c in st.sessions then st.sessions[c].will else None
  }

  /** Take the old entry out and end its connection. */
  function Displace(st: State, c: ClientId, order: seq<Hit>): State {
    if c !in st.sessions then st
    else
      var e := st.sessions[c];
      WillTo(CloseChannel(st.(sessions := st.sessions - {c}), e.conn), TakeoverWill(e.conn), e.will, order)
  }

  function Register(st: State, c: ClientId, k: ConnId, will: Option<WillMessage>, clean: bool, order: seq<Hit>): State {
    var st1 := Displace(st, c, order);
    var st2 := if clean then st1.(subs := TreeRemoveClient(st1.subs, c)) else st1;
    st2.(sessions := st2.sessions[c := Entry(k, map[], will, clean)])
  }

  predicate OwnedBy(st: State, c: ClientId, k: ConnId) { c in st.sessions && st.sessions[c].conn == k }

  /** The Will a teardown of `c` by connection `k` has to publish. */
  function TeardownWill(st: State, c: ClientId, k: ConnId, graceful: bool): Option<WillMessage> {
    if OwnedBy(st, c, k) && !graceful then st.sessions[c].will else None
  }

  /** The client's entry and subscriptions are gone. */
  function Without(st: State, c: ClientId): State {
    st.(sessions := st.sessions - {c}, subs := TreeRemoveClient(st.subs, c))
  }

  function Unregister(st: State, c: ClientId, k: ConnId, graceful: bool, order: seq<Hit>): State {
    if !OwnedBy(st, c, k) then st
    else WillTo(Without(st, c), OwnWill(k), TeardownWill(st, c, k, graceful), order)
  }

  // ---- subscriptions --------------------------------------------------------------

  predicate Accepts(tf: TopicFilter) { FilterError(tf.filter).None? }

  function CodeFor(tf: TopicFilter): SubackCode { if Accepts(tf) then Granted(tf.qos) else Failure }

  function SubscribeOne(st: State, c: ClientId, tf: TopicFilter): State
    requires c in st.sessions
  {
    if !Accepts(tf) then st
    else
      var e := st.sessions[c];
      st.(sessions := st.sessions[c := e.(filters := e.filters[tf.filter := tf.qos])],
          subs := TreeSubscribe(st.subs, c, tf.filter, tf.qos))
  }

  function SubscribeAll(st: State, c: ClientId, filters: seq<TopicFilter>): State
    requires c in st.sessions
    decreases |filters|
  {
    if filters == [] then st else SubscribeAll(SubscribeOne(st, c, filters[0]), c, filters[1..])
  }

  function Subscribed(st: State, c: ClientId, k: ConnId, filters: seq<TopicFilter>): State {
    if OwnedBy(st, c, k) then SubscribeAll(st, c, filters) else st
  }

  function UnsubscribeOne(st: State, c: ClientId, f: Str): State
    requires c in st.sessions
  {
    var e := st.sessions[c];
    st.(sessions := st.sessions[c := e.(filters := e.filters - {f})],
        subs := TreeUnsubscribe(st.subs, c, f))
  }

  function UnsubscribeAll(st: State, c: ClientId, topics: seq<Str>): State
    requires c in st.sessions
    decreases |topics|
  {
    if topics == [] then st else UnsubscribeAll(UnsubscribeOne(st, c, topics[0]), c, topics[1..])
  }

  function Unsubscribed(st: State, c: ClientId, k: ConnId, topics: seq<Str>): State {
    if OwnedBy(st, c, k) then UnsubscribeAll(st, c, topics) else st
  }

  // ---- the invariant ----------------------------------------------------------------

  /** Both indexes agree: only clients with a session are in the tree, a session's
      own filter list is contained in the tree, and no two sessions share a
      channel. */
  ghost predicate Valid(st: State) {
    && (forall c :: c !in st.sessions ==> SubsOf(st.subs, c) == map[])
    && (forall c :: c in st.sessions ==> EntryOk(st.sessions[c], SubsOf(st.subs, c), st.channels))
    && (forall c, d :: c in st.sessions && d in st.sessions && st.sessions[c].conn == st.sessions[d].conn ==> c == d)
  }

  ghost predicate EntryOk(e: Entry, own: map<Str, QoS>, channels: map<ConnId, Channel>) {
    e.conn in channels && forall f :: f in e.filters ==> f in own && own[f] == e.filters[f]
  }
}

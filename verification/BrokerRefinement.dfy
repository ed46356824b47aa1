/** The two-index broker implements one map from client to connection and
    subscriptions. */
module BrokerRefinement {
  import opened Types
  import opened Topic
  import opened PublishWriter
  import opened BrokerState
  import opened FanOut

  // ---- the simple broker --------------------------------------------------------

  datatype Client = Client(conn: ConnId, subs: map<Str, QoS>)
  type Spec = map<ClientId, Client>

  function SpecRegister(a: Spec, c: ClientId, k: ConnId, clean: bool): Spec {
    a[c := Client(k, if !clean && c in a then a[c].subs else map[])]
  }

  function SpecUnregister(a: Spec, c: ClientId, k: ConnId): Spec {
    if c in a && a[c].conn == k then a - {c} else a
  }

  function Granting(subs: map<Str, QoS>, filters: seq<TopicFilter>): map<Str, QoS>
    decreases |filters|
  {
    if filters == [] then subs
    else Granting(if Accepts(filters[0]) then subs[filters[0].filter := filters[0].qos] else subs, filters[1..])
  }

  function SpecSubscribe(a: Spec, c: ClientId, k: ConnId, filters: seq<TopicFilter>): Spec {
    if c in a && a[c].conn == k then a[c := Client(k, Granting(a[c].subs, filters))] else a
  }

  function SpecUnsubscribe(a: Spec, c: ClientId, k: ConnId, topics: seq<Str>): Spec {
    if c in a && a[c].conn == k then a[c := Client(k, a[c].subs - (set f | f in topics))] else a
  }

  /** What a broker state stands for. The tree, not the entries, holds the
      subscriptions: a resumed session's entry starts with none listed. */
  function Abs(st: State): Spec {
    map c | c in st.sessions :: Client(st.sessions[c].conn, SubsOf(st.subs, c))
  }

  // ---- operations -----------------------------------------------------------------

  datatype Op =
    | OpAccept(k: ConnId)
    | OpWriterExit(k: ConnId)
    | OpRegister(c: ClientId, k: ConnId, will: Option<WillMessage>, clean: bool, order: seq<Hit>)
    | OpUnregister(c: ClientId, k: ConnId, graceful: bool, order: seq<Hit>)
    | OpSubscribe(c: ClientId, k: ConnId, filters: seq<TopicFilter>)
    | OpUnsubscribe(c: ClientId, k: ConnId, topics: seq<Str>)
    | OpPublish(cause: Cause, m: PublishPacket, order: seq<Hit>)
    | OpClose(k: ConnId)

  function Do(st: State, op: Op): State {
    match op
    case OpAccept(k) => st.(channels := st.channels[k := FreshChannel])
    case OpWriterExit(k) =>
      if k in st.channels then st.(channels := st.channels[k := st.channels[k].(writerAlive := false, open := false)])
      else st
    case OpRegister(c, k, will, clean, order) => Register(st, c, k, will, clean, order)
    case OpUnregister(c, k, graceful, order) => Unregister(st, c, k, graceful, order)
    case OpSubscribe(c, k, filters) => Subscribed(st, c, k, filters)
    case OpUnsubscribe(c, k, topics) => Unsubscribed(st, c, k, topics)
    case OpPublish(cause, m, order) => PublishTo(st, cause, m, order)
    case OpClose(k) => CloseChannel(st, k)
  }

  /** A connection registers its own open channel, and does so once; iteration
      orders are enumerations of the tree. */
  ghost predicate Enabled(st: State, op: Op) {
    match op
    case OpAccept(k) => k !in st.channels
    case OpRegister(c, k, _, _, order) =>
      && k in st.channels
      && (forall d :: d in st.sessions ==> st.sessions[d].conn != k)
      && WillOrder(order, st.subs, DisplacedWill(st, c))
    case OpUnregister(c, k, graceful, order) =>
      WillOrder(order, TreeRemoveClient(st.subs, c), TeardownWill(st, c, k, graceful))
    case OpPublish(cause, m, order) => cause.Message? && Enumerates(order, st.subs, m.topic)
    case _ => true
  }

  function SpecDo(a: Spec, op: Op): Spec {
    match op
    case OpRegister(c, k, _, clean, _) => SpecRegister(a, c, k, clean)
    case OpUnregister(c, k, _, _) => SpecUnregister(a, c, k)
    case OpSubscribe(c, k, filters) => SpecSubscribe(a, c, k, filters)
    case OpUnsubscribe(c, k, topics) => SpecUnsubscribe(a, c, k, topics)
    case _ => a
  }

  // ---- each operation keeps the invariant and implements its simple form --------------

  lemma WillFrame(st: State, cause: Cause, will: Option<WillMessage>, order: seq<Hit>)
    ensures var st' := WillTo(st, cause, will, order);
            st'.sessions == st.sessions && st'.subs == st.subs && st'.channels.Keys == st.channels.Keys
  {
    if will.Some? {
      PublishFrame(st, cause, WillPublish(will.value), order);
    }
  }

  lemma TreeSubscribeMeaning(subs: Subs, c: ClientId, f: Str, q: QoS)
    ensures SubsOf(TreeSubscribe(subs, c, f, q), c) == SubsOf(subs, c)[f := q]
    ensures forall d :: d != c ==> SubsOf(TreeSubscribe(subs, c, f, q), d) == SubsOf(subs, d)
  {
  }

  lemma TreeUnsubscribeMeaning(subs: Subs, c: ClientId, f: Str)
    ensures SubsOf(TreeUnsubscribe(subs, c, f), c) == SubsOf(subs, c) - {f}
    ensures forall d :: d != c ==> SubsOf(TreeUnsubscribe(subs, c, f), d) == SubsOf(subs, d)
  {
  }

  lemma TreeRemoveMeaning(subs: Subs, c: ClientId)
    ensures SubsOf(TreeRemoveClient(subs, c), c) == map[]
    ensures forall d :: d != c ==> SubsOf(TreeRemoveClient(subs, c), d) == SubsOf(subs, d)
  {
  }

  /** Of clients other than `c` nothing changes; `c` now has subscriptions `own`. */
  ghost predicate Changes(st: State, st': State, c: ClientId, conn: ConnId, own: map<Str, QoS>) {
    && st'.sessions.Keys == st.sessions.Keys + {c} && st'.sessions[c].conn == conn
    && (forall d :: d in st.sessions && d != c ==> st'.sessions[d].conn == st.sessions[d].conn)
    && (forall d :: d != c ==> SubsOf(st'.subs, d) == SubsOf(st.subs, d))
    && SubsOf(st'.subs, c) == own
  }

  lemma ChangesMeaning(st: State, st': State, c: ClientId, conn: ConnId, own: map<Str, QoS>)
    requires Changes(st, st', c, conn, own)
    ensures Abs(st') == Abs(st)[c := Client(conn, own)]
  {
    var a, b := Abs(st'), Abs(st)[c := Client(conn, own)];
    assert a.Keys == b.Keys;
    assert forall d :: d in a ==> a[d] == b[d];
  }

  /** Changing one client's entry and subscriptions. */
  lemma SetClient(st: State, st': State, c: ClientId, e: Entry)
    requires Valid(st)
    requires st'.sessions == st.sessions[c := e] && st.channels.Keys <= st'.channels.Keys
    requires forall d :: d != c ==> SubsOf(st'.subs, d) == SubsOf(st.subs, d)
    requires forall d :: d in st.sessions && d != c ==> st.sessions[d].conn != e.conn
    requires EntryOk(e, SubsOf(st'.subs, c), st'.channels)
    ensures Valid(st')
    ensures Changes(st, st', c, e.conn, SubsOf(st'.subs, c))
  {
    forall d | d in st'.sessions ensures EntryOk(st'.sessions[d], SubsOf(st'.subs, d), st'.channels) {
      if d != c {
        assert EntryOk(st.sessions[d], SubsOf(st.subs, d), st.channels);
      }
    }
  }

  lemma DropClient(st: State, st': State, c: ClientId)
    requires Valid(st)
    requires st'.sessions == st.sessions - {c} && st.channels.Keys <= st'.channels.Keys
    requires SubsOf(st'.subs, c) == map[]
    requires forall d :: d != c ==> SubsOf(st'.subs, d) == SubsOf(st.subs, d)
    ensures Valid(st') && Abs(st') == Abs(st) - {c}
  {
    forall d | d in st'.sessions ensures EntryOk(st'.sessions[d], SubsOf(st'.subs, d), st'.channels) {
      assert EntryOk(st.sessions[d], SubsOf(st.subs, d), st.channels);
    }
  }

  /** No other client's session has the channel. */
  ghost predicate Free(st: State, c: ClientId, k: ConnId) {
    forall d :: d in st.sessions && d != c ==> st.sessions[d].conn != k
  }

  /** Registration: the new connection inherits the old subscriptions exactly when
      session-present is reported, and otherwise starts with none. */
  lemma RegisterRefines(st: State, c: ClientId, k: ConnId, will: Option<WillMessage>, clean: bool, order: seq<Hit>)
    requires Valid(st) && k in st.channels && Free(st, c, k)
    ensures var st' := Register(st, c, k, will, clean, order);
            && Valid(st')
            && Abs(st') == SpecRegister(Abs(st), c, k, clean)
            && SubsOf(st'.subs, c) == if Present(st, c, clean) then SubsOf(st.subs, c) else map[]
  {
    RegisterFrame(st, c, k, will, clean, order);
    RegisterInherits(st, c, k, will, clean, order);
    TreeRemoveMeaning(st.subs, c);
    var st' := Register(st, c, k, will, clean, order);
    SetClient(st, st', c, Entry(k, map[], will, clean));
    ChangesMeaning(st, st', c, k, SubsOf(st'.subs, c));
    assert c in st.sessions ==> Abs(st)[c].subs == SubsOf(st.subs, c);
  }

  lemma RegisterFrame(st: State, c: ClientId, k: ConnId, will: Option<WillMessage>, clean: bool, order: seq<Hit>)
    ensures var st' := Register(st, c, k, will, clean, order);
            && st'.sessions == st.sessions[c := Entry(k, map[], will, clean)]
            && st'.subs == (if clean then TreeRemoveClient(st.subs, c) else st.subs)
            && st'.channels.Keys == st.channels.Keys
  {
    if c in st.sessions {
      var e := st.sessions[c];
      WillFrame(CloseChannel(st.(sessions := st.sessions - {c}), e.conn), TakeoverWill(e.conn), e.will, order);
    }
  }

  lemma RegisterInherits(st: State, c: ClientId, k: ConnId, will: Option<WillMessage>, clean: bool, order: seq<Hit>)
    requires Valid(st)
    ensures SubsOf(Register(st, c, k, will, clean, order).subs, c)
         == if Present(st, c, clean) then SubsOf(st.subs, c) else map[]
  {
    RegisterFrame(st, c, k, will, clean, order);
    TreeRemoveMeaning(st.subs, c);
  }

  lemma UnregisterRefines(st: State, c: ClientId, k: ConnId, graceful: bool, order: seq<Hit>)
    requires Valid(st)
    ensures var st' := Unregister(st, c, k, graceful, order);
            Valid(st') && Abs(st') == SpecUnregister(Abs(st), c, k)
  {
    if OwnedBy(st, c, k) {
      WillFrame(Without(st, c), OwnWill(k), TeardownWill(st, c, k, graceful), order);
      TreeRemoveMeaning(st.subs, c);
      DropClient(st, Unregister(st, c, k, graceful, order), c);
    }
  }

  lemma SubscribeOneRefines(st: State, c: ClientId, tf: TopicFilter)
    requires Valid(st) && c in st.sessions
    ensures var st' := SubscribeOne(st, c, tf);
            var own := SubsOf(st.subs, c);
            && Valid(st')
            && Changes(st, st', c, st.sessions[c].conn, if Accepts(tf) then own[tf.filter := tf.qos] else own)
  {
    assert EntryOk(st.sessions[c], SubsOf(st.subs, c), st.channels);
    if Accepts(tf) {
      TreeSubscribeMeaning(st.subs, c, tf.filter, tf.qos);
      SetClient(st, SubscribeOne(st, c, tf), c, SubscribeOne(st, c, tf).sessions[c]);
    }
  }

  lemma {:induction false} SubscribeAllRefines(st: State, c: ClientId, filters: seq<TopicFilter>)
    requires Valid(st) && c in st.sessions
    ensures var st' := SubscribeAll(st, c, filters);
            Valid(st') && Changes(st, st', c, st.sessions[c].conn, Granting(SubsOf(st.subs, c), filters))
    decreases |filters|
  {
    if filters != [] {
      SubscribeOneRefines(st, c, filters[0]);
      SubscribeAllRefines(SubscribeOne(st, c, filters[0]), c, filters[1..]);
    }
  }

  lemma UnsubscribeOneRefines(st: State, c: ClientId, f: Str)
    requires Valid(st) && c in st.sessions
    ensures var st' := UnsubscribeOne(st, c, f);
            Valid(st') && Changes(st, st', c, st.sessions[c].conn, SubsOf(st.subs, c) - {f})
  {
    var st' := UnsubscribeOne(st, c, f);
    assert EntryOk(st.sessions[c], SubsOf(st.subs, c), st.channels);
    TreeUnsubscribeMeaning(st.subs, c, f);
    SetClient(st, st', c, st'.sessions[c]);
  }

  lemma {:induction false} UnsubscribeAllRefines(st: State, c: ClientId, topics: seq<Str>)
    requires Valid(st) && c in st.sessions
    ensures var st' := UnsubscribeAll(st, c, topics);
            Valid(st') && Changes(st, st', c, st.sessions[c].conn, SubsOf(st.subs, c) - (set f | f in topics))
    decreases |topics|
  {
    var own := SubsOf(st.subs, c);
    if topics == [] {
      assert own - (set f | f in topics) == own;
    } else {
      UnsubscribeOneRefines(st, c, topics[0]);
      UnsubscribeAllRefines(UnsubscribeOne(st, c, topics[0]), c, topics[1..]);
      RemoveInTurn(own, topics);
    }
  }

  lemma RemoveInTurn(own: map<Str, QoS>, topics: seq<Str>)
    requires topics != []
    ensures own - {topics[0]} - (set f | f in topics[1..]) == own - (set f | f in topics)
  {
    assert forall f :: f in topics <==> f == topics[0] || f in topics[1..];
  }

  lemma SubscribeRefines(st: State, c: ClientId, k: ConnId, filters: seq<TopicFilter>)
    requires Valid(st)
    ensures Valid(Subscribed(st, c, k, filters))
    ensures Abs(Subscribed(st, c, k, filters)) == SpecSubscribe(Abs(st), c, k, filters)
  {
    if OwnedBy(st, c, k) {
      SubscribeAllRefines(st, c, filters);
      ChangesMeaning(st, SubscribeAll(st, c, filters), c, k, Granting(SubsOf(st.subs, c), filters));
    }
  }

  lemma {:induction false} GrantingElsewhere(own: map<Str, QoS>, filters: seq<TopicFilter>, f: Str)
    requires forall j :: 0 <= j < |filters| && Accepts(filters[j]) ==> filters[j].filter != f
    ensures f in Granting(own, filters) <==> f in own
    ensures f in own ==> Granting(own, filters)[f] == own[f]
    decreases |filters|
  {
    if filters != [] {
      var tf := filters[0];
      GrantingElsewhere(if Accepts(tf) then own[tf.filter := tf.qos] else own, filters[1..], f);
    }
  }

  /** The last grant of a filter stands. */
  lemma {:induction false} GrantingHolds(own: map<Str, QoS>, filters: seq<TopicFilter>, i: nat)
    requires i < |filters| && Accepts(filters[i])
    requires forall j :: i < j < |filters| && Accepts(filters[j]) ==> filters[j].filter != filters[i].filter
    ensures filters[i].filter in Granting(own, filters)
    ensures Granting(own, filters)[filters[i].filter] == filters[i].qos
    decreases |filters|
  {
    var tf := filters[0];
    var next := if Accepts(tf) then own[tf.filter := tf.qos] else own;
    if i == 0 {
      GrantingElsewhere(next, filters[1..], tf.filter);
    } else {
      GrantingHolds(next, filters[1..], i - 1);
    }
  }

  /** What a SUBACK code says: Failure exactly when the filter does not parse, and
      otherwise the QoS the tree now holds for the client on that filter, unless the
      same packet granted the filter again. A filter nobody granted is untouched. */
  lemma SubackSaysWhatTheTreeHolds(st: State, c: ClientId, k: ConnId, filters: seq<TopicFilter>, i: nat)
    requires Valid(st) && OwnedBy(st, c, k) && i < |filters|
    ensures var own, own' := SubsOf(st.subs, c), SubsOf(Subscribed(st, c, k, filters).subs, c);
            var f := filters[i].filter;
            && (CodeFor(filters[i]) == Failure <==> ParsedFilter(f).Err?)
            && (CodeFor(filters[i]).Granted? &&
                (forall j :: i < j < |filters| && ParsedFilter(filters[j].filter).Ok? ==> filters[j].filter != f) ==>
                  f in own' && CodeFor(filters[i]) == Granted(own'[f]))
            && (CodeFor(filters[i]) == Failure ==> (f in own' <==> f in own) && (f in own ==> own'[f] == own[f]))
  {
    SubscribeAllRefines(st, c, filters);
    var own, f := SubsOf(st.subs, c), filters[i].filter;
    if !Accepts(filters[i]) {
      GrantingElsewhere(own, filters, f);
    } else if forall j :: i < j < |filters| && ParsedFilter(filters[j].filter).Ok? ==> filters[j].filter != f {
      GrantingHolds(own, filters, i);
    }
  }

  lemma UnsubscribeRefines(st: State, c: ClientId, k: ConnId, topics: seq<Str>)
    requires Valid(st)
    ensures Valid(Unsubscribed(st, c, k, topics))
    ensures Abs(Unsubscribed(st, c, k, topics)) == SpecUnsubscribe(Abs(st), c, k, topics)
  {
    if OwnedBy(st, c, k) {
      UnsubscribeAllRefines(st, c, topics);
      ChangesMeaning(st, UnsubscribeAll(st, c, topics), c, k, SubsOf(st.subs, c) - (set f | f in topics));
    }
  }

  lemma PublishRefines(st: State, cause: Cause, m: PublishPacket, order: seq<Hit>)
    requires Valid(st)
    ensures Valid(PublishTo(st, cause, m, order)) && Abs(PublishTo(st, cause, m, order)) == Abs(st)
  {
    PublishFrame(st, cause, m, order);
    SameIndexes(st, PublishTo(st, cause, m, order));
  }

  lemma ChannelOpRefines(st: State, op: Op)
    requires Valid(st) && (op.OpAccept? || op.OpWriterExit? || op.OpClose?)
    ensures Valid(Do(st, op)) && Abs(Do(st, op)) == Abs(st)
  {
    SameIndexes(st, Do(st, op));
  }

  /** Every operation keeps the indexes in agreement and implements its simple
      form. */
  lemma StepRefines(st: State, op: Op)
    requires Valid(st) && Enabled(st, op)
    ensures Valid(Do(st, op))
    ensures Abs(Do(st, op)) == SpecDo(Abs(st), op)
  {
    match op {
      case OpRegister(c, k, will, clean, order) => RegisterRefines(st, c, k, will, clean, order);
      case OpUnregister(c, k, graceful, order) => UnregisterRefines(st, c, k, graceful, order);
      case OpSubscribe(c, k, filters) => SubscribeRefines(st, c, k, filters);
      case OpUnsubscribe(c, k, topics) => UnsubscribeRefines(st, c, k, topics);
      case OpPublish(cause, m, order) => PublishRefines(st, cause, m, order);
      case _ => ChannelOpRefines(st, op);
    }
  }

  lemma SameIndexes(st: State, st': State)
    requires Valid(st)
    requires st'.sessions == st.sessions && st'.subs == st.subs && st.channels.Keys <= st'.channels.Keys
    ensures Valid(st') && Abs(st') == Abs(st)
  {
    forall c | c in st'.sessions ensures EntryOk(st'.sessions[c], SubsOf(st'.subs, c), st'.channels) {
      assert EntryOk(st.sessions[c], SubsOf(st.subs, c), st.channels);
    }
  }
}

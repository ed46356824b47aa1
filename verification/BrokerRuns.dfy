/** Safety over every run of broker methods, each taken as one step. */
module BrokerRuns {
  import opened Types
  import opened PublishWriter
  import opened BrokerState
  import opened FanOut
  import opened BrokerRefinement
  import opened CallLog

  function Exec(st: State, ops: seq<Op>): State
    decreases |ops|
  {
    if ops == [] then st else Exec(Do(st, ops[0]), ops[1..])
  }

  ghost predicate Legal(st: State, ops: seq<Op>)
    decreases |ops|
  {
    ops == [] || (Enabled(st, ops[0]) && Legal(Do(st, ops[0]), ops[1..]))
  }

  function SpecExec(a: Spec, ops: seq<Op>): Spec
    decreases |ops|
  {
    if ops == [] then a else SpecExec(SpecDo(a, ops[0]), ops[1..])
  }

  lemma EmptyIsValid()
    ensures Valid(EmptyBroker) && Abs(EmptyBroker) == map[]
  {
  }

  /** Every run of the two-index broker is a run of the one-map broker. */
  lemma {:induction false} RunRefines(st: State, ops: seq<Op>)
    requires Valid(st) && Legal(st, ops)
    ensures Valid(Exec(st, ops))
    ensures Abs(Exec(st, ops)) == SpecExec(Abs(st), ops)
    decreases |ops|
  {
    if ops != [] {
      StepRefines(st, ops[0]);
      RunRefines(Do(st, ops[0]), ops[1..]);
    }
  }

  /** Who holds the name `c` after `ops`, told from the operations alone: the last to
      register it, unless it unregistered. */
  function Holder(ops: seq<Op>, c: ClientId, held: Option<ConnId>): Option<ConnId>
    decreases |ops|
  {
    if ops == [] then held
    else
      var now := match ops[0]
                 case OpRegister(d, k, _, _, _) => if d == c then Some(k) else held
                 case OpUnregister(d, k, _, _) => if d == c && held == Some(k) then None else held
                 case _ => held;
      Holder(ops[1..], c, now)
  }

  lemma {:induction false} SpecHolder(a: Spec, ops: seq<Op>, c: ClientId)
    ensures Holder(ops, c, if c in a then Some(a[c].conn) else None)
         == if c in SpecExec(a, ops) then Some(SpecExec(a, ops)[c].conn) else None
    decreases |ops|
  {
    if ops != [] {
      SpecHolder(SpecDo(a, ops[0]), ops[1..], c);
    }
  }

  /** Over every run, a registration reports session-present exactly when it asks for
      an old session and somebody holds the name, subscriptions or none. */
  lemma PresentExactly(ops: seq<Op>, c: ClientId, clean: bool)
    requires Legal(EmptyBroker, ops)
    ensures Present(Exec(EmptyBroker, ops), c, clean) <==> !clean && Holder(ops, c, None).Some?
  {
    EmptyIsValid();
    RunRefines(EmptyBroker, ops);
    SpecHolder(map[], ops, c);
    assert c in Abs(Exec(EmptyBroker, ops)) <==> c in Exec(EmptyBroker, ops).sessions;
  }

  // ---- takeover --------------------------------------------------------------------

  predicate IsOwn(op: Op, c: ClientId, k: ConnId) {
    (op.OpSubscribe? || op.OpUnsubscribe?) && op.c == c && op.k == k
  }

  /** Subscriptions `own` after the operations in `ops` that connection `k` made
      for client `c`, every other operation ignored. */
  function Replay(own: map<Str, QoS>, ops: seq<Op>, c: ClientId, k: ConnId): map<Str, QoS>
    decreases |ops|
  {
    if ops == [] then own
    else
      var next := if !IsOwn(ops[0], c, k) then own
                  else if ops[0].OpSubscribe? then Granting(own, ops[0].filters)
                  else own - (set f | f in ops[0].topics);
      Replay(next, ops[1..], c, k)
  }

  /** `k` keeps the name `c`: nobody registers it again and `k` does not leave. */
  ghost predicate Keeps(ops: seq<Op>, c: ClientId, k: ConnId) {
    forall i :: 0 <= i < |ops| ==>
      && (ops[i].OpRegister? ==> ops[i].c != c)
      && (ops[i].OpUnregister? ==> !(ops[i].c == c && ops[i].k == k))
  }

  lemma {:induction false} SpecReplays(a: Spec, ops: seq<Op>, c: ClientId, k: ConnId)
    requires c in a && a[c].conn == k && Keeps(ops, c, k)
    ensures c in SpecExec(a, ops)
    ensures SpecExec(a, ops)[c] == Client(k, Replay(a[c].subs, ops, c, k))
    decreases |ops|
  {
    if ops != [] {
      assert Keeps(ops[1..], c, k);
      SpecReplays(SpecDo(a, ops[0]), ops[1..], c, k);
    }
  }

  /** After a registration, whatever other connections do under the same name, a
      client's subscriptions are the inherited set (empty unless session-present)
      plus a replay of its own connection's operations only. */
  lemma TakeoverNonInterference(
    st: State, c: ClientId, k: ConnId, will: Option<WillMessage>, clean: bool, order: seq<Hit>, ops: seq<Op>)
    requires Valid(st) && Legal(st, [OpRegister(c, k, will, clean, order)] + ops)
    requires Keeps(ops, c, k)
    ensures var st' := Exec(st, [OpRegister(c, k, will, clean, order)] + ops);
            && OwnedBy(st', c, k)
            && SubsOf(st'.subs, c) == Replay(if Present(st, c, clean) then SubsOf(st.subs, c) else map[], ops, c, k)
  {
    var op := OpRegister(c, k, will, clean, order);
    assert ([op] + ops)[1..] == ops;
    var mid := Do(st, op);
    StepRefines(st, op);
    RegisterRefines(st, c, k, will, clean, order);
    RunRefines(mid, ops);
    assert Abs(mid)[c] == Client(k, SubsOf(mid.subs, c));
    SpecReplays(Abs(mid), ops, c, k);
    var st' := Exec(mid, ops);
    assert Abs(st')[c] == Client(st'.sessions[c].conn, SubsOf(st'.subs, c));
  }

  /** Closing an open channel drops everything its session held and keeps what is
      queued; closing it again changes nothing. */
  lemma CloseDropsTheSession(ch: Channel)
    ensures var ch' := ch.Close();
            && !ch'.open && ch'.queue == ch.queue && ch'.writerAlive == ch.writerAlive
            && ch'.session.counter == ch.session.counter
            && (ch.open ==> ch'.session.acks.slots == map[] && ch'.session.qos2 == map[] && ch'.session.inflight == map[])
            && ch'.Close() == ch'
  {
  }

  /** A writer that exits closes its channel, which from then on takes no command and
      keeps what it holds. */
  lemma WriterExitCloses(st: State, k: ConnId, copy: PublishPacket)
    requires k in st.channels
    ensures var ch, ch' := st.channels[k], Do(st, OpWriterExit(k)).channels[k];
            && !ch'.open && ch'.Enqueue(copy) == ch' && ch'.queue == ch.queue && ch'.session == ch.session
  {
  }

  lemma WillChannel(st: State, cause: Cause, will: Option<WillMessage>, order: seq<Hit>, k: ConnId)
    requires k in st.channels
    ensures var st' := WillTo(st, cause, will, order);
            k in st'.channels && st'.channels[k].open == st.channels[k].open
  {
    if will.Some? {
      var m := WillPublish(will.value);
      ChannelAfter(st, cause, m, order, k);
      PushAllCopies(st.channels[k], m, Grants(HitsOn(st.sessions, cause.Source(), order, k)));
    }
  }

  lemma {:induction false} SubscribeKeepsChannels(st: State, c: ClientId, filters: seq<TopicFilter>)
    requires c in st.sessions
    ensures var st' := SubscribeAll(st, c, filters); st'.channels == st.channels && st'.log == st.log
    decreases |filters|
  {
    if filters != [] {
      SubscribeKeepsChannels(SubscribeOne(st, c, filters[0]), c, filters[1..]);
    }
  }

  lemma {:induction false} UnsubscribeKeepsChannels(st: State, c: ClientId, topics: seq<Str>)
    requires c in st.sessions
    ensures var st' := UnsubscribeAll(st, c, topics); st'.channels == st.channels && st'.log == st.log
    decreases |topics|
  {
    if topics != [] {
      UnsubscribeKeepsChannels(UnsubscribeOne(st, c, topics[0]), c, topics[1..]);
    }
  }

  /** No operation opens a closed channel again. */
  lemma StaysClosed(st: State, op: Op, k: ConnId)
    requires Enabled(st, op) && k in st.channels && !st.channels[k].open
    ensures k in Do(st, op).channels && !Do(st, op).channels[k].open
  {
    match op {
      case OpRegister(c, _, _, _, order) => DisplaceKeepsClosed(st, c, order, k);
      case OpUnregister(c, j, graceful, order) =>
        WillChannel(Without(st, c), OwnWill(j), TeardownWill(st, c, j, graceful), order, k);
      case OpSubscribe(c, j, filters) => if OwnedBy(st, c, j) { SubscribeKeepsChannels(st, c, filters); }
      case OpUnsubscribe(c, j, topics) => if OwnedBy(st, c, j) { UnsubscribeKeepsChannels(st, c, topics); }
      case OpPublish(cause, m, order) =>
        ChannelAfter(st, cause, m, order, k);
        PushAllCopies(st.channels[k], m, Grants(HitsOn(st.sessions, cause.Source(), order, k)));
      case _ =>
    }
  }

  lemma DisplaceKeepsClosed(st: State, c: ClientId, order: seq<Hit>, k: ConnId)
    requires k in st.channels
    requires !st.channels[k].open || OwnedBy(st, c, k)
    ensures k in Displace(st, c, order).channels && !Displace(st, c, order).channels[k].open
  {
    if c in st.sessions {
      var e := st.sessions[c];
      WillChannel(CloseChannel(st.(sessions := st.sessions - {c}), e.conn), TakeoverWill(e.conn), e.will, order, k);
    }
  }

  lemma {:induction false} RunStaysClosed(st: State, ops: seq<Op>, k: ConnId)
    requires Legal(st, ops) && k in st.channels && !st.channels[k].open
    ensures k in Exec(st, ops).channels && !Exec(st, ops).channels[k].open
    decreases |ops|
  {
    if ops != [] {
      StaysClosed(st, ops[0], k);
      RunStaysClosed(Do(st, ops[0]), ops[1..], k);
    }
  }

  /** A connection displaced by a takeover is closed, from then on. */
  lemma DisplacedIsClosed(
    st: State, c: ClientId, k: ConnId, will: Option<WillMessage>, clean: bool, order: seq<Hit>, ops: seq<Op>)
    requires Valid(st) && Legal(st, [OpRegister(c, k, will, clean, order)] + ops)
    requires c in st.sessions
    ensures var st' := Exec(st, [OpRegister(c, k, will, clean, order)] + ops);
            var was := st.sessions[c].conn;
            was in st'.channels && !st'.channels[was].open
  {
    var op := OpRegister(c, k, will, clean, order);
    assert ([op] + ops)[1..] == ops;
    assert EntryOk(st.sessions[c], SubsOf(st.subs, c), st.channels);
    DisplaceKeepsClosed(st, c, order, st.sessions[c].conn);
    RunStaysClosed(Do(st, op), ops, st.sessions[c].conn);
  }

  // ---- delivery --------------------------------------------------------------------

  lemma RegisterDelivers(st: State, c: ClientId, k: ConnId, will: Option<WillMessage>, clean: bool, order: seq<Hit>)
    requires Valid(st) && Delivering(st) && WillOrder(order, st.subs, DisplacedWill(st, c))
    ensures Delivering(Register(st, c, k, will, clean, order))
  {
    ValidIsWired(st);
    if c in st.sessions {
      var e := st.sessions[c];
      var mid := CloseChannel(st.(sessions := st.sessions - {c}), e.conn);
      SameQueuesDeliver(st, mid);
      WillDelivers(mid, TakeoverWill(e.conn), e.will, order);
    }
    SameQueuesDeliver(Displace(st, c, order), Register(st, c, k, will, clean, order));
  }

  lemma UnregisterDelivers(st: State, c: ClientId, k: ConnId, graceful: bool, order: seq<Hit>)
    requires Valid(st) && Delivering(st)
    requires WillOrder(order, TreeRemoveClient(st.subs, c), TeardownWill(st, c, k, graceful))
    ensures Delivering(Unregister(st, c, k, graceful, order))
  {
    ValidIsWired(st);
    if OwnedBy(st, c, k) {
      SameQueuesDeliver(st, Without(st, c));
      WillDelivers(Without(st, c), OwnWill(k), TeardownWill(st, c, k, graceful), order);
    }
  }

  lemma AcceptDelivers(st: State, k: ConnId)
    requires Delivering(st) && k !in st.channels
    ensures Delivering(Do(st, OpAccept(k)))
  {
    FlatNothing(st.log, k);
  }

  lemma SubscriptionOpDelivers(st: State, op: Op)
    requires Delivering(st) && (op.OpSubscribe? || op.OpUnsubscribe?)
    ensures Delivering(Do(st, op))
  {
    if op.OpSubscribe? && OwnedBy(st, op.c, op.k) {
      SubscribeKeepsChannels(st, op.c, op.filters);
    } else if op.OpUnsubscribe? && OwnedBy(st, op.c, op.k) {
      UnsubscribeKeepsChannels(st, op.c, op.topics);
    }
  }

  lemma ChannelOpDelivers(st: State, op: Op)
    requires Delivering(st) && (op.OpWriterExit? || op.OpClose?)
    ensures Delivering(Do(st, op))
  {
    ChannelOpKeepsQueues(st, op);
    SameQueuesDeliver(st, Do(st, op));
  }

  lemma ChannelOpKeepsQueues(st: State, op: Op)
    requires op.OpWriterExit? || op.OpClose?
    ensures var st' := Do(st, op);
            && st'.log == st.log && st'.channels.Keys == st.channels.Keys
            && forall j :: j in st.channels ==> st'.channels[j].queue == st.channels[j].queue
  {
  }

  /** Every operation leaves each queue equal to what the log says was put there. */
  lemma StepDelivers(st: State, op: Op)
    requires Valid(st) && Delivering(st) && Enabled(st, op)
    ensures Delivering(Do(st, op))
  {
    match op {
      case OpAccept(k) => AcceptDelivers(st, k);
      case OpRegister(c, k, will, clean, order) => RegisterDelivers(st, c, k, will, clean, order);
      case OpUnregister(c, k, graceful, order) => UnregisterDelivers(st, c, k, graceful, order);
      case OpPublish(cause, m, order) =>
        ValidIsWired(st);
        PublishDelivers(st, cause, m, order);
      case OpSubscribe(_, _, _) => SubscriptionOpDelivers(st, op);
      case OpUnsubscribe(_, _, _) => SubscriptionOpDelivers(st, op);
      case _ => ChannelOpDelivers(st, op);
    }
  }

  lemma {:induction false} RunDelivers(st: State, ops: seq<Op>)
    requires Valid(st) && Delivering(st) && Legal(st, ops)
    ensures Delivering(Exec(st, ops))
    decreases |ops|
  {
    if ops != [] {
      StepRefines(st, ops[0]);
      StepDelivers(st, ops[0]);
      RunDelivers(Do(st, ops[0]), ops[1..]);
    }
  }

  /** Over every run a subscriber's queue is the concatenation of what each publish
      served it, and each publish, Wills included, served every live holder but its
      source one copy per matching filter and nobody else. */
  lemma DeliveryAccounting(ops: seq<Op>, j: ConnId, a: nat)
    requires Legal(EmptyBroker, ops)
    ensures var st := Exec(EmptyBroker, ops);
            && (j in st.channels ==> st.channels[j].queue == Flat(st.log, j))
            && (a < |st.log| ==> Right(st.log[a]))
  {
    EmptyIsValid();
    RunDelivers(EmptyBroker, ops);
  }

  // ---- Wills -----------------------------------------------------------------------

  /** How a connection's entry left the table. */
  datatype End = ByTakeover | ByTeardown(graceful: bool)

  /** A run with its books: the Will each connection registered and how its entry
      ended. What was published is the broker's own log. */
  datatype Books = Books(st: State, wills: map<ConnId, Option<WillMessage>>, ended: map<ConnId, End>)

  const NoBooks := Books(EmptyBroker, map[], map[])

  function Book(b: Books, op: Op): Books {
    match op
    case OpRegister(c, k, will, _, _) =>
      var ended := if c in b.st.sessions then b.ended[b.st.sessions[c].conn := ByTakeover] else b.ended;
      Books(Do(b.st, op), b.wills[k := will], ended)
    case OpUnregister(c, k, graceful, _) =>
      b.(st := Do(b.st, op), ended := if OwnedBy(b.st, c, k) then b.ended[k := ByTeardown(graceful)] else b.ended)
    case _ => b.(st := Do(b.st, op))
  }

  /** Besides being enabled, a connection registers at most once in its life. */
  ghost predicate Bookable(b: Books, op: Op) {
    Enabled(b.st, op) && (op.OpRegister? ==> op.k !in b.wills)
  }

  function BookAll(b: Books, ops: seq<Op>): Books
    decreases |ops|
  {
    if ops == [] then b else BookAll(Book(b, ops[0]), ops[1..])
  }

  ghost predicate AllBookable(b: Books, ops: seq<Op>)
    decreases |ops|
  {
    ops == [] || (Bookable(b, ops[0]) && AllBookable(Book(b, ops[0]), ops[1..]))
  }

  /** How often the log has the Will of `k`. */
  function WillCount(log: seq<Call>, k: ConnId): nat {
    if log == [] then 0
    else WillCount(log[..|log| - 1], k) + (if log[|log| - 1].cause.WillFor(k) then 1 else 0)
  }

  lemma WillCountAppend(log: seq<Call>, call: Call, k: ConnId)
    ensures WillCount(log + [call], k) == WillCount(log, k) + (if call.cause.WillFor(k) then 1 else 0)
  {
    assert (log + [call])[..|log|] == log;
  }

  /** Wills owed: one for each entry that had one and did not leave gracefully. */
  function Owing(wills: map<ConnId, Option<WillMessage>>, ended: map<ConnId, End>, k: ConnId): nat {
    if k in ended && k in wills && wills[k].Some? && ended[k] != ByTeardown(true) then 1 else 0
  }

  /** Only the Will a connection registered goes out as its Will. */
  ghost predicate Genuine(call: Call, wills: map<ConnId, Option<WillMessage>>) {
    call.cause.Message? ||
    (call.cause.conn in wills && wills[call.cause.conn].Some? && SaysWill(call.m, wills[call.cause.conn].value))
  }

  ghost predicate Settled(log: seq<Call>, wills: map<ConnId, Option<WillMessage>>, ended: map<ConnId, End>) {
    && (forall k :: WillCount(log, k) == Owing(wills, ended, k))
    && (forall a :: 0 <= a < |log| ==> Genuine(log[a], wills))
  }

  ghost predicate Balanced(b: Books) {
    && Valid(b.st)
    && (forall c :: c in b.st.sessions ==> Live(b, b.st.sessions[c]))
    && (forall k :: k in b.wills && k !in b.ended ==> HasEntry(b.st, k))
    && b.ended.Keys <= b.wills.Keys
    && Settled(b.st.log, b.wills, b.ended)
  }

  /** An entry in the table belongs to a connection that registered and has not
      ended, and carries the Will it registered. */
  ghost predicate Live(b: Books, e: Entry) {
    e.conn in b.wills && e.conn !in b.ended && b.wills[e.conn] == e.will
  }

  ghost predicate HasEntry(st: State, k: ConnId) {
    exists c :: OwnedBy(st, c, k)
  }

  // What one step of the books does to the count.

  /** The Will, if any, is logged under its cause. */
  ghost predicate Logs(log: seq<Call>, log': seq<Call>, cause: Cause, will: Option<WillMessage>) {
    if will.None? then log' == log
    else
      exists call :: log' == log + [call] && call.cause == cause && SaysWill(call.m, will.value)
  }

  lemma WillLogs(st: State, cause: Cause, will: Option<WillMessage>, order: seq<Hit>)
    ensures Logs(st.log, WillTo(st, cause, will, order).log, cause, will)
  {
  }

  lemma RegisterLogs(st: State, c: ClientId, k: ConnId, will: Option<WillMessage>, clean: bool, order: seq<Hit>)
    ensures var st' := Register(st, c, k, will, clean, order);
            if c in st.sessions then Logs(st.log, st'.log, TakeoverWill(st.sessions[c].conn), st.sessions[c].will)
            else st'.log == st.log
  {
    if c in st.sessions {
      var e := st.sessions[c];
      WillLogs(CloseChannel(st.(sessions := st.sessions - {c}), e.conn), TakeoverWill(e.conn), e.will, order);
    }
  }

  lemma EndSettles(log: seq<Call>, log': seq<Call>, wills: map<ConnId, Option<WillMessage>>, ended: map<ConnId, End>,
                   cause: Cause, will: Option<WillMessage>, end: End)
    requires Settled(log, wills, ended) && !cause.Message? && cause.conn in wills && cause.conn !in ended
    requires will == if end == ByTeardown(true) then None else wills[cause.conn]
    requires Logs(log, log', cause, will)
    ensures Settled(log', wills, ended[cause.conn := end])
  {
    var ended' := ended[cause.conn := end];
    if will.Some? {
      var call :| log' == log + [call] && call.cause == cause && SaysWill(call.m, will.value);
      forall j ensures WillCount(log', j) == Owing(wills, ended', j) {
        WillCountAppend(log, call, j);
        assert WillCount(log, j) == Owing(wills, ended, j);
      }
    } else {
      forall j ensures WillCount(log', j) == Owing(wills, ended', j) {
        assert WillCount(log, j) == Owing(wills, ended, j);
      }
    }
  }

  lemma RegisteringSettles(log: seq<Call>, wills: map<ConnId, Option<WillMessage>>, ended: map<ConnId, End>,
                           k: ConnId, will: Option<WillMessage>)
    requires Settled(log, wills, ended) && k !in wills && k !in ended
    ensures Settled(log, wills[k := will], ended)
  {
    var wills' := wills[k := will];
    forall j ensures WillCount(log, j) == Owing(wills', ended, j) {
      assert WillCount(log, j) == Owing(wills, ended, j);
    }
    forall a | 0 <= a < |log| ensures Genuine(log[a], wills') {
      assert Genuine(log[a], wills);
    }
  }

  lemma MessageSettles(log: seq<Call>, call: Call, wills: map<ConnId, Option<WillMessage>>, ended: map<ConnId, End>)
    requires Settled(log, wills, ended) && call.cause.Message?
    ensures Settled(log + [call], wills, ended)
  {
    forall j ensures WillCount(log + [call], j) == Owing(wills, ended, j) {
      WillCountAppend(log, call, j);
      assert WillCount(log, j) == Owing(wills, ended, j);
    }
  }

  lemma BookKeepsBalance(b: Books, op: Op)
    requires Balanced(b) && Bookable(b, op)
    ensures Balanced(Book(b, op))
  {
    StepRefines(b.st, op);
    match op {
      case OpRegister(_, _, _, _, _) => RegisterBalances(b, op);
      case OpUnregister(_, _, _, _) => UnregisterBalances(b, op);
      case _ => SameEntries(b, op);
    }
  }

  lemma SameEntries(b: Books, op: Op)
    requires Balanced(b) && Bookable(b, op) && !op.OpRegister? && !op.OpUnregister?
    requires Valid(Do(b.st, op))
    ensures Balanced(Book(b, op))
  {
    var b' := Book(b, op);
    EntriesStay(b.st, op);
    forall c | c in b'.st.sessions ensures Live(b', b'.st.sessions[c]) {
      assert Live(b, b.st.sessions[c]);
    }
    forall k | k in b'.wills && k !in b'.ended ensures HasEntry(b'.st, k) {
      var c :| OwnedBy(b.st, c, k);
      assert OwnedBy(b'.st, c, k);
    }
    OtherOpsLog(b.st, op);
    if op.OpPublish? {
      MessageSettles(b.st.log, b'.st.log[|b.st.log|], b.wills, b.ended);
    }
  }

  lemma OtherOpsLog(st: State, op: Op)
    requires !op.OpRegister? && !op.OpUnregister?
    ensures var log' := Do(st, op).log;
            if op.OpPublish? then |log'| == |st.log| + 1 && log' == st.log + [log'[|st.log|]]
              && log'[|st.log|].cause == op.cause
            else log' == st.log
  {
    match op {
      case OpSubscribe(c, k, filters) => if OwnedBy(st, c, k) { SubscribeKeepsChannels(st, c, filters); }
      case OpUnsubscribe(c, k, topics) => if OwnedBy(st, c, k) { UnsubscribeKeepsChannels(st, c, topics); }
      case _ =>
    }
  }

  /** Other operations leave every entry's connection and Will as they were. */
  lemma EntriesStay(st: State, op: Op)
    requires !op.OpRegister? && !op.OpUnregister?
    ensures var st' := Do(st, op);
            && st'.sessions.Keys == st.sessions.Keys
            && forall c :: c in st.sessions ==>
                 st'.sessions[c].conn == st.sessions[c].conn && st'.sessions[c].will == st.sessions[c].will
  {
    match op {
      case OpSubscribe(c, k, filters) => if OwnedBy(st, c, k) { SubscribeKeepsEntries(st, c, filters); }
      case OpUnsubscribe(c, k, topics) => if OwnedBy(st, c, k) { UnsubscribeKeepsEntries(st, c, topics); }
      case OpPublish(cause, m, order) => PublishFrame(st, cause, m, order);
      case _ =>
    }
  }

  lemma {:induction false} SubscribeKeepsEntries(st: State, c: ClientId, filters: seq<TopicFilter>)
    requires c in st.sessions
    ensures var st' := SubscribeAll(st, c, filters);
            && st'.sessions.Keys == st.sessions.Keys
            && forall d :: d in st.sessions ==>
                 st'.sessions[d].conn == st.sessions[d].conn && st'.sessions[d].will == st.sessions[d].will
    decreases |filters|
  {
    if filters != [] {
      SubscribeKeepsEntries(SubscribeOne(st, c, filters[0]), c, filters[1..]);
    }
  }

  lemma {:induction false} UnsubscribeKeepsEntries(st: State, c: ClientId, topics: seq<Str>)
    requires c in st.sessions
    ensures var st' := UnsubscribeAll(st, c, topics);
            && st'.sessions.Keys == st.sessions.Keys
            && forall d :: d in st.sessions ==>
                 st'.sessions[d].conn == st.sessions[d].conn && st'.sessions[d].will == st.sessions[d].will
    decreases |topics|
  {
    if topics != [] {
      UnsubscribeKeepsEntries(UnsubscribeOne(st, c, topics[0]), c, topics[1..]);
    }
  }

  lemma RegisterBalances(b: Books, op: Op)
    requires Balanced(b) && Bookable(b, op) && op.OpRegister? && Valid(Do(b.st, op))
    ensures Balanced(Book(b, op))
  {
    RegisterFrame(b.st, op.c, op.k, op.will, op.clean, op.order);
    RegisterKeepsLive(b, op);
    RegisterSettles(b, op);
  }

  lemma RegisterKeepsLive(b: Books, op: Op)
    requires Balanced(b) && Bookable(b, op) && op.OpRegister?
    requires Do(b.st, op).sessions == b.st.sessions[op.c := Entry(op.k, map[], op.will, op.clean)]
    ensures forall d :: d in Book(b, op).st.sessions ==> Live(Book(b, op), Book(b, op).st.sessions[d])
    ensures forall k :: k in Book(b, op).wills && k !in Book(b, op).ended ==> HasEntry(Book(b, op).st, k)
  {
    var b' := Book(b, op);
    forall d | d in b'.st.sessions ensures Live(b', b'.st.sessions[d]) {
      if d != op.c {
        assert Live(b, b.st.sessions[d]);
      }
    }
    forall k | k in b'.wills && k !in b'.ended ensures HasEntry(b'.st, k) {
      if k == op.k {
        assert OwnedBy(b'.st, op.c, k);
      } else {
        var c :| OwnedBy(b.st, c, k);
        assert OwnedBy(b'.st, c, k);
      }
    }
  }

  lemma RegisterSettles(b: Books, op: Op)
    requires Balanced(b) && Bookable(b, op) && op.OpRegister?
    ensures Settled(Book(b, op).st.log, Book(b, op).wills, Book(b, op).ended)
    ensures Book(b, op).ended.Keys <= Book(b, op).wills.Keys
  {
    RegisterLogs(b.st, op.c, op.k, op.will, op.clean, op.order);
    var log' := Do(b.st, op).log;
    if op.c in b.st.sessions {
      var e := b.st.sessions[op.c];
      assert Live(b, e);
      EndSettles(b.st.log, log', b.wills, b.ended, TakeoverWill(e.conn), e.will, ByTakeover);
      RegisteringSettles(log', b.wills, b.ended[e.conn := ByTakeover], op.k, op.will);
    } else {
      RegisteringSettles(log', b.wills, b.ended, op.k, op.will);
    }
  }

  lemma UnregisterBalances(b: Books, op: Op)
    requires Balanced(b) && Bookable(b, op) && op.OpUnregister? && Valid(Do(b.st, op))
    ensures Balanced(Book(b, op))
  {
    var b', c, k := Book(b, op), op.c, op.k;
    if OwnedBy(b.st, c, k) {
      var will := TeardownWill(b.st, c, k, op.graceful);
      assert Live(b, b.st.sessions[c]);
      WillFrame(Without(b.st, c), OwnWill(k), will, op.order);
      WillLogs(Without(b.st, c), OwnWill(k), will, op.order);
      EndSettles(b.st.log, b'.st.log, b.wills, b.ended, OwnWill(k), will, ByTeardown(op.graceful));
    }
    UnregisterKeepsLive(b, op);
  }

  lemma UnregisterKeepsLive(b: Books, op: Op)
    requires Balanced(b) && op.OpUnregister?
    ensures forall d :: d in Book(b, op).st.sessions ==> Live(Book(b, op), Book(b, op).st.sessions[d])
    ensures forall k :: k in Book(b, op).wills && k !in Book(b, op).ended ==> HasEntry(Book(b, op).st, k)
  {
    var b' := Book(b, op);
    if OwnedBy(b.st, op.c, op.k) {
      WillFrame(Without(b.st, op.c), OwnWill(op.k), TeardownWill(b.st, op.c, op.k, op.graceful), op.order);
    }
    forall d | d in b'.st.sessions ensures Live(b', b'.st.sessions[d]) {
      assert Live(b, b.st.sessions[d]);
    }
    forall k | k in b'.wills && k !in b'.ended ensures HasEntry(b'.st, k) {
      var c :| OwnedBy(b.st, c, k);
      assert OwnedBy(b'.st, c, k);
    }
  }

  lemma {:induction false} RunKeepsBalance(b: Books, ops: seq<Op>)
    requires Balanced(b) && AllBookable(b, ops)
    ensures Balanced(BookAll(b, ops))
    decreases |ops|
  {
    if ops != [] {
      BookKeepsBalance(b, ops[0]);
      RunKeepsBalance(Book(b, ops[0]), ops[1..]);
    }
  }

  /** Over every run the broker publishes a registered Will exactly once if its entry
      was taken over or torn down without grace, and never otherwise; what goes out
      is the Will registered; and a connection has ended exactly when it registered
      and has no entry any more. */
  lemma WillAccounting(ops: seq<Op>, k: ConnId)
    requires AllBookable(NoBooks, ops)
    ensures var b := BookAll(NoBooks, ops);
            && WillCount(b.st.log, k) ==
                 (if k in b.ended && k in b.wills && b.wills[k].Some? && b.ended[k] != ByTeardown(true) then 1 else 0)
            && (forall a :: 0 <= a < |b.st.log| && b.st.log[a].cause.WillFor(k) ==>
                  k in b.wills && b.wills[k].Some? && SaysWill(b.st.log[a].m, b.wills[k].value))
            && (k in b.ended <==> k in b.wills && !HasEntry(b.st, k))
  {
    EmptyIsValid();
    RunKeepsBalance(NoBooks, ops);
    var b := BookAll(NoBooks, ops);
    forall a | 0 <= a < |b.st.log| && b.st.log[a].cause.WillFor(k)
      ensures k in b.wills && b.wills[k].Some? && SaysWill(b.st.log[a].m, b.wills[k].value)
    {
      assert Genuine(b.st.log[a], b.wills);
    }
    if HasEntry(b.st, k) {
      var c :| OwnedBy(b.st, c, k);
      assert Live(b, b.st.sessions[c]);
    }
  }

  /** A Will never lands on the channel it left behind, nor on the one that
      replaces it. */
  lemma WillNotToItsOwner(st: State, c: ClientId, k: ConnId, will: Option<WillMessage>, clean: bool, order: seq<Hit>)
    requires Valid(st) && Enabled(st, OpRegister(c, k, will, clean, order)) && c in st.sessions
    ensures var st' := Register(st, c, k, will, clean, order);
            var was := st.sessions[c].conn;
            && was in st'.channels && st'.channels[was] == st.channels[was].Close()
            && k in st'.channels && st'.channels[k] == st.channels[k]
  {
    var e := st.sessions[c];
    assert EntryOk(e, SubsOf(st.subs, c), st.channels);
    var mid := CloseChannel(st.(sessions := st.sessions - {c}), e.conn);
    if e.will.Some? {
      UnheldChannel(mid, TakeoverWill(e.conn), WillPublish(e.will.value), order, e.conn);
      UnheldChannel(mid, TakeoverWill(e.conn), WillPublish(e.will.value), order, k);
    }
  }

  lemma TeardownWillNotToItsOwner(st: State, c: ClientId, k: ConnId, graceful: bool, order: seq<Hit>)
    requires Valid(st) && OwnedBy(st, c, k)
    ensures var st' := Unregister(st, c, k, graceful, order);
            k in st'.channels && st'.channels[k] == st.channels[k]
  {
    assert EntryOk(st.sessions[c], SubsOf(st.subs, c), st.channels);
    if TeardownWill(st, c, k, graceful).Some? {
      UnheldChannel(Without(st, c), OwnWill(k), WillPublish(st.sessions[c].will.value), order, k);
    }
  }

  /** While a takeover publishes, the old entry is out and its subscriptions are still
      in the tree: every other subscriber gets one copy of the displaced Will per
      matching filter of its own. */
  lemma TakeoverWillReaches(
    st: State, c: ClientId, k: ConnId, will: Option<WillMessage>, clean: bool, order: seq<Hit>, d: ClientId)
    requires Valid(st) && WillOrder(order, st.subs, DisplacedWill(st, c)) && DisplacedWill(st, c).Some?
    requires d in st.sessions && d != c && d != []
    ensures var j := st.sessions[d].conn;
            var st' := Register(st, c, k, will, clean, order);
            && j in st.channels && j in st'.channels && st.channels[j].queue <= st'.channels[j].queue
            && (st.channels[j].writerAlive ==>
                  ServesWill(st'.channels[j].queue[|st.channels[j].queue|..], SubsOf(st.subs, d),
                             st.sessions[c].will.value))
  {
    ValidIsWired(st);
    var e := st.sessions[c];
    var mid := CloseChannel(st.(sessions := st.sessions - {c}), e.conn);
    var m := WillPublish(e.will.value);
    FanOutExactly(mid, TakeoverWill(e.conn), m, order, d);
    var j := st.sessions[d].conn;
    if st.channels[j].writerAlive {
      var st' := Register(st, c, k, will, clean, order);
      WillIsServed(st'.channels[j].queue[|st.channels[j].queue|..], SubsOf(st.subs, d), m, e.will.value);
    }
  }

  /** And likewise for the Will of a teardown. */
  lemma TeardownWillReaches(st: State, c: ClientId, k: ConnId, graceful: bool, order: seq<Hit>, d: ClientId)
    requires Valid(st) && WillOrder(order, TreeRemoveClient(st.subs, c), TeardownWill(st, c, k, graceful))
    requires TeardownWill(st, c, k, graceful).Some? && d in st.sessions && d != c && d != []
    ensures var j := st.sessions[d].conn;
            var st' := Unregister(st, c, k, graceful, order);
            && j in st.channels && j in st'.channels && st.channels[j].queue <= st'.channels[j].queue
            && (st.channels[j].writerAlive ==>
                  ServesWill(st'.channels[j].queue[|st.channels[j].queue|..], SubsOf(st.subs, d),
                             st.sessions[c].will.value))
  {
    ValidIsWired(st);
    TreeRemoveMeaning(st.subs, c);
    var w := st.sessions[c].will.value;
    FanOutExactly(Without(st, c), OwnWill(k), WillPublish(w), order, d);
    var j := st.sessions[d].conn;
    if st.channels[j].writerAlive {
      var st' := Unregister(st, c, k, graceful, order);
      WillIsServed(st'.channels[j].queue[|st.channels[j].queue|..], SubsOf(st.subs, d), WillPublish(w), w);
    }
  }
}

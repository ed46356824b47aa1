/** The log of publishes against the queues: a queue is what the logged publishes
    put there, and each of them served exactly the subscribers it met. */
module CallLog {
  import opened Types
  import opened PublishWriter
  import opened BrokerState
  import opened FanOut

  function ServedTo(call: Call, j: ConnId): seq<PublishPacket> {
    if j in call.served then call.served[j] else []
  }

  /** Every holder of a client id other than the source got one copy per matching
      subscription of its own, if its writer was alive; nobody else got anything. */
  ghost predicate Right(call: Call) {
    && (forall c :: c in call.holders ==> RightFor(call, c, call.holders[c]))
    && (forall j :: j in call.served && call.served[j] != [] ==> exists c :: c in call.holders && call.holders[c] == j)
  }

  ghost predicate RightFor(call: Call, c: ClientId, k: ConnId) {
    if c == call.cause.Source() || k !in call.alive then ServedTo(call, k) == []
    else Serves(ServedTo(call, k), SubsOf(call.subs, c), call.m)
  }

  /** What the publishes in `log` put on queue `j`, in order. */
  function Flat(log: seq<Call>, j: ConnId): seq<PublishPacket> {
    if log == [] then [] else Flat(log[..|log| - 1], j) + ServedTo(log[|log| - 1], j)
  }

  lemma FlatAppend(log: seq<Call>, call: Call, j: ConnId)
    ensures Flat(log + [call], j) == Flat(log, j) + ServedTo(call, j)
  {
    assert (log + [call])[..|log|] == log;
  }

  lemma {:induction false} FlatNothing(log: seq<Call>, j: ConnId)
    requires forall a :: 0 <= a < |log| ==> j !in log[a].served
    ensures Flat(log, j) == []
  {
    if log != [] {
      FlatNothing(log[..|log| - 1], j);
    }
  }

  ghost predicate Queues(log: seq<Call>, channels: map<ConnId, Channel>) {
    forall j :: j in channels ==> channels[j].queue == Flat(log, j)
  }

  ghost predicate Entries(log: seq<Call>, channels: map<ConnId, Channel>) {
    forall a :: 0 <= a < |log| ==> Right(log[a]) && log[a].served.Keys <= channels.Keys
  }

  /** Every queue is accounted for by the log, and every entry is right. */
  ghost predicate Delivering(st: State) { Queues(st.log, st.channels) && Entries(st.log, st.channels) }

  // ---- a publish ----------------------------------------------------------------------

  lemma PublishGains(st: State, cause: Cause, m: PublishPacket, order: seq<Hit>, j: ConnId)
    requires j in st.channels
    ensures var st' := PublishTo(st, cause, m, order);
            && j in st'.channels && j in Gains(st.channels, st'.channels)
            && st'.channels[j].queue == st.channels[j].queue + Gains(st.channels, st'.channels)[j]
  {
    ChannelAfter(st, cause, m, order, j);
    PushAllCopies(st.channels[j], m, Grants(HitsOn(st.sessions, cause.Source(), order, j)));
  }

  lemma PublishIsRight(st: State, cause: Cause, m: PublishPacket, order: seq<Hit>)
    requires Wired(st.sessions, st.channels) && Enumerates(order, st.subs, m.topic)
    ensures Right(CallOf(st, PublishTo(st, cause, m, order), cause, m))
  {
    var st' := PublishTo(st, cause, m, order);
    var call := CallOf(st, st', cause, m);
    forall c | c in call.holders ensures RightFor(call, c, call.holders[c]) {
      RightForHolder(st, cause, m, order, c);
    }
    forall j | j in call.served && call.served[j] != [] ensures exists c :: c in call.holders && call.holders[c] == j {
      ServedIsHeld(st, cause, m, order, j);
    }
  }

  lemma RightForHolder(st: State, cause: Cause, m: PublishPacket, order: seq<Hit>, c: ClientId)
    requires Wired(st.sessions, st.channels) && Enumerates(order, st.subs, m.topic) && c in st.sessions
    ensures RightFor(CallOf(st, PublishTo(st, cause, m, order), cause, m), c, st.sessions[c].conn)
  {
    FanOutExactly(st, cause, m, order, c);
    PublishGains(st, cause, m, order, st.sessions[c].conn);
  }

  lemma ServedIsHeld(st: State, cause: Cause, m: PublishPacket, order: seq<Hit>, j: ConnId)
    requires var gains := Gains(st.channels, PublishTo(st, cause, m, order).channels); j in gains && gains[j] != []
    ensures var holders := CallOf(st, PublishTo(st, cause, m, order), cause, m).holders;
            exists c :: c in holders && holders[c] == j
  {
    if forall c :: c in st.sessions ==> st.sessions[c].conn != j {
      UnheldChannel(st, cause, m, order, j);
      assert false;
    }
    var c :| c in st.sessions && st.sessions[c].conn == j;
    assert CallOf(st, PublishTo(st, cause, m, order), cause, m).holders[c] == j;
  }

  lemma PublishDelivers(st: State, cause: Cause, m: PublishPacket, order: seq<Hit>)
    requires Delivering(st) && Wired(st.sessions, st.channels) && Enumerates(order, st.subs, m.topic)
    ensures Delivering(PublishTo(st, cause, m, order))
  {
    var st' := PublishTo(st, cause, m, order);
    var call := CallOf(st, Spread(st, cause.Source(), m, order), cause, m);
    PublishFrame(st, cause, m, order);
    PublishIsRight(st, cause, m, order);
    assert call == CallOf(st, st', cause, m);
    forall j | j in st'.channels ensures st'.channels[j].queue == Flat(st'.log, j) {
      PublishGains(st, cause, m, order, j);
      FlatAppend(st.log, call, j);
    }
  }

  lemma WillDelivers(st: State, cause: Cause, will: Option<WillMessage>, order: seq<Hit>)
    requires Delivering(st) && Wired(st.sessions, st.channels) && WillOrder(order, st.subs, will)
    ensures Delivering(WillTo(st, cause, will, order))
  {
    if will.Some? {
      PublishDelivers(st, cause, WillPublish(will.value), order);
    }
  }

  /** Channels may change, but not what is queued. */
  lemma SameQueuesDeliver(st: State, st': State)
    requires Delivering(st) && st'.log == st.log && st'.channels.Keys == st.channels.Keys
    requires forall j :: j in st.channels ==> st'.channels[j].queue == st.channels[j].queue
    ensures Delivering(st')
  {
  }

  /** Anything served is a copy of the message. */
  lemma ServedAreCopies(call: Call, j: ConnId, i: nat)
    requires Right(call) && i < |ServedTo(call, j)|
    ensures exists granted :: CopyAt(ServedTo(call, j)[i], call.m, granted)
  {
    var c :| c in call.holders && call.holders[c] == j;
    assert RightFor(call, c, j);
    var own := SubsOf(call.subs, c);
    var filters :| OneCopyPerFilter(ServedTo(call, j), filters, own, call.m);
    assert CopyAt(ServedTo(call, j)[i], call.m, own[filters[i]]);
  }

  // ---- which publish an item came from ----------------------------------------------------

  /** The entry that put item `a` on queue `j`. */
  function Origin(log: seq<Call>, j: ConnId, a: nat): nat
    requires a < |Flat(log, j)|
  {
    var n := |log| - 1;
    if a < |Flat(log[..n], j)| then Origin(log[..n], j, a) else n
  }

  lemma {:induction false} OriginServes(log: seq<Call>, j: ConnId, a: nat)
    requires a < |Flat(log, j)|
    ensures Origin(log, j, a) < |log| && Flat(log, j)[a] in ServedTo(log[Origin(log, j, a)], j)
  {
    var n := |log| - 1;
    if a < |Flat(log[..n], j)| {
      OriginServes(log[..n], j, a);
    }
  }

  lemma {:induction false} OriginsInOrder(log: seq<Call>, j: ConnId, a: nat, b: nat)
    requires a <= b < |Flat(log, j)|
    ensures Origin(log, j, a) <= Origin(log, j, b)
  {
    var n := |log| - 1;
    if b < |Flat(log[..n], j)| {
      OriginsInOrder(log[..n], j, a, b);
    } else if a < |Flat(log[..n], j)| {
      OriginServes(log[..n], j, a);
    }
  }
}

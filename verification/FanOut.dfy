/** What a publish puts on the subscribers' queues, whatever order the tree is
    iterated in. */
module FanOut {
  import opened Types
  import opened PacketIds
  import opened Topic
  import opened Varint
  import opened Encode
  import opened Decode
  import opened PublishWriter
  import opened BrokerState

  lemma {:induction false} SpreadFrame(st: State, source: ClientId, m: PublishPacket, order: seq<Hit>)
    ensures var st' := Spread(st, source, m, order);
            && st'.sessions == st.sessions && st'.subs == st.subs && st'.log == st.log
            && st'.channels.Keys == st.channels.Keys
    decreases |order|
  {
    if order != [] {
      SpreadFrame(Deliver(st, source, m, order[0]), source, m, order[1..]);
    }
  }

  lemma PublishFrame(st: State, cause: Cause, m: PublishPacket, order: seq<Hit>)
    ensures var st' := PublishTo(st, cause, m, order);
            st'.sessions == st.sessions && st'.subs == st.subs && st'.channels.Keys == st.channels.Keys
  {
    SpreadFrame(st, cause.Source(), m, order);
  }

  function PushAll(ch: Channel, m: PublishPacket, grants: seq<QoS>): Channel
    decreases |grants|
  {
    if grants == [] then ch else PushAll(ch.Push(m, grants[0]), m, grants[1..])
  }

  /** The hits a publish from `source` delivers on channel `k`, in order. */
  function HitsOn(sessions: map<ClientId, Entry>, source: ClientId, order: seq<Hit>, k: ConnId): seq<Hit> {
    if order == [] then []
    else
      var more := HitsOn(sessions, source, order[1..], k);
      if order[0].client != source && order[0].client in sessions && sessions[order[0].client].conn == k
      then [order[0]] + more else more
  }

  function Grants(hits: seq<Hit>): (qs: seq<QoS>)
    ensures |qs| == |hits|
    ensures forall i :: 0 <= i < |hits| ==> qs[i] == hits[i].qos
  {
    seq(|hits|, i requires 0 <= i < |hits| => hits[i].qos)
  }

  lemma {:induction false} SpreadChannel(st: State, source: ClientId, m: PublishPacket, order: seq<Hit>, k: ConnId)
    requires k in st.channels
    ensures k in Spread(st, source, m, order).channels
    ensures Spread(st, source, m, order).channels[k]
         == PushAll(st.channels[k], m, Grants(HitsOn(st.sessions, source, order, k)))
    decreases |order|
  {
    if order != [] {
      SpreadChannel(Deliver(st, source, m, order[0]), source, m, order[1..], k);
      var more := HitsOn(st.sessions, source, order[1..], k);
      assert Grants([order[0]] + more)[1..] == Grants(more);
    }
  }

  /** Each channel sees only its own hits. */
  lemma ChannelAfter(st: State, cause: Cause, m: PublishPacket, order: seq<Hit>, k: ConnId)
    requires k in st.channels
    ensures k in PublishTo(st, cause, m, order).channels
    ensures PublishTo(st, cause, m, order).channels[k]
         == PushAll(st.channels[k], m, Grants(HitsOn(st.sessions, cause.Source(), order, k)))
  {
    SpreadChannel(st, cause.Source(), m, order, k);
  }

  /** `copy` is `m` at the lower of the two QoS levels, cleared of retain and dup. */
  predicate CopyAt(copy: PublishPacket, m: PublishPacket, granted: QoS) {
    && copy.topic == m.topic && copy.payload == m.payload && !copy.dup && !copy.retain
    && copy.qos.AsByte() == (if m.qos.AsByte() <= granted.AsByte() then m.qos else granted).AsByte()
  }

  /** A copy with a nonzero tracked id exactly when its QoS needs one. */
  ghost predicate IsCopy(copy: PublishPacket, m: PublishPacket, granted: QoS, inflight: map<u16, PublishPacket>) {
    && CopyAt(copy, m, granted)
    && IdFor(copy.qos, copy.packetId)
    && (copy.packetId.Some? ==> copy.packetId.value in inflight && inflight[copy.packetId.value] == m)
  }

  lemma {:induction false} PushAllCopies(ch: Channel, m: PublishPacket, grants: seq<QoS>)
    ensures var ch' := PushAll(ch, m, grants);
            && ch'.open == ch.open && ch'.writerAlive == ch.writerAlive
            && ch'.session.acks == ch.session.acks && ch'.session.qos2 == ch.session.qos2
            && (forall id :: id in ch.session.inflight ==>
                  id in ch'.session.inflight && ch'.session.inflight[id] in {m, ch.session.inflight[id]})
            && (!ch.writerAlive ==> ch'.queue == ch.queue)
            && (ch.writerAlive ==>
                  && |ch'.queue| == |ch.queue| + |grants| && ch.queue <= ch'.queue
                  && forall i :: 0 <= i < |grants| ==>
                       IsCopy(ch'.queue[|ch.queue| + i], m, grants[i], ch'.session.inflight))
    decreases |grants|
  {
    if grants != [] {
      var next := ch.Push(m, grants[0]);
      PushAllCopies(next, m, grants[1..]);
      var ch' := PushAll(ch, m, grants);
      if ch.writerAlive {
        assert next.queue[|ch.queue|] == ch'.queue[|ch.queue|];
        forall i | 0 <= i < |grants|
          ensures IsCopy(ch'.queue[|ch.queue| + i], m, grants[i], ch'.session.inflight)
        {
          if i > 0 {
            assert grants[i] == grants[1..][i - 1];
            assert ch'.queue[|next.queue| + (i - 1)] == ch'.queue[|ch.queue| + i];
          }
        }
      }
    }
  }

  // ---- the ids of the copies ----------------------------------------------------------

  /** How many of `d` carry an id. */
  function AckedCount(d: seq<PublishPacket>): nat {
    if d == [] then 0 else (if d[0].packetId.Some? then 1 else 0) + AckedCount(d[1..])
  }

  /** The ids in `d` are those a counter at `c` hands out, one after the other. */
  ghost predicate Sequenced(d: seq<PublishPacket>, c: u16) {
    forall i :: 0 <= i < |d| && d[i].packetId.Some? ==> d[i].packetId.value == NthId(c, AckedCount(d[..i]))
  }

  lemma {:induction false} AckedCountAppend(a: seq<PublishPacket>, b: seq<PublishPacket>)
    ensures AckedCount(a + b) == AckedCount(a) + AckedCount(b)
  {
    if a == [] {
      assert a + b == b;
    } else {
      assert (a + b)[1..] == a[1..] + b;
      AckedCountAppend(a[1..], b);
    }
  }

  /** Sequences follow on. */
  lemma SequencedAppend(a: seq<PublishPacket>, b: seq<PublishPacket>, c: u16)
    requires Sequenced(a, c) && Sequenced(b, CounterAfter(c, AckedCount(a)))
    ensures Sequenced(a + b, c)
  {
    var d := a + b;
    forall i | 0 <= i < |d| && d[i].packetId.Some?
      ensures d[i].packetId.value == NthId(c, AckedCount(d[..i]))
    {
      if i < |a| {
        assert d[..i] == a[..i];
      } else {
        assert d[..i] == a + b[..i - |a|];
        AckedCountAppend(a, b[..i - |a|]);
        CountersAdd(c, AckedCount(a), AckedCount(b[..i - |a|]));
      }
    }
  }

  lemma PushOne(ch: Channel, m: PublishPacket, granted: QoS)
    requires ch.writerAlive
    ensures var ch' := ch.Push(m, granted);
            var copy := ch'.queue[|ch.queue|..];
            && ch'.writerAlive && ch'.queue == ch.queue + copy && |copy| == 1
            && Sequenced(copy, ch.session.counter)
            && ch'.session.counter == CounterAfter(ch.session.counter, AckedCount(copy))
  {
    var copy := ch.Push(m, granted).queue[|ch.queue|..];
    assert copy[1..] == [] && copy[..0] == [];
    assert CounterAfter(ch.session.counter, 1) == NextCounter(CounterAfter(ch.session.counter, 0));
  }

  /** The copies one publish puts on a queue carry consecutive ids. */
  lemma {:induction false} PushAllIds(ch: Channel, m: PublishPacket, grants: seq<QoS>)
    requires ch.writerAlive
    ensures var ch' := PushAll(ch, m, grants);
            && ch.queue <= ch'.queue && ch'.writerAlive
            && Sequenced(ch'.queue[|ch.queue|..], ch.session.counter)
            && ch'.session.counter == CounterAfter(ch.session.counter, AckedCount(ch'.queue[|ch.queue|..]))
    decreases |grants|
  {
    var ch' := PushAll(ch, m, grants);
    if grants == [] {
      assert ch'.queue[|ch.queue|..] == [];
    } else {
      var next := ch.Push(m, grants[0]);
      PushOne(ch, m, grants[0]);
      PushAllIds(next, m, grants[1..]);
      var first, rest := next.queue[|ch.queue|..], ch'.queue[|next.queue|..];
      assert ch'.queue[|ch.queue|..] == first + rest;
      SequencedAppend(first, rest, ch.session.counter);
      AckedCountAppend(first, rest);
      CountersAdd(ch.session.counter, AckedCount(first), AckedCount(rest));
    }
  }

  /** Two numbered items of a sequence, fewer than 65535 numbers apart, have different
      ids unless they are the adjacent pair at the counter's wrap; from a fresh counter
      the first 65535 are pairwise different. */
  lemma SequencedIdsDiffer(d: seq<PublishPacket>, c: u16, a: nat, b: nat)
    requires Sequenced(d, c) && a < b < |d| && d[a].packetId.Some? && d[b].packetId.Some?
    requires AckedCount(d[..b]) < AckedCount(d[..a]) + 65535
    ensures var j := AckedCount(d[..b]);
            d[a].packetId == d[b].packetId <==> j == AckedCount(d[..a]) + 1 && (c + j) % 65536 == 0
    ensures c == 0 && AckedCount(d[..b]) < 65535 ==> d[a].packetId != d[b].packetId
  {
    assert d[..b] == d[..a] + d[a..b];
    AckedCountAppend(d[..a], d[a..b]);
    assert d[a..b][0] == d[a];
    IdsCollideOnlyAtWrap(c, AckedCount(d[..a]), AckedCount(d[..b]));
  }

  lemma {:induction false} HitsOnExactly(sessions: map<ClientId, Entry>, source: ClientId, order: seq<Hit>, k: ConnId)
    requires NoDup(order)
    ensures var hits := HitsOn(sessions, source, order, k);
            && NoDup(hits)
            && forall h :: h in hits <==>
                 h in order && h.client != source && h.client in sessions && sessions[h.client].conn == k
  {
    if order != [] {
      assert forall h :: h in order <==> h == order[0] || h in order[1..];
      assert order[0] !in order[1..];
      HitsOnExactly(sessions, source, order[1..], k);
    }
  }

  /** `d` is one copy per subscription in `own` that matches. */
  ghost predicate Serves(d: seq<PublishPacket>, own: map<Str, QoS>, m: PublishPacket) {
    exists filters :: OneCopyPerFilter(d, filters, own, m)
  }

  /** `filters` lists the matching filters once each, and `d` the copies for them. */
  ghost predicate OneCopyPerFilter(d: seq<PublishPacket>, filters: seq<Str>, own: map<Str, QoS>, m: PublishPacket) {
    && |d| == |filters| && NoDup(filters)
    && (forall f :: f in filters <==> f in own && LevelsMatch(Split(f), Split(m.topic)))
    && (forall i :: 0 <= i < |d| ==>
          filters[i] in own && CopyAt(d[i], m, own[filters[i]]) && IdFor(d[i].qos, d[i].packetId))
  }

  /** Copies that carry an id are tracked under it. */
  ghost predicate Tracked(d: seq<PublishPacket>, m: PublishPacket, inflight: map<u16, PublishPacket>) {
    forall i :: 0 <= i < |d| && d[i].packetId.Some? ==>
      d[i].packetId.value in inflight && inflight[d[i].packetId.value] == m
  }

  /** `d` is one copy of the Will `w` per subscription in `own` that matches: its
      topic and payload, at the lower of its QoS and the grant. */
  ghost predicate ServesWill(d: seq<PublishPacket>, own: map<Str, QoS>, w: WillMessage) {
    exists filters :: OneWillPerFilter(d, filters, own, w)
  }

  ghost predicate OneWillPerFilter(d: seq<PublishPacket>, filters: seq<Str>, own: map<Str, QoS>, w: WillMessage) {
    && |d| == |filters| && NoDup(filters)
    && (forall f :: f in filters <==> f in own && LevelsMatch(Split(f), Split(w.topic)))
    && (forall i :: 0 <= i < |d| ==> filters[i] in own && IsWillCopy(d[i], w, own[filters[i]]))
  }

  predicate IsWillCopy(copy: PublishPacket, w: WillMessage, granted: QoS) {
    && copy.topic == w.topic && copy.payload == w.payload && !copy.dup && !copy.retain
    && copy.qos == (if granted == AtMostOnce || (granted == AtLeastOnce && w.qos == ExactlyOnce) then granted else w.qos)
    && IdFor(copy.qos, copy.packetId)
  }

  lemma WillIsServed(d: seq<PublishPacket>, own: map<Str, QoS>, m: PublishPacket, w: WillMessage)
    requires Serves(d, own, m) && SaysWill(m, w)
    ensures ServesWill(d, own, w)
  {
    var filters :| OneCopyPerFilter(d, filters, own, m);
    forall i | 0 <= i < |d| ensures IsWillCopy(d[i], w, own[filters[i]]) {
      CopyIsWillCopy(d[i], m, w, own[filters[i]]);
    }
    assert OneWillPerFilter(d, filters, own, w);
  }

  lemma CopyIsWillCopy(copy: PublishPacket, m: PublishPacket, w: WillMessage, granted: QoS)
    requires CopyAt(copy, m, granted) && IdFor(copy.qos, copy.packetId) && SaysWill(m, w)
    ensures IsWillCopy(copy, w, granted)
  {
  }

  /** Sessions have known channels, each its own: all that fan-out needs, and true
      also while a takeover publishes. */
  ghost predicate Wired(sessions: map<ClientId, Entry>, channels: map<ConnId, Channel>) {
    && (forall c :: c in sessions ==> sessions[c].conn in channels)
    && (forall c, d :: c in sessions && d in sessions && sessions[c].conn == sessions[d].conn ==> c == d)
  }

  lemma ValidIsWired(st: State)
    requires Valid(st)
    ensures Wired(st.sessions, st.channels)
  {
    forall c | c in st.sessions ensures st.sessions[c].conn in st.channels {
      assert EntryOk(st.sessions[c], SubsOf(st.subs, c), st.channels);
    }
  }

  /** Fan-out exactness: for every iteration order, each live subscriber but the
      source gets one copy per matching filter of its own, the acknowledged ones
      tracked under consecutive ids. */
  lemma FanOutExactly(st: State, cause: Cause, m: PublishPacket, order: seq<Hit>, c: ClientId)
    requires Wired(st.sessions, st.channels) && Enumerates(order, st.subs, m.topic)
    requires c in st.sessions
    ensures var k := st.sessions[c].conn;
            var st' := PublishTo(st, cause, m, order);
            && k in st'.channels && st.channels[k].queue <= st'.channels[k].queue
            && (c == cause.Source() ==> st'.channels[k] == st.channels[k])
            && (!st.channels[k].writerAlive ==> st'.channels[k].queue == st.channels[k].queue)
            && (c != cause.Source() && st.channels[k].writerAlive ==>
                  var d := st'.channels[k].queue[|st.channels[k].queue|..];
                  && Serves(d, SubsOf(st.subs, c), m)
                  && Tracked(d, m, st'.channels[k].session.inflight)
                  && Sequenced(d, st.channels[k].session.counter))
  {
    var k, source := st.sessions[c].conn, cause.Source();
    ChannelAfter(st, cause, m, order, k);
    HitsOnExactly(st.sessions, source, order, k);
    var hits := HitsOn(st.sessions, source, order, k);
    assert hits != [] ==> hits[0] in hits;
    assert forall h :: h in hits ==> h.client == c && c != source;
    if c == source {
      assert hits == [];
    }
    HitsServe(st, source, m, order, c, hits);
  }

  lemma HitsServe(st: State, source: ClientId, m: PublishPacket, order: seq<Hit>, c: ClientId, hits: seq<Hit>)
    requires Wired(st.sessions, st.channels) && Enumerates(order, st.subs, m.topic) && c in st.sessions
    requires hits == HitsOn(st.sessions, source, order, st.sessions[c].conn)
    ensures var ch := st.channels[st.sessions[c].conn];
            var ch' := PushAll(ch, m, Grants(hits));
            && ch.queue <= ch'.queue && (!ch.writerAlive ==> ch'.queue == ch.queue)
            && (c != source && ch.writerAlive ==>
                  && Serves(ch'.queue[|ch.queue|..], SubsOf(st.subs, c), m)
                  && Tracked(ch'.queue[|ch.queue|..], m, ch'.session.inflight)
                  && Sequenced(ch'.queue[|ch.queue|..], ch.session.counter))
  {
    var ch := st.channels[st.sessions[c].conn];
    PushAllCopies(ch, m, Grants(hits));
    if c != source && ch.writerAlive {
      PushAllIds(ch, m, Grants(hits));
      var filters := seq(|hits|, i requires 0 <= i < |hits| => hits[i].filter);
      HitsOnExactly(st.sessions, source, order, st.sessions[c].conn);
      FiltersExactly(st, source, m, order, c, hits, filters);
      CopiesServe(ch, m, hits, filters, SubsOf(st.subs, c));
    }
  }

  lemma CopiesServe(ch: Channel, m: PublishPacket, hits: seq<Hit>, filters: seq<Str>, own: map<Str, QoS>)
    requires ch.writerAlive && |filters| == |hits| && NoDup(filters)
    requires forall f :: f in filters <==> f in own && LevelsMatch(Split(f), Split(m.topic))
    requires forall i :: 0 <= i < |hits| ==> filters[i] in own && own[filters[i]] == hits[i].qos
    ensures var ch' := PushAll(ch, m, Grants(hits));
            && ch.queue <= ch'.queue && Serves(ch'.queue[|ch.queue|..], own, m)
            && Tracked(ch'.queue[|ch.queue|..], m, ch'.session.inflight)
  {
    var ch' := PushAll(ch, m, Grants(hits));
    PushAllCopies(ch, m, Grants(hits));
    var d := ch'.queue[|ch.queue|..];
    forall i | 0 <= i < |d| ensures IsCopy(d[i], m, own[filters[i]], ch'.session.inflight) {
      assert d[i] == ch'.queue[|ch.queue| + i];
    }
    assert OneCopyPerFilter(d, filters, own, m);
  }

  lemma FiltersExactly(
    st: State, source: ClientId, m: PublishPacket, order: seq<Hit>, c: ClientId, hits: seq<Hit>, filters: seq<Str>)
    requires Wired(st.sessions, st.channels) && Enumerates(order, st.subs, m.topic) && c in st.sessions && c != source
    requires NoDup(hits)
    requires forall h :: h in hits <==>
               h in order && h.client != source && h.client in st.sessions && st.sessions[h.client].conn == st.sessions[c].conn
    requires |filters| == |hits| && forall i :: 0 <= i < |hits| ==> filters[i] == hits[i].filter
    ensures NoDup(filters)
    ensures forall f :: f in filters <==> f in SubsOf(st.subs, c) && LevelsMatch(Split(f), Split(m.topic))
    ensures forall i :: 0 <= i < |hits| ==>
              filters[i] in SubsOf(st.subs, c) && SubsOf(st.subs, c)[filters[i]] == hits[i].qos
  {
    forall i | 0 <= i < |hits|
      ensures hits[i].client == c && IsHit(st.subs, m.topic, hits[i])
    {
      assert hits[i] in hits;
    }
    forall f | f in SubsOf(st.subs, c) && LevelsMatch(Split(f), Split(m.topic)) ensures f in filters {
      var h := Hit(f, c, st.subs[f][c]);
      assert IsHit(st.subs, m.topic, h) && h in hits;
      var i :| 0 <= i < |hits| && hits[i] == h;
      assert filters[i] == f;
    }
  }

  /** A channel no session holds is left alone. */
  lemma UnheldChannel(st: State, cause: Cause, m: PublishPacket, order: seq<Hit>, k: ConnId)
    requires k in st.channels
    requires forall c :: c in st.sessions ==> st.sessions[c].conn != k
    ensures k in PublishTo(st, cause, m, order).channels
    ensures PublishTo(st, cause, m, order).channels[k] == st.channels[k]
  {
    ChannelAfter(st, cause, m, order, k);
    NoHits(st.sessions, cause.Source(), order, k);
  }

  lemma {:induction false} NoHits(sessions: map<ClientId, Entry>, source: ClientId, order: seq<Hit>, k: ConnId)
    requires forall c :: c in sessions ==> sessions[c].conn != k
    ensures HitsOn(sessions, source, order, k) == []
  {
    if order != [] {
      NoHits(sessions, source, order[1..], k);
    }
  }

  /** Whatever a broker puts on any queue for a received PUBLISH, the writers
      accept, and no copy has a longer body than the packet received. */
  lemma FannedOutIsEncodable(st: State, cause: Cause, order: seq<Hit>, first: byte, body: seq<byte>, m: PublishPacket,
                             k: ConnId, a: nat)
    requires ParsedPublish(first, body) == Ok(Publish(m)) && |body| <= SPEC_MAX_PACKET_SIZE
    requires k in st.channels && k in PublishTo(st, cause, m, order).channels
    requires |st.channels[k].queue| <= a < |PublishTo(st, cause, m, order).channels[k].queue|
    ensures var copy := PublishTo(st, cause, m, order).channels[k].queue[a];
            Encoded(Publish(copy)).Ok? && |Body(Publish(copy))| <= |body|
  {
    var copy, granted := NewCommandIsCopy(st, cause, m, order, k, a);
    assert copy == FanOutCopy(m, granted, copy.packetId);
    FanOutIsEncodable(first, body, m, granted, copy.packetId);
  }

  /** And likewise for the Will of a received CONNECT. */
  lemma WillFannedOutIsEncodable(
    st: State, cause: Cause, order: seq<Hit>, body: seq<byte>, c: ConnectPacket, k: ConnId, a: nat)
    requires ParsedConnect(body) == Ok(Connect(c)) && c.will.Some?
    requires k in st.channels && k in WillTo(st, cause, c.will, order).channels
    requires |st.channels[k].queue| <= a < |WillTo(st, cause, c.will, order).channels[k].queue|
    ensures Encoded(Publish(WillTo(st, cause, c.will, order).channels[k].queue[a])).Ok?
  {
    var m := WillPublish(c.will.value);
    var copy, granted := NewCommandIsCopy(st, cause, m, order, k, a);
    assert copy == FanOutCopy(m, granted, copy.packetId);
    WillIsEncodable(body, c, granted, copy.packetId);
  }

  lemma NewCommandIsCopy(st: State, cause: Cause, m: PublishPacket, order: seq<Hit>, k: ConnId, a: nat)
    returns (copy: PublishPacket, granted: QoS)
    requires k in st.channels && k in PublishTo(st, cause, m, order).channels
    requires |st.channels[k].queue| <= a < |PublishTo(st, cause, m, order).channels[k].queue|
    ensures copy == PublishTo(st, cause, m, order).channels[k].queue[a]
    ensures CopyAt(copy, m, granted) && IdFor(copy.qos, copy.packetId)
  {
    ChannelAfter(st, cause, m, order, k);
    var ch, grants := st.channels[k], Grants(HitsOn(st.sessions, cause.Source(), order, k));
    PushAllCopies(ch, m, grants);
    var ch' := PushAll(ch, m, grants);
    var i := a - |ch.queue|;
    assert IsCopy(ch'.queue[|ch.queue| + i], m, grants[i], ch'.session.inflight);
    copy, granted := ch'.queue[a], grants[i];
  }
}

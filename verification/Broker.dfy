/** The broker's methods, as loops over its maps. A map is iterated in whatever
    order its keys come; the order taken is returned as a ghost. */
module Broker {
  import opened Types
  import opened Topic
  import opened Session
  import opened BrokerState
  import opened BrokerRefinement
  import opened FanOut

  class SubscriptionTree {
    var subs: Subs

    constructor ()
      ensures subs == map[]
    {
      subs := map[];
    }

    method Subscribe(c: ClientId, f: Str, q: QoS)
      modifies this
      ensures subs == TreeSubscribe(old(subs), c, f, q)
    {
      if f !in subs {
        subs := subs[f := map[]];
      }
      subs := subs[f := subs[f][c := q]];
    }

    method Unsubscribe(c: ClientId, f: Str)
      modifies this
      ensures subs == TreeUnsubscribe(old(subs), c, f)
    {
      if f in subs {
        subs := subs[f := subs[f] - {c}];
      }
    }

    method RemoveClient(c: ClientId)
      modifies this
      ensures subs == TreeRemoveClient(old(subs), c)
    {
      var todo := subs.Keys;
      while todo != {}
        invariant todo <= subs.Keys == old(subs).Keys
        invariant forall f :: f in subs ==> subs[f] == if f in todo then old(subs)[f] else old(subs)[f] - {c}
        decreases |todo|
      {
        var f :| f in todo;
        todo := todo - {f};
        subs := subs[f := subs[f] - {c}];
      }
    }

    /** Every matching (client, filter) pair, once. */
    method Matching(topic: Str) returns (results: seq<Hit>)
      ensures Enumerates(results, subs, topic)
    {
      var topicSegs := Split(topic);
      results := [];
      var todo := subs.Keys;
      while todo != {}
        invariant todo <= subs.Keys
        invariant NoDup(results)
        invariant forall h :: h in results <==> IsHit(subs, topic, h) && h.filter !in todo
        decreases |todo|
      {
        var f :| f in todo;
        todo := todo - {f};
        var matches := FilterMatches(f, topicSegs);
        if matches {
          var clients := subs[f].Keys;
          while clients != {}
            invariant clients <= subs[f].Keys
            invariant NoDup(results)
            invariant forall h :: h in results <==>
                        IsHit(subs, topic, h) && h.filter !in todo && (h.filter == f ==> h.client !in clients)
            decreases |clients|
          {
            var c :| c in clients;
            clients := clients - {c};
            results := results + [Hit(f, c, subs[f][c])];
          }
        }
      }
    }
  }

  class MqttBroker {
    var sessions: map<ClientId, Entry>
    var channels: map<ConnId, Channel>
    const tree: SubscriptionTree
    /** Every publish made. */
    ghost var log: seq<Call>

    ghost function View(): State
      reads this, tree
    {
      State(sessions, tree.subs, channels, log)
    }

    constructor ()
      ensures fresh(tree) && View() == EmptyBroker
    {
      tree := new SubscriptionTree();
      sessions, channels, log := map[], map[], [];
    }

    method Publish(source: ClientId, m: PublishPacket, ghost cause: Cause) returns (ghost order: seq<Hit>)
      requires source == cause.Source()
      requires forall c :: c in sessions ==> sessions[c].conn in channels
      modifies this`channels, this`log
      ensures Enumerates(order, tree.subs, m.topic)
      ensures View() == PublishTo(old(View()), cause, m, order)
    {
      var matching := tree.Matching(m.topic);
      order := matching;
      for i := 0 to |matching|
        invariant channels.Keys == old(channels).Keys && log == old(log)
        invariant Spread(View(), source, m, matching[i..]) == Spread(old(View()), source, m, matching)
      {
        assert matching[i..][1..] == matching[i + 1..];
        ghost var before := View();
        var sub := matching[i];
        if sub.client == source {
          continue;
        }
        if sub.client !in sessions {
          continue;
        }
        var k := sessions[sub.client].conn;
        var ch := channels[k];
        var effective := m.qos.Min(sub.qos);
        var packetId: Option<u16> := None;
        if effective != AtMostOnce {
          var id := ch.session.NextId();
          ch := ch.(session := ch.session.TakeId());
          ch := ch.(session := ch.session.Track(id, m));
          packetId := Some(id);
        }
        var adjusted := PublishPacket(m.topic, m.payload, false, effective, false, packetId);
        if ch.writerAlive {
          ch := ch.(queue := ch.queue + [adjusted]);
        }
        assert ch == channels[k].Push(m, sub.qos);
        channels := channels[k := ch];
        assert View() == Deliver(before, source, m, sub);
      }
      log := log + [CallOf(old(View()), View(), cause, m)];
    }

    method PublishWill(will: Option<WillMessage>, ghost cause: Cause) returns (ghost order: seq<Hit>)
      requires !cause.Message?
      requires forall c :: c in sessions ==> sessions[c].conn in channels
      modifies this`channels, this`log
      ensures WillOrder(order, tree.subs, will)
      ensures View() == WillTo(old(View()), cause, will, order)
    {
      order := [];
      if will.Some? {
        var w := will.value;
        order := Publish([], PublishPacket(w.topic, w.payload, false, w.qos, w.retain, None), cause);
      }
    }

    method CloseChannel(k: ConnId)
      modifies this`channels
      ensures View() == BrokerState.CloseChannel(old(View()), k)
    {
      if k in channels && channels[k].open {
        var ch := channels[k].(open := false);
        channels := channels[k := ch.(session := Abandoned(ch.session))];
      } else if k in channels {
        assert channels == channels[k := channels[k]];
      }
    }

    /** Reports session-present exactly when the new connection inherits the
        client's subscriptions; otherwise it starts with none. The indexes stay in
        agreement unless another client's session already has the channel. */
    method RegisterSession(c: ClientId, k: ConnId, will: Option<WillMessage>, clean: bool)
      returns (present: bool, ghost order: seq<Hit>)
      requires Valid(View()) && k in channels
      modifies this, tree
      ensures WillOrder(order, old(tree.subs), DisplacedWill(old(View()), c))
      ensures View() == Register(old(View()), c, k, will, clean, order)
      ensures Free(old(View()), c, k) <==> Valid(View())
      ensures present == Present(old(View()), c, clean)
      ensures SubsOf(tree.subs, c) == if present then SubsOf(old(tree.subs), c) else map[]
    {
      ValidIsWired(View());
      order := [];
      var existing := if c in sessions then Some(sessions[c]) else None;
      sessions := sessions - {c};
      present := !clean && existing.Some?;
      if existing.Some? {
        CloseChannel(existing.value.conn);
        order := PublishWill(existing.value.will, TakeoverWill(existing.value.conn));
      }
      assert View() == Displace(old(View()), c, order);
      if clean {
        tree.RemoveClient(c);
      }
      sessions := sessions[c := Entry(k, map[], will, clean)];
      RegisterInherits(old(View()), c, k, will, clean, order);
      RegisterValidity(old(View()), c, k, will, clean, order);
    }

    method UnregisterSession(c: ClientId, k: ConnId, graceful: bool) returns (ghost order: seq<Hit>)
      requires Valid(View())
      modifies this, tree
      ensures WillOrder(order, TreeRemoveClient(old(tree.subs), c), TeardownWill(old(View()), c, k, graceful))
      ensures View() == Unregister(old(View()), c, k, graceful, order)
      ensures Valid(View())
    {
      ValidIsWired(View());
      order := [];
      if c !in sessions || sessions[c].conn != k {
        return;
      }
      var entry := sessions[c];
      sessions := sessions - {c};
      tree.RemoveClient(c);
      if !graceful {
        order := PublishWill(entry.will, OwnWill(k));
      }
      UnregisterRefines(old(View()), c, k, graceful, order);
    }

    /** Only the connection that owns the name subscribes; each filter gets its
        own verdict. */
    method Subscribe(c: ClientId, k: ConnId, filters: seq<TopicFilter>) returns (codes: seq<SubackCode>)
      modifies this, tree
      ensures View() == Subscribed(old(View()), c, k, filters)
      ensures |codes| == |filters|
      ensures forall i :: 0 <= i < |codes| ==>
                codes[i] == if OwnedBy(old(View()), c, k) then CodeFor(filters[i]) else Failure
    {
      if c !in sessions || sessions[c].conn != k {
        return seq(|filters|, i => Failure);
      }
      codes := [];
      for i := 0 to |filters|
        invariant |codes| == i && forall j :: 0 <= j < i ==> codes[j] == CodeFor(filters[j])
        invariant c in sessions
        invariant SubscribeAll(View(), c, filters[i..]) == SubscribeAll(old(View()), c, filters)
      {
        assert filters[i..][1..] == filters[i + 1..];
        ghost var before := View();
        var tf := filters[i];
        var verdict := ValidateSubscribeFilter(tf.filter);
        if verdict.Ok? {
          sessions := sessions[c := sessions[c].(filters := sessions[c].filters[tf.filter := tf.qos])];
          tree.Subscribe(c, tf.filter, tf.qos);
          codes := codes + [Granted(tf.qos)];
        } else {
          codes := codes + [Failure];
        }
        assert View() == SubscribeOne(before, c, tf);
      }
    }

    method Unsubscribe(c: ClientId, k: ConnId, topics: seq<Str>)
      modifies this, tree
      ensures View() == Unsubscribed(old(View()), c, k, topics)
    {
      if c !in sessions || sessions[c].conn != k {
        return;
      }
      for i := 0 to |topics|
        invariant c in sessions
        invariant UnsubscribeAll(View(), c, topics[i..]) == UnsubscribeAll(old(View()), c, topics)
      {
        assert topics[i..][1..] == topics[i + 1..];
        ghost var before := View();
        sessions := sessions[c := sessions[c].(filters := sessions[c].filters - {topics[i]})];
        tree.Unsubscribe(c, topics[i]);
        assert View() == UnsubscribeOne(before, c, topics[i]);
      }
    }
  }

  lemma RegisterValidity(st: State, c: ClientId, k: ConnId, will: Option<WillMessage>, clean: bool, order: seq<Hit>)
    requires Valid(st) && k in st.channels
    ensures Free(st, c, k) <==> Valid(Register(st, c, k, will, clean, order))
  {
    if Free(st, c, k) {
      RegisterRefines(st, c, k, will, clean, order);
    } else {
      RegisterFrame(st, c, k, will, clean, order);
    }
  }
}

/** Teardown taken apart: the entry is removed, other connections run, and only
    then is the client wiped from the tree. */
module TeardownRace {
  import opened Types
  import opened BrokerState
  import opened BrokerRefinement

  function RemoveEntry(st: State, c: ClientId): State { st.(sessions := st.sessions - {c}) }

  function WipeClient(st: State, c: ClientId): State { st.(subs := TreeRemoveClient(st.subs, c)) }

  /** Every session's own filter list is in the tree. */
  ghost predicate Listed(st: State) {
    forall c :: c in st.sessions ==> EntryOk(st.sessions[c], SubsOf(st.subs, c), st.channels)
  }

  /** Whatever ran in between, the late wipe keeps the indexes in agreement exactly
      when nobody who took the name meanwhile has a filter listed. */
  lemma LateWipeExactly(st: State, c: ClientId)
    requires Listed(st)
    ensures Listed(WipeClient(st, c)) <==> c !in st.sessions || st.sessions[c].filters == map[]
  {
    TreeRemoveMeaning(st.subs, c);
    var st' := WipeClient(st, c);
    if c !in st.sessions || st.sessions[c].filters == map[] {
      forall d | d in st'.sessions ensures EntryOk(st'.sessions[d], SubsOf(st'.subs, d), st'.channels) {
        assert EntryOk(st.sessions[d], SubsOf(st.subs, d), st.channels);
      }
    } else {
      var f :| f in st.sessions[c].filters;
      assert f !in SubsOf(st'.subs, c);
    }
  }

  /** With nothing in between the two steps are the teardown. */
  lemma UninterruptedTeardown(st: State, c: ClientId, k: ConnId, order: seq<Hit>)
    requires OwnedBy(st, c, k)
    ensures WipeClient(RemoveEntry(st, c), c) == Unregister(st, c, k, true, order)
  {
  }

  /** A client that reconnects and subscribes between the two steps is granted its
      filter, keeps it listed, and is no longer in the tree. */
  lemma TeardownWipesTheNewcomer(
    st: State, c: ClientId, k: ConnId, newcomer: ConnId, will: Option<WillMessage>, clean: bool, tf: TopicFilter)
    requires Valid(st) && OwnedBy(st, c, k) && newcomer in st.channels && Accepts(tf)
    ensures var back := Register(RemoveEntry(st, c), c, newcomer, will, clean, []);
            var granted := Subscribed(back, c, newcomer, [tf]);
            var end := WipeClient(granted, c);
            && tf.filter in SubsOf(granted.subs, c)
            && OwnedBy(end, c, newcomer) && end.sessions[c].filters == map[tf.filter := tf.qos]
            && SubsOf(end.subs, c) == map[] && !Valid(end)
  {
    var back := Register(RemoveEntry(st, c), c, newcomer, will, clean, []);
    assert SubscribeAll(SubscribeOne(back, c, tf), c, [tf][1..]) == SubscribeOne(back, c, tf);
    TreeSubscribeMeaning(back.subs, c, tf.filter, tf.qos);
    var granted := Subscribed(back, c, newcomer, [tf]);
    TreeRemoveMeaning(granted.subs, c);
    var end := WipeClient(granted, c);
    assert !EntryOk(end.sessions[c], SubsOf(end.subs, c), end.channels) by {
      assert tf.filter in end.sessions[c].filters;
    }
  }
}

/** The session object of one connection. */
module Session {
  import opened Types
  import opened Acks
  import opened PacketIds

  datatype SessionState = SessionState(
    counter: u16, acks: AckTable, qos2: map<u16, PublishPacket>, inflight: map<u16, PublishPacket>)
  {
    function NextId(): u16 { IdAt(NextCounter(counter)) }

    function TakeId(): SessionState { this.(counter := NextCounter(counter)) }

    function Track(id: u16, publish: PublishPacket): SessionState { this.(inflight := inflight[id := publish]) }
  }

  const FreshSession := SessionState(0, EmptyTable, map[], map[])

  /** The session after `n` allocations. */
  function Allocations(s: SessionState, n: nat): SessionState {
    if n == 0 then s else Allocations(s, n - 1).TakeId()
  }

  /** The id handed out after `n` allocations is the `n`th of the sequence, and only
      the counter has moved, by `n`. */
  lemma {:induction false} AllocationsInSequence(s: SessionState, n: nat)
    ensures var s' := Allocations(s, n);
            && s'.counter == CounterAfter(s.counter, n) == (s.counter + n) % 65536
            && s'.NextId() == NthId(s.counter, n)
            && s'.(counter := s.counter) == s
  {
    CounterIsModular(s.counter, n);
    if n > 0 {
      AllocationsInSequence(s, n - 1);
    }
  }

  /** Dropping every table, as closing the channel does. */
  function Abandoned(s: SessionState): SessionState {
    s.(acks := s.acks.Abandon(), qos2 := map[], inflight := map[])
  }

  /** A closed session holds nothing: every slot, held message and inflight record is
      gone, each waiter that had a slot was dropped, and no other changed. */
  lemma AbandonedHoldsNothing(s: SessionState, w: nat)
    requires w < |s.acks.waiters|
    ensures var s' := Abandoned(s);
            && s'.counter == s.counter && s'.qos2 == map[] && s'.inflight == map[] && s'.acks.slots == map[]
            && |s'.acks.waiters| == |s.acks.waiters|
            && s'.acks.waiters[w].cell == if s.acks.Held(w) then Dropped else s.acks.waiters[w].cell
  {
  }

  class MqttSession {
    var pktCounter: u16
    var pendingAcks: map<u16, Slot>
    var qos2Recv: map<u16, PublishPacket>
    var outboundInflight: map<u16, PublishPacket>
    /** The one-shot cells whose sending halves `pendingAcks` holds. */
    var waiters: seq<Waiter>

    ghost function View(): SessionState
      reads this
    {
      SessionState(pktCounter, AckTable(pendingAcks, waiters), qos2Recv, outboundInflight)
    }

    ghost predicate Valid()
      reads this
    {
      View().acks.Consistent()
    }

    constructor ()
      ensures Valid() && View() == FreshSession
    {
      pktCounter, pendingAcks, waiters := 0, map[], [];
      qos2Recv, outboundInflight := map[], map[];
    }

    method AllocatePacketId() returns (id: u16)
      modifies this`pktCounter
      ensures View() == old(View()).TakeId() && id == old(View()).NextId()
      ensures pktCounter == (old(pktCounter) + 1) % 65536
      ensures id == NthId(old(pktCounter), 0)
    {
      pktCounter := (pktCounter + 1) % 65536;
      id := if pktCounter == 0 then 1 else pktCounter;
      assert CounterAfter(old(pktCounter), 0) == old(pktCounter);
    }

    /** Resolves the one-shot cell behind a removed slot. */
    method Settle(slot: Slot, cell: Cell)
      requires slot.waiter < |waiters|
      modifies this`waiters
      ensures waiters == old(waiters)[slot.waiter := old(waiters)[slot.waiter].(cell := cell)]
    {
      waiters := waiters[slot.waiter := waiters[slot.waiter].(cell := cell)];
    }

    method Park(id: u16, kind: AckKind) returns (waiter: nat)
      requires Valid()
      modifies this
      ensures Valid() && View() == old(View()).(acks := old(View()).acks.Park(id, kind))
      ensures waiter == |old(waiters)|
    {
      StepKeepsConsistent(View().acks, OpPark(id, kind));
      if id in pendingAcks {
        Settle(pendingAcks[id], Dropped);
      }
      waiter := |waiters|;
      waiters := waiters + [Waiter(id, kind, Pending)];
      pendingAcks := pendingAcks[id := Slot(kind, waiter)];
      assert pendingAcks == (old(pendingAcks) - {id})[id := Slot(kind, waiter)];
    }

    method CancelAckWaiter(id: u16)
      requires Valid()
      modifies this
      ensures Valid() && View() == old(View()).(acks := old(View()).acks.Cancel(id))
    {
      StepKeepsConsistent(View().acks, OpCancel(id));
      if id in pendingAcks {
        Settle(pendingAcks[id], Dropped);
      }
      pendingAcks := pendingAcks - {id};
    }

    /** Second half of a wake: remove the slot, fire it or put it back. */
    method RemoveSlotAndFire(id: u16, expected: AckKind, value: AckValue)
      requires Valid()
      modifies this
      ensures Valid() && View() == old(View()).(acks := RemoveAndFire(old(View()).acks, id, expected, value))
    {
      ResolveKeepsConsistent(View().acks, id, Delivered(value));
      if id !in pendingAcks {
        return;
      }
      var slot := pendingAcks[id];
      pendingAcks := pendingAcks - {id};
      if Fires(expected, slot.kind) {
        Settle(slot, Delivered(value));
      } else {
        pendingAcks := pendingAcks[id := slot];
        assert pendingAcks == old(pendingAcks);
      }
    }

    /** Run without interruption, look-then-remove is compare-and-remove. */
    method WakeAckWaiter(id: u16, expected: AckKind)
      requires Valid() && expected.ForPublish()
      modifies this
      ensures Valid() && View() == old(View()).(acks := old(View()).acks.Wake(id, expected, OfId(id)))
    {
      if id !in pendingAcks {
        return;
      }
      var parkedKind := if pendingAcks[id].kind.ForPublish() then Some(pendingAcks[id].kind) else None;
      if parkedKind != Some(expected) {
        return;
      }
      RemoveSlotAndFire(id, expected, OfId(id));
    }

    method WakeSubackWaiter(id: u16, codes: seq<SubackCode>)
      requires Valid()
      modifies this
      ensures Valid() && View() == old(View()).(acks := old(View()).acks.Wake(id, KSuback, OfCodes(codes)))
    {
      if id !in pendingAcks || pendingAcks[id].kind != KSuback {
        return;
      }
      RemoveSlotAndFire(id, KSuback, OfCodes(codes));
    }

    method WakeUnsubackWaiter(id: u16)
      requires Valid()
      modifies this
      ensures Valid() && View() == old(View()).(acks := old(View()).acks.Wake(id, KUnsuback, OfUnit))
    {
      if id !in pendingAcks || pendingAcks[id].kind != KUnsuback {
        return;
      }
      RemoveSlotAndFire(id, KUnsuback, OfUnit);
    }

    method ClearOutboundInflight(id: u16)
      modifies this`outboundInflight
      ensures outboundInflight == old(outboundInflight) - {id}
    {
      outboundInflight := outboundInflight - {id};
    }

    method StashQos2Publish(id: u16, publish: PublishPacket)
      modifies this`qos2Recv
      ensures qos2Recv == old(qos2Recv)[id := publish]
    {
      qos2Recv := qos2Recv[id := publish];
    }

    method TakeQos2Publish(id: u16) returns (r: Option<PublishPacket>)
      modifies this`qos2Recv
      ensures r == if id in old(qos2Recv) then Some(old(qos2Recv)[id]) else None
      ensures qos2Recv == old(qos2Recv) - {id}
    {
      r := if id in qos2Recv then Some(qos2Recv[id]) else None;
      qos2Recv := qos2Recv - {id};
    }

    method TrackOutboundInflight(id: u16, publish: PublishPacket)
      modifies this`outboundInflight
      ensures View() == old(View()).Track(id, publish)
    {
      outboundInflight := outboundInflight[id := publish];
    }

    method Abandon()
      requires Valid()
      modifies this
      ensures Valid() && View() == Abandoned(old(View()))
    {
      StepKeepsConsistent(View().acks, OpAbandon);
      ghost var before := View().acks;
      for w := 0 to |waiters|
        invariant |waiters| == |before.waiters| && pktCounter == old(pktCounter) && pendingAcks == before.slots
        invariant forall i :: 0 <= i < |waiters| ==>
                    waiters[i] == if i < w && before.Held(i) then before.waiters[i].(cell := Dropped)
                                  else before.waiters[i]
      {
        assert waiters[w] == before.waiters[w];
        if waiters[w].id in pendingAcks && pendingAcks[waiters[w].id].waiter == w {
          waiters := waiters[w := waiters[w].(cell := Dropped)];
        }
      }
      pendingAcks, qos2Recv, outboundInflight := map[], map[], map[];
      assert waiters == before.Abandon().waiters;
    }
  }
}

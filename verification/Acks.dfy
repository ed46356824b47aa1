/** The ack-waiter table of a session: one slot per packet id, each slot holding
    the sending half of one waiter's one-shot cell. */
module Acks {
  import opened Types

  datatype AckKind = KPuback | KPubrec | KPubcomp | KSuback | KUnsuback {
    predicate ForPublish() { KPuback? || KPubrec? || KPubcomp? }
  }

  datatype AckValue = OfId(id: u16) | OfCodes(codes: seq<SubackCode>) | OfUnit

  datatype Cell = Pending | Delivered(value: AckValue) | Dropped

  datatype Slot = Slot(kind: AckKind, waiter: nat)

  datatype Waiter = Waiter(id: u16, kind: AckKind, cell: Cell)

  /** `waiters` lists every waiter ever parked, in parking order. */
  datatype AckTable = AckTable(slots: map<u16, Slot>, waiters: seq<Waiter>) {
    /** Every slot's waiter is unresolved and remembers the slot's id and kind. */
    ghost predicate Sane() {
      forall id :: id in slots ==>
        && slots[id].waiter < |waiters|
        && waiters[slots[id].waiter] == Waiter(id, slots[id].kind, Pending)
    }

    /** Waiter `w` owns the slot of its id. */
    predicate Held(w: nat)
      requires w < |waiters|
    {
      waiters[w].id in slots && slots[waiters[w].id].waiter == w
    }

    /** And every unresolved waiter owns the slot of its id. */
    ghost predicate Consistent() {
      Sane() && forall w :: 0 <= w < |waiters| && waiters[w].cell.Pending? ==> Held(w)
    }

    /** Removes the slot of `id`, if any, resolving its waiter to `cell`. */
    function Resolve(id: u16, cell: Cell): AckTable {
      if id in slots && slots[id].waiter < |waiters| then
        var w := slots[id].waiter;
        AckTable(slots - {id}, waiters[w := waiters[w].(cell := cell)])
      else this
    }

    /** Inserting over a slot drops the sender it held. */
    function Park(id: u16, kind: AckKind): AckTable {
      var t := Resolve(id, Dropped);
      AckTable(t.slots[id := Slot(kind, |t.waiters|)], t.waiters + [Waiter(id, kind, Pending)])
    }

    function Cancel(id: u16): AckTable { Resolve(id, Dropped) }

    /** Clearing the table drops every sender in it. */
    function Abandon(): AckTable {
      AckTable(map[], seq(|waiters|, w requires 0 <= w < |waiters| =>
        if Held(w) then waiters[w].(cell := Dropped) else waiters[w]))
    }

    predicate Holds(id: u16, kind: AckKind) { id in slots && slots[id].kind == kind }

    /** An ack: compare the kind and remove, in one step. */
    function Wake(id: u16, kind: AckKind, value: AckValue): AckTable {
      if Holds(id, kind) then Resolve(id, Delivered(value)) else this
    }

    function Step(op: AckOp): AckTable {
      match op
      case OpPark(id, kind) => Park(id, kind)
      case OpWake(id, kind, value) => Wake(id, kind, value)
      case OpCancel(id) => Cancel(id)
      case OpAbandon => Abandon()
    }

    function Run(ops: seq<AckOp>): AckTable
      decreases |ops|
    {
      if ops == [] then this else Step(ops[0]).Run(ops[1..])
    }
  }

  datatype AckOp =
    | OpPark(id: u16, kind: AckKind)
    | OpWake(id: u16, kind: AckKind, value: AckValue)
    | OpCancel(id: u16)
    | OpAbandon

  const EmptyTable := AckTable(map[], [])

  // ---- conservation -----------------------------------------------------------

  lemma ResolveKeepsConsistent(t: AckTable, id: u16, cell: Cell)
    requires t.Consistent() && !cell.Pending?
    ensures t.Resolve(id, cell).Consistent() && id !in t.Resolve(id, cell).slots
  {
  }

  lemma ResolveKeepsSane(t: AckTable, id: u16, cell: Cell)
    requires t.Sane()
    ensures t.Resolve(id, cell).Sane() && id !in t.Resolve(id, cell).slots
  {
  }

  lemma StepKeepsSane(t: AckTable, op: AckOp)
    requires t.Sane()
    ensures t.Step(op).Sane()
  {
    match op {
      case OpPark(id, _) => ResolveKeepsSane(t, id, Dropped);
      case OpWake(id, _, value) => ResolveKeepsSane(t, id, Delivered(value));
      case OpCancel(id) => ResolveKeepsSane(t, id, Dropped);
      case OpAbandon =>
    }
  }

  lemma StepKeepsConsistent(t: AckTable, op: AckOp)
    requires t.Consistent()
    ensures t.Step(op).Consistent()
  {
    match op {
      case OpPark(id, _) => ResolveKeepsConsistent(t, id, Dropped);
      case OpWake(id, _, value) => ResolveKeepsConsistent(t, id, Delivered(value));
      case OpCancel(id) => ResolveKeepsConsistent(t, id, Dropped);
      case OpAbandon =>
    }
  }

  /** In every run the slots are in bijection with the unresolved waiters. */
  lemma {:induction false} WaitersAreConserved(t: AckTable, ops: seq<AckOp>)
    requires t.Consistent()
    ensures t.Run(ops).Consistent()
    decreases |ops|
  {
    if ops != [] {
      StepKeepsConsistent(t, ops[0]);
      WaitersAreConserved(t.Step(ops[0]), ops[1..]);
    }
  }

  /** What one operation does to an unresolved waiter. */
  function FateOf(op: AckOp, id: u16, kind: AckKind): Cell {
    match op
    case OpWake(i, k, v) => if i == id && k == kind then Delivered(v) else Pending
    case OpPark(i, _) => if i == id then Dropped else Pending
    case OpCancel(i) => if i == id then Dropped else Pending
    case OpAbandon => Dropped
  }

  /** The first operation that touches a waiter decides it for good. */
  function Fate(ops: seq<AckOp>, id: u16, kind: AckKind): Cell {
    if ops == [] then Pending
    else if FateOf(ops[0], id, kind).Pending? then Fate(ops[1..], id, kind)
    else FateOf(ops[0], id, kind)
  }

  /** An operation decides the waiters in the table and no others. */
  lemma StepDecides(t: AckTable, op: AckOp, w: nat)
    requires t.Sane() && w < |t.waiters|
    ensures w < |t.Step(op).waiters|
    ensures t.Step(op).waiters[w] ==
              if t.Held(w) then t.waiters[w].(cell := FateOf(op, t.waiters[w].id, t.waiters[w].kind))
              else t.waiters[w]
  {
  }

  /** Each waiter resolves at most once: by an ack of its own id and kind, with
      that ack's value, or by a cancel or a later park of its id, or by abandon,
      whichever comes first; nothing else resolves it. */
  lemma {:induction false} WaiterFate(t: AckTable, ops: seq<AckOp>, w: nat)
    requires t.Consistent() && w < |t.waiters|
    ensures w < |t.Run(ops).waiters|
    ensures t.Run(ops).waiters[w] ==
              if t.waiters[w].cell.Pending? then t.waiters[w].(cell := Fate(ops, t.waiters[w].id, t.waiters[w].kind))
              else t.waiters[w]
    decreases |ops|
  {
    if ops != [] {
      StepKeepsConsistent(t, ops[0]);
      StepDecides(t, ops[0], w);
      WaiterFate(t.Step(ops[0]), ops[1..], w);
    }
  }

  // ---- the wake as the code takes it --------------------------------------------

  function Seen(t: AckTable, id: u16): Option<AckKind> {
    if id in t.slots then Some(t.slots[id].kind) else None
  }

  /** Which slots the removal fires; any other slot goes back. */
  predicate Fires(expected: AckKind, found: AckKind) {
    if expected.ForPublish() then found.ForPublish() else found == expected
  }

  /** Take the slot of `id` out; its waiter is in the waker's hands. */
  function TakeOut(t: AckTable, id: u16): AckTable { t.(slots := t.slots - {id}) }

  /** Insert a slot that was taken out, over whatever is there by now. */
  function PutBack(t: AckTable, id: u16, slot: Slot): AckTable {
    var t1 := t.Resolve(id, Dropped);
    t1.(slots := t1.slots[id := slot])
  }

  /** Removal and put-back with nothing in between. */
  function RemoveAndFire(t: AckTable, id: u16, expected: AckKind, value: AckValue): AckTable {
    if id in t.slots && Fires(expected, t.slots[id].kind) then t.Resolve(id, Delivered(value)) else t
  }

  /** A wake that looks, lets other tasks do `gap1`, removes, and, if what it found
      is not its to fire, lets other tasks do `gap2` before it puts that back. */
  function SteppedWake(
    t: AckTable, id: u16, expected: AckKind, value: AckValue, gap1: seq<AckOp>, gap2: seq<AckOp>): AckTable
  {
    var later := t.Run(gap1);
    if Seen(t, id) != Some(expected) || id !in later.slots then later.Run(gap2)
    else if Fires(expected, later.slots[id].kind) then later.Resolve(id, Delivered(value)).Run(gap2)
    else PutBack(TakeOut(later, id).Run(gap2), id, later.slots[id])
  }

  /** The same tasks around a wake that is one step: taken at the removal if the
      look found its kind, and at the look otherwise. */
  function AtomicWake(
    t: AckTable, id: u16, expected: AckKind, value: AckValue, gap1: seq<AckOp>, gap2: seq<AckOp>): AckTable
  {
    if Seen(t, id) == Some(expected) then t.Run(gap1).Wake(id, expected, value).Run(gap2)
    else t.Wake(id, expected, value).Run(gap1).Run(gap2)
  }

  /** What the removal may find, and what may follow, for the wake to be atomic. A
      slot that was there to be fired is fine. A publish slot of another kind must
      be one the second gap acknowledges all the same. A slot to put back must be
      one the second gap does not touch. */
  predicate WakeIsAtomic(t: AckTable, id: u16, expected: AckKind, value: AckValue, gap1: seq<AckOp>, gap2: seq<AckOp>) {
    Seen(t, id) == Some(expected) ==>
      match Seen(t.Run(gap1), id)
      case None => true
      case Some(found) =>
        if found == expected then true
        else if Fires(expected, found) then Fate(gap2, id, found) == Delivered(value)
        else Fate(gap2, id, found).Pending?
  }

  /** The stepped wake is the atomic one exactly under that condition. */
  lemma SteppedExactly(
    t: AckTable, id: u16, expected: AckKind, value: AckValue, gap1: seq<AckOp>, gap2: seq<AckOp>)
    requires t.Consistent()
    ensures SteppedWake(t, id, expected, value, gap1, gap2) == AtomicWake(t, id, expected, value, gap1, gap2)
       <==> WakeIsAtomic(t, id, expected, value, gap1, gap2)
  {
    WaitersAreConserved(t, gap1);
    var later := t.Run(gap1);
    if Seen(t, id) == Some(expected) && id in later.slots && later.slots[id].kind != expected {
      if Fires(expected, later.slots[id].kind) {
        FiredEarly(later, id, value, gap2);
      } else {
        PutBackLate(later, id, gap2);
      }
    }
  }

  /** Firing a waiter early and then running `ops` gives the plain run exactly when
      `ops` delivers the same value to it. */
  lemma FiredEarly(t: AckTable, id: u16, value: AckValue, ops: seq<AckOp>)
    requires t.Consistent() && id in t.slots
    ensures t.Resolve(id, Delivered(value)).Run(ops) == t.Run(ops)
       <==> Fate(ops, id, t.slots[id].kind) == Delivered(value)
  {
    var w, fired := t.slots[id].waiter, t.Resolve(id, Delivered(value));
    ResolveKeepsConsistent(t, id, Delivered(value));
    WaiterFate(t, ops, w);
    WaiterFate(fired, ops, w);
    if Fate(ops, id, t.slots[id].kind) == Delivered(value) {
      DeliveredAnyway(t, id, value, ops);
    }
  }

  lemma {:induction false} DeliveredAnyway(t: AckTable, id: u16, value: AckValue, ops: seq<AckOp>)
    requires t.Consistent() && id in t.slots
    requires Fate(ops, id, t.slots[id].kind) == Delivered(value)
    ensures t.Resolve(id, Delivered(value)).Run(ops) == t.Run(ops)
    decreases |ops|
  {
    var op := ops[0];
    if FateOf(op, id, t.slots[id].kind).Pending? {
      Commutes(t, id, Delivered(value), op);
      StepKeepsConsistent(t, op);
      DeliveredAnyway(t.Step(op), id, value, ops[1..]);
    }
  }

  /** An operation that does not concern a slot leaves it and commutes with
      resolving it and with taking it out. */
  lemma Commutes(t: AckTable, id: u16, cell: Cell, op: AckOp)
    requires t.Sane() && id in t.slots && FateOf(op, id, t.slots[id].kind).Pending?
    ensures id in t.Step(op).slots && t.Step(op).slots[id] == t.slots[id]
    ensures t.Resolve(id, cell).Step(op) == t.Step(op).Resolve(id, cell)
    ensures TakeOut(t, id).Step(op) == TakeOut(t.Step(op), id)
  {
    match op {
      case OpPark(j, kind) =>
        assert j != id;
        ResolvesCommute(t, id, cell, j, Dropped);
        TakeOutCommutes(t, id, j, Dropped);
        ParkCommutes(t, id, cell, j, kind);
      case OpWake(j, kind, value) =>
        if t.Holds(j, kind) {
          assert j != id;
          ResolvesCommute(t, id, cell, j, Delivered(value));
          TakeOutCommutes(t, id, j, Delivered(value));
        }
      case OpCancel(j) =>
        assert j != id;
        ResolvesCommute(t, id, cell, j, Dropped);
        TakeOutCommutes(t, id, j, Dropped);
    }
  }

  lemma ResolvesCommute(t: AckTable, i: u16, a: Cell, j: u16, b: Cell)
    requires t.Sane() && i != j
    ensures t.Resolve(i, a).Resolve(j, b) == t.Resolve(j, b).Resolve(i, a)
  {
    if i in t.slots && j in t.slots {
      assert t.slots[i].waiter != t.slots[j].waiter;
      assert t.slots - {i} - {j} == t.slots - {j} - {i};
      assert t.Resolve(i, a).Resolve(j, b).waiters == t.Resolve(j, b).Resolve(i, a).waiters;
    }
  }

  lemma TakeOutCommutes(t: AckTable, i: u16, j: u16, b: Cell)
    requires t.Sane() && i != j
    ensures TakeOut(t, i).Resolve(j, b) == TakeOut(t.Resolve(j, b), i)
  {
    assert t.slots - {i} - {j} == t.slots - {j} - {i};
  }

  lemma ParkCommutes(t: AckTable, id: u16, cell: Cell, j: u16, kind: AckKind)
    requires t.Sane() && id in t.slots && j != id
    ensures t.Resolve(id, cell).Park(j, kind) == t.Park(j, kind).Resolve(id, cell)
    ensures TakeOut(t, id).Park(j, kind) == TakeOut(t.Park(j, kind), id)
  {
    ResolvesCommute(t, id, cell, j, Dropped);
    TakeOutCommutes(t, id, j, Dropped);
    var t1 := t.Resolve(j, Dropped);
    var slot := Slot(kind, |t1.waiters|);
    assert (t1.slots - {id})[j := slot] == t1.slots[j := slot] - {id};
    var w := t.slots[id].waiter;
    assert (t1.waiters + [Waiter(j, kind, Pending)])[w := t1.waiters[w].(cell := cell)]
        == t1.waiters[w := t1.waiters[w].(cell := cell)] + [Waiter(j, kind, Pending)];
  }

  /** Holding a slot back while `ops` runs gives the plain run exactly when `ops`
      does not concern its waiter. */
  lemma PutBackLate(t: AckTable, id: u16, ops: seq<AckOp>)
    requires t.Consistent() && id in t.slots
    ensures PutBack(TakeOut(t, id).Run(ops), id, t.slots[id]) == t.Run(ops)
       <==> Fate(ops, id, t.slots[id].kind).Pending?
  {
    var slot := t.slots[id];
    WaiterFate(t, ops, slot.waiter);
    if Fate(ops, id, slot.kind).Pending? {
      TakenOutRuns(t, id, ops);
      assert t.Run(ops).slots == (t.Run(ops).slots - {id})[id := slot];
    } else {
      InHandStays(TakeOut(t, id), ops, slot.waiter);
    }
  }

  lemma {:induction false} TakenOutRuns(t: AckTable, id: u16, ops: seq<AckOp>)
    requires t.Sane() && id in t.slots && Fate(ops, id, t.slots[id].kind).Pending?
    ensures id in t.Run(ops).slots && t.Run(ops).slots[id] == t.slots[id]
    ensures TakeOut(t, id).Run(ops) == TakeOut(t.Run(ops), id)
    decreases |ops|
  {
    if ops != [] {
      Commutes(t, id, Dropped, ops[0]);
      StepKeepsSane(t, ops[0]);
      TakenOutRuns(t.Step(ops[0]), id, ops[1..]);
    }
  }

  /** No operation reaches a waiter that is in no slot. */
  lemma {:induction false} InHandStays(t: AckTable, ops: seq<AckOp>, w: nat)
    requires t.Sane() && w < |t.waiters| && forall j :: j in t.slots ==> t.slots[j].waiter != w
    ensures w < |t.Run(ops).waiters| && t.Run(ops).waiters[w] == t.waiters[w]
    ensures forall j :: j in t.Run(ops).slots ==> t.Run(ops).slots[j].waiter != w
    decreases |ops|
  {
    if ops != [] {
      StepKeepsSane(t, ops[0]);
      StepDecides(t, ops[0], w);
      InHandStays(t.Step(ops[0]), ops[1..], w);
    }
  }

  /** With no park on the id between look and removal, which is what a lone reader
      sees while an id names one flow, the stepped wake is the atomic one. */
  lemma SteppedReduction(
    t: AckTable, id: u16, expected: AckKind, value: AckValue, gap1: seq<AckOp>, gap2: seq<AckOp>)
    requires t.Consistent()
    requires forall i :: 0 <= i < |gap1| && gap1[i].OpPark? ==> gap1[i].id != id
    ensures SteppedWake(t, id, expected, value, gap1, gap2) == AtomicWake(t, id, expected, value, gap1, gap2)
  {
    SlotOnlyDisappears(t, id, gap1);
    SteppedExactly(t, id, expected, value, gap1, gap2);
  }

  lemma {:induction false} SlotOnlyDisappears(t: AckTable, id: u16, ops: seq<AckOp>)
    requires t.Consistent()
    requires forall i :: 0 <= i < |ops| && ops[i].OpPark? ==> ops[i].id != id
    ensures id in t.Run(ops).slots ==> id in t.slots && t.Run(ops).slots[id] == t.slots[id]
    decreases |ops|
  {
    if ops != [] {
      StepKeepsConsistent(t, ops[0]);
      assert id in t.Step(ops[0]).slots ==> id in t.slots && t.Step(ops[0]).slots[id] == t.slots[id];
      SlotOnlyDisappears(t.Step(ops[0]), id, ops[1..]);
    }
  }

  /** With a re-park in the first gap, a PUBREC fires a PUBCOMP waiter. */
  lemma CrossKindWake()
    ensures var t := EmptyTable.Park(7, KPubrec);
            var after := SteppedWake(t, 7, KPubrec, OfId(7), [OpCancel(7), OpPark(7, KPubcomp)], []);
            && |after.waiters| == 2
            && after.waiters[1] == Waiter(7, KPubcomp, Delivered(OfId(7)))
  {
    TwoOps(EmptyTable.Park(7, KPubrec), OpCancel(7), OpPark(7, KPubcomp));
  }

  /** With a re-park in the first gap and a close in the second, the slot is back in
      the table after the close, its waiter pending for good. */
  lemma SlotSurvivesAbandon()
    ensures var t := EmptyTable.Park(7, KPubrec);
            var gap1, gap2 := [OpCancel(7), OpPark(7, KSuback)], [OpAbandon];
            && Seen(SteppedWake(t, 7, KPubrec, OfId(7), gap1, gap2), 7) == Some(KSuback)
            && Seen(AtomicWake(t, 7, KPubrec, OfId(7), gap1, gap2), 7) == None
  {
    var t := EmptyTable.Park(7, KPubrec);
    TwoOps(t, OpCancel(7), OpPark(7, KSuback));
    var later := t.Step(OpCancel(7)).Step(OpPark(7, KSuback));
    OneOp(TakeOut(later, 7), OpAbandon);
    OneOp(later, OpAbandon);
  }

  lemma OneOp(t: AckTable, a: AckOp)
    ensures t.Run([a]) == t.Step(a)
  {
    assert t.Step(a).Run([a][1..]) == t.Step(a);
  }

  lemma TwoOps(t: AckTable, a: AckOp, b: AckOp)
    ensures t.Run([a, b]) == t.Step(a).Step(b)
  {
    assert [a, b][1..] == [b];
    OneOp(t.Step(a), b);
  }
}

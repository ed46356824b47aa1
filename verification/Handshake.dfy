/** Outbound flows of one connection: any number of sender tasks, one reader, and
    a close at any time, interleaved step by step. The reader's wakes are the three
    table operations the code makes of them: look, remove, put back. Timeouts may
    strike whenever a task waits. `log` records what happened, in order. */
module Handshake {
  import opened Types
  import opened Acks
  import opened PacketIds

  datatype Request = AskPublish(qos: QoS) | AskSubscribe | AskUnsubscribe {
    /** The ack the first wait is for. */
    function FirstKind(): AckKind {
      match this
      case AskPublish(qos) => if qos.ExactlyOnce? then KPubrec else KPuback
      case AskSubscribe => KSuback
      case AskUnsubscribe => KUnsuback
    }
  }

  datatype Outcome =
    | Sent
    | Acknowledged(id: u16)
    | Completed(id: u16)
    | Subscribed(codes: seq<SubackCode>)
    | Unsubscribed
    | Failed(error: MqttError)

  datatype Task =
    | Ready(req: Request)
    | Allocated(req: Request, id: u16)
    | Parked(req: Request, id: u16, first: nat)
    | Waiting(req: Request, id: u16, first: nat)
    | Released(id: u16, first: nat)
    | Finishing(id: u16, first: nat, second: nat)
    | Returned(outcome: Outcome)

  /** Between a look and its removal the reader is `Looked`: it saw waiter `waiter`,
      and `at` is where the log has the ack. A slot it took out and must put back is
      in its hands while it is `Holding`. */
  datatype Reader =
    | Idle
    | Looked(id: u16, kind: AckKind, value: AckValue, waiter: nat, at: nat)
    | Holding(id: u16, kind: AckKind, slot: Slot)
    | OwesPubrel(id: u16)
    | Stopped
  {
    predicate Owes(rec: u16) {
      || this == OwesPubrel(rec)
      || ((Looked? || Holding?) && kind.KPubrec? && id == rec)
    }
  }

  /** The reader once an ack's wake is over. */
  function Woken(id: u16, kind: AckKind): Reader { if kind.KPubrec? then OwesPubrel(id) else Idle }

  datatype Event =
    | DidPark(task: nat, id: u16, kind: AckKind, waiter: nat)
    | DidSend(task: nat)
    | DidReceive(id: u16, kind: AckKind, value: AckValue)
    | DidPubrel(id: u16)
    | DidReturn(task: nat, outcome: Outcome)

  /** The waiters and the log; `owners`, `parkedAt` and `deliveredAt` say which task
      parked each waiter, and where in the log it was parked and its ack arrived. */
  datatype Hist = Hist(
    acks: AckTable, log: seq<Event>, owners: seq<nat>, parkedAt: seq<nat>, deliveredAt: map<nat, nat>)
  {
    function Log(e: Event): Hist { this.(log := log + [e]) }

    function Park(t: nat, id: u16, kind: AckKind): Hist {
      this.(acks := acks.Park(id, kind), owners := owners + [t], parkedAt := parkedAt + [|log|])
        .Log(DidPark(t, id, kind, |acks.waiters|))
    }

    /** Deliver to the slot of `id` the ack that arrived at `at`. */
    function Fire(id: u16, value: AckValue, at: nat): Hist
      requires id in acks.slots
    {
      this.(acks := acks.Resolve(id, Delivered(value)), deliveredAt := deliveredAt[acks.slots[id].waiter := at])
    }

    function CellOf(w: nat): Cell { if w < |acks.waiters| then acks.waiters[w].cell else Pending }
  }

  /** `allocs` counts the ids handed out and `born` says which one each task got. */
  datatype Conn = Conn(
    client: bool, counter: u16, tasks: map<nat, Task>, reader: Reader, h: Hist, allocs: nat, born: map<nat, nat>)
  {
    function Becomes(t: nat, task: Task): Conn { this.(tasks := tasks[t := task]) }

    function Log(e: Event): Conn { this.(h := h.Log(e)) }

    function Return(t: nat, outcome: Outcome): Conn {
      Becomes(t, Returned(outcome)).Log(DidReturn(t, outcome))
    }

    function Park(t: nat, id: u16, kind: AckKind): Conn { this.(h := h.Park(t, id, kind)) }

    function TakeId(): Conn { this.(counter := NextCounter(counter), allocs := allocs + 1) }

    /** The reader takes an ack and looks; a server ignores SUBACK and UNSUBACK. */
    function Receive(id: u16, kind: AckKind, value: AckValue): Conn {
      Log(DidReceive(id, kind, value)).(reader :=
        if (client || kind.ForPublish()) && h.acks.Holds(id, kind)
        then Looked(id, kind, value, h.acks.slots[id].waiter, |h.log|)
        else Woken(id, kind))
    }

    /** The reader removes the slot it looked at and fires what it finds. */
    function Remove(): Conn
      requires reader.Looked?
    {
      var id, kind, slots := reader.id, reader.kind, h.acks.slots;
      if id !in slots then this.(reader := Woken(id, kind))
      else if Fires(kind, slots[id].kind) then
        this.(h := h.Fire(id, reader.value, reader.at), reader := Woken(id, kind))
      else this.(h := h.(acks := TakeOut(h.acks, id)), reader := Holding(id, kind, slots[id]))
    }

    function Replace(): Conn
      requires reader.Holding?
    {
      this.(h := h.(acks := PutBack(h.acks, reader.id, reader.slot)), reader := Woken(reader.id, reader.kind))
    }

    function Cancel(id: u16): Conn { this.(h := h.(acks := h.acks.Cancel(id))) }
  }

  function Fresh(client: bool): Conn {
    Conn(client, 0, map[], Idle, Hist(EmptyTable, [], [], [], map[]), 0, map[])
  }

  datatype Action =
    | Spawn(task: nat, req: Request)
    | Allocate(task: nat)
    | ParkFirst(task: nat)
    | Enqueue(task: nat, ok: bool)
    | Resume(task: nat)
    | ParkSecond(task: nat)
    | TimeOut(task: nat)
    | ReadAck(id: u16, kind: AckKind, codes: seq<SubackCode>)
    | RemoveSlot
    | ReplaceSlot
    | SendPubrel(ok: bool)
    | AllocateElsewhere
    | StopReader
    | Close

  /** What a waiter is sent: the id of a publish ack, the codes of a SUBACK. */
  function Content(id: u16, kind: AckKind, codes: seq<SubackCode>): AckValue {
    if kind.ForPublish() then OfId(id) else if kind.KSuback? then OfCodes(codes) else OfUnit
  }

  /** One step; an action that is not enabled changes nothing. A wake has no await
      point, so the reader does not stop inside one. The broker's fan-out and the
      client's initial SUBSCRIBE take ids from the same counter and park nothing. */
  function Do(s: Conn, a: Action): Conn {
    match a
    case Spawn(t, req) => if t in s.tasks then s else s.Becomes(t, Ready(req))
    case ReadAck(id, kind, codes) => if s.reader.Idle? then s.Receive(id, kind, Content(id, kind, codes)) else s
    case RemoveSlot => if s.reader.Looked? then s.Remove() else s
    case ReplaceSlot => if s.reader.Holding? then s.Replace() else s
    case SendPubrel(ok) =>
      if !s.reader.OwesPubrel? then s
      else if ok then s.Log(DidPubrel(s.reader.id)).(reader := Idle)
      else s.(reader := Stopped)
    case AllocateElsewhere => s.TakeId()
    case StopReader => if s.reader.Looked? || s.reader.Holding? then s else s.(reader := Stopped)
    case Close => s.(h := s.h.(acks := s.h.acks.Abandon()))
    case _ => if a.task in s.tasks then Advance(s, a.task, s.tasks[a.task], a) else s
  }

  /** A sender task's own step. */
  function Advance(s: Conn, t: nat, task: Task, a: Action): Conn {
    match (task, a)
    case (Ready(req), Allocate(_)) =>
      if req == AskPublish(AtMostOnce) then s
      else s.TakeId().(born := s.born[t := s.allocs]).Becomes(t, Allocated(req, IdAt(NextCounter(s.counter))))
    case (Ready(req), Enqueue(_, ok)) =>
      if req != AskPublish(AtMostOnce) then s
      else if ok then s.Log(DidSend(t)).Return(t, Sent)
      else s.Return(t, Failed(ChannelClosed))
    case (Allocated(req, id), ParkFirst(_)) =>
      s.Park(t, id, req.FirstKind()).Becomes(t, Parked(req, id, |s.h.acks.waiters|))
    case (Parked(req, id, w), Enqueue(_, ok)) =>
      if ok then s.Log(DidSend(t)).Becomes(t, Waiting(req, id, w)) else s.Return(t, Failed(ChannelClosed))
    case (Waiting(req, id, w), Resume(_)) =>
      (match s.h.CellOf(w)
       case Pending => s
       case Dropped => s.Return(t, Failed(ChannelClosed))
       case Delivered(v) =>
         if req == AskPublish(ExactlyOnce) then s.Becomes(t, Released(id, w))
         else s.Return(t, Reported(req, v)))
    case (Released(id, w), ParkSecond(_)) =>
      s.Park(t, id, KPubcomp).Becomes(t, Finishing(id, w, |s.h.acks.waiters|))
    case (Finishing(id, _, w), Resume(_)) =>
      (match s.h.CellOf(w)
       case Pending => s
       case Dropped => s.Return(t, Failed(ChannelClosed))
       case Delivered(v) => s.Return(t, if v.OfId? then Completed(v.id) else Failed(ChannelClosed)))
    case (Waiting(_, id, _), TimeOut(_)) =>
      s.Cancel(id).Return(t, Failed(AckTimeout))
    case (Finishing(id, _, _), TimeOut(_)) =>
      s.Cancel(id).Return(t, Failed(AckTimeout))
    case _ => s
  }

  /** What a task reports for the value its first wait delivered. */
  function Reported(req: Request, v: AckValue): Outcome {
    match (req, v)
    case (AskPublish(_), OfId(id)) => Acknowledged(id)
    case (AskSubscribe, OfCodes(codes)) => Subscribed(codes)
    case (AskUnsubscribe, OfUnit) => Unsubscribed
    case _ => Failed(ChannelClosed)
  }

  function Run(s: Conn, actions: seq<Action>): Conn
    decreases |actions|
  {
    if actions == [] then s else Run(Do(s, actions[0]), actions[1..])
  }

  // ---- what a report means ----------------------------------------------------

  /** Task `t` enqueued its request after `p` and before `n`. */
  ghost predicate SentBetween(log: seq<Event>, p: int, n: int, t: nat) {
    exists q :: -1 <= p < q < n <= |log| && log[q] == DidSend(t)
  }

  /** Before `n`, task `t` parked for `kind` on `id`, then sent its request, and after
      the park the ack arrived. */
  ghost predicate AckedBefore(log: seq<Event>, n: nat, t: nat, id: u16, kind: AckKind, v: AckValue) {
    exists p, q, w: nat :: 0 <= p < q < n <= |log|
      && log[p] == DidPark(t, id, kind, w) && log[q] == DidReceive(id, kind, v) && SentBetween(log, p, n, t)
  }

  /** The four-message handshake, as positions in the log. */
  ghost predicate HandshakeAt(log: seq<Event>, n: nat, t: nat, id: u16, p1: nat, rec: nat, rel: nat, p2: nat, comp: nat) {
    && p1 < rec < rel < comp < n <= |log|
    && rec < p2 < comp
    && (exists w: nat :: log[p1] == DidPark(t, id, KPubrec, w))
    && SentBetween(log, p1, n, t)
    && log[rec] == DidReceive(id, KPubrec, OfId(id))
    && log[rel] == DidPubrel(id)
    && (exists w: nat :: log[p2] == DidPark(t, id, KPubcomp, w))
    && log[comp] == DidReceive(id, KPubcomp, OfId(id))
  }

  ghost predicate HandshakeBefore(log: seq<Event>, n: nat, t: nat, id: u16) {
    exists p1: nat, rec: nat, rel: nat, p2: nat, comp: nat :: HandshakeAt(log, n, t, id, p1, rec, rel, p2, comp)
  }

  ghost predicate Justified(log: seq<Event>, n: nat, t: nat, outcome: Outcome) {
    match outcome
    case Sent => SentBetween(log, -1, n, t)
    case Acknowledged(id) => AckedBefore(log, n, t, id, KPuback, OfId(id))
    case Completed(id) => HandshakeBefore(log, n, t, id)
    case Subscribed(codes) => exists id: u16 :: AckedBefore(log, n, t, id, KSuback, OfCodes(codes))
    case Unsubscribed => exists id: u16 :: AckedBefore(log, n, t, id, KUnsuback, OfUnit)
    case Failed(_) => true
  }

  // ---- the condition --------------------------------------------------------------

  /** A removal that fires, fires the waiter the look saw. */
  predicate Clean(s: Conn, a: Action) {
    a.RemoveSlot? && s.reader.Looked? && s.reader.id in s.h.acks.slots
      && Fires(s.reader.kind, s.h.acks.slots[s.reader.id].kind) ==>
      s.h.acks.slots[s.reader.id].waiter == s.reader.waiter
  }

  predicate CleanRun(s: Conn, actions: seq<Action>)
    decreases |actions|
  {
    actions == [] || (Clean(s, actions[0]) && CleanRun(Do(s, actions[0]), actions[1..]))
  }

  // ---- the invariant ------------------------------------------------------------

  predicate Fits(id: u16, kind: AckKind, v: AckValue) {
    if kind.ForPublish() then v == OfId(id) else if kind.KSuback? then v.OfCodes? else v.OfUnit?
  }

  ghost predicate Lengths(h: Hist) { |h.acks.waiters| == |h.parkedAt| == |h.owners| }

  ghost predicate WaiterOk(h: Hist, w: nat)
    requires Lengths(h) && w < |h.acks.waiters|
  {
    var wt, p := h.acks.waiters[w], h.parkedAt[w];
    && p < |h.log| && h.log[p] == DidPark(h.owners[w], wt.id, wt.kind, w)
    && (wt.cell.Delivered? ==>
          && Fits(wt.id, wt.kind, wt.cell.value)
          && w in h.deliveredAt && p < h.deliveredAt[w] < |h.log|
          && h.log[h.deliveredAt[w]] == DidReceive(wt.id, wt.kind, wt.cell.value))
  }

  ghost predicate Waiters(h: Hist) {
    h.acks.Sane() && Lengths(h) && forall w :: 0 <= w < |h.acks.waiters| ==> WaiterOk(h, w)
  }

  /** Every park in the log is a waiter. */
  ghost predicate Parks(log: seq<Event>, parkedAt: seq<nat>) {
    forall p :: 0 <= p < |log| && log[p].DidPark? ==>
      log[p].waiter < |parkedAt| && parkedAt[log[p].waiter] == p
  }

  /** The task has waiter `w` on record, or is over. */
  predicate Knows(task: Task, w: nat) {
    match task
    case Ready(_) => false
    case Allocated(_, _) => false
    case Parked(_, _, first) => w == first
    case Waiting(_, _, first) => w == first
    case Released(_, first) => w == first
    case Finishing(_, first, second) => w == first || w == second
    case Returned(_) => true
  }

  ghost predicate Owners(owners: seq<nat>, tasks: map<nat, Task>) {
    forall w :: 0 <= w < |owners| ==> owners[w] in tasks && Knows(tasks[owners[w]], w)
  }

  /** A task parks again only once its first waiter was delivered. */
  ghost predicate Firsts(owners: seq<nat>, waiters: seq<Waiter>) {
    forall w, x :: 0 <= w < x < |owners| && owners[w] == owners[x] ==> w < |waiters| && waiters[w].cell.Delivered?
  }

  ghost predicate LookOk(h: Hist, id: u16, kind: AckKind, v: AckValue, w: nat, at: nat) {
    && Fits(id, kind, v)
    && w < |h.acks.waiters| && Lengths(h)
    && h.acks.waiters[w].id == id && h.acks.waiters[w].kind == kind && !h.acks.waiters[w].cell.Delivered?
    && h.parkedAt[w] < at < |h.log| && h.log[at] == DidReceive(id, kind, v)
    && (forall q :: at < q < |h.log| ==> !h.log[q].DidReceive?)
    && (id in h.acks.slots ==>
          var x := h.acks.slots[id].waiter;
          x < |h.acks.waiters| && (x != w ==> w < x && at < h.parkedAt[x]))
  }

  ghost predicate HoldOk(t: AckTable, id: u16, slot: Slot) {
    && slot.waiter < |t.waiters| && t.waiters[slot.waiter] == Waiter(id, slot.kind, Pending)
    && forall j :: j in t.slots ==> t.slots[j].waiter != slot.waiter
  }

  ghost predicate ReaderOk(h: Hist, reader: Reader) {
    && (reader.Looked? ==> LookOk(h, reader.id, reader.kind, reader.value, reader.waiter, reader.at))
    && (reader.Holding? ==> HoldOk(h.acks, reader.id, reader.slot))
  }

  /** Waiter `w` is the one task `t` parked for `kind` on `id`. */
  ghost predicate Owns(h: Hist, t: nat, w: nat, id: u16, kind: AckKind) {
    && w < |h.acks.waiters| && Lengths(h)
    && h.acks.waiters[w].id == id && h.acks.waiters[w].kind == kind && h.owners[w] == t
  }

  ghost predicate TaskOk(h: Hist, t: nat, task: Task) {
    match task
    case Parked(req, id, w) => Owns(h, t, w, id, req.FirstKind())
    case Waiting(req, id, w) => Owns(h, t, w, id, req.FirstKind()) && SentBetween(h.log, h.parkedAt[w], |h.log|, t)
    case Released(id, w) =>
      && Owns(h, t, w, id, KPubrec) && h.acks.waiters[w].cell.Delivered?
      && SentBetween(h.log, h.parkedAt[w], |h.log|, t)
    case Finishing(id, w, w2) =>
      && Owns(h, t, w, id, KPubrec) && h.acks.waiters[w].cell.Delivered?
      && SentBetween(h.log, h.parkedAt[w], |h.log|, t)
      && Owns(h, t, w2, id, KPubcomp)
      && w in h.deliveredAt && h.deliveredAt[w] < h.parkedAt[w2]
    case _ => true
  }

  ghost predicate Tasks(h: Hist, tasks: map<nat, Task>) {
    forall t :: t in tasks ==> TaskOk(h, t, tasks[t])
  }

  predicate IsPubrec(e: Event) { e.DidReceive? && e.kind.KPubrec? }

  ghost predicate PubrelBetween(log: seq<Event>, i: int, k: int, id: u16) {
    exists j :: 0 <= i < j < k <= |log| && log[j] == DidPubrel(id)
  }

  /** Every PUBREC is answered before the reader takes anything else. */
  ghost predicate Answered(log: seq<Event>) {
    forall i, k :: 0 <= i < k < |log| && IsPubrec(log[i]) && log[k].DidReceive? ==>
      PubrelBetween(log, i, k, log[i].id)
  }

  /** A PUBREC not yet answered is the one the reader still owes. */
  ghost predicate Owed(log: seq<Event>, reader: Reader) {
    forall i :: 0 <= i < |log| && IsPubrec(log[i]) ==>
      PubrelBetween(log, i, |log|, log[i].id) || reader.Owes(log[i].id) || reader.Stopped?
  }

  ghost predicate Returns(log: seq<Event>) {
    forall n :: 0 <= n < |log| && log[n].DidReturn? ==> Justified(log, n, log[n].task, log[n].outcome)
  }

  ghost predicate Inv(s: Conn) {
    && Waiters(s.h) && Tasks(s.h, s.tasks) && ReaderOk(s.h, s.reader)
    && Parks(s.h.log, s.h.parkedAt) && Owners(s.h.owners, s.tasks) && Firsts(s.h.owners, s.h.acks.waiters)
    && Answered(s.h.log) && Owed(s.h.log, s.reader) && Returns(s.h.log)
  }

  // ---- what appending to the log keeps --------------------------------------------

  lemma JustifiedStands(log: seq<Event>, e: Event, n: nat, t: nat, outcome: Outcome)
    requires n <= |log| && Justified(log, n, t, outcome)
    ensures Justified(log + [e], n, t, outcome)
  {
    match outcome {
      case Sent => SentStands(log, [e], -1, n, n, t);
      case Acknowledged(id) => AckedStands(log, e, n, t, id, KPuback, OfId(id));
      case Completed(id) =>
        var p1: nat, rec: nat, rel: nat, p2: nat, comp: nat :| HandshakeAt(log, n, t, id, p1, rec, rel, p2, comp);
        SentStands(log, [e], p1, n, n, t);
        assert HandshakeAt(log + [e], n, t, id, p1, rec, rel, p2, comp);
      case Subscribed(codes) =>
        var id: u16 :| AckedBefore(log, n, t, id, KSuback, OfCodes(codes));
        AckedStands(log, e, n, t, id, KSuback, OfCodes(codes));
      case Unsubscribed =>
        var id: u16 :| AckedBefore(log, n, t, id, KUnsuback, OfUnit);
        AckedStands(log, e, n, t, id, KUnsuback, OfUnit);
      case _ =>
    }
  }

  lemma AckedStands(log: seq<Event>, e: Event, n: nat, t: nat, id: u16, kind: AckKind, v: AckValue)
    requires n <= |log| && AckedBefore(log, n, t, id, kind, v)
    ensures AckedBefore(log + [e], n, t, id, kind, v)
  {
    var p, q, w: nat :| 0 <= p < q < n <= |log|
      && log[p] == DidPark(t, id, kind, w) && log[q] == DidReceive(id, kind, v) && SentBetween(log, p, n, t);
    SentStands(log, [e], p, n, n, t);
    assert (log + [e])[p] == log[p] && (log + [e])[q] == log[q];
  }

  lemma SentStands(log: seq<Event>, more: seq<Event>, p: int, n: int, n': int, t: nat)
    requires SentBetween(log, p, n, t) && n <= n' <= |log| + |more|
    ensures SentBetween(log + more, p, n', t)
  {
    var q :| -1 <= p < q < n <= |log| && log[q] == DidSend(t);
    assert (log + more)[q] == DidSend(t);
  }

  lemma ReturnsStand(log: seq<Event>, e: Event)
    requires Returns(log)
    requires e.DidReturn? ==> Justified(log, |log|, e.task, e.outcome)
    ensures Returns(log + [e])
  {
    forall n | 0 <= n <= |log| && (log + [e])[n].DidReturn?
      ensures Justified(log + [e], n, (log + [e])[n].task, (log + [e])[n].outcome)
    {
      JustifiedStands(log, e, n, (log + [e])[n].task, (log + [e])[n].outcome);
    }
  }

  lemma PubrelStands(log: seq<Event>, e: Event, i: int, k: int, id: u16)
    requires PubrelBetween(log, i, k, id)
    ensures PubrelBetween(log + [e], i, k, id) && PubrelBetween(log + [e], i, |log| + 1, id)
  {
    var j :| 0 <= i < j < k <= |log| && log[j] == DidPubrel(id);
    assert (log + [e])[j] == DidPubrel(id);
  }

  lemma AnsweredStands(log: seq<Event>, reader: Reader, e: Event)
    requires Answered(log) && Owed(log, reader) && (e.DidReceive? ==> reader.Idle?)
    ensures Answered(log + [e])
  {
    var log' := log + [e];
    forall i, k | 0 <= i < k < |log'| && IsPubrec(log'[i]) && log'[k].DidReceive?
      ensures PubrelBetween(log', i, k, log'[i].id)
    {
      assert IsPubrec(log[i]);
      PubrelStands(log, e, i, k, log[i].id);
    }
  }

  lemma OwedStands(log: seq<Event>, reader: Reader, e: Event, reader': Reader)
    requires Owed(log, reader)
    requires reader' == reader || reader.Idle? || (e.DidPubrel? && reader == OwesPubrel(e.id))
    requires IsPubrec(e) ==> reader'.Owes(e.id)
    ensures Owed(log + [e], reader')
  {
    var log' := log + [e];
    forall i | 0 <= i < |log'| && IsPubrec(log'[i])
      ensures PubrelBetween(log', i, |log'|, log'[i].id) || reader'.Owes(log'[i].id) || reader'.Stopped?
    {
      if i < |log| {
        assert log'[i] == log[i] && IsPubrec(log[i]);
        if PubrelBetween(log, i, |log|, log[i].id) {
          PubrelStands(log, e, i, |log|, log[i].id);
        } else if reader' != reader {
          assert log'[|log|] == DidPubrel(log[i].id);
        }
      }
    }
  }

  // ---- what a table operation keeps -------------------------------------------------

  /** `h'` continues `h`: nothing recorded is revised. */
  ghost predicate Continues(h: Hist, h': Hist) {
    && h.log <= h'.log && h.parkedAt <= h'.parkedAt && h.owners <= h'.owners
    && Lengths(h) && Lengths(h')
    && forall w :: 0 <= w < |h.acks.waiters| ==> WaiterContinues(h, h', w)
  }

  ghost predicate WaiterContinues(h: Hist, h': Hist, w: nat)
    requires w < |h.acks.waiters|
  {
    && w < |h'.acks.waiters|
    && h'.acks.waiters[w].id == h.acks.waiters[w].id
    && h'.acks.waiters[w].kind == h.acks.waiters[w].kind
    && (h.acks.waiters[w].cell.Delivered? ==>
          && h'.acks.waiters[w].cell == h.acks.waiters[w].cell
          && (w in h.deliveredAt ==> w in h'.deliveredAt && h'.deliveredAt[w] == h.deliveredAt[w]))
  }

  lemma TasksContinue(h: Hist, h': Hist, tasks: map<nat, Task>)
    requires Tasks(h, tasks) && Continues(h, h')
    ensures Tasks(h', tasks)
  {
    forall t | t in tasks ensures TaskOk(h', t, tasks[t]) {
      assert TaskOk(h, t, tasks[t]);
      match tasks[t] {
        case Parked(_, _, w) => assert WaiterContinues(h, h', w);
        case Waiting(_, _, w) => SentContinues(h, h', t, w);
        case Released(_, w) => SentContinues(h, h', t, w);
        case Finishing(_, w, w2) =>
          SentContinues(h, h', t, w);
          assert WaiterContinues(h, h', w2);
        case _ =>
      }
    }
  }

  lemma SentContinues(h: Hist, h': Hist, t: nat, w: nat)
    requires Continues(h, h') && w < |h.acks.waiters| && SentBetween(h.log, h.parkedAt[w], |h.log|, t)
    ensures WaiterContinues(h, h', w) && h'.parkedAt[w] == h.parkedAt[w]
    ensures SentBetween(h'.log, h'.parkedAt[w], |h'.log|, t)
  {
    assert h'.log == h.log + h'.log[|h.log|..];
    SentStands(h.log, h'.log[|h.log|..], h.parkedAt[w], |h.log|, |h'.log|, t);
  }

  lemma FirstsContinue(h: Hist, h': Hist)
    requires Firsts(h.owners, h.acks.waiters) && Continues(h, h')
    requires forall w :: 0 <= w < |h.owners| && |h'.owners| == |h.owners| + 1 && h.owners[w] == h'.owners[|h.owners|] ==>
               h.acks.waiters[w].cell.Delivered?
    requires |h'.owners| <= |h.owners| + 1
    ensures Firsts(h'.owners, h'.acks.waiters)
  {
    forall w, x | 0 <= w < x < |h'.owners| && h'.owners[w] == h'.owners[x]
      ensures w < |h'.acks.waiters| && h'.acks.waiters[w].cell.Delivered?
    {
      assert h'.owners[w] == h.owners[w];
      if x < |h.owners| {
        assert h'.owners[x] == h.owners[x];
      }
      assert WaiterContinues(h, h', w);
    }
  }

  lemma LogKeepsHist(h: Hist, e: Event)
    requires Waiters(h)
    ensures Waiters(h.Log(e)) && Continues(h, h.Log(e))
  {
    forall w | 0 <= w < |h.acks.waiters| ensures WaiterOk(h.Log(e), w) && WaiterContinues(h, h.Log(e), w) {
      assert WaiterOk(h, w);
    }
  }

  lemma ParkKeepsHist(h: Hist, t: nat, id: u16, kind: AckKind)
    requires Waiters(h)
    ensures Waiters(h.Park(t, id, kind)) && Continues(h, h.Park(t, id, kind))
    ensures Owns(h.Park(t, id, kind), t, |h.acks.waiters|, id, kind)
    ensures h.Park(t, id, kind).parkedAt[|h.acks.waiters|] == |h.log|
  {
    var h', op := h.Park(t, id, kind), OpPark(id, kind);
    StepKeepsSane(h.acks, op);
    forall w | 0 <= w < |h.acks.waiters| ensures WaiterOk(h', w) && WaiterContinues(h, h', w) {
      StepDecides(h.acks, op, w);
      assert WaiterOk(h, w);
    }
  }

  lemma ParkKeepsReader(h: Hist, t: nat, id: u16, kind: AckKind, reader: Reader)
    requires Waiters(h) && ReaderOk(h, reader)
    ensures ReaderOk(h.Park(t, id, kind), reader)
  {
    var op := OpPark(id, kind);
    if reader.Looked? {
      StepDecides(h.acks, op, reader.waiter);
    } else if reader.Holding? {
      StepDecides(h.acks, op, reader.slot.waiter);
    }
  }

  lemma DropKeepsHist(h: Hist, op: AckOp, reader: Reader)
    requires Waiters(h) && ReaderOk(h, reader) && (op.OpCancel? || op.OpAbandon?)
    ensures var h' := h.(acks := h.acks.Step(op)); Waiters(h') && Continues(h, h') && ReaderOk(h', reader)
  {
    var h' := h.(acks := h.acks.Step(op));
    StepKeepsSane(h.acks, op);
    forall w | 0 <= w < |h.acks.waiters| ensures WaiterOk(h', w) && WaiterContinues(h, h', w) {
      StepDecides(h.acks, op, w);
      assert WaiterOk(h, w);
    }
    if reader.Looked? {
      StepDecides(h.acks, op, reader.waiter);
    } else if reader.Holding? {
      StepDecides(h.acks, op, reader.slot.waiter);
    }
  }

  /** Firing the waiter that was looked at. */
  lemma FireKeepsHist(h: Hist, id: u16, kind: AckKind, v: AckValue, w: nat, at: nat)
    requires Waiters(h) && LookOk(h, id, kind, v, w, at) && id in h.acks.slots && h.acks.slots[id].waiter == w
    ensures Waiters(h.Fire(id, v, at)) && Continues(h, h.Fire(id, v, at))
  {
    var h' := h.Fire(id, v, at);
    ResolveKeepsSane(h.acks, id, Delivered(v));
    forall x | 0 <= x < |h.acks.waiters| ensures WaiterOk(h', x) && WaiterContinues(h, h', x) {
      assert WaiterOk(h, x);
    }
  }

  lemma TakeOutKeepsHist(h: Hist, id: u16)
    requires Waiters(h) && id in h.acks.slots
    ensures var h' := h.(acks := TakeOut(h.acks, id));
            Waiters(h') && Continues(h, h') && HoldOk(h'.acks, id, h.acks.slots[id])
  {
    var h' := h.(acks := TakeOut(h.acks, id));
    forall w | 0 <= w < |h.acks.waiters| ensures WaiterOk(h', w) && WaiterContinues(h, h', w) {
      assert WaiterOk(h, w);
    }
  }

  lemma PutBackKeepsHist(h: Hist, id: u16, slot: Slot)
    requires Waiters(h) && HoldOk(h.acks, id, slot)
    ensures var h' := h.(acks := PutBack(h.acks, id, slot)); Waiters(h') && Continues(h, h')
  {
    var h' := h.(acks := PutBack(h.acks, id, slot));
    ResolveKeepsSane(h.acks, id, Dropped);
    assert h'.acks.Sane();
    forall w | 0 <= w < |h.acks.waiters| ensures WaiterOk(h', w) && WaiterContinues(h, h', w) {
      assert WaiterOk(h, w);
    }
  }

  // ---- steps keep the invariant -------------------------------------------------------

  /** A change of the table that neither parks nor logs. */
  lemma TableInv(s: Conn, h': Hist, reader': Reader)
    requires Inv(s) && Waiters(h') && Continues(s.h, h') && ReaderOk(h', reader')
    requires h'.log == s.h.log && h'.owners == s.h.owners && h'.parkedAt == s.h.parkedAt
    requires forall id: u16 :: s.reader.Owes(id) ==> reader'.Owes(id)
    requires s.reader.Stopped? ==> reader'.Stopped?
    ensures Inv(s.(h := h', reader := reader'))
  {
    TasksContinue(s.h, h', s.tasks);
    FirstsContinue(s.h, h');
  }

  lemma LogInv(s: Conn, e: Event, reader': Reader)
    requires Inv(s) && !e.DidPark?
    requires e.DidReturn? ==> Justified(s.h.log, |s.h.log|, e.task, e.outcome)
    requires e.DidReceive? ==> s.reader.Idle?
    requires ReaderOk(s.h.Log(e), reader')
    requires reader' == s.reader || s.reader.Idle? || (e.DidPubrel? && s.reader == OwesPubrel(e.id))
    requires IsPubrec(e) ==> reader'.Owes(e.id)
    ensures Inv(s.Log(e).(reader := reader'))
  {
    LogKeepsHist(s.h, e);
    TasksContinue(s.h, s.h.Log(e), s.tasks);
    ReturnsStand(s.h.log, e);
    AnsweredStands(s.h.log, s.reader, e);
    OwedStands(s.h.log, s.reader, e, reader');
  }

  lemma NoteInv(s: Conn, e: Event)
    requires Inv(s) && (e.DidSend? || e.DidReturn?)
    requires e.DidReturn? ==> Justified(s.h.log, |s.h.log|, e.task, e.outcome)
    ensures Inv(s.Log(e))
  {
    LogInv(s, e, s.reader);
  }

  lemma ReceiveInv(s: Conn, id: u16, kind: AckKind, v: AckValue)
    requires Inv(s) && s.reader.Idle? && Fits(id, kind, v)
    ensures Inv(s.Receive(id, kind, v))
  {
    var e := DidReceive(id, kind, v);
    if (s.client || kind.ForPublish()) && s.h.acks.Holds(id, kind) {
      assert WaiterOk(s.h, s.h.acks.slots[id].waiter);
    }
    LogInv(s, e, s.Receive(id, kind, v).reader);
  }

  lemma RemoveInv(s: Conn)
    requires Inv(s) && s.reader.Looked? && Clean(s, RemoveSlot)
    ensures Inv(s.Remove())
  {
    var id, kind := s.reader.id, s.reader.kind;
    if id !in s.h.acks.slots {
      TableInv(s, s.h, Woken(id, kind));
    } else if Fires(kind, s.h.acks.slots[id].kind) {
      FireKeepsHist(s.h, id, kind, s.reader.value, s.reader.waiter, s.reader.at);
      TableInv(s, s.h.Fire(id, s.reader.value, s.reader.at), Woken(id, kind));
    } else {
      TakeOutKeepsHist(s.h, id);
      TableInv(s, s.h.(acks := TakeOut(s.h.acks, id)), Holding(id, kind, s.h.acks.slots[id]));
    }
  }

  lemma ReplaceInv(s: Conn)
    requires Inv(s) && s.reader.Holding?
    ensures Inv(s.Replace())
  {
    PutBackKeepsHist(s.h, s.reader.id, s.reader.slot);
    TableInv(s, s.h.(acks := PutBack(s.h.acks, s.reader.id, s.reader.slot)), Woken(s.reader.id, s.reader.kind));
  }

  lemma DropInv(s: Conn, op: AckOp)
    requires Inv(s) && (op.OpCancel? || op.OpAbandon?)
    ensures Inv(s.(h := s.h.(acks := s.h.acks.Step(op))))
  {
    DropKeepsHist(s.h, op, s.reader);
    TableInv(s, s.h.(acks := s.h.acks.Step(op)), s.reader);
  }

  lemma BecomesInv(s: Conn, t: nat, task: Task)
    requires Inv(s) && TaskOk(s.h, t, task)
    requires t in s.tasks ==> forall w: nat :: Knows(s.tasks[t], w) ==> Knows(task, w)
    ensures Inv(s.Becomes(t, task))
  {
  }

  lemma ReturnInv(s: Conn, t: nat, outcome: Outcome)
    requires Inv(s) && Justified(s.h.log, |s.h.log|, t, outcome)
    ensures Inv(s.Return(t, outcome))
  {
    BecomesInv(s, t, Returned(outcome));
    NoteInv(s.Becomes(t, Returned(outcome)), DidReturn(t, outcome));
  }

  /** A park, and the task moving on to `task` with the new waiter on record. */
  lemma ParkInv(s: Conn, t: nat, id: u16, kind: AckKind, task: Task)
    requires Inv(s) && t in s.tasks && TaskOk(s.h.Park(t, id, kind), t, task)
    requires Knows(task, |s.h.acks.waiters|)
    requires forall w: nat :: Knows(s.tasks[t], w) ==> Knows(task, w)
    requires forall w :: 0 <= w < |s.h.owners| && s.h.owners[w] == t ==> s.h.acks.waiters[w].cell.Delivered?
    ensures Inv(s.Park(t, id, kind).Becomes(t, task))
  {
    var e, h' := DidPark(t, id, kind, |s.h.acks.waiters|), s.h.Park(t, id, kind);
    ParkKeepsHist(s.h, t, id, kind);
    ParkKeepsReader(s.h, t, id, kind, s.reader);
    TasksContinue(s.h, h', s.tasks);
    FirstsContinue(s.h, h');
    ReturnsStand(s.h.log, e);
    AnsweredStands(s.h.log, s.reader, e);
    OwedStands(s.h.log, s.reader, e, s.reader);
    ParksGrow(s.h.log, s.h.parkedAt, e);
    OwnersGrow(s.h.owners, s.tasks, t, task);
  }

  lemma ParksGrow(log: seq<Event>, parkedAt: seq<nat>, e: Event)
    requires Parks(log, parkedAt) && e.DidPark? && e.waiter == |parkedAt|
    ensures Parks(log + [e], parkedAt + [|log|])
  {
  }

  lemma OwnersGrow(owners: seq<nat>, tasks: map<nat, Task>, t: nat, task: Task)
    requires Owners(owners, tasks) && t in tasks && Knows(task, |owners|)
    requires forall w: nat :: Knows(tasks[t], w) ==> Knows(task, w)
    ensures Owners(owners + [t], tasks[t := task])
  {
  }

  /** The ack a delivered waiter's owner was waiting for arrived after the park. */
  lemma FirstWaitAcked(h: Hist, t: nat, req: Request, id: u16, w: nat)
    requires Waiters(h) && TaskOk(h, t, Waiting(req, id, w)) && h.acks.waiters[w].cell.Delivered?
    requires req != AskPublish(ExactlyOnce)
    ensures Justified(h.log, |h.log|, t, Reported(req, h.acks.waiters[w].cell.value))
  {
    assert WaiterOk(h, w);
    var v := h.acks.waiters[w].cell.value;
    assert AckedBefore(h.log, |h.log|, t, id, req.FirstKind(), v) by {
      assert h.log[h.parkedAt[w]] == DidPark(t, id, req.FirstKind(), w);
      assert h.log[h.deliveredAt[w]] == DidReceive(id, req.FirstKind(), v);
    }
  }

  lemma SecondWaitCompletes(h: Hist, t: nat, id: u16, w: nat, w2: nat)
    requires Waiters(h) && Answered(h.log)
    requires TaskOk(h, t, Finishing(id, w, w2)) && h.acks.waiters[w2].cell.Delivered?
    ensures h.acks.waiters[w2].cell.value == OfId(id)
    ensures HandshakeBefore(h.log, |h.log|, t, id)
  {
    assert WaiterOk(h, w) && WaiterOk(h, w2);
    var rec, comp := h.deliveredAt[w], h.deliveredAt[w2];
    assert IsPubrec(h.log[rec]) && h.log[comp].DidReceive?;
    assert PubrelBetween(h.log, rec, comp, id);
    var rel :| rec < rel < comp && h.log[rel] == DidPubrel(id);
    assert HandshakeAt(h.log, |h.log|, t, id, h.parkedAt[w], rec, rel, h.parkedAt[w2], comp);
  }

  lemma ResumeInv(s: Conn, t: nat)
    requires Inv(s) && t in s.tasks
    ensures Inv(Advance(s, t, s.tasks[t], Resume(t)))
  {
    assert TaskOk(s.h, t, s.tasks[t]);
    match s.tasks[t] {
      case Waiting(req, id, w) =>
        if s.h.CellOf(w).Dropped? {
          ReturnInv(s, t, Failed(ChannelClosed));
        } else if s.h.CellOf(w).Delivered? {
          if req == AskPublish(ExactlyOnce) {
            BecomesInv(s, t, Released(id, w));
          } else {
            FirstWaitAcked(s.h, t, req, id, w);
            ReturnInv(s, t, Reported(req, s.h.CellOf(w).value));
          }
        }
      case Finishing(id, w, w2) =>
        if s.h.CellOf(w2).Dropped? {
          ReturnInv(s, t, Failed(ChannelClosed));
        } else if s.h.CellOf(w2).Delivered? {
          SecondWaitCompletes(s.h, t, id, w, w2);
          ReturnInv(s, t, Completed(id));
        }
      case _ =>
    }
  }

  lemma ParkFirstInv(s: Conn, t: nat)
    requires Inv(s) && t in s.tasks && s.tasks[t].Allocated?
    ensures Inv(Advance(s, t, s.tasks[t], ParkFirst(t)))
  {
    var req, id := s.tasks[t].req, s.tasks[t].id;
    ParkKeepsHist(s.h, t, id, req.FirstKind());
    ParkInv(s, t, id, req.FirstKind(), Parked(req, id, |s.h.acks.waiters|));
  }

  lemma ParkSecondInv(s: Conn, t: nat)
    requires Inv(s) && t in s.tasks && s.tasks[t].Released?
    ensures Inv(Advance(s, t, s.tasks[t], ParkSecond(t)))
  {
    var id, w := s.tasks[t].id, s.tasks[t].first;
    assert TaskOk(s.h, t, s.tasks[t]) && WaiterOk(s.h, w);
    ParkKeepsHist(s.h, t, id, KPubcomp);
    TasksContinue(s.h, s.h.Park(t, id, KPubcomp), s.tasks);
    assert TaskOk(s.h.Park(t, id, KPubcomp), t, s.tasks[t]);
    assert WaiterContinues(s.h, s.h.Park(t, id, KPubcomp), w);
    ParkInv(s, t, id, KPubcomp, Finishing(id, w, |s.h.acks.waiters|));
  }

  lemma EnqueueInv(s: Conn, t: nat, ok: bool)
    requires Inv(s) && t in s.tasks
    ensures Inv(Advance(s, t, s.tasks[t], Enqueue(t, ok)))
  {
    assert TaskOk(s.h, t, s.tasks[t]);
    if ok {
      SendInv(s, t);
    } else {
      ReturnInv(s, t, Failed(ChannelClosed));
    }
  }

  lemma SendInv(s: Conn, t: nat)
    requires Inv(s) && t in s.tasks
    ensures Inv(Advance(s, t, s.tasks[t], Enqueue(t, true)))
  {
    assert TaskOk(s.h, t, s.tasks[t]);
    var s1 := s.Log(DidSend(t));
    NoteInv(s, DidSend(t));
    assert s1.h.log[|s.h.log|] == DidSend(t);
    if s.tasks[t].Parked? {
      var w := s.tasks[t].first;
      assert WaiterOk(s.h, w);
      assert SentBetween(s1.h.log, s1.h.parkedAt[w], |s1.h.log|, t);
      BecomesInv(s1, t, Waiting(s.tasks[t].req, s.tasks[t].id, w));
    } else if s.tasks[t] == Ready(AskPublish(AtMostOnce)) {
      assert SentBetween(s1.h.log, -1, |s1.h.log|, t);
      ReturnInv(s1, t, Sent);
    }
  }

  lemma TimeOutInv(s: Conn, t: nat, id: u16)
    requires Inv(s)
    ensures Inv(s.Cancel(id).Return(t, Failed(AckTimeout)))
  {
    DropInv(s, OpCancel(id));
    ReturnInv(s.Cancel(id), t, Failed(AckTimeout));
  }

  lemma AdvanceInv(s: Conn, t: nat, a: Action)
    requires Inv(s) && t in s.tasks
    requires a.Enqueue? || a.Resume? || a.ParkFirst? || a.ParkSecond? ==> a.task == t
    ensures Inv(Advance(s, t, s.tasks[t], a))
  {
    match a {
      case Enqueue(_, ok) => EnqueueInv(s, t, ok);
      case Resume(_) => ResumeInv(s, t);
      case ParkFirst(_) => if s.tasks[t].Allocated? { ParkFirstInv(s, t); }
      case ParkSecond(_) => if s.tasks[t].Released? { ParkSecondInv(s, t); }
      case TimeOut(_) =>
        if s.tasks[t].Waiting? || s.tasks[t].Finishing? {
          TimeOutInv(s, t, s.tasks[t].id);
        }
      case Allocate(_) =>
        if s.tasks[t].Ready? {
          BecomesInv(s, t, Allocated(s.tasks[t].req, IdAt(NextCounter(s.counter))));
        }
      case _ =>
    }
  }

  predicate OfReader(a: Action) { a.ReadAck? || a.RemoveSlot? || a.ReplaceSlot? || a.SendPubrel? }

  lemma ReaderInv(s: Conn, a: Action)
    requires Inv(s) && Clean(s, a) && OfReader(a)
    ensures Inv(Do(s, a))
  {
    match a {
      case ReadAck(id, kind, codes) => if s.reader.Idle? { ReceiveInv(s, id, kind, Content(id, kind, codes)); }
      case RemoveSlot => if s.reader.Looked? { RemoveInv(s); }
      case ReplaceSlot => if s.reader.Holding? { ReplaceInv(s); }
      case SendPubrel(ok) => if s.reader.OwesPubrel? && ok { LogInv(s, DidPubrel(s.reader.id), Idle); }
    }
  }

  predicate OfTask(a: Action) {
    a.Allocate? || a.ParkFirst? || a.Enqueue? || a.Resume? || a.ParkSecond? || a.TimeOut?
  }

  lemma DoInv(s: Conn, a: Action)
    requires Inv(s) && Clean(s, a)
    ensures Inv(Do(s, a))
  {
    if OfReader(a) {
      ReaderInv(s, a);
    } else if OfTask(a) {
      if a.task in s.tasks {
        AdvanceInv(s, a.task, a);
      }
    } else {
      match a {
        case Spawn(t, req) => if t !in s.tasks { BecomesInv(s, t, Ready(req)); }
        case Close => DropInv(s, OpAbandon);
        case _ =>
      }
    }
  }

  lemma {:induction false} RunInv(s: Conn, actions: seq<Action>)
    requires Inv(s) && CleanRun(s, actions)
    ensures Inv(Run(s, actions))
    decreases |actions|
  {
    if actions != [] {
      DoInv(s, actions[0]);
      RunInv(Do(s, actions[0]), actions[1..]);
    }
  }

  /** In every interleaving, in either role, whose removals fire only what was looked
      at: a task that reports Completed(id) parked, then sent its request, saw
      PUBREC(id) arrive after its first park, PUBREL(id) go out after that, and
      PUBCOMP(id) arrive after both that and its second park; Acknowledged, Subscribed
      and Unsubscribed likewise report, of a request that was sent, an ack of the
      task's own id that arrived after it parked, with exactly that ack's content; and
      Sent reports a request that was sent. */
  lemma ReportsAreJustified(client: bool, actions: seq<Action>, n: nat)
    requires CleanRun(Fresh(client), actions)
    requires n < |Run(Fresh(client), actions).h.log|
    requires Run(Fresh(client), actions).h.log[n].DidReturn?
    ensures var log := Run(Fresh(client), actions).h.log;
            Justified(log, n, log[n].task, log[n].outcome)
  {
    RunInv(Fresh(client), actions);
  }
}

/** When an id names one flow: what that buys the outbound handshakes, and what
    goes wrong when the counter wraps. */
module HandshakeIds {
  import opened Types
  import opened Acks
  import opened PacketIds
  import opened Handshake

  // ---- one flow per id ------------------------------------------------------------

  predicate HasId(task: Task) { !task.Ready? && !task.Returned? }

  /** Task `t` is under way on `id`, or a waiter of its is in the slot of `id` or is
      the one the reader looked at. */
  predicate Uses(s: Conn, t: nat, id: u16) {
    || (t in s.tasks && HasId(s.tasks[t]) && s.tasks[t].id == id)
    || (id in s.h.acks.slots && SentBy(s.h, s.h.acks.slots[id].waiter, t))
    || (s.reader.Looked? && s.reader.id == id && SentBy(s.h, s.reader.waiter, t))
  }

  predicate SentBy(h: Hist, w: nat, t: nat) { w < |h.owners| && h.owners[w] == t }

  ghost predicate OneFlow(s: Conn) {
    forall t: nat, u: nat, id: u16 :: Uses(s, t, id) && Uses(s, u, id) ==> t == u
  }

  ghost predicate OneFlowRun(s: Conn, actions: seq<Action>)
    decreases |actions|
  {
    OneFlow(s) && (actions == [] || OneFlowRun(Do(s, actions[0]), actions[1..]))
  }

  /** The looked-at waiter is not delivered, so its task has not parked again; a
      different waiter in its slot is another task's. */
  lemma OneFlowIsClean(s: Conn, a: Action)
    requires Inv(s) && OneFlow(s)
    ensures Clean(s, a)
  {
    if s.reader.Looked? && s.reader.id in s.h.acks.slots {
      var id, w, x := s.reader.id, s.reader.waiter, s.h.acks.slots[s.reader.id].waiter;
      assert Uses(s, s.h.owners[w], id) && Uses(s, s.h.owners[x], id);
    }
  }

  /** While every id names one flow, every report is justified. */
  lemma {:induction false} OneFlowRunIsClean(s: Conn, actions: seq<Action>)
    requires Inv(s) && OneFlowRun(s, actions)
    ensures CleanRun(s, actions)
    decreases |actions|
  {
    if actions != [] {
      OneFlowIsClean(s, actions[0]);
      DoInv(s, actions[0]);
      OneFlowRunIsClean(Do(s, actions[0]), actions[1..]);
    }
  }

  // ---- which ids the tasks have ------------------------------------------------------

  ghost predicate BornOk(born: map<nat, nat>, allocs: nat, tasks: map<nat, Task>) {
    && (forall t :: t in born ==> born[t] < allocs && t in tasks && !tasks[t].Ready?)
    && (forall t, u :: t in born && u in born && born[t] == born[u] ==> t == u)
  }

  ghost predicate TaskIds(born: map<nat, nat>, tasks: map<nat, Task>) {
    forall t :: t in tasks && HasId(tasks[t]) ==> t in born && tasks[t].id == NthId(0, born[t])
  }

  ghost predicate WaiterIds(born: map<nat, nat>, owners: seq<nat>, waiters: seq<Waiter>) {
    forall w :: 0 <= w < |owners| && w < |waiters| ==> owners[w] in born && waiters[w].id == NthId(0, born[owners[w]])
  }

  /** Each task's id is the one the counter gave at its own allocation. */
  ghost predicate Births(s: Conn) {
    && s.counter == CounterAfter(0, s.allocs) && Lengths(s.h)
    && BornOk(s.born, s.allocs, s.tasks) && TaskIds(s.born, s.tasks)
    && WaiterIds(s.born, s.h.owners, s.h.acks.waiters)
  }

  /** Table operations forget no waiter and change no waiter's id. */
  predicate SameIds(a: seq<Waiter>, b: seq<Waiter>) {
    |a| == |b| && forall w :: 0 <= w < |a| ==> a[w].id == b[w].id
  }

  lemma WaiterIdsStay(born: map<nat, nat>, owners: seq<nat>, a: seq<Waiter>, b: seq<Waiter>)
    requires WaiterIds(born, owners, a) && SameIds(a, b)
    ensures WaiterIds(born, owners, b)
  {
  }

  /** Only the table, the log and the reader changed. */
  lemma TableBirths(s: Conn, h': Hist, reader': Reader)
    requires Births(s) && h'.owners == s.h.owners && h'.parkedAt == s.h.parkedAt
    requires SameIds(s.h.acks.waiters, h'.acks.waiters)
    ensures Births(s.(h := h', reader := reader'))
  {
    WaiterIdsStay(s.born, s.h.owners, s.h.acks.waiters, h'.acks.waiters);
  }

  lemma RemoveBirths(s: Conn)
    requires Births(s) && s.reader.Looked?
    ensures Births(s.Remove())
  {
    TableBirths(s, s.Remove().h, s.Remove().reader);
  }

  lemma ReplaceBirths(s: Conn)
    requires Births(s) && s.reader.Holding?
    ensures Births(s.Replace())
  {
    TableBirths(s, s.Replace().h, s.Replace().reader);
  }

  lemma ReaderBirths(s: Conn, a: Action)
    requires Births(s) && OfReader(a)
    ensures Births(Do(s, a))
  {
    match a {
      case RemoveSlot => if s.reader.Looked? { RemoveBirths(s); }
      case ReplaceSlot => if s.reader.Holding? { ReplaceBirths(s); }
      case _ =>
    }
  }

  /** A task moves on without changing its id. */
  lemma MoveBirths(s: Conn, t: nat, task: Task)
    requires Births(s)
    requires task.Ready? ==> t in s.tasks ==> s.tasks[t].Ready?
    requires HasId(task) ==> t in s.tasks && HasId(s.tasks[t]) && s.tasks[t].id == task.id
    ensures Births(s.Becomes(t, task))
  {
  }

  lemma ParkBirths(s: Conn, t: nat, kind: AckKind, task: Task)
    requires Births(s) && t in s.tasks && HasId(s.tasks[t])
    requires HasId(task) && task.id == s.tasks[t].id
    ensures Births(s.Park(t, s.tasks[t].id, kind).Becomes(t, task))
  {
    var id := s.tasks[t].id;
    var waiters := s.h.acks.Resolve(id, Dropped).waiters;
    assert SameIds(s.h.acks.waiters, waiters);
    WaiterIdsStay(s.born, s.h.owners, s.h.acks.waiters, waiters);
    WaiterIdsGrow(s.born, s.h.owners, waiters, t, Waiter(id, kind, Pending));
    MoveBirths(s, t, task);
  }

  lemma WaiterIdsGrow(born: map<nat, nat>, owners: seq<nat>, waiters: seq<Waiter>, t: nat, w: Waiter)
    requires WaiterIds(born, owners, waiters) && |owners| == |waiters| && t in born && w.id == NthId(0, born[t])
    ensures WaiterIds(born, owners + [t], waiters + [w])
  {
  }

  lemma AllocateBirths(s: Conn, t: nat)
    requires Births(s) && t in s.tasks && s.tasks[t].Ready?
    ensures Births(Advance(s, t, s.tasks[t], Allocate(t)))
  {
    assert t !in s.born;
    assert NthId(0, s.allocs) == IdAt(NextCounter(s.counter));
  }

  /** A step that parks nothing: the task moves on, the table may lose a slot. */
  lemma StepBirths(s: Conn, t: nat, task: Task, h': Hist)
    requires Births(s) && t in s.tasks && h'.owners == s.h.owners && h'.parkedAt == s.h.parkedAt
    requires SameIds(s.h.acks.waiters, h'.acks.waiters)
    requires task.Ready? ==> s.tasks[t].Ready?
    requires HasId(task) ==> HasId(s.tasks[t]) && s.tasks[t].id == task.id
    ensures Births(s.(h := h').Becomes(t, task))
  {
    TableBirths(s, h', s.reader);
    MoveBirths(s.(h := h'), t, task);
  }

  lemma EnqueueBirths(s: Conn, t: nat, ok: bool)
    requires Births(s) && t in s.tasks
    ensures Births(Advance(s, t, s.tasks[t], Enqueue(t, ok)))
  {
    var s' := Advance(s, t, s.tasks[t], Enqueue(t, ok));
    StepBirths(s, t, s'.tasks[t], s'.h);
    assert s' == s.(h := s'.h).Becomes(t, s'.tasks[t]) || s' == s;
  }

  lemma ResumeBirths(s: Conn, t: nat)
    requires Births(s) && t in s.tasks
    ensures Births(Advance(s, t, s.tasks[t], Resume(t)))
  {
    var s' := Advance(s, t, s.tasks[t], Resume(t));
    StepBirths(s, t, s'.tasks[t], s'.h);
    assert s' == s.(h := s'.h).Becomes(t, s'.tasks[t]) || s' == s;
  }

  lemma TimeOutBirths(s: Conn, t: nat)
    requires Births(s) && t in s.tasks
    ensures Births(Advance(s, t, s.tasks[t], TimeOut(t)))
  {
    var s' := Advance(s, t, s.tasks[t], TimeOut(t));
    StepBirths(s, t, s'.tasks[t], s'.h);
    assert s' == s.(h := s'.h).Becomes(t, s'.tasks[t]) || s' == s;
  }

  lemma ParkStepBirths(s: Conn, t: nat, a: Action)
    requires Births(s) && t in s.tasks && (a.ParkFirst? || a.ParkSecond?)
    ensures Births(Advance(s, t, s.tasks[t], a))
  {
    var task, w := s.tasks[t], |s.h.acks.waiters|;
    if task.Allocated? && a.ParkFirst? {
      ParkBirths(s, t, task.req.FirstKind(), Parked(task.req, task.id, w));
    } else if task.Released? && a.ParkSecond? {
      ParkBirths(s, t, KPubcomp, Finishing(task.id, task.first, w));
    }
  }

  lemma AdvanceBirths(s: Conn, t: nat, a: Action)
    requires Births(s) && t in s.tasks && OfTask(a) && a.task == t
    ensures Births(Advance(s, t, s.tasks[t], a))
  {
    match a {
      case Allocate(_) => if s.tasks[t].Ready? { AllocateBirths(s, t); }
      case Enqueue(_, ok) => EnqueueBirths(s, t, ok);
      case Resume(_) => ResumeBirths(s, t);
      case TimeOut(_) => TimeOutBirths(s, t);
      case ParkFirst(_) => ParkStepBirths(s, t, a);
      case ParkSecond(_) => ParkStepBirths(s, t, a);
    }
  }

  lemma DoBirths(s: Conn, a: Action)
    requires Births(s)
    ensures Births(Do(s, a))
  {
    if OfReader(a) {
      ReaderBirths(s, a);
    } else if OfTask(a) {
      if a.task in s.tasks {
        AdvanceBirths(s, a.task, a);
      }
    } else {
      match a {
        case Spawn(t, req) => if t !in s.tasks { MoveBirths(s, t, Ready(req)); }
        case Close => WaiterIdsStay(s.born, s.h.owners, s.h.acks.waiters, s.h.acks.Abandon().waiters);
        case _ =>
      }
    }
  }

  // ---- when ids collide ----------------------------------------------------------------

  /** The two allocations at the wrap, both of which hand out id 1. */
  predicate WrapPair(s: Conn, t: nat, u: nat) {
    t in s.born && u in s.born && s.born[u] == s.born[t] + 1 && s.born[u] % 65536 == 0
  }

  /** Tasks on one id were born fewer than 65535 allocations apart. */
  ghost predicate Near(s: Conn) {
    forall t: nat, u: nat, id: u16 :: Uses(s, t, id) && Uses(s, u, id) && t in s.born && u in s.born ==>
      s.born[t] < s.born[u] + 65535
  }

  lemma UsersAreBorn(s: Conn, t: nat, id: u16)
    requires Inv(s) && Births(s) && Uses(s, t, id)
    ensures t in s.born && id == NthId(0, s.born[t])
  {
    if id in s.h.acks.slots && SentBy(s.h, s.h.acks.slots[id].waiter, t) {
      assert s.h.acks.waiters[s.h.acks.slots[id].waiter].id == id;
    } else if s.reader.Looked? && s.reader.id == id && SentBy(s.h, s.reader.waiter, t) {
      assert s.h.acks.waiters[s.reader.waiter].id == id;
    }
  }

  lemma SharedOnlyAtWrap(s: Conn, t: nat, u: nat, id: u16)
    requires Inv(s) && Births(s) && Near(s)
    requires Uses(s, t, id) && Uses(s, u, id) && t != u
    ensures id == 1 && (WrapPair(s, t, u) || WrapPair(s, u, t))
  {
    UsersAreBorn(s, t, id);
    UsersAreBorn(s, u, id);
    var i, j := s.born[t], s.born[u];
    if i < j {
      IdsCollideOnlyAtWrap(0, i, j);
    } else {
      IdsCollideOnlyAtWrap(0, j, i);
    }
  }

  /** Among flows that are not a whole counter cycle apart, an id names one flow
      exactly when the adjacent pair at the wrap is not under way together. */
  lemma OneFlowExactly(s: Conn)
    requires Inv(s) && Births(s) && Near(s)
    ensures OneFlow(s) <==> !exists t: nat, u: nat :: WrapPair(s, t, u) && Uses(s, t, 1) && Uses(s, u, 1)
  {
    if !OneFlow(s) {
      var t: nat, u: nat, id: u16 :| Uses(s, t, id) && Uses(s, u, id) && t != u;
      SharedOnlyAtWrap(s, t, u, id);
    }
  }

  lemma {:induction false} RunBirths(s: Conn, actions: seq<Action>)
    requires Births(s)
    ensures Births(Run(s, actions))
    decreases |actions|
  {
    if actions != [] {
      DoBirths(s, actions[0]);
      RunBirths(Do(s, actions[0]), actions[1..]);
    }
  }

  /** The same over runs. */
  lemma OneFlowExactlyInRuns(client: bool, actions: seq<Action>)
    requires CleanRun(Fresh(client), actions) && Near(Run(Fresh(client), actions))
    ensures var s := Run(Fresh(client), actions);
            OneFlow(s) <==> !exists t: nat, u: nat :: WrapPair(s, t, u) && Uses(s, t, 1) && Uses(s, u, 1)
  {
    RunInv(Fresh(client), actions);
    RunBirths(Fresh(client), actions);
    OneFlowExactly(Run(Fresh(client), actions));
  }

  /** Before the counter wraps nothing is shared. */
  lemma EarlyIsOneFlow(s: Conn)
    requires Inv(s) && Births(s) && s.allocs <= 65535
    ensures OneFlow(s)
  {
    assert Near(s);
    forall t: nat, u: nat, id: u16 | Uses(s, t, id) && Uses(s, u, id) ensures t == u {
      if t != u {
        SharedOnlyAtWrap(s, t, u, id);
        NoWrapYet(s, t, u);
        NoWrapYet(s, u, t);
      }
    }
  }

  lemma NoWrapYet(s: Conn, t: nat, u: nat)
    requires BornOk(s.born, s.allocs, s.tasks) && s.allocs <= 65535
    ensures !WrapPair(s, t, u)
  {
  }

  lemma {:induction false} EarlyRunIsOneFlow(s: Conn, actions: seq<Action>)
    requires Inv(s) && Births(s) && Run(s, actions).allocs <= 65535
    ensures s.allocs <= 65535 && OneFlowRun(s, actions)
    decreases |actions|
  {
    AllocsGrow(s, actions);
    EarlyIsOneFlow(s);
    if actions != [] {
      OneFlowIsClean(s, actions[0]);
      DoInv(s, actions[0]);
      DoBirths(s, actions[0]);
      EarlyRunIsOneFlow(Do(s, actions[0]), actions[1..]);
    }
  }

  lemma {:induction false} AllocsGrow(s: Conn, actions: seq<Action>)
    ensures s.allocs <= Run(s, actions).allocs
    decreases |actions|
  {
    if actions != [] {
      AllocsGrow(Do(s, actions[0]), actions[1..]);
    }
  }

  /** On a session that handed out at most 65535 ids every report is justified, in
      every interleaving of the sub-steps. */
  lemma ReportsBeforeWrapAreJustified(client: bool, actions: seq<Action>, n: nat)
    requires Run(Fresh(client), actions).allocs <= 65535
    requires n < |Run(Fresh(client), actions).h.log|
    requires Run(Fresh(client), actions).h.log[n].DidReturn?
    ensures var log := Run(Fresh(client), actions).h.log;
            Justified(log, n, log[n].task, log[n].outcome)
  {
    EarlyRunIsOneFlow(Fresh(client), actions);
    OneFlowRunIsClean(Fresh(client), actions);
    ReportsAreJustified(client, actions, n);
  }

  // ---- a removal that is not clean ---------------------------------------------------------

  /** The task's next resumption with a delivered waiter `w` ends it. */
  predicate LastWait(task: Task, w: nat) {
    || (task.Waiting? && task.first == w && task.req != AskPublish(ExactlyOnce))
    || (task.Finishing? && task.second == w)
  }

  /** What the task then reports. */
  function LastReport(task: Task, v: AckValue): Outcome
    requires task.Waiting? || task.Finishing?
  {
    if task.Waiting? then Reported(task.req, v) else if v.OfId? then Completed(v.id) else Failed(ChannelClosed)
  }

  /** From any state a clean run reaches: when a removal fires the waiter a task is
      blocked on for the last time, the report that task then makes is justified
      exactly when it is the waiter the look saw. */
  lemma RemovalExactly(s: Conn, t: nat)
    requires Inv(s) && s.reader.Looked? && s.reader.id in s.h.acks.slots
    requires Fires(s.reader.kind, s.h.acks.slots[s.reader.id].kind)
    requires t in s.tasks && LastWait(s.tasks[t], s.h.acks.slots[s.reader.id].waiter)
    ensures var s1 := Do(s, RemoveSlot);
            var report := LastReport(s.tasks[t], s.reader.value);
            && Do(s1, Resume(t)) == s1.Return(t, report)
            && (Justified(s1.h.log, |s1.h.log|, t, report) <==> Clean(s, RemoveSlot))
  {
    var x := s.h.acks.slots[s.reader.id].waiter;
    assert TaskOk(s.h, t, s.tasks[t]);
    if x == s.reader.waiter {
      FiredIsJustified(s, t);
    } else {
      MisfireMisleads(s, t);
    }
  }

  /** The same over runs. */
  lemma MisreportExactly(client: bool, actions: seq<Action>, t: nat)
    requires CleanRun(Fresh(client), actions)
    requires var s := Run(Fresh(client), actions);
             && s.reader.Looked? && s.reader.id in s.h.acks.slots
             && Fires(s.reader.kind, s.h.acks.slots[s.reader.id].kind)
             && t in s.tasks && LastWait(s.tasks[t], s.h.acks.slots[s.reader.id].waiter)
    ensures var s := Run(Fresh(client), actions);
            var s1 := Do(s, RemoveSlot);
            var report := LastReport(s.tasks[t], s.reader.value);
            && Do(s1, Resume(t)) == s1.Return(t, report)
            && (Justified(s1.h.log, |s1.h.log|, t, report) <==> Clean(s, RemoveSlot))
  {
    RunInv(Fresh(client), actions);
    RemovalExactly(Run(Fresh(client), actions), t);
  }

  lemma FiredIsJustified(s: Conn, t: nat)
    requires Inv(s) && s.reader.Looked? && s.reader.id in s.h.acks.slots && Clean(s, RemoveSlot)
    requires Fires(s.reader.kind, s.h.acks.slots[s.reader.id].kind)
    requires t in s.tasks && LastWait(s.tasks[t], s.reader.waiter)
    ensures Justified(s.h.log, |s.h.log|, t, LastReport(s.tasks[t], s.reader.value))
  {
    RemoveInv(s);
    var s1 := s.Remove();
    assert TaskOk(s1.h, t, s1.tasks[t]);
    match s.tasks[t] {
      case Waiting(req, id, w) => FirstWaitAcked(s1.h, t, req, id, w);
      case Finishing(id, w, w2) => SecondWaitCompletes(s1.h, t, id, w, w2);
    }
  }

  /** The fired waiter was parked after the ack arrived, and none arrived since. */
  lemma MisfireMisleads(s: Conn, t: nat)
    requires Inv(s) && s.reader.Looked? && s.reader.id in s.h.acks.slots
    requires Fires(s.reader.kind, s.h.acks.slots[s.reader.id].kind)
    requires s.h.acks.slots[s.reader.id].waiter != s.reader.waiter
    requires t in s.tasks && LastWait(s.tasks[t], s.h.acks.slots[s.reader.id].waiter)
    ensures !Justified(s.h.log, |s.h.log|, t, LastReport(s.tasks[t], s.reader.value))
  {
    var h, x := s.h, s.h.acks.slots[s.reader.id].waiter;
    assert TaskOk(h, t, s.tasks[t]);
    forall p, q, w: nat, id: u16, v |
      0 <= p < q < |h.log| && h.log[p] == DidPark(t, id, h.acks.waiters[x].kind, w)
      && h.log[q] == DidReceive(id, h.acks.waiters[x].kind, v)
      ensures false
    {
      NoLateReceive(s, t, p, q);
    }
  }

  lemma NoLateReceive(s: Conn, t: nat, p: nat, q: nat)
    requires Inv(s) && s.reader.Looked? && s.reader.id in s.h.acks.slots
    requires s.h.acks.slots[s.reader.id].waiter != s.reader.waiter
    requires t in s.tasks && LastWait(s.tasks[t], s.h.acks.slots[s.reader.id].waiter)
    requires p < |s.h.log| && q < |s.h.log| && s.h.log[p].DidPark? && s.h.log[p].task == t
    requires s.h.log[p].kind == s.h.acks.slots[s.reader.id].kind && s.h.log[q].DidReceive?
    ensures q < p
  {
    var x, w := s.h.acks.slots[s.reader.id].waiter, s.h.log[p].waiter;
    assert TaskOk(s.h, t, s.tasks[t]);
    assert WaiterOk(s.h, w) && WaiterOk(s.h, x);
    assert Knows(s.tasks[t], w);
    assert w == x;
  }

  // ---- the failing run --------------------------------------------------------------------

  lemma {:induction false} RunAppends(s: Conn, a: seq<Action>, b: seq<Action>)
    ensures Run(s, a + b) == Run(Run(s, a), b)
    decreases |a|
  {
    if a == [] {
      assert a + b == b;
    } else {
      assert (a + b)[0] == a[0] && (a + b)[1..] == a[1..] + b;
      RunAppends(Do(s, a[0]), a[1..], b);
    }
  }

  lemma {:induction false} Elsewhere(s: Conn, actions: seq<Action>)
    requires forall i :: 0 <= i < |actions| ==> actions[i].AllocateElsewhere?
    ensures Run(s, actions) == s.(counter := CounterAfter(s.counter, |actions|), allocs := s.allocs + |actions|)
    decreases |actions|
  {
    if actions != [] {
      var n := |actions| - 1;
      Elsewhere(s, actions[..n]);
      assert actions == actions[..n] + [actions[n]];
      RunAppends(s, actions[..n], [actions[n]]);
      OneStep(Run(s, actions[..n]), actions[n]);
    }
  }

  lemma OneStep(s: Conn, a: Action)
    ensures Run(s, [a]) == Do(s, a)
  {
    assert Run(Do(s, a), [a][1..]) == Do(s, a);
  }

  lemma TwoSteps(s: Conn, a: Action, b: Action)
    ensures Run(s, [a, b]) == Do(Do(s, a), b)
  {
    assert [a, b] == [a] + [b];
    RunAppends(s, [a], [b]);
    OneStep(s, a);
    OneStep(Do(s, a), b);
  }

  lemma FourSteps(s: Conn, a: Action, b: Action, c: Action, d: Action)
    ensures Run(s, [a, b, c, d]) == Do(Do(Do(Do(s, a), b), c), d)
  {
    assert [a, b, c, d] == [a, b] + [c, d];
    RunAppends(s, [a, b], [c, d]);
    TwoSteps(s, a, b);
    TwoSteps(Run(s, [a, b]), c, d);
  }

  const Twice := AskPublish(ExactlyOnce)

  predicate OnlyPubrecs(log: seq<Event>) {
    forall q :: 0 <= q < |log| && log[q].DidReceive? ==> log[q].kind == KPubrec
  }

  predicate Both(s: Conn, first: Task, second: Task) {
    0 in s.tasks && 1 in s.tasks && s.tasks[0] == first && s.tasks[1] == second
  }

  lemma BothStart(s: Conn) returns (actions: seq<Action>)
    requires AtWrap(s)
    ensures var s' := Run(s, actions);
            && Both(s', Ready(Twice), Ready(Twice)) && s'.counter == 65535
            && s'.h == Fresh(s'.client).h && s'.reader.Idle?
  {
    actions := [Spawn(0, Twice), Spawn(1, Twice)];
    TwoSteps(s, actions[0], actions[1]);
  }

  lemma BothGetIdOne(s: Conn) returns (actions: seq<Action>)
    requires Both(s, Ready(Twice), Ready(Twice)) && s.counter == 65535
    requires s.h == Fresh(s.client).h && s.reader.Idle?
    ensures var s' := Run(s, actions);
            && Both(s', Allocated(Twice, 1), Allocated(Twice, 1))
            && s'.h == Fresh(s'.client).h && s'.reader.Idle?
  {
    assert NextCounter(s.counter) == 0 && NextCounter(0) == 1;
    actions := [Allocate(0), Allocate(1)];
    TwoSteps(s, actions[0], actions[1]);
  }

  lemma FirstIsAcked(s: Conn) returns (actions: seq<Action>)
    requires Both(s, Allocated(Twice, 1), Allocated(Twice, 1))
    requires s.h == Fresh(s.client).h && s.reader.Idle?
    ensures var s' := Run(s, actions);
            && Both(s', Waiting(Twice, 1, 0), Allocated(Twice, 1)) && s'.reader == OwesPubrel(1)
            && s'.h.acks == AckTable(map[], [Waiter(1, KPubrec, Delivered(OfId(1)))])
            && OnlyPubrecs(s'.h.log)
  {
    actions := [ParkFirst(0), Enqueue(0, true), ReadAck(1, KPubrec, []), RemoveSlot];
    FourSteps(s, actions[0], actions[1], actions[2], actions[3]);
  }

  lemma SecondIsParked(s: Conn) returns (actions: seq<Action>)
    requires Both(s, Waiting(Twice, 1, 0), Allocated(Twice, 1)) && s.reader == OwesPubrel(1)
    requires s.h.acks == AckTable(map[], [Waiter(1, KPubrec, Delivered(OfId(1)))])
    requires OnlyPubrecs(s.h.log)
    ensures var s' := Run(s, actions);
            && Both(s', Released(1, 0), Waiting(Twice, 1, 1)) && s'.reader.Idle?
            && s'.h.acks.slots == map[1 := Slot(KPubrec, 1)] && |s'.h.acks.waiters| == 2
            && OnlyPubrecs(s'.h.log)
  {
    actions := [SendPubrel(true), Resume(0), ParkFirst(1), Enqueue(1, true)];
    FourSteps(s, actions[0], actions[1], actions[2], actions[3]);
  }

  lemma FirstTakesTheSlot(s: Conn) returns (actions: seq<Action>)
    requires Both(s, Released(1, 0), Waiting(Twice, 1, 1)) && s.reader.Idle?
    requires s.h.acks.slots == map[1 := Slot(KPubrec, 1)] && |s.h.acks.waiters| == 2
    requires OnlyPubrecs(s.h.log)
    ensures var s' := Run(s, actions);
            && 0 in s'.tasks && s'.tasks[0] == Finishing(1, 0, 2)
            && s'.reader == Looked(1, KPubrec, OfId(1), 1, |s.h.log|)
            && s'.h.acks.slots == map[1 := Slot(KPubcomp, 2)] && |s'.h.acks.waiters| == 3
            && OnlyPubrecs(s'.h.log)
  {
    actions := [ReadAck(1, KPubrec, []), ParkSecond(0)];
    TwoSteps(s, actions[0], actions[1]);
  }

  lemma FirstReportsWrongly(s: Conn) returns (actions: seq<Action>)
    requires 0 in s.tasks && s.tasks[0] == Finishing(1, 0, 2)
    requires s.reader.Looked? && s.reader.id == 1 && s.reader.kind == KPubrec && s.reader.value == OfId(1)
    requires s.h.acks.slots == map[1 := Slot(KPubcomp, 2)] && |s.h.acks.waiters| == 3
    requires OnlyPubrecs(s.h.log)
    ensures Misleads(Run(s, actions).h.log, 0, Completed(1))
  {
    actions := [RemoveSlot, Resume(0)];
    TwoSteps(s, actions[0], actions[1]);
    NoPubcompMisleads(Run(s, actions).h.log);
  }

  ghost predicate Misleads(log: seq<Event>, t: nat, outcome: Outcome) {
    && |log| > 0 && log[|log| - 1] == DidReturn(t, outcome)
    && !Justified(log, |log| - 1, t, outcome)
  }

  lemma NoPubcompMisleads(log: seq<Event>)
    requires |log| > 0 && log[|log| - 1] == DidReturn(0, Completed(1)) && OnlyPubrecs(log)
    ensures Misleads(log, 0, Completed(1))
  {
  }

  /** A counter about to wrap: the state after 65535 ids went elsewhere. */
  predicate AtWrap(s: Conn) { s.tasks == map[] && s.counter == 65535 && s.reader.Idle? && s.h == Fresh(s.client).h }

  /** Two QoS 2 publishes get id 1 at the wrap. The first is released; the reader
      looks on the second's PUBREC; the first parks for PUBCOMP over that slot; the
      removal fires it. The first reports Completed(1), and no PUBCOMP arrived. */
  lemma WrapMisleads(s: Conn) returns (actions: seq<Action>)
    requires AtWrap(s)
    ensures Misleads(Run(s, actions).h.log, 0, Completed(1))
  {
    var a := BothStart(s);
    var b := BothGetIdOne(Run(s, a));
    RunAppends(s, a, b);
    var c := FirstIsAcked(Run(s, a + b));
    RunAppends(s, a + b, c);
    var d := SecondIsParked(Run(s, a + b + c));
    RunAppends(s, a + b + c, d);
    var e := FirstTakesTheSlot(Run(s, a + b + c + d));
    RunAppends(s, a + b + c + d, e);
    var f := FirstReportsWrongly(Run(s, a + b + c + d + e));
    RunAppends(s, a + b + c + d + e, f);
    actions := a + b + c + d + e + f;
  }

  lemma NotWrappedYet(n: nat)
    requires n < 65536
    ensures CounterAfter(0, n) == n
  {
    CounterIsModular(0, n);
    WrapOnce(0, n);
  }

  lemma ElsewhereSpends(client: bool, n: nat) returns (actions: seq<Action>)
    requires n < 65536
    ensures Run(Fresh(client), actions) == Fresh(client).(counter := n, allocs := n)
  {
    actions := seq(n, i => AllocateElsewhere);
    Elsewhere(Fresh(client), actions);
    NotWrappedYet(n);
  }

  /** A run of a fresh session, in either role, with a report that is not justified. */
  lemma CompletedWithoutPubcomp(client: bool)
    ensures exists actions :: Misleads(Run(Fresh(client), actions).h.log, 0, Completed(1))
  {
    var wrap := ElsewhereSpends(client, 65535);
    var rest := WrapMisleads(Run(Fresh(client), wrap));
    RunAppends(Fresh(client), wrap, rest);
  }
}

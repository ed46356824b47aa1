/** What the send path puts out and gives up, over every interleaving. */
module HandshakeSends {
  import opened Types
  import opened Acks
  import opened Handshake

  predicate HasSent(task: Task) { task.Waiting? || task.Released? || task.Finishing? || task.Returned? }

  /** Only tasks past their enqueue have sent, and each once. */
  ghost predicate Sends(log: seq<Event>, tasks: map<nat, Task>) {
    && (forall i :: 0 <= i < |log| && log[i].DidSend? ==> log[i].task in tasks && HasSent(tasks[log[i].task]))
    && (forall i, j :: 0 <= i < j < |log| && log[i].DidSend? && log[j].DidSend? ==> log[i].task != log[j].task)
  }

  predicate CouldSend(task: Task) { task.Parked? || task == Ready(AskPublish(AtMostOnce)) }

  predicate NeverSent(log: seq<Event>, t: nat) { forall i :: 0 <= i < |log| ==> log[i] != DidSend(t) }

  lemma NotYetSent(log: seq<Event>, tasks: map<nat, Task>, t: nat)
    requires Sends(log, tasks) && (t in tasks ==> !HasSent(tasks[t]))
    ensures NeverSent(log, t)
  {
  }

  lemma EventSends(log: seq<Event>, e: Event, tasks: map<nat, Task>)
    requires Sends(log, tasks) && !e.DidSend?
    ensures Sends(log + [e], tasks)
  {
  }

  lemma SendSends(log: seq<Event>, tasks: map<nat, Task>, t: nat, task: Task)
    requires Sends(log, tasks) && t in tasks && !HasSent(tasks[t]) && HasSent(task)
    ensures Sends(log + [DidSend(t)], tasks[t := task])
  {
    NotYetSent(log, tasks, t);
  }

  lemma MoveSends(log: seq<Event>, tasks: map<nat, Task>, t: nat, task: Task)
    requires Sends(log, tasks) && (t in tasks && HasSent(tasks[t]) ==> HasSent(task))
    ensures Sends(log, tasks[t := task])
  {
  }

  lemma EnqueueSends(s: Conn, t: nat, ok: bool)
    requires Sends(s.h.log, s.tasks) && t in s.tasks
    ensures var s' := Advance(s, t, s.tasks[t], Enqueue(t, ok)); Sends(s'.h.log, s'.tasks)
  {
    var log := s.h.log;
    if s.tasks[t] == Ready(AskPublish(AtMostOnce)) && ok {
      SendSends(log, s.tasks, t, Returned(Sent));
      EventSends(log + [DidSend(t)], DidReturn(t, Sent), s.tasks[t := Returned(Sent)]);
    } else if s.tasks[t].Parked? && ok {
      SendSends(log, s.tasks, t, Waiting(s.tasks[t].req, s.tasks[t].id, s.tasks[t].first));
    } else if CouldSend(s.tasks[t]) {
      MoveSends(log, s.tasks, t, Returned(Failed(ChannelClosed)));
      EventSends(log, DidReturn(t, Failed(ChannelClosed)), s.tasks[t := Returned(Failed(ChannelClosed))]);
    }
  }

  /** A step that logs at most something other than a send. */
  lemma StepSends(log: seq<Event>, log': seq<Event>, tasks: map<nat, Task>, t: nat, task: Task)
    requires Sends(log, tasks) && t in tasks && (HasSent(tasks[t]) ==> HasSent(task))
    requires log' == log || (|log'| == |log| + 1 && log <= log' && !log'[|log|].DidSend?)
    ensures Sends(log', tasks[t := task])
  {
    MoveSends(log, tasks, t, task);
    if log' != log {
      assert log' == log + [log'[|log|]];
      EventSends(log, log'[|log|], tasks[t := task]);
    }
  }

  lemma ResumeSends(s: Conn, t: nat)
    requires Sends(s.h.log, s.tasks) && t in s.tasks
    ensures var s' := Advance(s, t, s.tasks[t], Resume(t)); Sends(s'.h.log, s'.tasks)
  {
    var s' := Advance(s, t, s.tasks[t], Resume(t));
    StepSends(s.h.log, s'.h.log, s.tasks, t, s'.tasks[t]);
    assert s'.tasks == s.tasks[t := s'.tasks[t]];
  }

  lemma OtherTaskStepSends(s: Conn, t: nat, a: Action)
    requires Sends(s.h.log, s.tasks) && t in s.tasks
    requires a.Allocate? || a.ParkFirst? || a.ParkSecond? || a.TimeOut?
    ensures var s' := Advance(s, t, s.tasks[t], a); Sends(s'.h.log, s'.tasks)
  {
    var s' := Advance(s, t, s.tasks[t], a);
    StepSends(s.h.log, s'.h.log, s.tasks, t, s'.tasks[t]);
    assert s'.tasks == s.tasks[t := s'.tasks[t]];
  }

  lemma ReaderSends(s: Conn, a: Action)
    requires Sends(s.h.log, s.tasks) && OfReader(a)
    ensures Sends(Do(s, a).h.log, Do(s, a).tasks)
  {
    var s' := Do(s, a);
    if s'.h.log != s.h.log {
      EventSends(s.h.log, s'.h.log[|s.h.log|], s'.tasks);
    }
  }

  lemma DoSends(s: Conn, a: Action)
    requires Sends(s.h.log, s.tasks)
    ensures Sends(Do(s, a).h.log, Do(s, a).tasks)
  {
    if OfReader(a) {
      ReaderSends(s, a);
    } else if a.Enqueue? {
      if a.task in s.tasks { EnqueueSends(s, a.task, a.ok); }
    } else if a.Resume? {
      if a.task in s.tasks { ResumeSends(s, a.task); }
    } else if OfTask(a) {
      if a.task in s.tasks { OtherTaskStepSends(s, a.task, a); }
    } else if a.Spawn? {
      if a.task !in s.tasks { MoveSends(s.h.log, s.tasks, a.task, Ready(a.req)); }
    }
  }

  lemma {:induction false} RunSends(s: Conn, actions: seq<Action>)
    requires Sends(s.h.log, s.tasks)
    ensures Sends(Run(s, actions).h.log, Run(s, actions).tasks)
    decreases |actions|
  {
    if actions != [] {
      DoSends(s, actions[0]);
      RunSends(Do(s, actions[0]), actions[1..]);
    }
  }

  /** In every run, clean or not, a task sends its request at most once. */
  lemma SentAtMostOnce(client: bool, actions: seq<Action>, i: nat, j: nat)
    requires i < j < |Run(Fresh(client), actions).h.log|
    ensures var log := Run(Fresh(client), actions).h.log;
            log[i].DidSend? && log[j].DidSend? ==> log[i].task != log[j].task
  {
    RunSends(Fresh(client), actions);
  }

  // ---- a task that is over -----------------------------------------------------------------

  /** A step of another task sends nothing for `t`. */
  lemma EnqueueIsNotFor(s: Conn, u: nat, ok: bool, t: nat)
    requires u in s.tasks && NeverSent(s.h.log, t) && u != t
    ensures NeverSent(Advance(s, u, s.tasks[u], Enqueue(u, ok)).h.log, t)
  {
  }

  lemma ResumeIsNotFor(s: Conn, u: nat, t: nat)
    requires u in s.tasks && NeverSent(s.h.log, t)
    ensures NeverSent(Advance(s, u, s.tasks[u], Resume(u)).h.log, t)
  {
  }

  lemma OtherStepIsNotFor(s: Conn, u: nat, a: Action, t: nat)
    requires u in s.tasks && NeverSent(s.h.log, t) && (a.Allocate? || a.ParkFirst? || a.ParkSecond? || a.TimeOut?)
    ensures NeverSent(Advance(s, u, s.tasks[u], a).h.log, t)
  {
  }

  lemma ReaderIsNotFor(s: Conn, a: Action, t: nat)
    requires NeverSent(s.h.log, t) && OfReader(a)
    ensures NeverSent(Do(s, a).h.log, t) && Do(s, a).tasks == s.tasks
  {
  }

  lemma OverIsFinal(s: Conn, a: Action, t: nat)
    requires t in s.tasks && s.tasks[t].Returned? && NeverSent(s.h.log, t)
    ensures t in Do(s, a).tasks && Do(s, a).tasks[t] == s.tasks[t] && NeverSent(Do(s, a).h.log, t)
  {
    if OfReader(a) {
      ReaderIsNotFor(s, a, t);
    } else if OfTask(a) {
      if a.task in s.tasks && a.task != t {
        OthersStay(s, a.task, a, t);
        if a.Enqueue? {
          EnqueueIsNotFor(s, a.task, a.ok, t);
        } else if a.Resume? {
          ResumeIsNotFor(s, a.task, t);
        } else {
          OtherStepIsNotFor(s, a.task, a, t);
        }
      }
    }
  }

  lemma OthersStay(s: Conn, u: nat, a: Action, t: nat)
    requires u in s.tasks && t in s.tasks && u != t
    ensures var s' := Advance(s, u, s.tasks[u], a); t in s'.tasks && s'.tasks[t] == s.tasks[t]
  {
  }

  lemma {:induction false} OverStays(s: Conn, actions: seq<Action>, t: nat)
    requires t in s.tasks && s.tasks[t].Returned? && NeverSent(s.h.log, t)
    ensures t in Run(s, actions).tasks && Run(s, actions).tasks[t] == s.tasks[t] && NeverSent(Run(s, actions).h.log, t)
    decreases |actions|
  {
    if actions != [] {
      OverIsFinal(s, actions[0], t);
      OverStays(Do(s, actions[0]), actions[1..], t);
    }
  }

  /** A task whose enqueue fails reports that the channel is closed, and whatever
      happens afterwards its request was never sent. */
  lemma FailedEnqueueSendsNothing(client: bool, actions: seq<Action>, t: nat, more: seq<Action>)
    requires t in Run(Fresh(client), actions).tasks && CouldSend(Run(Fresh(client), actions).tasks[t])
    ensures var s := Run(Do(Run(Fresh(client), actions), Enqueue(t, false)), more);
            && t in s.tasks && s.tasks[t] == Returned(Failed(ChannelClosed))
            && NeverSent(s.h.log, t)
  {
    var s := Run(Fresh(client), actions);
    RunSends(Fresh(client), actions);
    NotYetSent(s.h.log, s.tasks, t);
    OverStays(Do(s, Enqueue(t, false)), more, t);
  }

  // ---- giving up ------------------------------------------------------------------------------

  predicate WaitsOn(task: Task, w: nat) {
    (task.Waiting? && task.first == w) || (task.Finishing? && task.second == w)
  }

  /** A task that times out reports that and leaves no slot on its id. */
  lemma TimeOutFreesTheId(client: bool, actions: seq<Action>, t: nat, w: nat)
    requires CleanRun(Fresh(client), actions)
    requires t in Run(Fresh(client), actions).tasks && WaitsOn(Run(Fresh(client), actions).tasks[t], w)
    ensures var s := Run(Fresh(client), actions);
            var s' := Do(s, TimeOut(t));
            s'.tasks[t] == Returned(Failed(AckTimeout)) && s.tasks[t].id !in s'.h.acks.slots
  {
    RunInv(Fresh(client), actions);
    TimeOutStep(Run(Fresh(client), actions), t, w);
  }

  lemma TimeOutStep(s: Conn, t: nat, w: nat)
    requires s.h.acks.Sane() && t in s.tasks && WaitsOn(s.tasks[t], w)
    ensures var s' := Do(s, TimeOut(t));
            s'.tasks[t] == Returned(Failed(AckTimeout)) && s.tasks[t].id !in s'.h.acks.slots
  {
    ResolveKeepsSane(s.h.acks, s.tasks[t].id, Dropped);
  }

  /** A close makes every task with a waiter in the table report a closed channel. */
  lemma CloseFailsTheWaiting(client: bool, actions: seq<Action>, t: nat, w: nat)
    requires CleanRun(Fresh(client), actions)
    requires var s := Run(Fresh(client), actions);
             t in s.tasks && WaitsOn(s.tasks[t], w) && w < |s.h.acks.waiters| && s.h.acks.Held(w)
    ensures var s := Do(Do(Run(Fresh(client), actions), Close), Resume(t));
            s.tasks[t] == Returned(Failed(ChannelClosed)) && s.h.acks.slots == map[]
  {
  }
}

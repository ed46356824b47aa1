/** Registrations and teardowns taken apart into their table operations and
    interleaved freely. A Will is named by the connection that registered it. */
module WillRace {
  import opened BrokerState

  /** A task inside `register_session` or `unregister_session`. */
  datatype Task =
    | Registering(c: ClientId, k: ConnId)
    | Displacing(c: ClientId, k: ConnId, prev: ConnId)
    | Inserting(c: ClientId, k: ConnId)
    | Leaving(c: ClientId, k: ConnId, graceful: bool)
    | Discharging(prev: ConnId)
    | Finished

  /** Where a connection's Will is: with the task about to insert it, in the
      table, in the hands of the task that removed it, published, or gone. */
  datatype Place = Brought(task: nat) | Stored(c: ClientId) | Taken(task: nat) | Published(at: nat) | Gone

  /** `started` names every connection that ever came to register. `place` is
      history: no move depends on it. */
  datatype Race = Race(
    sessions: map<ClientId, ConnId>, tasks: map<nat, Task>, published: seq<ConnId>, started: set<ConnId>,
    place: map<ConnId, Place>)

  const Quiet := Race(map[], map[], [], {}, map[])

  datatype Move =
    | StartRegister(t: nat, c: ClientId, k: ConnId)
    | StartLeave(t: nat, c: ClientId, k: ConnId, graceful: bool)
    | Advance(t: nat)

  function Do(r: Race, m: Move): Race {
    match m
    case StartRegister(t, c, k) =>
      if t in r.tasks || k in r.started then r
      else
        r.(tasks := r.tasks[t := Registering(c, k)], started := r.started + {k}, place := r.place[k := Brought(t)])
    case StartLeave(t, c, k, graceful) =>
      if t in r.tasks then r else r.(tasks := r.tasks[t := Leaving(c, k, graceful)])
    case Advance(t) => if t in r.tasks then Next(r, t, r.tasks[t]) else r
  }

  function Publish(r: Race, t: nat, k: ConnId, next: Task): Race {
    r.(tasks := r.tasks[t := next], published := r.published + [k], place := r.place[k := Published(|r.published|)])
  }

  /** The next table operation of one task. */
  function Next(r: Race, t: nat, task: Task): Race {
    match task
    case Registering(c, k) =>
      if c !in r.sessions then r.(tasks := r.tasks[t := Inserting(c, k)])
      else
        var prev := r.sessions[c];
        r.(sessions := r.sessions - {c}, tasks := r.tasks[t := Displacing(c, k, prev)], place := r.place[prev := Taken(t)])
    case Displacing(c, k, prev) => Publish(r, t, prev, Inserting(c, k))
    case Inserting(c, k) =>
      var place := if c in r.sessions then r.place[r.sessions[c] := Gone] else r.place;
      r.(sessions := r.sessions[c := k], tasks := r.tasks[t := Finished], place := place[k := Stored(c)])
    case Leaving(c, k, graceful) =>
      if c !in r.sessions || r.sessions[c] != k then r.(tasks := r.tasks[t := Finished])
      else if graceful then
        r.(sessions := r.sessions - {c}, tasks := r.tasks[t := Finished], place := r.place[k := Gone])
      else r.(sessions := r.sessions - {c}, tasks := r.tasks[t := Discharging(k)], place := r.place[k := Taken(t)])
    case Discharging(prev) => Publish(r, t, prev, Finished)
    case Finished => r
  }

  function Run(r: Race, moves: seq<Move>): Race
    decreases |moves|
  {
    if moves == [] then r else Run(Do(r, moves[0]), moves[1..])
  }

  predicate At(r: Race, k: ConnId, place: Place) { k in r.place && r.place[k] == place }

  /** The task is about to insert, or has removed and must publish, the Will of `k`. */
  predicate Brings(task: Task, k: ConnId) { (task.Registering? || task.Displacing? || task.Inserting?) && task.k == k }

  predicate Carries(task: Task, k: ConnId) { (task.Displacing? || task.Discharging?) && task.prev == k }

  /** Every reference to a Will is where the books say the Will is. */
  ghost predicate Linear(r: Race) {
    && r.place.Keys == r.started
    && (forall c :: c in r.sessions ==> At(r, r.sessions[c], Stored(c)))
    && (forall t :: t in r.tasks ==> TaskLinear(r, t, r.tasks[t]))
    && (forall i :: 0 <= i < |r.published| ==> At(r, r.published[i], Published(i)))
  }

  ghost predicate TaskLinear(r: Race, t: nat, task: Task) {
    match task
    case Registering(_, k) => At(r, k, Brought(t))
    case Displacing(_, k, prev) => At(r, k, Brought(t)) && At(r, prev, Taken(t))
    case Inserting(_, k) => At(r, k, Brought(t))
    case Discharging(prev) => At(r, prev, Taken(t))
    case _ => true
  }

  /** And where the books say a Will is, there is a reference to it. */
  ghost predicate Placed(r: Race) {
    forall k :: k in r.place ==> IsThere(r, k, r.place[k])
  }

  predicate IsThere(r: Race, k: ConnId, place: Place) {
    match place
    case Brought(t) => t in r.tasks && Brings(r.tasks[t], k)
    case Stored(c) => c in r.sessions && r.sessions[c] == k
    case Taken(t) => t in r.tasks && Carries(r.tasks[t], k)
    case Published(i) => i < |r.published| && r.published[i] == k
    case Gone => true
  }

  lemma DoKeepsLinear(r: Race, m: Move)
    requires Linear(r)
    ensures Linear(Do(r, m))
  {
    var r' := Do(r, m);
    forall t | t in r'.tasks ensures TaskLinear(r', t, r'.tasks[t]) {
      TaskKeepsLinear(r, m, t);
    }
    forall c | c in r'.sessions ensures At(r', r'.sessions[c], Stored(c)) {
      EntryKeepsLinear(r, m, c);
    }
    forall i | 0 <= i < |r'.published| ensures At(r', r'.published[i], Published(i)) {
      PublicationKeepsLinear(r, m, i);
    }
    StartedAreBooked(r, m);
  }

  lemma TaskKeepsLinear(r: Race, m: Move, t: nat)
    requires Linear(r) && t in Do(r, m).tasks
    ensures TaskLinear(Do(r, m), t, Do(r, m).tasks[t])
  {
    if t in r.tasks {
      assert TaskLinear(r, t, r.tasks[t]);
    }
    if m.Advance? && m.t in r.tasks {
      NextKeepsTask(r, m.t, t);
    }
  }

  lemma NextKeepsTask(r: Race, mover: nat, t: nat)
    requires Linear(r) && mover in r.tasks && t in r.tasks
    ensures TaskLinear(Next(r, mover, r.tasks[mover]), t, Next(r, mover, r.tasks[mover]).tasks[t])
  {
    assert TaskLinear(r, t, r.tasks[t]);
    assert TaskLinear(r, mover, r.tasks[mover]);
  }

  lemma EntryKeepsLinear(r: Race, m: Move, c: ClientId)
    requires Linear(r) && c in Do(r, m).sessions
    ensures At(Do(r, m), Do(r, m).sessions[c], Stored(c))
  {
    if m.Advance? && m.t in r.tasks {
      assert TaskLinear(r, m.t, r.tasks[m.t]);
    }
    if c in r.sessions {
      assert At(r, r.sessions[c], Stored(c));
    }
  }

  lemma PublicationKeepsLinear(r: Race, m: Move, i: nat)
    requires Linear(r) && i < |Do(r, m).published|
    ensures At(Do(r, m), Do(r, m).published[i], Published(i))
  {
    if m.Advance? && m.t in r.tasks {
      assert TaskLinear(r, m.t, r.tasks[m.t]);
    }
    if i < |r.published| {
      assert At(r, r.published[i], Published(i));
    }
  }

  lemma StartedAreBooked(r: Race, m: Move)
    requires Linear(r)
    ensures Do(r, m).place.Keys == Do(r, m).started
  {
    if m.Advance? && m.t in r.tasks {
      assert TaskLinear(r, m.t, r.tasks[m.t]);
    }
  }

  lemma DoKeepsPlaced(r: Race, m: Move)
    requires Linear(r) && Placed(r)
    ensures Placed(Do(r, m))
  {
    var r' := Do(r, m);
    forall k | k in r'.place ensures IsThere(r', k, r'.place[k]) {
      WillIsThere(r, m, k);
    }
  }

  lemma WillIsThere(r: Race, m: Move, k: ConnId)
    requires Linear(r) && Placed(r) && k in Do(r, m).place
    ensures IsThere(Do(r, m), k, Do(r, m).place[k])
  {
    if k in r.place {
      assert IsThere(r, k, r.place[k]);
    }
    if m.Advance? && m.t in r.tasks {
      NextKeepsWill(r, m.t, k);
    }
  }

  lemma NextKeepsWill(r: Race, t: nat, k: ConnId)
    requires Linear(r) && Placed(r) && t in r.tasks && k in Next(r, t, r.tasks[t]).place
    ensures IsThere(Next(r, t, r.tasks[t]), k, Next(r, t, r.tasks[t]).place[k])
  {
    assert TaskLinear(r, t, r.tasks[t]);
    assert IsThere(r, k, r.place[k]);
    match r.tasks[t] {
      case Registering(c, _) => assert c in r.sessions ==> At(r, r.sessions[c], Stored(c));
      case Inserting(c, _) => assert c in r.sessions ==> At(r, r.sessions[c], Stored(c));
      case Leaving(c, _, _) => assert c in r.sessions ==> At(r, r.sessions[c], Stored(c));
      case _ =>
    }
  }

  lemma {:induction false} RunKeepsLinear(r: Race, moves: seq<Move>)
    requires Linear(r) && Placed(r)
    ensures Linear(Run(r, moves)) && Placed(Run(r, moves))
    decreases |moves|
  {
    if moves != [] {
      DoKeepsLinear(r, moves[0]);
      DoKeepsPlaced(r, moves[0]);
      RunKeepsLinear(Do(r, moves[0]), moves[1..]);
    }
  }

  /** Under every interleaving each Will is published at most once, and a
      published Will is neither in the table nor in any task's hands. */
  lemma WillAtMostOnce(moves: seq<Move>, i: nat, j: nat)
    requires i < |Run(Quiet, moves).published| && j < |Run(Quiet, moves).published|
    ensures var r := Run(Quiet, moves);
            && (r.published[i] == r.published[j] ==> i == j)
            && (forall c :: c in r.sessions ==> r.sessions[c] != r.published[i])
            && (forall t :: t in r.tasks ==>
                  (r.tasks[t].Displacing? || r.tasks[t].Discharging?) ==> r.tasks[t].prev != r.published[i])
  {
    RunKeepsLinear(Quiet, moves);
    var r := Run(Quiet, moves);
    assert At(r, r.published[i], Published(i)) && At(r, r.published[j], Published(j));
    forall t | t in r.tasks && (r.tasks[t].Displacing? || r.tasks[t].Discharging?)
      ensures r.tasks[t].prev != r.published[i]
    {
      assert TaskLinear(r, t, r.tasks[t]);
    }
  }

  /** An insertion that finds its name taken, which only a registration racing
      another for the same client does, overwrites the entry there. */
  predicate Overwrites(r: Race, m: Move, k: ConnId) {
    && m.Advance? && m.t in r.tasks && r.tasks[m.t].Inserting?
    && r.tasks[m.t].c in r.sessions && r.sessions[r.tasks[m.t].c] == k
  }

  predicate LeavesGracefully(r: Race, m: Move, k: ConnId) {
    && m.Advance? && m.t in r.tasks && r.tasks[m.t].Leaving? && r.tasks[m.t].graceful
    && r.tasks[m.t].c in r.sessions && r.sessions[r.tasks[m.t].c] == k && r.tasks[m.t].k == k
  }

  predicate GivesUp(r: Race, m: Move, k: ConnId) { Overwrites(r, m, k) || LeavesGracefully(r, m, k) }

  /** Some move of the run gives the Will of `k` up. */
  predicate GivenUp(r: Race, moves: seq<Move>, k: ConnId)
    decreases |moves|
  {
    moves != [] && (GivesUp(r, moves[0], k) || GivenUp(Do(r, moves[0]), moves[1..], k))
  }

  /** The connection came to register, and its Will is in no table, in no task's
      hands and was not published. */
  ghost predicate Lost(r: Race, k: ConnId) {
    && k in r.started && k !in r.published
    && (forall c :: c in r.sessions ==> r.sessions[c] != k)
    && (forall t :: t in r.tasks ==> !Brings(r.tasks[t], k) && !Carries(r.tasks[t], k))
  }

  lemma LostIsGone(r: Race, k: ConnId)
    requires Linear(r) && Placed(r)
    ensures Lost(r, k) <==> At(r, k, Gone)
  {
    if k in r.place {
      assert IsThere(r, k, r.place[k]);
      if r.place[k].Gone? {
        forall t | t in r.tasks ensures !Brings(r.tasks[t], k) && !Carries(r.tasks[t], k) {
          assert TaskLinear(r, t, r.tasks[t]);
        }
      }
    }
  }

  lemma GoneByOneMove(r: Race, m: Move, k: ConnId)
    requires Linear(r)
    ensures At(Do(r, m), k, Gone) <==> At(r, k, Gone) || GivesUp(r, m, k)
  {
    if m.Advance? && m.t in r.tasks {
      var task := r.tasks[m.t];
      assert TaskLinear(r, m.t, task);
      if (task.Registering? || task.Inserting? || task.Leaving?) && task.c in r.sessions {
        assert At(r, r.sessions[task.c], Stored(task.c));
      }
    }
  }

  lemma {:induction false} GoneByRun(r: Race, moves: seq<Move>, k: ConnId)
    requires Linear(r)
    ensures At(Run(r, moves), k, Gone) <==> At(r, k, Gone) || GivenUp(r, moves, k)
    decreases |moves|
  {
    if moves != [] {
      GoneByOneMove(r, moves[0], k);
      DoKeepsLinear(r, moves[0]);
      GoneByRun(Do(r, moves[0]), moves[1..], k);
    }
  }

  /** Under every interleaving a Will is lost exactly when some move of the run left
      gracefully with it or overwrote its entry; every other Will is in the table,
      with the task that brings or discharges it, or published. */
  lemma WillLostExactly(moves: seq<Move>, k: ConnId)
    ensures Lost(Run(Quiet, moves), k) <==> GivenUp(Quiet, moves, k)
  {
    RunKeepsLinear(Quiet, moves);
    LostIsGone(Run(Quiet, moves), k);
    GoneByRun(Quiet, moves, k);
  }

  /** At most once is the most that holds: two registrations of one client that
      both find the name free leave the first one's Will unpublished for good. */
  lemma RacingRegistrationsLoseAWill(c: ClientId)
    ensures var moves := [StartRegister(0, c, 1), StartRegister(1, c, 2), Advance(0), Advance(1), Advance(0), Advance(1)];
            var r := Run(Quiet, moves);
            && r.tasks == map[0 := Finished, 1 := Finished]
            && r.sessions == map[c := 2] && r.published == [] && Lost(r, 1)
  {
    var moves := [StartRegister(0, c, 1), StartRegister(1, c, 2), Advance(0), Advance(1), Advance(0), Advance(1)];
    BothFindTheNameFree(c);
    FirstIsOverwritten(c);
    TwoMoves(Quiet, moves);
    TwoMoves(Do(Do(Quiet, moves[0]), moves[1]), moves[2..]);
    TwoMoves(BothInserting(c), moves[2..][2..]);
  }

  lemma TwoMoves(r: Race, moves: seq<Move>)
    requires |moves| >= 2
    ensures Run(r, moves) == Run(Do(Do(r, moves[0]), moves[1]), moves[2..])
  {
    assert moves[1..][1..] == moves[2..];
  }

  function BothInserting(c: ClientId): Race {
    Race(map[], map[0 := Inserting(c, 1), 1 := Inserting(c, 2)], [], {1, 2}, map[1 := Brought(0), 2 := Brought(1)])
  }

  lemma BothFindTheNameFree(c: ClientId)
    ensures var r := Do(Do(Quiet, StartRegister(0, c, 1)), StartRegister(1, c, 2));
            Do(Do(r, Advance(0)), Advance(1)) == BothInserting(c)
  {
  }

  lemma FirstIsOverwritten(c: ClientId)
    ensures var r := Do(Do(BothInserting(c), Advance(0)), Advance(1));
            && r.tasks == map[0 := Finished, 1 := Finished]
            && r.sessions == map[c := 2] && r.published == [] && Lost(r, 1)
  {
  }
}

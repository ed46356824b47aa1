/** Which Wills a server publishes, told from the moves of a run alone. */
module ServerWills {
  import opened Types
  import opened BrokerState
  import opened PublishWriter
  import opened BrokerRefinement
  import opened BrokerRuns
  import opened Server
  import opened ServerRuns

  // ---- what the moves say of a connection ---------------------------------------------------

  predicate Admits(m: Move, k: ConnId) { m.Admit? && m.k == k }

  /** `handle_server` returns, from a CONNACK that failed or from its teardown. */
  predicate Returns(m: Move, k: ConnId) { (m.ConnackFailed? || m.Finish?) && m.k == k }

  /** The name `k` registered under. */
  function Name(moves: seq<Move>, k: ConnId): Option<ClientId> {
    if moves == [] then None
    else
      var last := moves[|moves| - 1];
      if Admits(last, k) then Some(last.c) else Name(moves[..|moves| - 1], k)
  }

  /** The Will `k` registered. */
  function WillIn(moves: seq<Move>, k: ConnId): Option<WillMessage> {
    if moves == [] then None
    else
      var last := moves[|moves| - 1];
      if Admits(last, k) then last.will else WillIn(moves[..|moves| - 1], k)
  }

  predicate Returned(moves: seq<Move>, k: ConnId) {
    moves != [] && (Returns(moves[|moves| - 1], k) || Returned(moves[..|moves| - 1], k))
  }

  /** A DISCONNECT arrived on `k`. */
  predicate Disconnected(moves: seq<Move>, k: ConnId) {
    moves != [] && (moves[|moves| - 1] == Inbound(k, Disconnect) || Disconnected(moves[..|moves| - 1], k))
  }

  /** Another connection registered under the name of `k` before `k` returned. */
  predicate TakenOver(moves: seq<Move>, k: ConnId) {
    && moves != []
    && var last, before := moves[|moves| - 1], moves[..|moves| - 1];
      || TakenOver(before, k)
      || (last.Admit? && last.k != k && Name(before, k) == Some(last.c) && !Returned(before, k))
  }

  /** How often the log has an entry with this cause. */
  function CauseCount(log: seq<Call>, cause: Cause): nat {
    if log == [] then 0
    else CauseCount(log[..|log| - 1], cause) + (if log[|log| - 1].cause == cause then 1 else 0)
  }

  /** A teardown owes the Will when the connection returned without having said goodbye
      and still had its name. */
  function OwnDue(moves: seq<Move>, k: ConnId): nat {
    if Returned(moves, k) && WillIn(moves, k).Some? && !TakenOver(moves, k) && !Disconnected(moves, k) then 1 else 0
  }

  function TakeoverDue(moves: seq<Move>, k: ConnId): nat {
    if TakenOver(moves, k) && WillIn(moves, k).Some? then 1 else 0
  }

  // ---- runs, taken from the end -----------------------------------------------------------------

  lemma {:induction false} LastMove(s: Sys, moves: seq<Move>)
    requires Possible(s, moves) && moves != []
    ensures var before := moves[..|moves| - 1];
            && Possible(s, before) && Can(After(s, before), moves[|moves| - 1])
            && After(s, moves) == Apply(After(s, before), moves[|moves| - 1])
    decreases |moves|
  {
    if |moves| > 1 {
      var rest := moves[1..];
      LastMove(Apply(s, moves[0]), rest);
      assert moves[..|moves| - 1][1..] == rest[..|rest| - 1];
    } else {
      assert moves[1..] == [] && moves[..0] == [];
    }
  }

  // ---- the state against the moves ----------------------------------------------------------------

  /** What the moves say of `k` is what its connection record says. */
  ghost predicate PhaseTold(moves: seq<Move>, conns: map<ConnId, Conn>, k: ConnId) {
    if k in conns && !conns[k].phase.Arrived? then
      && Name(moves, k) == Some(conns[k].client) && WillIn(moves, k) == conns[k].will
      && (Returned(moves, k) <==> conns[k].phase.Over?)
      && (conns[k].phase.Registered? || conns[k].phase.Serving? ==> !Disconnected(moves, k))
      && (conns[k].phase.Draining? ==> conns[k].phase.graceful == Disconnected(moves, k))
    else
      Name(moves, k).None? && WillIn(moves, k).None? && !Returned(moves, k) && !Disconnected(moves, k)
  }

  /** And whether it still has its name is what its entry says. */
  ghost predicate NameTold(moves: seq<Move>, s: Sys, k: ConnId) {
    if k in s.conns && !s.conns[k].phase.Arrived? then
      !s.conns[k].phase.Over? ==> (OwnedBy(s.broker, s.conns[k].client, k) <==> !TakenOver(moves, k))
    else !TakenOver(moves, k)
  }

  ghost predicate WillsTold(moves: seq<Move>, log: seq<Call>, k: ConnId) {
    CauseCount(log, OwnWill(k)) == OwnDue(moves, k) && CauseCount(log, TakeoverWill(k)) == TakeoverDue(moves, k)
  }

  lemma ClosingKeepsPhases(s: Sys, j: ConnId, k: ConnId)
    requires k in s.conns
    ensures k in Closing(s, j) && Closing(s, j)[k].phase == s.conns[k].phase
    ensures Closing(s, j)[k].client == s.conns[k].client && Closing(s, j)[k].will == s.conns[k].will
  {
  }

  /** A move of another connection leaves `k` in its phase, under its name. */
  lemma OthersKeepPhase(s: Sys, m: Move, k: ConnId)
    requires Can(s, m) && k in s.conns && m.k != k
    ensures var s' := Apply(s, m);
            && k in s'.conns && s'.conns[k].phase == s.conns[k].phase
            && s'.conns[k].client == s.conns[k].client && s'.conns[k].will == s.conns[k].will
  {
    match m {
      case Admit(_, c, _, _, _) => if c in s.broker.sessions { ClosingKeepsPhases(s, s.broker.sessions[c].conn, k); }
      case Leave(j) => ClosingKeepsPhases(s, j, k);
      case Inbound(j, p) => ClosingKeepsPhases(Received(s, j, p), j, k);
      case _ =>
    }
  }

  /** What a move of `k` itself makes of its record. */
  lemma OwnPhase(s: Sys, m: Move)
    requires Can(s, m)
    ensures m.k in Apply(s, m).conns
    ensures var conn' := Apply(s, m).conns[m.k];
            match m
            case Accept(_) => conn'.phase.Arrived?
            case Admit(_, c, will, _, _) => conn'.phase.Registered? && conn'.client == c && conn'.will == will
            case _ =>
              var conn := s.conns[m.k];
              && conn'.client == conn.client && conn'.will == conn.will
              && conn'.phase ==
                   (if Returns(m, m.k) then Over
                    else if m.ConnackSent? then Serving
                    else if m == Inbound(m.k, Disconnect) then Draining(true)
                    else if m.Leave? || (m.Inbound? && m.p.Connect?) then Draining(false)
                    else conn.phase)
  {
    match m {
      case Admit(k, c, _, _, _) => if c in s.broker.sessions { ClosingKeepsPhases(s, s.broker.sessions[c].conn, k); }
      case Leave(k) => ClosingKeepsPhases(s, k, k);
      case Inbound(k, p) => ClosingKeepsPhases(Received(s, k, p), k, k);
      case _ =>
    }
  }

  lemma MovePhaseTold(moves: seq<Move>, s: Sys, m: Move, k: ConnId)
    requires Can(s, m) && PhaseTold(moves, s.conns, k)
    ensures PhaseTold(moves + [m], Apply(s, m).conns, k)
  {
    assert (moves + [m])[..|moves|] == moves;
    if m.k == k {
      OwnPhase(s, m);
    } else {
      if k in s.conns {
        OthersKeepPhase(s, m, k);
      }
      OthersAreOthers(s, m, k);
    }
  }

  lemma OthersAreOthers(s: Sys, m: Move, k: ConnId)
    requires Can(s, m) && m.k != k
    ensures k in Apply(s, m).conns <==> k in s.conns
  {
  }

  // ---- names -----------------------------------------------------------------------------------------

  /** Who owns a name after a move. */
  lemma OwnerAfter(s: Sys, m: Move, c: ClientId, k: ConnId)
    requires Sound(s) && Can(s, m)
    ensures OwnedBy(Apply(s, m).broker, c, k) <==>
              if m.Admit? && m.c == c then m.k == k
              else OwnedBy(s.broker, c, k) && !Returns(m, k)
  {
    var st := s.broker;
    match m {
      case Admit(j, d, will, clean, order) => RegisterFrame(st, d, j, will, clean, order);
      case ConnackFailed(j, order) => OwnerAfterTeardown(s, j, false, order, c, k);
      case Finish(j, order) => OwnerAfterTeardown(s, j, s.conns[j].phase.graceful, order, c, k);
      case _ => OwnersStay(s, m);
    }
  }

  /** Other moves leave every name with its owner. */
  lemma OwnersStay(s: Sys, m: Move)
    requires Sound(s) && Can(s, m) && !m.Admit? && !m.ConnackFailed? && !m.Finish?
    ensures SameOwners(s.broker.sessions, Apply(s, m).broker.sessions)
  {
    match m {
      case Inbound(j, p) => BrokerSideStep(s.broker, s.conns[j].client, j, p);
      case Work(j, outs, order) =>
        var conn := s.conns[j];
        WorkedBrokerStep(s.broker, conn.client, j, |conn.results|, NextResult(conn, outs), order);
      case _ =>
    }
  }

  lemma OwnerAfterTeardown(s: Sys, j: ConnId, graceful: bool, order: seq<Hit>, c: ClientId, k: ConnId)
    requires Sound(s) && j in s.conns
    ensures OwnedBy(Return(s, j, graceful, order).broker, c, k) <==> OwnedBy(s.broker, c, k) && j != k
  {
    if c in s.broker.sessions {
      assert EntryLive(s.conns, c, s.broker.sessions[c]);
    }
    OwnerAfterReturn(s.broker, s.conns[j].client, j, graceful, order, c, k);
  }

  lemma OwnerAfterReturn(st: State, d: ClientId, j: ConnId, graceful: bool, order: seq<Hit>, c: ClientId, k: ConnId)
    ensures OwnedBy(Unregister(st, d, j, graceful, order), c, k) <==> OwnedBy(st, c, k) && !(c == d && k == j)
  {
    if OwnedBy(st, d, j) {
      WillFrame(Without(st, d), OwnWill(j), TeardownWill(st, d, j, graceful), order);
    }
  }

  lemma MoveNameTold(moves: seq<Move>, s: Sys, m: Move, k: ConnId)
    requires Sound(s) && Can(s, m) && PhaseTold(moves, s.conns, k) && NameTold(moves, s, k)
    ensures NameTold(moves + [m], Apply(s, m), k)
  {
    assert (moves + [m])[..|moves|] == moves;
    if m.k == k {
      OwnPhase(s, m);
      OwnerAfter(s, m, Apply(s, m).conns[k].client, k);
    } else if k in s.conns {
      OthersKeepPhase(s, m, k);
      OwnerAfter(s, m, s.conns[k].client, k);
    } else {
      OthersAreOthers(s, m, k);
    }
  }

  // ---- the log ------------------------------------------------------------------------------------------

  lemma CauseCountAppend(log: seq<Call>, call: Call, cause: Cause)
    ensures CauseCount(log + [call], cause) == CauseCount(log, cause) + (if call.cause == cause then 1 else 0)
  {
    assert (log + [call])[..|log|] == log;
  }

  lemma LogsCount(log: seq<Call>, log': seq<Call>, cause: Cause, will: Option<WillMessage>, other: Cause)
    requires Logs(log, log', cause, will)
    ensures CauseCount(log', other) == CauseCount(log, other) + (if will.Some? && cause == other then 1 else 0)
  {
    if will.Some? {
      var call :| log' == log + [call] && call.cause == cause && SaysWill(call.m, will.value);
      CauseCountAppend(log, call, other);
    }
  }

  /** The Will a move puts in the log: of the connection it displaces, or of the one
      that returns. */
  function WillMoved(s: Sys, m: Move): (r: (Cause, Option<WillMessage>))
    requires m.Accept? || m.k in s.conns
  {
    match m
    case Admit(k, c, _, _, _) =>
      if c in s.broker.sessions then (TakeoverWill(s.broker.sessions[c].conn), s.broker.sessions[c].will)
      else (TakeoverWill(k), None)
    case ConnackFailed(k, _) => (OwnWill(k), TeardownWill(s.broker, s.conns[k].client, k, false))
    case Finish(k, _) =>
      (OwnWill(k), TeardownWill(s.broker, s.conns[k].client, k, s.conns[k].phase.Draining? && s.conns[k].phase.graceful))
    case _ => (OwnWill(m.k), None)
  }

  lemma MoveLogs(s: Sys, m: Move, other: Cause)
    requires Sound(s) && Can(s, m) && !other.Message?
    ensures var (cause, will) := WillMoved(s, m);
            CauseCount(Apply(s, m).broker.log, other) ==
              CauseCount(s.broker.log, other) + (if will.Some? && cause == other then 1 else 0)
  {
    var st, st' := s.broker, Apply(s, m).broker;
    match m {
      case Admit(k, c, will, clean, order) =>
        RegisterLogs(st, c, k, will, clean, order);
        if c in st.sessions {
          LogsCount(st.log, st'.log, TakeoverWill(st.sessions[c].conn), st.sessions[c].will, other);
        }
      case ConnackFailed(k, order) => ReturnLogs(st, s.conns[k].client, k, false, order, other);
      case Finish(k, order) => ReturnLogs(st, s.conns[k].client, k, s.conns[k].phase.graceful, order, other);
      case Inbound(k, p) => BrokerSideStep(st, s.conns[k].client, k, p);
      case Work(k, outs, order) =>
        var conn := s.conns[k];
        var result := NextResult(conn, outs);
        if result.Some? {
          var cause := Message(conn.client, k, |conn.results|);
          CauseCountAppend(st.log, CallOf(st, Spread(st, conn.client, result.value, order), cause, result.value), other);
        }
      case _ =>
    }
  }

  lemma ReturnLogs(st: State, c: ClientId, k: ConnId, graceful: bool, order: seq<Hit>, other: Cause)
    ensures CauseCount(Unregister(st, c, k, graceful, order).log, other) ==
              CauseCount(st.log, other) + (if TeardownWill(st, c, k, graceful).Some? && other == OwnWill(k) then 1 else 0)
  {
    if OwnedBy(st, c, k) {
      WillLogs(Without(st, c), OwnWill(k), TeardownWill(st, c, k, graceful), order);
      LogsCount(st.log, Unregister(st, c, k, graceful, order).log, OwnWill(k), TeardownWill(st, c, k, graceful), other);
    }
  }

  lemma MoveWillsTold(moves: seq<Move>, s: Sys, m: Move, k: ConnId)
    requires Sound(s) && Can(s, m) && PhaseTold(moves, s.conns, k) && NameTold(moves, s, k)
    requires WillsTold(moves, s.broker.log, k)
    ensures WillsTold(moves + [m], Apply(s, m).broker.log, k)
  {
    MoveLogs(s, m, OwnWill(k));
    MoveLogs(s, m, TakeoverWill(k));
    if m.k == k {
      OwnWillTold(moves, s, m);
    } else {
      OtherWillTold(moves, s, m, k);
    }
  }

  /** A move of `k` publishes its Will exactly when it becomes due. */
  lemma OwnWillTold(moves: seq<Move>, s: Sys, m: Move)
    requires Sound(s) && Can(s, m) && PhaseTold(moves, s.conns, m.k) && NameTold(moves, s, m.k)
    ensures var (cause, will) := WillMoved(s, m);
            var k, all := m.k, moves + [m];
            && OwnDue(all, k) == OwnDue(moves, k) + (if will.Some? && cause == OwnWill(k) then 1 else 0)
            && TakeoverDue(all, k) == TakeoverDue(moves, k) + (if will.Some? && cause == TakeoverWill(k) then 1 else 0)
  {
    assert (moves + [m])[..|moves|] == moves;
    var k := m.k;
    if Returns(m, k) && OwnedBy(s.broker, s.conns[k].client, k) {
      assert EntryLive(s.conns, s.conns[k].client, s.broker.sessions[s.conns[k].client]);
    }
    if m.Admit? && m.c in s.broker.sessions {
      ArrivedHoldsNothing(s, k);
    }
  }

  /** A move of another connection publishes the Will of `k` exactly when it takes over. */
  lemma OtherWillTold(moves: seq<Move>, s: Sys, m: Move, k: ConnId)
    requires Sound(s) && Can(s, m) && m.k != k && PhaseTold(moves, s.conns, k) && NameTold(moves, s, k)
    ensures var (cause, will) := WillMoved(s, m);
            var all := moves + [m];
            && OwnDue(all, k) == OwnDue(moves, k) + (if will.Some? && cause == OwnWill(k) then 1 else 0)
            && TakeoverDue(all, k) == TakeoverDue(moves, k) + (if will.Some? && cause == TakeoverWill(k) then 1 else 0)
  {
    assert (moves + [m])[..|moves|] == moves;
    if m.Admit? && m.c in s.broker.sessions {
      assert EntryLive(s.conns, m.c, s.broker.sessions[m.c]);
    }
  }

  // ---- every run --------------------------------------------------------------------------------------------

  ghost predicate Told(moves: seq<Move>, s: Sys, k: ConnId) {
    PhaseTold(moves, s.conns, k) && NameTold(moves, s, k) && WillsTold(moves, s.broker.log, k)
  }

  lemma MoveIsTold(moves: seq<Move>, s: Sys, m: Move, k: ConnId)
    requires Sound(s) && Can(s, m) && Told(moves, s, k)
    ensures Told(moves + [m], Apply(s, m), k)
  {
    MovePhaseTold(moves, s, m, k);
    MoveNameTold(moves, s, m, k);
    MoveWillsTold(moves, s, m, k);
  }

  lemma NothingIsTold(k: ConnId)
    ensures Told([], EmptySys, k)
  {
  }

  lemma {:induction false} RunKeepsTold(done: seq<Move>, s: Sys, moves: seq<Move>, k: ConnId)
    requires Good(s) && Told(done, s, k) && Possible(s, moves)
    ensures Told(done + moves, After(s, moves), k)
    decreases |moves|
  {
    if moves == [] {
      assert done + moves == done;
    } else {
      var m, s' := moves[0], Apply(s, moves[0]);
      MoveIsGood(s, m);
      MoveIsTold(done, s, m, k);
      RunKeepsTold(done + [m], s', moves[1..], k);
      assert done + [m] + moves[1..] == done + moves;
    }
  }

  lemma RunIsTold(moves: seq<Move>, k: ConnId)
    requires Possible(EmptySys, moves)
    ensures Told(moves, After(EmptySys, moves), k)
  {
    EmptyIsGood();
    NothingIsTold(k);
    RunKeepsTold([], EmptySys, moves, k);
    assert [] + moves == moves;
  }

  /** Over every run of a server, told from its moves alone: a connection's teardown
      publishes its Will exactly once if the connection returned, had registered one,
      no DISCONNECT had arrived and nobody had taken its name; a takeover publishes it
      exactly once if the name was taken before the connection returned; nothing else
      ever publishes it; and what goes out is the Will registered. */
  lemma WillsOfAServer(moves: seq<Move>, k: ConnId)
    requires Possible(EmptySys, moves)
    ensures var log := After(EmptySys, moves).broker.log;
            && CauseCount(log, OwnWill(k)) ==
                 (if Returned(moves, k) && WillIn(moves, k).Some? && !TakenOver(moves, k) && !Disconnected(moves, k)
                  then 1 else 0)
            && CauseCount(log, TakeoverWill(k)) == (if TakenOver(moves, k) && WillIn(moves, k).Some? then 1 else 0)
            && forall a :: 0 <= a < |log| && log[a].cause.WillFor(k) ==>
                 WillIn(moves, k).Some? && SaysWill(log[a].m, WillIn(moves, k).value)
  {
    RunIsTold(moves, k);
    RunFromStart(moves);
    var s := After(EmptySys, moves);
    forall a | 0 <= a < |s.broker.log| && s.broker.log[a].cause.WillFor(k)
      ensures WillIn(moves, k).Some? && SaysWill(s.broker.log[a].m, WillIn(moves, k).value)
    {
      assert CallOk(s.broker.log[a], s.conns);
    }
  }

  /** So a Will is never published twice, and never after a DISCONNECT except by a
      takeover. */
  lemma OneWillPerConnection(moves: seq<Move>, k: ConnId)
    requires Possible(EmptySys, moves)
    ensures var log := After(EmptySys, moves).broker.log;
            CauseCount(log, OwnWill(k)) + CauseCount(log, TakeoverWill(k)) <= 1
  {
    RunIsTold(moves, k);
  }

  /** Once out of its read loop a connection's channel is closed. */
  lemma {:induction false} LeftIsClosed(start: Sys, moves: seq<Move>, k: ConnId)
    requires Good(start) && Possible(start, moves)
    requires k in start.conns ==> !start.conns[k].phase.Draining?
    requires k in After(start, moves).conns && After(start, moves).conns[k].phase.Draining?
    ensures k in After(start, moves).broker.channels && !After(start, moves).broker.channels[k].open
    decreases |moves|
  {
    if moves != [] {
      var before, m := moves[..|moves| - 1], moves[|moves| - 1];
      LastMove(start, moves);
      RunIsGood(start, before);
      if k in After(start, before).conns && After(start, before).conns[k].phase.Draining? {
        LeftIsClosed(start, before, k);
      }
      ClosedByMove(After(start, before), m, k);
    }
  }

  lemma ClosedByMove(s: Sys, m: Move, k: ConnId)
    requires Sound(s) && Can(s, m) && k in Apply(s, m).conns && Apply(s, m).conns[k].phase.Draining?
    requires k in s.conns && s.conns[k].phase.Draining? ==> k in s.broker.channels && !s.broker.channels[k].open
    ensures k in Apply(s, m).broker.channels && !Apply(s, m).broker.channels[k].open
  {
    if k in s.conns && s.conns[k].phase.Draining? {
      MoveIsOp(s, m);
      RunStaysClosed(s.broker, BrokerOps(s, m), k);
    } else if m.k == k {
      OwnPhase(s, m);
      if m.Inbound? {
        BrokerSideStep(s.broker, s.conns[k].client, k, m.p);
      }
    } else {
      OthersAreOthers(s, m, k);
      OthersKeepPhase(s, m, k);
    }
  }

  /** A connection returns only after a way out of the read loop or a failed CONNACK,
      and a teardown without a DISCONNECT was a crash. */
  predicate Crashed(moves: seq<Move>, k: ConnId) {
    && moves != []
    && var last := moves[|moves| - 1];
      || last == Leave(k) || (last.Inbound? && last.k == k && last.p.Connect?) || (last.ConnackFailed? && last.k == k)
      || Crashed(moves[..|moves| - 1], k)
  }

  lemma {:induction false} CrashedOrDisconnected(moves: seq<Move>, k: ConnId)
    requires Possible(EmptySys, moves)
    requires k in After(EmptySys, moves).conns
    requires After(EmptySys, moves).conns[k].phase.Draining? || After(EmptySys, moves).conns[k].phase.Over?
    ensures Crashed(moves, k) <==> !Disconnected(moves, k)
    decreases |moves|
  {
    var before, m := moves[..|moves| - 1], moves[|moves| - 1];
    LastMove(EmptySys, moves);
    RunIsTold(before, k);
    var s := After(EmptySys, before);
    if m.k == k {
      OwnPhase(s, m);
    } else {
      OthersAreOthers(s, m, k);
      OthersKeepPhase(s, m, k);
    }
    if k in s.conns && (s.conns[k].phase.Draining? || s.conns[k].phase.Over?) {
      CrashedOrDisconnected(before, k);
    } else {
      NotCrashedYet(before, k);
    }
  }

  lemma {:induction false} NotCrashedYet(moves: seq<Move>, k: ConnId)
    requires Possible(EmptySys, moves)
    requires k in After(EmptySys, moves).conns ==>
               !After(EmptySys, moves).conns[k].phase.Draining? && !After(EmptySys, moves).conns[k].phase.Over?
    ensures !Crashed(moves, k)
    decreases |moves|
  {
    if moves != [] {
      var before, m := moves[..|moves| - 1], moves[|moves| - 1];
      LastMove(EmptySys, moves);
      var s := After(EmptySys, before);
      if m.k == k {
        OwnPhase(s, m);
      } else {
        OthersAreOthers(s, m, k);
        if k in s.conns {
          OthersKeepPhase(s, m, k);
        }
      }
      NotCrashedYet(before, k);
    }
  }

  /** A teardown publishes a Will only after a crash: a read loop left otherwise than by
      DISCONNECT, or a CONNACK that failed. */
  lemma OwnWillOnlyAfterCrash(moves: seq<Move>, k: ConnId)
    requires Possible(EmptySys, moves) && CauseCount(After(EmptySys, moves).broker.log, OwnWill(k)) > 0
    ensures Crashed(moves, k) && !Disconnected(moves, k)
  {
    RunIsTold(moves, k);
    CrashedOrDisconnected(moves, k);
  }
}

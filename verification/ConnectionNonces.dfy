/** The nonces that a connection remembers, along the runs of the control plane: they begin with the nonce of the hello
    that registered it and gain one with each result that is believed on it. The capped and pruned window of the
    connection answers as this whole history would. */
module ConnectionNonces {
  import opened JsText
  import opened CanonicalJson
  import opened RemoteTypes
  import opened Envelopes
  import opened NonceWindows
  import NonceHistory
  import opened Planes
  import opened PlaneRuns
  import opened ActionSettlement

  // ---- The history ----

  /** The event is a hello that registers agent a. */
  ghost predicate Registers(p: Plane, verifies: Verifier, e: Event, a: Text) {
    e.op.ReceiveOp? && e.op.incoming.Some? && Parses(e.op.incoming.value.message)
    && e.op.incoming.value.message.Hello? && e.op.incoming.value.message.agentId == a
    && HelloProblem(p, verifies, e.op.s, e.op.incoming.value, e.now).None?
  }

  /** The event is a result that is believed, for an action of agent a. */
  ghost predicate Believes(p: Plane, verifies: Verifier, e: Event, a: Text) {
    e.op.ReceiveOp? && e.op.incoming.Some? && Parses(e.op.incoming.value.message)
    && e.op.incoming.value.message.Result? && e.op.incoming.value.message.agentId == a
    && e.op.incoming.value.message.actionId in p.pending
    && Believed(p, verifies, e.op.s, e.op.incoming.value, e.now)
  }

  ghost function NextNonces(p: Plane, verifies: Verifier, e: Event, a: Text, history: seq<Entry>): seq<Entry> {
    if Registers(p, verifies, e, a) then [Entry(e.op.incoming.value.message.nonce, e.now + 300_000)]
    else if Believes(p, verifies, e, a) then
      history + [Entry(e.op.incoming.value.message.nonce, e.now + 300_000)]
    else history
  }

  /** The nonces accepted for agent a since its last registration, after the events. */
  ghost function NoncesOf(
    sys: System, config: Config, verifies: Verifier, events: seq<Event>, a: Text, history: seq<Entry>): seq<Entry>
    decreases |events|
  {
    if events == [] then history
    else
      NoncesOf(Next(sys, config, verifies, events[0]), config, verifies, events[1..], a,
               NextNonces(sys.plane, verifies, events[0], a, history))
  }

  // ---- What a step does to a window ----

  /** The window is as it was, or pruned, for an agent that stays connected. */
  ghost predicate Lapses(c: map<Text, Live>, d: map<Text, Live>, a: Text, now: int) {
    a in d ==>
      a in c && (d[a].seenNonces == c[a].seenNonces || d[a].seenNonces == Pruned(c[a].seenNonces, now))
  }

  /** A step starts the window of an agent with the nonce that registers it, or adds the nonce of a believed result, or
      lets it lapse. */
  ghost predicate WindowStep(p: Plane, q: Plane, verifies: Verifier, e: Event, a: Text) {
    if Registers(p, verifies, e, a) then
      a in q.connections
      && q.connections[a].seenNonces == Remembered([], e.op.incoming.value.message.nonce, e.now)
    else if Believes(p, verifies, e, a) then
      a in p.connections && a in q.connections
      && !Has(Pruned(p.connections[a].seenNonces, e.now), e.op.incoming.value.message.nonce)
      && q.connections[a].seenNonces
         == Remembered(Pruned(p.connections[a].seenNonces, e.now), e.op.incoming.value.message.nonce, e.now)
    else Lapses(p.connections, q.connections, a, e.now)
  }

  lemma FewerLapse(c: map<Text, Live>, d: map<Text, Live>, a: Text, now: int)
    requires a in d ==> a in c && d[a] == c[a]
    ensures Lapses(c, d, a, now)
  {}

  lemma ClosedLapses(p: Plane, s: nat, a: Text, now: int)
    ensures Lapses(p.connections, Closed(p, s).connections, a, now)
    ensures Lapses(p.connections, SocketLost(p, s).connections, a, now)
    ensures a in Closed(p, s).connections ==>
              a in p.connections && Closed(p, s).connections[a] == p.connections[a]
  {
    hide Lapses, TakenOffline, Gone, Pruned;
    FewerLapse(p.connections, Closed(p, s).connections, a, now);
    FewerLapse(p.connections, SocketLost(p, s).connections, a, now);
  }

  lemma RefusedLapses(p: Plane, s: nat, code: ErrorCode, a: Text, now: int)
    ensures a in Refused(p, s, code).connections ==>
              a in p.connections && Refused(p, s, code).connections[a] == p.connections[a]
  {
    hide Closed, Send;
    SendFrame(p, s, Problem(code));
    ClosedLapses(Send(p, s, Problem(code)), s, a, now);
  }

  lemma CleanedLapses(p: Plane, now: int, a: Text)
    ensures var q := Cleaned(p, now);
            a in q.connections ==>
              a in p.connections && q.connections[a].seenNonces == Pruned(p.connections[a].seenNonces, now)
  {
    hide Pruned;
  }

  /** Registering an agent starts its window and leaves those of the others that stay. */
  lemma RegisteredWindow(p: Plane, s: nat, m: Message, now: int, a: Text)
    requires m.Hello? && m.agentId in p.agents
    ensures var q := Registered(p, s, m, now);
            if a == m.agentId then
              a in q.connections && q.connections[a].seenNonces == Remembered([], m.nonce, now)
            else a in q.connections ==> a in p.connections && q.connections[a] == p.connections[a]
  {
    hide Closed, Send, Remembered, Set;
    var b, agent := m.agentId, p.agents[m.agentId];
    var p1 := p.(helloNonces := p.helloNonces[b := Set(HelloNonces(p, b), Entry(m.nonce, now + 300_000))]);
    var p2 := if b in p.connections then Closed(p1, p.connections[b].socket) else p1;
    if b in p.connections {
      ClosedLapses(p1, p.connections[b].socket, a, now);
    }
    var p3 := p2.(connections := p2.connections[b := Live(s, Remembered([], m.nonce, now))],
                  agents := p2.agents[b := agent.(status := Online, host := Some(m.host))]);
    var socket := SocketAt(p3.sockets, s);
    SendFrame(p3.(sockets := p3.sockets[s := socket.(handlers := socket.handlers + [b])]), s, Ready(b, agent.policy));
  }

  lemma HelloStep(p: Plane, verifies: Verifier, e: Event, a: Text)
    requires e.op.ReceiveOp? && e.op.incoming.Some? && Parses(e.op.incoming.value.message)
    requires e.op.incoming.value.message.Hello?
    ensures WindowStep(p, Received(p, verifies, e.op.s, e.op.incoming, e.now), verifies, e, a)
  {
    hide Registered, Refused, Cleaned, Parses, Pruned, Remembered, Believed;
    var hello, s, now := e.op.incoming.value, e.op.s, e.now;
    var problem, cleaned := HelloProblem(p, verifies, s, hello, now), Cleaned(p, now);
    CleanedLapses(p, now, a);
    CleanedFrame(p, now);
    if problem.Some? {
      RefusedLapses(p, s, problem.value, a, now);
      RefusedLapses(cleaned, s, problem.value, a, now);
    } else {
      RegisteredWindow(cleaned, s, hello.message, now, a);
    }
  }

  lemma ResultStep(p: Plane, verifies: Verifier, e: Event, a: Text)
    requires e.op.ReceiveOp? && e.op.incoming.Some? && Parses(e.op.incoming.value.message)
    requires e.op.incoming.value.message.Result?
    ensures WindowStep(p, Received(p, verifies, e.op.s, e.op.incoming, e.now), verifies, e, a)
  {
    hide Parses, Pruned, Remembered, Has, Settled;
    var result, s, now := e.op.incoming.value, e.op.s, e.now;
    if result.message.actionId in p.pending {
      var judged := Judged(p, verifies, s, result, now);
      SettledFrame(p.(connections := judged.0), result.message.actionId, judged.1);
      if result.message.agentId in p.connections {
        PrunedHas(p.connections[result.message.agentId].seenNonces, result.message.nonce, now);
      }
    }
  }

  lemma ReceiveStep(p: Plane, verifies: Verifier, e: Event, a: Text)
    requires e.op.ReceiveOp?
    ensures WindowStep(p, Received(p, verifies, e.op.s, e.op.incoming, e.now), verifies, e, a)
  {
    hide Greeted, Reported, Refused, Parses, WindowStep;
    if e.op.incoming.Some? && Parses(e.op.incoming.value.message)
       && (e.op.incoming.value.message.Hello? || e.op.incoming.value.message.Result?) {
      if e.op.incoming.value.message.Hello? {
        HelloStep(p, verifies, e, a);
      } else {
        ResultStep(p, verifies, e, a);
      }
    } else {
      RefusedLapses(p, e.op.s, InternalError, a, e.now);
      NeitherStep(p, Refused(p, e.op.s, InternalError), verifies, e, a);
    }
  }

  lemma NeitherStep(p: Plane, q: Plane, verifies: Verifier, e: Event, a: Text)
    requires !e.op.ReceiveOp? || e.op.incoming.None? || !Parses(e.op.incoming.value.message)
             || !(e.op.incoming.value.message.Hello? || e.op.incoming.value.message.Result?)
    requires a in q.connections ==> a in p.connections && q.connections[a] == p.connections[a]
    ensures WindowStep(p, q, verifies, e, a)
  {
    hide Parses, Pruned;
  }

  lemma RevokeStep(p: Plane, principal: Principal, b: Text, a: Text, now: int)
    requires b in p.agents
    ensures var q := Revoke(p, principal, b).0;
            a in q.connections ==> a in p.connections && q.connections[a] == p.connections[a]
  {
    hide HasCapability, Closed;
    var written := p.(agents := p.agents[b := p.agents[b].(status := Revoked)]);
    if b in p.connections {
      ClosedLapses(written, p.connections[b].socket, a, now);
    }
  }

  lemma NextStep(sys: System, config: Config, verifies: Verifier, e: Event, a: Text)
    requires Enabled(sys, e)
    ensures WindowStep(sys.plane, Next(sys, config, verifies, e).plane, verifies, e, a)
  {
    hide WindowStep, CreateToken, Enroll, Received, SocketLost, UpdatePolicy, Revoke, Dispatch, Settled, Finished,
      Cleaned, Resolve, Parses;
    var p, q := sys.plane, Next(sys, config, verifies, e).plane;
    match e.op
    case ReceiveOp(_, _) => ReceiveStep(p, verifies, e, a);
    case LostOp(s) => LostStep(p, verifies, e, a);
    case RevokeOp(principal, name) =>
      var target := Resolve(p, principal.userId, name);
      if target.Some? {
        RevokeStep(p, principal, target.value, a, e.now);
      }
      NeitherStep(p, q, verifies, e, a);
    case CleanOp => CleanStep(p, verifies, e, a);
    case _ =>
      OthersKeepConnections(sys, config, verifies, e);
      NeitherStep(p, q, verifies, e, a);
  }

  lemma LostStep(p: Plane, verifies: Verifier, e: Event, a: Text)
    requires e.op.LostOp?
    ensures WindowStep(p, SocketLost(p, e.op.s), verifies, e, a)
  {
    hide SocketLost, Pruned;
    ClosedLapses(p, e.op.s, a, e.now);
  }

  lemma CleanStep(p: Plane, verifies: Verifier, e: Event, a: Text)
    requires e.op.CleanOp?
    ensures WindowStep(p, Cleaned(p, e.now), verifies, e, a)
  {
    hide Cleaned, Pruned;
    CleanedLapses(p, e.now, a);
  }

  lemma OthersKeepConnections(sys: System, config: Config, verifies: Verifier, e: Event)
    requires Enabled(sys, e) && !e.op.ReceiveOp? && !e.op.LostOp? && !e.op.RevokeOp? && !e.op.CleanOp?
    ensures Next(sys, config, verifies, e).plane.connections == sys.plane.connections
  {
    hide CreateToken, Enroll, Received, SocketLost, UpdatePolicy, Revoke, Dispatch, Settled, Finished, Cleaned, Resolve;
    var p := sys.plane;
    match e.op {
      case CreateTokenOp(principal, alias, profile, agentId, tokenHash) =>
        CreateTokenFrame(p, config, principal, alias, profile, agentId, tokenHash, e.now);
      case EnrollOp(tokenHash, publicKey, keyIsValid, host) =>
        EnrollFrame(p, tokenHash, publicKey, keyIsValid, host, e.now);
      case UpdatePolicyOp(principal, name, patch, nonce, signature) =>
        var target := Resolve(p, principal.userId, name);
        if target.Some? {
          UpdatePolicyFrame(p, config, principal, target.value, p.agents[target.value], patch, nonce, signature, e.now);
        }
      case WritePatchOp(edit, patch, nonce, signature) =>
        var x := sys.edits[edit];
        UpdatePolicyFrame(p, config, x.principal, x.a, x.agent, patch, nonce, signature, e.now);
      case DispatchOp(principal, name, tool, args, requested, actionId, nonce, signature) =>
        DispatchFrame(p, config, principal, name, tool, args, requested, actionId, nonce, signature, e.now);
      case TimeoutOp(id) => SettledFrame(p, id, Rejected(AgentTimeout));
      case FinishOp(id) => FinishedFrame(p, id);
      case _ =>
    }
  }

  // ---- Windows refine histories ----

  /** The window of the agent, if it is connected, is the end of its history, and lacks only what has expired. */
  ghost predicate Tracks(sys: System, a: Text, history: seq<Entry>) {
    a in sys.plane.connections ==>
      NonceHistory.Refines(NonceHistory.State(sys.plane.connections[a].seenNonces, history, sys.clock))
  }

  lemma RefinesLater(w: Window, history: seq<Entry>, clock: int, now: int)
    requires NonceHistory.Refines(NonceHistory.State(w, history, clock)) && clock <= now
    ensures NonceHistory.Refines(NonceHistory.State(w, history, now))
    ensures NonceHistory.Refines(NonceHistory.State(Pruned(w, now), history, now))
  {
    NonceHistory.PruneKeeps(NonceHistory.State(w, history, clock), now);
  }

  lemma RememberedRefines(w: Window, history: seq<Entry>, value: Text, now: int)
    requires NonceHistory.Refines(NonceHistory.State(w, history, now)) && !Has(Pruned(w, now), value)
    ensures NonceHistory.Refines(
              NonceHistory.State(Remembered(w, value, now), history + [Entry(value, now + 300_000)], now))
  {
    hide NonceHistory.Refines, Remembered, Pruned, Has;
    NonceHistory.StepKeeps(NonceHistory.State(w, history, now), NonceHistory.Remember(value, now));
  }

  lemma EmptyRefines(now: int)
    ensures NonceHistory.Refines(NonceHistory.State([], [], now))
  {}

  lemma FirstRefines(value: Text, now: int)
    ensures NonceHistory.Refines(
              NonceHistory.State(Remembered([], value, now), [Entry(value, now + 300_000)], now))
  {
    hide NonceHistory.Refines, Remembered;
    EmptyRefines(now);
    RememberedRefines([], [], value, now);
    assert [] + [Entry(value, now + 300_000)] == [Entry(value, now + 300_000)];
  }

  lemma StillAbsent(w: Window, value: Text, now: int)
    requires !Has(Pruned(w, now), value)
    ensures !Has(Pruned(Pruned(w, now), now), value)
  {
    hide Pruned;
    PrunedHas(Pruned(w, now), value, now);
  }

  lemma NextTracks(sys: System, config: Config, verifies: Verifier, e: Event, a: Text, history: seq<Entry>)
    requires Tracks(sys, a, history) && Enabled(sys, e)
    ensures Tracks(Next(sys, config, verifies, e), a, NextNonces(sys.plane, verifies, e, a, history))
  {
    hide NonceHistory.Refines, Remembered, Pruned, Has, Registers, Believes, Effect, UpdatePolicy, Resolve;
    var p, q := sys.plane, Next(sys, config, verifies, e).plane;
    NextStep(sys, config, verifies, e, a);
    if a in p.connections {
      var w := p.connections[a].seenNonces;
      RefinesLater(w, history, sys.clock, e.now);
      if Believes(p, verifies, e, a) && !Registers(p, verifies, e, a) {
        var value := MessageOf(p, verifies, e, a).nonce;
        StillAbsent(w, value, e.now);
        RememberedRefines(Pruned(w, e.now), history, value, e.now);
      }
    }
    if Registers(p, verifies, e, a) {
      FirstRefines(MessageOf(p, verifies, e, a).nonce, e.now);
    }
  }

  /** The message that registers the agent or is believed. */
  ghost function MessageOf(p: Plane, verifies: Verifier, e: Event, a: Text): (m: Message)
    requires Registers(p, verifies, e, a) || Believes(p, verifies, e, a)
    ensures e.op.ReceiveOp? && e.op.incoming.Some? && m == e.op.incoming.value.message
  {
    e.op.incoming.value.message
  }

  lemma {:induction false} RunTracks(
    sys: System, config: Config, verifies: Verifier, events: seq<Event>, last: System, a: Text, history: seq<Entry>)
    requires Tracks(sys, a, history) && Runs(sys, config, verifies, events, last)
    ensures Tracks(last, a, NoncesOf(sys, config, verifies, events, a, history))
    decreases |events|
  {
    hide Tracks, Next, NextNonces, Enabled;
    if events != [] {
      NextTracks(sys, config, verifies, events[0], a, history);
      RunTracks(Next(sys, config, verifies, events[0]), config, verifies, events[1..], last, a,
                NextNonces(sys.plane, verifies, events[0], a, history));
    }
  }

  /** In every run of the control plane: a nonce counts as seen on an agent's connection exactly when it is among the
      last 4096 accepted for the agent since it registered - with its hello or with a believed result - and was accepted
      less than 300,000 ms ago. */
  lemma ConnectionsAnswerForHistory(
    config: Config, verifies: Verifier, events: seq<Event>, last: System, a: Text, value: Text, now: int)
    requires Runs(START, config, verifies, events, last) && a in last.plane.connections && last.clock <= now
    ensures Has(Pruned(last.plane.connections[a].seenNonces, now), value)
            <==> NonceHistory.SeenInHistory(NoncesOf(START, config, verifies, events, a, []), value, now)
  {
    hide Runs, NonceHistory.Refines, NonceHistory.SeenInHistory, Has, Pruned, NoncesOf;
    var history := NoncesOf(START, config, verifies, events, a, []);
    RunTracks(START, config, verifies, events, last, a, []);
    NonceHistory.RefinedAnswer(
      NonceHistory.State(last.plane.connections[a].seenNonces, history, last.clock), value, now);
  }

  /** So a result that verifies, for a pending action of its agent and on the agent's own connection, is believed
      exactly when its nonce is not in that history, and refused as a replay exactly when it is. */
  lemma ReplayedExactlyWhenSeen(
    config: Config, verifies: Verifier, events: seq<Event>, last: System, s: nat, result: Sealed, now: int)
    requires Runs(START, config, verifies, events, last) && last.clock <= now
    requires result.message.Result? && result.message.actionId in last.plane.pending
    requires var m, p := result.message, last.plane;
             m.agentId in p.agents && p.agents[m.agentId].publicKey.Some?
             && verifies(p.agents[m.agentId].publicKey.value, result)
             && p.pending[m.actionId].agentId == m.agentId
             && m.agentId in p.connections && p.connections[m.agentId].socket == s
    ensures var m := result.message;
            var history := NoncesOf(START, config, verifies, events, m.agentId, []);
            (Believed(last.plane, verifies, s, result, now)
             <==> !NonceHistory.SeenInHistory(history, m.nonce, now))
            && Judged(last.plane, verifies, s, result, now).1
               == if NonceHistory.SeenInHistory(history, m.nonce, now) then Rejected(ActionReplayDetected)
                  else Resolved(result)
  {
    hide Runs, NonceHistory.SeenInHistory, Has, Pruned, NoncesOf, Remembered;
    ConnectionsAnswerForHistory(config, verifies, events, last, result.message.agentId, result.message.nonce, now);
    PrunedHas(last.plane.connections[result.message.agentId].seenNonces, result.message.nonce, now);
  }
}

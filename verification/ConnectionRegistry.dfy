/** Sockets and the agents registered on them: when an open socket closes, everyone registered on it is gone. */
module ConnectionRegistry {
  import opened JsText
  import opened CanonicalJson
  import opened RemoteTypes
  import opened Envelopes
  import opened NonceWindows
  import opened Planes
  import opened PlaneRuns

  /** Close handlers have run on exactly the sockets that are closed, and an agent registered on an open socket has its
      close handler there. */
  ghost predicate Attended(connections: map<Text, Live>, sockets: map<nat, Socket>) {
    (forall s :: SocketAt(sockets, s).closed == SocketAt(sockets, s).notified)
    && forall a :: a in connections ==> AttendedOn(a, SocketAt(sockets, connections[a].socket))
  }

  ghost predicate AttendedOn(a: Text, socket: Socket) { socket.notified || a in socket.handlers }

  ghost predicate Registry(p: Plane) { Attended(p.connections, p.sockets) }

  /** Sockets only get more handlers and only close; agents only leave. */
  ghost predicate Winds(p: Plane, q: Plane) {
    (forall s :: SocketAt(q.sockets, s).closed == SocketAt(q.sockets, s).notified)
    && (forall s :: SocketAt(p.sockets, s).notified ==> SocketAt(q.sockets, s).notified)
    && (forall s, a :: a in SocketAt(p.sockets, s).handlers ==> a in SocketAt(q.sockets, s).handlers)
    && forall a :: a in q.connections ==> a in p.connections && q.connections[a].socket == p.connections[a].socket
  }

  lemma WindsKeeps(p: Plane, q: Plane)
    requires Registry(p) && Winds(p, q)
    ensures Registry(q)
  {
    forall a | a in q.connections ensures AttendedOn(a, SocketAt(q.sockets, q.connections[a].socket)) {
      assert AttendedOn(a, SocketAt(p.sockets, p.connections[a].socket));
    }
  }

  lemma SameWinds(p: Plane, q: Plane)
    requires Registry(p) && q.sockets == p.sockets && q.connections == p.connections
    ensures Winds(p, q)
  {}

  lemma WindsTransitive(p: Plane, q: Plane, r: Plane)
    requires Winds(p, q) && Winds(q, r)
    ensures Winds(p, r)
  {}

  lemma SendWinds(p: Plane, s: nat, out: Outgoing)
    requires Registry(p)
    ensures Winds(p, Send(p, s, out))
  {
    hide Send;
    var q := Send(p, s, out);
    forall t
      ensures SocketAt(q.sockets, t).closed == SocketAt(q.sockets, t).notified
      ensures SocketAt(p.sockets, t).notified ==> SocketAt(q.sockets, t).notified
      ensures forall a :: a in SocketAt(p.sockets, t).handlers ==> a in SocketAt(q.sockets, t).handlers
    {
      SentSocket(p, s, out, t);
      assert SocketAt(p.sockets, t).closed == SocketAt(p.sockets, t).notified;
    }
    SentSocket(p, s, out, s);
  }

  ghost predicate SameButSent(p: Plane, q: Plane, t: nat) {
    var k, l := SocketAt(p.sockets, t), SocketAt(q.sockets, t);
    l.closed == k.closed && l.notified == k.notified && l.handlers == k.handlers && q.connections == p.connections
  }

  lemma SentSocket(p: Plane, s: nat, out: Outgoing, t: nat)
    ensures SameButSent(p, Send(p, s, out), t)
  {
    var socket := SocketAt(p.sockets, s);
    UpdatedSocket(p.sockets, s, socket.(sent := socket.sent + [out]), t);
    hide SocketAt;
  }

  lemma UpdatedSocket(sockets: map<nat, Socket>, s: nat, socket: Socket, t: nat)
    ensures SocketAt(sockets[s := socket], t) == if t == s then socket else SocketAt(sockets, t)
  {}

  lemma LostWinds(p: Plane, s: nat)
    requires Registry(p)
    ensures Winds(p, SocketLost(p, s)) && Winds(p, Closed(p, s))
    ensures SocketAt(SocketLost(p, s).sockets, s).notified && SocketAt(Closed(p, s).sockets, s).notified
  {
    hide TakenOffline;
    assert SocketAt(p.sockets, s).closed == SocketAt(p.sockets, s).notified;
    var q := SocketLost(p, s);
    assert forall t :: t != s ==> SocketAt(q.sockets, t) == SocketAt(p.sockets, t);
    SameWinds(p, p);
  }

  lemma RefusedWinds(p: Plane, s: nat, code: ErrorCode)
    requires Registry(p)
    ensures Winds(p, Refused(p, s, code))
  {
    hide Registry, Winds, Send, Closed;
    SendWinds(p, s, Problem(code));
    WindsKeeps(p, Send(p, s, Problem(code)));
    LostWinds(Send(p, s, Problem(code)), s);
    WindsTransitive(p, Send(p, s, Problem(code)), Refused(p, s, code));
  }

  lemma CleanedWinds(p: Plane, now: int)
    requires Registry(p)
    ensures Winds(p, Cleaned(p, now))
  {}

  /** A new registration: the agent's close handler is put on the socket, which need not be open. */
  lemma AddedKeeps(p: Plane, q: Plane, a: Text, s: nat)
    requires Registry(p) && q.connections.Keys == p.connections.Keys + {a} && q.connections[a].socket == s
    requires forall b :: b in p.connections && b != a ==> q.connections[b] == p.connections[b]
    requires q.sockets == p.sockets[s := SocketAt(p.sockets, s).(handlers := SocketAt(p.sockets, s).handlers + [a])]
    ensures Registry(q)
  {
    var k := SocketAt(p.sockets, s);
    assert forall t :: t != s ==> SocketAt(q.sockets, t) == SocketAt(p.sockets, t);
    forall b | b in q.connections ensures AttendedOn(b, SocketAt(q.sockets, q.connections[b].socket)) {
      assert b != a ==> AttendedOn(b, SocketAt(p.sockets, p.connections[b].socket));
    }
  }

  lemma RegisteredKeeps(p: Plane, s: nat, m: Message, now: int)
    requires Registry(p) && m.Hello? && m.agentId in p.agents
    ensures Registry(Registered(p, s, m, now))
  {
    hide Closed, Send, Remembered, Set, Registry, Winds;
    var a, agent := m.agentId, p.agents[m.agentId];
    var p1 := p.(helloNonces := p.helloNonces[a := Set(HelloNonces(p, a), Entry(m.nonce, now + AGENT_NONCE_TTL_MS))]);
    SameRegistry(p, p1);
    var p2 := if a in p.connections then Closed(p1, p.connections[a].socket) else p1;
    if a in p.connections {
      LostWinds(p1, p.connections[a].socket);
      WindsKeeps(p1, p2);
    }
    var p3 := p2.(connections := p2.connections[a := Live(s, Remembered([], m.nonce, now))],
                  agents := p2.agents[a := agent.(status := Online, host := Some(m.host))]);
    var socket := SocketAt(p3.sockets, s);
    var p4 := p3.(sockets := p3.sockets[s := socket.(handlers := socket.handlers + [a])]);
    AddedKeeps(p2, p4, a, s);
    SendWinds(p4, s, Ready(a, agent.policy));
    WindsKeeps(p4, Send(p4, s, Ready(a, agent.policy)));
  }

  lemma SameRegistry(p: Plane, q: Plane)
    requires Registry(p) && q.sockets == p.sockets && q.connections == p.connections
    ensures Registry(q)
  {}

  lemma GreetedKeeps(p: Plane, verifies: Verifier, s: nat, hello: Sealed, now: int)
    requires Registry(p) && hello.message.Hello?
    ensures Registry(Greeted(p, verifies, s, hello, now))
  {
    hide Registry, Winds, Registered, Refused, Cleaned;
    var problem, cleaned := HelloProblem(p, verifies, s, hello, now), Cleaned(p, now);
    CleanedWinds(p, now);
    WindsKeeps(p, cleaned);
    if problem.Some? {
      RefusedWinds(p, s, problem.value);
      WindsKeeps(p, Refused(p, s, problem.value));
      RefusedWinds(cleaned, s, problem.value);
      WindsKeeps(cleaned, Refused(cleaned, s, problem.value));
    } else {
      CleanedFrame(p, now);
      RegisteredKeeps(cleaned, s, hello.message, now);
    }
  }

  lemma JudgedSockets(p: Plane, verifies: Verifier, s: nat, result: Sealed, now: int)
    requires result.message.Result? && result.message.actionId in p.pending
    ensures var connections := Judged(p, verifies, s, result, now).0;
            forall a :: a in connections ==> a in p.connections && connections[a].socket == p.connections[a].socket
  {
    hide Pruned, Remembered, Has;
  }

  lemma ReportedWinds(p: Plane, verifies: Verifier, s: nat, result: Sealed, now: int)
    requires Registry(p) && result.message.Result?
    ensures Winds(p, Reported(p, verifies, s, result, now))
  {
    hide Judged, AttendedOn;
    ReportedFrame(p, verifies, s, result, now);
    if result.message.actionId in p.pending {
      JudgedSockets(p, verifies, s, result, now);
    }
  }

  lemma ReceivedKeeps(p: Plane, verifies: Verifier, s: nat, incoming: Option<Sealed>, now: int)
    requires Registry(p)
    ensures Registry(Received(p, verifies, s, incoming, now))
  {
    hide Registry, Winds, Greeted, Reported, Refused, Parses;
    RefusedWinds(p, s, InternalError);
    WindsKeeps(p, Refused(p, s, InternalError));
    if incoming.Some? && incoming.value.message.Hello? {
      GreetedKeeps(p, verifies, s, incoming.value, now);
    } else if incoming.Some? && incoming.value.message.Result? {
      ReportedWinds(p, verifies, s, incoming.value, now);
      WindsKeeps(p, Reported(p, verifies, s, incoming.value, now));
    }
  }

  lemma UpdateKeeps(
    p: Plane, config: Config, principal: Principal, a: Text, agent: Agent, patch: PolicyPatch, nonce: Text,
    signature: Text, now: int)
    requires Registry(p)
    ensures Registry(UpdatePolicy(p, config, principal, a, agent, patch, nonce, signature, now).0)
  {
    hide Registry, Winds, NextPolicy, HasCapability, Send;
    var version := agent.policyVersion + 1;
    var policy := NextPolicy(config, version, patch);
    var updated := agent.(profile := policy.profile, policy := policy, policyVersion := version);
    var written := p.(agents := if a in p.agents then p.agents[a := updated] else p.agents);
    SameRegistry(p, written);
    if a in p.connections {
      var sealed := Sealed(PolicyUpdate(a, policy, version, now, nonce), signature);
      var signed := written.(signed := written.signed + [sealed]);
      SameRegistry(written, signed);
      SendWinds(signed, p.connections[a].socket, Command(sealed));
      WindsKeeps(signed, Send(signed, p.connections[a].socket, Command(sealed)));
    }
  }

  lemma RevokeKeeps(p: Plane, principal: Principal, a: Text)
    requires Registry(p) && a in p.agents
    ensures Registry(Revoke(p, principal, a).0)
  {
    hide Registry, Winds, HasCapability, Closed;
    var written := p.(agents := p.agents[a := p.agents[a].(status := Revoked)]);
    SameRegistry(p, written);
    var closed := if a in p.connections then Closed(written, p.connections[a].socket) else written;
    if a in p.connections {
      LostWinds(written, p.connections[a].socket);
      WindsKeeps(written, closed);
    }
    FewerKeeps(closed, a);
  }

  lemma FewerKeeps(p: Plane, a: Text)
    requires Registry(p)
    ensures Registry(p.(connections := p.connections - {a}))
  {}

  lemma IssueKeeps(
    p: Plane, config: Config, principal: Principal, a: Text, tool: Tool, args: map<Text, Doc>, timeoutMs: int,
    actionId: Text, nonce: Text, signature: Text, now: int)
    requires Registry(p) && a in p.agents && a in p.connections
    ensures Registry(Issue(p, config, principal, a, tool, args, timeoutMs, actionId, nonce, signature, now).0)
  {
    hide Registry, Winds, Send;
    var agent, capability, deadline := p.agents[a], ToolCapability(tool), now + timeoutMs;
    var request :=
      Request(actionId, a, principal.userId, tool, capability, args, agent.policyVersion, now, deadline, nonce);
    var sealed := Sealed(request, signature);
    var recorded := p.(signed := p.signed + [sealed]);
    SameRegistry(p, recorded);
    if actionId !in p.rows {
      var action := Action(principal.userId, a, tool, capability, args, now, deadline);
      var kept := recorded.(rows := p.rows[actionId := Row(action, Sent, None)],
                           pending := p.pending[actionId := action], timers := p.timers + {actionId});
      SameRegistry(recorded, kept);
      SendWinds(kept, p.connections[a].socket, Command(sealed));
      WindsKeeps(kept, Send(kept, p.connections[a].socket, Command(sealed)));
    }
  }

  lemma DispatchKeeps(p: Plane, config: Config, verifies: Verifier, e: Event)
    requires Registry(p) && e.op.DispatchOp?
    ensures Registry(Effect(p, config, verifies, e))
  {
    hide Registry, DispatchProblem, Resolve, Issue;
    var o := e.op;
    if DispatchProblem(p, config, o.principal, o.name, o.tool, o.requested, e.now).None? {
      ProblemFree(p, config, o.principal, o.name, o.tool, o.requested, e.now);
      var a := Resolve(p, o.principal.userId, o.name).value;
      IssueKeeps(p, config, o.principal, a, o.tool, o.args, TimeoutMs(config, p.agents[a], o.requested).value,
                 o.actionId, o.nonce, o.signature, e.now);
    }
  }

  lemma NextKeeps(sys: System, config: Config, verifies: Verifier, e: Event)
    requires Registry(sys.plane) && Enabled(sys, e)
    ensures Registry(Next(sys, config, verifies, e).plane)
  {
    hide Registry, Winds, CreateToken, Enroll, Received, SocketLost, UpdatePolicy, Revoke, Dispatch, Settled, Finished,
      Cleaned, Resolve;
    var p, q := sys.plane, Next(sys, config, verifies, e).plane;
    match e.op
    case ReceiveOp(s, incoming) => ReceivedKeeps(p, verifies, s, incoming, e.now);
    case LostOp(s) =>
      LostWinds(p, s);
      WindsKeeps(p, q);
    case UpdatePolicyOp(principal, name, patch, nonce, signature) =>
      var target := Resolve(p, principal.userId, name);
      if target.Some? {
        UpdateKeeps(p, config, principal, target.value, p.agents[target.value], patch, nonce, signature, e.now);
      }
    case WritePatchOp(edit, patch, nonce, signature) =>
      var x := sys.edits[edit];
      UpdateKeeps(p, config, x.principal, x.a, x.agent, patch, nonce, signature, e.now);
    case RevokeOp(principal, name) =>
      var target := Resolve(p, principal.userId, name);
      if target.Some? {
        RevokeKeeps(p, principal, target.value);
      }
    case DispatchOp(_, _, _, _, _, _, _, _) => DispatchKeeps(p, config, verifies, e);
    case CleanOp =>
      CleanedWinds(p, e.now);
      WindsKeeps(p, q);
    case _ => QuietSteps(sys, config, verifies, e);
  }

  lemma QuietSteps(sys: System, config: Config, verifies: Verifier, e: Event)
    requires Registry(sys.plane) && Enabled(sys, e)
    requires e.op.CreateTokenOp? || e.op.EnrollOp? || e.op.TimeoutOp? || e.op.FinishOp? || e.op.ReadForPatchOp?
    ensures Registry(Next(sys, config, verifies, e).plane)
  {
    hide Registry, CreateToken, Enroll, Settled, Finished, Resolve;
    var p, o := sys.plane, e.op;
    match o {
      case CreateTokenOp(principal, alias, profile, agentId, tokenHash) =>
        CreateTokenFrame(p, config, principal, alias, profile, agentId, tokenHash, e.now);
      case EnrollOp(tokenHash, publicKey, keyIsValid, host) =>
        EnrollFrame(p, tokenHash, publicKey, keyIsValid, host, e.now);
      case TimeoutOp(id) => SettledFrame(p, id, Rejected(AgentTimeout));
      case FinishOp(id) => FinishedFrame(p, id);
      case _ =>
    }
    SameRegistry(p, Next(sys, config, verifies, e).plane);
  }

  /** In every run an agent registered on an open socket has its close handler there. */
  lemma {:induction false} RegistryOfRuns(
    sys: System, config: Config, verifies: Verifier, events: seq<Event>, last: System)
    requires Registry(sys.plane) && Runs(sys, config, verifies, events, last)
    ensures Registry(last.plane)
    decreases |events|
  {
    hide Registry, Next, Enabled;
    if events != [] {
      NextKeeps(sys, config, verifies, events[0]);
      RegistryOfRuns(Next(sys, config, verifies, events[0]), config, verifies, events[1..], last);
    }
  }

  lemma StartIsAttended()
    ensures Registry(START.plane)
  {}

  /** When a socket that was open closes, no agent stays registered on it, and those on other sockets stay. Who was on
      it is offline, unless revoked, and nothing else about anybody changes. */
  lemma ClosingTakesEveryone(p: Plane, s: nat, a: Text)
    requires Registry(p) && !SocketAt(p.sockets, s).closed
    ensures a in SocketLost(p, s).connections <==> a in p.connections && p.connections[a].socket != s
    ensures a in p.agents ==>
              a in SocketLost(p, s).agents
              && SocketLost(p, s).agents[a]
                 == if a in p.connections && p.connections[a].socket == s && p.agents[a].status != Revoked
                    then p.agents[a].(status := Offline) else p.agents[a]
  {
    hide SocketLost, TakenOffline, Gone, Registry;
    FlagsAgree(p, s);
    LostIs(p, s);
    var gone := Gone(p.connections, s, SocketAt(p.sockets, s).handlers);
    EveryoneGoes(p, s, a);
    if a in p.agents {
      OfflineIs(p.agents, gone, a);
    }
  }

  lemma LostIs(p: Plane, s: nat)
    requires !SocketAt(p.sockets, s).notified
    ensures var q, gone := SocketLost(p, s), Gone(p.connections, s, SocketAt(p.sockets, s).handlers);
            q.connections == p.connections - gone && q.agents == TakenOffline(p.agents, gone)
  {
    hide TakenOffline, Gone;
  }

  lemma EveryoneGoes(p: Plane, s: nat, a: Text)
    requires Registry(p) && !SocketAt(p.sockets, s).closed
    ensures a in Gone(p.connections, s, SocketAt(p.sockets, s).handlers)
            <==> a in p.connections && p.connections[a].socket == s
  {
    assert a in p.connections ==> AttendedOn(a, SocketAt(p.sockets, p.connections[a].socket));
  }

  lemma OfflineIs(agents: map<Text, Agent>, gone: set<Text>, a: Text)
    requires a in agents
    ensures a in TakenOffline(agents, gone)
            && TakenOffline(agents, gone)[a]
               == if a in gone && agents[a].status != Revoked then agents[a].(status := Offline) else agents[a]
  {}

  /** An agent that registers stays registered when its socket is reported closed afterwards exactly when the socket
      was closed already: frames that were buffered are still handled after a close. */
  lemma RegisteredOnClosedSocketStays(p: Plane, s: nat, m: Message, now: int)
    requires Registry(p) && m.Hello? && m.agentId in p.agents
    requires m.agentId in p.connections ==> p.connections[m.agentId].socket != s
    ensures var q := Registered(p, s, m, now);
            m.agentId in SocketLost(q, s).connections <==> SocketAt(p.sockets, s).closed
  {
    hide Closed, Send, Remembered, Set, Registry, Winds, TakenOffline;
    var a, agent := m.agentId, p.agents[m.agentId];
    var p1 := p.(helloNonces := p.helloNonces[a := Set(HelloNonces(p, a), Entry(m.nonce, now + AGENT_NONCE_TTL_MS))]);
    SameRegistry(p, p1);
    var p2 := if a in p.connections then Closed(p1, p.connections[a].socket) else p1;
    if a in p.connections {
      OtherSocket(p1, p.connections[a].socket, s);
    }
    FlagsAgree(p, s);
    var p3 := p2.(connections := p2.connections[a := Live(s, Remembered([], m.nonce, now))],
                  agents := p2.agents[a := agent.(status := Online, host := Some(m.host))]);
    var socket := SocketAt(p3.sockets, s);
    var p4 := p3.(sockets := p3.sockets[s := socket.(handlers := socket.handlers + [a])]);
    SentSocket(p4, s, Ready(a, agent.policy), s);
  }

  lemma OtherSocket(p: Plane, s: nat, t: nat)
    requires s != t
    ensures SocketAt(Closed(p, s).sockets, t) == SocketAt(p.sockets, t)
  {}

  lemma FlagsAgree(p: Plane, s: nat)
    requires Registry(p)
    ensures SocketAt(p.sockets, s).closed == SocketAt(p.sockets, s).notified
  {}

  /** A reconnect replaces: the agent is registered on the new socket, the old one is closed, and nobody who was
      registered on the old one while it was open is registered there any more. */
  lemma ReconnectReplaces(p: Plane, s: nat, m: Message, now: int, b: Text)
    requires Registry(p) && m.Hello? && m.agentId in p.agents && m.agentId in p.connections
    requires p.connections[m.agentId].socket != s
    ensures var q, t := Registered(p, s, m, now), p.connections[m.agentId].socket;
            m.agentId in q.connections && q.connections[m.agentId].socket == s && SocketAt(q.sockets, t).closed
            && (!SocketAt(p.sockets, t).closed && b in q.connections ==> q.connections[b].socket != t)
  {
    hide Closed, Send, Remembered, Set, Registry, Winds, TakenOffline;
    var a, agent, t := m.agentId, p.agents[m.agentId], p.connections[m.agentId].socket;
    var p1 := p.(helloNonces := p.helloNonces[a := Set(HelloNonces(p, a), Entry(m.nonce, now + AGENT_NONCE_TTL_MS))]);
    SameRegistry(p, p1);
    var p2 := Closed(p1, t);
    LostWinds(p1, t);
    WindsKeeps(p1, p2);
    FlagsAgree(p2, t);
    ClosedTakesEveryone(p1, t, b);
    var p3 := p2.(connections := p2.connections[a := Live(s, Remembered([], m.nonce, now))],
                  agents := p2.agents[a := agent.(status := Online, host := Some(m.host))]);
    var socket := SocketAt(p3.sockets, s);
    var p4 := p3.(sockets := p3.sockets[s := socket.(handlers := socket.handlers + [a])]);
    UpdatedSocket(p3.sockets, s, socket.(handlers := socket.handlers + [a]), t);
    SentElsewhere(p4, s, Ready(a, agent.policy), t);
  }

  lemma ClosedTakesEveryone(p: Plane, s: nat, b: Text)
    requires Registry(p)
    ensures !SocketAt(p.sockets, s).closed && b in Closed(p, s).connections ==> Closed(p, s).connections[b].socket != s
  {
    hide TakenOffline;
    assert b in p.connections ==> AttendedOn(b, SocketAt(p.sockets, p.connections[b].socket));
  }

  lemma SentElsewhere(p: Plane, s: nat, out: Outgoing, t: nat)
    requires s != t
    ensures var q := Send(p, s, out);
            q.connections == p.connections && SocketAt(q.sockets, t) == SocketAt(p.sockets, t)
  {
    var socket := SocketAt(p.sockets, s);
    UpdatedSocket(p.sockets, s, socket.(sent := socket.sent + [out]), t);
    hide SocketAt;
  }
}

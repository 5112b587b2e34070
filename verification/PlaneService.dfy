/** The control plane as an object: its handlers change its maps in place (src/remote/control-plane.ts), and each is
    proved to make the step that Planes.dfy describes. */
module PlaneService {
  import opened JsText
  import opened CanonicalJson
  import opened RemoteTypes
  import opened Envelopes
  import opened NonceWindows
  import opened Planes

  class RemoteControlPlane {
    const config: Config
    const verifies: Verifier

    var agents: map<Text, Agent>
    var aliases: map<(Text, Text), Text>
    var tokens: map<Text, Token>
    var agentConnections: map<Text, Live>
    var agentHelloNonces: map<Text, Window>
    var pendingActions: map<Text, Action>
    var timers: set<Text>
    var rows: map<Text, Row>
    var outcomes: map<Text, Outcome>
    var finished: set<Text>
    var sockets: map<nat, Socket>
    ghost var settlements: multiset<Text>
    ghost var signed: seq<Sealed>

    ghost function State(): Plane
      reads this
    {
      Plane(agents, aliases, tokens, agentConnections, agentHelloNonces, pendingActions, timers, rows, outcomes,
            finished, sockets, settlements, signed)
    }

    constructor (config: Config, verifies: Verifier)
      ensures State() == EMPTY_PLANE && this.config == config && this.verifies == verifies
    {
      this.config := config;
      this.verifies := verifies;
      agents, aliases, tokens := map[], map[], map[];
      agentConnections, agentHelloNonces, pendingActions, timers := map[], map[], map[], {};
      rows, outcomes, finished, sockets := map[], map[], {}, map[];
      settlements, signed := multiset{}, [];
    }

    // ---- Sockets ----

    method SendJson(s: nat, out: Outgoing)
      modifies this
      ensures State() == Send(old(State()), s, out)
    {
      var socket := SocketAt(sockets, s);
      if socket.closed {
        return;
      }
      sockets := sockets[s := socket.(sent := socket.sent + [out])];
    }

    /** Runs the close handlers of a socket one after the other, unless they have run before. */
    method NotifyClose(s: nat)
      modifies this
      ensures State() == Notified(old(State()), s)
    {
      hide Gone, TakenOffline;
      var socket := SocketAt(sockets, s);
      if socket.notified {
        return;
      }
      sockets := sockets[s := socket.(notified := true)];
      NoHandlers(agents, agentConnections, s);
      assert socket.handlers[..0] == [];
      for i := 0 to |socket.handlers|
        invariant agentConnections
                  == old(agentConnections) - Gone(old(agentConnections), s, socket.handlers[..i])
        invariant agents == TakenOffline(old(agents), Gone(old(agentConnections), s, socket.handlers[..i]))
        invariant State() == old(State()).(
          agents := agents, connections := agentConnections, sockets := old(sockets)[s := socket.(notified := true)])
      {
        var a := socket.handlers[i];
        ghost var before := Gone(old(agentConnections), s, socket.handlers[..i]);
        OneMoreHandler(old(agentConnections), s, socket.handlers, i);
        if a in agentConnections && agentConnections[a].socket == s {
          OneMoreGone(old(agentConnections), before, a);
          OneMoreOffline(old(agents), before, a);
          agentConnections := agentConnections - {a};
          if a in agents && agents[a].status != Revoked {
            agents := agents[a := agents[a].(status := Offline)];
          }
        }
      }
      assert socket.handlers[..|socket.handlers|] == socket.handlers;
    }

    method CloseConnection(s: nat)
      modifies this
      ensures State() == Closed(old(State()), s)
    {
      var socket := SocketAt(sockets, s);
      if socket.closed {
        return;
      }
      sockets := sockets[s := socket.(closed := true)];
      NotifyClose(s);
    }

    /** The peer closed the socket, or it failed. */
    method HandleClose(s: nat)
      modifies this
      ensures State() == SocketLost(old(State()), s)
    {
      sockets := sockets[s := SocketAt(sockets, s).(closed := true)];
      NotifyClose(s);
    }

    method Refuse(s: nat, code: ErrorCode)
      modifies this
      ensures State() == Refused(old(State()), s, code)
    {
      SendJson(s, Problem(code));
      CloseConnection(s);
    }

    // ---- Cleaning up ----

    method CleanupEphemeralState(now: int)
      modifies this
      ensures State() == Cleaned(old(State()), now)
    {
      hide HalfPruned, HalfTrimmed, PrunedNonces, PrunedConnections, Pruned;
      HalfPrunedAll(agentHelloNonces, now);
      HalfTrimmedAll(agentConnections, now);
      var todo := agentHelloNonces.Keys;
      while todo != {}
        invariant todo <= old(agentHelloNonces).Keys
        invariant agentHelloNonces == HalfPruned(old(agentHelloNonces), todo, now)
        invariant State() == old(State()).(helloNonces := agentHelloNonces)
        decreases |todo|
      {
        var a :| a in todo;
        HalfPrunedOne(old(agentHelloNonces), todo, a, now);
        var nonces := Pruned(agentHelloNonces[a], now);
        agentHelloNonces := if nonces == [] then agentHelloNonces - {a} else agentHelloNonces[a := nonces];
        todo := todo - {a};
      }
      todo := agentConnections.Keys;
      while todo != {}
        invariant todo <= old(agentConnections).Keys
        invariant agentConnections == HalfTrimmed(old(agentConnections), todo, now)
        invariant State() == old(State()).(
          helloNonces := PrunedNonces(old(agentHelloNonces), now), connections := agentConnections)
        decreases |todo|
      {
        var a :| a in todo;
        HalfTrimmedOne(old(agentConnections), todo, a, now);
        var live := agentConnections[a];
        agentConnections := agentConnections[a := live.(seenNonces := Pruned(live.seenNonces, now))];
        todo := todo - {a};
      }
    }

    // ---- Enrollment ----

    method CreateEnrollmentToken(
      principal: Principal, alias: Text, profile: Profile, agentId: Text, tokenHash: Text, now: int)
      returns (reply: Reply<()>)
      modifies this
      ensures (State(), reply)
              == CreateToken(old(State()), config, principal, alias, profile, agentId, tokenHash, now)
    {
      hide CreateAgentPolicy, HasCapability;
      if !HasCapability(principal, AgentsAdmin) {
        return Failed(InvalidScope);
      }
      if alias == [] {
        return Failed(Forbidden);
      }
      var policy := CreateAgentPolicy(if profile == Operations || profile == FullAdmin then profile else ReadOnly);
      var key := (principal.userId, alias);
      if key in aliases && aliases[key] in agents && agents[aliases[key]].status != Revoked {
        return Failed(Forbidden);
      }
      if agentId in agents || key in aliases {
        return Failed(InternalError);
      }
      agents := agents[
        agentId := Agent(principal.userId, alias, Pending, None, policy.profile, policy, policy.version, None)];
      aliases := aliases[key := agentId];
      if tokenHash in tokens {
        return Failed(InternalError);
      }
      tokens := tokens[tokenHash := Token(agentId, now + config.enrollmentTokenTtlSeconds * 1000, false)];
      return Done(());
    }

    method HandleAgentEnroll(tokenHash: Text, publicKey: Text, keyIsValid: bool, host: Host, now: int)
      returns (reply: Reply<Enrollment>)
      modifies this
      ensures (State(), reply) == Enroll(old(State()), tokenHash, publicKey, keyIsValid, host, now)
    {
      hide HostParses;
      if !HostParses(host) {
        return Failed(InternalError);
      }
      if !keyIsValid {
        return Failed(Forbidden);
      }
      if tokenHash !in tokens || tokens[tokenHash].used || tokens[tokenHash].expiresAt < now {
        return Failed(InvalidToken);
      }
      var enrollment := tokens[tokenHash];
      if enrollment.agentId !in agents || agents[enrollment.agentId].status == Revoked {
        return Failed(AgentNotFound);
      }
      var agent := agents[enrollment.agentId];
      tokens := tokens[tokenHash := enrollment.(used := true)];
      agents := agents[
        enrollment.agentId := agent.(status := Offline, publicKey := Some(publicKey), host := Some(host))];
      return Done(Enrollment(enrollment.agentId, agent.policy));
    }

    // ---- Messages of agents ----

    method HandleAgentMessage(s: nat, incoming: Option<Sealed>, now: int)
      modifies this
      ensures State() == Received(old(State()), verifies, s, incoming, now)
    {
      hide Greeted, Reported, Refused, Parses;
      if incoming.None? || !Parses(incoming.value.message) {
        Refuse(s, InternalError);
        return;
      }
      match incoming.value.message
      case Hello(_, _, _, _, _, _) => HandleAgentHello(s, incoming.value, now);
      case Result(_, _, _, _, _) => HandleActionResult(s, incoming.value, now);
      case _ => Refuse(s, InternalError);
    }

    method HandleAgentHello(s: nat, hello: Sealed, now: int)
      requires hello.message.Hello?
      modifies this
      ensures State() == Greeted(old(State()), verifies, s, hello, now)
    {
      hide Refused, Cleaned, Registered, Has;
      var m := hello.message;
      if m.agentId !in agents || agents[m.agentId].status == Revoked || agents[m.agentId].publicKey.None? {
        Refuse(s, AgentNotFound);
        return;
      }
      var agent := agents[m.agentId];
      if !verifies(agent.publicKey.value, hello) {
        Refuse(s, SignatureInvalid);
        return;
      }
      if Abs(now - m.timestamp) > HELLO_WINDOW_MS {
        Refuse(s, ActionExpired);
        return;
      }
      CleanupEphemeralState(now);
      CleanedLookups(old(State()), now);
      if m.agentId in agentConnections && agentConnections[m.agentId].socket == s {
        Refuse(s, ActionReplayDetected);
        return;
      }
      var helloNonces := if m.agentId in agentHelloNonces then agentHelloNonces[m.agentId] else [];
      if Has(helloNonces, m.nonce) {
        Refuse(s, ActionReplayDetected);
        return;
      }
      Register(s, m, now);
    }

    method Register(s: nat, m: Message, now: int)
      requires m.Hello? && m.agentId in agents
      modifies this
      ensures State() == Registered(old(State()), s, m, now)
    {
      hide Closed, Send, Remembered, Set;
      var agent := agents[m.agentId];
      var helloNonces := if m.agentId in agentHelloNonces then agentHelloNonces[m.agentId] else [];
      agentHelloNonces := agentHelloNonces[m.agentId := Set(helloNonces, Entry(m.nonce, now + AGENT_NONCE_TTL_MS))];
      if m.agentId in agentConnections {
        CloseConnection(agentConnections[m.agentId].socket);
      }
      Connect(s, m.agentId, agent.(status := Online, host := Some(m.host)), Remembered([], m.nonce, now));
      SendJson(s, Ready(m.agentId, agent.policy));
    }

    /** Registers a connection, writes the agent's record and puts the close handler on the socket. */
    method Connect(s: nat, a: Text, online: Planes.Agent, seenNonces: Window)
      modifies this`agentConnections, this`agents, this`sockets
      ensures var p := old(State());
              var socket := SocketAt(p.sockets, s);
              State() == p.(connections := p.connections[a := Live(s, seenNonces)], agents := p.agents[a := online],
                            sockets := p.sockets[s := socket.(handlers := socket.handlers + [a])])
    {
      agentConnections := agentConnections[a := Live(s, seenNonces)];
      agents := agents[a := online];
      var socket := SocketAt(sockets, s);
      sockets := sockets[s := socket.(handlers := socket.handlers + [a])];
    }

    method Settle(id: Text, outcome: Outcome)
      modifies this
      ensures State() == Settled(old(State()), id, outcome)
    {
      timers, pendingActions := timers - {id}, pendingActions - {id};
      if id !in outcomes {
        outcomes := outcomes[id := outcome];
      }
      settlements := settlements + multiset{id};
    }

    method HandleActionResult(s: nat, result: Sealed, now: int)
      requires result.message.Result?
      modifies this
      ensures State() == Reported(old(State()), verifies, s, result, now)
    {
      hide Settled, Has, Pruned, Remembered;
      var m := result.message;
      if m.actionId !in pendingActions {
        return;
      }
      var pending := pendingActions[m.actionId];
      if m.agentId !in agents || agents[m.agentId].publicKey.None?
         || !verifies(agents[m.agentId].publicKey.value, result) {
        Settle(m.actionId, Rejected(InternalError));
        return;
      }
      if pending.agentId != m.agentId || m.agentId !in agentConnections || agentConnections[m.agentId].socket != s {
        Settle(m.actionId, Rejected(SignatureInvalid));
        return;
      }
      var live := agentConnections[m.agentId];
      live := live.(seenNonces := Pruned(live.seenNonces, now));
      agentConnections := agentConnections[m.agentId := live];
      if Has(live.seenNonces, m.nonce) {
        Settle(m.actionId, Rejected(ActionReplayDetected));
        return;
      }
      agentConnections := agentConnections[
        m.agentId := live.(seenNonces := Remembered(live.seenNonces, m.nonce, now))];
      assert agentConnections == old(agentConnections)[m.agentId := agentConnections[m.agentId]];
      Settle(m.actionId, Resolved(result));
    }

    // ---- Callers ----

    method ResolveAgent(userId: Text, name: Text) returns (r: Option<Text>)
      ensures r == Resolve(State(), userId, name)
    {
      if name == [] {
        return None;
      }
      if name in agents && agents[name].userId == userId {
        return Some(name);
      }
      if (userId, name) in aliases && aliases[(userId, name)] in agents {
        return Some(aliases[(userId, name)]);
      }
      return None;
    }

    /** `agent` is the record that was read for the agent a: now, or before the rest of the request had arrived. */
    method UpdateAgentPolicy(
      principal: Principal, a: Text, agent: Agent, patch: PolicyPatch, nonce: Text, signature: Text, now: int)
      returns (reply: Reply<Agent>)
      modifies this
      ensures (State(), reply)
              == UpdatePolicy(old(State()), config, principal, a, agent, patch, nonce, signature, now)
    {
      hide HasCapability, Send, MergeCustomPolicy;
      if !HasCapability(principal, AgentsAdmin) {
        return Failed(InvalidScope);
      }
      var nextVersion := agent.policyVersion + 1;
      var merged := MergeCustomPolicy(patch);
      var policy := merged.(
        maxActionTimeoutSeconds := Min(merged.maxActionTimeoutSeconds, config.maxActionTimeoutSeconds),
        maxOutputBytes := Min(merged.maxOutputBytes, config.maxOutputBytes),
        version := nextVersion);
      var updated := agent.(profile := policy.profile, policy := policy, policyVersion := nextVersion);
      if a in agents {
        agents := agents[a := updated];
      }
      if a in agentConnections {
        var sealed := Sealed(PolicyUpdate(a, policy, nextVersion, now, nonce), signature);
        signed := signed + [sealed];
        SendJson(agentConnections[a].socket, Command(sealed));
      }
      return Done(updated);
    }

    method RevokeAgent(principal: Principal, a: Text) returns (reply: Reply<()>)
      requires a in agents
      modifies this
      ensures (State(), reply) == Revoke(old(State()), principal, a)
    {
      hide HasCapability, Closed;
      if !HasCapability(principal, AgentsAdmin) {
        return Failed(InvalidScope);
      }
      agents := agents[a := agents[a].(status := Revoked)];
      if a in agentConnections {
        CloseConnection(agentConnections[a].socket);
      }
      agentConnections := agentConnections - {a};
      return Done(());
    }

    /** A call of a tool that runs on an agent, up to the point where it waits for the result. */
    method CallAgentTool(
      principal: Principal, name: Text, tool: Tool, args: map<Text, Doc>, requested: Requested, actionId: Text,
      nonce: Text, signature: Text, now: int) returns (reply: Reply<Message>)
      modifies this
      ensures (State(), reply)
              == Dispatch(old(State()), config, principal, name, tool, args, requested, actionId, nonce, signature, now)
    {
      hide HasCapability, Issue, Resolve, TimeoutMs;
      var capability := ToolCapability(tool);
      var target := ResolveAgent(principal.userId, name);
      if !HasCapability(principal, capability) {
        return Failed(InvalidScope);
      }
      if target.None? {
        return Failed(AgentNotFound);
      }
      var a, agent := target.value, agents[target.value];
      if capability !in agent.policy.capabilities {
        return Failed(CapabilityDenied);
      }
      if agent.status == Revoked {
        return Failed(AgentRevoked);
      }
      if a !in agentConnections {
        return Failed(AgentOffline);
      }
      var timeout := TimeoutMs(config, agent, requested);
      if timeout.None? || Abs(now + timeout.value) > LATEST_INSTANT {
        return Failed(InternalError);
      }
      reply := DispatchAction(principal, a, tool, args, timeout.value, actionId, nonce, signature, now);
    }

    method DispatchAction(
      principal: Principal, a: Text, tool: Tool, args: map<Text, Doc>, timeoutMs: int, actionId: Text, nonce: Text,
      signature: Text, now: int) returns (reply: Reply<Message>)
      requires a in agents && a in agentConnections
      modifies this
      ensures (State(), reply)
              == Issue(old(State()), config, principal, a, tool, args, timeoutMs, actionId, nonce, signature, now)
    {
      hide Send;
      var agent, capability, deadline := agents[a], ToolCapability(tool), now + timeoutMs;
      var request :=
        Request(actionId, a, principal.userId, tool, capability, args, agent.policyVersion, now, deadline, nonce);
      var sealed := Sealed(request, signature);
      signed := signed + [sealed];
      if actionId in rows {
        return Failed(InternalError);
      }
      var action := Action(principal.userId, a, tool, capability, args, now, deadline);
      AwaitAction(actionId, action);
      SendJson(agentConnections[a].socket, Command(sealed));
      return Done(request);
    }

    /** The action's row is inserted, its timer is started and its promise is kept. */
    method AwaitAction(id: Text, action: Action)
      modifies this
      ensures var p := old(State());
              State() == p.(rows := p.rows[id := Row(action, Sent, None)], pending := p.pending[id := action],
                            timers := p.timers + {id})
    {
      rows, timers, pendingActions := rows[id := Row(action, Sent, None)], timers + {id}, pendingActions[id := action];
    }

    method OnTimeout(id: Text)
      modifies this
      ensures State() == Expired(old(State()), id)
    {
      Settle(id, Rejected(AgentTimeout));
    }

    /** The dispatching call resumes with the outcome of its promise. */
    method FinishAction(id: Text)
      requires id in outcomes
      modifies this
      ensures State() == Finished(old(State()), id)
    {
      var outcome := outcomes[id];
      if id in rows {
        rows := rows[id := Row(rows[id].action, FinalStatus(outcome), Some(outcome))];
      }
      finished := finished + {id};
    }
  }

  lemma NoHandlers(agents: map<Text, Agent>, connections: map<Text, Live>, s: nat)
    ensures Gone(connections, s, []) == {} && TakenOffline(agents, {}) == agents && connections - {} == connections
  {}

  lemma OneMoreGone(connections: map<Text, Live>, gone: set<Text>, a: Text)
    ensures connections - (gone + {a}) == connections - gone - {a}
  {}

  lemma OneMoreHandler(connections: map<Text, Live>, s: nat, handlers: seq<Text>, i: nat)
    requires i < |handlers|
    ensures var before, a := Gone(connections, s, handlers[..i]), handlers[i];
            Gone(connections, s, handlers[..i + 1])
            == if a in connections - before && (connections - before)[a].socket == s then before + {a} else before
  {
    assert handlers[..i + 1] == handlers[..i] + [handlers[i]];
  }

  lemma OneMoreOffline(agents: map<Text, Agent>, gone: set<Text>, a: Text)
    ensures var now := TakenOffline(agents, gone);
            TakenOffline(agents, gone + {a})
            == if a in now && now[a].status != Revoked then now[a := now[a].(status := Offline)] else now
  {}

  /** Hello nonces while cleaning up: those in `todo` are still to be pruned. */
  function HalfPruned(nonces: map<Text, Window>, todo: set<Text>, now: int): map<Text, Window> {
    map a | a in nonces && (a in todo || Pruned(nonces[a], now) != []) ::
      if a in todo then nonces[a] else Pruned(nonces[a], now)
  }

  lemma HalfPrunedOne(nonces: map<Text, Window>, todo: set<Text>, a: Text, now: int)
    requires a in todo && todo <= nonces.Keys
    ensures var half, pruned := HalfPruned(nonces, todo, now), Pruned(nonces[a], now);
            a in half && half[a] == nonces[a]
            && HalfPruned(nonces, todo - {a}, now) == if pruned == [] then half - {a} else half[a := pruned]
  {
    hide Pruned;
  }

  lemma HalfPrunedAll(nonces: map<Text, Window>, now: int)
    ensures HalfPruned(nonces, nonces.Keys, now) == nonces && HalfPruned(nonces, {}, now) == PrunedNonces(nonces, now)
  {
    hide Pruned;
  }

  function HalfTrimmed(connections: map<Text, Live>, todo: set<Text>, now: int): map<Text, Live> {
    map a | a in connections ::
      if a in todo then connections[a] else connections[a].(seenNonces := Pruned(connections[a].seenNonces, now))
  }

  lemma HalfTrimmedOne(connections: map<Text, Live>, todo: set<Text>, a: Text, now: int)
    requires a in todo && todo <= connections.Keys
    ensures var half := HalfTrimmed(connections, todo, now);
            a in half && half[a] == connections[a]
            && HalfTrimmed(connections, todo - {a}, now)
               == half[a := half[a].(seenNonces := Pruned(half[a].seenNonces, now))]
  {
    hide Pruned;
  }

  lemma HalfTrimmedAll(connections: map<Text, Live>, now: int)
    ensures HalfTrimmed(connections, connections.Keys, now) == connections
    ensures HalfTrimmed(connections, {}, now) == PrunedConnections(connections, now)
  {
    hide Pruned;
  }

  /** Cleaning up changes no agent and no registration. */
  lemma CleanedLookups(p: Plane, now: int)
    ensures var q := Cleaned(p, now);
            q.agents == p.agents && q.connections.Keys == p.connections.Keys
            && forall a :: a in p.connections ==> q.connections[a].socket == p.connections[a].socket
  {
    hide Pruned;
  }
}

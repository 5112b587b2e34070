/** The lifecycle of an agent: enrolled once, online exactly while connected, revoked for good. */
module AgentLifecycle {
  import opened JsText
  import opened CanonicalJson
  import opened RemoteTypes
  import opened Envelopes
  import opened NonceWindows
  import opened Planes
  import opened PlaneRuns

  ghost predicate SoundAgent(g: Agent) {
    (g.status == Pending ==> g.publicKey.None?)
    && (g.status == Online || g.status == Offline ==> g.publicKey.Some?)
    && g.policyVersion == g.policy.version >= 1 && g.profile == g.policy.profile
  }

  ghost predicate AgentsSound(agents: map<Text, Agent>) { forall a :: a in agents ==> SoundAgent(agents[a]) }

  ghost predicate OnlineIffConnected(agents: map<Text, Agent>, connections: map<Text, Live>) {
    forall a :: a in connections <==> a in agents && agents[a].status == Online
  }

  /** An unused token is for an agent without a key, and each agent has at most one token. */
  ghost predicate TokensSound(tokens: map<Text, Token>, agents: map<Text, Agent>) {
    (forall t :: t in tokens ==> tokens[t].agentId in agents)
    && (forall t :: t in tokens && !tokens[t].used ==> agents[tokens[t].agentId].publicKey.None?)
    && forall t, u :: t in tokens && u in tokens && tokens[t].agentId == tokens[u].agentId ==> t == u
  }

  ghost predicate IndexSound(aliases: map<(Text, Text), Text>, agents: map<Text, Agent>) {
    (forall k :: k in aliases ==> aliases[k] in agents && (agents[aliases[k]].userId, agents[aliases[k]].alias) == k)
    && forall a :: a in agents ==>
         (agents[a].userId, agents[a].alias) in aliases && aliases[(agents[a].userId, agents[a].alias)] == a
  }

  ghost predicate Lifecycle(p: Plane) {
    AgentsSound(p.agents) && OnlineIffConnected(p.agents, p.connections) && TokensSound(p.tokens, p.agents)
    && IndexSound(p.aliases, p.agents)
  }

  /** The same agents, with the same owners, aliases and keys. */
  ghost predicate SameIdentities(was: map<Text, Agent>, now: map<Text, Agent>) {
    was.Keys == now.Keys
    && forall a :: a in was ==>
         now[a].userId == was[a].userId && now[a].alias == was[a].alias && now[a].publicKey == was[a].publicKey
  }

  lemma IdentitiesSuffice(p: Plane, q: Plane)
    requires TokensSound(p.tokens, p.agents) && IndexSound(p.aliases, p.agents)
    requires SameIdentities(p.agents, q.agents) && q.tokens == p.tokens && q.aliases == p.aliases
    ensures TokensSound(q.tokens, q.agents) && IndexSound(q.aliases, q.agents)
  {}

  lemma OfflineIsSound(agents: map<Text, Agent>, gone: set<Text>)
    requires AgentsSound(agents) && forall a :: a in gone ==> a in agents && agents[a].status == Online
    ensures AgentsSound(TakenOffline(agents, gone)) && SameIdentities(agents, TakenOffline(agents, gone))
  {}

  lemma OfflineIsDisconnected(agents: map<Text, Agent>, connections: map<Text, Live>, gone: set<Text>)
    requires OnlineIffConnected(agents, connections) && forall a :: a in gone ==> a in connections
    ensures OnlineIffConnected(TakenOffline(agents, gone), connections - gone)
  {}

  /** When a socket closes, the agents that leave go offline, and the rest of the lifecycle is as it was. */
  lemma NotifiedKeeps(p: Plane, s: nat)
    requires Lifecycle(p)
    ensures var q := Notified(p, s); Lifecycle(q) && SameIdentities(p.agents, q.agents)
  {
    var q, gone := Notified(p, s), Gone(p.connections, s, SocketAt(p.sockets, s).handlers);
    assert forall a :: a in gone ==> a in p.connections;
    OfflineIsSound(p.agents, gone);
    OfflineIsDisconnected(p.agents, p.connections, gone);
    hide *;
    IdentitiesSuffice(p, q);
  }

  lemma ClosedKeeps(p: Plane, s: nat)
    requires Lifecycle(p)
    ensures var q := Closed(p, s); Lifecycle(q) && SameIdentities(p.agents, q.agents)
  {
    hide Notified, OnlineIffConnected, TokensSound, IndexSound, AgentsSound;
    NotifiedKeeps(MarkedClosed(p, s), s);
  }

  lemma RefusedKeeps(p: Plane, s: nat, code: ErrorCode)
    requires Lifecycle(p)
    ensures Lifecycle(Refused(p, s, code))
  {
    hide Closed, OnlineIffConnected, TokensSound, IndexSound, AgentsSound;
    SendFrame(p, s, Problem(code));
    ClosedKeeps(Send(p, s, Problem(code)), s);
  }

  lemma CleanedKeeps(p: Plane, now: int)
    requires Lifecycle(p)
    ensures Lifecycle(Cleaned(p, now))
  {
    hide TokensSound, IndexSound, AgentsSound;
    assert PrunedConnections(p.connections, now).Keys == p.connections.Keys;
  }

  /** A new agent, pending and without a key, under an alias its owner does not use. */
  lemma InsertAgentKeeps(p: Plane, a: Text, g: Agent)
    requires Lifecycle(p) && a !in p.agents && (g.userId, g.alias) !in p.aliases
    requires SoundAgent(g) && g.status == Pending
    ensures Lifecycle(p.(agents := p.agents[a := g], aliases := p.aliases[(g.userId, g.alias) := a]))
  {
    hide SoundAgent;
    var agents, aliases := p.agents[a := g], p.aliases[(g.userId, g.alias) := a];
    assert AgentsSound(agents);
    assert IndexSound(aliases, agents) by {
      hide TokensSound, OnlineIffConnected, AgentsSound;
    }
    assert TokensSound(p.tokens, agents) by {
      hide IndexSound, OnlineIffConnected, AgentsSound;
    }
  }

  lemma InsertTokenKeeps(p: Plane, hash: Text, token: Token)
    requires Lifecycle(p) && hash !in p.tokens && token.agentId in p.agents && p.agents[token.agentId].publicKey.None?
    requires forall t :: t in p.tokens ==> p.tokens[t].agentId != token.agentId
    ensures Lifecycle(p.(tokens := p.tokens[hash := token]))
  {
    hide AgentsSound, OnlineIffConnected, IndexSound;
  }

  lemma NewPolicyIsSound(userId: Text, alias: Text, profile: Profile)
    ensures var policy := CreateAgentPolicy(profile);
            SoundAgent(Agent(userId, alias, Pending, None, policy.profile, policy, policy.version, None))
  {}

  lemma CreateTokenKeeps(
    p: Plane, config: Config, principal: Principal, alias: Text, profile: Profile, agentId: Text, tokenHash: Text,
    now: int)
    requires Lifecycle(p)
    ensures Lifecycle(CreateToken(p, config, principal, alias, profile, agentId, tokenHash, now).0)
  {
    hide AgentsSound, OnlineIffConnected, IndexSound, CreateAgentPolicy, SoundAgent, HasCapability;
    if agentId !in p.agents && (principal.userId, alias) !in p.aliases {
      var chosen := if profile == Operations || profile == FullAdmin then profile else ReadOnly;
      var policy := CreateAgentPolicy(chosen);
      var g := Agent(principal.userId, alias, Pending, None, policy.profile, policy, policy.version, None);
      NewPolicyIsSound(principal.userId, alias, chosen);
      InsertAgentKeeps(p, agentId, g);
      if tokenHash !in p.tokens {
        var inserted := p.(agents := p.agents[agentId := g], aliases := p.aliases[(g.userId, g.alias) := agentId]);
        InsertTokenKeeps(inserted, tokenHash, Token(agentId, now + config.enrollmentTokenTtlSeconds * 1000, false));
      }
    }
  }

  lemma UsedTokenIsSound(tokens: map<Text, Token>, agents: map<Text, Agent>, t: Text, g: Agent)
    requires TokensSound(tokens, agents) && t in tokens
    ensures TokensSound(tokens[t := tokens[t].(used := true)], agents[tokens[t].agentId := g])
  {}

  lemma RenewedIsIndexed(aliases: map<(Text, Text), Text>, agents: map<Text, Agent>, a: Text, g: Agent)
    requires IndexSound(aliases, agents) && a in agents && g.userId == agents[a].userId && g.alias == agents[a].alias
    ensures IndexSound(aliases, agents[a := g])
  {}

  lemma RenewedIsOnline(
    agents: map<Text, Agent>, was: map<Text, Live>, now: map<Text, Live>, a: Text, g: Agent)
    requires OnlineIffConnected(agents, was) && a in agents
    requires now.Keys - {a} == was.Keys - {a} && (a in now <==> g.status == Online)
    ensures OnlineIffConnected(agents[a := g], now)
  {
    forall b ensures b in now <==> b in agents[a := g] && agents[a := g][b].status == Online {
      assert b != a ==> (b in now.Keys - {a} <==> b in was.Keys - {a});
    }
  }

  /** A pending agent gets its key, and the token it came with is used. */
  lemma EnrolledKeeps(p: Plane, t: Text, g: Agent)
    requires Lifecycle(p) && t in p.tokens && !p.tokens[t].used && p.agents[p.tokens[t].agentId].status != Revoked
    requires var was := p.agents[p.tokens[t].agentId];
             SoundAgent(g) && g.userId == was.userId && g.alias == was.alias && g.status == Offline
    ensures Lifecycle(p.(tokens := p.tokens[t := p.tokens[t].(used := true)],
                         agents := p.agents[p.tokens[t].agentId := g]))
  {
    var a := p.tokens[t].agentId;
    assert a !in p.connections;
    assert AgentsSound(p.agents[a := g]);
    hide *;
    UsedTokenIsSound(p.tokens, p.agents, t, g);
    RenewedIsIndexed(p.aliases, p.agents, a, g);
    RenewedIsOnline(p.agents, p.connections, p.connections, a, g);
  }

  lemma EnrollKeeps(p: Plane, tokenHash: Text, publicKey: Text, keyIsValid: bool, host: Host, now: int)
    requires Lifecycle(p)
    ensures Lifecycle(Enroll(p, tokenHash, publicKey, keyIsValid, host, now).0)
  {
    hide OnlineIffConnected, IndexSound, TokensSound, HostParses;
    if tokenHash in p.tokens && !p.tokens[tokenHash].used && p.tokens[tokenHash].agentId in p.agents {
      var agent := p.agents[p.tokens[tokenHash].agentId];
      if agent.status != Revoked {
        EnrolledKeeps(
          p, tokenHash, agent.(status := Offline, publicKey := Some(publicKey), host := Some(host)));
      }
    }
  }

  /** One agent's record is rewritten, without a change to who it is, and its connection with it. */
  lemma RewriteKeeps(p: Plane, q: Plane, a: Text, g: Agent)
    requires Lifecycle(p) && a in p.agents && q.tokens == p.tokens && q.aliases == p.aliases
    requires q.agents == p.agents[a := g] && SoundAgent(g)
    requires g.userId == p.agents[a].userId && g.alias == p.agents[a].alias && g.publicKey == p.agents[a].publicKey
    requires q.connections.Keys - {a} == p.connections.Keys - {a} && (a in q.connections <==> g.status == Online)
    ensures Lifecycle(q)
  {
    assert AgentsSound(q.agents) && SameIdentities(p.agents, q.agents);
    hide *;
    RenewedIsOnline(p.agents, p.connections, q.connections, a, g);
    IdentitiesSuffice(p, q);
  }

  lemma RegisteredKeeps(p: Plane, s: nat, m: Message, now: int)
    requires Lifecycle(p) && m.Hello? && Enrolled(p, m.agentId)
    ensures Lifecycle(Registered(p, s, m, now))
  {
    hide AgentsSound, OnlineIffConnected, TokensSound, IndexSound, Closed, Remembered, Set;
    var a, agent := m.agentId, p.agents[m.agentId];
    assert SoundAgent(agent) by {
      AgentIsSound(p, a);
    }
    var p1 := p.(helloNonces := p.helloNonces[a := Set(HelloNonces(p, a), Entry(m.nonce, now + AGENT_NONCE_TTL_MS))]);
    var p2 := if a in p.connections then Closed(p1, p.connections[a].socket) else p1;
    if a in p.connections {
      ClosedKeeps(p1, p.connections[a].socket);
    }
    var online := agent.(status := Online, host := Some(m.host));
    var p3 := p2.(connections := p2.connections[a := Live(s, Remembered([], m.nonce, now))],
                  agents := p2.agents[a := online]);
    assert p3.connections.Keys - {a} == p2.connections.Keys - {a};
    RewriteKeeps(p2, p3, a, online);
    var socket := SocketAt(p3.sockets, s);
    var p4 := p3.(sockets := p3.sockets[s := socket.(handlers := socket.handlers + [a])]);
    SendFrame(p4, s, Ready(a, agent.policy));
  }

  lemma AgentIsSound(p: Plane, a: Text)
    requires AgentsSound(p.agents) && a in p.agents
    ensures SoundAgent(p.agents[a])
  {}

  /** A change to what a connection remembers. */
  lemma ReconnectedKeeps(p: Plane, q: Plane)
    requires Lifecycle(p) && q.connections.Keys == p.connections.Keys
    requires q.agents == p.agents && q.tokens == p.tokens && q.aliases == p.aliases
    ensures Lifecycle(q)
  {
    hide AgentsSound, TokensSound, IndexSound;
  }

  lemma JudgedConnections(p: Plane, verifies: Verifier, s: nat, result: Sealed, now: int)
    requires result.message.Result? && result.message.actionId in p.pending
    ensures Judged(p, verifies, s, result, now).0.Keys == p.connections.Keys
  {
    hide Pruned, Remembered, Has;
  }

  lemma ReportedKeeps(p: Plane, verifies: Verifier, s: nat, result: Sealed, now: int)
    requires Lifecycle(p) && result.message.Result?
    ensures Lifecycle(Reported(p, verifies, s, result, now))
  {
    hide AgentsSound, OnlineIffConnected, TokensSound, IndexSound, Judged;
    if result.message.actionId in p.pending {
      JudgedConnections(p, verifies, s, result, now);
      ReconnectedKeeps(p, Reported(p, verifies, s, result, now));
    }
  }

  lemma GreetedKeeps(p: Plane, verifies: Verifier, s: nat, hello: Sealed, now: int)
    requires Lifecycle(p) && hello.message.Hello?
    ensures Lifecycle(Greeted(p, verifies, s, hello, now))
  {
    hide AgentsSound, OnlineIffConnected, TokensSound, IndexSound, Registered, Refused;
    CleanedKeeps(p, now);
    var problem := HelloProblem(p, verifies, s, hello, now);
    if problem.Some? {
      RefusedKeeps(p, s, problem.value);
      RefusedKeeps(Cleaned(p, now), s, problem.value);
    } else {
      RegisteredKeeps(Cleaned(p, now), s, hello.message, now);
    }
  }

  lemma ReceivedKeeps(p: Plane, verifies: Verifier, s: nat, incoming: Option<Sealed>, now: int)
    requires Lifecycle(p)
    ensures Lifecycle(Received(p, verifies, s, incoming, now))
  {
    hide Lifecycle, Greeted, Reported, Refused, Parses;
    RefusedKeeps(p, s, InternalError);
    if incoming.Some? {
      if incoming.value.message.Hello? {
        GreetedKeeps(p, verifies, s, incoming.value, now);
      } else if incoming.value.message.Result? {
        ReportedKeeps(p, verifies, s, incoming.value, now);
      }
    }
  }

  /** A policy written over the record as it is now. */
  lemma UpdatePolicyKeeps(
    p: Plane, config: Config, principal: Principal, a: Text, patch: PolicyPatch, nonce: Text, signature: Text, now: int)
    requires Lifecycle(p) && a in p.agents
    ensures Lifecycle(UpdatePolicy(p, config, principal, a, p.agents[a], patch, nonce, signature, now).0)
  {
    hide AgentsSound, OnlineIffConnected, TokensSound, IndexSound, NextPolicy, HasCapability, Send;
    AgentIsSound(p, a);
    var agent := p.agents[a];
    var policy := NextPolicy(config, agent.policyVersion + 1, patch);
    NextPolicyVersion(config, agent.policyVersion + 1, patch);
    var updated := agent.(profile := policy.profile, policy := policy, policyVersion := agent.policyVersion + 1);
    var q := UpdatePolicy(p, config, principal, a, agent, patch, nonce, signature, now).0;
    if HasCapability(principal, AgentsAdmin) {
      StatusMatches(p, a);
      var written := p.(agents := p.agents[a := updated]);
      RewriteKeeps(p, written, a, updated);
      if a in p.connections {
        var sealed := Sealed(PolicyUpdate(a, policy, agent.policyVersion + 1, now, nonce), signature);
        SendFrame(written.(signed := written.signed + [sealed]), p.connections[a].socket, Command(sealed));
      }
    }
  }

  lemma NextPolicyVersion(config: Config, version: int, patch: PolicyPatch)
    ensures NextPolicy(config, version, patch).version == version
  {}

  lemma StatusMatches(p: Plane, a: Text)
    requires Lifecycle(p) && a in p.agents
    ensures a in p.connections <==> p.agents[a].status == Online
  {}

  lemma RevokeKeeps(p: Plane, principal: Principal, a: Text)
    requires Lifecycle(p) && a in p.agents
    ensures Lifecycle(Revoke(p, principal, a).0)
  {
    hide AgentsSound, TokensSound, IndexSound, OnlineIffConnected, HasCapability, Closed;
    if HasCapability(principal, AgentsAdmin) {
      AgentIsSound(p, a);
      var revoked := p.agents[a].(status := Revoked);
      var written := p.(agents := p.agents[a := revoked]);
      var closed := if a in p.connections then Closed(written, p.connections[a].socket) else written;
      ClosingRevoked(p, written, a);
    }
  }

  /** Revocation writes the record before it closes the connection: the agent is then both revoked and connected, and
      stays so until the connection is removed. */
  lemma ClosingRevoked(p: Plane, written: Plane, a: Text)
    requires Lifecycle(p) && a in p.agents && written == p.(agents := p.agents[a := p.agents[a].(status := Revoked)])
    ensures var closed := if a in p.connections then Closed(written, p.connections[a].socket) else written;
            Lifecycle(closed.(connections := closed.connections - {a}))
  {
    hide AgentsSound, TokensSound, IndexSound, OnlineIffConnected, Closed;
    AgentIsSound(p, a);
    var removed := written.(connections := written.connections - {a});
    RewriteKeeps(p, removed, a, p.agents[a].(status := Revoked));
    if a in p.connections {
      var s := p.connections[a].socket;
      ClosedKeeps(removed, s);
      ClosedWithout(written, a, s);
    }
  }

  lemma ClosedWithout(p: Plane, a: Text, s: nat)
    requires a in p.agents && p.agents[a].status == Revoked
    ensures var closed := Closed(p, s);
            closed.(connections := closed.connections - {a}) == Closed(p.(connections := p.connections - {a}), s)
  {
    var handlers := SocketAt(p.sockets, s).handlers;
    var gone, rest := Gone(p.connections, s, handlers), Gone(p.connections - {a}, s, handlers);
    assert rest == gone - {a};
    assert TakenOffline(p.agents, gone) == TakenOffline(p.agents, rest);
    assert p.connections - gone - {a} == p.connections - {a} - rest;
  }

  lemma DispatchKeeps(
    p: Plane, config: Config, principal: Principal, name: Text, tool: Tool, args: map<Text, Doc>,
    requested: Requested, actionId: Text, nonce: Text, signature: Text, now: int)
    requires Lifecycle(p)
    ensures Lifecycle(Dispatch(p, config, principal, name, tool, args, requested, actionId, nonce, signature, now).0)
  {
    hide AgentsSound, TokensSound, IndexSound, OnlineIffConnected, Dispatch;
    DispatchFrame(p, config, principal, name, tool, args, requested, actionId, nonce, signature, now);
  }

  lemma EffectKeeps(p: Plane, config: Config, verifies: Verifier, e: Event)
    requires Lifecycle(p)
    ensures Lifecycle(Effect(p, config, verifies, e))
  {
    hide Lifecycle, CreateToken, Enroll, Received, Notified, UpdatePolicy, Revoke, Dispatch, Settled, Finished, Cleaned,
      Resolve;
    match e.op
    case CreateTokenOp(principal, alias, profile, agentId, tokenHash) =>
      CreateTokenKeeps(p, config, principal, alias, profile, agentId, tokenHash, e.now);
    case EnrollOp(tokenHash, publicKey, keyIsValid, host) =>
      EnrollKeeps(p, tokenHash, publicKey, keyIsValid, host, e.now);
    case ReceiveOp(s, incoming) => ReceivedKeeps(p, verifies, s, incoming, e.now);
    case LostOp(s) => LostKeeps(p, s);
    case UpdatePolicyOp(principal, name, patch, nonce, signature) =>
      var target := Resolve(p, principal.userId, name);
      if target.Some? {
        UpdatePolicyKeeps(p, config, principal, target.value, patch, nonce, signature, e.now);
      }
    case RevokeOp(principal, name) =>
      var target := Resolve(p, principal.userId, name);
      if target.Some? {
        RevokeKeeps(p, principal, target.value);
      }
    case DispatchOp(principal, name, tool, args, requested, actionId, nonce, signature) =>
      DispatchKeeps(p, config, principal, name, tool, args, requested, actionId, nonce, signature, e.now);
    case TimeoutOp(id) => SettledKeeps(p, id, Rejected(AgentTimeout));
    case FinishOp(id) => FinishedKeeps(p, id);
    case CleanOp => CleanedKeeps(p, e.now);
    case _ =>
  }

  lemma LostKeeps(p: Plane, s: nat)
    requires Lifecycle(p)
    ensures Lifecycle(SocketLost(p, s))
  {
    hide Notified, OnlineIffConnected, TokensSound, IndexSound, AgentsSound;
    NotifiedKeeps(MarkedClosed(p, s), s);
  }

  lemma SettledKeeps(p: Plane, id: Text, outcome: Outcome)
    requires Lifecycle(p)
    ensures Lifecycle(Settled(p, id, outcome))
  {
    hide OnlineIffConnected, TokensSound, IndexSound, AgentsSound;
  }

  lemma FinishedKeeps(p: Plane, id: Text)
    requires Lifecycle(p)
    ensures id in p.outcomes ==> Lifecycle(Finished(p, id))
  {
    hide OnlineIffConnected, TokensSound, IndexSound, AgentsSound;
  }

  /** In every run with atomic policy updates: an agent is online exactly when a connection is registered for it, a
      pending agent has no key, an unused token is for an agent without a key, an alias names one agent of its owner,
      and an agent's policy version is the version of its policy. */
  lemma {:induction false} LifecycleOfRuns(
    sys: System, config: Config, verifies: Verifier, events: seq<Event>, last: System)
    requires Lifecycle(sys.plane) && Runs(sys, config, verifies, events, last)
    requires forall i :: 0 <= i < |events| ==> Atomic(events[i])
    ensures Lifecycle(last.plane)
    decreases |events|
  {
    hide Lifecycle, Effect;
    if events != [] {
      assert Atomic(events[0]);
      assert forall i :: 0 <= i < |events[1..]| ==> events[1..][i] == events[i + 1];
      EffectKeeps(sys.plane, config, verifies, events[0]);
      LifecycleOfRuns(Next(sys, config, verifies, events[0]), config, verifies, events[1..], last);
    }
  }

  lemma StartIsSound()
    ensures Lifecycle(START.plane)
  {}

  // ---- What never goes back ----

  /** What a step does to the record of one agent that is more than going online or offline or being revoked. */
  datatype Change = NoChange | PolicyChanged(a: Text) | KeyGiven(a: Text)

  ghost predicate PolicySound(g: Agent) { g.policyVersion == g.policy.version >= 1 && g.profile == g.policy.profile }

  /** An agent's record one step later: who it is, a key it has and its revocation stay, it does not become pending,
      and its policy is the same or the next. */
  ghost predicate Progresses(g: Agent, h: Agent, a: Text, change: Change) {
    h.userId == g.userId && h.alias == g.alias
    && (if change == KeyGiven(a) then g.publicKey.None? && h.publicKey.Some? && h.status == Offline
        else h.publicKey == g.publicKey)
    && (g.status == Revoked ==> h.status == Revoked)
    && (h.status == Pending ==> g.status == Pending)
    && if change == PolicyChanged(a) then h.policyVersion == g.policyVersion + 1 && (PolicySound(g) ==> PolicySound(h))
       else h.policyVersion == g.policyVersion && h.policy == g.policy && h.profile == g.profile
  }

  ghost predicate AgentsProgress(was: map<Text, Agent>, now: map<Text, Agent>, change: Change) {
    was.Keys <= now.Keys
    && (forall a :: a in was ==> Progresses(was[a], now[a], a, change))
    && forall a :: a in now && a !in was ==> SoundAgent(now[a])
  }

  /** The tokens stay, and a used one stays used. */
  ghost predicate TokensProgress(was: map<Text, Token>, now: map<Text, Token>) {
    was.Keys <= now.Keys
    && forall t :: t in was ==> now[t].agentId == was[t].agentId && (was[t].used ==> now[t].used)
  }

  /** The change that a step makes: a policy update by someone who may, or an enrollment that succeeds. */
  ghost function ChangeBy(p: Plane, e: Event): Change {
    match e.op
    case UpdatePolicyOp(principal, name, _, _, _) =>
      var target := Resolve(p, principal.userId, name);
      if HasCapability(principal, AgentsAdmin) && target.Some? then PolicyChanged(target.value) else NoChange
    case EnrollOp(tokenHash, publicKey, keyIsValid, host) =>
      var reply := Enroll(p, tokenHash, publicKey, keyIsValid, host, e.now).1;
      if reply.Done? then KeyGiven(reply.value.agentId) else NoChange
    case _ => NoChange
  }

  lemma OfflineProgresses(agents: map<Text, Agent>, gone: set<Text>)
    ensures AgentsProgress(agents, TakenOffline(agents, gone), NoChange)
  {}

  lemma ClosedProgresses(p: Plane, s: nat)
    ensures AgentsProgress(p.agents, Closed(p, s).agents, NoChange)
    ensures AgentsProgress(p.agents, SocketLost(p, s).agents, NoChange)
    ensures Closed(p, s).agents.Keys == p.agents.Keys
  {
    hide AgentsProgress;
    SameProgresses(p.agents);
    OfflineProgresses(p.agents, Gone(p.connections, s, SocketAt(MarkedClosed(p, s).sockets, s).handlers));
  }

  lemma SameProgresses(agents: map<Text, Agent>)
    ensures AgentsProgress(agents, agents, NoChange)
  {}

  lemma RefusedProgresses(p: Plane, s: nat, code: ErrorCode)
    ensures AgentsProgress(p.agents, Refused(p, s, code).agents, NoChange)
  {
    hide Closed, AgentsProgress;
    SendFrame(p, s, Problem(code));
    ClosedProgresses(Send(p, s, Problem(code)), s);
  }

  lemma RewrittenProgresses(was: map<Text, Agent>, now: map<Text, Agent>, a: Text, g: Agent, change: Change)
    requires AgentsProgress(was, now, NoChange) && a in was && Progresses(was[a], g, a, change)
    requires change == NoChange || change == PolicyChanged(a) || change == KeyGiven(a)
    ensures AgentsProgress(was, now[a := g], change)
  {
    hide SoundAgent;
  }

  lemma RegisteredProgresses(p: Plane, s: nat, m: Message, now: int)
    requires m.Hello? && Enrolled(p, m.agentId)
    ensures AgentsProgress(p.agents, Registered(p, s, m, now).agents, NoChange)
  {
    hide AgentsProgress, Closed, Send, Remembered, Set;
    var a, agent := m.agentId, p.agents[m.agentId];
    var p1 := p.(helloNonces := p.helloNonces[a := Set(HelloNonces(p, a), Entry(m.nonce, now + AGENT_NONCE_TTL_MS))]);
    var p2 := if a in p.connections then Closed(p1, p.connections[a].socket) else p1;
    SameProgresses(p.agents);
    if a in p.connections {
      ClosedProgresses(p1, p.connections[a].socket);
    }
    var online := agent.(status := Online, host := Some(m.host));
    var p3 := p2.(connections := p2.connections[a := Live(s, Remembered([], m.nonce, now))],
                  agents := p2.agents[a := online]);
    RewrittenProgresses(p.agents, p2.agents, a, online, NoChange);
    var socket := SocketAt(p3.sockets, s);
    SendFrame(p3.(sockets := p3.sockets[s := socket.(handlers := socket.handlers + [a])]), s, Ready(a, agent.policy));
  }

  lemma ReceivedProgresses(p: Plane, verifies: Verifier, s: nat, incoming: Option<Sealed>, now: int)
    ensures var q := Received(p, verifies, s, incoming, now); AgentsProgress(p.agents, q.agents, NoChange)
    ensures var q := Received(p, verifies, s, incoming, now); q.tokens == p.tokens
  {
    hide AgentsProgress, Registered, Reported, Refused, Parses, PrunedNonces, PrunedConnections;
    RefusedProgresses(p, s, InternalError);
    RefusedFrame(p, s, InternalError);
    if incoming.Some? && incoming.value.message.Hello? {
      var problem, cleaned := HelloProblem(p, verifies, s, incoming.value, now), Cleaned(p, now);
      GreetedFrame(p, verifies, s, incoming.value, now);
      if problem.Some? {
        RefusedProgresses(p, s, problem.value);
        RefusedProgresses(cleaned, s, problem.value);
      } else {
        RegisteredProgresses(cleaned, s, incoming.value.message, now);
      }
    } else if incoming.Some? && incoming.value.message.Result? {
      SameProgresses(p.agents);
      ReportedFrame(p, verifies, s, incoming.value, now);
    }
  }

  lemma EnrollProgresses(p: Plane, e: Event, tokenHash: Text, publicKey: Text, keyIsValid: bool, host: Host)
    requires TokensSound(p.tokens, p.agents) && e.op == EnrollOp(tokenHash, publicKey, keyIsValid, host)
    ensures var q := Enroll(p, tokenHash, publicKey, keyIsValid, host, e.now).0;
            AgentsProgress(p.agents, q.agents, ChangeBy(p, e)) && TokensProgress(p.tokens, q.tokens)
  {
    hide HostParses, TokensSound, AgentsProgress, TokensProgress;
    SameProgresses(p.agents);
    SameTokens(p.tokens);
    if tokenHash in p.tokens && !p.tokens[tokenHash].used && p.tokens[tokenHash].agentId in p.agents {
      var a := p.tokens[tokenHash].agentId;
      UnusedHasNoKey(p, tokenHash);
      var enrolled := p.agents[a].(status := Offline, publicKey := Some(publicKey), host := Some(host));
      if p.agents[a].status != Revoked {
        RewrittenProgresses(p.agents, p.agents, a, enrolled, KeyGiven(a));
      }
      UsedTokenProgresses(p.tokens, tokenHash);
    }
  }

  lemma SameTokens(tokens: map<Text, Token>)
    ensures TokensProgress(tokens, tokens)
  {}

  lemma UsedTokenProgresses(tokens: map<Text, Token>, t: Text)
    requires t in tokens
    ensures TokensProgress(tokens, tokens[t := tokens[t].(used := true)])
  {}

  lemma NewTokenProgresses(tokens: map<Text, Token>, t: Text, token: Token)
    requires t !in tokens
    ensures TokensProgress(tokens, tokens[t := token])
  {}

  lemma NewAgentProgresses(agents: map<Text, Agent>, a: Text, g: Agent)
    requires a !in agents && SoundAgent(g)
    ensures AgentsProgress(agents, agents[a := g], NoChange)
  {}

  lemma UnusedHasNoKey(p: Plane, t: Text)
    requires TokensSound(p.tokens, p.agents) && t in p.tokens && !p.tokens[t].used
    ensures p.tokens[t].agentId in p.agents && p.agents[p.tokens[t].agentId].publicKey.None?
  {}

  lemma UpdateProgresses(
    p: Plane, config: Config, principal: Principal, a: Text, patch: PolicyPatch, nonce: Text, signature: Text, now: int)
    requires a in p.agents
    ensures var q := UpdatePolicy(p, config, principal, a, p.agents[a], patch, nonce, signature, now).0;
            AgentsProgress(
              p.agents, q.agents, if HasCapability(principal, AgentsAdmin) then PolicyChanged(a) else NoChange)
  {
    hide NextPolicy, HasCapability, AgentsProgress, Send;
    var agent := p.agents[a];
    var version := agent.policyVersion + 1;
    var policy := NextPolicy(config, version, patch);
    var updated := agent.(profile := policy.profile, policy := policy, policyVersion := version);
    NextPolicyVersion(config, version, patch);
    SameProgresses(p.agents);
    RewrittenProgresses(p.agents, p.agents, a, updated, PolicyChanged(a));
    if a in p.connections {
      var written := p.(agents := p.agents[a := updated]);
      var sealed := Sealed(PolicyUpdate(a, policy, version, now, nonce), signature);
      SendFrame(written.(signed := written.signed + [sealed]), p.connections[a].socket, Command(sealed));
    }
  }

  lemma RevokeProgresses(p: Plane, principal: Principal, a: Text)
    requires a in p.agents
    ensures AgentsProgress(p.agents, Revoke(p, principal, a).0.agents, NoChange)
  {
    hide AgentsProgress, Closed, HasCapability;
    SameProgresses(p.agents);
    var revoked := p.agents[a].(status := Revoked);
    var written := p.(agents := p.agents[a := revoked]);
    RewrittenProgresses(p.agents, p.agents, a, revoked, NoChange);
    if a in p.connections {
      var s := p.connections[a].socket;
      ClosedProgresses(written, s);
      ProgressIsTransitive(p.agents, written.agents, Closed(written, s).agents);
    }
  }

  lemma ProgressIsTransitive(x: map<Text, Agent>, y: map<Text, Agent>, z: map<Text, Agent>)
    requires AgentsProgress(x, y, NoChange) && AgentsProgress(y, z, NoChange) && x.Keys == y.Keys
    ensures AgentsProgress(x, z, NoChange)
  {}

  /** A policy version rises by one in the step that updates the policy and in no other; keys and revocation are for
      good; a used token is never unused again. */
  lemma EffectProgresses(p: Plane, config: Config, verifies: Verifier, e: Event)
    requires TokensSound(p.tokens, p.agents)
    ensures var q := Effect(p, config, verifies, e);
            AgentsProgress(p.agents, q.agents, ChangeBy(p, e)) && TokensProgress(p.tokens, q.tokens)
  {
    hide TokensSound, AgentsProgress, TokensProgress, CreateToken, Enroll, Received, SocketLost, UpdatePolicy, Revoke,
      Dispatch, Resolve, HasCapability, PrunedNonces, PrunedConnections;
    match e.op
    case CreateTokenOp(principal, alias, profile, agentId, tokenHash) =>
      CreateProgresses(p, config, principal, alias, profile, agentId, tokenHash, e.now);
    case EnrollOp(tokenHash, publicKey, keyIsValid, host) =>
      EnrollProgresses(p, e, tokenHash, publicKey, keyIsValid, host);
    case ReceiveOp(s, incoming) =>
      SameTokens(p.tokens);
      ReceivedProgresses(p, verifies, s, incoming, e.now);
    case UpdatePolicyOp(principal, name, patch, nonce, signature) =>
      UpdateOpProgresses(p, config, verifies, e);
    case RevokeOp(principal, name) => RevokeOpProgresses(p, config, verifies, e);
    case DispatchOp(_, _, _, _, _, _, _, _) => DispatchOpProgresses(p, config, verifies, e);
    case LostOp(s) =>
      SameTokens(p.tokens);
      ClosedFrame(p, s);
      ClosedProgresses(p, s);
    case _ => OthersProgress(p, config, verifies, e);
  }

  lemma UpdateOpProgresses(p: Plane, config: Config, verifies: Verifier, e: Event)
    requires e.op.UpdatePolicyOp?
    ensures var q := Effect(p, config, verifies, e);
            AgentsProgress(p.agents, q.agents, ChangeBy(p, e)) && q.tokens == p.tokens
            && TokensProgress(p.tokens, q.tokens)
  {
    hide AgentsProgress, TokensProgress, UpdatePolicy, Resolve, HasCapability;
    SameProgresses(p.agents);
    SameTokens(p.tokens);
    var target := Resolve(p, e.op.principal.userId, e.op.name);
    if target.Some? {
      var a := target.value;
      UpdatePolicyFrame(p, config, e.op.principal, a, p.agents[a], e.op.patch, e.op.nonce, e.op.signature, e.now);
      UpdateProgresses(p, config, e.op.principal, a, e.op.patch, e.op.nonce, e.op.signature, e.now);
    }
  }

  lemma RevokeOpProgresses(p: Plane, config: Config, verifies: Verifier, e: Event)
    requires e.op.RevokeOp?
    ensures var q := Effect(p, config, verifies, e);
            AgentsProgress(p.agents, q.agents, ChangeBy(p, e)) && TokensProgress(p.tokens, q.tokens)
  {
    hide AgentsProgress, TokensProgress, Revoke, Resolve, HasCapability;
    SameProgresses(p.agents);
    SameTokens(p.tokens);
    var target := Resolve(p, e.op.principal.userId, e.op.name);
    if target.Some? {
      RevokeFrame(p, e.op.principal, target.value);
      RevokeProgresses(p, e.op.principal, target.value);
    }
  }

  lemma DispatchOpProgresses(p: Plane, config: Config, verifies: Verifier, e: Event)
    requires e.op.DispatchOp?
    ensures var q := Effect(p, config, verifies, e);
            AgentsProgress(p.agents, q.agents, ChangeBy(p, e)) && TokensProgress(p.tokens, q.tokens)
  {
    hide AgentsProgress, TokensProgress, Dispatch;
    SameProgresses(p.agents);
    SameTokens(p.tokens);
    var o := e.op;
    DispatchFrame(
      p, config, o.principal, o.name, o.tool, o.args, o.requested, o.actionId, o.nonce, o.signature, e.now);
  }

  lemma OthersProgress(p: Plane, config: Config, verifies: Verifier, e: Event)
    requires !e.op.CreateTokenOp? && !e.op.EnrollOp? && !e.op.ReceiveOp? && !e.op.UpdatePolicyOp? && !e.op.RevokeOp?
    requires !e.op.DispatchOp? && !e.op.LostOp?
    ensures var q := Effect(p, config, verifies, e);
            AgentsProgress(p.agents, q.agents, ChangeBy(p, e)) && TokensProgress(p.tokens, q.tokens)
  {
    hide AgentsProgress, TokensProgress, Effect, ChangeBy;
    SameProgresses(p.agents);
    SameTokens(p.tokens);
    OthersChangeNothing(p, config, verifies, e);
  }

  lemma OthersChangeNothing(p: Plane, config: Config, verifies: Verifier, e: Event)
    requires !e.op.CreateTokenOp? && !e.op.EnrollOp? && !e.op.ReceiveOp? && !e.op.UpdatePolicyOp? && !e.op.RevokeOp?
    requires !e.op.DispatchOp? && !e.op.LostOp?
    ensures var q := Effect(p, config, verifies, e);
            q.agents == p.agents && q.tokens == p.tokens && ChangeBy(p, e) == NoChange
  {
    hide Settled, Finished, Cleaned, CreateToken, Enroll, Received, SocketLost, UpdatePolicy, Revoke, Dispatch, Resolve,
      HasCapability;
    match e.op
    case TimeoutOp(id) => SettledFrame(p, id, Rejected(AgentTimeout));
    case FinishOp(id) => FinishedFrame(p, id);
    case CleanOp => CleanedFrame(p, e.now);
    case _ =>
  }

  lemma CreateProgresses(
    p: Plane, config: Config, principal: Principal, alias: Text, profile: Profile, agentId: Text, tokenHash: Text,
    now: int)
    ensures var q := CreateToken(p, config, principal, alias, profile, agentId, tokenHash, now).0;
            AgentsProgress(p.agents, q.agents, NoChange) && TokensProgress(p.tokens, q.tokens)
  {
    hide CreateAgentPolicy, HasCapability, ByAlias, AgentsProgress, TokensProgress, SoundAgent;
    SameProgresses(p.agents);
    SameTokens(p.tokens);
    if agentId !in p.agents {
      var q := CreateToken(p, config, principal, alias, profile, agentId, tokenHash, now).0;
      if agentId in q.agents {
        var chosen := if profile == Operations || profile == FullAdmin then profile else ReadOnly;
        NewPolicyIsSound(principal.userId, alias, chosen);
        NewAgentProgresses(p.agents, agentId, q.agents[agentId]);
      }
      if tokenHash !in p.tokens && tokenHash in q.tokens {
        NewTokenProgresses(p.tokens, tokenHash, q.tokens[tokenHash]);
      }
    }
  }

  /** What holds of an agent from here to the end of any run. */
  ghost predicate Settles(p: Plane, q: Plane) {
    p.agents.Keys <= q.agents.Keys && TokensProgress(p.tokens, q.tokens)
    && forall a :: a in p.agents ==> Outlives(p.agents[a], q.agents[a])
  }

  ghost predicate Outlives(g: Agent, h: Agent) {
    h.userId == g.userId && h.alias == g.alias && (g.publicKey.Some? ==> h.publicKey == g.publicKey)
    && (g.status == Revoked ==> h.status == Revoked) && h.policyVersion >= g.policyVersion
  }

  lemma SettlesStep(p: Plane, q: Plane, r: Plane, change: Change)
    requires AgentsProgress(p.agents, q.agents, change) && TokensProgress(p.tokens, q.tokens) && Settles(q, r)
    ensures Settles(p, r)
  {
    forall a | a in p.agents ensures Outlives(p.agents[a], r.agents[a]) {
      assert Progresses(p.agents[a], q.agents[a], a, change) && Outlives(q.agents[a], r.agents[a]);
    }
  }

  /** In every run with atomic updates a revoked agent stays revoked, a key is never replaced, a used token stays used
      and no policy version falls. */
  lemma {:induction false} RevocationIsForGood(
    sys: System, config: Config, verifies: Verifier, events: seq<Event>, last: System)
    requires Lifecycle(sys.plane) && Runs(sys, config, verifies, events, last)
    requires forall i :: 0 <= i < |events| ==> Atomic(events[i])
    ensures Settles(sys.plane, last.plane)
    decreases |events|
  {
    if events != [] {
      hide Lifecycle, Effect, Settles, AgentsProgress, TokensProgress;
      assert Atomic(events[0]);
      assert forall i :: 0 <= i < |events[1..]| ==> events[1..][i] == events[i + 1];
      EffectKeeps(sys.plane, config, verifies, events[0]);
      EffectProgresses(sys.plane, config, verifies, events[0]);
      var next := Next(sys, config, verifies, events[0]);
      RevocationIsForGood(next, config, verifies, events[1..], last);
      SettlesStep(sys.plane, next.plane, last.plane, ChangeBy(sys.plane, events[0]));
    }
  }

  /** A token that has enrolled an agent enrolls nothing more in any run with atomic updates, and the agent keeps its
      key. */
  lemma TokenEnrollsOnce(
    sys: System, config: Config, verifies: Verifier, first: Event, events: seq<Event>, last: System, publicKey: Text,
    host: Host, now: int)
    requires Lifecycle(sys.plane) && first.op.EnrollOp? && Enabled(sys, first)
    requires var o := first.op; Enroll(sys.plane, o.tokenHash, o.publicKey, o.keyIsValid, o.host, first.now).1.Done?
    requires Runs(Next(sys, config, verifies, first), config, verifies, events, last)
    requires forall i :: 0 <= i < |events| ==> Atomic(events[i])
    ensures Enroll(last.plane, first.op.tokenHash, publicKey, true, host, now).1.Failed?
    ensures var a := sys.plane.tokens[first.op.tokenHash].agentId;
            a in last.plane.agents && last.plane.agents[a].publicKey == Some(first.op.publicKey)
  {
    hide Lifecycle, Enroll, Runs, Outlives, Enabled, Next, Effect, TokensProgress;
    var o, next := first.op, Next(sys, config, verifies, first);
    EnrolledState(sys.plane, o.tokenHash, o.publicKey, o.keyIsValid, o.host, first.now);
    NextIsEnroll(sys, config, verifies, first);
    EffectKeeps(sys.plane, config, verifies, first);
    RevocationIsForGood(next, config, verifies, events, last);
    KeptForGood(next.plane, last.plane, o.tokenHash, sys.plane.tokens[o.tokenHash].agentId);
    UsedTokenFails(last.plane, o.tokenHash, publicKey, host, now);
  }

  lemma NextIsEnroll(sys: System, config: Config, verifies: Verifier, e: Event)
    requires e.op.EnrollOp?
    ensures var o, next := e.op, Next(sys, config, verifies, e);
            next.plane == Effect(sys.plane, config, verifies, e)
            && next.plane == Enroll(sys.plane, o.tokenHash, o.publicKey, o.keyIsValid, o.host, e.now).0
  {
    hide Enroll;
  }

  lemma KeptForGood(p: Plane, q: Plane, t: Text, a: Text)
    requires Settles(p, q) && t in p.tokens && p.tokens[t].used && a in p.agents && p.agents[a].publicKey.Some?
    ensures t in q.tokens && q.tokens[t].used && a in q.agents && q.agents[a].publicKey == p.agents[a].publicKey
  {
    assert Outlives(p.agents[a], q.agents[a]);
  }

  lemma EnrolledState(p: Plane, tokenHash: Text, publicKey: Text, keyIsValid: bool, host: Host, now: int)
    requires Enroll(p, tokenHash, publicKey, keyIsValid, host, now).1.Done?
    ensures var q := Enroll(p, tokenHash, publicKey, keyIsValid, host, now).0;
            tokenHash in p.tokens && tokenHash in q.tokens && q.tokens[tokenHash].used
            && var a := p.tokens[tokenHash].agentId; a in q.agents && q.agents[a].publicKey == Some(publicKey)
  {
    hide HostParses;
  }

  lemma UsedTokenFails(p: Plane, tokenHash: Text, publicKey: Text, host: Host, now: int)
    requires tokenHash in p.tokens && p.tokens[tokenHash].used
    ensures Enroll(p, tokenHash, publicKey, true, host, now).1.Failed?
  {
    hide HostParses;
  }
}

/** Policy updates in two steps: PATCH reads the agent's record, waits for the rest of its body, and then writes the
    whole record back (src/remote/control-plane.ts, lines 786-801). What survives in every run, what does not, and
    exactly when one write does no harm. */
module PatchRaces {
  import opened JsText
  import opened CanonicalJson
  import opened RemoteTypes
  import opened Envelopes
  import opened NonceWindows
  import opened Planes
  import opened PlaneRuns
  import opened AgentLifecycle

  // ---- What survives ----

  ghost predicate PatchableAgent(g: Agent) { (g.status == Pending ==> g.publicKey.None?) && PolicySound(g) }

  ghost predicate AgentsPatchable(agents: map<Text, Agent>) {
    forall a :: a in agents ==> PatchableAgent(agents[a])
  }

  /** What a PATCH has read is a record of the same agent. */
  ghost predicate EditsSound(edits: map<nat, Edit>, agents: map<Text, Agent>) {
    forall k :: k in edits ==> EditSound(edits[k], agents)
  }

  ghost predicate EditSound(x: Edit, agents: map<Text, Agent>) {
    x.a in agents && PatchableAgent(x.agent) && x.agent.userId == agents[x.a].userId
    && x.agent.alias == agents[x.a].alias
  }

  /** As long as its token is unused, no record of an agent with a key has been read. */
  ghost predicate EditsKeyless(edits: map<nat, Edit>, tokens: map<Text, Token>) {
    forall k, t :: k in edits && t in tokens && !tokens[t].used && edits[k].a == tokens[t].agentId ==>
      edits[k].agent.publicKey.None?
  }

  ghost predicate Patchable(sys: System) {
    AgentsPatchable(sys.plane.agents) && TokensSound(sys.plane.tokens, sys.plane.agents)
    && IndexSound(sys.plane.aliases, sys.plane.agents)
    && EditsSound(sys.edits, sys.plane.agents) && EditsKeyless(sys.edits, sys.plane.tokens)
  }

  lemma ProgressPatchable(was: map<Text, Agent>, now: map<Text, Agent>, change: Change)
    requires AgentsPatchable(was) && AgentsProgress(was, now, change)
    ensures AgentsPatchable(now)
  {
    forall a | a in now ensures PatchableAgent(now[a]) {
      if a in was {
        assert PatchableAgent(was[a]) && Progresses(was[a], now[a], a, change);
      } else {
        assert SoundAgent(now[a]);
      }
    }
  }

  lemma ProgressEdits(edits: map<nat, Edit>, was: map<Text, Agent>, now: map<Text, Agent>, change: Change)
    requires EditsSound(edits, was) && AgentsProgress(was, now, change)
    ensures EditsSound(edits, now)
  {
    hide PatchableAgent;
    forall k | k in edits ensures EditSound(edits[k], now) {
      assert EditSound(edits[k], was) && Progresses(was[edits[k].a], now[edits[k].a], edits[k].a, change);
    }
  }

  // ---- Tokens and aliases ----

  /** The tokens, the aliases and the set of agents are the same. */
  ghost predicate SameStore(p: Plane, q: Plane) {
    q.tokens == p.tokens && q.aliases == p.aliases && q.agents.Keys == p.agents.Keys
  }

  lemma SameStoreTransitive(p: Plane, q: Plane, r: Plane)
    requires SameStore(p, q) && SameStore(q, r)
    ensures SameStore(p, r)
  {}

  lemma ClosedStore(p: Plane, s: nat)
    ensures SameStore(p, Closed(p, s)) && SameStore(p, SocketLost(p, s))
  {
    hide Gone;
    ClosedFrame(p, s);
    OfflineKeys(p.agents, Gone(p.connections, s, SocketAt(MarkedClosed(p, s).sockets, s).handlers));
    hide TakenOffline;
  }

  lemma OfflineKeys(agents: map<Text, Agent>, gone: set<Text>)
    ensures TakenOffline(agents, gone).Keys == agents.Keys
  {}

  lemma RefusedStore(p: Plane, s: nat, code: ErrorCode)
    ensures SameStore(p, Refused(p, s, code))
  {
    hide Closed, Send;
    SendFrame(p, s, Problem(code));
    ClosedStore(Send(p, s, Problem(code)), s);
  }

  lemma UpdateStore(
    p: Plane, config: Config, principal: Principal, a: Text, agent: Agent, patch: PolicyPatch, nonce: Text,
    signature: Text, now: int)
    ensures SameStore(p, UpdatePolicy(p, config, principal, a, agent, patch, nonce, signature, now).0)
  {
    hide NextPolicy, HasCapability, Send;
    UpdatePolicyFrame(p, config, principal, a, agent, patch, nonce, signature, now);
    var version := agent.policyVersion + 1;
    var policy := NextPolicy(config, version, patch);
    var updated := agent.(profile := policy.profile, policy := policy, policyVersion := version);
    var written := p.(agents := if a in p.agents then p.agents[a := updated] else p.agents);
    SameKeysAfter(p.agents, a, updated);
    if a in p.connections {
      var sealed := Sealed(PolicyUpdate(a, policy, version, now, nonce), signature);
      SendFrame(written.(signed := written.signed + [sealed]), p.connections[a].socket, Command(sealed));
    }
  }

  lemma SameKeysAfter(agents: map<Text, Agent>, a: Text, g: Agent)
    ensures a in agents ==> agents[a := g].Keys == agents.Keys
  {}

  lemma RevokeStore(p: Plane, principal: Principal, a: Text)
    requires a in p.agents
    ensures SameStore(p, Revoke(p, principal, a).0)
  {
    hide Closed, HasCapability;
    var written := p.(agents := p.agents[a := p.agents[a].(status := Revoked)]);
    if a in p.connections {
      ClosedStore(written, p.connections[a].socket);
    }
  }

  lemma RegisteredStore(p: Plane, s: nat, m: Message, now: int)
    requires m.Hello? && m.agentId in p.agents
    ensures SameStore(p, Registered(p, s, m, now))
  {
    hide Closed, Send, Remembered, Set;
    var a, agent := m.agentId, p.agents[m.agentId];
    var p1 := p.(helloNonces := p.helloNonces[a := Set(HelloNonces(p, a), Entry(m.nonce, now + AGENT_NONCE_TTL_MS))]);
    var p2 := if a in p.connections then Closed(p1, p.connections[a].socket) else p1;
    if a in p.connections {
      ClosedStore(p1, p.connections[a].socket);
    }
    var p3 := p2.(connections := p2.connections[a := Live(s, Remembered([], m.nonce, now))],
                  agents := p2.agents[a := agent.(status := Online, host := Some(m.host))]);
    var socket := SocketAt(p3.sockets, s);
    SendFrame(p3.(sockets := p3.sockets[s := socket.(handlers := socket.handlers + [a])]), s, Ready(a, agent.policy));
  }

  lemma GreetedStore(p: Plane, verifies: Verifier, s: nat, hello: Sealed, now: int)
    requires hello.message.Hello?
    ensures SameStore(p, Greeted(p, verifies, s, hello, now))
  {
    hide Registered, Refused, PrunedNonces, PrunedConnections, SameStore;
    var problem, cleaned := HelloProblem(p, verifies, s, hello, now), Cleaned(p, now);
    CleanedStore(p, now);
    if problem.Some? {
      RefusedStore(p, s, problem.value);
      RefusedStore(cleaned, s, problem.value);
      SameStoreTransitive(p, cleaned, Refused(cleaned, s, problem.value));
    } else {
      RegisteredStore(cleaned, s, hello.message, now);
      SameStoreTransitive(p, cleaned, Registered(cleaned, s, hello.message, now));
    }
  }

  lemma CleanedStore(p: Plane, now: int)
    ensures SameStore(p, Cleaned(p, now))
  {}

  lemma ReportedStore(p: Plane, verifies: Verifier, s: nat, result: Sealed, now: int)
    requires result.message.Result?
    ensures SameStore(p, Reported(p, verifies, s, result, now))
  {
    hide Judged;
  }

  lemma ReceivedStore(p: Plane, verifies: Verifier, s: nat, incoming: Option<Sealed>, now: int)
    ensures SameStore(p, Received(p, verifies, s, incoming, now))
  {
    hide Greeted, Reported, Refused, Parses, SameStore;
    RefusedStore(p, s, InternalError);
    if incoming.Some? && incoming.value.message.Hello? {
      GreetedStore(p, verifies, s, incoming.value, now);
    } else if incoming.Some? && incoming.value.message.Result? {
      ReportedStore(p, verifies, s, incoming.value, now);
    }
  }

  lemma ActionStepStore(
    p: Plane, config: Config, principal: Principal, name: Text, tool: Tool, args: map<Text, Doc>,
    requested: Requested, actionId: Text, nonce: Text, signature: Text, now: int)
    ensures SameStore(
      p, Dispatch(p, config, principal, name, tool, args, requested, actionId, nonce, signature, now).0)
  {
    hide Dispatch;
    DispatchFrame(p, config, principal, name, tool, args, requested, actionId, nonce, signature, now);
  }

  lemma SettlingStore(p: Plane, id: Text, outcome: Outcome)
    ensures SameStore(p, p) && SameStore(p, Settled(p, id, outcome))
    ensures id in p.outcomes ==> SameStore(p, Finished(p, id))
  {}

  /** Steps other than creating a token and enrolling leave tokens, aliases and the set of agents alone. */
  lemma StoreFrame(p: Plane, config: Config, verifies: Verifier, e: Event)
    requires !e.op.CreateTokenOp? && !e.op.EnrollOp?
    ensures SameStore(p, Effect(p, config, verifies, e))
  {
    hide CreateToken, Enroll, Received, SocketLost, UpdatePolicy, Revoke, Dispatch, Settled, Finished, Cleaned, Resolve,
      SameStore;
    SettlingStore(p, [], Rejected(AgentTimeout));
    match e.op
    case ReceiveOp(s, incoming) => ReceivedStore(p, verifies, s, incoming, e.now);
    case LostOp(s) => ClosedStore(p, s);
    case UpdatePolicyOp(principal, name, patch, nonce, signature) =>
      var target := Resolve(p, principal.userId, name);
      if target.Some? {
        UpdateStore(p, config, principal, target.value, p.agents[target.value], patch, nonce, signature, e.now);
      }
    case RevokeOp(principal, name) =>
      var target := Resolve(p, principal.userId, name);
      if target.Some? {
        RevokeStore(p, principal, target.value);
      }
    case DispatchOp(principal, name, tool, args, requested, actionId, nonce, signature) =>
      ActionStepStore(p, config, principal, name, tool, args, requested, actionId, nonce, signature, e.now);
    case TimeoutOp(id) => SettlingStore(p, id, Rejected(AgentTimeout));
    case FinishOp(id) => SettlingStore(p, id, Rejected(AgentTimeout));
    case CleanOp => CleanedStore(p, e.now);
    case _ =>
  }

  /** Tokens that appear are for agents that appear, and used tokens stay used. */
  ghost predicate TokensOnlyAge(p: Plane, q: Plane) {
    p.agents.Keys <= q.agents.Keys
    && (forall t :: t in p.tokens ==> t in q.tokens && q.tokens[t].agentId == p.tokens[t].agentId
                                      && (p.tokens[t].used ==> q.tokens[t].used))
    && forall t :: t in q.tokens && t !in p.tokens ==> q.tokens[t].agentId !in p.agents
  }

  lemma NextAges(sys: System, config: Config, verifies: Verifier, e: Event)
    ensures TokensOnlyAge(sys.plane, Next(sys, config, verifies, e).plane)
  {
    hide Effect, UpdatePolicy, Resolve, SameStore;
    var p, q := sys.plane, Next(sys, config, verifies, e).plane;
    if e.op.CreateTokenOp? {
      CreateAges(p, config, verifies, e);
    } else if e.op.EnrollOp? {
      EnrollAges(p, config, verifies, e);
    } else {
      StoreFrame(p, config, verifies, e);
      SettlingStore(p, [], Rejected(AgentTimeout));
      if e.op.WritePatchOp? && e.op.edit in sys.edits {
        var x := sys.edits[e.op.edit];
        UpdateStore(p, config, x.principal, x.a, x.agent, e.op.patch, e.op.nonce, e.op.signature, e.now);
      }
      SameStoreAges(p, q);
    }
  }

  lemma SameStoreAges(p: Plane, q: Plane)
    requires SameStore(p, q)
    ensures TokensOnlyAge(p, q)
  {}

  lemma SameTokensAge(p: Plane, q: Plane)
    requires q.tokens == p.tokens && p.agents.Keys <= q.agents.Keys
    ensures TokensOnlyAge(p, q)
  {}

  lemma NewTokenAges(p: Plane, q: Plane, t: Text, token: Token)
    requires q.tokens == p.tokens[t := token] && p.agents.Keys <= q.agents.Keys
    requires if t in p.tokens then token == p.tokens[t].(used := true) else token.agentId !in p.agents
    ensures TokensOnlyAge(p, q)
  {}

  lemma CreateAges(p: Plane, config: Config, verifies: Verifier, e: Event)
    requires e.op.CreateTokenOp?
    ensures TokensOnlyAge(p, Effect(p, config, verifies, e))
  {
    hide CreateAgentPolicy, HasCapability, ByAlias, TokensOnlyAge;
    var q, o := Effect(p, config, verifies, e), e.op;
    if q.tokens == p.tokens {
      SameTokensAge(p, q);
    } else {
      NewTokenAges(p, q, o.tokenHash, Token(o.agentId, e.now + config.enrollmentTokenTtlSeconds * 1000, false));
    }
  }

  lemma EnrollAges(p: Plane, config: Config, verifies: Verifier, e: Event)
    requires e.op.EnrollOp?
    ensures TokensOnlyAge(p, Effect(p, config, verifies, e))
  {
    hide HostParses, TokensOnlyAge;
    var q, t := Effect(p, config, verifies, e), e.op.tokenHash;
    if q.tokens == p.tokens {
      SameTokensAge(p, q);
    } else {
      NewTokenAges(p, q, t, p.tokens[t].(used := true));
    }
  }

  lemma SameKeysSameIdentities(was: map<Text, Agent>, now: map<Text, Agent>, change: Change)
    requires AgentsProgress(was, now, change) && was.Keys == now.Keys && !change.KeyGiven?
    ensures SameIdentities(was, now)
  {
    forall a | a in was
      ensures now[a].userId == was[a].userId && now[a].alias == was[a].alias && now[a].publicKey == was[a].publicKey
    {
      assert Progresses(was[a], now[a], a, change);
    }
  }

  lemma OthersPatchable(sys: System, config: Config, verifies: Verifier, e: Event)
    requires Patchable(sys) && !e.op.CreateTokenOp? && !e.op.EnrollOp?
    ensures Patchable(sys.(plane := Effect(sys.plane, config, verifies, e)))
  {
    hide AgentsPatchable, TokensSound, IndexSound, EditsSound, EditsKeyless, Effect, AgentsProgress, TokensProgress,
      SameIdentities;
    var p, q := sys.plane, Effect(sys.plane, config, verifies, e);
    EffectProgresses(p, config, verifies, e);
    ProgressPatchable(p.agents, q.agents, ChangeBy(p, e));
    ProgressEdits(sys.edits, p.agents, q.agents, ChangeBy(p, e));
    StoreFrame(p, config, verifies, e);
    SameKeysSameIdentities(p.agents, q.agents, ChangeBy(p, e));
    IdentitiesSuffice(p, q);
  }

  lemma EnrollPatchable(sys: System, config: Config, verifies: Verifier, e: Event)
    requires Patchable(sys) && e.op.EnrollOp?
    ensures Patchable(sys.(plane := Effect(sys.plane, config, verifies, e)))
  {
    hide AgentsPatchable, TokensSound, IndexSound, EditsSound, EditsKeyless, AgentsProgress, TokensProgress, HostParses;
    var p, q, t := sys.plane, Effect(sys.plane, config, verifies, e), e.op.tokenHash;
    EffectProgresses(p, config, verifies, e);
    ProgressPatchable(p.agents, q.agents, ChangeBy(p, e));
    ProgressEdits(sys.edits, p.agents, q.agents, ChangeBy(p, e));
    if t in p.tokens {
      var a := p.tokens[t].agentId;
      UsedKeepsKeyless(sys.edits, p.tokens, t);
      TokenAgent(p, t);
      var g := p.agents[a].(status := Offline, publicKey := Some(e.op.publicKey), host := Some(e.op.host));
      UsedTokenIsSound(p.tokens, p.agents, t, g);
      RenewedIsIndexed(p.aliases, p.agents, a, g);
    }
  }

  lemma TokenAgent(p: Plane, t: Text)
    requires TokensSound(p.tokens, p.agents) && t in p.tokens
    ensures p.tokens[t].agentId in p.agents
  {}

  lemma UsedKeepsKeyless(edits: map<nat, Edit>, tokens: map<Text, Token>, t: Text)
    requires EditsKeyless(edits, tokens) && t in tokens
    ensures EditsKeyless(edits, tokens[t := tokens[t].(used := true)])
  {}

  lemma CreatePatchable(sys: System, config: Config, verifies: Verifier, e: Event)
    requires Patchable(sys) && e.op.CreateTokenOp?
    ensures Patchable(sys.(plane := Effect(sys.plane, config, verifies, e)))
  {
    hide AgentsPatchable, TokensSound, IndexSound, EditsSound, EditsKeyless, AgentsProgress, TokensProgress,
      CreateAgentPolicy, HasCapability, ByAlias;
    var p, q, o := sys.plane, Effect(sys.plane, config, verifies, e), e.op;
    EffectProgresses(p, config, verifies, e);
    ProgressPatchable(p.agents, q.agents, ChangeBy(p, e));
    ProgressEdits(sys.edits, p.agents, q.agents, ChangeBy(p, e));
    if o.agentId !in p.agents && (o.principal.userId, o.alias) !in p.aliases {
      var chosen := if o.profile == Operations || o.profile == FullAdmin then o.profile else ReadOnly;
      var policy := CreateAgentPolicy(chosen);
      var g := Agent(o.principal.userId, o.alias, Pending, None, policy.profile, policy, policy.version, None);
      NewAgentIsIndexed(p.aliases, p.agents, o.agentId, g);
      NewAgentHasNoToken(p.tokens, p.agents, o.agentId, g);
      if o.tokenHash !in p.tokens {
        var token := Token(o.agentId, e.now + config.enrollmentTokenTtlSeconds * 1000, false);
        NewTokenIsSound(p.tokens, p.agents[o.agentId := g], o.tokenHash, token);
        NewTokenKeepsKeyless(sys, o.tokenHash, token);
      }
    }
  }

  lemma NewAgentIsIndexed(aliases: map<(Text, Text), Text>, agents: map<Text, Agent>, a: Text, g: Agent)
    requires IndexSound(aliases, agents) && a !in agents && (g.userId, g.alias) !in aliases
    ensures IndexSound(aliases[(g.userId, g.alias) := a], agents[a := g])
  {}

  lemma NewAgentHasNoToken(tokens: map<Text, Token>, agents: map<Text, Agent>, a: Text, g: Agent)
    requires TokensSound(tokens, agents) && a !in agents
    ensures TokensSound(tokens, agents[a := g]) && forall t :: t in tokens ==> tokens[t].agentId != a
  {}

  lemma NewTokenIsSound(tokens: map<Text, Token>, agents: map<Text, Agent>, t: Text, token: Token)
    requires TokensSound(tokens, agents) && t !in tokens
    requires token.agentId in agents && agents[token.agentId].publicKey.None?
    requires forall u :: u in tokens ==> tokens[u].agentId != token.agentId
    ensures TokensSound(tokens[t := token], agents)
  {}

  lemma NewTokenKeepsKeyless(sys: System, t: Text, token: Token)
    requires EditsKeyless(sys.edits, sys.plane.tokens) && EditsSound(sys.edits, sys.plane.agents)
    requires token.agentId !in sys.plane.agents
    ensures EditsKeyless(sys.edits, sys.plane.tokens[t := token])
  {
    hide PatchableAgent;
    assert forall k :: k in sys.edits ==> EditSound(sys.edits[k], sys.plane.agents);
  }

  lemma ReadPatchable(sys: System, config: Config, verifies: Verifier, e: Event)
    requires Patchable(sys) && e.op.ReadForPatchOp?
    ensures Patchable(Next(sys, config, verifies, e))
  {
    hide IndexSound, Resolve, TokensSound, AgentsPatchable, EditsSound, EditsKeyless;
    var target := Resolve(sys.plane, e.op.principal.userId, e.op.name);
    if target.Some? {
      MoreEdits(sys, e.op.edit, Edit(e.op.principal, target.value, sys.plane.agents[target.value]));
    }
  }

  lemma MoreEdits(sys: System, k: nat, x: Edit)
    requires Patchable(sys) && x.a in sys.plane.agents && x.agent == sys.plane.agents[x.a]
    ensures EditsSound(sys.edits[k := x], sys.plane.agents) && EditsKeyless(sys.edits[k := x], sys.plane.tokens)
  {
    hide IndexSound;
    assert EditSound(x, sys.plane.agents);
  }

  /** What a write leaves: the record as it was read, with the new policy. */
  lemma WriteRestores(
    p: Plane, config: Config, principal: Principal, a: Text, agent: Agent, patch: PolicyPatch, nonce: Text,
    signature: Text, now: int)
    requires HasCapability(principal, AgentsAdmin) && a in p.agents
    ensures var q := UpdatePolicy(p, config, principal, a, agent, patch, nonce, signature, now).0;
            a in q.agents
            && var g := q.agents[a];
               q.agents == p.agents[a := g]
               && g == agent.(profile := g.profile, policy := g.policy, policyVersion := agent.policyVersion + 1)
               && g.policy.version == g.policyVersion && g.profile == g.policy.profile
               && q == p.(agents := q.agents, sockets := q.sockets, signed := q.signed)
  {
    hide NextPolicy, HasCapability;
    NextPolicyVersion(config, agent.policyVersion + 1, patch);
  }

  lemma WritePatchable(sys: System, config: Config, verifies: Verifier, e: Event)
    requires Patchable(sys) && e.op.WritePatchOp? && e.op.edit in sys.edits
    ensures Patchable(Next(sys, config, verifies, e))
  {
    hide UpdatePolicy, HasCapability, AgentsPatchable, TokensSound, IndexSound, EditsSound, EditsKeyless;
    var p, x := sys.plane, sys.edits[e.op.edit];
    FewerEdits(sys, e.op.edit);
    if HasCapability(x.principal, AgentsAdmin) {
      WriteRestores(p, config, x.principal, x.a, x.agent, e.op.patch, e.op.nonce, e.op.signature, e.now);
      var q := UpdatePolicy(p, config, x.principal, x.a, x.agent, e.op.patch, e.op.nonce, e.op.signature, e.now).0;
      WrittenPatchable(sys, x, q.agents[x.a], e.op.edit);
    } else {
      RefusedUpdate(p, config, x, e);
    }
  }

  lemma RefusedUpdate(p: Plane, config: Config, x: Edit, e: Event)
    requires !HasCapability(x.principal, AgentsAdmin) && e.op.WritePatchOp?
    ensures UpdatePolicy(p, config, x.principal, x.a, x.agent, e.op.patch, e.op.nonce, e.op.signature, e.now).0 == p
  {
    hide HasCapability;
  }

  lemma FewerEdits(sys: System, k: nat)
    requires EditsSound(sys.edits, sys.plane.agents) && EditsKeyless(sys.edits, sys.plane.tokens)
    ensures EditsSound(sys.edits - {k}, sys.plane.agents) && EditsKeyless(sys.edits - {k}, sys.plane.tokens)
    ensures k in sys.edits ==> sys.edits[k].a in sys.plane.agents
  {
    hide PatchableAgent;
    assert k in sys.edits ==> EditSound(sys.edits[k], sys.plane.agents);
    assert forall j :: j in sys.edits - {k} ==> EditSound(sys.edits[j], sys.plane.agents);
  }

  lemma WrittenPatchable(sys: System, x: Edit, g: Agent, k: nat)
    requires Patchable(sys) && k in sys.edits && x == sys.edits[k]
    requires g == x.agent.(profile := g.profile, policy := g.policy, policyVersion := x.agent.policyVersion + 1)
    requires g.policy.version == g.policyVersion && g.profile == g.policy.profile
    ensures x.a in sys.plane.agents
    ensures var agents := sys.plane.agents[x.a := g];
            AgentsPatchable(agents) && TokensSound(sys.plane.tokens, agents) && IndexSound(sys.plane.aliases, agents)
            && EditsSound(sys.edits - {k}, agents)
  {
    var p := sys.plane;
    assert EditSound(x, p.agents);
    assert PatchableAgent(g);
    var agents := p.agents[x.a := g];
    forall j | j in sys.edits - {k} ensures EditSound(sys.edits[j], agents) {
      assert EditSound(sys.edits[j], p.agents);
    }
    assert TokensSound(p.tokens, agents) by {
      hide IndexSound, EditsSound, AgentsPatchable;
    }
    hide *;
    RenewedIsIndexed(p.aliases, p.agents, x.a, g);
  }

  lemma NextPatchable(sys: System, config: Config, verifies: Verifier, e: Event)
    requires Patchable(sys) && Enabled(sys, e)
    ensures Patchable(Next(sys, config, verifies, e))
  {
    hide Patchable, Effect;
    if e.op.ReadForPatchOp? {
      ReadPatchable(sys, config, verifies, e);
    } else if e.op.WritePatchOp? {
      WritePatchable(sys, config, verifies, e);
    } else {
      if e.op.CreateTokenOp? {
        CreatePatchable(sys, config, verifies, e);
      } else if e.op.EnrollOp? {
        EnrollPatchable(sys, config, verifies, e);
      } else {
        OthersPatchable(sys, config, verifies, e);
      }
      ClockIsIrrelevant(sys.(plane := Effect(sys.plane, config, verifies, e)), e.now);
    }
  }

  lemma ClockIsIrrelevant(sys: System, now: int)
    requires Patchable(sys)
    ensures Patchable(sys.(clock := now))
  {}

  /** In every run, with PATCH requests in two steps: a pending agent has no key, an unused token is for an agent
      without a key, aliases name one agent of their owner, and a policy version is the version of the policy. */
  lemma {:induction false} WhatSurvives(
    sys: System, config: Config, verifies: Verifier, events: seq<Event>, last: System)
    requires Patchable(sys) && Runs(sys, config, verifies, events, last)
    ensures Patchable(last)
    decreases |events|
  {
    hide Patchable, Next, Enabled;
    if events != [] {
      NextPatchable(sys, config, verifies, events[0]);
      WhatSurvives(Next(sys, config, verifies, events[0]), config, verifies, events[1..], last);
    }
  }

  lemma StartIsPatchable()
    ensures Patchable(START)
  {}

  // ---- What does not ----

  /** The write of a PATCH keeps Lifecycle exactly when the record it read was online if and only if the agent is
      connected now. */
  lemma WriteKeepsLifecycleExactlyWhen(p: Plane, config: Config, x: Edit, e: Event)
    requires Lifecycle(p) && HasCapability(x.principal, AgentsAdmin) && e.op.WritePatchOp?
    requires EditSound(x, p.agents) && SoundAgent(x.agent) && EditsKeyless(map[e.op.edit := x], p.tokens)
    ensures Lifecycle(
              UpdatePolicy(p, config, x.principal, x.a, x.agent, e.op.patch, e.op.nonce, e.op.signature, e.now).0)
            <==> (x.agent.status == Online <==> x.a in p.connections)
  {
    hide UpdatePolicy, HasCapability;
    var q := UpdatePolicy(p, config, x.principal, x.a, x.agent, e.op.patch, e.op.nonce, e.op.signature, e.now).0;
    WriteRestores(p, config, x.principal, x.a, x.agent, e.op.patch, e.op.nonce, e.op.signature, e.now);
    var g := q.agents[x.a];
    hide IndexSound, TokensSound, AgentsSound;
    if x.agent.status == Online <==> x.a in p.connections {
      WrittenLifecycle(p, q, x, g, e.op.edit);
    }
  }

  lemma WrittenLifecycle(p: Plane, q: Plane, x: Edit, g: Agent, k: nat)
    requires Lifecycle(p) && EditSound(x, p.agents) && SoundAgent(x.agent) && EditsKeyless(map[k := x], p.tokens)
    requires g == x.agent.(profile := g.profile, policy := g.policy, policyVersion := x.agent.policyVersion + 1)
    requires g.policy.version == g.policyVersion && g.profile == g.policy.profile
    requires q.agents == p.agents[x.a := g] && q.tokens == p.tokens && q.aliases == p.aliases
    requires q.connections == p.connections && (x.agent.status == Online <==> x.a in p.connections)
    ensures Lifecycle(q)
  {
    assert AgentsSound(q.agents) by {
      hide TokensSound, IndexSound, OnlineIffConnected, EditsKeyless;
    }
    WrittenTokens(p, x, g, k);
    hide *;
    WrittenIsOnline(p, x, g);
    RenewedIsOnline(p.agents, p.connections, p.connections, x.a, g);
    WrittenIsIndexed(p, x, g);
  }

  lemma WrittenTokens(p: Plane, x: Edit, g: Agent, k: nat)
    requires TokensSound(p.tokens, p.agents) && EditsKeyless(map[k := x], p.tokens) && x.a in p.agents
    requires g.publicKey == x.agent.publicKey
    ensures TokensSound(p.tokens, p.agents[x.a := g])
  {
    assert map[k := x][k] == x;
  }

  lemma WrittenIsOnline(p: Plane, x: Edit, g: Agent)
    requires EditSound(x, p.agents) && g.status == x.agent.status
    requires x.agent.status == Online <==> x.a in p.connections
    ensures x.a in p.agents && (x.a in p.connections <==> g.status == Online)
  {}

  lemma WrittenIsIndexed(p: Plane, x: Edit, g: Agent)
    requires IndexSound(p.aliases, p.agents) && EditSound(x, p.agents)
    requires g.userId == x.agent.userId && g.alias == x.agent.alias
    ensures IndexSound(p.aliases, p.agents[x.a := g])
  {
    RenewedIsIndexed(p.aliases, p.agents, x.a, g);
  }

  function ReadRevokeWrite(
    principal: Principal, name: Text, edit: nat, patch: PolicyPatch, nonce: Text, signature: Text, now: int): seq<Event>
  {
    [Event(ReadForPatchOp(edit, principal, name), now), Event(RevokeOp(principal, name), now),
     Event(WritePatchOp(edit, patch, nonce, signature), now)]
  }

  lemma RunsOfThree(
    sys: System, config: Config, verifies: Verifier, events: seq<Event>, s1: System, s2: System, s3: System)
    requires |events| == 3 && Enabled(sys, events[0]) && s1 == Next(sys, config, verifies, events[0])
    requires Enabled(s1, events[1]) && s2 == Next(s1, config, verifies, events[1])
    requires Enabled(s2, events[2]) && s3 == Next(s2, config, verifies, events[2])
    ensures Runs(sys, config, verifies, events, s3)
  {
    hide Next, Enabled;
    assert events[1..][0] == events[1] && events[1..][1..] == events[2..] && events[2..][0] == events[2];
    assert events[2..][1..] == [];
    assert Runs(s3, config, verifies, [], s3);
    assert Runs(s2, config, verifies, events[2..], s3);
    assert Runs(s1, config, verifies, events[1..], s3);
  }

  /** Revocation can be undone: from any state of the lifecycle, an agent that is revoked between the two steps of a
      PATCH has its former status afterwards, and is online without a connection if it was online. */
  lemma RevocationUndone(
    sys: System, config: Config, verifies: Verifier, principal: Principal, name: Text, edit: nat, patch: PolicyPatch,
    nonce: Text, signature: Text)
    requires Lifecycle(sys.plane) && HasCapability(principal, AgentsAdmin)
    requires Resolve(sys.plane, principal.userId, name).Some?
    ensures exists last: System ::
              Runs(sys, config, verifies,
                   ReadRevokeWrite(principal, name, edit, patch, nonce, signature, sys.clock), last)
              && var a := Resolve(sys.plane, principal.userId, name).value;
                 a in last.plane.agents && last.plane.agents[a].status == sys.plane.agents[a].status
                 && a !in last.plane.connections
  {
    hide UpdatePolicy, Revoke, Resolve, HasCapability, Lifecycle;
    var a, now := Resolve(sys.plane, principal.userId, name).value, sys.clock;
    var events := ReadRevokeWrite(principal, name, edit, patch, nonce, signature, now);
    var s1 := Next(sys, config, verifies, events[0]);
    var s2 := Next(s1, config, verifies, events[1]);
    var s3 := Next(s2, config, verifies, events[2]);
    var x := s1.edits[edit];
    RevokedIsDisconnected(sys.plane, principal, a);
    WriteRestores(s2.plane, config, principal, a, x.agent, patch, nonce, signature, now);
    RunsOfThree(sys, config, verifies, events, s1, s2, s3);
  }

  lemma RevokedIsDisconnected(p: Plane, principal: Principal, a: Text)
    requires a in p.agents && HasCapability(principal, AgentsAdmin)
    ensures var q := Revoke(p, principal, a).0; a in q.agents && a !in q.connections
  {
    hide HasCapability;
    RevokeStore(p, principal, a);
  }

  /** Versions can stall or fall: after the write the version is one above the version that was read, whatever it has
      become since; it is one above the current one exactly when the current one was read. */
  lemma VersionAfterWrite(p: Plane, config: Config, x: Edit, e: Event)
    requires HasCapability(x.principal, AgentsAdmin) && e.op.WritePatchOp? && x.a in p.agents
    ensures var q := UpdatePolicy(
              p, config, x.principal, x.a, x.agent, e.op.patch, e.op.nonce, e.op.signature, e.now).0;
            x.a in q.agents && q.agents[x.a].policyVersion == x.agent.policyVersion + 1
            && (q.agents[x.a].policyVersion == p.agents[x.a].policyVersion + 1
                <==> x.agent.policyVersion == p.agents[x.a].policyVersion)
  {
    hide UpdatePolicy, HasCapability;
    WriteRestores(p, config, x.principal, x.a, x.agent, e.op.patch, e.op.nonce, e.op.signature, e.now);
  }
}

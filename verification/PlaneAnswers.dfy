/** What the handlers of the control plane answer, and what they leave behind: for every state and every call, when a
    call succeeds, what it then does, and how it is refused. */
module PlaneAnswers {
  import opened JsText
  import opened CanonicalJson
  import opened RemoteTypes
  import opened Envelopes
  import opened NonceWindows
  import opened Planes
  import opened PlaneRuns
  import opened AgentLifecycle
  import opened PatchRaces
  import opened Issuance

  // ---- Names ----

  /** What a caller means by a name: the caller's own agent with this id, and if there is none, the caller's own agent
      with this alias. */
  ghost predicate Calls(p: Plane, userId: Text, name: Text, a: Text) {
    name != [] && a in p.agents && p.agents[a].userId == userId
    && (a == name
        || (p.agents[a].alias == name && !(name in p.agents && p.agents[name].userId == userId)))
  }

  lemma ResolveMeans(p: Plane, userId: Text, name: Text, a: Text)
    requires IndexSound(p.aliases, p.agents)
    ensures Resolve(p, userId, name) == Some(a) <==> Calls(p, userId, name, a)
  {}

  // ---- Dispatching ----

  /** The least of what the caller asks for, what the agent's policy allows and what the configuration allows. */
  ghost function Allowance(config: Config, policy: AgentPolicy, requested: Requested): int {
    var byPolicy, byConfig := policy.maxActionTimeoutSeconds * 1000, config.maxActionTimeoutSeconds * 1000;
    var most := if byPolicy < byConfig then byPolicy else byConfig;
    if requested.Milliseconds? && requested.ms < most then requested.ms else most
  }

  /** The call is for agent a: the caller has the tool's scope and means a by the name. */
  ghost predicate CallsFor(p: Plane, o: Op, a: Text)
    requires o.DispatchOp?
  {
    ScopeFor(o.tool) in o.principal.scopes && Calls(p, o.principal.userId, o.name, a)
  }

  /** The agent may and can be sent the call. */
  ghost predicate Serves(p: Plane, o: Op, a: Text)
    requires o.DispatchOp?
  {
    a in p.agents && PolicyAllows(p.agents[a].policy, o.tool) && p.agents[a].status != Revoked && a in p.connections
  }

  /** The deadline is an instant that JavaScript has a date for. */
  ghost predicate InTime(config: Config, agent: Agent, requested: Requested, now: int) {
    !requested.NotANumber?
    && -8_640_000_000_000_000 <= now + Allowance(config, agent.policy, requested) <= 8_640_000_000_000_000
  }

  ghost predicate MayDispatch(p: Plane, config: Config, e: Event, a: Text)
    requires e.op.DispatchOp?
  {
    CallsFor(p, e.op, a) && Serves(p, e.op, a) && InTime(config, p.agents[a], e.op.requested, e.now)
    && e.op.actionId !in p.rows
  }

  /** The request for agent a that the call asks for. */
  ghost predicate Asks(m: Message, p: Plane, config: Config, e: Event, a: Text)
    requires e.op.DispatchOp? && a in p.agents
  {
    var o := e.op;
    m.Request? && m.actionId == o.actionId && m.agentId == a && m.userId == o.principal.userId && m.tool == o.tool
    && m.capability == ToolCapability(o.tool) && m.args == o.args && m.policyVersion == p.agents[a].policyVersion
    && m.issuedAt == e.now && m.deadline == e.now + Allowance(config, p.agents[a].policy, o.requested)
    && m.nonce == o.nonce
  }

  /** The request has been signed, written to the agent's socket and kept. */
  ghost predicate Dispatched(p: Plane, q: Plane, sealed: Sealed, a: Text)
    requires sealed.message.Request? && a in p.connections
  {
    var m := sealed.message;
    var action := Action(m.userId, a, m.tool, m.capability, m.args, m.issuedAt, m.deadline);
    q.signed == p.signed + [sealed] && SentTo(p, q, p.connections[a].socket, Command(sealed))
    && q.rows == p.rows[m.actionId := Row(action, Sent, None)] && q.pending == p.pending[m.actionId := action]
    && q.timers == p.timers + {m.actionId}
    && q == p.(signed := q.signed, sockets := q.sockets, rows := q.rows, pending := q.pending, timers := q.timers)
  }

  function Answer(p: Plane, config: Config, e: Event): (Plane, Reply<Message>)
    requires e.op.DispatchOp?
  {
    var o := e.op;
    Dispatch(p, config, o.principal, o.name, o.tool, o.args, o.requested, o.actionId, o.nonce, o.signature, e.now)
  }

  lemma PolicyNeeds(policy: AgentPolicy, t: Tool)
    ensures ToolCapability(t) in policy.capabilities <==> PolicyAllows(policy, t)
  {}

  lemma TimeoutMeans(config: Config, agent: Agent, requested: Requested, now: int)
    ensures var t := TimeoutMs(config, agent, requested);
            (t.Some? ==> t.value == Allowance(config, agent.policy, requested))
            && (t.None? || Abs(now + t.value) > LATEST_INSTANT <==> !InTime(config, agent, requested, now))
  {}

  /** The checks before anything is signed come to the conditions of MayDispatch. */
  lemma ProblemMeans(p: Plane, config: Config, e: Event, a: Text)
    requires e.op.DispatchOp? && IndexSound(p.aliases, p.agents) && CallsFor(p, e.op, a)
    ensures var o := e.op;
            var problem := DispatchProblem(p, config, o.principal, o.name, o.tool, o.requested, e.now);
            Resolve(p, o.principal.userId, o.name) == Some(a)
            && (problem.None? <==> Serves(p, o, a) && InTime(config, p.agents[a], o.requested, e.now))
            && (problem.Some? ==>
                  problem.value
                  == if !PolicyAllows(p.agents[a].policy, o.tool) then CapabilityDenied
                     else if p.agents[a].status == Revoked then AgentRevoked
                     else if a !in p.connections then AgentOffline
                     else InternalError)
  {
    hide IndexSound, Resolve, HasCapability, TimeoutMs, ToolCapability, PolicyAllows, InTime, ScopeFor, Abs;
    var o := e.op;
    ResolveMeans(p, o.principal.userId, o.name, a);
    ToolNeedsItsScope(o.principal, o.tool);
    PolicyNeeds(p.agents[a].policy, o.tool);
    TimeoutMeans(config, p.agents[a], o.requested, e.now);
  }

  lemma NobodyCalled(p: Plane, config: Config, e: Event)
    requires e.op.DispatchOp? && IndexSound(p.aliases, p.agents) && forall a :: !CallsFor(p, e.op, a)
    ensures var o := e.op;
            DispatchProblem(p, config, o.principal, o.name, o.tool, o.requested, e.now)
            == Some(if ScopeFor(o.tool) in o.principal.scopes then AgentNotFound else InvalidScope)
  {
    hide IndexSound, Resolve, HasCapability, TimeoutMs, ToolCapability, ScopeFor, Calls;
    var o := e.op;
    ToolNeedsItsScope(o.principal, o.tool);
    var target := Resolve(p, o.principal.userId, o.name);
    if target.Some? {
      assert !CallsFor(p, o, target.value);
      ResolveMeans(p, o.principal.userId, o.name, target.value);
    }
  }

  /** A call is dispatched if and only if the caller has the tool's scope, means an agent of its own by the name, and
      this agent's policy enables the tool, it is neither revoked nor offline, the deadline is a date and the action id
      is new. Then exactly the request for this agent is signed, sent and kept. */
  lemma DispatchedExactlyWhen(p: Plane, config: Config, e: Event, a: Text)
    requires e.op.DispatchOp? && IndexSound(p.aliases, p.agents) && CallsFor(p, e.op, a)
    ensures var (q, reply) := Answer(p, config, e);
            (reply.Done? <==> MayDispatch(p, config, e, a))
            && (reply.Done? ==>
                  Asks(reply.value, p, config, e, a) && Dispatched(p, q, Sealed(reply.value, e.op.signature), a))
  {
    hide IndexSound, DispatchProblem, Resolve, TimeoutMs, InTime, Serves, ToolCapability, SentTo, Send;
    var o := e.op;
    ProblemMeans(p, config, e, a);
    if DispatchProblem(p, config, o.principal, o.name, o.tool, o.requested, e.now).None? {
      Unrefused(p, config, o.principal, o.name, o.tool, o.requested, e.now);
      var ms := TimeoutMs(config, p.agents[a], o.requested).value;
      TimeoutMeans(config, p.agents[a], o.requested, e.now);
      IssueSends(p, config, o.principal, a, o.tool, o.args, ms, o.actionId, o.nonce, o.signature, e.now);
      IssueKeeps(p, config, e, a, ms);
    }
  }

  lemma IssueKeeps(p: Plane, config: Config, e: Event, a: Text, ms: int)
    requires e.op.DispatchOp? && a in p.agents && a in p.connections
    ensures var o := e.op;
            var (q, reply) :=
              Issue(p, config, o.principal, a, o.tool, o.args, ms, o.actionId, o.nonce, o.signature, e.now);
            (reply.Done? <==> o.actionId !in p.rows)
            && (reply.Done? ==>
                  reply.value
                  == Request(o.actionId, a, o.principal.userId, o.tool, ToolCapability(o.tool), o.args,
                             p.agents[a].policyVersion, e.now, e.now + ms, o.nonce)
                  && var action :=
                       Action(o.principal.userId, a, o.tool, ToolCapability(o.tool), o.args, e.now, e.now + ms);
                     q.signed == p.signed + [Sealed(reply.value, o.signature)]
                     && q.rows == p.rows[o.actionId := Row(action, Sent, None)]
                     && q.pending == p.pending[o.actionId := action] && q.timers == p.timers + {o.actionId})
            && q == p.(signed := q.signed, sockets := q.sockets, rows := q.rows, pending := q.pending,
                       timers := q.timers)
  {
    hide ToolCapability;
  }

  /** How a call is refused: without the scope, for a name that means nobody, by the agent's policy, because the agent
      is revoked or offline, or - when the deadline is no date or the action id is in use - with an internal error.
      Only in the last case something is signed, and nothing is ever sent. */
  lemma RefusedExactlyWhy(p: Plane, config: Config, e: Event, a: Text)
    requires e.op.DispatchOp? && IndexSound(p.aliases, p.agents)
    requires CallsFor(p, e.op, a) || forall b :: !CallsFor(p, e.op, b)
    ensures var (q, reply) := Answer(p, config, e);
            if reply.Done? then CallsFor(p, e.op, a)
            else
              reply.code
              == (if ScopeFor(e.op.tool) !in e.op.principal.scopes then InvalidScope
                  else if !Calls(p, e.op.principal.userId, e.op.name, a) then AgentNotFound
                  else if !PolicyAllows(p.agents[a].policy, e.op.tool) then CapabilityDenied
                  else if p.agents[a].status == Revoked then AgentRevoked
                  else if a !in p.connections then AgentOffline
                  else InternalError)
              && q == p.(signed := q.signed)
              && (q.signed != p.signed ==> e.op.actionId in p.rows)
  {
    hide IndexSound, DispatchProblem, Resolve, TimeoutMs, InTime, ToolCapability, SentTo, Send, ScopeFor,
      PolicyAllows, Calls;
    var o := e.op;
    if CallsFor(p, o, a) {
      ProblemMeans(p, config, e, a);
      if DispatchProblem(p, config, o.principal, o.name, o.tool, o.requested, e.now).None? {
        Unrefused(p, config, o.principal, o.name, o.tool, o.requested, e.now);
      }
    } else {
      NobodyCalled(p, config, e);
    }
  }

  // ---- Creating agents and tokens ----

  ghost predicate AliasIsFree(p: Plane, userId: Text, alias: Text) {
    forall a :: a in p.agents && p.agents[a].userId == userId ==> p.agents[a].alias != alias
  }

  /** A new agent of this owner: read-only, unless operations or full-admin was asked for. */
  ghost predicate IsNewAgent(g: Agent, userId: Text, alias: Text, asked: Profile) {
    g.userId == userId && g.alias == alias && g.status == Pending && g.publicKey.None? && g.host.None?
    && g.policyVersion == g.policy.version == 1
    && g.profile == g.policy.profile == (if asked == Custom then ReadOnly else asked)
    && (forall c: Capability ::
          c in g.policy.capabilities
          <==> c in {HostsRead, AgentsRead, SystemRead, LogsRead, AuditRead}
               || (c in {ServiceManage, DockerManage, FilesRead} && asked in {Operations, FullAdmin})
               || (c in {AgentsAdmin, FilesWrite, ShellExec, SudoExec, AgentAdmin} && asked == FullAdmin))
    && g.policy.allowPaths == DEFAULT_ALLOWED && g.policy.denyPaths == DEFAULT_DENIED
    && g.policy.allowServices == g.policy.allowContainers == (if asked == FullAdmin then [Utf16("*")] else [])
    && g.policy.maxOutputBytes == 200_000 && g.policy.maxActionTimeoutSeconds == 120
  }

  const DEFAULT_ALLOWED: seq<Text> := [Utf16("/tmp"), Utf16("/var/tmp")]
  const DEFAULT_DENIED: seq<Text> :=
    [Utf16("/"), Utf16("/etc"), Utf16("/boot"), Utf16("/dev"), Utf16("/proc"), Utf16("/sys")]

  lemma NewPolicyMeans(userId: Text, alias: Text, asked: Profile)
    ensures var policy := CreateAgentPolicy(if asked == Operations || asked == FullAdmin then asked else ReadOnly);
            IsNewAgent(
              Agent(userId, alias, Pending, None, policy.profile, policy, policy.version, None), userId, alias, asked)
  {
    hide Utf16, ProfileCapabilities;
    var profile := if asked == Operations || asked == FullAdmin then asked else ReadOnly;
    forall c: Capability ensures c in ProfileCapabilities(profile) <==> ProfileEnables(profile, c) {
      ProfileMeans(profile, c);
    }
  }

  lemma AliasMeans(p: Plane, userId: Text, alias: Text)
    requires IndexSound(p.aliases, p.agents)
    ensures (userId, alias) in p.aliases <==> !AliasIsFree(p, userId, alias)
    ensures (userId, alias) in p.aliases ==>
              p.aliases[(userId, alias)] in p.agents
              && ByAlias(p, userId, alias) == Some(p.aliases[(userId, alias)])
              && var holder := p.agents[p.aliases[(userId, alias)]]; holder.userId == userId && holder.alias == alias
    ensures (userId, alias) !in p.aliases ==> ByAlias(p, userId, alias).None?
    ensures forall a :: a in p.agents && p.agents[a].userId == userId && p.agents[a].alias == alias ==>
              ByAlias(p, userId, alias) == Some(a)
  {}

  /** A token is created if and only if the caller may administer agents, gives an alias that none of its agents has -
      not even a revoked one - and the ids are new. Then there is one more agent, the caller's own, with exactly the
      capabilities that were asked for, and one more token, for this agent, unused, until now and the lifetime. */
  lemma CreatedExactlyWhen(
    p: Plane, config: Config, principal: Principal, alias: Text, asked: Profile, agentId: Text, tokenHash: Text,
    now: int)
    requires IndexSound(p.aliases, p.agents)
    ensures var (q, reply) := CreateToken(p, config, principal, alias, asked, agentId, tokenHash, now);
            (reply.Done?
             <==> AgentsAdminScope in principal.scopes && alias != [] && AliasIsFree(p, principal.userId, alias)
                  && agentId !in p.agents && tokenHash !in p.tokens)
            && (reply.Done? ==>
                  agentId in q.agents && IsNewAgent(q.agents[agentId], principal.userId, alias, asked)
                  && q.agents == p.agents[agentId := q.agents[agentId]]
                  && q.aliases == p.aliases[(principal.userId, alias) := agentId]
                  && q.tokens == p.tokens[tokenHash :=
                       Token(agentId, now + config.enrollmentTokenTtlSeconds * 1000, false)]
                  && q == p.(agents := q.agents, aliases := q.aliases, tokens := q.tokens))
  {
    hide IndexSound, ByAlias, HasCapability, CreateAgentPolicy, IsNewAgent, AliasIsFree;
    ToolNeedsItsScope(principal, CreateEnrollmentToken);
    AliasMeans(p, principal.userId, alias);
    NewPolicyMeans(principal.userId, alias, asked);
  }

  /** How it is refused, with nothing changed - but when the token's hash is in use, the agent has been inserted. */
  lemma NotCreatedExactlyWhy(
    p: Plane, config: Config, principal: Principal, alias: Text, asked: Profile, agentId: Text, tokenHash: Text,
    now: int)
    requires IndexSound(p.aliases, p.agents)
    ensures var (q, reply) := CreateToken(p, config, principal, alias, asked, agentId, tokenHash, now);
            reply.Failed? ==>
              reply.code
              == (if AgentsAdminScope !in principal.scopes then InvalidScope
                  else if alias == []
                          || exists a :: a in p.agents && p.agents[a].userId == principal.userId
                                         && p.agents[a].alias == alias && p.agents[a].status != Revoked
                       then Forbidden
                  else InternalError)
              && q.tokens == p.tokens
              && (q != p ==>
                    tokenHash in p.tokens && AgentsAdminScope in principal.scopes
                    && agentId !in p.agents && agentId in q.agents && q.agents == p.agents[agentId := q.agents[agentId]]
                    && IsNewAgent(q.agents[agentId], principal.userId, alias, asked))
  {
    hide IndexSound, ByAlias, HasCapability, CreateAgentPolicy, IsNewAgent, AliasIsFree;
    ToolNeedsItsScope(principal, CreateEnrollmentToken);
    AliasMeans(p, principal.userId, alias);
    NewPolicyMeans(principal.userId, alias, asked);
  }

  // ---- Enrolling ----

  ghost predicate HostFits(h: Host) {
    1 <= |h.hostname| <= 255 && 1 <= |h.os| <= 128 && 1 <= |h.arch| <= 64 && 1 <= |h.platform| <= 128
  }

  ghost predicate TokenOpens(p: Plane, tokenHash: Text, now: int) {
    tokenHash in p.tokens && !p.tokens[tokenHash].used && now <= p.tokens[tokenHash].expiresAt
  }

  /** An agent is enrolled if and only if its host is described, its key is one, its token is known, unused and not
      over, and the token's agent exists and is not revoked. Then this agent has that key and host and is offline, and
      the token is used; the answer is the agent's id with its policy. */
  lemma EnrolledExactlyWhen(
    p: Plane, tokenHash: Text, publicKey: Text, keyIsValid: bool, host: Host, now: int)
    ensures var (q, reply) := Enroll(p, tokenHash, publicKey, keyIsValid, host, now);
            (reply.Done?
             <==> HostFits(host) && keyIsValid && TokenOpens(p, tokenHash, now)
                  && p.tokens[tokenHash].agentId in p.agents && p.agents[p.tokens[tokenHash].agentId].status != Revoked)
            && if reply.Done? then
                 var a := p.tokens[tokenHash].agentId;
                 reply.value == Enrollment(a, p.agents[a].policy)
                 && q == p.(tokens := p.tokens[tokenHash := p.tokens[tokenHash].(used := true)],
                            agents := p.agents[a :=
                              p.agents[a].(status := Offline, publicKey := Some(publicKey), host := Some(host))])
               else
                 q == p
                 && reply.code
                    == if !HostFits(host) then InternalError
                       else if !keyIsValid then Forbidden
                       else if !TokenOpens(p, tokenHash, now) then InvalidToken
                       else AgentNotFound
  {}

  // ---- Policies ----

  ghost function Least(a: int, b: int): int { if a < b then a else b }

  /** What a patch makes of a policy: whatever it mentions is as it says, and the rest is as the profile has it, with no
      limit above the configuration's. */
  ghost predicate IsPatched(policy: AgentPolicy, patch: PolicyPatch, config: Config, version: int) {
    var full := patch.profile == Some(FullAdmin);
    policy.profile == (if patch.profile.Some? then patch.profile.value else Custom)
    && (forall c: Capability ::
          c in policy.capabilities
          <==> if c in patch.capabilities then patch.capabilities[c] else ProfileEnables(policy.profile, c))
    && policy.allowPaths == (if patch.allowPaths.Some? then patch.allowPaths.value else DEFAULT_ALLOWED)
    && policy.denyPaths == (if patch.denyPaths.Some? then patch.denyPaths.value else DEFAULT_DENIED)
    && policy.allowServices
       == (if patch.allowServices.Some? then patch.allowServices.value else if full then [Utf16("*")] else [])
    && policy.allowContainers
       == (if patch.allowContainers.Some? then patch.allowContainers.value else if full then [Utf16("*")] else [])
    && policy.maxOutputBytes
       == Least(if patch.maxOutputBytes.Some? then patch.maxOutputBytes.value else 200_000, config.maxOutputBytes)
    && policy.maxActionTimeoutSeconds
       == Least(if patch.maxActionTimeoutSeconds.Some? then patch.maxActionTimeoutSeconds.value else 120,
                config.maxActionTimeoutSeconds)
    && policy.version == version
  }

  lemma NextPolicyMeans(config: Config, version: int, patch: PolicyPatch)
    ensures IsPatched(NextPolicy(config, version, patch), patch, config, version)
  {
    hide Utf16, ProfileCapabilities, ProfileEnables;
    var profile := Or(patch.profile, Custom);
    forall c: Capability
      ensures c in ProfileCapabilities(profile) <==> ProfileEnables(profile, c)
      ensures c in REMOTE_CAPABILITIES
    {
      ProfileMeans(profile, c);
      EveryCapability(c);
    }
  }

  /** A policy is updated if and only if the caller may administer agents. Then the record that was read is written back
      with the patched policy under the next version, and exactly this policy is signed and sent to the agent if a
      connection is registered for it. */
  lemma UpdatedExactlyWhen(
    p: Plane, config: Config, principal: Principal, a: Text, agent: Agent, patch: PolicyPatch, nonce: Text,
    signature: Text, now: int)
    ensures var (q, reply) := UpdatePolicy(p, config, principal, a, agent, patch, nonce, signature, now);
            if AgentsAdminScope !in principal.scopes then q == p && reply == Failed(InvalidScope)
            else
              reply.Done? && IsPatched(reply.value.policy, patch, config, agent.policyVersion + 1)
              && reply.value == agent.(profile := reply.value.policy.profile, policy := reply.value.policy,
                                       policyVersion := agent.policyVersion + 1)
              && q.agents == (if a in p.agents then p.agents[a := reply.value] else p.agents)
              && q == p.(agents := q.agents, signed := q.signed, sockets := q.sockets)
              && var sealed := Sealed(
                   PolicyUpdate(a, reply.value.policy, agent.policyVersion + 1, now, nonce), signature);
                 if a in p.connections then
                   q.signed == p.signed + [sealed] && SentTo(p, q, p.connections[a].socket, Command(sealed))
                 else q.signed == p.signed && q.sockets == p.sockets
  {
    hide NextPolicy, HasCapability, Send, SentTo, IsPatched;
    ToolNeedsItsScope(principal, RemoteTypes.UpdateAgentPolicy);
    var version := agent.policyVersion + 1;
    var policy := NextPolicy(config, version, patch);
    NextPolicyMeans(config, version, patch);
    var updated := agent.(profile := policy.profile, policy := policy, policyVersion := version);
    var written := p.(agents := if a in p.agents then p.agents[a := updated] else p.agents);
    if a in p.connections {
      var sealed := Sealed(PolicyUpdate(a, policy, version, now, nonce), signature);
      var signed := written.(signed := written.signed + [sealed]);
      var s := p.connections[a].socket;
      SendFrame(signed, s, Command(sealed));
      SendSends(signed, s, Command(sealed));
      SentAlike(signed, p, Send(signed, s, Command(sealed)), s, Command(sealed));
    }
  }

  /** An agent is revoked if and only if the caller may administer agents. Then its record says so and is otherwise as
      it was, no connection is registered for it, and the socket it was on is closed. */
  lemma RevokedExactlyWhen(p: Plane, principal: Principal, a: Text)
    requires a in p.agents
    ensures var (q, reply) := Revoke(p, principal, a);
            if AgentsAdminScope !in principal.scopes then q == p && reply == Failed(InvalidScope)
            else
              reply == Done(()) && a in q.agents && q.agents[a] == p.agents[a].(status := Revoked)
              && a !in q.connections
              && (a in p.connections ==> SocketAt(q.sockets, p.connections[a].socket).closed)
  {
    hide HasCapability, Closed;
    ToolNeedsItsScope(principal, RemoteTypes.RevokeAgent);
    if a in p.connections {
      ClosedLeavesRevoked(p.(agents := p.agents[a := p.agents[a].(status := Revoked)]), p.connections[a].socket, a);
    }
  }

  lemma ClosedLeavesRevoked(p: Plane, s: nat, a: Text)
    requires a in p.agents && p.agents[a].status == Revoked
    ensures var q := Closed(p, s); a in q.agents && q.agents[a] == p.agents[a] && SocketAt(q.sockets, s).closed
  {
    hide Gone;
  }

  // ---- Hello ----

  /** What the schema asks of a hello. */
  ghost predicate HelloFits(m: Message)
    requires m.Hello?
  {
    m.agentId != [] && |m.nonce| >= 16 && 1 <= |m.agentVersion| <= 128 && HostFits(m.host)
  }

  /** The hello is from an enrolled agent that is not revoked. */
  ghost predicate IsKnown(p: Plane, a: Text) {
    a in p.agents && p.agents[a].status != Revoked && p.agents[a].publicKey.Some?
  }

  /** The hello is another one on this socket, or its nonce is remembered. */
  ghost predicate IsReplayed(p: Plane, s: nat, m: Message, now: int)
    requires m.Hello?
  {
    (m.agentId in p.connections && p.connections[m.agentId].socket == s)
    || (m.agentId in p.helloNonces
        && exists n :: n in p.helloNonces[m.agentId] && n.value == m.nonce && now < n.expiresAt)
  }

  ghost predicate MayConnect(p: Plane, verifies: Verifier, s: nat, hello: Sealed, now: int)
    requires hello.message.Hello?
  {
    var m := hello.message;
    HelloFits(m) && IsKnown(p, m.agentId) && verifies(p.agents[m.agentId].publicKey.value, hello)
    && -300_000 <= now - m.timestamp <= 300_000 && !IsReplayed(p, s, m, now)
  }

  /** The agent is registered on socket s and online, both nonces are remembered for five minutes, and it has been told
      that it is ready, with its policy, if the socket is open. */
  ghost predicate Connects(p: Plane, q: Plane, s: nat, m: Message, now: int)
    requires m.Hello?
  {
    var a := m.agentId;
    a in p.agents && a in q.agents && a in q.connections && a in q.helloNonces
    && q.agents[a] == p.agents[a].(status := Online, host := Some(m.host))
    && q.connections[a] == Live(s, [Entry(m.nonce, now + 300_000)])
    && Entry(m.nonce, now + 300_000) in q.helloNonces[a]
    && IsTold(p, q, s, Ready(a, p.agents[a].policy))
  }

  ghost predicate IsTold(p: Plane, q: Plane, s: nat, out: Outgoing) {
    var was := SocketAt(p.sockets, s);
    SocketAt(q.sockets, s).sent == if was.closed then was.sent else was.sent + [out]
  }

  /** Nobody has gained a registration, on whatever socket, and s has been told why and closed. */
  ghost predicate TurnedAway(p: Plane, q: Plane, s: nat, code: ErrorCode) {
    (forall b :: b in q.connections ==> b in p.connections && q.connections[b].socket == p.connections[b].socket)
    && IsTold(p, q, s, Problem(code)) && SocketAt(q.sockets, s).closed
  }

  lemma HelloParses(m: Message)
    requires m.Hello?
    ensures Parses(m) <==> HelloFits(m)
  {
    hide Fixed, HostParses;
    HostMeans(m.host);
  }

  lemma HostMeans(h: Host)
    ensures HostParses(h) <==> HostFits(h)
  {}

  /** The handler's checks come to the conditions of MayConnect. */
  lemma HelloProblemMeans(p: Plane, verifies: Verifier, s: nat, hello: Sealed, now: int)
    requires hello.message.Hello?
    ensures var m, problem := hello.message, HelloProblem(p, verifies, s, hello, now);
            if !IsKnown(p, m.agentId) then problem == Some(AgentNotFound)
            else if !verifies(p.agents[m.agentId].publicKey.value, hello) then problem == Some(SignatureInvalid)
            else if !(-300_000 <= now - m.timestamp <= 300_000) then problem == Some(ActionExpired)
            else if IsReplayed(p, s, m, now) then problem == Some(ActionReplayDetected)
            else problem.None?
  {
    hide Pruned;
    var a := hello.message.agentId;
    CleanedHelloNonces(p, now, a);
    PrunedHas(HelloNonces(p, a), hello.message.nonce, now);
    hide Cleaned;
    CleanedFrame(p, now);
  }

  lemma CleanedHelloNonces(p: Plane, now: int, a: Text)
    ensures HelloNonces(Cleaned(p, now), a) == Pruned(HelloNonces(p, a), now)
    ensures p.connections.Keys == Cleaned(p, now).connections.Keys
    ensures forall b :: b in p.connections ==> Cleaned(p, now).connections[b].socket == p.connections[b].socket
  {
    hide Pruned;
  }

  lemma ClosedElsewhere(p: Plane, s: nat, t: nat)
    ensures var q := Closed(p, s);
            (t != s ==> SocketAt(q.sockets, t) == SocketAt(p.sockets, t))
            && SocketAt(q.sockets, s).sent == SocketAt(p.sockets, s).sent && SocketAt(q.sockets, s).closed
            && forall b :: b in q.connections ==> b in p.connections && q.connections[b] == p.connections[b]
  {
    hide TakenOffline, Gone;
    var marked := MarkedClosed(p, s);
    var gone := Gone(marked.connections, s, SocketAt(marked.sockets, s).handlers);
    assert Closed(p, s).connections == p.connections - gone || Closed(p, s).connections == p.connections;
  }

  lemma FirstNonce(nonce: Text, now: int)
    ensures Remembered([], nonce, now) == [Entry(nonce, now + 300_000)]
  {}

  lemma RegisteredConnects(p: Plane, s: nat, m: Message, now: int)
    requires m.Hello? && m.agentId in p.agents && !Has(HelloNonces(p, m.agentId), m.nonce)
    requires m.agentId in p.connections ==> p.connections[m.agentId].socket != s
    ensures Connects(p, Registered(p, s, m, now), s, m, now)
  {
    hide Closed, Remembered, Set, Has;
    var a, agent := m.agentId, p.agents[m.agentId];
    var nonces := Set(HelloNonces(p, a), Entry(m.nonce, now + AGENT_NONCE_TTL_MS));
    SetOfAbsent(HelloNonces(p, a), Entry(m.nonce, now + AGENT_NONCE_TTL_MS));
    FirstNonce(m.nonce, now);
    var p1 := p.(helloNonces := p.helloNonces[a := nonces]);
    var p2 := if a in p.connections then Closed(p1, p.connections[a].socket) else p1;
    if a in p.connections {
      ClosedElsewhere(p1, p.connections[a].socket, s);
      ClosedFrame(p1, p.connections[a].socket);
    }
    ReadyConnects(p, p2, s, m, now);
  }

  /** What is left once the old connection is closed. */
  lemma ReadyConnects(p: Plane, r: Plane, s: nat, m: Message, now: int)
    requires m.Hello? && m.agentId in p.agents && SocketAt(r.sockets, s) == SocketAt(p.sockets, s)
    requires m.agentId in r.helloNonces && Entry(m.nonce, now + 300_000) in r.helloNonces[m.agentId]
    ensures var a, agent, socket := m.agentId, p.agents[m.agentId], SocketAt(r.sockets, s);
            Connects(p, Send(r.(connections := r.connections[a := Live(s, [Entry(m.nonce, now + 300_000)])],
                                agents := r.agents[a := agent.(status := Online, host := Some(m.host))],
                                sockets := r.sockets[s := socket.(handlers := socket.handlers + [a])]),
                             s, Ready(a, agent.policy)), s, m, now)
  {}

  lemma RefusedTurnsAway(p: Plane, s: nat, code: ErrorCode)
    ensures TurnedAway(p, Refused(p, s, code), s, code)
  {
    hide Closed;
    SendFrame(p, s, Problem(code));
    ClosedElsewhere(Send(p, s, Problem(code)), s, s);
  }

  /** A hello registers its agent on the socket that it came on if and only if it fits the schema, the agent is enrolled
      and not revoked, it verifies under the agent's key, it is dated within five minutes, and neither the agent is on
      this socket already nor the nonce is remembered; otherwise nobody is registered, and the socket is told why and
      closed. */
  lemma ConnectedExactlyWhen(p: Plane, verifies: Verifier, s: nat, hello: Sealed, now: int)
    requires hello.message.Hello?
    ensures var m, q := hello.message, Received(p, verifies, s, Some(hello), now);
            if MayConnect(p, verifies, s, hello, now) then Connects(p, q, s, m, now)
            else
              TurnedAway(p, q, s,
                         if !HelloFits(m) then InternalError
                         else if !IsKnown(p, m.agentId) then AgentNotFound
                         else if !verifies(p.agents[m.agentId].publicKey.value, hello) then SignatureInvalid
                         else if !(-300_000 <= now - m.timestamp <= 300_000) then ActionExpired
                         else ActionReplayDetected)
  {
    hide HelloProblem, Parses, Refused, Registered, Cleaned, HelloFits, IsReplayed, Connects, TurnedAway, Pruned, Has;
    var m := hello.message;
    HelloParses(m);
    if !Parses(m) {
      RefusedTurnsAway(p, s, InternalError);
    } else {
      HelloProblemMeans(p, verifies, s, hello, now);
      var problem, cleaned := HelloProblem(p, verifies, s, hello, now), Cleaned(p, now);
      CleanedFrame(p, now);
      if problem.None? {
        NotReplayed(p, s, m, now);
        RegisteredConnects(cleaned, s, m, now);
        ConnectsAlike(p, cleaned, Registered(cleaned, s, m, now), s, m, now);
      } else {
        RefusedTurnsAway(p, s, problem.value);
        RefusedTurnsAway(cleaned, s, problem.value);
        CleanedHelloNonces(p, now, m.agentId);
        TurnedAwayAlike(p, cleaned, Refused(cleaned, s, problem.value), s, problem.value);
      }
    }
  }

  lemma NotReplayed(p: Plane, s: nat, m: Message, now: int)
    requires m.Hello? && !IsReplayed(p, s, m, now)
    ensures !Has(HelloNonces(Cleaned(p, now), m.agentId), m.nonce)
    ensures m.agentId in Cleaned(p, now).connections ==> Cleaned(p, now).connections[m.agentId].socket != s
  {
    hide Pruned;
    CleanedHelloNonces(p, now, m.agentId);
    PrunedHas(HelloNonces(p, m.agentId), m.nonce, now);
  }

  lemma ConnectsAlike(p: Plane, r: Plane, q: Plane, s: nat, m: Message, now: int)
    requires m.Hello? && Connects(r, q, s, m, now) && r.agents == p.agents && r.sockets == p.sockets
    ensures Connects(p, q, s, m, now)
  {}

  lemma TurnedAwayAlike(p: Plane, r: Plane, q: Plane, s: nat, code: ErrorCode)
    requires TurnedAway(r, q, s, code) && r.sockets == p.sockets && r.connections.Keys == p.connections.Keys
    requires forall b :: b in p.connections ==> r.connections[b].socket == p.connections[b].socket
    ensures TurnedAway(p, q, s, code)
  {}

  // ---- Results ----

  /** What the schema asks of a result. */
  ghost predicate ResultFits(m: Message)
    requires m.Result?
  {
    m.agentId != [] && |m.nonce| >= 16 && m.actionId != [] && IsMessage(m)
  }

  /** A result for a pending action settles it: with the result if it verifies under the key of the agent that the
      action was sent to, came on the connection registered for this agent and has a nonce not remembered there, and
      otherwise with an error that says which of these failed first. A result for any other action has no effect, and
      whatever else arrives, other than a hello, closes the socket. */
  lemma SettledExactlyHow(p: Plane, verifies: Verifier, s: nat, incoming: Option<Sealed>, now: int)
    requires incoming.Some? ==> !incoming.value.message.Hello?
    requires incoming.Some? && incoming.value.message.Result? && incoming.value.message.actionId in p.pending ==>
               incoming.value.message.actionId !in p.outcomes
    ensures var q := Received(p, verifies, s, incoming, now);
            if incoming.None? || !incoming.value.message.Result? || !ResultFits(incoming.value.message) then
              TurnedAway(p, q, s, InternalError)
            else if incoming.value.message.actionId !in p.pending then q == p
            else IsSettled(p, q, incoming.value.message.actionId, HowItEnds(p, verifies, s, incoming.value, now))
  {
    hide Reported, Refused, TurnedAway, IsMessage, HowItEnds, IsSettled;
    RefusedTurnsAway(p, s, InternalError);
    if incoming.Some? && incoming.value.message.Result? && Parses(incoming.value.message) {
      ReportedMeans(p, verifies, s, incoming.value, now);
    }
  }

  /** The action is settled in this way, and neither pending nor timed any more; all other actions are as they were. */
  ghost predicate IsSettled(p: Plane, q: Plane, id: Text, outcome: Outcome) {
    q.outcomes == p.outcomes[id := outcome] && q.pending == p.pending - {id} && q.timers == p.timers - {id}
    && q.agents == p.agents && q.sockets == p.sockets && q.signed == p.signed
  }

  ghost function HowItEnds(p: Plane, verifies: Verifier, s: nat, result: Sealed, now: int): Outcome
    requires result.message.Result? && result.message.actionId in p.pending
  {
    var m := result.message;
    if m.agentId !in p.agents || p.agents[m.agentId].publicKey.None?
       || !verifies(p.agents[m.agentId].publicKey.value, result) then Rejected(InternalError)
    else if p.pending[m.actionId].agentId != m.agentId || m.agentId !in p.connections
            || p.connections[m.agentId].socket != s then Rejected(SignatureInvalid)
    else if exists n :: n in p.connections[m.agentId].seenNonces && n.value == m.nonce && now < n.expiresAt
      then Rejected(ActionReplayDetected)
    else Resolved(result)
  }

  lemma ReportedMeans(p: Plane, verifies: Verifier, s: nat, result: Sealed, now: int)
    requires result.message.Result? && (result.message.actionId in p.pending ==> result.message.actionId !in p.outcomes)
    ensures var m, q := result.message, Reported(p, verifies, s, result, now);
            if m.actionId !in p.pending then q == p
            else IsSettled(p, q, m.actionId, HowItEnds(p, verifies, s, result, now))
  {
    hide Pruned, Remembered;
    var a := result.message.agentId;
    if a in p.connections {
      PrunedHas(p.connections[a].seenNonces, result.message.nonce, now);
    }
  }
}

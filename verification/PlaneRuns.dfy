/** The runs of the control plane: which steps are possible, and what all of them keep. */
module PlaneRuns {
  import opened JsText
  import opened CanonicalJson
  import opened RemoteTypes
  import opened Envelopes
  import opened NonceWindows
  import opened Planes

  // ---- Steps ----

  /** A PATCH request that has read the agent's record and waits for the rest of its body. */
  datatype Edit = Edit(principal: Principal, a: Text, agent: Agent)

  datatype System = System(plane: Plane, edits: map<nat, Edit>, clock: int)

  const START := System(EMPTY_PLANE, map[], 0)

  datatype Op =
    | CreateTokenOp(principal: Principal, alias: Text, profile: Profile, agentId: Text, tokenHash: Text)
    | EnrollOp(tokenHash: Text, publicKey: Text, keyIsValid: bool, host: Host)
    | ReceiveOp(s: nat, incoming: Option<Sealed>)
    | LostOp(s: nat)
    | UpdatePolicyOp(principal: Principal, name: Text, patch: PolicyPatch, nonce: Text, signature: Text)
    | ReadForPatchOp(edit: nat, principal: Principal, name: Text)
    | WritePatchOp(edit: nat, patch: PolicyPatch, nonce: Text, signature: Text)
    | RevokeOp(principal: Principal, name: Text)
    | DispatchOp(
        principal: Principal, name: Text, tool: Tool, args: map<Text, Doc>, requested: Requested, actionId: Text,
        nonce: Text, signature: Text)
    | TimeoutOp(id: Text)
    | FinishOp(id: Text)
    | CleanOp

  datatype Event = Event(op: Op, now: int)

  /** Every policy update happens in one step. */
  predicate Atomic(e: Event) { !e.op.ReadForPatchOp? && !e.op.WritePatchOp? }

  /** The clock never goes back; a timer fires and a call resumes at most once; only agent tools are dispatched, with
      JSON arguments and under fresh action ids. */
  predicate Enabled(sys: System, e: Event) {
    sys.clock <= e.now &&
    match e.op
    case TimeoutOp(id) => id in sys.plane.timers
    case FinishOp(id) => id in sys.plane.outcomes && id !in sys.plane.finished
    case DispatchOp(_, _, tool, args, _, actionId, _, _) =>
      IsAgentTool(tool) && IsDoc(DObj(args))
      && forall i :: 0 <= i < |sys.plane.signed| && sys.plane.signed[i].message.Request? ==>
           sys.plane.signed[i].message.actionId != actionId
    case WritePatchOp(edit, _, _, _) => edit in sys.edits
    case _ => true
  }

  /** What an atomic step does to the control plane. */
  function Effect(p: Plane, config: Config, verifies: Verifier, e: Event): Plane {
    match e.op
    case CreateTokenOp(principal, alias, profile, agentId, tokenHash) =>
      CreateToken(p, config, principal, alias, profile, agentId, tokenHash, e.now).0
    case EnrollOp(tokenHash, publicKey, keyIsValid, host) => Enroll(p, tokenHash, publicKey, keyIsValid, host, e.now).0
    case ReceiveOp(s, incoming) => Received(p, verifies, s, incoming, e.now)
    case LostOp(s) => SocketLost(p, s)
    case UpdatePolicyOp(principal, name, patch, nonce, signature) =>
      var target := Resolve(p, principal.userId, name);
      if target.None? then p
      else UpdatePolicy(p, config, principal, target.value, p.agents[target.value], patch, nonce, signature, e.now).0
    case RevokeOp(principal, name) =>
      var target := Resolve(p, principal.userId, name);
      if target.None? then p else Revoke(p, principal, target.value).0
    case DispatchOp(principal, name, tool, args, requested, actionId, nonce, signature) =>
      Dispatch(p, config, principal, name, tool, args, requested, actionId, nonce, signature, e.now).0
    case TimeoutOp(id) => Expired(p, id)
    case FinishOp(id) => if id in p.outcomes then Finished(p, id) else p
    case CleanOp => Cleaned(p, e.now)
    case _ => p
  }

  function Next(sys: System, config: Config, verifies: Verifier, e: Event): System {
    match e.op
    case ReadForPatchOp(edit, principal, name) =>
      var target := Resolve(sys.plane, principal.userId, name);
      if target.None? then sys.(clock := e.now)
      else
        sys.(edits := sys.edits[edit := Edit(principal, target.value, sys.plane.agents[target.value])], clock := e.now)
    case WritePatchOp(edit, patch, nonce, signature) =>
      if edit !in sys.edits then sys.(clock := e.now)
      else
        var x := sys.edits[edit];
        System(UpdatePolicy(sys.plane, config, x.principal, x.a, x.agent, patch, nonce, signature, e.now).0,
               sys.edits - {edit}, e.now)
    case _ => sys.(plane := Effect(sys.plane, config, verifies, e), clock := e.now)
  }

  /** The state after the events, each of which is possible when it happens. */
  predicate Runs(sys: System, config: Config, verifies: Verifier, events: seq<Event>, last: System)
    decreases |events|
  {
    if events == [] then last == sys
    else Enabled(sys, events[0]) && Runs(Next(sys, config, verifies, events[0]), config, verifies, events[1..], last)
  }

  // ---- What each handler leaves alone ----

  /** Nothing has happened to any action. */
  ghost predicate SameBooks(p: Plane, q: Plane) {
    q.pending == p.pending && q.timers == p.timers && q.rows == p.rows && q.outcomes == p.outcomes
    && q.finished == p.finished && q.settlements == p.settlements
  }

  /** The control plane has signed nothing more. */
  ghost predicate SameIssues(p: Plane, q: Plane) { q.signed == p.signed }

  lemma SendFrame(p: Plane, s: nat, out: Outgoing)
    ensures var q := Send(p, s, out); q == p.(sockets := q.sockets)
  {}

  lemma ClosedFrame(p: Plane, s: nat)
    ensures var q := Closed(p, s); q == p.(sockets := q.sockets, connections := q.connections, agents := q.agents)
    ensures var q := SocketLost(p, s); q == p.(sockets := q.sockets, connections := q.connections, agents := q.agents)
    ensures SameBooks(p, SocketLost(p, s)) && SameIssues(p, SocketLost(p, s))
  {}

  lemma RefusedFrame(p: Plane, s: nat, code: ErrorCode)
    ensures var q := Refused(p, s, code);
            q == p.(sockets := q.sockets, connections := q.connections, agents := q.agents)
    ensures SameBooks(p, Refused(p, s, code)) && SameIssues(p, Refused(p, s, code))
  {
    hide Closed, Send;
    SendFrame(p, s, Problem(code));
    ClosedFrame(Send(p, s, Problem(code)), s);
  }

  lemma RegisteredFrame(p: Plane, s: nat, m: Message, now: int)
    requires m.Hello? && m.agentId in p.agents
    ensures var q := Registered(p, s, m, now);
            q == p.(sockets := q.sockets, connections := q.connections, agents := q.agents,
                    helloNonces := q.helloNonces)
  {
    hide Closed, Send, Remembered, Set;
    var a, agent := m.agentId, p.agents[m.agentId];
    var p1 := p.(helloNonces := p.helloNonces[a := Set(HelloNonces(p, a), Entry(m.nonce, now + AGENT_NONCE_TTL_MS))]);
    var p2 := if a in p.connections then Closed(p1, p.connections[a].socket) else p1;
    if a in p.connections {
      ClosedFrame(p1, p.connections[a].socket);
    }
    var p3 := p2.(connections := p2.connections[a := Live(s, Remembered([], m.nonce, now))],
                  agents := p2.agents[a := agent.(status := Online, host := Some(m.host))]);
    var socket := SocketAt(p3.sockets, s);
    SendFrame(p3.(sockets := p3.sockets[s := socket.(handlers := socket.handlers + [a])]), s, Ready(a, agent.policy));
  }

  lemma GreetedFrame(p: Plane, verifies: Verifier, s: nat, hello: Sealed, now: int)
    requires hello.message.Hello?
    ensures var q := Greeted(p, verifies, s, hello, now);
            q == p.(sockets := q.sockets, connections := q.connections, agents := q.agents,
                    helloNonces := q.helloNonces)
    ensures var q := Greeted(p, verifies, s, hello, now); SameBooks(p, q) && SameIssues(p, q)
  {
    hide Registered, Refused, PrunedNonces, PrunedConnections;
    var problem, cleaned := HelloProblem(p, verifies, s, hello, now), Cleaned(p, now);
    if problem.Some? {
      RefusedFrame(p, s, problem.value);
      RefusedFrame(cleaned, s, problem.value);
    } else {
      RegisteredFrame(cleaned, s, hello.message, now);
    }
  }

  lemma ReportedFrame(p: Plane, verifies: Verifier, s: nat, result: Sealed, now: int)
    requires result.message.Result?
    ensures var q := Reported(p, verifies, s, result, now);
            q == p.(connections := q.connections, pending := q.pending, timers := q.timers, outcomes := q.outcomes,
                    settlements := q.settlements)
    ensures SameIssues(p, Reported(p, verifies, s, result, now))
  {
    hide Judged;
  }

  lemma SettledFrame(p: Plane, id: Text, outcome: Outcome)
    ensures var q := Settled(p, id, outcome);
            q == p.(pending := q.pending, timers := q.timers, outcomes := q.outcomes, settlements := q.settlements)
    ensures SameIssues(p, Settled(p, id, outcome))
  {}

  lemma FinishedFrame(p: Plane, id: Text)
    ensures id in p.outcomes ==> var q := Finished(p, id); q == p.(rows := q.rows, finished := q.finished)
    ensures id in p.outcomes ==> SameIssues(p, Finished(p, id))
  {}

  lemma CleanedFrame(p: Plane, now: int)
    ensures var q := Cleaned(p, now); q == p.(helloNonces := q.helloNonces, connections := q.connections)
    ensures SameBooks(p, Cleaned(p, now)) && SameIssues(p, Cleaned(p, now))
  {}

  lemma UpdatePolicyFrame(
    p: Plane, config: Config, principal: Principal, a: Text, agent: Agent, patch: PolicyPatch, nonce: Text,
    signature: Text, now: int)
    ensures var q := UpdatePolicy(p, config, principal, a, agent, patch, nonce, signature, now).0;
            q == p.(agents := q.agents, sockets := q.sockets, signed := q.signed)
    ensures SameBooks(p, UpdatePolicy(p, config, principal, a, agent, patch, nonce, signature, now).0)
  {
    hide NextPolicy, HasCapability, Send;
    if a in p.connections {
      var version := agent.policyVersion + 1;
      var policy := NextPolicy(config, version, patch);
      var updated := agent.(profile := policy.profile, policy := policy, policyVersion := version);
      var written := p.(agents := if a in p.agents then p.agents[a := updated] else p.agents);
      var sealed := Sealed(PolicyUpdate(a, policy, version, now, nonce), signature);
      SendFrame(written.(signed := written.signed + [sealed]), p.connections[a].socket, Command(sealed));
    }
  }

  lemma RevokeFrame(p: Plane, principal: Principal, a: Text)
    requires a in p.agents
    ensures var q := Revoke(p, principal, a).0;
            q == p.(agents := q.agents, sockets := q.sockets, connections := q.connections)
    ensures var q := Revoke(p, principal, a).0; SameBooks(p, q) && SameIssues(p, q)
  {
    hide Closed, HasCapability;
    var written := p.(agents := p.agents[a := p.agents[a].(status := Revoked)]);
    if a in p.connections {
      ClosedFrame(written, p.connections[a].socket);
    }
  }

  lemma ProblemFree(
    p: Plane, config: Config, principal: Principal, name: Text, tool: Tool, requested: Requested, now: int)
    requires DispatchProblem(p, config, principal, name, tool, requested, now).None?
    ensures var target := Resolve(p, principal.userId, name);
            target.Some? && target.value in p.connections && TimeoutMs(config, p.agents[target.value], requested).Some?
  {
    hide Resolve, HasCapability, TimeoutMs;
  }

  lemma IssueFrame(
    p: Plane, config: Config, principal: Principal, a: Text, tool: Tool, args: map<Text, Doc>, timeoutMs: int,
    actionId: Text, nonce: Text, signature: Text, now: int)
    requires a in p.agents && a in p.connections
    ensures var q := Issue(p, config, principal, a, tool, args, timeoutMs, actionId, nonce, signature, now).0;
            q == p.(signed := q.signed, rows := q.rows, pending := q.pending, timers := q.timers,
                    sockets := q.sockets)
  {}

  lemma DispatchFrame(
    p: Plane, config: Config, principal: Principal, name: Text, tool: Tool, args: map<Text, Doc>,
    requested: Requested, actionId: Text, nonce: Text, signature: Text, now: int)
    ensures var q := Dispatch(p, config, principal, name, tool, args, requested, actionId, nonce, signature, now).0;
            q == p.(signed := q.signed, rows := q.rows, pending := q.pending, timers := q.timers,
                    sockets := q.sockets)
  {
    hide DispatchProblem, Resolve, Issue;
    if DispatchProblem(p, config, principal, name, tool, requested, now).None? {
      ProblemFree(p, config, principal, name, tool, requested, now);
      var a := Resolve(p, principal.userId, name).value;
      IssueFrame(p, config, principal, a, tool, args, TimeoutMs(config, p.agents[a], requested).value, actionId, nonce,
                 signature, now);
    }
  }

  lemma CreateTokenFrame(
    p: Plane, config: Config, principal: Principal, alias: Text, profile: Profile, agentId: Text, tokenHash: Text,
    now: int)
    ensures var q := CreateToken(p, config, principal, alias, profile, agentId, tokenHash, now).0;
            q == p.(agents := q.agents, aliases := q.aliases, tokens := q.tokens)
    ensures var q := CreateToken(p, config, principal, alias, profile, agentId, tokenHash, now).0;
            SameBooks(p, q) && SameIssues(p, q)
  {
    hide ByAlias, HasCapability, CreateAgentPolicy;
  }

  lemma EnrollFrame(p: Plane, tokenHash: Text, publicKey: Text, keyIsValid: bool, host: Host, now: int)
    ensures var q := Enroll(p, tokenHash, publicKey, keyIsValid, host, now).0;
            q == p.(agents := q.agents, tokens := q.tokens)
    ensures var q := Enroll(p, tokenHash, publicKey, keyIsValid, host, now).0; SameBooks(p, q) && SameIssues(p, q)
  {
    hide HostParses;
  }

  lemma ReceivedFrame(p: Plane, verifies: Verifier, s: nat, incoming: Option<Sealed>, now: int)
    ensures SameIssues(p, Received(p, verifies, s, incoming, now))
    ensures incoming.None? || !incoming.value.message.Result? ==>
              SameBooks(p, Received(p, verifies, s, incoming, now))
  {
    hide Greeted, Reported, Refused, Parses, SameBooks, SameIssues;
    RefusedFrame(p, s, InternalError);
    if incoming.Some? {
      if incoming.value.message.Hello? {
        GreetedFrame(p, verifies, s, incoming.value, now);
      } else if incoming.value.message.Result? {
        ReportedFrame(p, verifies, s, incoming.value, now);
      }
    }
  }

  lemma SameIsSame(p: Plane)
    ensures SameBooks(p, p) && SameIssues(p, p)
  {}

  lemma EffectFrame(p: Plane, config: Config, verifies: Verifier, e: Event)
    ensures !e.op.DispatchOp? && !e.op.TimeoutOp? && !e.op.FinishOp?
            && !(e.op.ReceiveOp? && e.op.incoming.Some? && e.op.incoming.value.message.Result?) ==>
              SameBooks(p, Effect(p, config, verifies, e))
    ensures !e.op.DispatchOp? && !e.op.UpdatePolicyOp? ==> SameIssues(p, Effect(p, config, verifies, e))
  {
    hide CreateToken, Enroll, Received, SocketLost, UpdatePolicy, Revoke, Dispatch, Settled, Finished, Cleaned, Resolve,
      SameBooks, SameIssues;
    SameIsSame(p);
    match e.op
    case CreateTokenOp(principal, alias, profile, agentId, tokenHash) =>
      CreateTokenFrame(p, config, principal, alias, profile, agentId, tokenHash, e.now);
    case EnrollOp(tokenHash, publicKey, keyIsValid, host) =>
      EnrollFrame(p, tokenHash, publicKey, keyIsValid, host, e.now);
    case ReceiveOp(s, incoming) => ReceivedFrame(p, verifies, s, incoming, e.now);
    case LostOp(s) => ClosedFrame(p, s);
    case UpdatePolicyOp(principal, name, patch, nonce, signature) =>
      var target := Resolve(p, principal.userId, name);
      if target.Some? {
        UpdatePolicyFrame(p, config, principal, target.value, p.agents[target.value], patch, nonce, signature, e.now);
      }
    case RevokeOp(principal, name) =>
      var target := Resolve(p, principal.userId, name);
      if target.Some? {
        RevokeFrame(p, principal, target.value);
      }
    case DispatchOp(_, _, _, _, _, _, _, _) =>
    case TimeoutOp(id) => SettledFrame(p, id, Rejected(AgentTimeout));
    case FinishOp(id) => FinishedFrame(p, id);
    case CleanOp => CleanedFrame(p, e.now);
    case _ =>
  }
}

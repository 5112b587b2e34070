/** What the control plane signs: requests, in every run, and policy updates, in runs with atomic updates. */
module Issuance {
  import opened JsText
  import opened CanonicalJson
  import opened RemoteTypes
  import opened Envelopes
  import opened NonceWindows
  import opened Planes
  import opened PlaneRuns
  import opened AgentLifecycle
  import opened PatchRaces

  // ---- Requests ----

  /** In the state p the event e dispatches this request: the agent is the one the caller names, and the caller's own;
      the capability is the one of the tool, and the caller's scopes and the agent's policy allow it; the agent is
      connected and not revoked. */
  ghost predicate DispatchedAt(p: Plane, config: Config, e: Event, m: Message) {
    m.Request? && e.op.DispatchOp?
    && Resolve(p, e.op.principal.userId, e.op.name) == Some(m.agentId)
    && SaysTheCall(m, e) && AllowedBy(p.agents[m.agentId], e.op.principal, m)
    && p.agents[m.agentId].status != Revoked && m.agentId in p.connections
    && m.deadline <= e.now + p.agents[m.agentId].policy.maxActionTimeoutSeconds * 1000
    && m.deadline <= e.now + config.maxActionTimeoutSeconds * 1000
  }

  ghost predicate SaysTheCall(m: Message, e: Event)
    requires m.Request? && e.op.DispatchOp?
  {
    m.tool == e.op.tool && m.args == e.op.args && m.actionId == e.op.actionId && m.userId == e.op.principal.userId
    && m.issuedAt == e.now
  }

  ghost predicate AllowedBy(agent: Agent, principal: Principal, m: Message)
    requires m.Request?
  {
    agent.userId == principal.userId && IsAgentTool(m.tool) && m.capability == ToolCapability(m.tool)
    && HasCapability(principal, m.capability) && m.capability in agent.policy.capabilities
    && m.policyVersion == agent.policyVersion == agent.policy.version
  }

  /** Whatever was signed is a request or a policy update, and each request has an action id of its own. */
  ghost predicate RequestsSound(signed: seq<Sealed>) {
    (forall i :: 0 <= i < |signed| ==> Signable(signed[i].message))
    && forall i, j :: 0 <= i < j < |signed| ==> !SameAction(signed[i].message, signed[j].message)
  }

  ghost predicate Signable(m: Message) { IsMessage(m) && (m.Request? || m.PolicyUpdate?) }

  ghost predicate SameAction(m: Message, n: Message) { m.Request? && n.Request? && m.actionId == n.actionId }

  /** What the step signs, if anything: the request it dispatches, or a policy update. */
  ghost predicate SignsAt(p: Plane, config: Config, e: Event, q: Plane) {
    q.signed == p.signed
    || (|q.signed| == |p.signed| + 1 && q.signed[..|p.signed|] == p.signed
        && var m := q.signed[|p.signed|].message;
           IsMessage(m) && (m.PolicyUpdate? || DispatchedAt(p, config, e, m)))
  }

  lemma ResolvedIsOwned(p: Plane, userId: Text, name: Text)
    requires IndexSound(p.aliases, p.agents)
    ensures var r := Resolve(p, userId, name); r.Some? ==> p.agents[r.value].userId == userId
  {}

  lemma PolicyIsSound(p: Plane, a: Text)
    requires AgentsPatchable(p.agents) && a in p.agents
    ensures PolicySound(p.agents[a])
  {
    assert PatchableAgent(p.agents[a]);
  }

  lemma Unrefused(
    p: Plane, config: Config, principal: Principal, name: Text, tool: Tool, requested: Requested, now: int)
    requires DispatchProblem(p, config, principal, name, tool, requested, now).None?
    ensures var a := Resolve(p, principal.userId, name);
            a.Some? && a.value in p.connections && TimeoutMs(config, p.agents[a.value], requested).Some?
            && HasCapability(principal, ToolCapability(tool)) && p.agents[a.value].status != Revoked
            && ToolCapability(tool) in p.agents[a.value].policy.capabilities
  {
    hide Resolve, HasCapability, TimeoutMs, ToolCapability;
  }

  /** The request that a dispatch which is not refused signs. */
  function RequestOf(p: Plane, config: Config, e: Event): Message
    requires e.op.DispatchOp?
    requires var a := Resolve(p, e.op.principal.userId, e.op.name);
             a.Some? && TimeoutMs(config, p.agents[a.value], e.op.requested).Some?
  {
    var o := e.op;
    var a := Resolve(p, o.principal.userId, o.name).value;
    Request(o.actionId, a, o.principal.userId, o.tool, ToolCapability(o.tool), o.args, p.agents[a].policyVersion, e.now,
            e.now + TimeoutMs(config, p.agents[a], o.requested).value, o.nonce)
  }

  lemma DispatchSigns(p: Plane, config: Config, verifies: Verifier, e: Event)
    requires e.op.DispatchOp?
    requires DispatchProblem(p, config, e.op.principal, e.op.name, e.op.tool, e.op.requested, e.now).None?
    requires var a := Resolve(p, e.op.principal.userId, e.op.name);
             a.Some? && a.value in p.connections && TimeoutMs(config, p.agents[a.value], e.op.requested).Some?
    ensures Effect(p, config, verifies, e).signed == p.signed + [Sealed(RequestOf(p, config, e), e.op.signature)]
  {
    hide Resolve, HasCapability, TimeoutMs, DispatchProblem, Send, SocketAt;
    var o := e.op;
    var a := Resolve(p, o.principal.userId, o.name).value;
    var request := RequestOf(p, config, e);
    var recorded := p.(signed := p.signed + [Sealed(request, o.signature)]);
    var action := Action(o.principal.userId, a, o.tool, ToolCapability(o.tool), o.args, e.now, request.deadline);
    SendFrame(
      recorded.(rows := p.rows[o.actionId := Row(action, Sent, None)],
                pending := p.pending[o.actionId := action],
                timers := p.timers + {o.actionId}), p.connections[a].socket, Command(Sealed(request, o.signature)));
  }

  /** What a dispatch signs is granted: the caller's scopes and the policy of the very agent that the request is for. */
  lemma DispatchGrants(p: Plane, config: Config, verifies: Verifier, e: Event)
    requires IndexSound(p.aliases, p.agents) && AgentsPatchable(p.agents)
    requires e.op.DispatchOp? && IsAgentTool(e.op.tool) && IsDoc(DObj(e.op.args))
    ensures SignsAt(p, config, e, Effect(p, config, verifies, e))
  {
    hide IsDoc, Resolve, Dispatch, HasCapability, IsAgentTool, ToolCapability, IsMessage, DispatchProblem;
    var o := e.op;
    if DispatchProblem(p, config, o.principal, o.name, o.tool, o.requested, e.now).None? {
      Unrefused(p, config, o.principal, o.name, o.tool, o.requested, e.now);
      DispatchSigns(p, config, verifies, e);
      var request := RequestOf(p, config, e);
      RequestIsMessage(request);
      ResolvedIsOwned(p, o.principal.userId, o.name);
      PolicyIsSound(p, request.agentId);
      assert DispatchedAt(p, config, e, request);
    } else {
      RefusedSigns(p, config, verifies, e);
    }
  }

  lemma RefusedSigns(p: Plane, config: Config, verifies: Verifier, e: Event)
    requires e.op.DispatchOp?
    requires DispatchProblem(p, config, e.op.principal, e.op.name, e.op.tool, e.op.requested, e.now).Some?
    ensures Effect(p, config, verifies, e).signed == p.signed
  {
    hide DispatchProblem;
  }

  /** A policy update signs an update for its agent, under the version after the one in the record it writes over. */
  lemma UpdateSigns(
    p: Plane, config: Config, principal: Principal, a: Text, agent: Agent, patch: PolicyPatch, nonce: Text,
    signature: Text, now: int)
    ensures var q := UpdatePolicy(p, config, principal, a, agent, patch, nonce, signature, now).0;
            q.signed == p.signed
            || (HasCapability(principal, AgentsAdmin) && |q.signed| == |p.signed| + 1
                && q.signed[..|p.signed|] == p.signed
                && var m := q.signed[|p.signed|].message;
                   m.PolicyUpdate? && m.agentId == a && m.policyVersion == agent.policyVersion + 1 == m.policy.version
                   && (a in p.agents ==> Writes(q, m)))
  {
    hide NextPolicy, HasCapability;
    NextPolicyVersion(config, agent.policyVersion + 1, patch);
  }

  /** Every step, PATCH in two steps included, signs at most one message: a policy update or the request it
      dispatches. */
  lemma NextSigns(sys: System, config: Config, verifies: Verifier, e: Event)
    requires Patchable(sys) && Enabled(sys, e)
    ensures SignsAt(sys.plane, config, e, Next(sys, config, verifies, e).plane)
  {
    hide Effect, UpdatePolicy, DispatchedAt, IsMessage, TokensSound, EditsSound, EditsKeyless, IndexSound,
      AgentsPatchable, Resolve, IsDoc, IsAgentTool;
    var p, q := sys.plane, Next(sys, config, verifies, e).plane;
    if e.op.DispatchOp? {
      DispatchGrants(p, config, verifies, e);
    } else if e.op.WritePatchOp? && e.op.edit in sys.edits {
      var x := sys.edits[e.op.edit];
      UpdateSigns(p, config, x.principal, x.a, x.agent, e.op.patch, e.op.nonce, e.op.signature, e.now);
      NewMessageOfUpdate(p, q);
    } else if e.op.UpdatePolicyOp? {
      UpdateOpSigns(p, config, verifies, e);
      NewMessageOfUpdate(p, q);
    } else {
      EffectFrame(p, config, verifies, e);
    }
  }

  lemma NewMessageOfUpdate(p: Plane, q: Plane)
    ensures |q.signed| == |p.signed| + 1 && q.signed[|p.signed|].message.PolicyUpdate? ==>
              IsMessage(q.signed[|p.signed|].message)
  {
    hide IsMessage;
    if |q.signed| == |p.signed| + 1 && q.signed[|p.signed|].message.PolicyUpdate? {
      MessageOfUpdate(q.signed[|p.signed|].message);
    }
  }

  lemma UpdateOpSigns(p: Plane, config: Config, verifies: Verifier, e: Event)
    requires e.op.UpdatePolicyOp?
    ensures var q := Effect(p, config, verifies, e);
            q.signed == p.signed
            || (|q.signed| == |p.signed| + 1 && q.signed[..|p.signed|] == p.signed
                && NextUpdate(p.agents, q.signed[|p.signed|].message) && Writes(q, q.signed[|p.signed|].message)
                && ChangeBy(p, e) == PolicyChanged(q.signed[|p.signed|].message.agentId))
  {
    hide UpdatePolicy, Resolve, HasCapability;
    var target := Resolve(p, e.op.principal.userId, e.op.name);
    if target.Some? {
      var a := target.value;
      UpdateSigns(p, config, e.op.principal, a, p.agents[a], e.op.patch, e.op.nonce, e.op.signature, e.now);
    }
  }

  lemma FreshAction(sys: System, e: Event, m: Message, config: Config, i: nat)
    requires Enabled(sys, e) && DispatchedAt(sys.plane, config, e, m) && i < |sys.plane.signed|
    ensures !SameAction(sys.plane.signed[i].message, m)
  {
    hide IsDoc, Resolve, AllowedBy;
  }

  lemma NextRequests(sys: System, config: Config, verifies: Verifier, e: Event)
    requires Patchable(sys) && RequestsSound(sys.plane.signed) && Enabled(sys, e)
    ensures RequestsSound(Next(sys, config, verifies, e).plane.signed)
  {
    hide Patchable, Next, DispatchedAt, IsMessage, Enabled;
    var p, q := sys.plane, Next(sys, config, verifies, e).plane;
    NextSigns(sys, config, verifies, e);
    if q.signed != p.signed {
      var m := q.signed[|p.signed|].message;
      assert forall i :: 0 <= i < |p.signed| ==> q.signed[..|p.signed|][i] == q.signed[i];
      RequestKind(p, config, e, m);
      forall i | 0 <= i < |p.signed| ensures !SameAction(p.signed[i].message, m) {
        if m.Request? {
          FreshAction(sys, e, m, config, i);
        }
      }
    }
  }

  lemma RequestKind(p: Plane, config: Config, e: Event, m: Message)
    ensures DispatchedAt(p, config, e, m) ==> m.Request?
  {
    hide Resolve, AllowedBy;
  }

  /** At some step of the run this request was dispatched. */
  ghost predicate DispatchedInRun(sys: System, config: Config, verifies: Verifier, events: seq<Event>, m: Message)
    decreases |events|
  {
    events != []
    && (DispatchedAt(sys.plane, config, events[0], m)
        || DispatchedInRun(Next(sys, config, verifies, events[0]), config, verifies, events[1..], m))
  }

  /** In every run, PATCH in two steps included, each request that was signed on the way was dispatched at one of the
      steps, and every action id was used for one request. */
  lemma {:induction false} RequestsInRuns(
    sys: System, config: Config, verifies: Verifier, events: seq<Event>, last: System)
    requires Patchable(sys) && RequestsSound(sys.plane.signed) && Runs(sys, config, verifies, events, last)
    ensures RequestsSound(last.plane.signed) && |sys.plane.signed| <= |last.plane.signed|
    ensures forall i :: |sys.plane.signed| <= i < |last.plane.signed| && last.plane.signed[i].message.Request? ==>
              DispatchedInRun(sys, config, verifies, events, last.plane.signed[i].message)
    ensures last.plane.signed[..|sys.plane.signed|] == sys.plane.signed
    decreases |events|
  {
    if events != [] {
      hide Patchable, RequestsSound, Next, Enabled, DispatchedAt, IsMessage;
      var next := Next(sys, config, verifies, events[0]);
      NextPatchable(sys, config, verifies, events[0]);
      NextSigns(sys, config, verifies, events[0]);
      NextRequests(sys, config, verifies, events[0]);
      RequestsInRuns(next, config, verifies, events[1..], last);
      var n := |sys.plane.signed|;
      Prefixes(sys.plane.signed, next.plane.signed, last.plane.signed);
      if |next.plane.signed| == n + 1 {
        assert last.plane.signed[..n + 1][n] == last.plane.signed[n] == next.plane.signed[n];
      }
    }
  }

  lemma Prefixes<T>(a: seq<T>, b: seq<T>, c: seq<T>)
    requires |a| <= |b| <= |c| && b[..|a|] == a && c[..|b|] == b
    ensures c[..|a|] == a
  {
    assert c[..|a|] == c[..|b|][..|a|];
  }

  // ---- Policy updates ----

  ghost predicate IsUpdateFor(m: Message, a: Text) { m.PolicyUpdate? && m.agentId == a }

  /** The updates signed for an agent carry rising versions. */
  ghost predicate UpdatesRise(signed: seq<Sealed>) {
    forall i, j ::
      (0 <= i < j < |signed| && signed[i].message.PolicyUpdate?
       && IsUpdateFor(signed[j].message, signed[i].message.agentId)) ==>
        signed[i].message.policyVersion < signed[j].message.policyVersion
  }

  /** No update that was signed is ahead of its agent's own version, and one that is not behind carries its policy. */
  ghost predicate UpdatesKnown(signed: seq<Sealed>, agents: map<Text, Agent>) {
    forall i :: 0 <= i < |signed| && signed[i].message.PolicyUpdate? ==> UpdateKnown(signed[i].message, agents)
  }

  ghost predicate UpdateKnown(m: Message, agents: map<Text, Agent>)
    requires m.PolicyUpdate?
  {
    m.agentId in agents && m.policy.version == m.policyVersion <= agents[m.agentId].policyVersion
    && (m.policyVersion == agents[m.agentId].policyVersion ==> m.policy == agents[m.agentId].policy)
  }

  ghost predicate NextUpdate(agents: map<Text, Agent>, m: Message) {
    m.PolicyUpdate? && m.agentId in agents
    && m.policyVersion == agents[m.agentId].policyVersion + 1 == m.policy.version
  }

  /** The policy that the update carries is the one in the agent's record. */
  ghost predicate Writes(q: Plane, m: Message) {
    m.PolicyUpdate? && m.agentId in q.agents && q.agents[m.agentId].policy == m.policy
  }

  ghost predicate Issued(p: Plane) { UpdatesRise(p.signed) && UpdatesKnown(p.signed, p.agents) }

  /** What is signed is a request, or an update one above its agent's version that carries the policy written. */
  ghost predicate SignsInOrder(p: Plane, q: Plane) {
    q.signed == p.signed
    || (|q.signed| == |p.signed| + 1 && q.signed[..|p.signed|] == p.signed
        && (q.signed[|p.signed|].message.Request?
            || (NextUpdate(p.agents, q.signed[|p.signed|].message) && Writes(q, q.signed[|p.signed|].message))))
  }

  lemma EffectSigns(p: Plane, config: Config, verifies: Verifier, e: Event)
    ensures SignsInOrder(p, Effect(p, config, verifies, e))
    ensures var q := Effect(p, config, verifies, e);
            q.signed != p.signed && q.signed[|p.signed|].message.PolicyUpdate? ==>
              ChangeBy(p, e) == PolicyChanged(q.signed[|p.signed|].message.agentId)
  {
    hide Effect, Resolve, DispatchProblem, NextUpdate;
    if e.op.UpdatePolicyOp? {
      UpdateOpSigns(p, config, verifies, e);
    } else if e.op.DispatchOp? {
      if DispatchProblem(p, config, e.op.principal, e.op.name, e.op.tool, e.op.requested, e.now).None? {
        Unrefused(p, config, e.op.principal, e.op.name, e.op.tool, e.op.requested, e.now);
        DispatchSigns(p, config, verifies, e);
      } else {
        RefusedSigns(p, config, verifies, e);
      }
    } else {
      EffectFrame(p, config, verifies, e);
    }
  }

  lemma KnownLater(signed: seq<Sealed>, was: map<Text, Agent>, now: map<Text, Agent>, change: Change)
    requires UpdatesKnown(signed, was) && AgentsProgress(was, now, change)
    ensures UpdatesKnown(signed, now)
  {
    forall i | 0 <= i < |signed| && signed[i].message.PolicyUpdate? ensures UpdateKnown(signed[i].message, now) {
      var a := signed[i].message.agentId;
      assert UpdateKnown(signed[i].message, was);
      assert Progresses(was[a], now[a], a, change);
    }
  }

  lemma ProgressOf(was: map<Text, Agent>, now: map<Text, Agent>, a: Text, change: Change)
    requires AgentsProgress(was, now, change) && a in was
    ensures a in now && Progresses(was[a], now[a], a, change)
  {}

  /** A policy update is signed under a version above all that were signed for the agent before. */
  lemma UpdatesKeepRising(p: Plane, q: Plane, change: Change)
    requires Issued(p) && SignsInOrder(p, q) && AgentsProgress(p.agents, q.agents, change)
    requires q.signed != p.signed && q.signed[|p.signed|].message.PolicyUpdate? ==>
               change == PolicyChanged(q.signed[|p.signed|].message.agentId)
    ensures Issued(q)
  {
    hide AgentsProgress;
    KnownLater(p.signed, p.agents, q.agents, change);
    if q.signed != p.signed {
      var n, m := |p.signed|, q.signed[|p.signed|].message;
      assert forall i :: 0 <= i < n ==> q.signed[..n][i] == q.signed[i];
      if m.PolicyUpdate? {
        ProgressOf(p.agents, q.agents, m.agentId, change);
      }
      forall i | 0 <= i < |q.signed| && q.signed[i].message.PolicyUpdate?
        ensures UpdateKnown(q.signed[i].message, q.agents)
      {
        assert i < n ==> q.signed[i] == p.signed[i];
      }
      forall i | 0 <= i < n && q.signed[i].message.PolicyUpdate? && IsUpdateFor(m, q.signed[i].message.agentId)
        ensures q.signed[i].message.policyVersion < m.policyVersion
      {
        assert UpdateKnown(p.signed[i].message, p.agents);
      }
    }
  }

  lemma EffectIssues(p: Plane, config: Config, verifies: Verifier, e: Event)
    requires TokensSound(p.tokens, p.agents) && Issued(p)
    ensures Issued(Effect(p, config, verifies, e))
  {
    hide TokensSound, Issued, AgentsProgress, TokensProgress, Effect, SignsInOrder;
    EffectProgresses(p, config, verifies, e);
    EffectSigns(p, config, verifies, e);
    UpdatesKeepRising(p, Effect(p, config, verifies, e), ChangeBy(p, e));
  }

  lemma TokensOf(p: Plane)
    requires Lifecycle(p)
    ensures TokensSound(p.tokens, p.agents)
  {}

  lemma StartIsIssued()
    ensures Issued(START.plane) && RequestsSound(START.plane.signed)
  {}

  /** In every run with atomic updates the policy updates signed for an agent carry rising versions, none above the
      agent's own, and the one with the agent's own version carries its policy. */
  lemma {:induction false} UpdatesInRuns(
    sys: System, config: Config, verifies: Verifier, events: seq<Event>, last: System)
    requires Lifecycle(sys.plane) && Issued(sys.plane) && Runs(sys, config, verifies, events, last)
    requires forall i :: 0 <= i < |events| ==> Atomic(events[i])
    ensures Issued(last.plane)
    decreases |events|
  {
    if events != [] {
      hide Lifecycle, Issued, Effect, Enabled;
      assert Atomic(events[0]);
      assert forall i :: 0 <= i < |events[1..]| ==> events[1..][i] == events[i + 1];
      TokensOf(sys.plane);
      EffectKeeps(sys.plane, config, verifies, events[0]);
      EffectIssues(sys.plane, config, verifies, events[0]);
      UpdatesInRuns(Next(sys, config, verifies, events[0]), config, verifies, events[1..], last);
    }
  }

  /** What is written when a message is sent to socket s. */
  ghost predicate SentTo(p: Plane, q: Plane, s: nat, out: Outgoing) {
    forall t :: SocketAt(q.sockets, t)
                == if t == s && !SocketAt(p.sockets, s).closed then
                     SocketAt(p.sockets, s).(sent := SocketAt(p.sockets, s).sent + [out])
                   else SocketAt(p.sockets, t)
  }

  lemma SendSends(p: Plane, s: nat, out: Outgoing)
    ensures SentTo(p, Send(p, s, out), s, out)
  {
    var socket := SocketAt(p.sockets, s);
    var q := Send(p, s, out);
    assert q.sockets == if socket.closed then p.sockets
                        else p.sockets[s := socket.(sent := socket.sent + [out])];
    hide Send;
  }

  lemma IssueSends(
    p: Plane, config: Config, principal: Principal, a: Text, tool: Tool, args: map<Text, Doc>, timeoutMs: int,
    actionId: Text, nonce: Text, signature: Text, now: int)
    requires a in p.agents && a in p.connections
    ensures var (q, reply) := Issue(p, config, principal, a, tool, args, timeoutMs, actionId, nonce, signature, now);
            if reply.Done? then
              reply.value.Request? && reply.value.agentId == a
              && SentTo(p, q, p.connections[a].socket, Command(Sealed(reply.value, signature)))
            else q.sockets == p.sockets
  {
    hide Send, SentTo;
    var deadline := now + timeoutMs;
    var request := Request(
      actionId, a, principal.userId, tool, ToolCapability(tool), args, p.agents[a].policyVersion, now, deadline, nonce);
    var action := Action(principal.userId, a, tool, ToolCapability(tool), args, now, deadline);
    var kept := p.(signed := p.signed + [Sealed(request, signature)],
                   rows := p.rows[actionId := Row(action, Sent, None)],
                   pending := p.pending[actionId := action], timers := p.timers + {actionId});
    SendSends(kept, p.connections[a].socket, Command(Sealed(request, signature)));
    SentAlike(kept, p, Send(kept, p.connections[a].socket, Command(Sealed(request, signature))),
              p.connections[a].socket, Command(Sealed(request, signature)));
  }

  lemma SentAlike(p: Plane, r: Plane, q: Plane, s: nat, out: Outgoing)
    requires SentTo(p, q, s, out) && r.sockets == p.sockets
    ensures SentTo(r, q, s, out)
  {}

  /** A dispatch that is not refused writes its signed request to the socket that is registered for the agent, if it is
      open, and nothing to any other socket; one that is refused writes nothing. */
  lemma DispatchSends(p: Plane, config: Config, e: Event)
    requires e.op.DispatchOp?
    ensures var o := e.op;
            var (q, reply) := Dispatch(
              p, config, o.principal, o.name, o.tool, o.args, o.requested, o.actionId, o.nonce, o.signature, e.now);
            if reply.Done? then
              reply.value.Request? && reply.value.agentId in p.connections
              && Resolve(p, o.principal.userId, o.name) == Some(reply.value.agentId)
              && SentTo(p, q, p.connections[reply.value.agentId].socket, Command(Sealed(reply.value, o.signature)))
            else q.sockets == p.sockets
  {
    hide Resolve, HasCapability, TimeoutMs, ToolCapability, DispatchProblem, Issue, SentTo;
    var o := e.op;
    if DispatchProblem(p, config, o.principal, o.name, o.tool, o.requested, e.now).None? {
      Unrefused(p, config, o.principal, o.name, o.tool, o.requested, e.now);
      var a := Resolve(p, o.principal.userId, o.name).value;
      IssueSends(p, config, o.principal, a, o.tool, o.args, TimeoutMs(config, p.agents[a], o.requested).value,
                 o.actionId, o.nonce, o.signature, e.now);
    }
  }

  /** The time an action gets is the least of what the caller asks for, what the agent's policy allows and what the
      configuration allows; a request that is not a number gets none. */
  lemma TimeoutIsLeast(config: Config, agent: Agent, requested: Requested, ms: int)
    ensures var t := TimeoutMs(config, agent, requested);
            (t.None? <==> requested.NotANumber?)
            && (t.Some? ==>
                  (ms <= t.value
                   <==> ms <= agent.policy.maxActionTimeoutSeconds * 1000 && ms <= config.maxActionTimeoutSeconds * 1000
                        && (requested.Milliseconds? ==> ms <= requested.ms)))
  {}

  /** An agent that is revoked gets no request, whoever asks. */
  lemma RevokedGetsNothing(
    p: Plane, config: Config, principal: Principal, name: Text, tool: Tool, args: map<Text, Doc>,
    requested: Requested, actionId: Text, nonce: Text, signature: Text, now: int)
    requires var a := Resolve(p, principal.userId, name); a.Some? && p.agents[a.value].status == Revoked
    ensures Dispatch(p, config, principal, name, tool, args, requested, actionId, nonce, signature, now).0 == p
  {
    hide Resolve, HasCapability, Issue;
  }

  /** What a patch makes of a policy: a capability it mentions is as it says and any other as the profile has it, and
      no limit is above the configuration's. */
  lemma PatchedPolicyMeans(config: Config, version: int, patch: PolicyPatch, c: Capability)
    ensures var policy := NextPolicy(config, version, patch);
            (c in policy.capabilities
             <==> if c in patch.capabilities then patch.capabilities[c]
                  else c in ProfileCapabilities(Or(patch.profile, Custom)))
            && policy.maxOutputBytes <= config.maxOutputBytes
            && policy.maxActionTimeoutSeconds <= config.maxActionTimeoutSeconds && policy.version == version
  {
    hide Utf16;
    EveryCapability(c);
  }
}

/** What a PATCH in two steps can undo, over all runs: a revocation, a key, the rise of a policy version, the rule that
    an enrolled agent has a key, and the lifecycle. Each is kept through a run exactly until a write of a certain kind,
    and the kind is told from the record that the PATCH had read. */
module PatchHarm {
  import opened JsText
  import opened CanonicalJson
  import opened RemoteTypes
  import opened Envelopes
  import opened NonceWindows
  import opened Planes
  import opened PlaneRuns
  import opened AgentLifecycle
  import opened PatchRaces
  import ConnectionRegistry

  // ---- Revocations, keys and versions ----

  datatype Clause = RevocationStays | KeyStays | VersionRises

  /** The step writes back a record of agent a that a PATCH has read before. */
  ghost predicate WritesBack(sys: System, e: Event, a: Text) {
    e.op.WritePatchOp? && e.op.edit in sys.edits && sys.edits[e.op.edit].a == a
    && HasCapability(sys.edits[e.op.edit].principal, AgentsAdmin)
  }

  /** The step updates the policy of agent a, at once or with a PATCH. */
  ghost predicate Updates(sys: System, e: Event, a: Text) {
    WritesBack(sys, e, a) || ChangeBy(sys.plane, e) == PolicyChanged(a)
  }

  /** The step keeps what the clause says of the agent: its revocation stays, its key stays, or its version rises by one
      if its policy is updated and stays otherwise. */
  ghost predicate Keeps(c: Clause, g: Agent, h: Agent, updated: bool) {
    match c
    case RevocationStays => g.status == Revoked ==> h.status == Revoked
    case KeyStays => g.publicKey.Some? ==> h.publicKey == g.publicKey
    case VersionRises => h.policyVersion == g.policyVersion + if updated then 1 else 0
  }

  /** What the record that was read must say for its write to break the clause. */
  ghost predicate Breaks(c: Clause, g: Agent, read: Agent) {
    match c
    case RevocationStays => g.status == Revoked && read.status != Revoked
    case KeyStays => g.publicKey.Some? && read.publicKey != g.publicKey
    case VersionRises => read.policyVersion != g.policyVersion
  }

  ghost predicate BrokenBy(c: Clause, sys: System, e: Event, a: Text)
    requires a in sys.plane.agents
  {
    WritesBack(sys, e, a) && Breaks(c, sys.plane.agents[a], sys.edits[e.op.edit].agent)
  }

  lemma NextTokens(sys: System)
    requires Patchable(sys)
    ensures TokensSound(sys.plane.tokens, sys.plane.agents)
  {}

  lemma EditIsKnown(sys: System, k: nat)
    requires Patchable(sys) && k in sys.edits
    ensures EditSound(sys.edits[k], sys.plane.agents)
  {}

  /** An agent is there in the next state. */
  lemma StaysThere(sys: System, config: Config, verifies: Verifier, e: Event, a: Text)
    requires a in sys.plane.agents
    ensures a in Next(sys, config, verifies, e).plane.agents
  {
    hide Next;
    NextAges(sys, config, verifies, e);
  }

  lemma ProgressKeeps(c: Clause, p: Plane, q: Plane, change: Change, a: Text)
    requires AgentsProgress(p.agents, q.agents, change) && a in p.agents
    ensures a in q.agents && Keeps(c, p.agents[a], q.agents[a], change == PolicyChanged(a))
  {
    hide SoundAgent;
    assert Progresses(p.agents[a], q.agents[a], a, change);
  }

  lemma SameKeeps(c: Clause, g: Agent)
    ensures Keeps(c, g, g, false)
  {}

  /** A step keeps a clause for an agent exactly unless it writes back a record that breaks it. */
  lemma StepKeepsExactlyUnless(c: Clause, sys: System, config: Config, verifies: Verifier, e: Event, a: Text)
    requires Patchable(sys) && Enabled(sys, e) && a in sys.plane.agents
    ensures var q := Next(sys, config, verifies, e).plane;
            a in q.agents
            && (Keeps(c, sys.plane.agents[a], q.agents[a], Updates(sys, e, a)) <==> !BrokenBy(c, sys, e, a))
  {
    hide Patchable, Effect, UpdatePolicy, HasCapability, Resolve, AgentsProgress, TokensProgress, EditSound, ChangeBy;
    var p := sys.plane;
    SameKeeps(c, p.agents[a]);
    if e.op.WritePatchOp? {
      WriteKeepsExactlyUnless(c, sys, config, verifies, e, a);
    } else if e.op.ReadForPatchOp? {
      NotAnUpdate(sys, e, a);
    } else {
      NextTokens(sys);
      EffectProgresses(p, config, verifies, e);
      ProgressKeeps(c, p, Effect(p, config, verifies, e), ChangeBy(p, e), a);
    }
  }

  lemma NotAnUpdate(sys: System, e: Event, a: Text)
    requires e.op.ReadForPatchOp? || e.op.WritePatchOp?
    ensures ChangeBy(sys.plane, e) == NoChange
  {}

  lemma WriteKeepsExactlyUnless(c: Clause, sys: System, config: Config, verifies: Verifier, e: Event, a: Text)
    requires Patchable(sys) && e.op.WritePatchOp? && e.op.edit in sys.edits && a in sys.plane.agents
    ensures var q := Next(sys, config, verifies, e).plane;
            a in q.agents
            && (Keeps(c, sys.plane.agents[a], q.agents[a], Updates(sys, e, a)) <==> !BrokenBy(c, sys, e, a))
  {
    hide Patchable, UpdatePolicy, HasCapability, EditSound, ChangeBy;
    var p, x := sys.plane, sys.edits[e.op.edit];
    NotAnUpdate(sys, e, a);
    EditIsKnown(sys, e.op.edit);
    KnownAgent(x, p.agents);
    if HasCapability(x.principal, AgentsAdmin) {
      WriteRestores(p, config, x.principal, x.a, x.agent, e.op.patch, e.op.nonce, e.op.signature, e.now);
    } else {
      RefusedUpdate(p, config, x, e);
    }
  }

  lemma KnownAgent(x: Edit, agents: map<Text, Agent>)
    requires EditSound(x, agents)
    ensures x.a in agents
  {}

  /** Every step of the run keeps the clause for the agent. */
  ghost predicate Throughout(c: Clause, sys: System, config: Config, verifies: Verifier, events: seq<Event>, a: Text)
    decreases |events|
  {
    events == []
    || (var next := Next(sys, config, verifies, events[0]);
        a in sys.plane.agents && a in next.plane.agents
        && Keeps(c, sys.plane.agents[a], next.plane.agents[a], Updates(sys, events[0], a))
        && Throughout(c, next, config, verifies, events[1..], a))
  }

  /** No step of the run writes back a record that breaks the clause. */
  ghost predicate NeverBroken(c: Clause, sys: System, config: Config, verifies: Verifier, events: seq<Event>, a: Text)
    decreases |events|
  {
    events == []
    || (a in sys.plane.agents && !BrokenBy(c, sys, events[0], a)
        && NeverBroken(c, Next(sys, config, verifies, events[0]), config, verifies, events[1..], a))
  }

  /** Over every run: a revocation stays, a key stays and versions rise by one for each update exactly if no PATCH
      writes back a record that was not revoked over one that is, a record with another key or none over one with a key,
      or a record with another version. */
  lemma {:induction false} KeptExactlyUntilBroken(
    c: Clause, sys: System, config: Config, verifies: Verifier, events: seq<Event>, last: System, a: Text)
    requires Patchable(sys) && Runs(sys, config, verifies, events, last) && a in sys.plane.agents
    ensures Throughout(c, sys, config, verifies, events, a) <==> NeverBroken(c, sys, config, verifies, events, a)
    decreases |events|
  {
    if events != [] {
      hide Patchable, Next, Enabled, BrokenBy, Keeps, Updates;
      NextPatchable(sys, config, verifies, events[0]);
      StepKeepsExactlyUnless(c, sys, config, verifies, events[0], a);
      KeptExactlyUntilBroken(c, Next(sys, config, verifies, events[0]), config, verifies, events[1..], last, a);
    }
  }

  /** What keeping a clause throughout comes to at the end of the run. */
  lemma {:induction false} ThroughoutMeans(
    c: Clause, sys: System, config: Config, verifies: Verifier, events: seq<Event>, last: System, a: Text)
    requires Runs(sys, config, verifies, events, last) && Throughout(c, sys, config, verifies, events, a)
    requires a in sys.plane.agents
    ensures a in last.plane.agents
            && var g, h := sys.plane.agents[a], last.plane.agents[a];
               match c
               case RevocationStays => g.status == Revoked ==> h.status == Revoked
               case KeyStays => g.publicKey.Some? ==> h.publicKey == g.publicKey
               case VersionRises => h.policyVersion >= g.policyVersion
    decreases |events|
  {
    if events != [] {
      hide Next, Enabled, Updates;
      ThroughoutMeans(c, Next(sys, config, verifies, events[0]), config, verifies, events[1..], last, a);
    }
  }

  lemma {:induction false} TokensAgeInRuns(
    sys: System, config: Config, verifies: Verifier, events: seq<Event>, last: System, t: Text)
    requires Runs(sys, config, verifies, events, last) && t in sys.plane.tokens && sys.plane.tokens[t].used
    ensures t in last.plane.tokens && last.plane.tokens[t].used
    decreases |events|
  {
    if events != [] {
      hide Next, Enabled;
      NextAges(sys, config, verifies, events[0]);
      TokensAgeInRuns(Next(sys, config, verifies, events[0]), config, verifies, events[1..], last, t);
    }
  }

  /** In every run a token that has enrolled an agent enrolls nothing more; the agent keeps the key it got at every step
      exactly if no PATCH writes back a record without it, and then it has that key at the end. */
  lemma TokenEnrollsOnceInAnyRun(
    sys: System, config: Config, verifies: Verifier, t: Text, events: seq<Event>, last: System, publicKey: Text,
    host: Host, now: int)
    requires Patchable(sys) && Runs(sys, config, verifies, events, last) && t in sys.plane.tokens
    requires sys.plane.tokens[t].used
    ensures Enroll(last.plane, t, publicKey, true, host, now).1.Failed?
    ensures var a := sys.plane.tokens[t].agentId;
            a in sys.plane.agents
            && (Throughout(KeyStays, sys, config, verifies, events, a)
                <==> NeverBroken(KeyStays, sys, config, verifies, events, a))
            && (NeverBroken(KeyStays, sys, config, verifies, events, a) && sys.plane.agents[a].publicKey.Some? ==>
                  a in last.plane.agents && last.plane.agents[a].publicKey == sys.plane.agents[a].publicKey)
  {
    hide Patchable, Runs, Enroll, Throughout, NeverBroken, TokensSound;
    var a := sys.plane.tokens[t].agentId;
    TokensAgeInRuns(sys, config, verifies, events, last, t);
    UsedTokenFails(last.plane, t, publicKey, host, now);
    NextTokens(sys);
    TokenAgent(sys.plane, t);
    KeptExactlyUntilBroken(KeyStays, sys, config, verifies, events, last, a);
    if NeverBroken(KeyStays, sys, config, verifies, events, a) {
      ThroughoutMeans(KeyStays, sys, config, verifies, events, last, a);
    }
  }

  // ---- Going online and offline ----

  /** What a step other than an enrollment or a write does to an agent that is there: nothing, or it goes offline, or it
      comes online with its key, or it is the one that is revoked. */
  ghost predicate Moves(p: Plane, q: Plane, a: Text, revoked: Option<Text>)
    requires a in p.agents && a in q.agents
  {
    var g, h := p.agents[a], q.agents[a];
    if revoked == Some(a) then h.status == Revoked && a !in q.connections
    else
      (h.status == g.status && (a in q.connections <==> a in p.connections))
      || (a in p.connections && a !in q.connections && h.status == if g.status == Revoked then Revoked else Offline)
      || (h.status == Online && a in q.connections && g.publicKey.Some?)
  }

  ghost predicate AllMove(p: Plane, q: Plane, revoked: Option<Text> := None) {
    p.agents.Keys <= q.agents.Keys && q.connections.Keys <= p.connections.Keys + p.agents.Keys
    && forall a :: a in p.agents ==> Moves(p, q, a, revoked)
  }

  lemma StayingMoves(p: Plane, q: Plane)
    requires p.agents.Keys <= q.agents.Keys && forall a :: a in p.agents ==> q.agents[a].status == p.agents[a].status
    requires q.connections.Keys == p.connections.Keys
    ensures AllMove(p, q)
  {}

  lemma ClosedMoves(p: Plane, s: nat)
    ensures AllMove(p, Closed(p, s)) && AllMove(p, SocketLost(p, s))
  {
    hide TakenOffline, AllMove, Gone;
    var gone := Gone(p.connections, s, SocketAt(MarkedClosed(p, s).sockets, s).handlers);
    var off := p.(connections := p.connections - gone, agents := TakenOffline(p.agents, gone));
    StayingMoves(p, p);
    GoneAreConnected(p.connections, s, SocketAt(MarkedClosed(p, s).sockets, s).handlers);
    OfflineMoves(p, gone);
    MovesAlike(p, p, p, MarkedClosed(p, s));
    MovesAlike(p, if SocketAt(MarkedClosed(p, s).sockets, s).notified then p else off, p, SocketLost(p, s));
  }

  lemma GoneAreConnected(connections: map<Text, Live>, s: nat, handlers: seq<Text>)
    ensures Gone(connections, s, handlers) <= connections.Keys
  {}

  lemma RevokedStays(p: Plane, s: nat, a: Text)
    requires a in p.agents && p.agents[a].status == Revoked
    ensures var q := Closed(p, s); a in q.agents && q.agents[a].status == Revoked
  {
    hide Closed, SoundAgent;
    ClosedProgresses(p, s);
    assert Progresses(p.agents[a], Closed(p, s).agents[a], a, NoChange);
  }

  lemma OfflineMoves(p: Plane, gone: set<Text>)
    requires gone <= p.connections.Keys
    ensures AllMove(p, p.(connections := p.connections - gone, agents := TakenOffline(p.agents, gone)))
  {}

  /** Only agents and connections matter. */
  lemma MovesAlike(p: Plane, q: Plane, r: Plane, s: Plane)
    requires AllMove(p, q) && r.agents == p.agents && r.connections.Keys == p.connections.Keys
    requires s.agents == q.agents && s.connections.Keys == q.connections.Keys
    ensures AllMove(r, s)
  {
    forall a | a in r.agents ensures Moves(r, s, a, None) {
      assert Moves(p, q, a, None);
    }
  }

  lemma RefusedMoves(p: Plane, s: nat, code: ErrorCode)
    ensures AllMove(p, Refused(p, s, code))
  {
    hide Closed, Send, AllMove;
    SendFrame(p, s, Problem(code));
    var sent := Send(p, s, Problem(code));
    ClosedMoves(sent, s);
    MovesAlike(sent, Closed(sent, s), p, Closed(sent, s));
  }

  /** One agent comes online, the others move as they did. */
  lemma ConnectedMoves(p: Plane, q: Plane, r: Plane, a: Text)
    requires AllMove(p, q) && a in p.agents && p.agents[a].publicKey.Some?
    requires r.agents.Keys == q.agents.Keys + {a} && r.connections.Keys == q.connections.Keys + {a}
    requires r.agents[a].status == Online
    requires forall b :: b in q.agents && b != a ==> r.agents[b] == q.agents[b]
    ensures AllMove(p, r)
  {
    forall b | b in p.agents ensures Moves(p, r, b, None) {
      assert Moves(p, q, b, None);
    }
  }

  lemma RegisteredMoves(p: Plane, s: nat, m: Message, now: int)
    requires m.Hello? && Enrolled(p, m.agentId)
    ensures AllMove(p, Registered(p, s, m, now))
  {
    hide Closed, Send, Remembered, Set, AllMove;
    var a, agent := m.agentId, p.agents[m.agentId];
    var p1 := p.(helloNonces := p.helloNonces[a := Set(HelloNonces(p, a), Entry(m.nonce, now + AGENT_NONCE_TTL_MS))]);
    var p2 := if a in p.connections then Closed(p1, p.connections[a].socket) else p1;
    StayingMoves(p, p1);
    if a in p.connections {
      ClosedMoves(p1, p.connections[a].socket);
      MovesAlike(p1, p2, p, p2);
    }
    var p3 := p2.(connections := p2.connections[a := Live(s, Remembered([], m.nonce, now))],
                  agents := p2.agents[a := agent.(status := Online, host := Some(m.host))]);
    ConnectedMoves(p, p2, p3, a);
    var socket := SocketAt(p3.sockets, s);
    var p4 := p3.(sockets := p3.sockets[s := socket.(handlers := socket.handlers + [a])]);
    SendFrame(p4, s, Ready(a, agent.policy));
    MovesAlike(p, p3, p, Send(p4, s, Ready(a, agent.policy)));
  }

  lemma GreetedMoves(p: Plane, verifies: Verifier, s: nat, hello: Sealed, now: int)
    requires hello.message.Hello?
    ensures AllMove(p, Greeted(p, verifies, s, hello, now))
  {
    hide Registered, Refused, AllMove, PrunedNonces, PrunedConnections;
    var problem, cleaned := HelloProblem(p, verifies, s, hello, now), Cleaned(p, now);
    CleanedKeys(p, now);
    var q := Greeted(p, verifies, s, hello, now);
    if problem.Some? {
      RefusedMoves(p, s, problem.value);
      RefusedMoves(cleaned, s, problem.value);
      MovesAlike(cleaned, Refused(cleaned, s, problem.value), p, Refused(cleaned, s, problem.value));
    } else {
      RegisteredMoves(cleaned, s, hello.message, now);
      MovesAlike(cleaned, q, p, q);
    }
  }

  lemma CleanedKeys(p: Plane, now: int)
    ensures Cleaned(p, now).agents == p.agents && Cleaned(p, now).connections.Keys == p.connections.Keys
  {}

  lemma ReceivedMoves(p: Plane, verifies: Verifier, s: nat, incoming: Option<Sealed>, now: int)
    ensures AllMove(p, Received(p, verifies, s, incoming, now))
  {
    hide Greeted, Reported, Refused, Parses, AllMove;
    RefusedMoves(p, s, InternalError);
    if incoming.Some? && incoming.value.message.Hello? {
      GreetedMoves(p, verifies, s, incoming.value, now);
    } else if incoming.Some? && incoming.value.message.Result? {
      ReportedMoves(p, verifies, s, incoming.value, now);
    }
  }

  lemma ReportedMoves(p: Plane, verifies: Verifier, s: nat, result: Sealed, now: int)
    requires result.message.Result?
    ensures AllMove(p, Reported(p, verifies, s, result, now))
  {
    hide Judged, AllMove;
    ReportedFrame(p, verifies, s, result, now);
    if result.message.actionId in p.pending {
      JudgedConnections(p, verifies, s, result, now);
    }
    StayingMoves(p, Reported(p, verifies, s, result, now));
  }

  lemma UpdateMoves(
    p: Plane, config: Config, principal: Principal, a: Text, patch: PolicyPatch, nonce: Text, signature: Text, now: int)
    requires a in p.agents
    ensures AllMove(p, UpdatePolicy(p, config, principal, a, p.agents[a], patch, nonce, signature, now).0)
  {
    hide UpdatePolicy, HasCapability, AllMove;
    if HasCapability(principal, AgentsAdmin) {
      WriteRestores(p, config, principal, a, p.agents[a], patch, nonce, signature, now);
    } else {
      NoUpdate(p, config, principal, a, p.agents[a], patch, nonce, signature, now);
    }
    StayingMoves(p, UpdatePolicy(p, config, principal, a, p.agents[a], patch, nonce, signature, now).0);
  }

  lemma NoUpdate(
    p: Plane, config: Config, principal: Principal, a: Text, agent: Agent, patch: PolicyPatch, nonce: Text,
    signature: Text, now: int)
    requires !HasCapability(principal, AgentsAdmin)
    ensures UpdatePolicy(p, config, principal, a, agent, patch, nonce, signature, now).0 == p
  {
    hide HasCapability;
  }

  /** One agent is revoked and disconnected, the others move as they did. */
  lemma RevokedMoves(p: Plane, q: Plane, a: Text)
    requires a in p.agents && AllMove(p.(agents := p.agents[a := p.agents[a].(status := Revoked)]), q)
    requires a in q.agents && q.agents[a].status == Revoked
    ensures AllMove(p, q.(connections := q.connections - {a}), Some(a))
  {
    var written := p.(agents := p.agents[a := p.agents[a].(status := Revoked)]);
    var r := q.(connections := q.connections - {a});
    forall b | b in p.agents ensures Moves(p, r, b, Some(a)) {
      assert Moves(written, q, b, None);
    }
  }

  lemma RevokeMoves(p: Plane, principal: Principal, a: Text)
    requires a in p.agents
    ensures AllMove(p, Revoke(p, principal, a).0, if HasCapability(principal, AgentsAdmin) then Some(a) else None)
  {
    hide Closed, HasCapability, AllMove;
    StayingMoves(p, p);
    if HasCapability(principal, AgentsAdmin) {
      var written := p.(agents := p.agents[a := p.agents[a].(status := Revoked)]);
      StayingMoves(written, written);
      if a in p.connections {
        ClosedMoves(written, p.connections[a].socket);
        RevokedStays(written, p.connections[a].socket, a);
      }
      RevokedMoves(p, if a in p.connections then Closed(written, p.connections[a].socket) else written, a);
    }
  }

  /** The agent that the step revokes, if it does. */
  ghost function RevokedBy(p: Plane, e: Event): Option<Text> {
    if e.op.RevokeOp? && HasCapability(e.op.principal, AgentsAdmin) then Resolve(p, e.op.principal.userId, e.op.name)
    else None
  }

  /** Steps other than creating a token, enrolling and a PATCH. */
  lemma EffectMoves(p: Plane, config: Config, verifies: Verifier, e: Event)
    requires !e.op.CreateTokenOp? && !e.op.EnrollOp?
    ensures AllMove(p, Effect(p, config, verifies, e), RevokedBy(p, e))
  {
    hide CreateToken, Enroll, Received, SocketLost, UpdatePolicy, Revoke, Dispatch, Settled, Finished, Cleaned, Resolve,
      AllMove, HasCapability;
    var q := Effect(p, config, verifies, e);
    StayingMoves(p, p);
    match e.op
    case ReceiveOp(s, incoming) => ReceivedMoves(p, verifies, s, incoming, e.now);
    case LostOp(s) => ClosedMoves(p, s);
    case UpdatePolicyOp(principal, name, patch, nonce, signature) =>
      var target := Resolve(p, principal.userId, name);
      if target.Some? {
        UpdateMoves(p, config, principal, target.value, patch, nonce, signature, e.now);
      }
    case RevokeOp(principal, name) =>
      var target := Resolve(p, principal.userId, name);
      if target.Some? {
        RevokeMoves(p, principal, target.value);
      }
    case ReadForPatchOp(_, _, _) =>
    case WritePatchOp(_, _, _, _) =>
    case _ => BookkeepingMoves(p, config, verifies, e);
  }

  lemma BookkeepingMoves(p: Plane, config: Config, verifies: Verifier, e: Event)
    requires e.op.DispatchOp? || e.op.TimeoutOp? || e.op.FinishOp? || e.op.CleanOp?
    ensures AllMove(p, Effect(p, config, verifies, e))
  {
    hide Dispatch, Settled, Finished, Cleaned, AllMove;
    var q := Effect(p, config, verifies, e);
    match e.op {
      case DispatchOp(principal, name, tool, args, requested, actionId, nonce, signature) =>
        DispatchFrame(p, config, principal, name, tool, args, requested, actionId, nonce, signature, e.now);
      case TimeoutOp(id) => SettledFrame(p, id, Rejected(AgentTimeout));
      case FinishOp(id) => FinishedFrame(p, id);
      case CleanOp => CleanedKeys(p, e.now);
    }
    StayingMoves(p, q);
  }

  // ---- An enrolled agent has a key ----

  ghost predicate Keyed(g: Agent) { g.status == Online || g.status == Offline ==> g.publicKey.Some? }

  lemma MovesKeyed(p: Plane, q: Plane, change: Change, revoked: Option<Text>, a: Text)
    requires a in p.agents && AllMove(p, q, revoked) && AgentsProgress(p.agents, q.agents, change) && !change.KeyGiven?
    requires PatchableAgent(p.agents[a]) && Keyed(p.agents[a]) && p.agents[a].status == Pending && a in p.connections
    ensures a in q.agents && (Keyed(q.agents[a]) <==> a in q.connections || revoked == Some(a))
  {
    hide SoundAgent;
    assert Moves(p, q, a, revoked) && Progresses(p.agents[a], q.agents[a], a, change);
  }

  lemma MovesKeyedOthers(p: Plane, q: Plane, change: Change, revoked: Option<Text>, a: Text)
    requires a in p.agents && AllMove(p, q, revoked) && AgentsProgress(p.agents, q.agents, change) && !change.KeyGiven?
    requires PatchableAgent(p.agents[a]) && Keyed(p.agents[a]) && !(p.agents[a].status == Pending && a in p.connections)
    ensures a in q.agents && Keyed(q.agents[a])
  {
    hide SoundAgent;
    assert Moves(p, q, a, revoked) && Progresses(p.agents[a], q.agents[a], a, change);
  }

  // ---- Which events close which sockets ----

  /** The event closes this socket if it is open: the peer closes it, or what it sends is refused, or the agent that is
      registered on it reconnects or is revoked. */
  ghost predicate Closes(p: Plane, verifies: Verifier, e: Event, s: nat) {
    match e.op
    case LostOp(t) => t == s
    case ReceiveOp(t, incoming) =>
      if incoming.None? || !Parses(incoming.value.message) then t == s
      else if incoming.value.message.Hello? then
        if HelloProblem(p, verifies, t, incoming.value, e.now).Some? then t == s
        else RegisteredOn(p, incoming.value.message.agentId, s)
      else !incoming.value.message.Result? && t == s
    case RevokeOp(_, _) => RevokedBy(p, e).Some? && RegisteredOn(p, RevokedBy(p, e).value, s)
    case _ => false
  }

  ghost predicate RegisteredOn(p: Plane, a: Text, s: nat) { a in p.connections && p.connections[a].socket == s }

  ghost predicate IsOpen(p: Plane, s: nat) { !SocketAt(p.sockets, s).closed }

  lemma ClosedStays(p: Plane, s: nat, a: Text)
    requires ConnectionRegistry.Registry(p) && a in p.connections
    ensures var t := p.connections[a].socket;
            (a in Closed(p, s).connections <==> !(t == s && IsOpen(p, t)))
            && (a in SocketLost(p, s).connections <==> !(t == s && IsOpen(p, t)))
            && (a in Closed(p, s).connections ==> Closed(p, s).connections[a] == p.connections[a])
  {
    hide TakenOffline;
    assert ConnectionRegistry.AttendedOn(a, SocketAt(p.sockets, p.connections[a].socket));
    assert SocketAt(p.sockets, s).closed == SocketAt(p.sockets, s).notified;
  }

  lemma RefusedStays(p: Plane, s: nat, code: ErrorCode, a: Text)
    requires ConnectionRegistry.Registry(p) && a in p.connections
    ensures var t := p.connections[a].socket; a in Refused(p, s, code).connections <==> !(t == s && IsOpen(p, t))
  {
    hide Closed, Send, ConnectionRegistry.Registry, ConnectionRegistry.Winds;
    var sent := Send(p, s, Problem(code));
    SendFrame(p, s, Problem(code));
    ConnectionRegistry.SendWinds(p, s, Problem(code));
    ConnectionRegistry.WindsKeeps(p, sent);
    ConnectionRegistry.SentSocket(p, s, Problem(code), p.connections[a].socket);
    ClosedStays(sent, s, a);
  }

  lemma RegisteredStays(p: Plane, s: nat, m: Message, now: int, a: Text)
    requires ConnectionRegistry.Registry(p) && m.Hello? && m.agentId in p.agents && a in p.connections
    requires a != m.agentId
    ensures var t := p.connections[a].socket;
            a in Registered(p, s, m, now).connections <==> !(RegisteredOn(p, m.agentId, t) && IsOpen(p, t))
  {
    hide Closed, Send, Remembered, Set, ConnectionRegistry.Registry, SocketAt;
    var b, agent := m.agentId, p.agents[m.agentId];
    var p1 := p.(helloNonces := p.helloNonces[b := Set(HelloNonces(p, b), Entry(m.nonce, now + AGENT_NONCE_TTL_MS))]);
    ConnectionRegistry.SameRegistry(p, p1);
    var p2 := if b in p.connections then Closed(p1, p.connections[b].socket) else p1;
    if b in p.connections {
      ClosedStays(p1, p.connections[b].socket, a);
    }
    var p3 := p2.(connections := p2.connections[b := Live(s, Remembered([], m.nonce, now))],
                  agents := p2.agents[b := agent.(status := Online, host := Some(m.host))]);
    var socket := SocketAt(p3.sockets, s);
    SendFrame(p3.(sockets := p3.sockets[s := socket.(handlers := socket.handlers + [b])]), s, Ready(b, agent.policy));
  }

  lemma CleanedSockets(p: Plane, now: int, a: Text)
    requires ConnectionRegistry.Registry(p)
    ensures var q := Cleaned(p, now);
            ConnectionRegistry.Registry(q) && q.sockets == p.sockets && q.agents == p.agents
            && (a in q.connections <==> a in p.connections)
            && (a in p.connections ==> q.connections[a].socket == p.connections[a].socket)
  {
    hide ConnectionRegistry.Registry, ConnectionRegistry.Winds, Pruned;
    ConnectionRegistry.CleanedWinds(p, now);
    ConnectionRegistry.WindsKeeps(p, Cleaned(p, now));
  }

  lemma GreetedStays(p: Plane, verifies: Verifier, s: nat, hello: Sealed, now: int, a: Text)
    requires ConnectionRegistry.Registry(p) && hello.message.Hello? && a in p.connections && a in p.agents
    requires p.agents[a].publicKey.None?
    ensures var t := p.connections[a].socket;
            a in Greeted(p, verifies, s, hello, now).connections
            <==> !((if HelloProblem(p, verifies, s, hello, now).Some? then s == t
                    else RegisteredOn(p, hello.message.agentId, t)) && IsOpen(p, t))
  {
    hide Registered, Refused, Cleaned, ConnectionRegistry.Registry, Has, SocketAt;
    var problem, cleaned := HelloProblem(p, verifies, s, hello, now), Cleaned(p, now);
    CleanedSockets(p, now, a);
    if problem.Some? {
      RefusedStays(p, s, problem.value, a);
      RefusedStays(cleaned, s, problem.value, a);
    } else {
      CleanedSockets(p, now, hello.message.agentId);
      RegisteredStays(cleaned, s, hello.message, now, a);
    }
  }

  lemma ReceivedStays(p: Plane, verifies: Verifier, e: Event, a: Text)
    requires ConnectionRegistry.Registry(p) && e.op.ReceiveOp? && a in p.connections && a in p.agents
    requires p.agents[a].publicKey.None?
    ensures var t := p.connections[a].socket;
            a in Received(p, verifies, e.op.s, e.op.incoming, e.now).connections
            <==> !(Closes(p, verifies, e, t) && IsOpen(p, t))
  {
    hide Greeted, Reported, Refused, Parses, ConnectionRegistry.Registry, HelloProblem, SocketAt;
    RefusedStays(p, e.op.s, InternalError, a);
    if e.op.incoming.Some? && e.op.incoming.value.message.Hello? {
      GreetedStays(p, verifies, e.op.s, e.op.incoming.value, e.now, a);
    } else if e.op.incoming.Some? && e.op.incoming.value.message.Result? {
      ReportedStays(p, verifies, e.op.s, e.op.incoming.value, e.now, a);
    }
  }

  lemma ReportedStays(p: Plane, verifies: Verifier, s: nat, result: Sealed, now: int, a: Text)
    requires result.message.Result?
    ensures a in Reported(p, verifies, s, result, now).connections <==> a in p.connections
  {
    hide Judged, Settled;
    if result.message.actionId in p.pending {
      var judged := Judged(p, verifies, s, result, now);
      JudgedConnections(p, verifies, s, result, now);
      SettledFrame(p.(connections := judged.0), result.message.actionId, judged.1);
    }
  }

  lemma RevokeStays(p: Plane, principal: Principal, b: Text, a: Text)
    requires ConnectionRegistry.Registry(p) && b in p.agents && a in p.connections && a != b
    requires HasCapability(principal, AgentsAdmin)
    ensures var t := p.connections[a].socket;
            a in Revoke(p, principal, b).0.connections <==> !(RegisteredOn(p, b, t) && IsOpen(p, t))
  {
    hide HasCapability, Closed, ConnectionRegistry.Registry, SocketAt;
    var written := p.(agents := p.agents[b := p.agents[b].(status := Revoked)]);
    ConnectionRegistry.SameRegistry(p, written);
    if b in p.connections {
      ClosedStays(written, p.connections[b].socket, a);
    }
  }

  /** A keyless agent that is connected stays so exactly unless it is revoked, or its socket is open and the event
      closes it. */
  lemma StaysExactlyUnless(p: Plane, config: Config, verifies: Verifier, e: Event, a: Text)
    requires ConnectionRegistry.Registry(p) && a in p.connections && a in p.agents && p.agents[a].publicKey.None?
    requires !e.op.CreateTokenOp? && !e.op.EnrollOp? && RevokedBy(p, e) != Some(a)
    ensures var t := p.connections[a].socket;
            a in Effect(p, config, verifies, e).connections <==> !(Closes(p, verifies, e, t) && IsOpen(p, t))
  {
    hide CreateToken, Enroll, Received, SocketLost, UpdatePolicy, Revoke, Dispatch, Settled, Finished, Cleaned, Resolve,
      ConnectionRegistry.Registry, HasCapability, HelloProblem, Parses, SocketAt;
    match e.op
    case ReceiveOp(_, _) => ReceivedStays(p, verifies, e, a);
    case LostOp(s) => ClosedStays(p, s, a);
    case RevokeOp(principal, name) =>
      var target := Resolve(p, principal.userId, name);
      if target.Some? {
        if HasCapability(principal, AgentsAdmin) {
          RevokeStays(p, principal, target.value, a);
        } else {
          RefusedRevoke(p, principal, target.value);
        }
      }
    case _ => OthersStay(p, config, verifies, e, a);
  }

  lemma RefusedRevoke(p: Plane, principal: Principal, a: Text)
    requires a in p.agents && !HasCapability(principal, AgentsAdmin)
    ensures Revoke(p, principal, a).0 == p
  {
    hide HasCapability, Closed;
  }

  lemma UpdateStays(p: Plane, config: Config, verifies: Verifier, e: Event)
    requires e.op.UpdatePolicyOp?
    ensures Effect(p, config, verifies, e).connections == p.connections
  {
    hide UpdatePolicy, Resolve;
    var o := e.op;
    var target := Resolve(p, o.principal.userId, o.name);
    if target.Some? {
      var a := target.value;
      UpdatePolicyFrame(p, config, o.principal, a, p.agents[a], o.patch, o.nonce, o.signature, e.now);
    }
  }

  lemma OthersStay(p: Plane, config: Config, verifies: Verifier, e: Event, a: Text)
    requires !e.op.CreateTokenOp? && !e.op.EnrollOp? && !e.op.ReceiveOp? && !e.op.LostOp? && !e.op.RevokeOp?
    ensures a in Effect(p, config, verifies, e).connections <==> a in p.connections
  {
    hide UpdatePolicy, Dispatch, Settled, Finished, Cleaned, Resolve;
    match e.op {
      case UpdatePolicyOp(_, _, _, _, _) => UpdateStays(p, config, verifies, e);
      case DispatchOp(principal, name, tool, args, requested, actionId, nonce, signature) =>
        DispatchFrame(p, config, principal, name, tool, args, requested, actionId, nonce, signature, e.now);
      case TimeoutOp(id) => SettledFrame(p, id, Rejected(AgentTimeout));
      case FinishOp(id) => FinishedFrame(p, id);
      case CleanOp => CleanedKeys(p, e.now);
      case _ =>
    }
  }

  /** The event closes the open socket on which an agent is registered whose record says it is still pending, and does
      not revoke that agent. */
  ghost predicate LeavesPending(p: Plane, verifies: Verifier, e: Event, a: Text)
    requires a in p.agents
  {
    p.agents[a].status == Pending && a in p.connections && RevokedBy(p, e) != Some(a)
    && IsOpen(p, p.connections[a].socket) && Closes(p, verifies, e, p.connections[a].socket)
  }

  lemma PatchableOf(sys: System, a: Text)
    requires Patchable(sys) && a in sys.plane.agents
    ensures PatchableAgent(sys.plane.agents[a])
  {}

  /** Over one step, from keyed records: an agent is online or offline without a key afterwards exactly if the event
      closes the open socket it is registered on while its record says it is pending. */
  lemma KeyedExactlyUnless(sys: System, config: Config, verifies: Verifier, e: Event, a: Text)
    requires Patchable(sys) && ConnectionRegistry.Registry(sys.plane) && Enabled(sys, e)
    requires a in sys.plane.agents && Keyed(sys.plane.agents[a])
    requires WritesBack(sys, e, a) ==> Keyed(sys.edits[e.op.edit].agent)
    ensures var q := Next(sys, config, verifies, e).plane;
            a in q.agents && (Keyed(q.agents[a]) <==> !LeavesPending(sys.plane, verifies, e, a))
  {
    hide Patchable, Effect, UpdatePolicy, HasCapability, Resolve, AgentsProgress, TokensProgress, EditSound, AllMove,
      PatchableAgent, ConnectionRegistry.Registry, IsOpen, HelloProblem, Parses;
    var p := sys.plane;
    PatchableOf(sys, a);
    StaysThere(sys, config, verifies, e, a);
    if e.op.WritePatchOp? {
      var x := sys.edits[e.op.edit];
      EditIsKnown(sys, e.op.edit);
      KnownAgent(x, p.agents);
      if HasCapability(x.principal, AgentsAdmin) {
        WriteRestores(p, config, x.principal, x.a, x.agent, e.op.patch, e.op.nonce, e.op.signature, e.now);
      } else {
        RefusedUpdate(p, config, x, e);
      }
    } else if e.op.CreateTokenOp? || e.op.EnrollOp? {
      EnrollmentChanges(p, config, verifies, e, a);
    } else if !e.op.ReadForPatchOp? {
      NextTokens(sys);
      EffectProgresses(p, config, verifies, e);
      EffectMoves(p, config, verifies, e);
      EffectKeyed(p, config, verifies, e, a);
    }
  }

  lemma EffectKeyed(p: Plane, config: Config, verifies: Verifier, e: Event, a: Text)
    requires ConnectionRegistry.Registry(p) && a in p.agents && Keyed(p.agents[a]) && PatchableAgent(p.agents[a])
    requires !e.op.CreateTokenOp? && !e.op.EnrollOp?
    requires AgentsProgress(p.agents, Effect(p, config, verifies, e).agents, ChangeBy(p, e))
    requires AllMove(p, Effect(p, config, verifies, e), RevokedBy(p, e))
    ensures var q := Effect(p, config, verifies, e);
            a in q.agents && (Keyed(q.agents[a]) <==> !LeavesPending(p, verifies, e, a))
  {
    hide Effect, AgentsProgress, AllMove, ConnectionRegistry.Registry, IsOpen, Closes, RevokedBy, HasCapability,
      Resolve, PolicySound;
    var q := Effect(p, config, verifies, e);
    if p.agents[a].status == Pending && a in p.connections {
      MovesKeyed(p, q, ChangeBy(p, e), RevokedBy(p, e), a);
      if RevokedBy(p, e) != Some(a) {
        StaysExactlyUnless(p, config, verifies, e, a);
      }
    } else {
      MovesKeyedOthers(p, q, ChangeBy(p, e), RevokedBy(p, e), a);
    }
  }

  /** Creating a token changes no agent that is there, and enrolling makes one offline with a key. */
  lemma EnrollmentChanges(p: Plane, config: Config, verifies: Verifier, e: Event, a: Text)
    requires (e.op.CreateTokenOp? || e.op.EnrollOp?) && a in p.agents
    ensures var q := Effect(p, config, verifies, e);
            a in q.agents
            && (q.agents[a] == p.agents[a] || (q.agents[a].status == Offline && q.agents[a].publicKey.Some?))
  {
    hide CreateToken, Enroll;
    var o := e.op;
    if o.CreateTokenOp? {
      CreateChanges(p, config, o.principal, o.alias, o.profile, o.agentId, o.tokenHash, e.now, a);
    } else {
      EnrollChanges(p, o.tokenHash, o.publicKey, o.keyIsValid, o.host, e.now, a);
    }
  }

  lemma CreateChanges(
    p: Plane, config: Config, principal: Principal, alias: Text, profile: Profile, agentId: Text, tokenHash: Text,
    now: int, a: Text)
    requires a in p.agents
    ensures var q := CreateToken(p, config, principal, alias, profile, agentId, tokenHash, now).0;
            a in q.agents && q.agents[a] == p.agents[a]
  {
    hide CreateAgentPolicy, HasCapability, ByAlias;
  }

  lemma EnrollChanges(p: Plane, tokenHash: Text, publicKey: Text, keyIsValid: bool, host: Host, now: int, a: Text)
    requires a in p.agents
    ensures var q := Enroll(p, tokenHash, publicKey, keyIsValid, host, now).0;
            a in q.agents
            && (q.agents[a] == p.agents[a] || (q.agents[a].status == Offline && q.agents[a].publicKey.Some?))
  {
    hide HostParses;
  }

  /** Who becomes pending while connected: exactly a connected agent over which a pending record is written back. */
  lemma PendingConnectedExactlyByWrite(sys: System, config: Config, verifies: Verifier, e: Event, a: Text)
    requires Patchable(sys) && Enabled(sys, e) && a in sys.plane.agents && e.op.WritePatchOp?
    ensures var p, q := sys.plane, Next(sys, config, verifies, e).plane;
            a in q.agents
            && (q.agents[a].status == Pending && a in q.connections
                <==> a in p.connections
                     && if WritesBack(sys, e, a) then sys.edits[e.op.edit].agent.status == Pending
                        else p.agents[a].status == Pending)
  {
    hide Patchable, UpdatePolicy, HasCapability, EditSound;
    var p, x := sys.plane, sys.edits[e.op.edit];
    EditIsKnown(sys, e.op.edit);
    KnownAgent(x, p.agents);
    if HasCapability(x.principal, AgentsAdmin) {
      WriteRestores(p, config, x.principal, x.a, x.agent, e.op.patch, e.op.nonce, e.op.signature, e.now);
    } else {
      RefusedUpdate(p, config, x, e);
    }
  }

  /** No other step makes an agent pending, or connects one that is. */
  lemma PendingConnectedOnlyByWrite(sys: System, config: Config, verifies: Verifier, e: Event, a: Text)
    requires Patchable(sys) && Enabled(sys, e) && a in sys.plane.agents && !e.op.WritePatchOp?
    ensures var p, q := sys.plane, Next(sys, config, verifies, e).plane;
            a in q.agents
            && (q.agents[a].status == Pending && a in q.connections ==>
                  p.agents[a].status == Pending && a in p.connections)
  {
    hide Patchable, Effect, Resolve, AgentsProgress, TokensProgress, AllMove;
    var p, q := sys.plane, Effect(sys.plane, config, verifies, e);
    StaysThere(sys, config, verifies, e, a);
    if e.op.CreateTokenOp? || e.op.EnrollOp? {
      EnrollmentChanges(p, config, verifies, e, a);
      EnrollmentConnections(p, config, verifies, e);
    } else if !e.op.ReadForPatchOp? {
      EffectMoves(p, config, verifies, e);
      NextTokens(sys);
      EffectProgresses(p, config, verifies, e);
      MovesPending(p, q, ChangeBy(p, e), RevokedBy(p, e), a);
    }
  }

  lemma MovesPending(p: Plane, q: Plane, change: Change, revoked: Option<Text>, a: Text)
    requires a in p.agents && AllMove(p, q, revoked) && AgentsProgress(p.agents, q.agents, change)
    ensures a in q.agents && (q.agents[a].status == Pending && a in q.connections ==>
              p.agents[a].status == Pending && a in p.connections)
  {
    hide SoundAgent;
    assert Moves(p, q, a, revoked) && Progresses(p.agents[a], q.agents[a], a, change);
  }

  /** All records, also those that a PATCH has read, have a key if they are online or offline. */
  ghost predicate AllKeyed(sys: System) {
    (forall a :: a in sys.plane.agents ==> Keyed(sys.plane.agents[a]))
    && forall k :: k in sys.edits ==> Keyed(sys.edits[k].agent)
  }

  ghost predicate KeyedThroughout(sys: System, config: Config, verifies: Verifier, events: seq<Event>)
    decreases |events|
  {
    AllKeyed(sys)
    && (events == []
        || KeyedThroughout(Next(sys, config, verifies, events[0]), config, verifies, events[1..]))
  }

  /** No event of the run closes an open socket on which a pending agent is registered. */
  ghost predicate NobodyPendingLeaves(sys: System, config: Config, verifies: Verifier, events: seq<Event>)
    decreases |events|
  {
    events == []
    || ((forall a :: a in sys.plane.agents ==> !LeavesPending(sys.plane, verifies, events[0], a))
        && NobodyPendingLeaves(Next(sys, config, verifies, events[0]), config, verifies, events[1..]))
  }

  lemma EditsKeyed(sys: System, config: Config, verifies: Verifier, e: Event)
    requires AllKeyed(sys)
    ensures var edits := Next(sys, config, verifies, e).edits; forall k :: k in edits ==> Keyed(edits[k].agent)
  {
    hide Effect, UpdatePolicy, Resolve;
  }

  lemma NewAgentKeyed(sys: System, config: Config, verifies: Verifier, e: Event, a: Text)
    requires Patchable(sys) && a !in sys.plane.agents && a in Next(sys, config, verifies, e).plane.agents
    ensures Keyed(Next(sys, config, verifies, e).plane.agents[a])
  {
    hide Patchable, Effect, UpdatePolicy, Resolve, AgentsProgress, TokensProgress, SameStore, HasCapability;
    if e.op.WritePatchOp? && e.op.edit in sys.edits {
      var x := sys.edits[e.op.edit];
      UpdateStore(sys.plane, config, x.principal, x.a, x.agent, e.op.patch, e.op.nonce, e.op.signature, e.now);
      SameAgents(sys.plane, Next(sys, config, verifies, e).plane, a);
    } else {
      NextTokens(sys);
      EffectProgresses(sys.plane, config, verifies, e);
      NewIsSound(sys.plane, Effect(sys.plane, config, verifies, e), ChangeBy(sys.plane, e), a);
    }
  }

  lemma SameAgents(p: Plane, q: Plane, a: Text)
    requires SameStore(p, q)
    ensures a in q.agents <==> a in p.agents
  {}

  lemma NewIsSound(p: Plane, q: Plane, change: Change, a: Text)
    requires AgentsProgress(p.agents, q.agents, change) && a !in p.agents && a in q.agents
    ensures SoundAgent(q.agents[a])
  {}

  lemma NextKeyed(sys: System, config: Config, verifies: Verifier, e: Event)
    requires Patchable(sys) && ConnectionRegistry.Registry(sys.plane) && Enabled(sys, e) && AllKeyed(sys)
    ensures AllKeyed(Next(sys, config, verifies, e))
            <==> forall a :: a in sys.plane.agents ==> !LeavesPending(sys.plane, verifies, e, a)
  {
    hide Patchable, Next, Enabled, HasCapability, Keyed, LeavesPending, ConnectionRegistry.Registry;
    var next := Next(sys, config, verifies, e);
    EditsKeyed(sys, config, verifies, e);
    forall a | a in sys.plane.agents
      ensures a in next.plane.agents
              && (Keyed(next.plane.agents[a]) <==> !LeavesPending(sys.plane, verifies, e, a))
    {
      KeyedExactlyUnless(sys, config, verifies, e, a);
    }
    forall a | a in next.plane.agents && a !in sys.plane.agents ensures Keyed(next.plane.agents[a]) {
      NewAgentKeyed(sys, config, verifies, e, a);
    }
  }

  /** Over every run: an agent that is online or offline has a key throughout exactly if no event closes the open socket
      of an agent whose record says it is pending - which takes a pending record written back over a connected agent. */
  lemma {:induction false} KeyedExactlyWhileNobodyPendingLeaves(
    sys: System, config: Config, verifies: Verifier, events: seq<Event>, last: System)
    requires Patchable(sys) && ConnectionRegistry.Registry(sys.plane) && Runs(sys, config, verifies, events, last)
    requires AllKeyed(sys)
    ensures KeyedThroughout(sys, config, verifies, events)
            <==> NobodyPendingLeaves(sys, config, verifies, events)
    decreases |events|
  {
    if events != [] {
      hide Patchable, Next, Enabled, AllKeyed, LeavesPending, ConnectionRegistry.Registry;
      var next := Next(sys, config, verifies, events[0]);
      NextPatchable(sys, config, verifies, events[0]);
      ConnectionRegistry.NextKeeps(sys, config, verifies, events[0]);
      NextKeyed(sys, config, verifies, events[0]);
      if AllKeyed(next) {
        KeyedExactlyWhileNobodyPendingLeaves(next, config, verifies, events[1..], last);
      } else {
        NotKeyedNow(next, config, verifies, events[1..]);
      }
    }
  }

  lemma NotKeyedNow(sys: System, config: Config, verifies: Verifier, events: seq<Event>)
    requires !AllKeyed(sys)
    ensures !KeyedThroughout(sys, config, verifies, events)
  {}

  /** No connected agent is pending. */
  ghost predicate NobodyPendingConnected(p: Plane) {
    forall a :: a in p.connections && a in p.agents ==> p.agents[a].status != Pending
  }

  /** No pending record is written back over a connected agent. */
  ghost predicate NoPendingWrite(sys: System, config: Config, verifies: Verifier, events: seq<Event>)
    decreases |events|
  {
    events == []
    || ((forall a :: WritesBack(sys, events[0], a) && a in sys.plane.connections ==>
           sys.edits[events[0].op.edit].agent.status != Pending)
        && NoPendingWrite(Next(sys, config, verifies, events[0]), config, verifies, events[1..]))
  }

  lemma NextConnected(sys: System, config: Config, verifies: Verifier, e: Event)
    requires Patchable(sys) && Enabled(sys, e) && NobodyPendingConnected(sys.plane)
    requires forall a :: WritesBack(sys, e, a) && a in sys.plane.connections ==>
               sys.edits[e.op.edit].agent.status != Pending
    ensures var q := Next(sys, config, verifies, e).plane;
            forall a :: a in sys.plane.agents && a in q.agents && a in q.connections ==> q.agents[a].status != Pending
  {
    hide Patchable, Next, Enabled, HasCapability;
    var q := Next(sys, config, verifies, e).plane;
    forall a | a in sys.plane.agents && a in q.agents && a in q.connections ensures q.agents[a].status != Pending {
      if e.op.WritePatchOp? {
        PendingConnectedExactlyByWrite(sys, config, verifies, e, a);
      } else {
        PendingConnectedOnlyByWrite(sys, config, verifies, e, a);
      }
    }
  }

  /** Only agents that were there before are connected. */
  lemma NextConnections(sys: System, config: Config, verifies: Verifier, e: Event)
    requires Patchable(sys) && Enabled(sys, e) && sys.plane.connections.Keys <= sys.plane.agents.Keys
    ensures var q := Next(sys, config, verifies, e).plane;
            q.connections.Keys <= sys.plane.agents.Keys <= q.agents.Keys
  {
    hide Patchable, Effect, UpdatePolicy, Resolve, SameStore;
    var p, q := sys.plane, Next(sys, config, verifies, e).plane;
    NextAges(sys, config, verifies, e);
    if e.op.WritePatchOp? {
      var x := sys.edits[e.op.edit];
      UpdatePolicyFrame(p, config, x.principal, x.a, x.agent, e.op.patch, e.op.nonce, e.op.signature, e.now);
    } else if e.op.CreateTokenOp? || e.op.EnrollOp? {
      EnrollmentConnections(p, config, verifies, e);
    } else if !e.op.ReadForPatchOp? {
      EffectMoves(p, config, verifies, e);
    }
  }

  lemma EnrollmentConnections(p: Plane, config: Config, verifies: Verifier, e: Event)
    requires e.op.CreateTokenOp? || e.op.EnrollOp?
    ensures Effect(p, config, verifies, e).connections == p.connections
  {
    hide CreateToken, Enroll;
    var o := e.op;
    if o.CreateTokenOp? {
      CreateTokenFrame(p, config, o.principal, o.alias, o.profile, o.agentId, o.tokenHash, e.now);
    } else {
      EnrollFrame(p, o.tokenHash, o.publicKey, o.keyIsValid, o.host, e.now);
    }
  }

  lemma NobodyLeaves(p: Plane, verifies: Verifier, e: Event)
    requires NobodyPendingConnected(p)
    ensures forall a :: a in p.agents ==> !LeavesPending(p, verifies, e, a)
  {
    hide Closes, IsOpen, RevokedBy;
  }

  /** So an agent that is online or offline has a key throughout every run in which no PATCH writes a pending record
      back over a connected agent. */
  lemma {:induction false} KeyedIfNoPendingWrite(
    sys: System, config: Config, verifies: Verifier, events: seq<Event>, last: System)
    requires Patchable(sys) && ConnectionRegistry.Registry(sys.plane) && Runs(sys, config, verifies, events, last)
    requires AllKeyed(sys) && NobodyPendingConnected(sys.plane) && sys.plane.connections.Keys <= sys.plane.agents.Keys
    requires NoPendingWrite(sys, config, verifies, events)
    ensures KeyedThroughout(sys, config, verifies, events)
    decreases |events|
  {
    if events != [] {
      hide Patchable, Next, Enabled, AllKeyed, LeavesPending, WritesBack, ConnectionRegistry.Registry;
      var next := Next(sys, config, verifies, events[0]);
      NextPatchable(sys, config, verifies, events[0]);
      NextConnected(sys, config, verifies, events[0]);
      NobodyLeaves(sys.plane, verifies, events[0]);
      ConnectionRegistry.NextKeeps(sys, config, verifies, events[0]);
      NextKeyed(sys, config, verifies, events[0]);
      NextConnections(sys, config, verifies, events[0]);
      KeyedIfNoPendingWrite(next, config, verifies, events[1..], last);
    }
  }

  // ---- The lifecycle ----

  /** The lifecycle holds, and what PATCH requests have read fits it. */
  ghost predicate Regular(sys: System) {
    Lifecycle(sys.plane) && Patchable(sys) && forall k :: k in sys.edits ==> SoundAgent(sys.edits[k].agent)
  }

  /** If the step writes back a record, the record was online if and only if the agent is connected now. */
  ghost predicate WritesInStep(sys: System, e: Event) {
    forall a :: WritesBack(sys, e, a) ==> (sys.edits[e.op.edit].agent.status == Online <==> a in sys.plane.connections)
  }

  lemma NextRegular(sys: System, config: Config, verifies: Verifier, e: Event)
    requires Regular(sys) && Enabled(sys, e)
    ensures Lifecycle(Next(sys, config, verifies, e).plane) <==> WritesInStep(sys, e)
    ensures WritesInStep(sys, e) ==> Regular(Next(sys, config, verifies, e))
  {
    hide Lifecycle, Patchable, Effect, HasCapability, SoundAgent, EditSound, UpdatePolicy, Resolve;
    NextPatchable(sys, config, verifies, e);
    ReadIsSound(sys, config, verifies, e);
    if e.op.WritePatchOp? {
      var x := sys.edits[e.op.edit];
      EditIsKnown(sys, e.op.edit);
      OneEdit(sys, e.op.edit);
      if HasCapability(x.principal, AgentsAdmin) {
        assert WritesBack(sys, e, x.a);
        WriteKeepsLifecycleExactlyWhen(sys.plane, config, x, e);
      } else {
        RefusedUpdate(sys.plane, config, x, e);
      }
    } else {
      EffectKeeps(sys.plane, config, verifies, e);
    }
  }

  lemma OneEdit(sys: System, k: nat)
    requires Patchable(sys) && k in sys.edits
    ensures EditsKeyless(map[k := sys.edits[k]], sys.plane.tokens)
  {
    hide TokensSound, IndexSound, AgentsPatchable, EditsSound;
  }

  lemma ReadIsSound(sys: System, config: Config, verifies: Verifier, e: Event)
    requires Regular(sys)
    ensures var edits := Next(sys, config, verifies, e).edits; forall k :: k in edits ==> SoundAgent(edits[k].agent)
  {
    hide Effect, UpdatePolicy, Resolve, SoundAgent, TokensSound, IndexSound, OnlineIffConnected, Patchable;
  }

  ghost predicate LifecycleThroughout(sys: System, config: Config, verifies: Verifier, events: seq<Event>)
    decreases |events|
  {
    Lifecycle(sys.plane)
    && (events == []
        || LifecycleThroughout(Next(sys, config, verifies, events[0]), config, verifies, events[1..]))
  }

  ghost predicate AllWritesInStep(sys: System, config: Config, verifies: Verifier, events: seq<Event>)
    decreases |events|
  {
    events == []
    || (WritesInStep(sys, events[0])
        && AllWritesInStep(Next(sys, config, verifies, events[0]), config, verifies, events[1..]))
  }

  /** Over every run: the lifecycle holds throughout exactly if every record that a PATCH writes back was online if and
      only if the agent is connected at that moment. */
  lemma {:induction false} LifecycleExactlyWhileWritesInStep(
    sys: System, config: Config, verifies: Verifier, events: seq<Event>, last: System)
    requires Regular(sys) && Runs(sys, config, verifies, events, last)
    ensures LifecycleThroughout(sys, config, verifies, events) <==> AllWritesInStep(sys, config, verifies, events)
    decreases |events|
  {
    if events != [] {
      hide Lifecycle, Patchable, Next, Enabled, WritesInStep;
      var next := Next(sys, config, verifies, events[0]);
      NextRegular(sys, config, verifies, events[0]);
      if WritesInStep(sys, events[0]) {
        LifecycleExactlyWhileWritesInStep(next, config, verifies, events[1..], last);
      } else {
        NoLifecycleNow(next, config, verifies, events[1..]);
      }
    }
  }

  lemma NoLifecycleNow(sys: System, config: Config, verifies: Verifier, events: seq<Event>)
    requires !Lifecycle(sys.plane)
    ensures !LifecycleThroughout(sys, config, verifies, events)
  {
    hide Lifecycle;
  }

  lemma StartIsRegular()
    ensures Regular(START) && AllKeyed(START)
  {}

  // ---- One write ----

  /** A write does no harm at all - it keeps the lifecycle, and for its agent revocation, key and version - exactly when
      the record that was read agrees with the one it is written over on these: online as the agent is connected, not
      unrevoked, with the key it has, and with its version. */
  lemma WriteIsHarmlessExactlyWhen(sys: System, config: Config, verifies: Verifier, e: Event, a: Text)
    requires Regular(sys) && Enabled(sys, e) && a in sys.plane.agents && WritesBack(sys, e, a)
    ensures var q, g, read := Next(sys, config, verifies, e).plane, sys.plane.agents[a], sys.edits[e.op.edit].agent;
            a in q.agents
            && (Lifecycle(q) && (forall c: Clause :: Keeps(c, g, q.agents[a], true))
                <==> (read.status == Online <==> a in sys.plane.connections)
                     && (g.status == Revoked ==> read.status == Revoked)
                     && (g.publicKey.Some? ==> read.publicKey == g.publicKey)
                     && read.policyVersion == g.policyVersion)
  {
    hide Lifecycle, Patchable, Next, Enabled, HasCapability, SoundAgent;
    var q, g, read := Next(sys, config, verifies, e).plane, sys.plane.agents[a], sys.edits[e.op.edit].agent;
    NextRegular(sys, config, verifies, e);
    assert WritesInStep(sys, e) <==> (read.status == Online <==> a in sys.plane.connections);
    forall c: Clause ensures a in q.agents && (Keeps(c, g, q.agents[a], true) <==> !Breaks(c, g, read)) {
      StepKeepsExactlyUnless(c, sys, config, verifies, e, a);
    }
    assert !Breaks(RevocationStays, g, read) <==> (g.status == Revoked ==> read.status == Revoked);
    assert !Breaks(KeyStays, g, read) <==> (g.publicKey.Some? ==> read.publicKey == g.publicKey);
    assert !Breaks(VersionRises, g, read) <==> read.policyVersion == g.policyVersion;
  }
}

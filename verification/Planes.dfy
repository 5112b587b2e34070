/** The state of the control plane and what each of its handlers does to it (src/remote/control-plane.ts,
    src/remote/store.ts). Between two awaits a handler is not interrupted, so each function is one step.
    PlaneService.dfy carries these steps out on an object; PlaneRuns.dfy says what every run keeps. */
module Planes {
  import opened JsText
  import opened CanonicalJson
  import opened RemoteTypes
  import opened Envelopes
  import opened NonceWindows

  const HELLO_WINDOW_MS := 300_000
  const LATEST_INSTANT := 8_640_000_000_000_000

  datatype Config = Config(enrollmentTokenTtlSeconds: int, maxActionTimeoutSeconds: int, maxOutputBytes: int)

  // ---- The store ----

  datatype Status = Pending | Online | Offline | Revoked

  datatype Agent = Agent(
    userId: Text, alias: Text, status: Status, publicKey: Option<Text>, profile: Profile, policy: AgentPolicy,
    policyVersion: int, host: Option<Host>)

  datatype Token = Token(agentId: Text, expiresAt: int, used: bool)

  datatype Action = Action(
    userId: Text, agentId: Text, tool: Tool, capability: Capability, args: map<Text, Doc>, issuedAt: int,
    deadline: int)

  datatype RowStatus = Sent | Completed | TimedOut | Errored

  /** What the promise of a dispatched action came to. */
  datatype Outcome = Resolved(result: Sealed) | Rejected(code: ErrorCode)

  datatype Row = Row(action: Action, status: RowStatus, outcome: Option<Outcome>)

  // ---- Connections ----

  datatype Outgoing = Problem(code: ErrorCode) | Ready(agentId: Text, policy: AgentPolicy) | Command(sealed: Sealed)

  /** `handlers` are the agents whose close handlers are on the socket. */
  datatype Socket = Socket(closed: bool, notified: bool, handlers: seq<Text>, sent: seq<Outgoing>)

  const FRESH_SOCKET := Socket(false, false, [], [])

  datatype Live = Live(socket: nat, seenNonces: Window)

  // ---- The control plane ----

  /** `aliases` is the table's unique index on owner and alias. The last two fields record what has happened: how often
      each action's promise was settled, and what was signed with the control plane's key, in order. */
  datatype Plane = Plane(
    agents: map<Text, Agent>,
    aliases: map<(Text, Text), Text>,
    tokens: map<Text, Token>,
    connections: map<Text, Live>,
    helloNonces: map<Text, Window>,
    pending: map<Text, Action>,
    timers: set<Text>,
    rows: map<Text, Row>,
    outcomes: map<Text, Outcome>,
    finished: set<Text>,
    sockets: map<nat, Socket>,
    settlements: multiset<Text>,
    signed: seq<Sealed>)

  const EMPTY_PLANE :=
    Plane(map[], map[], map[], map[], map[], map[], {}, map[], map[], {}, map[], multiset{}, [])

  function SocketAt(sockets: map<nat, Socket>, s: nat): Socket { if s in sockets then sockets[s] else FRESH_SOCKET }

  function Min(a: int, b: int): int { if a <= b then a else b }

  function Abs(a: int): int { if a < 0 then -a else a }

  // ---- Sockets ----

  function Send(p: Plane, s: nat, out: Outgoing): Plane {
    var socket := SocketAt(p.sockets, s);
    if socket.closed then p else p.(sockets := p.sockets[s := socket.(sent := socket.sent + [out])])
  }

  /** The agents whose close handlers find this socket still registered for them. */
  function Gone(connections: map<Text, Live>, s: nat, handlers: seq<Text>): set<Text> {
    set a | a in connections && connections[a].socket == s && a in handlers
  }

  function TakenOffline(agents: map<Text, Agent>, gone: set<Text>): map<Text, Agent> {
    map a | a in agents ::
      if a in gone && agents[a].status != Revoked then agents[a].(status := Offline) else agents[a]
  }

  /** The close handlers run, once. */
  function Notified(p: Plane, s: nat): Plane {
    var socket := SocketAt(p.sockets, s);
    if socket.notified then p
    else
      var gone := Gone(p.connections, s, socket.handlers);
      p.(connections := p.connections - gone,
         agents := TakenOffline(p.agents, gone),
         sockets := p.sockets[s := socket.(notified := true)])
  }

  function MarkedClosed(p: Plane, s: nat): Plane {
    p.(sockets := p.sockets[s := SocketAt(p.sockets, s).(closed := true)])
  }

  function Closed(p: Plane, s: nat): Plane {
    if SocketAt(p.sockets, s).closed then p else Notified(MarkedClosed(p, s), s)
  }

  /** The peer closed the socket. */
  function SocketLost(p: Plane, s: nat): Plane { Notified(MarkedClosed(p, s), s) }

  function Refused(p: Plane, s: nat, code: ErrorCode): Plane { Closed(Send(p, s, Problem(code)), s) }

  // ---- Cleaning up ----

  function PrunedNonces(nonces: map<Text, Window>, now: int): map<Text, Window> {
    map a | a in nonces && Pruned(nonces[a], now) != [] :: Pruned(nonces[a], now)
  }

  function PrunedConnections(connections: map<Text, Live>, now: int): map<Text, Live> {
    map a | a in connections :: connections[a].(seenNonces := Pruned(connections[a].seenNonces, now))
  }

  function Cleaned(p: Plane, now: int): Plane {
    p.(helloNonces := PrunedNonces(p.helloNonces, now), connections := PrunedConnections(p.connections, now))
  }

  // ---- Looking agents up ----

  function ByAlias(p: Plane, userId: Text, alias: Text): (r: Option<Text>)
    ensures r.Some? ==> r.value in p.agents
  {
    if (userId, alias) in p.aliases && p.aliases[(userId, alias)] in p.agents then Some(p.aliases[(userId, alias)])
    else None
  }

  /** The agent a caller names: by its id if the caller owns it, and otherwise by the caller's alias for it. */
  function Resolve(p: Plane, userId: Text, name: Text): (r: Option<Text>)
    ensures r.Some? ==> r.value in p.agents
  {
    if name == [] then None
    else if name in p.agents && p.agents[name].userId == userId then Some(name)
    else ByAlias(p, userId, name)
  }

  // ---- Enrollment ----

  /** The alias comes without surrounding white space. A revoked agent's alias passes the handler's own check,
      but the table's uniqueness rule still refuses it. */
  function CreateToken(
    p: Plane, config: Config, principal: Principal, alias: Text, profile: Profile, agentId: Text, tokenHash: Text,
    now: int): (Plane, Reply<()>)
  {
    if !HasCapability(principal, AgentsAdmin) then (p, Failed(InvalidScope))
    else if alias == [] then (p, Failed(Forbidden))
    else if var holder := ByAlias(p, principal.userId, alias); holder.Some? && p.agents[holder.value].status != Revoked
    then (p, Failed(Forbidden))
    else if agentId in p.agents || (principal.userId, alias) in p.aliases then (p, Failed(InternalError))
    else
      var policy := CreateAgentPolicy(if profile == Operations || profile == FullAdmin then profile else ReadOnly);
      var agent := Agent(principal.userId, alias, Pending, None, policy.profile, policy, policy.version, None);
      var inserted := p.(
        agents := p.agents[agentId := agent], aliases := p.aliases[(principal.userId, alias) := agentId]);
      if tokenHash in p.tokens then (inserted, Failed(InternalError))
      else
        var token := Token(agentId, now + config.enrollmentTokenTtlSeconds * 1000, false);
        (inserted.(tokens := p.tokens[tokenHash := token]), Done(()))
  }

  datatype Enrollment = Enrollment(agentId: Text, policy: AgentPolicy)

  /** `keyIsValid` says that the key is an Ed25519 public key. */
  function Enroll(p: Plane, tokenHash: Text, publicKey: Text, keyIsValid: bool, host: Host, now: int)
    : (Plane, Reply<Enrollment>)
  {
    if !HostParses(host) then (p, Failed(InternalError))
    else if !keyIsValid then (p, Failed(Forbidden))
    else if tokenHash !in p.tokens || p.tokens[tokenHash].used || p.tokens[tokenHash].expiresAt < now then
      (p, Failed(InvalidToken))
    else
      var token := p.tokens[tokenHash];
      if token.agentId !in p.agents || p.agents[token.agentId].status == Revoked then (p, Failed(AgentNotFound))
      else
        var agent := p.agents[token.agentId];
        var enrolled := agent.(status := Offline, publicKey := Some(publicKey), host := Some(host));
        (p.(tokens := p.tokens[tokenHash := token.(used := true)], agents := p.agents[token.agentId := enrolled]),
         Done(Enrollment(token.agentId, agent.policy)))
  }

  // ---- Hello ----

  function HelloNonces(p: Plane, a: Text): Window { if a in p.helloNonces then p.helloNonces[a] else [] }

  predicate Enrolled(p: Plane, a: Text) {
    a in p.agents && p.agents[a].status != Revoked && p.agents[a].publicKey.Some?
  }

  /** Why a hello on socket s is refused, if it is. */
  function HelloProblem(p: Plane, verifies: Verifier, s: nat, hello: Sealed, now: int): Option<ErrorCode>
    requires hello.message.Hello?
  {
    var m := hello.message;
    var cleaned := Cleaned(p, now);
    if !Enrolled(p, m.agentId) then Some(AgentNotFound)
    else if !verifies(p.agents[m.agentId].publicKey.value, hello) then Some(SignatureInvalid)
    else if Abs(now - m.timestamp) > HELLO_WINDOW_MS then Some(ActionExpired)
    else if m.agentId in p.connections && p.connections[m.agentId].socket == s then Some(ActionReplayDetected)
    else if Has(HelloNonces(cleaned, m.agentId), m.nonce) then Some(ActionReplayDetected)
    else None
  }

  /** The old connection is closed before the new one is registered, and its close handlers run at once; the record
      that is then written back is the one read at the start. */
  function Registered(p: Plane, s: nat, m: Message, now: int): Plane
    requires m.Hello? && m.agentId in p.agents
  {
    var a, agent := m.agentId, p.agents[m.agentId];
    var p1 := p.(helloNonces := p.helloNonces[a := Set(HelloNonces(p, a), Entry(m.nonce, now + AGENT_NONCE_TTL_MS))]);
    var p2 := if a in p.connections then Closed(p1, p.connections[a].socket) else p1;
    var p3 := p2.(
      connections := p2.connections[a := Live(s, Remembered([], m.nonce, now))],
      agents := p2.agents[a := agent.(status := Online, host := Some(m.host))]);
    var socket := SocketAt(p3.sockets, s);
    var p4 := p3.(sockets := p3.sockets[s := socket.(handlers := socket.handlers + [a])]);
    Send(p4, s, Ready(a, agent.policy))
  }

  function Greeted(p: Plane, verifies: Verifier, s: nat, hello: Sealed, now: int): Plane
    requires hello.message.Hello?
  {
    var problem := HelloProblem(p, verifies, s, hello, now);
    if problem == Some(ActionReplayDetected) then Refused(Cleaned(p, now), s, ActionReplayDetected)
    else if problem.Some? then Refused(p, s, problem.value)
    else Registered(Cleaned(p, now), s, hello.message, now)
  }

  // ---- Results ----

  /** The promise of an action is resolved or rejected; only the first time has an effect on the promise. */
  function Settled(p: Plane, id: Text, outcome: Outcome): Plane {
    p.(pending := p.pending - {id},
       timers := p.timers - {id},
       outcomes := if id in p.outcomes then p.outcomes else p.outcomes[id := outcome],
       settlements := p.settlements + multiset{id})
  }

  /** What a result for a pending action makes of it, and what the connections remember afterwards. */
  function Judged(p: Plane, verifies: Verifier, s: nat, result: Sealed, now: int): (map<Text, Live>, Outcome)
    requires result.message.Result? && result.message.actionId in p.pending
  {
    var m := result.message;
    if m.agentId !in p.agents || p.agents[m.agentId].publicKey.None?
       || !verifies(p.agents[m.agentId].publicKey.value, result) then
      (p.connections, Rejected(InternalError))
    else if p.pending[m.actionId].agentId != m.agentId || m.agentId !in p.connections
         || p.connections[m.agentId].socket != s then
      (p.connections, Rejected(SignatureInvalid))
    else
      var live := p.connections[m.agentId];
      var seen := Pruned(live.seenNonces, now);
      if Has(seen, m.nonce) then
        (p.connections[m.agentId := live.(seenNonces := seen)], Rejected(ActionReplayDetected))
      else
        (p.connections[m.agentId := live.(seenNonces := Remembered(seen, m.nonce, now))], Resolved(result))
  }

  function Reported(p: Plane, verifies: Verifier, s: nat, result: Sealed, now: int): Plane
    requires result.message.Result?
  {
    if result.message.actionId !in p.pending then p
    else
      var (connections, outcome) := Judged(p, verifies, s, result, now);
      Settled(p.(connections := connections), result.message.actionId, outcome)
  }

  /** A text message from a socket: nothing when it is not the JSON of an envelope. */
  function Received(p: Plane, verifies: Verifier, s: nat, incoming: Option<Sealed>, now: int): Plane {
    if incoming.None? || !Parses(incoming.value.message) then Refused(p, s, InternalError)
    else
      match incoming.value.message
      case Hello(_, _, _, _, _, _) => Greeted(p, verifies, s, incoming.value, now)
      case Result(_, _, _, _, _) => Reported(p, verifies, s, incoming.value, now)
      case _ => Refused(p, s, InternalError)
  }

  // ---- Agents and their policies ----

  function NextPolicy(config: Config, version: int, patch: PolicyPatch): AgentPolicy {
    var merged := MergeCustomPolicy(patch);
    merged.(maxActionTimeoutSeconds := Min(merged.maxActionTimeoutSeconds, config.maxActionTimeoutSeconds),
            maxOutputBytes := Min(merged.maxOutputBytes, config.maxOutputBytes),
            version := version)
  }

  /** Writes a changed policy over the record `agent`, as it was read for the agent a, and tells the agent. */
  function UpdatePolicy(
    p: Plane, config: Config, principal: Principal, a: Text, agent: Agent, patch: PolicyPatch, nonce: Text,
    signature: Text, now: int): (Plane, Reply<Agent>)
  {
    if !HasCapability(principal, AgentsAdmin) then (p, Failed(InvalidScope))
    else
      var version := agent.policyVersion + 1;
      var policy := NextPolicy(config, version, patch);
      var updated := agent.(profile := policy.profile, policy := policy, policyVersion := version);
      var written := p.(agents := if a in p.agents then p.agents[a := updated] else p.agents);
      if a !in p.connections then (written, Done(updated))
      else
        var sealed := Sealed(PolicyUpdate(a, policy, version, now, nonce), signature);
        (Send(written.(signed := written.signed + [sealed]), p.connections[a].socket, Command(sealed)), Done(updated))
  }

  function Revoke(p: Plane, principal: Principal, a: Text): (Plane, Reply<()>)
    requires a in p.agents
  {
    if !HasCapability(principal, AgentsAdmin) then (p, Failed(InvalidScope))
    else
      var written := p.(agents := p.agents[a := p.agents[a].(status := Revoked)]);
      var closed := if a in p.connections then Closed(written, p.connections[a].socket) else written;
      (closed.(connections := closed.connections - {a}), Done(()))
  }

  // ---- Dispatch ----

  /** The number that args.timeout_seconds reads as. */
  datatype Requested = Absent | Milliseconds(ms: int) | NotANumber

  function TimeoutMs(config: Config, agent: Agent, requested: Requested): Option<int> {
    var most := Min(agent.policy.maxActionTimeoutSeconds, config.maxActionTimeoutSeconds) * 1000;
    match requested
    case Absent => Some(most)
    case Milliseconds(ms) => Some(Min(ms, most))
    case NotANumber => None
  }

  /** Why a call is refused before anything is signed, if it is. */
  function DispatchProblem(
    p: Plane, config: Config, principal: Principal, name: Text, tool: Tool, requested: Requested, now: int)
    : Option<ErrorCode>
  {
    var target := Resolve(p, principal.userId, name);
    if !HasCapability(principal, ToolCapability(tool)) then Some(InvalidScope)
    else if target.None? then Some(AgentNotFound)
    else
      var agent := p.agents[target.value];
      if ToolCapability(tool) !in agent.policy.capabilities then Some(CapabilityDenied)
      else if agent.status == Revoked then Some(AgentRevoked)
      else if target.value !in p.connections then Some(AgentOffline)
      else
        var timeout := TimeoutMs(config, agent, requested);
        if timeout.None? || Abs(now + timeout.value) > LATEST_INSTANT then Some(InternalError) else None
  }

  /** The request is signed and, unless its id is in use, kept and sent. */
  function Issue(
    p: Plane, config: Config, principal: Principal, a: Text, tool: Tool, args: map<Text, Doc>, timeoutMs: int,
    actionId: Text, nonce: Text, signature: Text, now: int): (Plane, Reply<Message>)
    requires a in p.agents && a in p.connections
  {
    var agent, capability, deadline := p.agents[a], ToolCapability(tool), now + timeoutMs;
    var request :=
      Request(actionId, a, principal.userId, tool, capability, args, agent.policyVersion, now, deadline, nonce);
    var sealed := Sealed(request, signature);
    var recorded := p.(signed := p.signed + [sealed]);
    if actionId in p.rows then (recorded, Failed(InternalError))
    else
      var action := Action(principal.userId, a, tool, capability, args, now, deadline);
      (Send(recorded.(rows := p.rows[actionId := Row(action, Sent, None)],
                     pending := p.pending[actionId := action],
                     timers := p.timers + {actionId}),
            p.connections[a].socket, Command(sealed)),
       Done(request))
  }

  /** A call of one of the tools that run on an agent. A deadline that is no date fails before anything is kept;
      an action id already in use fails after the request was signed. */
  function Dispatch(
    p: Plane, config: Config, principal: Principal, name: Text, tool: Tool, args: map<Text, Doc>,
    requested: Requested, actionId: Text, nonce: Text, signature: Text, now: int): (Plane, Reply<Message>)
  {
    var problem := DispatchProblem(p, config, principal, name, tool, requested, now);
    if problem.Some? then (p, Failed(problem.value))
    else
      var a := Resolve(p, principal.userId, name).value;
      Issue(p, config, principal, a, tool, args, TimeoutMs(config, p.agents[a], requested).value, actionId, nonce,
            signature, now)
  }

  /** The timer of an action fires. It does not ask whether the action is still pending. */
  function Expired(p: Plane, id: Text): Plane { Settled(p, id, Rejected(AgentTimeout)) }

  function FinalStatus(outcome: Outcome): RowStatus {
    match outcome
    case Resolved(result) => if result.message.Result? && result.message.ok then Completed else Errored
    case Rejected(code) => if code == AgentTimeout then TimedOut else Errored
  }

  /** The dispatching call resumes after its promise was settled and records the outcome. */
  function Finished(p: Plane, id: Text): Plane
    requires id in p.outcomes
  {
    var outcome := p.outcomes[id];
    p.(rows := if id in p.rows then p.rows[id := Row(p.rows[id].action, FinalStatus(outcome), Some(outcome))]
               else p.rows,
       finished := p.finished + {id})
  }
}

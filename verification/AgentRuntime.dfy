/** The outbound agent: which messages it acts on, which actions it executes, and the actions it remembers
    (src/remote/agent-cli.ts, src/remote/agent-executor.ts). */
module AgentRuntime {
  import opened JsText
  import opened CanonicalJson
  import opened RemoteTypes
  import opened Envelopes
  import opened NonceWindows

  const MAX_SEEN_ACTIONS := 10_000

  /** An action that passed the checks of the message handler, with the agent's policy version and the executor's
      policy when it did. */
  datatype Acceptance = Acceptance(request: Message, now: int, localVersion: int, policy: AgentPolicy)

  /** A running agent. Its policy is kept three times: in the configuration, in the executor and on disk. `accepted` and
      `executed` record what has happened. */
  datatype Process = Process(
    agentId: Text,
    planeKey: Text,
    policy: AgentPolicy,
    executorPolicy: AgentPolicy,
    savedPolicy: AgentPolicy,
    seenActions: Window,
    accepted: seq<Acceptance>,
    executed: seq<Acceptance>)

  function Started(agentId: Text, planeKey: Text, savedPolicy: AgentPolicy): Process {
    Process(agentId, planeKey, savedPolicy, savedPolicy, savedPolicy, [], [], [])
  }

  function RememberedAction(seen: Window, id: Text, deadline: int, now: int): Window {
    var pruned := Pruned(seen, now);
    if Has(pruned, id) then pruned else LastOf(Set(pruned, Entry(id, deadline)), MAX_SEEN_ACTIONS)
  }

  predicate TakesUpdate(p: Process, verifies: Verifier, sealed: Sealed) {
    var m := sealed.message;
    m.PolicyUpdate? && Parses(m) && m.agentId == p.agentId && verifies(p.planeKey, sealed)
  }

  predicate Accepts(p: Process, verifies: Verifier, sealed: Sealed, now: int) {
    var m := sealed.message;
    m.Request? && Parses(m) && m.agentId == p.agentId && !Has(p.seenActions, m.actionId)
    && now <= m.deadline
    && (m.policyVersion == p.policy.version || m.policyVersion == p.policy.version + 1)
    && verifies(p.planeKey, sealed)
  }

  /** The executor runs an action if its policy enables the capability that the request names, and if the tool is one
      it has. */
  predicate Executes(policy: AgentPolicy, m: Message)
    requires m.Request?
  {
    m.capability in policy.capabilities && IsAgentTool(m.tool)
  }

  function Accept(p: Process, m: Message, now: int): Process
    requires m.Request?
  {
    var acceptance := Acceptance(m, now, p.policy.version, p.executorPolicy);
    p.(seenActions := RememberedAction(p.seenActions, m.actionId, m.deadline, now),
       accepted := p.accepted + [acceptance],
       executed := if Executes(p.executorPolicy, m) then p.executed + [acceptance] else p.executed)
  }

  function TakePolicy(p: Process, policy: AgentPolicy): Process {
    p.(policy := policy, executorPolicy := policy, savedPolicy := policy)
  }

  /** A message from the control plane's connection: nothing when it is not the JSON of an envelope. */
  function Received(p: Process, verifies: Verifier, incoming: Option<Sealed>, now: int): Process {
    if incoming.None? then p
    else if TakesUpdate(p, verifies, incoming.value) then TakePolicy(p, incoming.value.message.policy)
    else if Accepts(p, verifies, incoming.value, now) then Accept(p, incoming.value.message, now)
    else p
  }

  // ---- The agent as it runs ----

  /** What the handler makes of a message. A refused action is answered with an error. */
  datatype Reaction = Ignored | PolicyTaken | Run(request: Message) | Refuse(request: Message, code: ErrorCode)

  function ReactionTo(p: Process, verifies: Verifier, incoming: Option<Sealed>, now: int): Reaction {
    if incoming.None? then Ignored
    else
      var m := incoming.value.message;
      if TakesUpdate(p, verifies, incoming.value) then PolicyTaken
      else if !Accepts(p, verifies, incoming.value, now) then Ignored
      else if m.capability !in p.executorPolicy.capabilities then Refuse(m, CapabilityDenied)
      else if !IsAgentTool(m.tool) then Refuse(m, InternalError)
      else Run(m)
  }

  class Agent {
    const agentId: Text
    const planeKey: Text
    const verifies: Verifier

    var policy: AgentPolicy
    var executorPolicy: AgentPolicy
    var savedPolicy: AgentPolicy
    var seenActions: Window
    ghost var accepted: seq<Acceptance>
    ghost var executed: seq<Acceptance>

    ghost function State(): Process
      reads this
    {
      Process(agentId, planeKey, policy, executorPolicy, savedPolicy, seenActions, accepted, executed)
    }

    /** No action is remembered under the empty id. */
    ghost predicate Valid()
      reads this
    {
      Named(seenActions)
    }

    constructor (agentId: Text, planeKey: Text, verifies: Verifier, savedPolicy: AgentPolicy)
      ensures Valid() && State() == Started(agentId, planeKey, savedPolicy)
      ensures this.verifies == verifies
    {
      this.agentId, this.planeKey, this.verifies := agentId, planeKey, verifies;
      policy, executorPolicy, this.savedPolicy := savedPolicy, savedPolicy, savedPolicy;
      seenActions, accepted, executed := [], [], [];
    }

    /** Forgets what has expired, keeps the action unless it is known, and forgets the oldest while there are too
        many. */
    method RememberAction(id: Text, deadline: int, now: int) returns (isNew: bool)
      requires Valid() && id != []
      modifies this`seenActions
      ensures Valid() && seenActions == RememberedAction(old(seenActions), id, deadline, now)
      ensures isNew <==> !Has(Pruned(old(seenActions), now), id)
    {
      hide Pruned, Set;
      var remembered := new ExpiryMap();
      remembered.entries := seenActions;
      remembered.PruneNonceWindow(now);
      PrunedIsNamed(seenActions, now);
      var k := remembered.Find(id);
      if k < |remembered.entries| {
        seenActions := remembered.entries;
        return false;
      }
      SetIsNamed(remembered.entries, Entry(id, deadline));
      remembered.Put(Entry(id, deadline));
      seenActions := remembered.entries;
      ghost var was := seenActions;
      while |seenActions| > MAX_SEEN_ACTIONS && seenActions[0].value != []
        invariant Named(was) && |seenActions| <= |was| && seenActions == was[|was| - |seenActions|..]
        invariant |seenActions| >= MAX_SEEN_ACTIONS || seenActions == was
      {
        DropAgain(was, |was| - |seenActions|);
        seenActions := seenActions[1..];
      }
      assert seenActions != [] ==> seenActions[0] == was[|was| - |seenActions|];
      return true;
    }

    method OnMessage(incoming: Option<Sealed>, now: int) returns (reaction: Reaction)
      requires Valid()
      modifies this
      ensures Valid() && State() == Received(old(State()), verifies, incoming, now)
      ensures reaction == ReactionTo(old(State()), verifies, incoming, now)
    {
      hide Parses, RememberedAction, Has, Named;
      if incoming.None? || !Parses(incoming.value.message) {
        return Ignored;
      }
      var m := incoming.value.message;
      if m.PolicyUpdate? {
        if m.agentId == agentId && verifies(planeKey, incoming.value) {
          policy, executorPolicy, savedPolicy := m.policy, m.policy, m.policy;
          return PolicyTaken;
        }
        return Ignored;
      }
      if !m.Request? || m.agentId != agentId || Has(seenActions, m.actionId) {
        return Ignored;
      }
      if m.deadline < now {
        return Ignored;
      }
      if m.policyVersion != policy.version && m.policyVersion != policy.version + 1 {
        return Ignored;
      }
      if !verifies(planeKey, incoming.value) {
        return Ignored;
      }
      ParsedIsNamed(m);
      var isNew := RememberAction(m.actionId, m.deadline, now);
      reaction := Execute(m, now);
    }

    method Execute(m: Message, now: int) returns (reaction: Reaction)
      requires m.Request?
      modifies this`accepted, this`executed
      ensures var acceptance := Acceptance(m, now, policy.version, executorPolicy);
              accepted == old(accepted) + [acceptance]
              && executed == old(executed) + if Executes(executorPolicy, m) then [acceptance] else []
      ensures reaction == if Executes(executorPolicy, m) then Run(m)
                          else if m.capability in executorPolicy.capabilities then Refuse(m, InternalError)
                          else Refuse(m, CapabilityDenied)
    {
      ghost var acceptance := Acceptance(m, now, policy.version, executorPolicy);
      accepted := accepted + [acceptance];
      if m.capability !in executorPolicy.capabilities {
        return Refuse(m, CapabilityDenied);
      }
      if !IsAgentTool(m.tool) {
        return Refuse(m, InternalError);
      }
      executed := executed + [acceptance];
      return Run(m);
    }
  }

  ghost predicate Named(w: Window) { forall i :: 0 <= i < |w| ==> w[i].value != [] }

  lemma ParsedIsNamed(m: Message)
    requires m.Request? && Parses(m)
    ensures m.actionId != []
  {
    hide IsMessage;
  }

  lemma PrunedIsNamed(w: Window, now: int)
    requires Named(w)
    ensures Named(Pruned(w, now))
  {
    hide Pruned;
    PrunedMembers(w, now);
    forall i | 0 <= i < |Pruned(w, now)| ensures Pruned(w, now)[i].value != [] {
      assert Pruned(w, now)[i] in w;
    }
  }

  lemma SetIsNamed(w: Window, n: Entry)
    requires Named(w) && n.value != [] && !Has(w, n.value)
    ensures Named(Set(w, n))
  {
    hide Set;
    SetOfAbsent(w, n);
  }

  // ---- What the agent does with a message ----

  /** What the schemas ask of a request and of a policy update. */
  ghost predicate RequestFits(m: Message)
    requires m.Request?
  {
    m.agentId != [] && |m.nonce| >= 16 && m.actionId != [] && m.userId != [] && m.policyVersion >= 1
    && IsDoc(DObj(m.args))
  }

  ghost predicate UpdateFits(m: Message)
    requires m.PolicyUpdate?
  {
    m.agentId != [] && |m.nonce| >= 16 && m.policyVersion >= 1 && m.policy.version >= 1
    && 1 <= m.policy.maxOutputBytes <= 10_000_000 && 1 <= m.policy.maxActionTimeoutSeconds <= 3600
  }

  /** A request for this agent by the control plane, in time, with an id that is not remembered, under the agent's own
      policy version or the next. */
  ghost predicate ActsOn(p: Process, verifies: Verifier, sealed: Sealed, now: int) {
    var m := sealed.message;
    m.Request? && RequestFits(m) && m.agentId == p.agentId && verifies(p.planeKey, sealed) && now <= m.deadline
    && (forall e :: e in p.seenActions ==> e.value != m.actionId)
    && m.policyVersion - 1 <= p.policy.version <= m.policyVersion
  }

  /** A policy update for this agent by the control plane. */
  ghost predicate Follows(p: Process, verifies: Verifier, sealed: Sealed) {
    var m := sealed.message;
    m.PolicyUpdate? && UpdateFits(m) && m.agentId == p.agentId && verifies(p.planeKey, sealed)
  }

  /** The action has been accepted and its id is remembered; it is executed if the executor's policy enables its
      capability and an agent has its tool. */
  ghost predicate Acted(p: Process, q: Process, m: Message, now: int)
    requires m.Request?
  {
    var x := Acceptance(m, now, p.policy.version, p.executorPolicy);
    q == p.(seenActions := q.seenActions, accepted := p.accepted + [x], executed := q.executed)
    && Entry(m.actionId, m.deadline) in q.seenActions
    && q.executed
       == if m.capability in p.executorPolicy.capabilities
             && m.tool in {GetSystemStatus, TailLogs, RestartService, DockerPs, DockerLogs, DockerRestart, FileRead,
                           FileWrite, RunShell, RunShellAsRoot}
          then p.executed + [x] else p.executed
  }

  lemma RequestParses(m: Message)
    requires m.Request?
    ensures Parses(m) <==> RequestFits(m)
  {
    hide Fixed, IsDoc;
    if RequestFits(m) {
      RequestIsMessage(m);
    }
  }

  lemma UpdateParses(m: Message)
    requires m.PolicyUpdate?
    ensures Parses(m) <==> UpdateFits(m)
  {
    hide IsMessage;
    MessageOfUpdate(m);
  }

  lemma AcceptedIsRemembered(seen: Window, id: Text, deadline: int, now: int)
    requires !Has(seen, id)
    ensures Entry(id, deadline) in RememberedAction(seen, id, deadline, now)
  {
    hide Pruned, Set;
    var pruned := Pruned(seen, now);
    AbsentAfterPruning(seen, id, now);
    SetOfAbsent(pruned, Entry(id, deadline));
    var w := pruned + [Entry(id, deadline)];
    assert LastOf(w, MAX_SEEN_ACTIONS)[|LastOf(w, MAX_SEEN_ACTIONS)| - 1] == Entry(id, deadline);
  }

  /** What the agent does with a message: an update it follows replaces all three copies of its policy with the very
      policy that the update carries, a request it acts on is accepted, and nothing else has any effect. */
  lemma HandledExactlyHow(p: Process, verifies: Verifier, sealed: Sealed, now: int)
    ensures var m, q := sealed.message, Received(p, verifies, Some(sealed), now);
            if Follows(p, verifies, sealed) then
              q == p.(policy := m.policy, executorPolicy := m.policy, savedPolicy := m.policy)
            else if ActsOn(p, verifies, sealed, now) then Acted(p, q, m, now)
            else q == p
  {
    hide Parses, RequestFits, UpdateFits, RememberedAction;
    var m := sealed.message;
    if m.Request? {
      RequestParses(m);
      if !Has(p.seenActions, m.actionId) {
        AcceptedIsRemembered(p.seenActions, m.actionId, m.deadline, now);
      }
    } else if m.PolicyUpdate? {
      UpdateParses(m);
    }
  }

  /** What the agent answers: nothing to an update or to what it does not act on, and otherwise that it runs the
      action, or why it does not. */
  lemma ReactsExactlyHow(p: Process, verifies: Verifier, incoming: Option<Sealed>, now: int)
    ensures ReactionTo(p, verifies, incoming, now)
            == if incoming.None? then Ignored
               else if Follows(p, verifies, incoming.value) then PolicyTaken
               else if !ActsOn(p, verifies, incoming.value, now) then Ignored
               else
                 var m := incoming.value.message;
                 if m.capability !in p.executorPolicy.capabilities then Refuse(m, CapabilityDenied)
                 else if m.tool in {GetSystemStatus, TailLogs, RestartService, DockerPs, DockerLogs, DockerRestart,
                                    FileRead, FileWrite, RunShell, RunShellAsRoot} then Run(m)
                 else Refuse(m, InternalError)
  {
    hide Parses, RequestFits, UpdateFits;
    if incoming.Some? {
      if incoming.value.message.Request? {
        RequestParses(incoming.value.message);
      } else if incoming.value.message.PolicyUpdate? {
        UpdateParses(incoming.value.message);
      }
    }
  }

  // ---- Runs of the agent ----

  /** A message as it arrives; what verifies may change from one to the next, as more is signed. */
  datatype Delivery = Delivery(incoming: Option<Sealed>, now: int, verifies: Verifier)

  ghost function Handled(p: Process, d: Delivery): Process { Received(p, d.verifies, d.incoming, d.now) }

  /** The agent after the deliveries, at times that never go back. */
  ghost predicate Delivers(p: Process, clock: int, ds: seq<Delivery>, last: Process)
    decreases |ds|
  {
    if |ds| == 0 then last == p
    else clock <= ds[0].now && Delivers(Handled(p, ds[0]), ds[0].now, ds[1..], last)
  }

  /** Every request for this action that verifies carries this deadline: the control plane signs one request for it. */
  ghost predicate OneDeadline(planeKey: Text, ds: seq<Delivery>, id: Text, deadline: int) {
    forall k :: 0 <= k < |ds| && ds[k].incoming.Some? ==> RespectsDeadline(planeKey, ds[k], id, deadline)
  }

  ghost predicate RespectsDeadline(planeKey: Text, d: Delivery, id: Text, deadline: int)
    requires d.incoming.Some?
  {
    var m := d.incoming.value.message;
    m.Request? && Parses(m) && m.actionId == id && d.verifies(planeKey, d.incoming.value) ==> m.deadline == deadline
  }

  // ---- What is remembered ----

  function EntryOf(x: Acceptance): Entry {
    if x.request.Request? then Entry(x.request.actionId, x.request.deadline) else Entry([], 0)
  }

  function Entries(log: seq<Acceptance>): (w: Window)
    ensures |w| == |log|
  {
    if log == [] then [] else Entries(log[..|log| - 1]) + [EntryOf(log[|log| - 1])]
  }

  /** How many actions of the log have not reached their deadline. */
  function Unexpired(log: seq<Acceptance>, now: int): (n: nat)
    ensures n <= |log|
  {
    |Pruned(Entries(log), now)|
  }

  /** The acceptance at position j leaves an action with this deadline remembered: it came before the deadline, and
      fewer than 9,999 of those accepted before it were unexpired. */
  predicate Spares(log: seq<Acceptance>, j: nat, deadline: int)
    requires j < |log|
  {
    log[j].now < deadline && Unexpired(log[..j], log[j].now) < 9_999
  }

  predicate Undisturbed(log: seq<Acceptance>, deadline: int) {
    forall j :: 0 <= j < |log| ==> Spares(log, j, deadline)
  }

  /** The entries that the acceptances of the log have left. */
  function Tail(log: seq<Acceptance>): Window {
    if log == [] then []
    else Pruned(Entries(log[..|log| - 1]), log[|log| - 1].now) + [EntryOf(log[|log| - 1])]
  }

  /** The entry is there, and after it what the acceptances of the log have left. */
  ghost predicate Kept(w: Window, x: Entry, log: seq<Acceptance>) {
    exists before: Window :: !Has(before, x.value) && w == before + [x] + Tail(log)
  }

  ghost predicate Without(log: seq<Acceptance>, id: Text) {
    forall j :: 0 <= j < |log| ==> log[j].request.Request? && log[j].request.actionId != id
  }

  /** Times that never go back, up to the clock. */
  ghost predicate Timed(log: seq<Acceptance>, clock: int) {
    (forall i, j :: 0 <= i < j < |log| ==> log[i].now <= log[j].now)
    && forall j :: 0 <= j < |log| ==> log[j].now <= clock
  }

  lemma AbsentAfterPruning(w: Window, id: Text, now: int)
    requires !Has(w, id)
    ensures !Has(Pruned(w, now), id)
  {
    hide Pruned;
    PrunedHas(w, id, now);
  }

  lemma {:induction false} EntriesWithout(log: seq<Acceptance>, id: Text)
    requires Without(log, id)
    ensures !Has(Entries(log), id)
  {
    if log != [] {
      var init := log[..|log| - 1];
      EntriesWithout(init, id);
      assert log[|log| - 1].request.actionId != id;
    }
  }

  lemma {:induction false} PrunedTwice(w: Window, early: int, late: int)
    requires early <= late
    ensures Pruned(Pruned(w, early), late) == Pruned(w, late)
  {
    if w != [] {
      PrunedTwice(w[1..], early, late);
      PrunedCons(w[0], Pruned(w[1..], early), late);
    }
  }

  /** Pruning what is left is pruning all that was accepted. */
  lemma TailPrunes(log: seq<Acceptance>, now: int)
    requires log != [] ==> log[|log| - 1].now <= now
    ensures Pruned(Tail(log), now) == Pruned(Entries(log), now)
  {
    hide Pruned;
    if log != [] {
      var init, last := log[..|log| - 1], log[|log| - 1];
      PrunedConcat(Pruned(Entries(init), last.now), [EntryOf(last)], now);
      PrunedTwice(Entries(init), last.now, now);
      PrunedConcat(Entries(init), [EntryOf(last)], now);
    }
  }

  lemma LogSlices(log: seq<Acceptance>, y: Acceptance)
    ensures (log + [y])[..|log|] == log && |log + [y]| == |log| + 1 && (log + [y])[|log|] == y
    ensures Tail(log + [y]) == Pruned(Entries(log), y.now) + [EntryOf(y)]
  {
    assert (log + [y])[..|log|] == log;
  }

  lemma UndisturbedNext(log: seq<Acceptance>, y: Acceptance, deadline: int)
    ensures Undisturbed(log + [y], deadline)
            <==> Undisturbed(log, deadline) && y.now < deadline && Unexpired(log, y.now) < 9_999
  {
    hide Unexpired;
    var more := log + [y];
    assert more[..|log|] == log && more[|log|] == y;
    assert forall j :: 0 <= j < |log| ==> more[..j] == log[..j] && more[j] == log[j];
    assert Spares(more, |log|, deadline)
           <==> y.now < deadline && Unexpired(log, y.now) < 9_999;
    assert forall j :: 0 <= j < |log| ==> (Spares(more, j, deadline) <==> Spares(log, j, deadline));
  }

  lemma TailWithout(log: seq<Acceptance>, id: Text, now: int)
    requires Without(log, id)
    ensures !Has(Pruned(Entries(log), now), id)
  {
    hide Pruned;
    EntriesWithout(log, id);
    AbsentAfterPruning(Entries(log), id, now);
  }

  /** One more acceptance of another action: the entry stays exactly if the acceptance spares it. */
  lemma OneMore(w: Window, x: Entry, log: seq<Acceptance>, y: Acceptance)
    requires Kept(w, x, log) && Without(log, x.value) && Timed(log, y.now)
    requires y.request.Request? && y.request.actionId != x.value && !Has(w, y.request.actionId)
    ensures var after := RememberedAction(w, y.request.actionId, y.request.deadline, y.now);
            if y.now < x.expiresAt && Unexpired(log, y.now) < 9_999 then Kept(after, x, log + [y])
            else !Has(after, x.value)
  {
    hide Pruned, Entries, Tail, Unexpired;
    var before: Window :| !Has(before, x.value) && w == before + [x] + Tail(log);
    var n, rest := EntryOf(y), Pruned(Entries(log), y.now);
    var b := Pruned(before, y.now);
    TailPrunes(log, y.now);
    PrunedAround(before, x, Tail(log), y.now);
    AbsentAfterPruning(w, n.value, y.now);
    SetOfAbsent(Pruned(w, y.now), n);
    AbsentAfterPruning(before, x.value, y.now);
    TailWithout(log, x.value, y.now);
    LogSlices(log, y);
    if y.now < x.expiresAt {
      KeptIfFew(b, x, rest, n);
      assert |rest| == Unexpired(log, y.now) by {
        UnexpiredIs(log, y.now);
      }
    } else {
      LastIsWithin(b + rest + [n]);
    }
  }

  lemma UnexpiredIs(log: seq<Acceptance>, now: int)
    ensures Unexpired(log, now) == |Pruned(Entries(log), now)|
  {}

  lemma PrunedAround(before: Window, x: Entry, after: Window, now: int)
    ensures Pruned(before + [x] + after, now)
            == if now < x.expiresAt then Pruned(before, now) + [x] + Pruned(after, now)
               else Pruned(before, now) + Pruned(after, now)
  {
    hide Pruned;
    PrunedConcat(before + [x], after, now);
    PrunedConcat(before, [x], now);
    PrunedOne(x, now);
    assert Pruned(before, now) + [] == Pruned(before, now);
  }

  /** The entry with what came after it, and one more: among the last exactly if there are few. */
  lemma KeptIfFew(b: Window, x: Entry, rest: Window, n: Entry)
    requires !Has(b, x.value) && !Has(rest, x.value) && n.value != x.value
    ensures var after := LastOf(b + [x] + rest + [n], 10_000);
            if |rest| < 9_999 then
              exists v: Window :: !Has(v, x.value) && after == v + [x] + (rest + [n])
            else !Has(after, x.value)
  {
    Regroup(b + [x], rest, [n]);
    KeptAmongLast(b, x, rest + [n]);
    if |rest| < 9_999 {
      LastKeeps(b, x, rest + [n]);
      FewerBefore(b, x);
    }
  }

  lemma Regroup(a: Window, b: Window, c: Window)
    ensures a + b + c == a + (b + c)
  {}

  lemma LastKeeps(v: Window, x: Entry, w: Window)
    requires |w| < 10_000
    ensures LastOf(v + [x] + w, 10_000) == LastOf(v, 9_999 - |w|) + [x] + w
  {}

  lemma FewerBefore(v: Window, x: Entry)
    requires !Has(v, x.value)
    ensures forall k: nat :: !Has(LastOf(v, k), x.value)
  {}

  lemma ForgottenStays(w: Window, id: Text, y: Acceptance)
    requires !Has(w, id) && y.request.Request? && y.request.actionId != id && !Has(w, y.request.actionId)
    ensures !Has(RememberedAction(w, y.request.actionId, y.request.deadline, y.now), id)
  {
    hide Pruned;
    var n := EntryOf(y);
    AbsentAfterPruning(w, n.value, y.now);
    AbsentAfterPruning(w, id, y.now);
    SetOfAbsent(Pruned(w, y.now), n);
    LastIsWithin(Pruned(w, y.now) + [n]);
  }

  /** Since the first `base` acceptances, at the end of which x was remembered, the others have been as in the log; the
      action is remembered exactly if they all spared it. */
  ghost predicate Tracked(p: Process, clock: int, x: Entry, base: nat) {
    base <= |p.accepted|
    && var log := p.accepted[base..];
       Without(log, x.value) && Timed(log, clock)
       && if Undisturbed(log, x.expiresAt) then Kept(p.seenActions, x, log) else !Has(p.seenActions, x.value)
  }

  lemma KeptIsSeen(w: Window, x: Entry, log: seq<Acceptance>)
    requires Kept(w, x, log)
    ensures Has(w, x.value)
  {
    hide Tail;
    var before: Window :| !Has(before, x.value) && w == before + [x] + Tail(log);
    assert w[|before|] == x && x in w;
  }

  lemma TrackedIsSeen(p: Process, clock: int, x: Entry, base: nat)
    requires Tracked(p, clock, x, base)
    ensures Has(p.seenActions, x.value) <==> Undisturbed(p.accepted[base..], x.expiresAt)
  {
    hide Kept, Undisturbed;
    if Undisturbed(p.accepted[base..], x.expiresAt) {
      KeptIsSeen(p.seenActions, x, p.accepted[base..]);
    }
  }

  lemma StartTracking(p: Process, verifies: Verifier, x: Sealed, now: int)
    requires Accepts(p, verifies, x, now)
    ensures var q := Received(p, verifies, Some(x), now);
            q.accepted == p.accepted + [Acceptance(x.message, now, p.policy.version, p.executorPolicy)]
            && Tracked(q, now, Entry(x.message.actionId, x.message.deadline), |p.accepted| + 1)
  {
    hide Pruned, Parses, Executes;
    var q, n := Received(p, verifies, Some(x), now), Entry(x.message.actionId, x.message.deadline);
    var pruned := Pruned(p.seenActions, now);
    AbsentAfterPruning(p.seenActions, n.value, now);
    SetOfAbsent(pruned, n);
    assert pruned + [n] == pruned + [n] + [];
    LastKeeps(pruned, n, []);
    FewerBefore(pruned, n);
    assert q.accepted[|p.accepted| + 1..] == [];
    assert Kept(q.seenActions, n, []);
  }

  /** A delivery either accepts nothing, or accepts a request that was not remembered. */
  lemma HandledCases(p: Process, d: Delivery)
    ensures var q := Handled(p, d);
            q.planeKey == p.planeKey && q.agentId == p.agentId
            && ((q.accepted == p.accepted && q.seenActions == p.seenActions)
                || (d.incoming.Some? && Accepts(p, d.verifies, d.incoming.value, d.now)
                    && var m := d.incoming.value.message;
                       q.accepted == p.accepted + [Acceptance(m, d.now, p.policy.version, p.executorPolicy)]
                       && q.seenActions == RememberedAction(p.seenActions, m.actionId, m.deadline, d.now)))
  {
    hide RememberedAction, Parses, Executes, Has;
  }

  lemma StepTracks(p: Process, clock: int, d: Delivery, x: Entry, base: nat)
    requires Tracked(p, clock, x, base) && clock <= d.now
    requires Without(Handled(p, d).accepted[|p.accepted|..], x.value)
    ensures Tracked(Handled(p, d), d.now, x, base)
  {
    hide Kept, Undisturbed, RememberedAction, Handled, Accepts, Unexpired, Has;
    var q := Handled(p, d);
    HandledCases(p, d);
    if q.accepted != p.accepted {
      assert !Has(p.seenActions, d.incoming.value.message.actionId) by {
        AcceptedIsNew(p, d);
      }
      var log, y := p.accepted[base..], q.accepted[|p.accepted|];
      assert q.accepted[base..] == log + [y] && q.accepted[|p.accepted|..] == [y];
      assert y.request.actionId != x.value by {
        assert q.accepted[|p.accepted|..][0] == y;
      }
      UndisturbedNext(log, y, x.expiresAt);
      if Undisturbed(log, x.expiresAt) {
        OneMore(p.seenActions, x, log, y);
      } else {
        ForgottenStays(p.seenActions, x.value, y);
      }
    }
  }

  lemma AcceptedIsNew(p: Process, d: Delivery)
    requires d.incoming.Some? && Accepts(p, d.verifies, d.incoming.value, d.now)
    ensures d.incoming.value.message.Request? && !Has(p.seenActions, d.incoming.value.message.actionId)
    ensures d.now <= d.incoming.value.message.deadline && Parses(d.incoming.value.message)
    ensures d.verifies(p.planeKey, d.incoming.value)
  {
    hide Parses, Has;
  }

  lemma {:induction false} AcceptedGrows(p: Process, clock: int, ds: seq<Delivery>, last: Process)
    requires Delivers(p, clock, ds, last)
    ensures |p.accepted| <= |last.accepted| && last.accepted[..|p.accepted|] == p.accepted
    ensures last.planeKey == p.planeKey && last.agentId == p.agentId
    decreases |ds|
  {
    hide Handled, Accepts;
    if |ds| != 0 {
      var q := Handled(p, ds[0]);
      HandledCases(p, ds[0]);
      AcceptedGrows(q, ds[0].now, ds[1..], last);
      assert q.accepted[..|p.accepted|] == p.accepted;
      assert last.accepted[..|q.accepted|][..|p.accepted|] == last.accepted[..|p.accepted|];
    }
  }

  lemma {:induction false} RunTracks(
    p: Process, clock: int, ds: seq<Delivery>, last: Process, x: Entry, base: nat) returns (now: int)
    requires Tracked(p, clock, x, base) && Delivers(p, clock, ds, last)
    requires |p.accepted| <= |last.accepted| && Without(last.accepted[|p.accepted|..], x.value)
    ensures Tracked(last, now, x, base)
    decreases |ds|
  {
    hide Tracked, Handled, Without;
    if |ds| == 0 {
      return clock;
    }
    var q := Handled(p, ds[0]);
    AcceptedGrows(q, ds[0].now, ds[1..], last);
    HandledCases(p, ds[0]);
    WithoutParts(last.accepted, |p.accepted|, |q.accepted|, x.value);
    assert q.accepted[|p.accepted|..] == last.accepted[|p.accepted|..|q.accepted|];
    StepTracks(p, clock, ds[0], x, base);
    now := RunTracks(q, ds[0].now, ds[1..], last, x, base);
  }

  lemma WithoutParts(log: seq<Acceptance>, i: nat, j: nat, id: Text)
    requires i <= j <= |log| && Without(log[i..], id)
    ensures Without(log[i..j], id) && Without(log[j..], id)
  {
    assert forall k :: 0 <= k < j - i ==> log[i..j][k] == log[i..][k];
    assert forall k :: 0 <= k < |log| - j ==> log[j..][k] == log[i..][k + j - i];
  }

  /** After any deliveries in which the action is not accepted again, it is still remembered exactly when every later
      acceptance came before its deadline and met fewer than 9,999 unexpired later acceptances. */
  lemma RememberedExactlyWhileSpared(
    p: Process, verifies: Verifier, x: Sealed, now: int, ds: seq<Delivery>, last: Process)
    requires Accepts(p, verifies, x, now) && Delivers(Received(p, verifies, Some(x), now), now, ds, last)
    requires |p.accepted| < |last.accepted| ==> Without(last.accepted[|p.accepted| + 1..], x.message.actionId)
    ensures |p.accepted| < |last.accepted|
    ensures Has(last.seenActions, x.message.actionId)
            <==> Undisturbed(last.accepted[|p.accepted| + 1..], x.message.deadline)
  {
    hide Tracked, Undisturbed, Without, Has, Received, Delivers, Accepts, Parses;
    AcceptedIsNew(p, Delivery(Some(x), now, verifies));
    var q := Received(p, verifies, Some(x), now);
    StartTracking(p, verifies, x, now);
    AcceptedGrows(q, now, ds, last);
    var clock := RunTracks(q, now, ds, last, Entry(x.message.actionId, x.message.deadline), |p.accepted| + 1);
    TrackedIsSeen(last, clock, Entry(x.message.actionId, x.message.deadline), |p.accepted| + 1);
  }

  /** Every acceptance up to the deadline spares the action. */
  ghost predicate SparedInTime(log: seq<Acceptance>, deadline: int) {
    forall j :: 0 <= j < |log| && log[j].now <= deadline ==> Spares(log, j, deadline)
  }

  lemma SparedPrefix(log: seq<Acceptance>, k: nat, deadline: int)
    requires SparedInTime(log, deadline) && k <= |log|
    ensures SparedInTime(log[..k], deadline)
  {
    hide Unexpired;
    forall j | 0 <= j < k && log[..k][j].now <= deadline ensures Spares(log[..k], j, deadline) {
      assert Spares(log, j, deadline) && log[..k][..j] == log[..j];
    }
  }

  lemma SparedIsUndisturbed(log: seq<Acceptance>, clock: int, deadline: int)
    requires SparedInTime(log, deadline) && Timed(log, clock) && clock <= deadline
    ensures Undisturbed(log, deadline)
  {
    hide Unexpired;
  }

  lemma {:induction false} NotAcceptedAgain(
    p: Process, clock: int, ds: seq<Delivery>, last: Process, x: Entry, base: nat)
    requires Tracked(p, clock, x, base) && Delivers(p, clock, ds, last)
    requires OneDeadline(p.planeKey, ds, x.value, x.expiresAt)
    requires |p.accepted| <= |last.accepted| ==> SparedInTime(last.accepted[base..], x.expiresAt)
    ensures |p.accepted| <= |last.accepted| && Without(last.accepted[|p.accepted|..], x.value)
    decreases |ds|
  {
    hide Handled, Undisturbed, Kept, SparedInTime, Accepts, Has, RespectsDeadline;
    AcceptedGrows(p, clock, ds, last);
    if |ds| == 0 {
      assert last.accepted[|p.accepted|..] == [];
    } else {
      var d, q := ds[0], Handled(p, ds[0]);
      HandledCases(p, d);
      AcceptedGrows(q, d.now, ds[1..], last);
      assert forall k :: 0 <= k < |ds[1..]| ==> ds[1..][k] == ds[k + 1];
      NotTheSame(p, clock, d, x, base, last);
      StepTracks(p, clock, d, x, base);
      NotAcceptedAgain(q, d.now, ds[1..], last, x, base);
      assert last.accepted[|p.accepted|..] == q.accepted[|p.accepted|..] + last.accepted[|q.accepted|..] by {
        assert last.accepted[..|q.accepted|] == q.accepted;
      }
    }
  }

  /** The next acceptance, if there is one, is of another action. */
  lemma NotTheSame(p: Process, clock: int, d: Delivery, x: Entry, base: nat, last: Process)
    requires Tracked(p, clock, x, base) && clock <= d.now
    requires d.incoming.Some? ==> RespectsDeadline(p.planeKey, d, x.value, x.expiresAt)
    requires |p.accepted| <= |last.accepted| && last.accepted[..|p.accepted|] == p.accepted
    requires SparedInTime(last.accepted[base..], x.expiresAt)
    ensures Without(Handled(p, d).accepted[|p.accepted|..], x.value)
  {
    hide Handled, Undisturbed, Kept, SparedInTime, Accepts, Has, Parses;
    var q := Handled(p, d);
    HandledCases(p, d);
    if q.accepted == p.accepted {
      assert q.accepted[|p.accepted|..] == [];
    } else {
      var m := d.incoming.value.message;
      AcceptedIsNew(p, d);
      assert q.accepted[|p.accepted|..] == [q.accepted[|p.accepted|]];
      if m.actionId == x.value {
        var log := p.accepted[base..];
        assert log == last.accepted[base..][..|log|];
        SparedPrefix(last.accepted[base..], |log|, x.expiresAt);
        TimedLater(log, clock, d.now);
        SparedIsUndisturbed(log, d.now, x.expiresAt);
        TrackedIsSeen(p, clock, x, base);
      }
    }
  }

  lemma TimedLater(log: seq<Acceptance>, clock: int, now: int)
    requires Timed(log, clock) && clock <= now
    ensures Timed(log, now)
  {}

  lemma SameKey(p: Process, verifies: Verifier, x: Sealed, now: int)
    ensures Received(p, verifies, Some(x), now).planeKey == p.planeKey
  {
    hide RememberedAction, Executes;
  }

  /** An accepted action is not accepted again, whatever is delivered, if every acceptance up to its deadline spares
      it: it comes before the very millisecond of the deadline and meets fewer than 9,999 unexpired ones. */
  lemma AtMostOnceIfSpared(p: Process, verifies: Verifier, x: Sealed, now: int, ds: seq<Delivery>, last: Process)
    requires Accepts(p, verifies, x, now) && Delivers(Received(p, verifies, Some(x), now), now, ds, last)
    requires OneDeadline(p.planeKey, ds, x.message.actionId, x.message.deadline)
    requires |p.accepted| < |last.accepted| ==> SparedInTime(last.accepted[|p.accepted| + 1..], x.message.deadline)
    ensures |p.accepted| < |last.accepted| && Without(last.accepted[|p.accepted| + 1..], x.message.actionId)
  {
    hide Tracked, SparedInTime, Without, Delivers, OneDeadline, Received, Accepts, Parses;
    AcceptedIsNew(p, Delivery(Some(x), now, verifies));
    var q := Received(p, verifies, Some(x), now);
    StartTracking(p, verifies, x, now);
    SameKey(p, verifies, x, now);
    AcceptedGrows(q, now, ds, last);
    NotAcceptedAgain(q, now, ds, last, Entry(x.message.actionId, x.message.deadline), |p.accepted| + 1);
  }

  /** In particular if fewer than 10,000 others are accepted after it and none in the millisecond of its deadline. */
  lemma AtMostOnce(p: Process, verifies: Verifier, x: Sealed, now: int, ds: seq<Delivery>, last: Process)
    requires Accepts(p, verifies, x, now) && Delivers(Received(p, verifies, Some(x), now), now, ds, last)
    requires OneDeadline(p.planeKey, ds, x.message.actionId, x.message.deadline)
    requires |last.accepted| - |p.accepted| - 1 < 10_000
    requires forall k :: |p.accepted| < k < |last.accepted| ==> last.accepted[k].now != x.message.deadline
    ensures |p.accepted| < |last.accepted| && Without(last.accepted[|p.accepted| + 1..], x.message.actionId)
  {
    hide Unexpired, Accepts, Received, Delivers, OneDeadline, Parses, SparedInTime, Without;
    AcceptedIsNew(p, Delivery(Some(x), now, verifies));
    if |p.accepted| < |last.accepted| {
      FewAreSpared(last.accepted[|p.accepted| + 1..], x.message.deadline);
    }
    AtMostOnceIfSpared(p, verifies, x, now, ds, last);
  }

  lemma FewAreSpared(log: seq<Acceptance>, deadline: int)
    requires |log| < 10_000 && forall j :: 0 <= j < |log| ==> log[j].now != deadline
    ensures SparedInTime(log, deadline)
  {
    hide Entries, Pruned;
  }

  /** Offered again after such a run, in time and to an agent whose version it fits, the action is accepted a second
      time exactly when some acceptance did not spare it. */
  lemma AcceptedAgainExactlyWhenDisturbed(
    p: Process, verifies: Verifier, x: Sealed, now: int, ds: seq<Delivery>, last: Process, d: Delivery)
    requires Accepts(p, verifies, x, now) && Delivers(Received(p, verifies, Some(x), now), now, ds, last)
    requires |p.accepted| < |last.accepted| ==> Without(last.accepted[|p.accepted| + 1..], x.message.actionId)
    requires d.incoming == Some(x) && d.now <= x.message.deadline
    requires x.message.Request? ==>
               x.message.policyVersion == last.policy.version || x.message.policyVersion == last.policy.version + 1
    requires d.verifies(p.planeKey, x)
    ensures |p.accepted| < |last.accepted|
    ensures Accepts(last, d.verifies, x, d.now)
            <==> !Undisturbed(last.accepted[|p.accepted| + 1..], x.message.deadline)
  {
    hide Undisturbed, Without, Has, Parses, Delivers, RememberedAction, Executes;
    RememberedExactlyWhileSpared(p, verifies, x, now, ds, last);
    AcceptedGrows(Received(p, verifies, Some(x), now), now, ds, last);
  }

  // ---- Both provisos are needed ----

  /** An action accepted in the very millisecond of another's deadline makes the agent forget the other, which it then
      accepts once more in the same millisecond. */
  lemma BoundaryReplay(p: Process, verifies: Verifier, x: Sealed, now: int, y: Sealed)
    requires Accepts(p, verifies, x, now)
    requires var q := Received(p, verifies, Some(x), now);
             Accepts(q, verifies, y, x.message.deadline) && y.message.actionId != x.message.actionId
    ensures var q := Received(p, verifies, Some(x), now);
            var r := Received(q, verifies, Some(y), x.message.deadline);
            Accepts(r, verifies, x, x.message.deadline)
  {
    hide Parses, Executes, RememberedAction, Has;
    var q := Received(p, verifies, Some(x), now);
    NoOtherEntry(p.seenActions, x.message.actionId, x.message.deadline, now);
    ForgottenAtDeadline(
      q.seenActions, x.message.actionId, x.message.deadline, y.message.actionId, y.message.deadline);
  }

  lemma NoOtherEntry(seen: Window, id: Text, deadline: int, now: int)
    requires !Has(seen, id)
    ensures forall e :: e in RememberedAction(seen, id, deadline, now) && e.value == id ==> e.expiresAt == deadline
  {
    hide Pruned;
    AbsentAfterPruning(seen, id, now);
    SetOfAbsent(Pruned(seen, now), Entry(id, deadline));
    LastIsWithin(Pruned(seen, now) + [Entry(id, deadline)]);
  }

  lemma LastIsWithin(w: Window)
    ensures forall e :: e in LastOf(w, 10_000) ==> e in w
  {}

  lemma ForgottenAtDeadline(seen: Window, id: Text, deadline: int, other: Text, later: int)
    requires (forall e :: e in seen && e.value == id ==> e.expiresAt == deadline) && !Has(seen, other) && other != id
    ensures !Has(RememberedAction(seen, other, later, deadline), id)
  {
    hide Pruned;
    PrunedMembers(seen, deadline);
    SetOfAbsent(Pruned(seen, deadline), Entry(other, later));
    LastIsWithin(Pruned(seen, deadline) + [Entry(other, later)]);
  }

  lemma {:induction false} PrunedConcat(v: Window, w: Window, now: int)
    ensures Pruned(v + w, now) == Pruned(v, now) + Pruned(w, now)
  {
    hide Pruned;
    if v == [] {
      assert v + w == w;
      PrunedNone(now);
    } else {
      var x, tail := v[0], v[1..];
      SplitFirst(v, w);
      PrunedConcat(tail, w, now);
      PrunedCons(x, tail, now);
      PrunedCons(x, tail + w, now);
      Regroup([x], Pruned(tail, now), Pruned(w, now));
    }
  }

  lemma SplitFirst(v: Window, w: Window)
    requires v != []
    ensures v == [v[0]] + v[1..] && v + w == [v[0]] + (v[1..] + w)
  {}

  lemma PrunedNone(now: int)
    ensures Pruned([], now) == []
  {}

  lemma PrunedCons(x: Entry, rest: Window, now: int)
    ensures Pruned([x] + rest, now) == if x.expiresAt <= now then Pruned(rest, now) else [x] + Pruned(rest, now)
  {
    assert ([x] + rest)[1..] == rest;
  }

  lemma KeptAmongLast(v: Window, x: Entry, w: Window)
    requires !Has(v, x.value) && !Has(w, x.value)
    ensures Has(LastOf(v + [x] + w, 10_000), x.value) <==> |w| < 10_000
  {
    var whole := v + [x] + w;
    var kept := LastOf(whole, 10_000);
    var dropped := |whole| - |kept|;
    if |w| < 10_000 {
      assert kept[|v| - dropped] == x;
    } else {
      assert kept == w[|w| - 10_000..];
    }
  }

  /** Exactly when an action survives the acceptance of another: its deadline is later, and fewer than 9,999 of the
      actions remembered after it are still unexpired. */
  lemma RememberedExactlyWhile(before: Window, x: Entry, after: Window, other: Text, deadline: int, now: int)
    requires !Has(before, x.value) && !Has(after, x.value) && !Has(before + [x] + after, other)
    ensures Has(RememberedAction(before + [x] + after, other, deadline, now), x.value)
            <==> now < x.expiresAt && |Pruned(after, now)| < 9_999
  {
    hide Pruned;
    var seen, n := before + [x] + after, Entry(other, deadline);
    var b, a := Pruned(before, now), Pruned(after, now);
    PrunedConcat(before + [x], after, now);
    PrunedConcat(before, [x], now);
    AbsentAfterPruning(seen, other, now);
    AbsentAfterPruning(before, x.value, now);
    AbsentAfterPruning(after, x.value, now);
    SetOfAbsent(Pruned(seen, now), n);
    assert x in seen;
    PrunedOne(x, now);
    if now < x.expiresAt {
      assert b + [x] + a + [n] == b + [x] + (a + [n]);
      KeptAmongLast(b, x, a + [n]);
    } else {
      assert b + [] + a + [n] == b + a + [n];
      LastIsWithin(b + a + [n]);
    }
  }

  lemma PrunedOne(x: Entry, now: int)
    ensures Pruned([x], now) == if now < x.expiresAt then [x] else []
  {}
}

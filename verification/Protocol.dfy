/** The control plane and its agents together. Whoever carries messages may drop, repeat, reorder and invent them;
    only signatures cannot be invented. */
module Protocol {
  import opened JsText
  import opened CanonicalJson
  import opened RemoteTypes
  import opened Envelopes
  import opened NonceWindows
  import opened Planes
  import opened PlaneRuns
  import opened AgentLifecycle
  import opened PatchRaces
  import opened Issuance
  import opened PlaneAnswers
  import AgentRuntime

  // ---- The world ----

  /** `enrolled` has, for each agent, the policy that the control plane had for it when it enrolled, and `cursors` up to
      which point of what the control plane has signed its policy updates have been delivered. */
  datatype World = World(
    sys: System,
    planeKey: Text,
    ledger: Ledger,
    processes: map<Text, AgentRuntime.Process>,
    enrolled: map<Text, AgentPolicy>,
    cursors: map<Text, nat>)

  datatype Step =
    | PlaneStep(event: Event)
    | Deliver(a: Text, incoming: Option<Sealed>, now: int, position: nat)
    | Restart(a: Text)
    | OthersSign(signed: Signed)

  ghost function Oracle(ledger: Ledger): Verifier { (key, sealed) => Verifies(ledger, key, sealed) }

  ghost function SignedBy(key: Text, sealed: seq<Sealed>): Ledger
  {
    set i | 0 <= i < |sealed| :: Signed(key, SignedText(sealed[i].message), sealed[i].signature)
  }

  /** The control plane's steps are possible ones, PATCH in two steps included, and nobody else has its key. */
  ghost predicate Possible(w: World, step: Step) {
    match step
    case PlaneStep(e) => Enabled(w.sys, e)
    case Deliver(a, _, _, _) => a in w.processes
    case Restart(a) => a in w.processes
    case OthersSign(signed) => signed.key != w.planeKey
  }

  /** The agent that an event enrolls, if it does. */
  ghost function EnrolledBy(p: Plane, e: Event): Option<Enrollment> {
    if e.op.EnrollOp? then
      var reply := Enroll(p, e.op.tokenHash, e.op.publicKey, e.op.keyIsValid, e.op.host, e.now).1;
      if reply.Done? then Some(reply.value) else None
    else None
  }

  ghost function After(w: World, config: Config, step: Step): World
    requires Possible(w, step)
  {
    match step
    case PlaneStep(e) =>
      var next := Next(w.sys, config, Oracle(w.ledger), e);
      var moved := w.(sys := next, ledger := w.ledger + SignedBy(w.planeKey, next.plane.signed));
      var enrolled := EnrolledBy(w.sys.plane, e);
      if enrolled.None? then moved
      else
        var a := enrolled.value.agentId;
        moved.(processes := w.processes[a := AgentRuntime.Started(a, w.planeKey, enrolled.value.policy)],
               enrolled := if a in w.sys.plane.agents then w.enrolled[a := w.sys.plane.agents[a].policy]
                           else w.enrolled,
               cursors := w.cursors[a := |next.plane.signed|])
    case Deliver(a, incoming, now, position) =>
      var process := w.processes[a];
      var taken := incoming.Some? && AgentRuntime.TakesUpdate(process, Oracle(w.ledger), incoming.value);
      w.(processes := w.processes[a := AgentRuntime.Received(process, Oracle(w.ledger), incoming, now)],
         cursors := if taken then w.cursors[a := position + 1] else w.cursors)
    case Restart(a) =>
      var process := w.processes[a];
      w.(processes := w.processes[a := process.(policy := process.savedPolicy, executorPolicy := process.savedPolicy,
                                                seenActions := [])])
    case OthersSign(signed) => w.(ledger := w.ledger + {signed})
  }

  ghost predicate Leads(w: World, config: Config, steps: seq<Step>, last: World)
    decreases |steps|
  {
    if steps == [] then last == w
    else Possible(w, steps[0]) && Leads(After(w, config, steps[0]), config, steps[1..], last)
  }

  ghost function Beginning(planeKey: Text): World { World(START, planeKey, {}, map[], map[], map[]) }

  // ---- Signatures ----

  /** What is signed with the control plane's key was signed by the control plane. */
  ghost predicate LedgerSound(w: World) {
    forall e :: e in w.ledger && e.key == w.planeKey ==> SignedByPlane(w.sys.plane.signed, e.text)
  }

  ghost predicate SignedByPlane(signed: seq<Sealed>, text: Text) {
    exists i :: 0 <= i < |signed| && SignedText(signed[i].message) == text
  }

  /** A message that verifies under the control plane's key is one that the control plane signed. */
  lemma VerifiedIsSigned(w: World, sealed: Sealed)
    requires LedgerSound(w) && RequestsSound(w.sys.plane.signed)
    requires Verifies(w.ledger, w.planeKey, sealed) && IsMessage(sealed.message)
    ensures WasSigned(w.sys.plane.signed, sealed.message)
  {
    hide SignedText, IsMessage;
    var signed := w.sys.plane.signed;
    assert SignedByPlane(signed, SignedText(sealed.message));
    var i :| 0 <= i < |signed| && SignedText(signed[i].message) == SignedText(sealed.message);
    assert Signable(signed[i].message);
    SignedTextDeterminesMessage(signed[i].message, sealed.message);
  }

  ghost predicate WasSigned(signed: seq<Sealed>, m: Message) { exists i :: 0 <= i < |signed| && signed[i].message == m }

  /** In every run, a request that verifies under the control plane's key was dispatched by it at some step. */
  lemma VerifiedIsGranted(planeKey: Text, config: Config, steps: seq<Step>, w: World, sealed: Sealed)
    requires Leads(Beginning(planeKey), config, steps, w) && Verifies(w.ledger, w.planeKey, sealed)
    requires IsMessage(sealed.message) && sealed.message.Request?
    ensures DispatchedOnTheWay(Beginning(planeKey), config, steps, sealed.message)
  {
    hide Leads, IsMessage, Verifies, Safe, Beginning, WasSigned, LedgerSound, RequestsSound, DispatchedOnTheWay;
    BeginningIsSafe(planeKey);
    RunsAreSafe(Beginning(planeKey), config, steps, w);
    SafeParts(w);
    VerifiedIsSigned(w, sealed);
    SignedOnTheWay(Beginning(planeKey), config, steps, w, sealed.message);
    NothingSigned(planeKey, sealed.message);
  }

  /** The control plane signs one request for an action. */
  lemma OneRequestPerAction(w: World, x: Sealed, y: Sealed)
    requires LedgerSound(w) && RequestsSound(w.sys.plane.signed)
    requires Verifies(w.ledger, w.planeKey, x) && Verifies(w.ledger, w.planeKey, y)
    requires IsMessage(x.message) && IsMessage(y.message) && x.message.Request? && y.message.Request?
    requires x.message.actionId == y.message.actionId
    ensures x.message == y.message
  {
    hide IsMessage, Verifies, LedgerSound;
    VerifiedIsSigned(w, x);
    VerifiedIsSigned(w, y);
    var signed := w.sys.plane.signed;
    var i :| 0 <= i < |signed| && signed[i].message == x.message;
    var j :| 0 <= j < |signed| && signed[j].message == y.message;
    assert i < j ==> !SameAction(signed[i].message, signed[j].message);
    assert j < i ==> !SameAction(signed[j].message, signed[i].message);
  }

  // ---- What agents have accepted ----

  /** The policy is the one that the agent was enrolled with, or one that an update signed for the agent carries. */
  ghost predicate PolicyKnown(signed: seq<Sealed>, a: Text, start: AgentPolicy, policy: AgentPolicy) {
    policy == start
    || exists i :: 0 <= i < |signed| && IsUpdateFor(signed[i].message, a) && signed[i].message.policy == policy
  }

  /** An action that agent a acted on: the control plane signed this very request, for this agent; it came in time; its
      policy version was the agent's own or the next; and the agent's policy was one that it had been given. */
  ghost predicate Justified(signed: seq<Sealed>, a: Text, start: AgentPolicy, x: AgentRuntime.Acceptance) {
    WasSigned(signed, x.request)
    && x.request.Request? && x.request.agentId == a && x.now <= x.request.deadline
    && (x.request.policyVersion == x.localVersion || x.request.policyVersion == x.localVersion + 1)
    && x.policy.version == x.localVersion && PolicyKnown(signed, a, start, x.policy)
  }

  ghost predicate AllJustified(
    signed: seq<Sealed>, a: Text, start: AgentPolicy, xs: seq<AgentRuntime.Acceptance>)
  {
    forall i :: 0 <= i < |xs| ==> Justified(signed, a, start, xs[i])
  }

  ghost predicate AllExecutable(xs: seq<AgentRuntime.Acceptance>) {
    forall i :: 0 <= i < |xs| ==> xs[i].request.Request? && AgentRuntime.Executes(xs[i].policy, xs[i].request)
  }

  /** The three copies of an agent's policy agree, it was given this policy, and all it has done is justified. */
  ghost predicate ProcessSound(w: World, a: Text)
    requires a in w.processes
  {
    var p := w.processes[a];
    p.agentId == a && p.planeKey == w.planeKey && p.policy == p.executorPolicy == p.savedPolicy
    && a in w.enrolled && PolicyKnown(w.sys.plane.signed, a, w.enrolled[a], p.policy)
    && AllJustified(w.sys.plane.signed, a, w.enrolled[a], p.accepted)
    && AllJustified(w.sys.plane.signed, a, w.enrolled[a], p.executed) && AllExecutable(p.executed)
  }

  ghost predicate ProcessesSound(w: World) { forall a :: a in w.processes ==> ProcessSound(w, a) }

  /** An agent that runs has been enrolled, and no token is left for it. */
  ghost predicate TokensSpent(p: Plane, a: Text) {
    a in p.agents && forall t :: t in p.tokens && p.tokens[t].agentId == a ==> p.tokens[t].used
  }

  ghost predicate EnrolledOnce(w: World) { forall a :: a in w.processes ==> TokensSpent(w.sys.plane, a) }

  ghost predicate Safe(w: World) {
    Patchable(w.sys) && RequestsSound(w.sys.plane.signed) && LedgerSound(w) && ProcessesSound(w) && EnrolledOnce(w)
  }

  ghost predicate Extends(was: seq<Sealed>, now: seq<Sealed>) { |was| <= |now| && now[..|was|] == was }

  lemma SignedLater(was: seq<Sealed>, now: seq<Sealed>, m: Message)
    requires Extends(was, now) && WasSigned(was, m)
    ensures WasSigned(now, m)
  {
    var i :| 0 <= i < |was| && was[i].message == m;
    assert now[..|was|][i] == now[i];
  }

  lemma PolicyStillKnown(was: seq<Sealed>, now: seq<Sealed>, a: Text, start: AgentPolicy, policy: AgentPolicy)
    requires Extends(was, now) && PolicyKnown(was, a, start, policy)
    ensures PolicyKnown(now, a, start, policy)
  {
    if policy != start {
      var i :| 0 <= i < |was| && IsUpdateFor(was[i].message, a) && was[i].message.policy == policy;
      assert now[..|was|][i] == now[i];
    }
  }

  lemma JustifiedLater(
    was: seq<Sealed>, now: seq<Sealed>, a: Text, start: AgentPolicy, xs: seq<AgentRuntime.Acceptance>)
    requires Extends(was, now) && AllJustified(was, a, start, xs)
    ensures AllJustified(now, a, start, xs)
  {
    hide Extends, WasSigned, PolicyKnown;
    forall i | 0 <= i < |xs| ensures Justified(now, a, start, xs[i]) {
      assert Justified(was, a, start, xs[i]);
      SignedLater(was, now, xs[i].request);
      PolicyStillKnown(was, now, a, start, xs[i].policy);
    }
  }

  lemma LedgerAfterPlane(w: World, v: World)
    requires LedgerSound(w) && Extends(w.sys.plane.signed, v.sys.plane.signed) && v.planeKey == w.planeKey
    requires v.ledger == w.ledger + SignedBy(w.planeKey, v.sys.plane.signed)
    ensures LedgerSound(v)
  {
    hide SignedText;
    var was, now := w.sys.plane.signed, v.sys.plane.signed;
    forall e | e in v.ledger && e.key == v.planeKey ensures SignedByPlane(now, e.text) {
      if e in w.ledger {
        var i :| 0 <= i < |was| && SignedText(was[i].message) == e.text;
        assert now[..|was|][i] == now[i];
      } else {
        var i :| 0 <= i < |now| && e == Signed(w.planeKey, SignedText(now[i].message), now[i].signature);
      }
    }
  }

  lemma NextExtends(sys: System, config: Config, verifies: Verifier, e: Event)
    requires Patchable(sys) && Enabled(sys, e)
    ensures Extends(sys.plane.signed, Next(sys, config, verifies, e).plane.signed)
  {
    hide Patchable, Next, DispatchedAt, Enabled, IsMessage;
    NextSigns(sys, config, verifies, e);
  }

  lemma SpentLater(p: Plane, q: Plane, a: Text)
    requires TokensSpent(p, a) && TokensOnlyAge(p, q)
    ensures TokensSpent(q, a)
  {}

  /** Enrolling uses up the only token of an agent, which did not run before. */
  lemma EnrollingSpends(sys: System, config: Config, verifies: Verifier, e: Event)
    requires Patchable(sys) && EnrolledBy(sys.plane, e).Some?
    ensures var a := EnrolledBy(sys.plane, e).value.agentId;
            !TokensSpent(sys.plane, a) && TokensSpent(Next(sys, config, verifies, e).plane, a)
  {
    hide HostParses, IndexSound, AgentsPatchable, EditsSound, EditsKeyless;
  }

  lemma PlaneStepSafe(w: World, config: Config, e: Event)
    requires Safe(w) && Possible(w, PlaneStep(e))
    ensures Safe(After(w, config, PlaneStep(e)))
    ensures forall a :: a in w.processes ==>
              a in After(w, config, PlaneStep(e)).processes
              && After(w, config, PlaneStep(e)).processes[a] == w.processes[a]
  {
    hide Patchable, RequestsSound, LedgerSound, AllJustified, AllExecutable, SignedBy, Next, Enabled, TokensSpent,
      EnrolledBy, Extends, TokensOnlyAge, PolicyKnown;
    var verifies, next := Oracle(w.ledger), After(w, config, PlaneStep(e));
    NextPatchable(w.sys, config, verifies, e);
    NextRequests(w.sys, config, verifies, e);
    NextExtends(w.sys, config, verifies, e);
    NextAges(w.sys, config, verifies, e);
    LedgerAfterPlane(w, next);
    if EnrolledBy(w.sys.plane, e).Some? {
      EnrollingSpends(w.sys, config, verifies, e);
      EnrolledIs(w.sys.plane, e);
      assert EnrolledBy(w.sys.plane, e).value.agentId !in w.processes;
    }
    forall a | a in next.processes ensures ProcessSound(next, a) && TokensSpent(next.sys.plane, a) {
      if a in w.processes {
        assert ProcessSound(w, a);
        var was, now, start := w.sys.plane.signed, next.sys.plane.signed, w.enrolled[a];
        PolicyStillKnown(was, now, a, start, w.processes[a].policy);
        JustifiedLater(was, now, a, start, w.processes[a].accepted);
        JustifiedLater(was, now, a, start, w.processes[a].executed);
        SpentLater(w.sys.plane, next.sys.plane, a);
      } else {
        NothingDone(next.sys.plane.signed, a, next.enrolled[a]);
      }
    }
  }

  lemma NothingDone(signed: seq<Sealed>, a: Text, start: AgentPolicy)
    ensures AllJustified(signed, a, start, []) && AllExecutable([]) && PolicyKnown(signed, a, start, start)
  {}

  lemma EnrolledIs(p: Plane, e: Event)
    requires EnrolledBy(p, e).Some?
    ensures var x := EnrolledBy(p, e).value; x.agentId in p.agents && x.policy == p.agents[x.agentId].policy
  {
    hide HostParses;
  }

  lemma LedgerIgnoresProcesses(v: World, w: World)
    requires LedgerSound(v) && w.ledger == v.ledger && w.planeKey == v.planeKey
    requires w.sys.plane.signed == v.sys.plane.signed
    ensures LedgerSound(w)
  {}

  /** An accepted request is one that the control plane signed for this agent. */
  lemma AcceptanceIsJustified(w: World, a: Text, sealed: Sealed, now: int)
    requires Safe(w) && a in w.processes
    requires AgentRuntime.Accepts(w.processes[a], Oracle(w.ledger), sealed, now)
    ensures var p := w.processes[a];
            a in w.enrolled
            && Justified(w.sys.plane.signed, a, w.enrolled[a],
                         AgentRuntime.Acceptance(sealed.message, now, p.policy.version, p.executorPolicy))
  {
    hide Patchable, RequestsSound, LedgerSound, IsMessage, AllJustified, AllExecutable, Verifies, WasSigned,
      PolicyKnown;
    assert ProcessSound(w, a);
    assert IsMessage(sealed.message);
    VerifiedIsSigned(w, sealed);
  }

  /** An update that an agent follows is one that the control plane signed for it. */
  lemma FollowedIsKnown(w: World, a: Text, sealed: Sealed)
    requires Safe(w) && a in w.processes && AgentRuntime.TakesUpdate(w.processes[a], Oracle(w.ledger), sealed)
    ensures sealed.message.PolicyUpdate? && a in w.enrolled
            && PolicyKnown(w.sys.plane.signed, a, w.enrolled[a], sealed.message.policy)
  {
    hide Patchable, RequestsSound, LedgerSound, IsMessage, AllJustified, AllExecutable, Verifies;
    assert ProcessSound(w, a);
    assert IsMessage(sealed.message);
    VerifiedIsSigned(w, sealed);
  }

  lemma JustifiedAppend(
    signed: seq<Sealed>, a: Text, start: AgentPolicy, xs: seq<AgentRuntime.Acceptance>, x: AgentRuntime.Acceptance)
    requires AllJustified(signed, a, start, xs) && Justified(signed, a, start, x)
    ensures AllJustified(signed, a, start, xs + [x])
  {
    hide Justified;
  }

  lemma ExecutableAppend(xs: seq<AgentRuntime.Acceptance>, x: AgentRuntime.Acceptance)
    requires AllExecutable(xs) && x.request.Request? && AgentRuntime.Executes(x.policy, x.request)
    ensures AllExecutable(xs + [x])
  {}

  lemma AcceptedIsRequest(p: AgentRuntime.Process, verifies: Verifier, sealed: Sealed, now: int)
    requires AgentRuntime.Accepts(p, verifies, sealed, now)
    ensures sealed.message.Request?
  {}

  lemma DeliverSafe(w: World, config: Config, a: Text, incoming: Option<Sealed>, now: int, position: nat)
    requires Safe(w) && a in w.processes
    ensures Safe(After(w, config, Deliver(a, incoming, now, position)))
  {
    hide Patchable, RequestsSound, LedgerSound, AllJustified, AllExecutable, AgentRuntime.Accepts, TokensSpent,
      AgentRuntime.TakesUpdate, Justified, AgentRuntime.RememberedAction, AgentRuntime.Executes, PolicyKnown;
    var p, next := w.processes[a], After(w, config, Deliver(a, incoming, now, position));
    LedgerIgnoresProcesses(w, next);
    assert ProcessSound(w, a);
    if incoming.Some? && AgentRuntime.TakesUpdate(p, Oracle(w.ledger), incoming.value) {
      FollowedIsKnown(w, a, incoming.value);
    } else if incoming.Some? && AgentRuntime.Accepts(p, Oracle(w.ledger), incoming.value, now) {
      var x := AgentRuntime.Acceptance(incoming.value.message, now, p.policy.version, p.executorPolicy);
      AcceptedIsRequest(p, Oracle(w.ledger), incoming.value, now);
      AcceptanceIsJustified(w, a, incoming.value, now);
      JustifiedAppend(w.sys.plane.signed, a, w.enrolled[a], p.accepted, x);
      JustifiedAppend(w.sys.plane.signed, a, w.enrolled[a], p.executed, x);
      if AgentRuntime.Executes(p.executorPolicy, x.request) {
        ExecutableAppend(p.executed, x);
      }
    }
    forall b | b in next.processes ensures ProcessSound(next, b) {
      assert b != a ==> ProcessSound(w, b);
    }
  }

  lemma StepSafe(w: World, config: Config, step: Step)
    requires Safe(w) && Possible(w, step)
    ensures Safe(After(w, config, step))
  {
    hide Patchable, RequestsSound, AllJustified, AllExecutable, TokensSpent;
    match step
    case PlaneStep(e) => PlaneStepSafe(w, config, e);
    case Deliver(a, incoming, now, position) => DeliverSafe(w, config, a, incoming, now, position);
    case Restart(a) =>
      var next := After(w, config, step);
      forall b | b in next.processes ensures ProcessSound(next, b) {
        assert ProcessSound(w, b);
      }
    case OthersSign(signed) =>
      var next := After(w, config, step);
      forall b | b in next.processes ensures ProcessSound(next, b) {
        assert ProcessSound(w, b);
      }
  }

  lemma BeginningIsSafe(planeKey: Text)
    ensures Safe(Beginning(planeKey))
  {}

  lemma {:induction false} RunsAreSafe(w: World, config: Config, steps: seq<Step>, last: World)
    requires Safe(w) && Leads(w, config, steps, last)
    ensures Safe(last)
    decreases |steps|
  {
    if steps != [] {
      hide Safe, After, Possible;
      StepSafe(w, config, steps[0]);
      RunsAreSafe(After(w, config, steps[0]), config, steps[1..], last);
    }
  }

  // ---- Authorization ----

  /** At some step of the run the control plane dispatched this request. */
  ghost predicate DispatchedOnTheWay(w: World, config: Config, steps: seq<Step>, m: Message)
    decreases |steps|
  {
    steps != [] && Possible(w, steps[0])
    && ((steps[0].PlaneStep? && DispatchedAt(w.sys.plane, config, steps[0].event, m))
        || DispatchedOnTheWay(After(w, config, steps[0]), config, steps[1..], m))
  }

  lemma StepSigns(w: World, config: Config, step: Step, m: Message)
    requires Safe(w) && Possible(w, step) && WasSigned(After(w, config, step).sys.plane.signed, m) && m.Request?
    ensures WasSigned(w.sys.plane.signed, m)
            || (step.PlaneStep? && DispatchedAt(w.sys.plane, config, step.event, m))
  {
    hide Patchable, RequestsSound, LedgerSound, ProcessesSound, EnrolledOnce, DispatchedAt, Next, Enabled, SignedBy,
      EnrolledBy, IsMessage;
    var was, now := w.sys.plane.signed, After(w, config, step).sys.plane.signed;
    if step.PlaneStep? {
      NextSigns(w.sys, config, Oracle(w.ledger), step.event);
      var i :| 0 <= i < |now| && now[i].message == m;
      if i < |was| {
        assert now[..|was|][i] == now[i];
      }
    }
  }

  lemma {:induction false} SignedOnTheWay(w: World, config: Config, steps: seq<Step>, last: World, m: Message)
    requires Safe(w) && Leads(w, config, steps, last) && WasSigned(last.sys.plane.signed, m) && m.Request?
    ensures WasSigned(w.sys.plane.signed, m) || DispatchedOnTheWay(w, config, steps, m)
    decreases |steps|
  {
    if steps != [] {
      hide Safe, After, Possible, WasSigned, DispatchedAt;
      var next := After(w, config, steps[0]);
      StepSafe(w, config, steps[0]);
      SignedOnTheWay(next, config, steps[1..], last, m);
      if WasSigned(next.sys.plane.signed, m) {
        StepSigns(w, config, steps[0], m);
      }
    }
  }

  /** Whatever is done to the messages, and also when policies are patched in two steps: each action that an agent
      executes is a request that the control plane dispatched at some step, for this agent and with these arguments. At
      that step its capability was the one of its tool, the caller's scopes granted it, the caller owned this agent,
      and this agent's policy at the control plane allowed it. When it was executed, the agent's own policy - the one
      it was enrolled with, or one that an update signed for it carries - enabled it, its policy version was the
      agent's own or the next, and its deadline was not over. */
  lemma ExecutedActionsAreAuthorized(planeKey: Text, config: Config, steps: seq<Step>, w: World, a: Text, i: nat)
    requires Leads(Beginning(planeKey), config, steps, w)
    requires a in w.processes && i < |w.processes[a].executed|
    ensures var x := w.processes[a].executed[i];
            x.request.Request? && x.request.agentId == a && x.now <= x.request.deadline
            && x.request.capability in x.policy.capabilities && x.policy.version == x.localVersion
            && (x.request.policyVersion == x.localVersion || x.request.policyVersion == x.localVersion + 1)
            && a in w.enrolled && PolicyKnown(w.sys.plane.signed, a, w.enrolled[a], x.policy)
            && DispatchedOnTheWay(Beginning(planeKey), config, steps, x.request)
  {
    hide Leads, Patchable, RequestsSound, LedgerSound, EnrolledOnce, Beginning, WasSigned, DispatchedOnTheWay,
      PolicyKnown;
    BeginningIsSafe(planeKey);
    RunsAreSafe(Beginning(planeKey), config, steps, w);
    assert ProcessSound(w, a);
    var x := w.processes[a].executed[i];
    assert Justified(w.sys.plane.signed, a, w.enrolled[a], x);
    assert AgentRuntime.Executes(x.policy, x.request);
    SignedOnTheWay(Beginning(planeKey), config, steps, w, x.request);
    NothingSigned(planeKey, x.request);
  }

  /** In every run an agent works under the policy that the control plane had for it when it enrolled, or under one that
      an update signed for it carries, in the executor and on disk alike. */
  lemma AgentsPolicyIsGiven(planeKey: Text, config: Config, steps: seq<Step>, w: World, a: Text)
    requires Leads(Beginning(planeKey), config, steps, w) && a in w.processes
    ensures var p := w.processes[a];
            p.policy == p.executorPolicy == p.savedPolicy
            && a in w.enrolled && PolicyKnown(w.sys.plane.signed, a, w.enrolled[a], p.policy)
  {
    hide Leads, Patchable, RequestsSound, LedgerSound, EnrolledOnce, Beginning, PolicyKnown, AllJustified,
      AllExecutable;
    BeginningIsSafe(planeKey);
    RunsAreSafe(Beginning(planeKey), config, steps, w);
    assert ProcessSound(w, a);
  }

  lemma NothingSigned(planeKey: Text, m: Message)
    ensures !WasSigned(Beginning(planeKey).sys.plane.signed, m)
  {}

  // ---- At most once ----

  /** What the steps deliver to agent a, each with what verifies at that moment. */
  ghost function DeliveriesTo(w: World, config: Config, steps: seq<Step>, a: Text): seq<AgentRuntime.Delivery>
    decreases |steps|
  {
    if steps == [] || !Possible(w, steps[0]) then []
    else
      (if steps[0].Deliver? && steps[0].a == a
       then [AgentRuntime.Delivery(steps[0].incoming, steps[0].now, Oracle(w.ledger))] else [])
      + DeliveriesTo(After(w, config, steps[0]), config, steps[1..], a)
  }

  /** The agent's clock does not go back, and it is not restarted. */
  ghost predicate OneSession(a: Text, clock: int, steps: seq<Step>)
    decreases |steps|
  {
    steps == []
    || (!(steps[0].Restart? && steps[0].a == a)
        && if steps[0].Deliver? && steps[0].a == a
           then clock <= steps[0].now && OneSession(a, steps[0].now, steps[1..])
           else OneSession(a, clock, steps[1..]))
  }

  lemma StepOfProcess(w: World, config: Config, step: Step, a: Text)
    requires Safe(w) && Possible(w, step) && a in w.processes && !(step.Restart? && step.a == a)
    ensures var next := After(w, config, step);
            a in next.processes
            && next.processes[a]
               == if step.Deliver? && step.a == a
                  then AgentRuntime.Received(w.processes[a], Oracle(w.ledger), step.incoming, step.now)
                  else w.processes[a]
  {
    hide Safe, AgentRuntime.Received, Oracle;
    if step.PlaneStep? {
      PlaneStepSafe(w, config, step.event);
    }
  }

  /** Within a session an agent sees its deliveries and nothing else. */
  lemma {:induction false} SessionDelivers(
    w: World, config: Config, steps: seq<Step>, last: World, a: Text, clock: int)
    requires Safe(w) && Leads(w, config, steps, last) && a in w.processes && OneSession(a, clock, steps)
    ensures a in last.processes
            && AgentRuntime.Delivers(w.processes[a], clock, DeliveriesTo(w, config, steps, a), last.processes[a])
    decreases |steps|
  {
    hide Safe, After, Possible, AgentRuntime.Received;
    if steps != [] {
      var next := After(w, config, steps[0]);
      StepSafe(w, config, steps[0]);
      StepOfProcess(w, config, steps[0], a);
      var rest := DeliveriesTo(next, config, steps[1..], a);
      if steps[0].Deliver? && steps[0].a == a {
        SessionDelivers(next, config, steps[1..], last, a, steps[0].now);
        var d := AgentRuntime.Delivery(steps[0].incoming, steps[0].now, Oracle(w.ledger));
        assert ([d] + rest)[1..] == rest;
      } else {
        SessionDelivers(next, config, steps[1..], last, a, clock);
        assert [] + rest == rest;
      }
    }
  }

  lemma LedgerGrows(w: World, config: Config, step: Step)
    requires Possible(w, step)
    ensures w.ledger <= After(w, config, step).ledger && After(w, config, step).planeKey == w.planeKey
  {
    hide SignedBy, Next, EnrolledBy, Oracle, AgentRuntime.Received, AgentRuntime.TakesUpdate;
  }

  lemma {:induction false} RunGrows(w: World, config: Config, steps: seq<Step>, last: World)
    requires Leads(w, config, steps, last)
    ensures w.ledger <= last.ledger && last.planeKey == w.planeKey
    decreases |steps|
  {
    if steps != [] {
      hide After, Possible;
      LedgerGrows(w, config, steps[0]);
      RunGrows(After(w, config, steps[0]), config, steps[1..], last);
    }
  }

  /** Whatever an agent is given in a run, the requests for one action that verify all carry the same deadline. */
  lemma {:induction false} SameDeadline(
    w: World, config: Config, steps: seq<Step>, last: World, a: Text, x: Sealed)
    requires Leads(w, config, steps, last) && LedgerSound(last) && RequestsSound(last.sys.plane.signed)
    requires Verifies(last.ledger, last.planeKey, x) && IsMessage(x.message) && x.message.Request?
    ensures AgentRuntime.OneDeadline(
              last.planeKey, DeliveriesTo(w, config, steps, a), x.message.actionId, x.message.deadline)
    decreases |steps|
  {
    hide After, Possible, LedgerSound, RequestsSound, Verifies, IsMessage, AgentRuntime.RespectsDeadline;
    if steps != [] {
      var next := After(w, config, steps[0]);
      SameDeadline(next, config, steps[1..], last, a, x);
      var rest := DeliveriesTo(next, config, steps[1..], a);
      if steps[0].Deliver? && steps[0].a == a {
        var d := AgentRuntime.Delivery(steps[0].incoming, steps[0].now, Oracle(w.ledger));
        RunGrows(w, config, steps, last);
        if d.incoming.Some? {
          DeliveredDeadline(w, last, d, x);
        }
        var ds := [d] + rest;
        forall k | 0 <= k < |ds| && ds[k].incoming.Some?
          ensures AgentRuntime.RespectsDeadline(last.planeKey, ds[k], x.message.actionId, x.message.deadline)
        {
          assert k > 0 ==> ds[k] == rest[k - 1];
        }
        assert DeliveriesTo(w, config, steps, a) == ds;
      } else {
        assert [] + rest == rest;
      }
    }
  }

  lemma DeliveredDeadline(w: World, last: World, d: AgentRuntime.Delivery, x: Sealed)
    requires LedgerSound(last) && RequestsSound(last.sys.plane.signed) && w.ledger <= last.ledger
    requires Verifies(last.ledger, last.planeKey, x) && IsMessage(x.message) && x.message.Request?
    requires d.verifies == Oracle(w.ledger) && d.incoming.Some?
    ensures AgentRuntime.RespectsDeadline(last.planeKey, d, x.message.actionId, x.message.deadline)
  {
    hide LedgerSound, RequestsSound, IsMessage, SignedText;
    var y := d.incoming.value;
    if y.message.Request? && Parses(y.message) && y.message.actionId == x.message.actionId
       && d.verifies(last.planeKey, y) {
      OneRequestPerAction(last, x, y);
    }
  }

  ghost function AcceptedBy(w: World, a: Text): seq<AgentRuntime.Acceptance> {
    if a in w.processes then w.processes[a].accepted else []
  }

  /** What agent a accepts on the way from v to w. */
  ghost function AcceptedSince(v: World, w: World, a: Text): seq<AgentRuntime.Acceptance> {
    if |AcceptedBy(v, a)| <= |AcceptedBy(w, a)| then AcceptedBy(w, a)[|AcceptedBy(v, a)|..] else []
  }

  /** In every run of control plane and agents: within a session an agent accepts, and so executes, an action at most
      once, if every acceptance up to its deadline spares it - it comes before the very millisecond of the deadline and
      meets fewer than 9,999 unexpired later ones. */
  lemma AtMostOncePerSession(
    w: World, config: Config, a: Text, x: Sealed, now: int, position: nat, v: World, steps: seq<Step>, last: World)
    requires Safe(w) && a in w.processes && x.message.Request?
    requires AgentRuntime.Accepts(w.processes[a], Oracle(w.ledger), x, now)
    requires v == After(w, config, Deliver(a, Some(x), now, position)) && Leads(v, config, steps, last)
    requires OneSession(a, now, steps)
    requires AgentRuntime.SparedInTime(AcceptedSince(v, last, a), x.message.deadline)
    ensures |AcceptedBy(v, a)| == |AcceptedBy(w, a)| + 1 && a in last.processes
    ensures AgentRuntime.Without(AcceptedSince(v, last, a), x.message.actionId)
  {
    hide Safe, After, AgentRuntime.Received, AgentRuntime.SparedInTime, AgentRuntime.Without, AgentRuntime.OneDeadline,
      AgentRuntime.Delivers, Leads, OneSession, Verifies, IsMessage, AgentRuntime.Accepts, AgentRuntime.Tracked;
    var p := w.processes[a];
    AcceptedVerifies(w, a, x, now);
    StepSafe(w, config, Deliver(a, Some(x), now, position));
    StepOfProcess(w, config, Deliver(a, Some(x), now, position), a);
    AgentRuntime.StartTracking(p, Oracle(w.ledger), x, now);
    LedgerGrows(w, config, Deliver(a, Some(x), now, position));
    RunsAreSafe(v, config, steps, last);
    SessionDelivers(v, config, steps, last, a, now);
    RunGrows(v, config, steps, last);
    StillVerifies(w.ledger, last.ledger, w.planeKey, x);
    SafeParts(last);
    SameDeadline(v, config, steps, last, a, x);
    AgentRuntime.AtMostOnceIfSpared(
      p, Oracle(w.ledger), x, now, DeliveriesTo(v, config, steps, a), last.processes[a]);
  }

  lemma AcceptedVerifies(w: World, a: Text, x: Sealed, now: int)
    requires Safe(w) && a in w.processes && AgentRuntime.Accepts(w.processes[a], Oracle(w.ledger), x, now)
    ensures Verifies(w.ledger, w.planeKey, x) && IsMessage(x.message) && x.message.Request?
    ensures w.processes[a].planeKey == w.planeKey
  {
    hide Patchable, RequestsSound, LedgerSound, IsMessage, AllJustified, AllExecutable, Verifies, EnrolledOnce;
    assert ProcessSound(w, a);
  }

  lemma StillVerifies(was: Ledger, now: Ledger, key: Text, x: Sealed)
    requires was <= now && Verifies(was, key, x)
    ensures Verifies(now, key, x)
  {
    hide SignedText;
  }

  lemma SafeParts(w: World)
    requires Safe(w)
    ensures LedgerSound(w) && RequestsSound(w.sys.plane.signed)
  {
    hide Patchable, RequestsSound, LedgerSound, ProcessesSound, EnrolledOnce;
  }

  // ---- The agents' policies ----

  /** Policies are updated in one step, and the updates reach an agent in the order in which they were signed; some may
      be lost. */
  ghost predicate InOrder(w: World, step: Step) {
    match step
    case PlaneStep(e) => Atomic(e)
    case Deliver(a, incoming, _, position) =>
      a in w.processes && incoming.Some?
      && AgentRuntime.TakesUpdate(w.processes[a], Oracle(w.ledger), incoming.value) ==>
        a in w.cursors && w.cursors[a] <= position < |w.sys.plane.signed|
        && w.sys.plane.signed[position].message == incoming.value.message
    case _ => true
  }

  /** What holds besides in runs with atomic updates. */
  ghost predicate Ordered(w: World) { Safe(w) && Lifecycle(w.sys.plane) && Issued(w.sys.plane) }

  lemma StepOrdered(w: World, config: Config, step: Step)
    requires Ordered(w) && Possible(w, step) && InOrder(w, step)
    ensures Ordered(After(w, config, step))
  {
    hide Safe, Lifecycle, Issued, Effect, SignedBy, EnrolledBy, Enabled, AgentRuntime.Received,
      AgentRuntime.TakesUpdate;
    StepSafe(w, config, step);
    if step.PlaneStep? {
      TokensOf(w.sys.plane);
      EffectKeeps(w.sys.plane, config, Oracle(w.ledger), step.event);
      EffectIssues(w.sys.plane, config, Oracle(w.ledger), step.event);
    }
  }

  /** The agent's policy is the one that it was enrolled with or the one of the last update that was delivered. It is
      not ahead of the control plane's, behind every update still to be delivered, and if its version is the control
      plane's then it is the control plane's policy. */
  ghost predicate PolicyFollows(plane: Plane, a: Text, start: AgentPolicy, cursor: nat, policy: AgentPolicy) {
    a in plane.agents && plane.agents[a].publicKey.Some? && policy.version <= plane.agents[a].policyVersion
    && cursor <= |plane.signed| && UpdatesAhead(plane.signed, a, cursor, policy.version)
    && (policy == start || LastUpdate(plane.signed, a, cursor, policy))
    && (policy.version == plane.agents[a].policyVersion ==> policy == plane.agents[a].policy)
  }

  ghost predicate UpdatesAhead(signed: seq<Sealed>, a: Text, cursor: nat, version: int) {
    forall i :: cursor <= i < |signed| && IsUpdateFor(signed[i].message, a) ==>
      version < signed[i].message.policyVersion
  }

  /** The last message before the cursor is an update for the agent, with this policy. */
  ghost predicate LastUpdate(signed: seq<Sealed>, a: Text, cursor: nat, policy: AgentPolicy) {
    0 < cursor <= |signed| && IsUpdateFor(signed[cursor - 1].message, a)
    && signed[cursor - 1].message.policy == policy
  }

  ghost predicate PoliciesFollow(w: World) {
    w.processes.Keys <= w.cursors.Keys && w.processes.Keys <= w.enrolled.Keys
    && forall a :: a in w.processes ==>
         PolicyFollows(w.sys.plane, a, w.enrolled[a], w.cursors[a], w.processes[a].policy)
  }

  lemma FollowsLater(
    p: Plane, q: Plane, change: Change, a: Text, start: AgentPolicy, cursor: nat, policy: AgentPolicy)
    requires PolicyFollows(p, a, start, cursor, policy) && SignsInOrder(p, q)
    requires AgentsProgress(p.agents, q.agents, change)
    ensures PolicyFollows(q, a, start, cursor, policy)
  {
    hide SoundAgent, Writes;
    assert Progresses(p.agents[a], q.agents[a], a, change);
    assert q.signed != p.signed ==> q.signed[..|p.signed|] == p.signed;
    assert forall i :: 0 <= i < |p.signed| ==> q.signed[i] == p.signed[i];
    forall i | cursor <= i < |q.signed| && IsUpdateFor(q.signed[i].message, a)
      ensures policy.version < q.signed[i].message.policyVersion
    {
      assert i < |p.signed| ==> q.signed[i] == p.signed[i];
    }
  }

  /** An update delivered in order raises the agent's version, and the policy that it carries follows the control
      plane's. */
  lemma DeliveredFollows(
    plane: Plane, a: Text, start: AgentPolicy, cursor: nat, policy: AgentPolicy, position: nat)
    requires Issued(plane) && PolicyFollows(plane, a, start, cursor, policy) && cursor <= position < |plane.signed|
    requires IsUpdateFor(plane.signed[position].message, a)
    ensures var m := plane.signed[position].message;
            policy.version < m.policy.version && PolicyFollows(plane, a, start, position + 1, m.policy)
  {
    assert UpdateKnown(plane.signed[position].message, plane.agents);
  }

  lemma EnrolledFollows(p: Plane, q: Plane, e: Event)
    requires Lifecycle(p) && EnrolledBy(p, e).Some? && AgentsProgress(p.agents, q.agents, ChangeBy(p, e))
    ensures var x := EnrolledBy(p, e).value;
            x.agentId in p.agents && p.agents[x.agentId].publicKey.None? && x.policy == p.agents[x.agentId].policy
            && PolicyFollows(q, x.agentId, x.policy, |q.signed|, x.policy)
  {
    hide IndexSound, OnlineIffConnected, HostParses, AgentsProgress;
    var a := EnrolledBy(p, e).value.agentId;
    AgentIsSound(p, a);
    ProgressOf(p.agents, q.agents, a, KeyGiven(a));
  }

  lemma PlaneStepFollows(w: World, config: Config, e: Event)
    requires Ordered(w) && PoliciesFollow(w) && Possible(w, PlaneStep(e)) && Atomic(e)
    ensures var next := After(w, config, PlaneStep(e));
            PoliciesFollow(next)
            && forall a :: a in w.processes ==> a in next.processes && next.processes[a] == w.processes[a]
  {
    hide Safe, Lifecycle, Issued, Effect, SignsInOrder, Possible, PolicyFollows, AgentsProgress, TokensProgress,
      EnrolledBy, ChangeBy, After;
    var p, q := w.sys.plane, Effect(w.sys.plane, config, Oracle(w.ledger), e);
    TokensOf(p);
    EffectProgresses(p, config, Oracle(w.ledger), e);
    EffectSigns(p, config, Oracle(w.ledger), e);
    if EnrolledBy(p, e).Some? {
      EnrolledFollows(p, q, e);
      KeylessHasNoProcess(w, EnrolledBy(p, e).value.agentId);
    }
    EveryoneFollows(w, q, ChangeBy(p, e));
    AtomicStepIs(w, config, e);
  }

  lemma AtomicStepIs(w: World, config: Config, e: Event)
    requires Possible(w, PlaneStep(e)) && Atomic(e)
    ensures var next, q := After(w, config, PlaneStep(e)), Effect(w.sys.plane, config, Oracle(w.ledger), e);
            next.sys.plane == q
            && if EnrolledBy(w.sys.plane, e).None? then
                 next.processes == w.processes && next.enrolled == w.enrolled && next.cursors == w.cursors
               else
                 var x := EnrolledBy(w.sys.plane, e).value;
                 next.processes == w.processes[x.agentId := AgentRuntime.Started(x.agentId, w.planeKey, x.policy)]
                 && next.cursors == w.cursors[x.agentId := |q.signed|]
                 && (x.agentId in w.sys.plane.agents ==>
                       next.enrolled == w.enrolled[x.agentId := w.sys.plane.agents[x.agentId].policy])
  {
    hide Effect, SignedBy, Enabled, EnrolledBy;
  }

  lemma EveryoneFollows(w: World, q: Plane, change: Change)
    requires PoliciesFollow(w) && SignsInOrder(w.sys.plane, q) && AgentsProgress(w.sys.plane.agents, q.agents, change)
    ensures forall a :: a in w.processes ==> PolicyFollows(q, a, w.enrolled[a], w.cursors[a], w.processes[a].policy)
  {
    hide SignsInOrder, PolicyFollows, AgentsProgress;
    forall a | a in w.processes
      ensures PolicyFollows(q, a, w.enrolled[a], w.cursors[a], w.processes[a].policy)
    {
      FollowsLater(w.sys.plane, q, change, a, w.enrolled[a], w.cursors[a], w.processes[a].policy);
    }
  }

  lemma KeylessHasNoProcess(w: World, a: Text)
    requires PoliciesFollow(w) && a in w.sys.plane.agents && w.sys.plane.agents[a].publicKey.None?
    ensures a !in w.processes
  {}

  /** No step takes an agent's policy version back. */
  ghost predicate VersionsRise(v: World, w: World) {
    forall a :: a in v.processes ==>
      a in w.processes && v.processes[a].policy.version <= w.processes[a].policy.version
  }

  lemma DeliveringFollows(w: World, config: Config, step: Step)
    requires Ordered(w) && PoliciesFollow(w) && step.Deliver? && Possible(w, step) && InOrder(w, step)
    ensures var next := After(w, config, step); PoliciesFollow(next) && VersionsRise(w, next)
  {
    hide Safe, Lifecycle, Issued, PolicyFollows, AgentRuntime.Accepts, AgentRuntime.TakesUpdate,
      AgentRuntime.RememberedAction, AgentRuntime.Executes;
    var p, next := w.processes[step.a], After(w, config, step);
    if step.incoming.Some? {
      if AgentRuntime.TakesUpdate(p, Oracle(w.ledger), step.incoming.value) {
        TakenIsUpdate(w, step.a, step.incoming.value);
        DeliveredFollows(
          w.sys.plane, step.a, w.enrolled[step.a], w.cursors[step.a], p.policy, step.position);
      } else if AgentRuntime.Accepts(p, Oracle(w.ledger), step.incoming.value, step.now) {
        AcceptedIsRequest(p, Oracle(w.ledger), step.incoming.value, step.now);
      }
    }
  }

  lemma TakenIsUpdate(w: World, a: Text, sealed: Sealed)
    requires Safe(w) && a in w.processes && AgentRuntime.TakesUpdate(w.processes[a], Oracle(w.ledger), sealed)
    ensures IsUpdateFor(sealed.message, a)
  {
    hide Patchable, RequestsSound, LedgerSound, EnrolledOnce, AllJustified, AllExecutable, Parses;
    assert ProcessSound(w, a);
  }

  lemma StepFollows(w: World, config: Config, step: Step)
    requires Ordered(w) && PoliciesFollow(w) && Possible(w, step) && InOrder(w, step)
    ensures var next := After(w, config, step); PoliciesFollow(next) && VersionsRise(w, next)
  {
    hide Patchable, RequestsSound, EnrolledOnce, Lifecycle, Issued, LedgerSound, PolicyFollows, AllJustified,
      AllExecutable;
    match step
    case PlaneStep(e) => PlaneStepFollows(w, config, e);
    case Deliver(a, incoming, now, position) => DeliveringFollows(w, config, step);
    case Restart(a) => assert ProcessSound(w, a);
    case OthersSign(signed) =>
  }

  ghost predicate LeadsInOrder(w: World, config: Config, steps: seq<Step>, last: World)
    decreases |steps|
  {
    if steps == [] then last == w
    else
      Possible(w, steps[0]) && InOrder(w, steps[0])
      && LeadsInOrder(After(w, config, steps[0]), config, steps[1..], last)
  }

  lemma RiseIsTransitive(u: World, v: World, w: World)
    requires VersionsRise(u, v) && VersionsRise(v, w)
    ensures VersionsRise(u, w)
  {}

  /** With atomic updates that arrive in order, an agent's policy is the one that it was enrolled with or the one of the
      last update that was delivered to it; its version never falls and never exceeds the control plane's, and when they
      are equal so are the policies. */
  lemma {:induction false} LocalPoliciesFollow(w: World, config: Config, steps: seq<Step>, last: World)
    requires Ordered(w) && PoliciesFollow(w) && LeadsInOrder(w, config, steps, last)
    ensures PoliciesFollow(last) && VersionsRise(w, last) && Ordered(last)
    decreases |steps|
  {
    hide PoliciesFollow, After, Possible, InOrder, Ordered;
    if steps != [] {
      hide VersionsRise;
      var next := After(w, config, steps[0]);
      StepOrdered(w, config, steps[0]);
      StepFollows(w, config, steps[0]);
      LocalPoliciesFollow(next, config, steps[1..], last);
      RiseIsTransitive(w, next, last);
    }
  }

  lemma BeginningFollows(planeKey: Text)
    ensures PoliciesFollow(Beginning(planeKey)) && Ordered(Beginning(planeKey))
  {}

  // ---- What is granted is executed ----

  lemma SignedVerifies(key: Text, ledger: Ledger, signed: seq<Sealed>, sealed: Sealed)
    requires sealed in signed && sealed.signature != []
    ensures Verifies(ledger + SignedBy(key, signed), key, sealed)
  {
    hide SignedText;
    var i :| 0 <= i < |signed| && signed[i] == sealed;
    assert Signed(key, SignedText(signed[i].message), signed[i].signature) in SignedBy(key, signed);
  }

  /** The agent does not know the action's id, its policy version is the same or one behind, and its policy enables the
      tool. */
  ghost predicate Prepared(p: AgentRuntime.Process, version: int, actionId: Text, tool: Tool) {
    (forall e :: e in p.seenActions ==> e.value != actionId) && PolicyAllows(p.policy, tool)
    && (p.policy.version == version || p.policy.version == version - 1)
  }

  /** The identifiers are as the source makes them, and a signature is never empty. */
  ghost predicate NamesFit(o: Op, a: Text)
    requires o.DispatchOp?
  {
    |o.nonce| >= 16 && o.actionId != [] && o.principal.userId != [] && a != [] && o.signature != []
  }

  /** A dispatch that the control plane may make signs the request that was asked for and sends it to the agent. */
  lemma GrantedIsSigned(w: World, config: Config, e: Event, a: Text) returns (sealed: Sealed)
    requires Safe(w) && e.op.DispatchOp? && Possible(w, PlaneStep(e)) && MayDispatch(w.sys.plane, config, e, a)
    ensures sealed.signature == e.op.signature && Asks(sealed.message, w.sys.plane, config, e, a)
    ensures var v := After(w, config, PlaneStep(e));
            v.sys.plane.signed == w.sys.plane.signed + [sealed]
            && SentTo(w.sys.plane, v.sys.plane, w.sys.plane.connections[a].socket, Command(sealed))
  {
    hide Patchable, RequestsSound, LedgerSound, ProcessesSound, EnrolledOnce, SignedBy, SentTo, Asks, Enabled, Dispatch,
      Serves, CallsFor, InTime;
    SafeIndex(w);
    DispatchedExactlyWhen(w.sys.plane, config, e, a);
    sealed := Sealed(Answer(w.sys.plane, config, e).1.value, e.op.signature);
    assert MayDispatch(w.sys.plane, config, e, a) ==> Serves(w.sys.plane, e.op, a);
    DispatchIsEffect(w, config, e);
  }

  lemma SafeIndex(w: World)
    requires Safe(w)
    ensures IndexSound(w.sys.plane.aliases, w.sys.plane.agents)
  {
    hide RequestsSound, LedgerSound, ProcessesSound, EnrolledOnce, TokensSound, IndexSound, EditsSound, EditsKeyless,
      AgentsPatchable;
  }

  lemma DispatchIsEffect(w: World, config: Config, e: Event)
    requires e.op.DispatchOp? && Possible(w, PlaneStep(e))
    ensures var v := After(w, config, PlaneStep(e));
            v.sys.plane == Answer(w.sys.plane, config, e).0 && v.processes == w.processes && v.planeKey == w.planeKey
            && v.ledger == w.ledger + SignedBy(w.planeKey, v.sys.plane.signed)
  {
    hide Dispatch, SignedBy, Enabled;
  }

  /** The partner of the safety result. A call by an owner with the tool's scope, for an agent that is connected, not
      revoked and allowed the tool, signs and sends one request; whenever in any run this request is then delivered,
      before its deadline, to the agent, and the agent is prepared for it, the agent executes exactly the tool and the
      arguments of the call. */
  lemma GrantedActionIsExecuted(
    w: World, config: Config, e: Event, a: Text, steps: seq<Step>, u: World, now: int) returns (sealed: Sealed)
    requires Safe(w) && e.op.DispatchOp? && Possible(w, PlaneStep(e)) && MayDispatch(w.sys.plane, config, e, a)
    requires NamesFit(e.op, a) && Leads(After(w, config, PlaneStep(e)), config, steps, u) && a in u.processes
    requires Prepared(u.processes[a], w.sys.plane.agents[a].policyVersion, e.op.actionId, e.op.tool)
    requires now <= e.now + Allowance(config, w.sys.plane.agents[a].policy, e.op.requested)
    ensures Asks(sealed.message, w.sys.plane, config, e, a)
    ensures var v := After(w, config, PlaneStep(e));
            v.sys.plane.signed == w.sys.plane.signed + [sealed]
            && SentTo(w.sys.plane, v.sys.plane, w.sys.plane.connections[a].socket, Command(sealed))
    ensures var p := u.processes[a];
            AgentRuntime.Received(p, Oracle(u.ledger), Some(sealed), now).executed
            == p.executed + [AgentRuntime.Acceptance(sealed.message, now, p.policy.version, p.policy)]
  {
    hide Safe, MayDispatch, After, Possible, Leads, SentTo, AgentRuntime.Received, Allowance, IsDoc, Verifies;
    sealed := GrantedIsSigned(w, config, e, a);
    assert a in w.sys.plane.agents && w.sys.plane.agents[a].policyVersion >= 1 && IsAgentTool(e.op.tool)
           && IsDoc(DObj(e.op.args)) by {
      GrantedIsProper(w, config, e, a);
    }
    StepSafe(w, config, PlaneStep(e));
    RunsAreSafe(After(w, config, PlaneStep(e)), config, steps, u);
    SignedStillVerifies(w, config, e, a, steps, u, sealed);
    IdentityOf(u, a);
    PolicyNeeds(u.processes[a].policy, e.op.tool);
    AgentRuntime.HandledExactlyHow(u.processes[a], Oracle(u.ledger), sealed, now);
  }

  lemma SignedStillVerifies(
    w: World, config: Config, e: Event, a: Text, steps: seq<Step>, u: World, sealed: Sealed)
    requires e.op.DispatchOp? && Possible(w, PlaneStep(e)) && sealed.signature != []
    requires Leads(After(w, config, PlaneStep(e)), config, steps, u)
    requires sealed in After(w, config, PlaneStep(e)).sys.plane.signed
    ensures Verifies(u.ledger, u.planeKey, sealed)
  {
    hide After, Leads, SignedBy, Verifies, Possible, Dispatch;
    var v := After(w, config, PlaneStep(e));
    DispatchIsEffect(w, config, e);
    SignedVerifies(w.planeKey, w.ledger, v.sys.plane.signed, sealed);
    RunGrows(v, config, steps, u);
    StillVerifies(v.ledger, u.ledger, u.planeKey, sealed);
  }

  lemma IdentityOf(w: World, a: Text)
    requires Safe(w) && a in w.processes
    ensures w.processes[a].agentId == a && w.processes[a].planeKey == w.planeKey
    ensures w.processes[a].policy == w.processes[a].executorPolicy
  {
    hide Patchable, RequestsSound, LedgerSound, EnrolledOnce, AllJustified, AllExecutable, PolicyKnown;
    assert ProcessSound(w, a);
  }

  lemma GrantedIsProper(w: World, config: Config, e: Event, a: Text)
    requires Safe(w) && e.op.DispatchOp? && Possible(w, PlaneStep(e)) && MayDispatch(w.sys.plane, config, e, a)
    ensures a in w.sys.plane.agents && w.sys.plane.agents[a].policyVersion >= 1
    ensures IsAgentTool(e.op.tool) && IsDoc(DObj(e.op.args))
  {
    hide Safe, IsDoc, InTime, IsAgentTool, ScopeFor, PolicyAllows;
    PolicyOf(w, a);
  }

  lemma PolicyOf(w: World, a: Text)
    requires Safe(w) && a in w.sys.plane.agents
    ensures PolicySound(w.sys.plane.agents[a])
  {
    hide RequestsSound, LedgerSound, ProcessesSound, EnrolledOnce, TokensSound, IndexSound, EditsSound, EditsKeyless;
    PolicyIsSound(w.sys.plane, a);
  }
}

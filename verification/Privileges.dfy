/** Where what an agent may do comes from: in every run, PATCH in two steps included, its policy is the one it was
    created with or the one of the last update, and whatever this enables somebody with agents:admin asked for. */
module Privileges {
  import opened JsText
  import opened CanonicalJson
  import opened RemoteTypes
  import opened Envelopes
  import opened NonceWindows
  import opened Planes
  import opened PlaneRuns
  import opened AgentLifecycle
  import opened PatchRaces
  import opened PlaneAnswers

  /** The patch that the event makes of the policy of agent a, if it does: an update, or the write of a PATCH that has
      read the agent's record, by a caller who may administer agents. */
  ghost function PatchFor(sys: System, e: Event, a: Text): Option<PolicyPatch> {
    match e.op
    case UpdatePolicyOp(principal, name, patch, _, _) =>
      if AgentsAdminScope in principal.scopes && Calls(sys.plane, principal.userId, name, a) then Some(patch) else None
    case WritePatchOp(edit, patch, _, _) =>
      if edit in sys.edits && sys.edits[edit].a == a && AgentsAdminScope in sys.edits[edit].principal.scopes
      then Some(patch) else None
    case _ => None
  }

  /** The event creates agent a, by a caller who may administer agents. */
  ghost predicate Creates(e: Event, a: Text, g: Agent) {
    e.op.CreateTokenOp? && e.op.agentId == a && AgentsAdminScope in e.op.principal.scopes
    && IsNewAgent(g, e.op.principal.userId, e.op.alias, e.op.profile)
  }

  ghost predicate PolicyFollows(sys: System, q: Plane, config: Config, e: Event, a: Text)
    requires a in q.agents
  {
    if a !in sys.plane.agents then Creates(e, a, q.agents[a])
    else if PatchFor(sys, e, a).Some? then
      IsPatched(q.agents[a].policy, PatchFor(sys, e, a).value, config, q.agents[a].policyVersion)
    else q.agents[a].policy == sys.plane.agents[a].policy
  }

  lemma CreatingFollows(sys: System, config: Config, verifies: Verifier, e: Event, a: Text)
    requires Patchable(sys) && e.op.CreateTokenOp?
    ensures var q := Effect(sys.plane, config, verifies, e); a in q.agents ==> PolicyFollows(sys, q, config, e, a)
  {
    hide AgentsPatchable, TokensSound, IndexSound, EditsSound, EditsKeyless, CreateToken, IsNewAgent, AliasIsFree;
    var p, o := sys.plane, e.op;
    CreatedExactlyWhen(p, config, o.principal, o.alias, o.profile, o.agentId, o.tokenHash, e.now);
    NotCreatedExactlyWhy(p, config, o.principal, o.alias, o.profile, o.agentId, o.tokenHash, e.now);
  }

  lemma EnrollingFollows(sys: System, config: Config, verifies: Verifier, e: Event, a: Text)
    requires e.op.EnrollOp?
    ensures var q := Effect(sys.plane, config, verifies, e); a in q.agents ==> PolicyFollows(sys, q, config, e, a)
  {
    hide Enroll, HostFits, TokenOpens;
    var o := e.op;
    EnrolledExactlyWhen(sys.plane, o.tokenHash, o.publicKey, o.keyIsValid, o.host, e.now);
  }

  lemma UpdatingFollows(sys: System, config: Config, verifies: Verifier, e: Event, a: Text)
    requires Patchable(sys) && e.op.UpdatePolicyOp?
    ensures var q := Effect(sys.plane, config, verifies, e); a in q.agents ==> PolicyFollows(sys, q, config, e, a)
  {
    hide AgentsPatchable, TokensSound, IndexSound, EditsSound, EditsKeyless, UpdatePolicy, IsPatched, Calls, Resolve;
    var p, o := sys.plane, e.op;
    ResolveMeans(p, o.principal.userId, o.name, a);
    var target := Resolve(p, o.principal.userId, o.name);
    if target.Some? {
      var b := target.value;
      UpdatedExactlyWhen(p, config, o.principal, b, p.agents[b], o.patch, o.nonce, o.signature, e.now);
    }
  }

  lemma WritingFollows(sys: System, config: Config, verifies: Verifier, e: Event, a: Text)
    requires Patchable(sys) && e.op.WritePatchOp? && e.op.edit in sys.edits
    ensures var q := Next(sys, config, verifies, e).plane; a in q.agents ==> PolicyFollows(sys, q, config, e, a)
  {
    hide AgentsPatchable, TokensSound, IndexSound, EditsSound, EditsKeyless, UpdatePolicy, IsPatched;
    var p, o, x := sys.plane, e.op, sys.edits[e.op.edit];
    FewerEdits(sys, o.edit);
    UpdatedExactlyWhen(p, config, x.principal, x.a, x.agent, o.patch, o.nonce, o.signature, e.now);
  }

  lemma OthersFollow(sys: System, config: Config, verifies: Verifier, e: Event, a: Text)
    requires Patchable(sys) && PatchFor(sys, e, a).None?
    requires !e.op.CreateTokenOp? && !e.op.EnrollOp? && !e.op.UpdatePolicyOp?
    ensures var q := Effect(sys.plane, config, verifies, e); a in q.agents ==> PolicyFollows(sys, q, config, e, a)
  {
    hide AgentsPatchable, TokensSound, IndexSound, EditsSound, EditsKeyless, Effect, TokensProgress;
    var p, q := sys.plane, Effect(sys.plane, config, verifies, e);
    EffectProgresses(p, config, verifies, e);
    StoreFrame(p, config, verifies, e);
    if a in q.agents {
      assert Progresses(p.agents[a], q.agents[a], a, NoChange);
    }
  }

  /** A step leaves an agent's policy as it was unless it creates the agent or patches the policy, and then it is
      exactly what was asked for. */
  lemma PolicyFollowsStep(sys: System, config: Config, verifies: Verifier, e: Event, a: Text)
    requires Patchable(sys) && Enabled(sys, e)
    ensures var q := Next(sys, config, verifies, e).plane; a in q.agents ==> PolicyFollows(sys, q, config, e, a)
  {
    hide Patchable, Effect, UpdatePolicy, PolicyFollows, Resolve;
    if e.op.WritePatchOp? {
      WritingFollows(sys, config, verifies, e, a);
    } else if e.op.CreateTokenOp? {
      CreatingFollows(sys, config, verifies, e, a);
    } else if e.op.EnrollOp? {
      EnrollingFollows(sys, config, verifies, e, a);
    } else if e.op.UpdatePolicyOp? {
      UpdatingFollows(sys, config, verifies, e, a);
    } else {
      OthersFollow(sys, config, verifies, e, a);
      if e.op.ReadForPatchOp? {
        ReadingChangesNothing(sys.plane, config, verifies, e);
      }
    }
  }

  lemma ReadingChangesNothing(p: Plane, config: Config, verifies: Verifier, e: Event)
    requires e.op.ReadForPatchOp?
    ensures Effect(p, config, verifies, e) == p
  {}

  // ---- Over runs ----

  /** Somebody with agents:admin asks at this event that agent a be able to write files or run a shell or sudo: a new
      agent with the full-admin profile, or a patch that enables it or names that profile. */
  ghost predicate GivesPower(sys: System, e: Event, a: Text, c: Capability) {
    (e.op.CreateTokenOp? && e.op.agentId == a && AgentsAdminScope in e.op.principal.scopes
     && e.op.profile == FullAdmin)
    || (PatchFor(sys, e, a).Some?
        && var patch := PatchFor(sys, e, a).value;
           if c in patch.capabilities then patch.capabilities[c] else patch.profile == Some(FullAdmin))
  }

  ghost predicate PowerGiven(
    sys: System, config: Config, verifies: Verifier, events: seq<Event>, a: Text, c: Capability)
    decreases |events|
  {
    events != []
    && (GivesPower(sys, events[0], a, c)
        || PowerGiven(Next(sys, config, verifies, events[0]), config, verifies, events[1..], a, c))
  }

  ghost predicate HasPower(p: Plane, a: Text, c: Capability) {
    a in p.agents && c in p.agents[a].policy.capabilities
  }

  lemma StepGivesPower(sys: System, config: Config, verifies: Verifier, e: Event, a: Text, c: Capability)
    requires Patchable(sys) && Enabled(sys, e) && c in {FilesWrite, ShellExec, SudoExec}
    ensures HasPower(Next(sys, config, verifies, e).plane, a, c) ==>
              HasPower(sys.plane, a, c) || GivesPower(sys, e, a, c)
  {
    hide Patchable, Enabled, Next, PatchFor;
    PolicyFollowsStep(sys, config, verifies, e, a);
  }

  /** In every run an agent can write files or run a shell or sudo only if it could before, or full-admin was asked for
      when it was created, or a patch enabled it. */
  lemma {:induction false} PowerIsGiven(
    sys: System, config: Config, verifies: Verifier, events: seq<Event>, last: System, a: Text, c: Capability)
    requires Patchable(sys) && Runs(sys, config, verifies, events, last) && c in {FilesWrite, ShellExec, SudoExec}
    ensures HasPower(last.plane, a, c) ==> HasPower(sys.plane, a, c) || PowerGiven(sys, config, verifies, events, a, c)
    decreases |events|
  {
    if events != [] {
      hide Patchable, Enabled, Next, GivesPower, HasPower;
      NextPatchable(sys, config, verifies, events[0]);
      StepGivesPower(sys, config, verifies, events[0], a, c);
      PowerIsGiven(Next(sys, config, verifies, events[0]), config, verifies, events[1..], last, a, c);
    }
  }

  /** So in every run from the start, whoever can was given it on the way. */
  lemma PowerComesFromAdministrators(
    config: Config, verifies: Verifier, events: seq<Event>, last: System, a: Text, c: Capability)
    requires Runs(START, config, verifies, events, last) && c in {FilesWrite, ShellExec, SudoExec}
    ensures HasPower(last.plane, a, c) ==> PowerGiven(START, config, verifies, events, a, c)
  {
    hide Runs, PowerGiven;
    StartIsPatchable();
    PowerIsGiven(START, config, verifies, events, last, a, c);
  }
}

# A verified model of the remote-agent control plane

The repository lets an MCP client run actions on machines that connect outwards to a control plane. This project models
that protocol in Dafny 4.11 - the control plane (`src/remote/control-plane.ts`), the agent (`src/remote/agent-cli.ts`,
`src/remote/agent-executor.ts`), the canonical JSON their signatures are made over, the WebSocket frames that carry
them and the OAuth flow in front of them - together with four smaller parts on which the rest of the server leans: the
sliding-window rate limiter, path policy, output bounding, and shell quoting and line management.

`dafny verify dfyconfig.toml` checks everything.

## How it is built

Code that changes things step by step is modelled as classes whose methods have the source's loops and early returns;
each method is proved equal to a step on values, what each step does is said again without the functions that compute
it, for every state and input, and the properties are proved about runs of these steps. Code that
only computes is modelled as functions.

| file | what it holds |
|---|---|
| `Planes.dfy` | the control plane's state and one function for each handler: what happens between two awaits |
| `PlaneService.dfy` | the control plane as an object; each method makes the step of `Planes.dfy` |
| `PlaneRuns.dfy` | which steps are possible, and what each leaves alone |
| `AgentLifecycle.dfy`, `ConnectionRegistry.dfy` | enrollment, connections, revocation; sockets |
| `PlaneAnswers.dfy`, `Privileges.dfy` | what each handler answers and leaves behind, exactly; where an agent's power over its machine comes from |
| `PatchRaces.dfy`, `PatchHarm.dfy` | PATCH in two steps: what survives it, and exactly what it can undo |
| `ActionSettlement.dfy`, `Issuance.dfy`, `HelloReplay.dfy` | what becomes of an action; what is signed; replayed hellos |
| `AgentRuntime.dfy` | the agent, as an object and as steps; at-most-once execution |
| `Protocol.dfy` | control plane and agents together, with an adversary who carries the messages |
| `Envelopes.dfy`, `CanonicalJson.dfy`, `JsText.dfy`, `Decimals.dfy` | signed messages down to their text |
| `RemoteTypes.dfy` | capabilities, scopes, tools, policies |
| `NonceWindows.dfy`, `NonceHistory.dfy`, `ConnectionNonces.dfy` | the capped map of nonces, the full history it stands for, and the connections that use it |
| `OAuthFlow.dfy`, `OAuthAnswers.dfy`, `OAuthService.dfy` | the authorization code flow: its steps and runs, what each step answers exactly, and the server as an object |
| `WebSocketFrames.dfy` | the frame codec |
| `RateLimiting.dfy`, `RemotePaths.dfy`, `BoundedOutput.dfy`, `ShellQuoting.dfy`, `Separated.dfy`, `EnsureLines.dfy`, `ByteStrings.dfy` | the smaller parts |

Conventions. A handler runs without interruption between awaits, so each is one step, and the clock is a nondecreasing
input read once per step. Signatures are ideal: a message verifies under a key only if a signature by that key's owner
over the same canonical text has been made; the control plane itself is proved for any verification function. Random
identifiers are inputs; where the source's own checks catch a clash the model does too, and otherwise they are new.
Hashes are arbitrary functions. Tables are maps with the uniqueness rules of the schema, and the WebSocket messages of
an agent are an arbitrary sequence.

## What turned out not to hold as one would wish

Each is proved with its exact condition.

- A signed hello can be accepted twice exactly when it is dated no earlier than the clock that first accepts it
  (`HelloReplay.ReplayableExactlyWhenDatedAhead`): its nonce is forgotten in the last instant in which it still passes
  as fresh.
- An action can be executed twice. It is accepted again, when it is offered again in time, exactly if some acceptance
  after it did not spare it (`AgentRuntime.AcceptedAgainExactlyWhenDisturbed`): one in or after the very millisecond of
  its deadline, or one that met 9,999 unexpired later ones. `AgentRuntime.BoundaryReplay` is the case of the millisecond.
- A PATCH writes back the whole record that it read before its body had arrived. Over every run, a revocation stays, a
  key stays, and versions rise by one for each update, each exactly until a PATCH writes back a record that was not
  revoked over one that is, one without the key, or one with another version (`PatchHarm.KeptExactlyUntilBroken`). The
  lifecycle holds throughout exactly while every record written back was online if and only if the agent is connected
  (`PatchHarm.LifecycleExactlyWhileWritesInStep`). That an agent which is online or offline has a key holds exactly while
  no event closes the open socket of an agent whose record says it is pending, and only a pending record written back
  over a connected agent makes one (`PatchHarm.KeyedExactlyWhileNobodyPendingLeaves`,
  `PatchHarm.PendingConnectedExactlyByWrite`). One write does none of this harm under the four conditions of
  `PatchHarm.WriteIsHarmlessExactlyWhen`. Pending agents without keys, unused tokens, aliases and the agreement of a
  version with its policy survive all the same (`PatchRaces.WhatSurvives`), and so does authorization: the safety result
  needs no atomic updates.
- A registered connection need not be open: an agent that registers on a socket that was closed already stays
  registered (`ConnectionRegistry.RegisteredOnClosedSocketStays`).
- Ensuring lines present is idempotent, and undone by ensuring them absent, under the conditions of
  `EnsureLines.PresentIdempotentIff` and `EnsureLines.PresentThenAbsentRestores`.
- Streamed output differs from batch truncation exactly when an empty chunk arrives at a limit that the output reaches
  without exceeding it; with non-empty chunks the two always agree (`BoundedOutput.StreamedEqualsBatch`).
- In a policy an agent checks, `/` covers only itself; in the server's own path policy it covers everything
  (`RemotePaths.RootPrefixDiffers`).
- Cleaning up drops an authorization transaction that a callback in the same millisecond would still take, and shows in
  no other case (`OAuthAnswers.CleaningShowsExactlyWhen`).
- A revoked agent's alias is not free: an alias is refused whichever of the caller's agents has it, as forbidden while
  that agent is not revoked and as an internal error when it is (`PlaneAnswers.NotCreatedExactlyWhy`).
- With `sudo`, only the `cd` of a command with a working directory runs as root (`ShellQuoting.SudoScriptReadsBack`).

## Model

| member | source | states |
|---|---|---|
| Protocol.ExecutedActionsAreAuthorized | src/remote/control-plane.ts:1118-1176 | in every run of control plane and agents, PATCH in two steps included, with messages dropped, repeated, reordered and invented: each executed action is a request that the control plane dispatched at some step, for that agent and with those arguments; at that step the caller named and owned this very agent, the scopes and this agent's policy granted the tool's capability; at execution the agent's own policy, which it was enrolled with or which an update signed for it carries, enabled it, its version was the local one or the next, and its deadline was not over |
| Protocol.GrantedActionIsExecuted | src/remote/agent-cli.ts:240-262 | conversely, when a caller with the tool's scope calls its own agent, which is connected, not revoked and allowed the tool, one request is signed and sent; whenever in any run it is then delivered before its deadline to the agent, which does not know its id, has the same version or one less and enables the tool, exactly the tool and arguments of the call are executed |
| Protocol.VerifiedIsGranted | src/remote/agent-cli.ts:240-262 | in every run, a request that verifies under the control plane's key was dispatched by it at some step |
| Protocol.OneRequestPerAction | src/remote/control-plane.ts:1345-1370 | two verified requests for one action id are the same request |
| Protocol.SameDeadline | src/remote/control-plane.ts:1345-1370 | over a run, with signatures still being made, the requests for one action that an agent can verify all carry one deadline |
| Protocol.AtMostOncePerSession | src/remote/agent-cli.ts:240-262 | in every run of control plane and agents, within a session an agent accepts an action at most once, if every acceptance up to its deadline spares it |
| Protocol.LocalPoliciesFollow | src/remote/agent-cli.ts:222-235 | with atomic updates in order, an agent's policy is the one it enrolled with or the one of the last update delivered to it; its version never falls and never exceeds the control plane's, and if the versions are equal so are the policies |
| Protocol.AgentsPolicyIsGiven | src/remote/agent-cli.ts:222-235 | in every run the policy in configuration, executor and file is the one that the control plane had at enrollment or the one of an update signed for the agent |
| Protocol.DeliveredFollows | src/remote/control-plane.ts:1267-1302 | an update delivered in order raises the local version, stays behind those still to come, and brings the control plane's policy if it is the latest |
| Protocol.RunsAreSafe | src/remote/agent-executor.ts:270-275 | every run, PATCH in two steps included, keeps the ledger of signatures, one request for an action id, and the justification of everything the agents did |
| PlaneAnswers.DispatchedExactlyWhen | src/remote/control-plane.ts:1118-1176 | a call is dispatched if and only if the caller has the tool's scope, means an own agent by the name, whose policy enables the tool and which is neither revoked nor offline, the timeout is a number, the deadline within 8.64e15 ms of the epoch and the action id new; then exactly the request asked for is signed, sent, kept and timed |
| PlaneAnswers.RefusedExactlyWhy | src/remote/control-plane.ts:1345-1370 | otherwise it is refused for the first of these that fails, nothing is sent, and something is signed only when the action id was in use |
| PlaneAnswers.ResolveMeans | src/remote/control-plane.ts:1463-1472 | a name means the caller's own agent with this id and otherwise the caller's own agent with this alias |
| PlaneAnswers.CreatedExactlyWhen | src/remote/control-plane.ts:1178-1219 | a token is created if and only if the caller has agents:admin, the alias is not empty and no agent of the caller has it, and the ids are new; the new agent is the caller's, with exactly the read-only capabilities unless operations or full-admin was asked for and then exactly that profile's, and the token is unused and expires after the configured seconds |
| PlaneAnswers.NotCreatedExactlyWhy | src/remote/control-plane.ts:1183-1196 | how it is refused, and what is left when only the token's hash was in use |
| PlaneAnswers.EnrolledExactlyWhen | src/remote/control-plane.ts:817-849 | an agent is enrolled if and only if its host is described within bounds, its key is one, the token is known, unused and not past its expiry, and the agent exists and is not revoked; then it has this key and host and is offline, the token is used, and the answer is its id and policy; otherwise nothing changes |
| PlaneAnswers.UpdatedExactlyWhen | src/remote/control-plane.ts:1259-1311 | a policy is updated if and only if the caller has agents:admin; the record read is written with every field of the policy as patched or as the profile has it, limits capped, under the next version, and exactly this policy is signed and sent if a connection is registered |
| PlaneAnswers.RevokedExactlyWhen | src/remote/control-plane.ts:1313-1329 | an agent is revoked if and only if the caller has agents:admin; no connection stays registered for it, and its socket is closed |
| PlaneAnswers.ConnectedExactlyWhen | src/remote/control-plane.ts:893-1018 | a hello registers its agent on its socket, online and with both nonces remembered for 300,000 ms, and is answered ready, if and only if it fits the schema, the agent is known, has a key and is not revoked, the signature verifies, the date is within 300,000 ms, the agent is not on this socket and the nonce is not remembered; otherwise nobody gains a registration, and the socket is told which check failed and closed |
| PlaneAnswers.SettledExactlyHow | src/remote/control-plane.ts:871-891 | a result for a pending action settles it with the result or with the code of the first check that failed, any other result has no effect, and any other message but a hello is turned away |
| Privileges.PowerIsGiven | src/remote/control-plane.ts:1190-1192 | in every run, PATCH in two steps included, an agent can write files, run a shell or sudo only if it could before, or a caller with agents:admin asked for full-admin when creating it, or patched its policy so |
| Privileges.PolicyFollowsStep | src/remote/control-plane.ts:1259-1285 | a step leaves an agent's policy alone unless it creates the agent or patches the policy, and then it is exactly what was asked for |
| ActionSettlement.SettledExactlyOnce | src/remote/control-plane.ts:1399-1452 | in every run, also with two-step PATCH, a dispatched action is pending or settled, was settled exactly once if settled, its timer runs while it is pending, and its outcome and row are final: completed by an ok result, timed out by the timer, otherwise in error |
| ActionSettlement.WhatSettles | src/remote/control-plane.ts:1020-1088 | a pending action is settled by a result for it or its timer and nothing else, and resolved if and only if the result verifies under its own agent's key, came on the registered connection and has an unseen nonce |
| ActionSettlement.ResolvedMeansBelieved | src/remote/control-plane.ts:1020-1088 | over a run, an action ends with a result if and only if that result was believed at some step |
| ActionSettlement.JudgedIsBelieved | src/remote/control-plane.ts:1024-1088 | the order of the handler's checks comes to exactly the conditions for believing a result |
| ActionSettlement.DispatchOpens | src/remote/control-plane.ts:1371-1411 | a dispatch opens exactly the action of the request it answers with, or changes nothing in the books |
| Issuance.DispatchSends | src/remote/control-plane.ts:1409-1411 | a dispatch that is not refused writes exactly its signed request to the agent's registered socket, if that is open, and nothing elsewhere; one that is refused writes nothing |
| Issuance.RequestsInRuns | src/remote/control-plane.ts:1331-1370 | in every run, PATCH in two steps included, each request signed on the way was dispatched at one of the steps, and every action id was used for one request |
| Issuance.UpdatesInRuns | src/remote/control-plane.ts:1259-1302 | in every run with atomic updates, the policy updates signed for an agent carry rising versions, none above the agent's own, and the one with the agent's version carries its policy |
| Issuance.DispatchGrants | src/remote/control-plane.ts:1118-1176 | a dispatch that signs does so for the agent that the caller names and owns, which is connected and not revoked, within the caller's scopes and this agent's policy |
| Issuance.PatchedPolicyMeans | src/remote/policy.ts:65-83 | a capability is as the patch says or as the profile has it, and limits stay within the configuration |
| AgentLifecycle.LifecycleOfRuns | src/remote/control-plane.ts:897-1009 | in every run with atomic updates: online exactly while connected, pending without a key, unused tokens for agents without a key, one agent for an alias of an owner, policy version equal to the policy's |
| AgentLifecycle.EffectProgresses | src/remote/control-plane.ts:1259-1302 | a step raises an agent's policy version by one if it updates the policy and leaves it otherwise; keys, revocation and used tokens never go back |
| AgentLifecycle.RevocationIsForGood | src/remote/control-plane.ts:1313-1329 | over a run with atomic updates a revoked agent stays revoked, keys stay, used tokens stay used, versions never fall |
| AgentLifecycle.TokenEnrollsOnce | src/remote/control-plane.ts:828-849 | a token that has enrolled an agent enrolls nothing more in any run with atomic updates, and the agent keeps that key |
| AgentLifecycle.RegisteredKeeps | src/remote/control-plane.ts:975-1001 | closing the old connection first, with its handlers run in between, still leaves online equal to connected |
| AgentLifecycle.RevokeKeeps | src/remote/control-plane.ts:1313-1329 | revocation, which is for a moment both revoked and connected, keeps the lifecycle |
| AgentLifecycle.CreateTokenKeeps | src/remote/control-plane.ts:1178-1219 | creating a token keeps the lifecycle, also when the alias or an identifier is refused by the table |
| AgentLifecycle.EnrollKeeps | src/remote/control-plane.ts:817-849 | enrolling keeps the lifecycle |
| PatchRaces.WhatSurvives | src/remote/control-plane.ts:786-801 | with PATCH in two steps, these clauses of the lifecycle hold in every run all the same |
| PatchRaces.WriteKeepsLifecycleExactlyWhen | src/remote/control-plane.ts:1259-1285 | a late write keeps the lifecycle predicate if and only if the record read was online exactly when the agent is connected |
| PatchRaces.RevocationUndone | src/remote/control-plane.ts:786-805 | the run in which it happens: from any state, a PATCH around a revocation restores the former status without a connection |
| PatchHarm.StepKeepsExactlyUnless | src/remote/control-plane.ts:786-801 | a step keeps an agent's revocation, key, or rise of version if and only if it does not write back a record that was not revoked, lacks the key, or has another version |
| PatchHarm.KeptExactlyUntilBroken | src/remote/control-plane.ts:786-801 | the same over every run: each clause is kept throughout if and only if no such record is written back |
| PatchHarm.TokenEnrollsOnceInAnyRun | src/remote/control-plane.ts:828-849 | also with PATCH in two steps, a used token enrolls nothing more; its agent keeps its key at every step if and only if no record without it is written back, and then has it at the end |
| PatchHarm.KeyedExactlyUnless | src/remote/control-plane.ts:986-1001 | a step leaves an agent online or offline without a key if and only if its event closes the open socket that the agent is registered on while its record says it is pending, other than by revoking it |
| PatchHarm.StaysExactlyUnless | src/remote/websocket.ts:53-60 | a connected agent without a key stays connected if and only if it is not revoked and the event does not close its open socket |
| PatchHarm.KeyedExactlyWhileNobodyPendingLeaves | src/remote/control-plane.ts:986-1001 | over every run, whoever is online or offline has a key throughout if and only if no event closes the open socket of a pending agent in that way |
| PatchHarm.PendingConnectedExactlyByWrite | src/remote/control-plane.ts:1259-1285 | after a late write an agent is pending and connected if and only if it was connected and a pending record was written, or it was so before |
| PatchHarm.PendingConnectedOnlyByWrite | src/remote/control-plane.ts:893-1018 | no other step makes an agent pending while it is connected |
| PatchHarm.KeyedIfNoPendingWrite | src/remote/control-plane.ts:786-801 | whoever is online or offline has a key in every run without a pending record written back over a connected agent |
| PatchHarm.LifecycleExactlyWhileWritesInStep | src/remote/control-plane.ts:786-801 | over every run the lifecycle holds throughout if and only if each record written back was online exactly when the agent is connected |
| PatchHarm.WriteIsHarmlessExactlyWhen | src/remote/control-plane.ts:1259-1285 | a late write keeps the lifecycle, revocation, key and version if and only if the record read agrees with the current one on all four |
| ConnectionRegistry.RegistryOfRuns | src/remote/control-plane.ts:986-1001 | in every run an agent registered on an open socket has its close handler there |
| ConnectionRegistry.ClosingTakesEveryone | src/remote/websocket.ts:152-165 | closing an open socket removes exactly the agents registered on it and takes them offline unless revoked, and changes nothing else about anybody |
| ConnectionRegistry.ReconnectReplaces | src/remote/control-plane.ts:978-984 | after a reconnect the agent is on the new socket and the old one is closed, and if the old one was open nobody is left on it |
| ConnectionRegistry.RegisteredOnClosedSocketStays | src/remote/websocket.ts:71-132 | a registration outlives the report of its socket's close if and only if the socket was closed before |
| HelloReplay.HelloIsAcceptedOnce | src/remote/control-plane.ts:923-977 | a hello dated before the clock that accepted it is refused ever after, with any spelling of its signature and whatever happens in between |
| HelloReplay.ReplayableExactlyWhenDatedAhead | src/remote/control-plane.ts:286-301 | just after its acceptance a hello can be accepted again if and only if it is dated no earlier than that clock |
| HelloReplay.NextKeepsSpent | src/remote/control-plane.ts:286-301 | no step, cleaning up included, makes a spent hello nonce usable again |
| NonceHistory.WindowAnswersForHistory | src/remote/control-plane.ts:103-126 | the capped and pruned map reports a nonce seen if and only if it is among the last 4096 remembered and less than 300,000 ms old; it is ordered by expiry and within the cap |
| NonceHistory.RunsRefine | src/remote/control-plane.ts:103-126 | however pruning is interleaved, the map is the end of the history and lacks only what has expired |
| ConnectionNonces.ConnectionsAnswerForHistory | src/remote/control-plane.ts:103-126 | in every run of the control plane, a nonce counts as seen on an agent's connection if and only if it is among the last 4096 accepted since the agent registered, with its hello or with a believed result, and was accepted less than 300,000 ms ago |
| ConnectionNonces.ReplayedExactlyWhenSeen | src/remote/control-plane.ts:1063-1088 | in every run, an otherwise acceptable result is refused as a replay if and only if its nonce is in that history, and believed if and only if it is not |
| NonceWindows.ExpiryMap.PruneNonceWindow | src/remote/control-plane.ts:103-109 | the loop removes exactly the expired entries |
| NonceWindows.ExpiryMap.HasSeenNonce | src/remote/control-plane.ts:111-114 | prunes and then answers whether the nonce is there |
| NonceWindows.ExpiryMap.RememberNonce | src/remote/control-plane.ts:116-126 | prunes, sets the nonce and evicts the oldest beyond 4096 |
| PlaneService.RemoteControlPlane.constructor | src/remote/control-plane.ts:247-264 | starts empty |
| PlaneService.RemoteControlPlane.CleanupEphemeralState | src/remote/control-plane.ts:286-301 | the two loops prune all nonces and drop empty maps |
| PlaneService.RemoteControlPlane.NotifyClose | src/remote/websocket.ts:157-165 | running the close handlers one by one takes offline exactly those still registered on the socket |
| PlaneService.RemoteControlPlane.CloseConnection | src/remote/websocket.ts:53-60 | makes the step `Planes.Closed` |
| PlaneService.RemoteControlPlane.HandleClose | src/remote/websocket.ts:152-155 | makes the step `Planes.SocketLost` |
| PlaneService.RemoteControlPlane.CreateEnrollmentToken | src/remote/control-plane.ts:1178-1219 | makes the step `Planes.CreateToken`, which `PlaneAnswers.CreatedExactlyWhen` pins down |
| PlaneService.RemoteControlPlane.HandleAgentEnroll | src/remote/control-plane.ts:817-869 | makes the step `Planes.Enroll`, which `PlaneAnswers.EnrolledExactlyWhen` pins down |
| PlaneService.RemoteControlPlane.HandleAgentMessage | src/remote/control-plane.ts:871-891 | makes the step `Planes.Received`, which `PlaneAnswers.ConnectedExactlyWhen` pins down |
| PlaneService.RemoteControlPlane.HandleAgentHello | src/remote/control-plane.ts:893-1018 | makes the step `Planes.Greeted` |
| PlaneService.RemoteControlPlane.Register | src/remote/control-plane.ts:975-1018 | makes the step `Planes.Registered` |
| PlaneService.RemoteControlPlane.HandleActionResult | src/remote/control-plane.ts:1020-1088 | makes the step `Planes.Reported` |
| PlaneService.RemoteControlPlane.ResolveAgent | src/remote/control-plane.ts:1463-1472 | answers as `Planes.Resolve`, which `PlaneAnswers.ResolveMeans` pins down |
| PlaneService.RemoteControlPlane.UpdateAgentPolicy | src/remote/control-plane.ts:1259-1311 | makes the step `Planes.UpdatePolicy`, which `PlaneAnswers.UpdatedExactlyWhen` pins down |
| PlaneService.RemoteControlPlane.RevokeAgent | src/remote/control-plane.ts:1313-1329 | makes the step `Planes.Revoke`, which `PlaneAnswers.RevokedExactlyWhen` pins down |
| PlaneService.RemoteControlPlane.CallAgentTool | src/remote/control-plane.ts:1118-1176 | makes the step `Planes.Dispatch`, which `PlaneAnswers.DispatchedExactlyWhen` pins down |
| PlaneService.RemoteControlPlane.DispatchAction | src/remote/control-plane.ts:1345-1411 | makes the step `Planes.Issue` |
| PlaneService.RemoteControlPlane.OnTimeout | src/remote/control-plane.ts:1402-1408 | makes the step `Planes.Expired` |
| PlaneService.RemoteControlPlane.FinishAction | src/remote/control-plane.ts:1412-1452 | makes the step `Planes.Finished` |
| AgentRuntime.HandledExactlyHow | src/remote/agent-cli.ts:211-264 | an update for the agent that fits the schema and verifies replaces all three copies of its policy by the very policy it carries; a request for it that fits, verifies, is in time, is not remembered and has its version or the next is accepted, remembered, and executed if the policy enables the capability and the tool is one of an agent's ten; nothing else has any effect |
| AgentRuntime.ReactsExactlyHow | src/remote/agent-executor.ts:230-275 | what the agent answers to each message |
| AgentRuntime.AtMostOnce | src/remote/agent-cli.ts:240-262 | in one agent run an accepted action is not accepted again, if fewer than 10,000 others are accepted after it and none in the millisecond of its deadline |
| AgentRuntime.AtMostOnceIfSpared | src/remote/agent-cli.ts:240-262 | the same from the exact condition: every acceptance up to the deadline comes before it and meets fewer than 9,999 unexpired later ones |
| AgentRuntime.RememberedExactlyWhileSpared | src/remote/agent-cli.ts:168-187 | after any deliveries an action is still remembered if and only if every later acceptance spared it |
| AgentRuntime.AcceptedAgainExactlyWhenDisturbed | src/remote/agent-cli.ts:240-262 | offered again in time after any deliveries, an action is accepted a second time if and only if some acceptance did not spare it |
| AgentRuntime.RememberedExactlyWhile | src/remote/agent-cli.ts:168-187 | an action survives the acceptance of another if and only if its deadline is later and fewer than 9,999 later ones are unexpired |
| AgentRuntime.BoundaryReplay | src/remote/agent-cli.ts:168-187 | an acceptance in the millisecond of the deadline lets the action be accepted once more |
| AgentRuntime.Agent.RememberAction | src/remote/agent-cli.ts:168-187 | prune, refuse what is known, keep, and evict the oldest beyond 10,000 |
| AgentRuntime.Agent.OnMessage | src/remote/agent-cli.ts:211-264 | which messages are ignored, taken as policy, refused or run, and the new state |
| AgentRuntime.Agent.Execute | src/remote/agent-executor.ts:230-275 | the executor runs what its policy enables and refuses the rest |
| Envelopes.SignedTextDeterminesMessage | src/remote/crypto.ts:114-121 | two messages with the same signed text are the same message |
| Envelopes.BodyInjective | src/remote/schemas.ts:47-106 | the members that a message is sent with determine it |
| Envelopes.PolicyDocInjective | src/remote/schemas.ts:33-45 | a policy's JSON determines the policy |
| Envelopes.VerificationSurvivesTransport | src/remote/crypto.ts:123-139 | an envelope rebuilt with members in another order verifies if and only if the sent one does |
| Envelopes.SignedEnvelopeVerifies | src/remote/crypto.ts:114-139 | a signed envelope verifies, also when it arrives with its members in another order |
| Envelopes.VerificationBindsContent | src/remote/crypto.ts:123-139 | an envelope that verifies has the content of one that was signed |
| Envelopes.VerifiesAsEnvelope | src/remote/crypto.ts:123-139 | verification of the JSON envelope and of the message it reads as are one |
| Envelopes.HelloIsWritten | src/remote/schemas.ts:47-58 | the members of a hello on the wire, by name and value |
| Envelopes.RequestIsWritten | src/remote/schemas.ts:60-75 | the members of a request on the wire |
| Envelopes.ResultIsWritten | src/remote/schemas.ts:77-94 | the members of a result on the wire, apart from what it reports |
| Envelopes.UpdateIsWritten | src/remote/schemas.ts:96-106 | the members of a policy update on the wire |
| Envelopes.PolicyIsWritten | src/remote/schemas.ts:33-45 | the members of a policy on the wire, with a flag for each of the thirteen capabilities |
| Envelopes.UnsignedIsTheRest | src/remote/crypto.ts:114-139 | what is signed is all but the signature member |
| CanonicalJson.CanonicalIsInjective | src/remote/crypto.ts:101-112 | two values print alike if and only if they are equal up to the order of members and undefined members |
| CanonicalJson.ValueReadsBack | src/remote/crypto.ts:101-112 | a parser undoes the canonical form, whatever follows it that does not continue a number |
| CanonicalJson.CanonicalIsPrint | src/remote/crypto.ts:101-112 | the source's filter, sort and join print the map in the order of its keys |
| CanonicalJson.StringReadsBack | src/remote/crypto.ts:101-104 | string literals, with escapes and surrogates, read back |
| JsText.LessExactlyWhen | src/remote/crypto.ts:108-111 | keys are ordered by the first code unit in which they differ, the shorter first if there is none |
| RemoteTypes.CapabilitiesFromScopes | src/remote/scopes.ts:18-26 | the loops collect exactly the capabilities that some scope grants |
| RemoteTypes.ToolNeedsItsScope | src/remote/types.ts:176-194 | through the two tables, a caller may call a tool if and only if it has the tool's one scope; to create, update or revoke agents this is agents:admin |
| RemoteTypes.ScopesNameWhatTheyGrant | src/remote/types.ts:35-47 | each scope grants the capability of its own name, with the two exceptions that the table makes |
| OAuthFlow.OneTokenPerCode | src/remote/control-plane.ts:627-669 | in every run at most one token request is answered with a token for a code |
| OAuthFlow.OneCodePerGitHubTransaction | src/remote/control-plane.ts:530-547 | in every run two answers with a code, to callbacks that took the same GitHub transaction, are the same answer to the same callback |
| OAuthFlow.TokenGoesBackToRequest | src/remote/control-plane.ts:444-547 | over the events of every run: an answered token request goes back to an authorization request of the same client, with a redirect URI registered for it, an S256 challenge that the presented verifier matches and these scopes; its code answered the very callback that took that request's transaction in time, at the request's redirect URI, and its user is the one GitHub named to that callback, or the test user; the code had not expired (RFC 6749 section 4.1.3, RFC 7636 section 4.6) |
| OAuthFlow.RunsKeep | src/remote/control-plane.ts:493-541 | in every run a transaction waits, or is with one callback, or is over, and users carry the ids of their GitHub accounts |
| OAuthFlow.ScopesAreThoseAsked | src/remote/control-plane.ts:223-231 | the scopes are the words asked for, in order, or the default ones |
| OAuthAnswers.RegisteredExactlyWhen | src/remote/control-plane.ts:400-424 | a client is registered if and only if it names redirect URIs, all safe, and there is room |
| OAuthAnswers.AuthorizedExactlyHow | src/remote/control-plane.ts:444-528 | an authorization request goes on to GitHub if and only if the client is known, the redirect URI its own and safe, a code is asked for under an S256 challenge for this resource with known scopes, and GitHub is configured; a configured test user is answered at once |
| OAuthAnswers.CallbackTakenExactlyWhen | src/remote/control-plane.ts:530-538 | a callback goes on if and only if it has a code and its transaction is there and not over, and takes it in any case |
| OAuthAnswers.CodeIssuedExactlyWhen | src/remote/control-plane.ts:539-625 | GitHub's answer is answered with a code if and only if all users are allowed or its user is on one of the two lists, the login is nobody else's and the code is new; the code is for that user, client, redirect URI, challenge and scopes, unused, until the configured time |
| OAuthAnswers.TokenAnsweredExactlyWhen | src/remote/control-plane.ts:627-669 | a token is answered if and only if the grant, client, code, redirect URI, verifier, user and scopes fit and the code is neither used nor over; the code is then used; otherwise nothing changes and the first failing check is named |
| OAuthAnswers.CleaningShowsExactlyWhen | src/remote/control-plane.ts:286-291 | cleaning drops exactly the transactions that are over or end now, and a later callback can tell if and only if it comes in that very millisecond |
| OAuthService.AuthorizationServer.HandleRegister | src/remote/control-plane.ts:400-424 | makes the step `OAuthFlow.Register` |
| OAuthService.AuthorizationServer.HandleAuthorize | src/remote/control-plane.ts:444-500 | makes the step `OAuthFlow.Authorize` |
| OAuthService.AuthorizationServer.ValidateAuthorizeParams | src/remote/control-plane.ts:502-528 | answers as `OAuthFlow.AuthorizeProblem` |
| OAuthService.AuthorizationServer.BeginGitHubCallback | src/remote/control-plane.ts:530-538 | makes the step `OAuthFlow.BeginCallback` |
| OAuthService.AuthorizationServer.EndGitHubCallback | src/remote/control-plane.ts:539-547 | makes the step `OAuthFlow.EndCallback` |
| OAuthService.AuthorizationServer.UpsertGitHubUser | src/remote/control-plane.ts:579-605 | makes the step `OAuthFlow.UpsertUser` |
| OAuthService.AuthorizationServer.IssueAuthorizationCode | src/remote/control-plane.ts:607-625 | makes the step `OAuthFlow.IssueCode` |
| OAuthService.AuthorizationServer.HandleToken | src/remote/control-plane.ts:627-669 | makes the step `OAuthFlow.Token` |
| OAuthService.AuthorizationServer.CleanTransactions | src/remote/control-plane.ts:286-291 | the loop drops exactly the expired transactions |
| WebSocketFrames.ChunkingIsInvisible | src/remote/websocket.ts:62-132 | a byte stream in any chunks gives the messages, pongs and first close that it gives at once |
| WebSocketFrames.AnyTwoChunkingsAgree | src/remote/websocket.ts:62-132 | two ways to cut the same stream are indistinguishable |
| WebSocketFrames.BufferIsBounded | src/remote/websocket.ts:62-69 | the buffer never exceeds its limit |
| WebSocketFrames.DrainLeavesNothing | src/remote/websocket.ts:71-132 | when draining stops without a close, no complete frame is left |
| WebSocketFrames.FramesReadBack | src/remote/websocket.ts:44-132 | any list of frames with any opcodes, masked or not, written and decoded: texts are delivered, pings answered with a pong of the same payload, the first close ends it, all else is passed over |
| WebSocketFrames.FramesAreLaidOut | src/remote/websocket.ts:73-115 | a frame that is read is laid out as in section 5.2 of RFC 6455, byte by byte |
| WebSocketFrames.OversizedCloses | src/remote/websocket.ts:62-100 | a frame that announces more than 1,048,576 bytes, or a chunk that does not fit into the buffer, closes the connection |
| WebSocketFrames.FrameReadsBack | src/remote/websocket.ts:134-150 | a written frame reads back, whatever follows |
| WebSocketFrames.MaskedReadsBack | src/remote/websocket.ts:102-115 | a masked frame reads back as its payload |
| WebSocketFrames.WriterIsMinimal | src/remote/websocket.ts:134-150 | the writer uses the shortest length form (section 5.2 of RFC 6455) |
| WebSocketFrames.MinimalWebSocketConnection.HandleData | src/remote/websocket.ts:62-69 | a chunk is refused beyond the limit and drained otherwise |
| WebSocketFrames.MinimalWebSocketConnection.DrainFrames | src/remote/websocket.ts:71-132 | the loop has exactly the effects of decoding the buffer |
| WebSocketFrames.MinimalWebSocketConnection.ReadFrame | src/remote/websocket.ts:73-115 | one turn of the loop reads the frame that the grammar describes |
| WebSocketFrames.MinimalWebSocketConnection.Unmask | src/remote/websocket.ts:111-115 | the payload is unmasked in place |
| RateLimiting.WindowBound | src/rate-limiter.ts:47-93 | at most maxRequests admissions lie in any window, without resets |
| RateLimiting.PruningIsInvisible | src/rate-limiter.ts:130-147 | pruning in the background changes no later answer |
| RateLimiting.AnswersComeFromHistory | src/rate-limiter.ts:47-128 | every answer is the one that the full history of admissions gives |
| RateLimiting.RefusedWhileFull | src/rate-limiter.ts:65-83 | after a refusal nothing is admitted before resetIn is over |
| RateLimiting.ResetIsExact | src/rate-limiter.ts:65-83 | resetIn lies in (0, windowMs], and the first check at or after it is admitted |
| RateLimiting.RefusalNamesOldest | src/rate-limiter.ts:65-83 | resetIn runs from the oldest admission that fills the window |
| RateLimiting.AllowedMeansRecorded | src/rate-limiter.ts:84-93 | what is allowed is what is recorded |
| RateLimiting.VerdictMeans | src/rate-limiter.ts:65-93 | the answer to a check, from the number of admissions in the window |
| RateLimiting.UsageMeans | src/rate-limiter.ts:106-128 | the usage is the number of admissions in the window, how many more fit, and when the oldest leaves |
| RateLimiting.RemainingIsExact | src/rate-limiter.ts:84-93 | of n further checks in the same instant exactly as many are admitted as remained |
| RateLimiting.RateLimiter.Check | src/rate-limiter.ts:47-93 | the log and the answer after a check |
| RateLimiting.RateLimiter.GetUsage | src/rate-limiter.ts:106-128 | the usage of a key, without a change |
| RateLimiting.RateLimiter.PruneExpiredLogs | src/rate-limiter.ts:130-147 | the loop over all keys prunes each log and drops the empty ones |
| RateLimiting.RateLimiter.Reset | src/rate-limiter.ts:98-100 | the key is forgotten |
| RemotePaths.NormalFormIsSegments | src/policy.ts:149-158 | a normalised path is absolute and spells its resolved segments, none of them empty, `.` or `..` |
| RemotePaths.NormalizeIsIdempotent | src/policy.ts:149-158 | normalising twice is normalising once |
| RemotePaths.UnderIsSegmentPrefix | src/policy.ts:133-189 | the string prefix test holds if and only if the prefix's segments are a list-prefix of the path's |
| RemotePaths.StringVerdictIsOnSegments | src/policy.ts:456-495 | the verdict on normalised strings is the one that the resolved segments call for |
| RemotePaths.VerdictDependsOnSegments | src/policy.ts:456-495 | the verdict that the string tests give is the same for paths with the same segments |
| RemotePaths.DenialIsInherited | src/policy.ts:456-495 | when the string tests deny a directory they deny every descendant |
| RemotePaths.AllowedExactlyWhen | src/policy.ts:456-495 | a request is allowed if and only if no path has a NUL or lies below a denied place, and, if it is destructive and this is not allowed everywhere, each lies below an allowed place or by default /tmp, /var/tmp, /home or /Users; otherwise the first path that fails says why |
| RemotePaths.StripTrailingSeparators | src/policy.ts:141-147 | the loop strips all separators beyond the root |
| RemotePaths.PolicyEngine.Evaluate | src/policy.ts:456-495 | the loops give the decision that the segments call for |
| RemotePaths.AgentVerdict | src/remote/policy.ts:90-108 | the agent's verdict in terms of segments |
| RemotePaths.PolicyPathIsPlace | src/remote/policy.ts:85-88 | the agent's normal form spells the place that a path resolves to |
| RemotePaths.RootPrefixDiffers | src/remote/policy.ts:90-108 | where the two notions of covering differ: exactly at the root |
| BoundedOutput.StreamedEqualsBatch | src/remote/agent-executor.ts:90-119 | streaming equals truncating the whole, in bytes and flag, if and only if (for limits of zero or more) the output is longer than the limit or no empty chunk arrives when the limit is exactly reached |
| BoundedOutput.NonEmptyChunksAreBatch | src/remote/agent-executor.ts:90-119 | for non-empty chunks streaming always equals truncating |
| BoundedOutput.BoundHolds | src/remote/agent-executor.ts:57-80 | the limit holds, and the flag is set if and only if the output was longer |
| BoundedOutput.ConcatNeverPads | src/remote/agent-executor.ts:110-119 | the fixed-length concatenation pads nothing |
| BoundedOutput.StreamedContents | src/remote/agent-executor.ts:90-108 | what the accumulator holds after any chunks |
| BoundedOutput.BoundedReadEqualsBatch | src/remote/agent-executor.ts:121-149 | reading a file up to the cap and truncating equals truncating the file |
| BoundedOutput.OutputAccumulator.AppendBoundedOutput | src/remote/agent-executor.ts:90-108 | the accumulator after one chunk |
| ShellQuoting.QuoteReadsBack | src/shell.ts:5-7 | a POSIX lexer reads a quoted value back as one word equal to it, for both schemes |
| ShellQuoting.CommandReadsBack | src/shell.ts:23-44 | a built command reads as exactly shell, `-lc` and the script |
| ShellQuoting.ScriptReadsBack | src/shell.ts:23-44 | the script's prefix reads back as the working directory and every environment value |
| ShellQuoting.AssignmentRecovers | src/shell.ts:32-37 | an exported word splits into its name and value |
| ShellQuoting.SudoCommandReadsBack | src/shell.ts:102-117 | a sudo command reads as shell, `-lc` and the sudo script |
| ShellQuoting.SudoScriptReadsBack | src/shell.ts:102-117 | in the script, `sudo -n` goes with the `cd` when there is one |
| ShellQuoting.RootCommandReadsBack | src/remote/agent-executor.ts:478 | the root command reads as sudo and a shell with the command as one word |
| EnsureLines.PresentLines | src/ensure.ts:547-603 | the old lines are an ordered prefix and what is missing follows |
| EnsureLines.AbsentLines | src/ensure.ts:547-603 | the lines that remain are the others, in order |
| EnsureLines.EnsureAchieves | src/ensure.ts:547-603 | afterwards every line is present, or none is |
| EnsureLines.EnsureIsIdempotent | src/ensure.ts:547-603 | a second run changes nothing and reports 0 |
| EnsureLines.PresentIdempotentIff | src/ensure.ts:547-603 | when exactly a second run changes nothing |
| EnsureLines.PresentThenAbsentRestores | src/ensure.ts:547-603 | when exactly present followed by absent restores the content |
| EnsureLines.MissingFileStaysMissingExactlyWhen | src/ensure.ts:547-603 | a missing file is reported exactly when lines are wanted present without leave to create it, and comes into being only with that leave and a line that is not empty |
| EnsureLines.RemoteFile.EnsureLinesInFile | src/ensure.ts:547-603 | what is read, computed and written back |

## Left out

- SSH, SFTP, HTTP parsing, SQLite, child processes, requests to GitHub, telemetry and audit events: input and output or
  foreign code; the tables are maps.
- Cryptography, JWT and PEM handling: signatures are ideal, hashes are arbitrary functions, and an access token is the
  record of its claims. Whether a key is an Ed25519 key, whether a redirect URI is safe and what number a timeout
  argument reads as are inputs.
- Timestamps that are only displayed (`created_at`, `updated_at`, `last_seen_at`) and the text of error messages.
- Instants inside messages are written as milliseconds and not in ISO 8601.
- Values with undefined array elements are outside `CanonicalJson.IsJson`: the text of `[undefined]` is that of `[]`
  (`CanonicalJson.UndefinedElementCollides`), and messages, which are parsed JSON, contain none.
- A JSON number is the token that `JSON.stringify` prints for it; the printing of numbers is not modelled.
- Policy patches are well typed; what a mistyped patch would leave in the table is not modelled. Limits are integers.
- The members of a result that report output are a map; their own schemas are not modelled.
- A scope parameter comes as its words and an alias without surrounding white space.
- AgentRuntime.Agent.Execute: does not model the tools themselves, their argument checks or their platform differences;
  path rules are in RemotePaths.
- PlaneService.RemoteControlPlane.HandleActionResult: the map of nonces of a connection is a value that is replaced, not
  an object shared by reference.
- OAuthService.AuthorizationServer.HandleToken: the token is issued in the step that marks the code used; if signing it
  fails afterwards there is no token for that code.
- WebSocketFrames.MinimalWebSocketConnection.DrainFrames: payloads stay bytes (UTF-8 decoding is left out) and text
  handlers do not call back into the connection; a handler that closes it, as the control plane's does when it refuses
  a message, and the frames still decoded after that are outside this codec model.
- ShellQuoting.QuoteReadsBack: PowerShell quoting and commands are left out.
- Shutting the control plane down, listing and describing agents, install commands, metrics, and the sessions and tunnels
  of the SSH server.
- RemotePaths.PolicyEngine.Evaluate: models the part about remote paths; commands, hosts and the explain mode are left
  out.
- Policies by regular expression, the local path policy and its host file system, configuration, prompts and resources.

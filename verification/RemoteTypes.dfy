/** The vocabulary of the remote agent protocol (src/remote/types.ts), its scopes (src/remote/scopes.ts)
    and the policies an agent can have (src/remote/policy.ts). */
module RemoteTypes {
  import opened JsText

  datatype Option<T> = None | Some(value: T)

  datatype Capability =
    | HostsRead | AgentsRead | AgentsAdmin | SystemRead | LogsRead | ServiceManage | DockerManage
    | FilesRead | FilesWrite | ShellExec | SudoExec | AgentAdmin | AuditRead

  const REMOTE_CAPABILITIES: seq<Capability> :=
    [HostsRead, AgentsRead, AgentsAdmin, SystemRead, LogsRead, ServiceManage, DockerManage,
     FilesRead, FilesWrite, ShellExec, SudoExec, AgentAdmin, AuditRead]

  function CapabilityName(c: Capability): string {
    match c
    case HostsRead => "hosts.read"
    case AgentsRead => "agents.read"
    case AgentsAdmin => "agents.admin"
    case SystemRead => "system.read"
    case LogsRead => "logs.read"
    case ServiceManage => "service.manage"
    case DockerManage => "docker.manage"
    case FilesRead => "files.read"
    case FilesWrite => "files.write"
    case ShellExec => "shell.exec"
    case SudoExec => "sudo.exec"
    case AgentAdmin => "agent.admin"
    case AuditRead => "audit.read"
  }

  datatype Scope =
    | HostsReadScope | AgentsReadScope | AgentsAdminScope | StatusReadScope | LogsReadScope | ServiceManageScope
    | DockerManageScope | FilesReadScope | FilesWriteScope | ShellExecScope | SudoExecScope

  function ScopeName(s: Scope): string {
    match s
    case HostsReadScope => "hosts:read"
    case AgentsReadScope => "agents:read"
    case AgentsAdminScope => "agents:admin"
    case StatusReadScope => "status:read"
    case LogsReadScope => "logs:read"
    case ServiceManageScope => "service:manage"
    case DockerManageScope => "docker:manage"
    case FilesReadScope => "files:read"
    case FilesWriteScope => "files:write"
    case ShellExecScope => "shell:exec"
    case SudoExecScope => "sudo:exec"
  }

  function ScopeCapabilities(s: Scope): seq<Capability> {
    match s
    case HostsReadScope => [HostsRead]
    case AgentsReadScope => [AgentsRead]
    case AgentsAdminScope => [AgentsAdmin, AgentAdmin, AuditRead]
    case StatusReadScope => [SystemRead]
    case LogsReadScope => [LogsRead]
    case ServiceManageScope => [ServiceManage]
    case DockerManageScope => [DockerManage]
    case FilesReadScope => [FilesRead]
    case FilesWriteScope => [FilesWrite]
    case ShellExecScope => [ShellExec]
    case SudoExecScope => [SudoExec]
  }

  /** Some scope grants the capability. */
  predicate Grants(scopes: seq<Scope>, c: Capability) {
    exists i :: 0 <= i < |scopes| && c in ScopeCapabilities(scopes[i])
  }

  method CapabilitiesFromScopes(scopes: seq<Scope>) returns (capabilities: set<Capability>)
    ensures forall c :: c in capabilities <==> Grants(scopes, c)
  {
    capabilities := {};
    for i := 0 to |scopes|
      invariant forall c :: c in capabilities <==> exists k :: 0 <= k < i && c in ScopeCapabilities(scopes[k])
    {
      ghost var before := capabilities;
      var granted := ScopeCapabilities(scopes[i]);
      for j := 0 to |granted|
        invariant forall c :: c in capabilities <==> c in before || c in granted[..j]
      {
        assert granted[..j + 1] == granted[..j] + [granted[j]];
        capabilities := capabilities + {granted[j]};
      }
      assert granted[..|granted|] == granted;
    }
  }

  datatype Tool =
    | ListHosts | ListAgents | CreateEnrollmentToken | GetAgentInstallCommand | GetSystemStatus | TailLogs
    | RestartService | DockerPs | DockerLogs | DockerRestart | FileRead | FileWrite | RunShell | RunShellAsRoot
    | UpdateAgentPolicy | RevokeAgent | GetAuditEvents

  function ToolName(t: Tool): string {
    match t
    case ListHosts => "list_hosts"
    case ListAgents => "list_agents"
    case CreateEnrollmentToken => "create_enrollment_token"
    case GetAgentInstallCommand => "get_agent_install_command"
    case GetSystemStatus => "get_system_status"
    case TailLogs => "tail_logs"
    case RestartService => "restart_service"
    case DockerPs => "docker_ps"
    case DockerLogs => "docker_logs"
    case DockerRestart => "docker_restart"
    case FileRead => "file_read"
    case FileWrite => "file_write"
    case RunShell => "run_shell"
    case RunShellAsRoot => "run_shell_as_root"
    case UpdateAgentPolicy => "update_agent_policy"
    case RevokeAgent => "revoke_agent"
    case GetAuditEvents => "get_audit_events"
  }

  function ToolCapability(t: Tool): Capability {
    match t
    case ListHosts => HostsRead
    case ListAgents => AgentsRead
    case CreateEnrollmentToken => AgentsAdmin
    case GetAgentInstallCommand => AgentsAdmin
    case GetSystemStatus => SystemRead
    case TailLogs => LogsRead
    case RestartService => ServiceManage
    case DockerPs => DockerManage
    case DockerLogs => DockerManage
    case DockerRestart => DockerManage
    case FileRead => FilesRead
    case FileWrite => FilesWrite
    case RunShell => ShellExec
    case RunShellAsRoot => SudoExec
    case UpdateAgentPolicy => AgentsAdmin
    case RevokeAgent => AgentsAdmin
    case GetAuditEvents => AuditRead
  }

  /** The tools that are sent to an agent; the control plane answers the others itself. */
  predicate IsAgentTool(t: Tool) {
    t in {GetSystemStatus, TailLogs, RestartService, DockerPs, DockerLogs, DockerRestart, FileRead, FileWrite,
          RunShell, RunShellAsRoot}
  }

  // ---- What a caller needs ----

  /** The scope that a caller must have for a tool. */
  ghost function ScopeFor(t: Tool): Scope {
    match t
    case ListHosts => HostsReadScope
    case ListAgents => AgentsReadScope
    case CreateEnrollmentToken | GetAgentInstallCommand | UpdateAgentPolicy | RevokeAgent => AgentsAdminScope
    case GetAuditEvents => AgentsAdminScope
    case GetSystemStatus => StatusReadScope
    case TailLogs => LogsReadScope
    case RestartService => ServiceManageScope
    case DockerPs | DockerLogs | DockerRestart => DockerManageScope
    case FileRead => FilesReadScope
    case FileWrite => FilesWriteScope
    case RunShell => ShellExecScope
    case RunShellAsRoot => SudoExecScope
  }

  /** The policy enables what the tool does. */
  ghost predicate PolicyAllows(policy: AgentPolicy, t: Tool) {
    match t
    case ListHosts => HostsRead in policy.capabilities
    case ListAgents => AgentsRead in policy.capabilities
    case CreateEnrollmentToken | GetAgentInstallCommand | UpdateAgentPolicy | RevokeAgent =>
      AgentsAdmin in policy.capabilities
    case GetAuditEvents => AuditRead in policy.capabilities
    case GetSystemStatus => SystemRead in policy.capabilities
    case TailLogs => LogsRead in policy.capabilities
    case RestartService => ServiceManage in policy.capabilities
    case DockerPs | DockerLogs | DockerRestart => DockerManage in policy.capabilities
    case FileRead => FilesRead in policy.capabilities
    case FileWrite => FilesWrite in policy.capabilities
    case RunShell => ShellExec in policy.capabilities
    case RunShellAsRoot => SudoExec in policy.capabilities
  }

  lemma GrantedBy(scopes: seq<Scope>, c: Capability, s: Scope)
    requires forall x: Scope :: c in ScopeCapabilities(x) <==> x == s
    ensures Grants(scopes, c) <==> s in scopes
  {
    hide ScopeCapabilities;
    if s in scopes {
      var i :| 0 <= i < |scopes| && scopes[i] == s;
      assert c in ScopeCapabilities(scopes[i]);
    }
  }

  /** From scopes through capabilities to tools: a caller may call a tool if and only if it has the tool's one scope;
      whatever administers agents needs agents:admin. */
  lemma ToolNeedsItsScope(principal: Principal, t: Tool)
    ensures HasCapability(principal, ToolCapability(t)) <==> ScopeFor(t) in principal.scopes
    ensures HasCapability(principal, AgentsAdmin) <==> AgentsAdminScope in principal.scopes
  {
    hide Grants;
    GrantedBy(principal.scopes, ToolCapability(t), ScopeFor(t));
    GrantedBy(principal.scopes, AgentsAdmin, AgentsAdminScope);
  }

  /** The same name, with a colon for the dot. */
  ghost predicate NamedAlike(scope: string, capability: string) {
    |scope| == |capability|
    && forall i :: 0 <= i < |scope| ==> capability[i] == if scope[i] == ':' then '.' else scope[i]
  }

  /** Each scope grants the capability of its own name, status:read the one to read the system, and agents:admin two
      more besides. */
  lemma ScopesNameWhatTheyGrant(s: Scope)
    ensures ScopeCapabilities(s) != []
    ensures s != StatusReadScope ==> NamedAlike(ScopeName(s), CapabilityName(ScopeCapabilities(s)[0]))
    ensures ScopeName(StatusReadScope) == "status:read" && ScopeCapabilities(StatusReadScope) == [SystemRead]
    ensures s != AgentsAdminScope ==> |ScopeCapabilities(s)| == 1
  {
    hide NamedAlike;
    ReadersAreNamedAlike(s);
    ManagersAreNamedAlike(s);
  }

  lemma ReadersAreNamedAlike(s: Scope)
    ensures s in {HostsReadScope, AgentsReadScope, LogsReadScope, FilesReadScope, FilesWriteScope} ==>
              NamedAlike(ScopeName(s), CapabilityName(ScopeCapabilities(s)[0]))
  {}

  lemma ManagersAreNamedAlike(s: Scope)
    ensures s in {AgentsAdminScope, ServiceManageScope, DockerManageScope, ShellExecScope, SudoExecScope} ==>
              NamedAlike(ScopeName(s), CapabilityName(ScopeCapabilities(s)[0]))
  {}

  datatype Profile = ReadOnly | Operations | FullAdmin | Custom

  function ProfileName(p: Profile): string {
    match p
    case ReadOnly => "read-only"
    case Operations => "operations"
    case FullAdmin => "full-admin"
    case Custom => "custom"
  }

  datatype AgentPolicy = AgentPolicy(
    profile: Profile,
    capabilities: set<Capability>,
    allowPaths: seq<Text>,
    denyPaths: seq<Text>,
    allowServices: seq<Text>,
    allowContainers: seq<Text>,
    maxOutputBytes: int,
    maxActionTimeoutSeconds: int,
    version: int)

  function ProfileCapabilities(p: Profile): set<Capability> {
    match p
    case ReadOnly => {HostsRead, AgentsRead, SystemRead, LogsRead, AuditRead}
    case Operations => {HostsRead, AgentsRead, SystemRead, LogsRead, ServiceManage, DockerManage, FilesRead, AuditRead}
    case FullAdmin => set c | c in REMOTE_CAPABILITIES
    case Custom => {}
  }

  function CreateAgentPolicy(p: Profile): AgentPolicy {
    var any := if p == FullAdmin then [Utf16("*")] else [];
    AgentPolicy(
      p, ProfileCapabilities(p),
      [Utf16("/tmp"), Utf16("/var/tmp")],
      [Utf16("/"), Utf16("/etc"), Utf16("/boot"), Utf16("/dev"), Utf16("/proc"), Utf16("/sys")],
      any, any, 200_000, 120, 1)
  }

  /** A caller's changes: what is absent keeps the profile's value. */
  datatype PolicyPatch = PolicyPatch(
    profile: Option<Profile>,
    capabilities: map<Capability, bool>,
    allowPaths: Option<seq<Text>>,
    denyPaths: Option<seq<Text>>,
    allowServices: Option<seq<Text>>,
    allowContainers: Option<seq<Text>>,
    maxOutputBytes: Option<int>,
    maxActionTimeoutSeconds: Option<int>,
    version: Option<int>)

  function Or<T>(o: Option<T>, default: T): T { if o.Some? then o.value else default }

  function MergeCustomPolicy(patch: PolicyPatch): AgentPolicy {
    var base := CreateAgentPolicy(Or(patch.profile, Custom));
    AgentPolicy(
      base.profile,
      (set c | c in REMOTE_CAPABILITIES
               && if c in patch.capabilities then patch.capabilities[c] else c in base.capabilities),
      Or(patch.allowPaths, base.allowPaths), Or(patch.denyPaths, base.denyPaths),
      Or(patch.allowServices, base.allowServices), Or(patch.allowContainers, base.allowContainers),
      Or(patch.maxOutputBytes, base.maxOutputBytes),
      Or(patch.maxActionTimeoutSeconds, base.maxActionTimeoutSeconds),
      Or(patch.version, base.version))
  }

  // ---- What a profile stands for ----

  /** Every profile but the custom one reads; operations and full-admin manage services and containers and read files;
      full-admin does everything. */
  ghost predicate ProfileEnables(p: Profile, c: Capability) {
    (c in {HostsRead, AgentsRead, SystemRead, LogsRead, AuditRead} && p != Custom)
    || (c in {ServiceManage, DockerManage, FilesRead} && (p == Operations || p == FullAdmin))
    || (c in {AgentsAdmin, FilesWrite, ShellExec, SudoExec, AgentAdmin} && p == FullAdmin)
  }

  lemma ProfileMeans(p: Profile, c: Capability)
    ensures c in ProfileCapabilities(p) <==> ProfileEnables(p, c)
  {
    assert c in REMOTE_CAPABILITIES;
  }

  datatype ErrorCode =
    | Unauthorized | Forbidden | InvalidToken | InvalidScope | InvalidClient | InvalidRedirectUri
    | PkceValidationFailed | AgentNotFound | AgentOffline | AgentRevoked | AgentTimeout | CapabilityDenied
    | ActionExpired | ActionReplayDetected | SignatureInvalid | InternalError

  /** What a handler answers. */
  datatype Reply<T> = Done(value: T) | Failed(code: ErrorCode)

  /** A caller, as its access token describes it. */
  datatype Principal = Principal(userId: Text, scopes: seq<Scope>)

  predicate HasCapability(p: Principal, c: Capability) { Grants(p.scopes, c) }
}

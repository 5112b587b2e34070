/** The OAuth authorization code flow with PKCE (src/remote/control-plane.ts, src/remote/store.ts), as steps over
    clients, transactions, codes and tokens. */
module OAuthFlow {
  import opened JsText
  import opened RemoteTypes

  datatype GitHubUser = GitHubUser(id: Text, login: Text)

  /** `hash` is the SHA-256 digest in base64url, `isSafe` the test for redirect URIs. */
  datatype Config = Config(
    authCodeTtlSeconds: int, resource: Text, allowAllUsers: bool, allowedIds: seq<Text>, allowedLogins: seq<Text>,
    maxClients: int, gitHubConfigured: bool, testUser: Option<GitHubUser>, hash: Text -> Text, isSafe: Text -> bool)

  // ---- Scopes ----

  const REMOTE_SCOPES: seq<Scope> :=
    [HostsReadScope, AgentsReadScope, AgentsAdminScope, StatusReadScope, LogsReadScope, ServiceManageScope,
     DockerManageScope, FilesReadScope, FilesWriteScope, ShellExecScope, SudoExecScope]

  const DEFAULT_SCOPES: seq<Scope> := [HostsReadScope, AgentsReadScope, StatusReadScope, LogsReadScope]

  function FindScope(word: Text, scopes: seq<Scope>): Option<Scope> {
    if scopes == [] then None
    else if Utf16(ScopeName(scopes[0])) == word then Some(scopes[0])
    else FindScope(word, scopes[1..])
  }

  function ScopeOf(word: Text): Option<Scope> { FindScope(word, REMOTE_SCOPES) }

  function ParseScopes(words: seq<Text>): seq<Scope> {
    if words == [] then []
    else if ScopeOf(words[0]).Some? then [ScopeOf(words[0]).value] + ParseScopes(words[1..])
    else ParseScopes(words[1..])
  }

  /** A scope parameter comes as its words. */
  function ScopeList(words: seq<Text>): Reply<seq<Scope>> {
    if exists w :: w in words && ScopeOf(w).None? then Failed(InvalidScope)
    else if ParseScopes(words) == [] then Done(DEFAULT_SCOPES)
    else Done(ParseScopes(words))
  }

  // ---- State ----

  datatype Client = Client(redirectUris: seq<Text>)

  /** An authorization request that passed validation. */
  datatype Ask = Ask(
    clientId: Text, redirectUri: Text, codeChallenge: Text, resource: Text, scope: seq<Text>, state: Text,
    expiresAt: int)

  datatype Code = Code(
    clientId: Text, userId: Text, redirectUri: Text, codeChallenge: Text, resource: Text, scope: seq<Text>,
    expiresAt: int, used: bool)

  datatype User = User(id: Text, login: Text)

  /** A callback that waits for GitHub's answer. */
  datatype Callback = Callback(transaction: Text, ask: Ask)

  /** What is issued for a code: to whom, for what, and when. */
  datatype AccessToken = AccessToken(clientId: Text, userId: Text, scopes: seq<Scope>, issuedAt: int)

  /** Users are kept by their GitHub id and codes by their hash. The last two fields say which transaction ids and
      callbacks have been in use. */
  datatype Flow = Flow(
    clients: map<Text, Client>,
    transactions: map<Text, Ask>,
    callbacks: map<nat, Callback>,
    codes: map<Text, Code>,
    users: map<Text, User>,
    started: set<Text>,
    callbacksBegun: set<nat>)

  const EMPTY_FLOW := Flow(map[], map[], map[], map[], map[], {}, {})

  // ---- Steps ----

  function Register(f: Flow, config: Config, redirectUris: seq<Text>, clientId: Text): (Flow, Reply<Text>) {
    if redirectUris == [] || (exists u :: u in redirectUris && !config.isSafe(u)) then (f, Failed(InvalidRedirectUri))
    else if |f.clients| >= config.maxClients then (f, Failed(Forbidden))
    else if clientId in f.clients then (f, Failed(InternalError))
    else (f.(clients := f.clients[clientId := Client(redirectUris)]), Done(clientId))
  }

  const CODE: Text := Utf16("code")
  const S256: Text := Utf16("S256")
  const AUTHORIZATION_CODE: Text := Utf16("authorization_code")
  const GITHUB: Text := Utf16("github:")

  datatype AuthorizeRequest = AuthorizeRequest(
    clientId: Text, redirectUri: Text, responseType: Text, codeChallenge: Text, codeChallengeMethod: Text,
    resource: Text, scope: seq<Text>, state: Text)

  function AuthorizeProblem(f: Flow, config: Config, r: AuthorizeRequest): Option<ErrorCode> {
    if r.clientId !in f.clients then Some(InvalidClient)
    else if r.redirectUri !in f.clients[r.clientId].redirectUris || !config.isSafe(r.redirectUri) then
      Some(InvalidRedirectUri)
    else if r.responseType != CODE then Some(InvalidClient)
    else if r.codeChallenge == [] || r.codeChallengeMethod != S256 then Some(PkceValidationFailed)
    else if r.resource != config.resource then Some(InvalidToken)
    else if ScopeList(r.scope).Failed? then Some(InvalidScope)
    else None
  }

  predicate Allowed(config: Config, user: GitHubUser) {
    config.allowAllUsers || user.id in config.allowedIds || user.login in config.allowedLogins
  }

  /** A login belongs to one user: taking another user's login fails in the table. */
  function UpsertUser(f: Flow, config: Config, user: GitHubUser): (Flow, Reply<Text>) {
    if !Allowed(config, user) then (f, Failed(Forbidden))
    else if exists g :: g in f.users && g != user.id && f.users[g].login == user.login then (f, Failed(InternalError))
    else
      var id := if user.id in f.users then f.users[user.id].id else GITHUB + user.id;
      (f.(users := f.users[user.id := User(id, user.login)]), Done(id))
  }

  function CodeFor(config: Config, ask: Ask, userId: Text, now: int): Code {
    Code(ask.clientId, userId, ask.redirectUri, ask.codeChallenge, ask.resource, ask.scope,
         now + config.authCodeTtlSeconds * 1000, false)
  }

  function IssueCode(f: Flow, config: Config, ask: Ask, userId: Text, code: Text, now: int): (Flow, Reply<Text>) {
    var h := config.hash(code);
    if h in f.codes then (f, Failed(InternalError))
    else (f.(codes := f.codes[h := CodeFor(config, ask, userId, now)]), Done(code))
  }

  /** Where the browser is sent: back to the client with a code, or on to GitHub. */
  datatype Redirect = WithCode(redirectUri: Text, code: Text, state: Text) | ToGitHub(transaction: Text)

  function IssueFor(f: Flow, config: Config, ask: Ask, user: GitHubUser, code: Text, now: int)
    : (Flow, Reply<Redirect>)
  {
    var (upserted, reply) := UpsertUser(f, config, user);
    if reply.Failed? then (upserted, Failed(reply.code))
    else
      var (issued, answer) := IssueCode(upserted, config, ask, reply.value, code, now);
      (issued, if answer.Failed? then Failed(answer.code) else Done(WithCode(ask.redirectUri, code, ask.state)))
  }

  function AskOf(config: Config, r: AuthorizeRequest, now: int): Ask {
    Ask(r.clientId, r.redirectUri, r.codeChallenge, r.resource, r.scope, r.state,
        now + config.authCodeTtlSeconds * 1000)
  }

  function Authorize(f: Flow, config: Config, r: AuthorizeRequest, transaction: Text, code: Text, now: int)
    : (Flow, Reply<Redirect>)
  {
    var problem := AuthorizeProblem(f, config, r);
    if problem.Some? then (f, Failed(problem.value))
    else
      var ask := AskOf(config, r, now);
      if config.testUser.Some? then IssueFor(f, config, ask, config.testUser.value, code, now)
      else if !config.gitHubConfigured then (f, Failed(Forbidden))
      else
        (f.(transactions := f.transactions[transaction := ask], started := f.started + {transaction}),
         Done(ToGitHub(transaction)))
  }

  /** The callback takes the transaction out, whatever comes of it, and then waits for GitHub. */
  function BeginCallback(f: Flow, gitHubCode: Text, transaction: Text, callback: nat, now: int): (Flow, Reply<()>) {
    var taken := f.(transactions := f.transactions - {transaction});
    if gitHubCode == [] || transaction !in f.transactions || f.transactions[transaction].expiresAt < now then
      (taken, Failed(InvalidToken))
    else
      (taken.(callbacks := f.callbacks[callback := Callback(transaction, f.transactions[transaction])],
              callbacksBegun := f.callbacksBegun + {callback}),
       Done(()))
  }

  /** GitHub answers with a user, or not at all. */
  function EndCallback(f: Flow, config: Config, callback: nat, user: Option<GitHubUser>, code: Text, now: int)
    : (Flow, Reply<Redirect>)
    requires callback in f.callbacks
  {
    var c := f.callbacks[callback];
    var ended := f.(callbacks := f.callbacks - {callback});
    if user.None? then (ended, Failed(InvalidToken))
    else IssueFor(ended, config, c.ask, user.value, code, now)
  }

  predicate StartsWith(t: Text, prefix: Text) { |prefix| <= |t| && t[..|prefix|] == prefix }

  function UserFromId(f: Flow, userId: Text): Option<User> {
    if StartsWith(userId, GITHUB) && userId[|GITHUB|..] in f.users then Some(f.users[userId[|GITHUB|..]]) else None
  }

  datatype TokenRequest = TokenRequest(grantType: Text, clientId: Text, code: Text, redirectUri: Text, verifier: Text)

  function TokenProblem(f: Flow, config: Config, r: TokenRequest, now: int): Option<ErrorCode> {
    var h := config.hash(r.code);
    if r.grantType != AUTHORIZATION_CODE then Some(InvalidClient)
    else if r.clientId !in f.clients then Some(InvalidClient)
    else if h !in f.codes || f.codes[h].clientId != r.clientId || f.codes[h].redirectUri != r.redirectUri then
      Some(InvalidToken)
    else if f.codes[h].used || f.codes[h].expiresAt < now then Some(InvalidToken)
    else if r.verifier == [] || config.hash(r.verifier) != f.codes[h].codeChallenge then Some(PkceValidationFailed)
    else if UserFromId(f, f.codes[h].userId).None? then Some(Unauthorized)
    else if ScopeList(f.codes[h].scope).Failed? then Some(InvalidScope)
    else None
  }

  function Token(f: Flow, config: Config, r: TokenRequest, now: int): (Flow, Reply<AccessToken>) {
    var problem := TokenProblem(f, config, r, now);
    if problem.Some? then (f, Failed(problem.value))
    else
      var h := config.hash(r.code);
      var code := f.codes[h];
      (f.(codes := f.codes[h := code.(used := true)]),
       Done(AccessToken(r.clientId, UserFromId(f, code.userId).value.id, ScopeList(code.scope).value, now)))
  }

  function Cleaned(f: Flow, now: int): Flow {
    f.(transactions := map t | t in f.transactions && f.transactions[t].expiresAt > now :: f.transactions[t])
  }

  // ---- Runs ----

  datatype Event =
    | RegisterEvent(redirectUris: seq<Text>, clientId: Text)
    | AuthorizeEvent(request: AuthorizeRequest, transaction: Text, code: Text, now: int)
    | BeginEvent(gitHubCode: Text, transaction: Text, callback: nat, now: int)
    | EndEvent(callback: nat, user: Option<GitHubUser>, code: Text, now: int)
    | TokenEvent(tokenRequest: TokenRequest, now: int)
    | CleanEvent(now: int)

  /** Transaction ids and calls are new; a call ends once. */
  predicate Enabled(f: Flow, e: Event) {
    match e
    case AuthorizeEvent(_, transaction, _, _) => transaction !in f.started
    case BeginEvent(_, _, callback, _) => callback !in f.callbacksBegun
    case EndEvent(callback, _, _, _) => callback in f.callbacks
    case _ => true
  }

  function Next(f: Flow, config: Config, e: Event): Flow {
    match e
    case RegisterEvent(redirectUris, clientId) => Register(f, config, redirectUris, clientId).0
    case AuthorizeEvent(request, transaction, code, now) => Authorize(f, config, request, transaction, code, now).0
    case BeginEvent(gitHubCode, transaction, callback, now) =>
      BeginCallback(f, gitHubCode, transaction, callback, now).0
    case EndEvent(callback, user, code, now) =>
      if callback in f.callbacks then EndCallback(f, config, callback, user, code, now).0 else f
    case TokenEvent(request, now) => Token(f, config, request, now).0
    case CleanEvent(now) => Cleaned(f, now)
  }

  /** The state after the events. */
  ghost function FlowAfter(config: Config, events: seq<Event>): Flow
    decreases |events|
  {
    if events == [] then EMPTY_FLOW
    else Next(FlowAfter(config, events[..|events| - 1]), config, events[|events| - 1])
  }

  /** Each event is possible when it happens. */
  ghost predicate Legal(config: Config, events: seq<Event>)
    decreases |events|
  {
    events == []
    || (Legal(config, events[..|events| - 1])
        && Enabled(FlowAfter(config, events[..|events| - 1]), events[|events| - 1]))
  }

  /** The state in which event n happens. */
  ghost function Before(config: Config, events: seq<Event>, n: nat): Flow
    requires n <= |events|
  {
    FlowAfter(config, events[..n])
  }

  lemma OneStep(config: Config, events: seq<Event>, n: nat)
    requires n < |events|
    ensures Before(config, events, n + 1) == Next(Before(config, events, n), config, events[n])
  {
    hide Next;
    var more := events[..n + 1];
    assert more[..|more| - 1] == events[..n] && more[|more| - 1] == events[n];
  }

  lemma {:induction false} LegalStep(config: Config, events: seq<Event>, n: nat)
    requires Legal(config, events) && n < |events|
    ensures Enabled(Before(config, events, n), events[n])
    decreases |events|
  {
    hide Enabled;
    var init := events[..|events| - 1];
    if n < |init| {
      LegalStep(config, init, n);
      assert init[..n] == events[..n] && init[n] == events[n];
    }
  }

  // ---- What every run keeps ----

  ghost predicate UsersSound(users: map<Text, User>) { forall g :: g in users ==> users[g].id == GITHUB + g }

  /** A transaction waits, or is with one callback, or is over. */
  ghost predicate CallbacksSound(f: Flow) {
    f.transactions.Keys <= f.started && f.callbacks.Keys <= f.callbacksBegun
    && (forall c :: c in f.callbacks ==>
          f.callbacks[c].transaction in f.started && f.callbacks[c].transaction !in f.transactions)
    && forall c, d ::
         (c in f.callbacks && d in f.callbacks && f.callbacks[c].transaction == f.callbacks[d].transaction) ==> c == d
  }

  ghost predicate Sound(f: Flow) { UsersSound(f.users) && CallbacksSound(f) }

  lemma UpsertKeeps(f: Flow, config: Config, user: GitHubUser)
    requires UsersSound(f.users)
    ensures var (g, reply) := UpsertUser(f, config, user);
            UsersSound(g.users) && g == f.(users := g.users)
            && (reply.Done? ==> reply.value == GITHUB + user.id && Allowed(config, user))
  {
    hide Allowed;
  }

  /** A code is issued for the request and the user it is asked for, and no other code changes. */
  lemma IssueForIssues(f: Flow, config: Config, ask: Ask, user: GitHubUser, code: Text, now: int)
    requires UsersSound(f.users)
    ensures var (g, reply) := IssueFor(f, config, ask, user, code, now);
            UsersSound(g.users) && g == f.(users := g.users, codes := g.codes)
            && if reply.Done? then
                 reply.value == WithCode(ask.redirectUri, code, ask.state) && config.hash(code) !in f.codes
                 && g.codes == f.codes[config.hash(code) := CodeFor(config, ask, GITHUB + user.id, now)]
                 && Allowed(config, user)
               else g.codes == f.codes
  {
    hide UpsertUser, UsersSound, Allowed, Utf16, GITHUB;
    UpsertKeeps(f, config, user);
    var (upserted, reply) := UpsertUser(f, config, user);
    if reply.Done? {
      assert reply.value == GITHUB + user.id && Allowed(config, user) && upserted.codes == f.codes;
      assert IssueFor(f, config, ask, user, code, now).0 == IssueCode(upserted, config, ask, reply.value, code, now).0;
    }
  }

  /** The same code, used or not. */
  ghost predicate SameCode(c: Code, d: Code) { c.(used := false) == d.(used := false) && (c.used ==> d.used) }

  lemma TokenMarksUsed(f: Flow, config: Config, r: TokenRequest, now: int)
    ensures var g := Token(f, config, r, now).0;
            g == f.(codes := g.codes) && g.codes.Keys == f.codes.Keys
            && forall h :: h in f.codes ==> SameCode(f.codes[h], g.codes[h])
    ensures Token(f, config, r, now).1.Done? ==>
              var h := config.hash(r.code); h in f.codes && Token(f, config, r, now).0.codes[h].used
  {
    hide ScopeList, UserFromId, Utf16, AUTHORIZATION_CODE;
  }

  lemma AuthorizeKeeps(f: Flow, config: Config, r: AuthorizeRequest, transaction: Text, code: Text, now: int)
    requires Sound(f) && transaction !in f.started
    ensures Sound(Authorize(f, config, r, transaction, code, now).0)
  {
    hide IssueFor, UsersSound, AuthorizeProblem;
    if config.testUser.Some? {
      IssueForIssues(f, config, AskOf(config, r, now), config.testUser.value, code, now);
    }
  }

  lemma BeginKeeps(f: Flow, gitHubCode: Text, transaction: Text, callback: nat, now: int)
    requires Sound(f) && callback !in f.callbacksBegun
    ensures Sound(BeginCallback(f, gitHubCode, transaction, callback, now).0)
  {
    hide UsersSound;
  }

  lemma EndKeeps(f: Flow, config: Config, callback: nat, user: Option<GitHubUser>, code: Text, now: int)
    requires Sound(f) && callback in f.callbacks
    ensures Sound(EndCallback(f, config, callback, user, code, now).0)
  {
    hide IssueFor, UsersSound;
    if user.Some? {
      var ended := f.(callbacks := f.callbacks - {callback});
      IssueForIssues(ended, config, f.callbacks[callback].ask, user.value, code, now);
    }
  }

  lemma NextKeeps(f: Flow, config: Config, e: Event)
    requires Sound(f) && Enabled(f, e)
    ensures Sound(Next(f, config, e))
  {
    hide Authorize, BeginCallback, EndCallback, Token, UsersSound;
    match e
    case RegisterEvent(_, _) =>
    case AuthorizeEvent(request, transaction, code, now) => AuthorizeKeeps(f, config, request, transaction, code, now);
    case BeginEvent(gitHubCode, transaction, callback, now) => BeginKeeps(f, gitHubCode, transaction, callback, now);
    case EndEvent(callback, user, code, now) => EndKeeps(f, config, callback, user, code, now);
    case TokenEvent(r, now) => TokenMarksUsed(f, config, r, now);
    case CleanEvent(_) =>
  }

  lemma {:induction false} RunsKeep(config: Config, events: seq<Event>, n: nat)
    requires Legal(config, events) && n <= |events|
    ensures Sound(Before(config, events, n))
  {
    hide Sound, Next, Enabled, Legal;
    if n == 0 {
      EmptyIsSound();
    } else {
      RunsKeep(config, events, n - 1);
      LegalStep(config, events, n - 1);
      NextKeeps(Before(config, events, n - 1), config, events[n - 1]);
      OneStep(config, events, n - 1);
    }
  }

  lemma EmptyIsSound()
    ensures Sound(EMPTY_FLOW)
  {}

  // ---- What one event adds ----

  /** The event is an authorization request that passes all checks and goes to GitHub under this transaction. */
  ghost predicate Starts(f: Flow, config: Config, e: Event, t: Text, ask: Ask) {
    e.AuthorizeEvent? && AuthorizeProblem(f, config, e.request).None? && config.testUser.None?
    && config.gitHubConfigured && e.transaction == t && ask == AskOf(config, e.request, e.now)
  }

  /** The event is a callback of this transaction, in time, and goes on to ask GitHub. */
  ghost predicate Begins(f: Flow, e: Event, c: nat, t: Text) {
    e.BeginEvent? && e.callback == c && e.transaction == t && e.gitHubCode != []
    && t in f.transactions && e.now <= f.transactions[t].expiresAt
  }

  /** GitHub names this user to the callback, and the event sends the browser to the redirect URI of the request with a
      code whose hash this is. */
  ghost predicate Ends(f: Flow, config: Config, e: Event, c: nat, ask: Ask, user: GitHubUser, h: Text) {
    e.EndEvent? && e.callback == c && c in f.callbacks && e.user == Some(user) && config.hash(e.code) == h
    && EndCallback(f, config, c, e.user, e.code, e.now).1 == Done(WithCode(ask.redirectUri, e.code, ask.state))
  }

  /** The event is an authorization request that is answered at once with a code, for the test user. */
  ghost predicate AnswersAtOnce(f: Flow, config: Config, e: Event, user: GitHubUser, h: Text) {
    e.AuthorizeEvent? && AuthorizeProblem(f, config, e.request).None? && config.testUser == Some(user)
    && config.hash(e.code) == h
    && Authorize(f, config, e.request, e.transaction, e.code, e.now).1
       == Done(WithCode(e.request.redirectUri, e.code, e.request.state))
  }

  lemma AuthorizeShape(f: Flow, config: Config, e: Event)
    requires UsersSound(f.users) && e.AuthorizeEvent?
    ensures var g := Next(f, config, e);
            g == f.(users := g.users, codes := g.codes, transactions := g.transactions, started := g.started)
            && f.started <= g.started
            && (forall t :: t in g.transactions ==>
                  Starts(f, config, e, t, g.transactions[t])
                  || (t in f.transactions && f.transactions[t] == g.transactions[t]))
            && forall h :: h in f.codes ==> h in g.codes && g.codes[h] == f.codes[h]
  {
    hide IssueFor, UsersSound, AuthorizeProblem;
    if config.testUser.Some? {
      IssueForIssues(f, config, AskOf(config, e.request, e.now), config.testUser.value, e.code, e.now);
    }
  }

  lemma BeginShape(f: Flow, config: Config, e: Event)
    requires e.BeginEvent?
    ensures var g := Next(f, config, e);
            g == f.(transactions := f.transactions - {e.transaction}, callbacks := g.callbacks,
                    callbacksBegun := g.callbacksBegun)
  {}

  lemma CleanShape(f: Flow, config: Config, e: Event)
    requires e.CleanEvent?
    ensures var g := Next(f, config, e);
            g == f.(transactions := g.transactions)
            && forall t :: t in g.transactions ==> t in f.transactions && f.transactions[t] == g.transactions[t]
  {}

  lemma EndShape(f: Flow, config: Config, e: Event)
    requires UsersSound(f.users) && e.EndEvent? && e.callback in f.callbacks
    ensures var g := Next(f, config, e);
            g == f.(users := g.users, codes := g.codes, callbacks := f.callbacks - {e.callback})
            && forall h :: h in f.codes ==> h in g.codes && g.codes[h] == f.codes[h]
  {
    hide IssueFor, UsersSound;
    if e.user.Some? {
      var ended := f.(callbacks := f.callbacks - {e.callback});
      IssueForIssues(ended, config, f.callbacks[e.callback].ask, e.user.value, e.code, e.now);
    }
  }

  lemma NewTransaction(f: Flow, config: Config, e: Event, t: Text)
    requires Sound(f) && Enabled(f, e) && t in Next(f, config, e).transactions
    ensures var ask := Next(f, config, e).transactions[t];
            Starts(f, config, e, t, ask) || (t in f.transactions && f.transactions[t] == ask)
  {
    hide Authorize, BeginCallback, EndCallback, Token, Cleaned, UsersSound, CallbacksSound, Starts, SameCode;
    match e
    case AuthorizeEvent(_, _, _, _) => AuthorizeShape(f, config, e);
    case BeginEvent(_, _, _, _) => BeginShape(f, config, e);
    case EndEvent(_, _, _, _) => EndShape(f, config, e);
    case TokenEvent(r, now) => TokenMarksUsed(f, config, r, now);
    case CleanEvent(_) => CleanShape(f, config, e);
    case _ =>
  }

  lemma NewCallback(f: Flow, config: Config, e: Event, c: nat)
    requires Sound(f) && Enabled(f, e) && c in Next(f, config, e).callbacks
    ensures var callback := Next(f, config, e).callbacks[c];
            (Begins(f, e, c, callback.transaction) && f.transactions[callback.transaction] == callback.ask)
            || (c in f.callbacks && f.callbacks[c] == callback)
  {
    hide Authorize, EndCallback, Token, UsersSound, CallbacksSound, Starts, SameCode;
    match e
    case AuthorizeEvent(_, _, _, _) => AuthorizeShape(f, config, e);
    case EndEvent(_, _, _, _) => EndShape(f, config, e);
    case TokenEvent(r, now) => TokenMarksUsed(f, config, r, now);
    case _ =>
  }

  /** What the code of this request for this user says. */
  ghost predicate Says(config: Config, code: Code, ask: Ask, user: GitHubUser, now: int) {
    SameCode(CodeFor(config, ask, GITHUB + user.id, now), code) && Allowed(config, user)
  }

  lemma NewCode(f: Flow, config: Config, e: Event, h: Text)
    requires Sound(f) && Enabled(f, e) && h in Next(f, config, e).codes
    ensures var code := Next(f, config, e).codes[h];
            (h in f.codes && SameCode(f.codes[h], code))
            || (exists user :: e.AuthorizeEvent? && AnswersAtOnce(f, config, e, user, h)
                  && Says(config, code, AskOf(config, e.request, e.now), user, e.now))
            || (exists user :: e.EndEvent? && e.callback in f.callbacks
                  && Ends(f, config, e, e.callback, f.callbacks[e.callback].ask, user, h)
                  && Says(config, code, f.callbacks[e.callback].ask, user, e.now))
  {
    hide Authorize, EndCallback, BeginCallback, Token, UsersSound, CallbacksSound, AnswersAtOnce, Ends, Says;
    match e
    case RegisterEvent(_, _) =>
    case AuthorizeEvent(_, _, _, _) => AuthorizeCode(f, config, e, h);
    case BeginEvent(_, _, _, _) => BeginShape(f, config, e);
    case EndEvent(_, _, _, _) => EndCode(f, config, e, h);
    case TokenEvent(r, now) => TokenMarksUsed(f, config, r, now);
    case CleanEvent(_) =>
  }

  lemma AuthorizeCode(f: Flow, config: Config, e: Event, h: Text)
    requires UsersSound(f.users) && e.AuthorizeEvent? && h in Next(f, config, e).codes
    ensures var code := Next(f, config, e).codes[h];
            (h in f.codes && f.codes[h] == code)
            || (exists user :: AnswersAtOnce(f, config, e, user, h)
                  && Says(config, code, AskOf(config, e.request, e.now), user, e.now))
  {
    hide IssueFor, UsersSound, AuthorizeProblem, Allowed;
    if config.testUser.Some? {
      IssueForIssues(f, config, AskOf(config, e.request, e.now), config.testUser.value, e.code, e.now);
      assert (h in f.codes && Next(f, config, e).codes[h] == f.codes[h])
             || AnswersAtOnce(f, config, e, config.testUser.value, h);
    }
  }

  lemma EndCode(f: Flow, config: Config, e: Event, h: Text)
    requires UsersSound(f.users) && e.EndEvent? && e.callback in f.callbacks && h in Next(f, config, e).codes
    ensures var code := Next(f, config, e).codes[h];
            (h in f.codes && f.codes[h] == code)
            || (exists user :: Ends(f, config, e, e.callback, f.callbacks[e.callback].ask, user, h)
                  && Says(config, code, f.callbacks[e.callback].ask, user, e.now))
  {
    hide IssueFor, UsersSound, Allowed;
    if e.user.Some? {
      var ended := f.(callbacks := f.callbacks - {e.callback});
      IssueForIssues(ended, config, f.callbacks[e.callback].ask, e.user.value, e.code, e.now);
      assert (h in f.codes && Next(f, config, e).codes[h] == f.codes[h])
             || Ends(f, config, e, e.callback, f.callbacks[e.callback].ask, e.user.value, h);
    }
  }

  // ---- Back through the run ----

  /** Event i of the run started this transaction. */
  ghost predicate StartedAt(config: Config, events: seq<Event>, i: nat, t: Text, ask: Ask) {
    i < |events| && Starts(Before(config, events, i), config, events[i], t, ask)
  }

  /** Event j took the transaction that event i had started, for this callback. */
  ghost predicate BegunAt(config: Config, events: seq<Event>, i: nat, j: nat, c: nat, t: Text, ask: Ask) {
    i < j < |events| && StartedAt(config, events, i, t, ask) && Begins(Before(config, events, j), events[j], c, t)
    && events[j].now <= ask.expiresAt
  }

  /** The code came from event l: it answered the callback begun by event j, for the transaction started by event i,
      and says what that authorization request asked for, and the user whom GitHub named to that callback. */
  ghost predicate FromGitHub(config: Config, events: seq<Event>, i: nat, j: nat, l: nat, h: Text, code: Code) {
    i < j < l < |events| && events[i].AuthorizeEvent? && events[j].BeginEvent? && events[l].EndEvent?
    && events[l].callback == events[j].callback && events[j].transaction == events[i].transaction
    && var ask := AskOf(config, events[i].request, events[i].now);
       BegunAt(config, events, i, j, events[l].callback, events[i].transaction, ask)
       && events[l].user.Some?
       && Ends(Before(config, events, l), config, events[l], events[l].callback, ask, events[l].user.value, h)
       && Says(config, code, ask, events[l].user.value, events[l].now)
  }

  /** The code came from event i, an authorization request answered at once. */
  ghost predicate FromTestUser(config: Config, events: seq<Event>, i: nat, h: Text, code: Code) {
    i < |events| && events[i].AuthorizeEvent? && config.testUser.Some?
    && AnswersAtOnce(Before(config, events, i), config, events[i], config.testUser.value, h)
    && Says(config, code, AskOf(config, events[i].request, events[i].now), config.testUser.value, events[i].now)
  }

  ghost predicate CodeTraced(config: Config, events: seq<Event>, n: nat, h: Text, code: Code) {
    (exists i: nat, j: nat, l: nat :: l < n && FromGitHub(config, events, i, j, l, h, code))
    || (exists i: nat :: i < n && FromTestUser(config, events, i, h, code))
  }

  ghost predicate TransactionTraced(config: Config, events: seq<Event>, n: nat, t: Text, ask: Ask) {
    exists i: nat :: i < n && StartedAt(config, events, i, t, ask)
  }

  ghost predicate CallbackTraced(config: Config, events: seq<Event>, n: nat, c: nat, callback: Callback) {
    exists i: nat, j: nat :: j < n && BegunAt(config, events, i, j, c, callback.transaction, callback.ask)
  }

  /** Whatever waits in the state before event n goes back to events before n. */
  ghost predicate Traced(config: Config, events: seq<Event>, n: nat)
    requires n <= |events|
  {
    var f := Before(config, events, n);
    (forall t :: t in f.transactions ==> TransactionTraced(config, events, n, t, f.transactions[t]))
    && (forall c :: c in f.callbacks ==> CallbackTraced(config, events, n, c, f.callbacks[c]))
    && forall h :: h in f.codes ==> CodeTraced(config, events, n, h, f.codes[h])
  }

  lemma SaysLater(config: Config, code: Code, later: Code, ask: Ask, user: GitHubUser, now: int)
    requires Says(config, code, ask, user, now) && SameCode(code, later)
    ensures Says(config, later, ask, user, now)
  {
    hide Allowed;
  }

  lemma CodeTracedLater(config: Config, events: seq<Event>, n: nat, h: Text, code: Code, later: Code)
    requires CodeTraced(config, events, n, h, code) && SameCode(code, later)
    ensures CodeTraced(config, events, n + 1, h, later)
  {
    hide BegunAt, Ends, Says, SameCode, AnswersAtOnce, Before;
    if i: nat, j: nat, l: nat :| l < n && FromGitHub(config, events, i, j, l, h, code) {
      SaysLater(config, code, later, AskOf(config, events[i].request, events[i].now), events[l].user.value,
                events[l].now);
      assert FromGitHub(config, events, i, j, l, h, later);
    } else {
      var i: nat :| i < n && FromTestUser(config, events, i, h, code);
      SaysLater(config, code, later, AskOf(config, events[i].request, events[i].now), config.testUser.value,
                events[i].now);
      assert FromTestUser(config, events, i, h, later);
    }
  }

  lemma TraceTransaction(config: Config, events: seq<Event>, n: nat, t: Text)
    requires Legal(config, events) && n < |events| && Traced(config, events, n)
    requires t in Before(config, events, n + 1).transactions
    ensures TransactionTraced(config, events, n + 1, t, Before(config, events, n + 1).transactions[t])
  {
    hide Legal, Sound, Starts, CallbackTraced, CodeTraced, Next, Before, Enabled;
    var f := Before(config, events, n);
    OneStep(config, events, n);
    RunsKeep(config, events, n);
    LegalStep(config, events, n);
    NewTransaction(f, config, events[n], t);
    var ask := Before(config, events, n + 1).transactions[t];
    if Starts(f, config, events[n], t, ask) {
      assert StartedAt(config, events, n, t, ask);
    } else {
      assert TransactionTraced(config, events, n, t, ask);
    }
  }

  lemma TraceCallback(config: Config, events: seq<Event>, n: nat, c: nat)
    requires Legal(config, events) && n < |events| && Traced(config, events, n)
    requires c in Before(config, events, n + 1).callbacks
    ensures CallbackTraced(config, events, n + 1, c, Before(config, events, n + 1).callbacks[c])
  {
    hide Legal, Sound, Starts, CodeTraced, Next, Before, Enabled;
    var f := Before(config, events, n);
    OneStep(config, events, n);
    RunsKeep(config, events, n);
    LegalStep(config, events, n);
    NewCallback(f, config, events[n], c);
    var callback := Before(config, events, n + 1).callbacks[c];
    if Begins(f, events[n], c, callback.transaction) && f.transactions[callback.transaction] == callback.ask {
      assert TransactionTraced(config, events, n, callback.transaction, callback.ask);
      var i: nat :| i < n && StartedAt(config, events, i, callback.transaction, callback.ask);
      assert BegunAt(config, events, i, n, c, callback.transaction, callback.ask);
    } else {
      assert CallbackTraced(config, events, n, c, callback);
    }
  }

  lemma TraceCode(config: Config, events: seq<Event>, n: nat, h: Text)
    requires Legal(config, events) && n < |events| && Traced(config, events, n)
    requires h in Before(config, events, n + 1).codes
    ensures CodeTraced(config, events, n + 1, h, Before(config, events, n + 1).codes[h])
  {
    hide Legal, Sound, Next, Before, Enabled, Says, SameCode, TransactionTraced, AnswersAtOnce, EndCallback,
      AuthorizeProblem;
    var f, e := Before(config, events, n), events[n];
    OneStep(config, events, n);
    RunsKeep(config, events, n);
    LegalStep(config, events, n);
    NewCode(f, config, e, h);
    var code := Before(config, events, n + 1).codes[h];
    if h in f.codes && SameCode(f.codes[h], code) {
      assert CodeTraced(config, events, n, h, f.codes[h]);
      CodeTracedLater(config, events, n, h, f.codes[h], code);
    } else if user :| e.AuthorizeEvent? && AnswersAtOnce(f, config, e, user, h)
                      && Says(config, code, AskOf(config, e.request, e.now), user, e.now) {
      AtOnceIsTestUser(f, config, e, user, h);
      assert FromTestUser(config, events, n, h, code);
    } else {
      var user :| e.EndEvent? && e.callback in f.callbacks
                  && Ends(f, config, e, e.callback, f.callbacks[e.callback].ask, user, h)
                  && Says(config, code, f.callbacks[e.callback].ask, user, e.now);
      TraceEnd(config, events, n, h, code, user);
    }
  }

  lemma AtOnceIsTestUser(f: Flow, config: Config, e: Event, user: GitHubUser, h: Text)
    requires AnswersAtOnce(f, config, e, user, h)
    ensures e.AuthorizeEvent? && config.testUser == Some(user)
  {
    hide AuthorizeProblem, Authorize;
  }

  lemma TraceEnd(config: Config, events: seq<Event>, n: nat, h: Text, code: Code, user: GitHubUser)
    requires n < |events| && Traced(config, events, n) && events[n].EndEvent?
    requires var f, e := Before(config, events, n), events[n];
             e.callback in f.callbacks
             && Ends(f, config, e, e.callback, f.callbacks[e.callback].ask, user, h)
             && Says(config, code, f.callbacks[e.callback].ask, user, e.now)
    ensures CodeTraced(config, events, n + 1, h, code)
  {
    hide Before, Says, TransactionTraced, CodeTraced, EndCallback, AuthorizeProblem;
    var f, e := Before(config, events, n), events[n];
    var callback := f.callbacks[e.callback];
    assert CallbackTraced(config, events, n, e.callback, callback);
    var i: nat, j: nat :|
      j < n && BegunAt(config, events, i, j, e.callback, callback.transaction, callback.ask);
    assert FromGitHub(config, events, i, j, n, h, code);
    GitHubIsTraced(config, events, i, j, n, h, code);
  }

  lemma GitHubIsTraced(config: Config, events: seq<Event>, i: nat, j: nat, l: nat, h: Text, code: Code)
    requires FromGitHub(config, events, i, j, l, h, code)
    ensures CodeTraced(config, events, l + 1, h, code)
  {
    hide FromGitHub;
  }

  lemma {:induction false} RunsAreTraced(config: Config, events: seq<Event>, n: nat)
    requires Legal(config, events) && n <= |events|
    ensures Traced(config, events, n)
  {
    if n > 0 {
      hide Legal, Before, TransactionTraced, CallbackTraced, CodeTraced;
      RunsAreTraced(config, events, n - 1);
      var g := Before(config, events, n);
      forall t | t in g.transactions ensures TransactionTraced(config, events, n, t, g.transactions[t]) {
        TraceTransaction(config, events, n - 1, t);
      }
      forall c | c in g.callbacks ensures CallbackTraced(config, events, n, c, g.callbacks[c]) {
        TraceCallback(config, events, n - 1, c);
      }
      forall h | h in g.codes ensures CodeTraced(config, events, n, h, g.codes[h]) {
        TraceCode(config, events, n - 1, h);
      }
    }
  }

  // ---- Main results ----

  /** Event k of the run is a token request that is answered with this token. */
  ghost predicate Answered(config: Config, events: seq<Event>, k: nat, token: AccessToken) {
    k < |events| && events[k].TokenEvent?
    && Token(Before(config, events, k), config, events[k].tokenRequest, events[k].now).1 == Done(token)
  }

  /** What a token request that passes all checks shows. */
  lemma AnsweredFits(f: Flow, config: Config, r: TokenRequest, now: int, token: AccessToken)
    requires Token(f, config, r, now).1 == Done(token) && UsersSound(f.users)
    ensures var h := config.hash(r.code);
            h in f.codes && !f.codes[h].used
            && var code := f.codes[h];
               token.clientId == r.clientId == code.clientId && r.redirectUri == code.redirectUri
               && token.userId == code.userId && ScopeList(code.scope) == Done(token.scopes)
               && r.verifier != [] && config.hash(r.verifier) == code.codeChallenge
               && token.issuedAt == now <= code.expiresAt
  {
    hide ScopeList, Utf16, AUTHORIZATION_CODE, GITHUB;
    var h := config.hash(r.code);
    assert h in f.codes;
    OwnerOfCode(f, f.codes[h].userId);
  }

  lemma OwnerOfCode(f: Flow, userId: Text)
    requires UsersSound(f.users)
    ensures var user := UserFromId(f, userId); user.Some? ==> user.value.id == userId
  {
    if UserFromId(f, userId).Some? {
      assert userId == userId[..|GITHUB|] + userId[|GITHUB|..];
    }
  }

  /** What an authorization request that passes all checks shows. */
  ghost predicate Registered(f: Flow, config: Config, r: AuthorizeRequest) {
    r.clientId in f.clients && r.redirectUri in f.clients[r.clientId].redirectUris && config.isSafe(r.redirectUri)
    && r.responseType == Utf16("code") && r.codeChallenge != [] && r.codeChallengeMethod == Utf16("S256")
    && r.resource == config.resource
  }

  lemma UnrefusedIsRegistered(f: Flow, config: Config, r: AuthorizeRequest)
    requires AuthorizeProblem(f, config, r).None?
    ensures Registered(f, config, r)
  {
    hide ScopeList, Utf16;
  }

  /** The token answered at event k goes back to the authorization request at event i, whose user is this one: the
      request was made by the same client, with a redirect URI registered for it and with a challenge that the presented
      verifier matches, and asked for these scopes. */
  ghost predicate GoesBackTo(
    config: Config, events: seq<Event>, i: nat, k: nat, token: AccessToken, user: GitHubUser, issuedAt: int)
  {
    i < k < |events| && events[i].AuthorizeEvent? && events[k].TokenEvent?
    && var r, asked := events[k].tokenRequest, events[i].request;
       Registered(Before(config, events, i), config, asked)
       && asked.clientId == r.clientId == token.clientId && asked.redirectUri == r.redirectUri
       && r.verifier != [] && config.hash(r.verifier) == asked.codeChallenge
       && ScopeList(asked.scope) == Done(token.scopes)
       && token.userId == Utf16("github:") + user.id
       && (config.allowAllUsers || user.id in config.allowedIds || user.login in config.allowedLogins)
       && token.issuedAt == events[k].now <= issuedAt + config.authCodeTtlSeconds * 1000
  }

  /** The three steps by which the user whom GitHub named got the code: event i starts the transaction, event j takes it
      in time for a callback, and event l answers this very callback with the code. */
  ghost predicate ThroughGitHub(config: Config, events: seq<Event>, i: nat, j: nat, l: nat, user: GitHubUser, h: Text) {
    i < j < l < |events| && events[i].AuthorizeEvent? && events[j].BeginEvent? && events[l].EndEvent?
    && events[j].transaction == events[i].transaction && events[l].callback == events[j].callback
    && events[l].user == Some(user) && config.hash(events[l].code) == h
    && events[j].now <= events[i].now + config.authCodeTtlSeconds * 1000
    && var ask := AskOf(config, events[i].request, events[i].now);
       StartedAt(config, events, i, events[i].transaction, ask)
       && Ends(Before(config, events, l), config, events[l], events[l].callback, ask, user, h)
  }

  lemma FitsGoesBack(
    config: Config, events: seq<Event>, i: nat, k: nat, token: AccessToken, user: GitHubUser, now: int, code: Code)
    requires Answered(config, events, k, token) && UsersSound(Before(config, events, k).users) && i < k
    requires var h := config.hash(events[k].tokenRequest.code);
             h in Before(config, events, k).codes && Before(config, events, k).codes[h] == code
    requires events[i].AuthorizeEvent?
    requires AuthorizeProblem(Before(config, events, i), config, events[i].request).None?
    requires Says(config, code, AskOf(config, events[i].request, events[i].now), user, now)
    ensures GoesBackTo(config, events, i, k, token, user, now)
  {
    hide Before, Token, ScopeList, AuthorizeProblem, Registered, Utf16, UsersSound;
    AnsweredFits(Before(config, events, k), config, events[k].tokenRequest, events[k].now, token);
    UnrefusedIsRegistered(Before(config, events, i), config, events[i].request);
  }

  /** In every run, each access token goes back, over the events that led to it, to an authorization request of the same
      client with a registered redirect URI, whose challenge the presented verifier matches and which asked for these
      scopes. Its user is the one GitHub named to the callback of that request's own transaction, or the test user, and
      is allowed; neither the transaction nor the code had expired. */
  lemma TokenGoesBackToRequest(config: Config, events: seq<Event>, k: nat, token: AccessToken)
    requires Legal(config, events) && Answered(config, events, k, token)
    ensures var h := config.hash(events[k].tokenRequest.code);
            (exists i: nat, j: nat, l: nat, user ::
               l < k && ThroughGitHub(config, events, i, j, l, user, h)
               && GoesBackTo(config, events, i, k, token, user, events[l].now))
            || (exists i: nat, user ::
                  i < k && AnswersAtOnce(Before(config, events, i), config, events[i], user, h)
                  && GoesBackTo(config, events, i, k, token, user, events[i].now))
  {
    hide Legal, Before, Token, TransactionTraced, CallbackTraced, Ends, AnswersAtOnce, Says, AuthorizeProblem,
      GoesBackTo, Registered, UsersSound, CallbacksSound;
    var f, h := Before(config, events, k), config.hash(events[k].tokenRequest.code);
    RunsKeep(config, events, k);
    RunsAreTraced(config, events, k);
    AnsweredFits(f, config, events[k].tokenRequest, events[k].now, token);
    var code := f.codes[h];
    assert CodeTraced(config, events, k, h, code);
    if i: nat, j: nat, l: nat :| l < k && FromGitHub(config, events, i, j, l, h, code) {
      var user := events[l].user.value;
      FitsGoesBack(config, events, i, k, token, user, events[l].now, code);
      GitHubSteps(config, events, i, j, l, h, code);
      assert ThroughGitHub(config, events, i, j, l, user, h);
    } else {
      var i: nat :| i < k && FromTestUser(config, events, i, h, code);
      AtOnceIsUnrefused(Before(config, events, i), config, events[i], config.testUser.value, h);
      FitsGoesBack(config, events, i, k, token, config.testUser.value, events[i].now, code);
    }
  }

  lemma AtOnceIsUnrefused(f: Flow, config: Config, e: Event, user: GitHubUser, h: Text)
    requires AnswersAtOnce(f, config, e, user, h)
    ensures e.AuthorizeEvent? && AuthorizeProblem(f, config, e.request).None?
  {
    hide Authorize, AuthorizeProblem;
  }

  lemma GitHubSteps(config: Config, events: seq<Event>, i: nat, j: nat, l: nat, h: Text, code: Code)
    requires FromGitHub(config, events, i, j, l, h, code)
    ensures ThroughGitHub(config, events, i, j, l, events[l].user.value, h)
  {
    hide Before, EndCallback, AuthorizeProblem, Says;
  }

  lemma CodesStay(f: Flow, config: Config, e: Event, h: Text)
    requires UsersSound(f.users) && h in f.codes
    ensures var g := Next(f, config, e); h in g.codes && SameCode(f.codes[h], g.codes[h])
  {
    hide Authorize, EndCallback, Token, UsersSound, Starts;
    match e
    case AuthorizeEvent(_, _, _, _) => AuthorizeShape(f, config, e);
    case EndEvent(callback, _, _, _) =>
      if callback in f.callbacks {
        EndShape(f, config, e);
      }
    case TokenEvent(r, now) => TokenMarksUsed(f, config, r, now);
    case _ =>
  }

  lemma {:induction false} UsedStays(config: Config, events: seq<Event>, m: nat, n: nat, h: Text)
    requires Legal(config, events) && m <= n <= |events|
    requires h in Before(config, events, m).codes && Before(config, events, m).codes[h].used
    ensures h in Before(config, events, n).codes && Before(config, events, n).codes[h].used
    decreases n - m
  {
    if m < n {
      hide Legal, Before, Next, Sound, UsersSound, CallbacksSound;
      RunsKeep(config, events, m);
      assert UsersSound(Before(config, events, m).users) by {
        SoundUsers(Before(config, events, m));
      }
      OneStep(config, events, m);
      CodesStay(Before(config, events, m), config, events[m], h);
      UsedStays(config, events, m + 1, n, h);
    }
  }

  lemma SoundUsers(f: Flow)
    requires Sound(f)
    ensures UsersSound(f.users)
  {}

  /** In every run at most one token request is answered with a token for a code. */
  lemma OneTokenPerCode(
    config: Config, events: seq<Event>, k: nat, token: AccessToken, l: nat, other: AccessToken)
    requires Legal(config, events) && Answered(config, events, k, token) && Answered(config, events, l, other)
    requires config.hash(events[k].tokenRequest.code) == config.hash(events[l].tokenRequest.code)
    ensures k == l
  {
    hide Legal, Sound;
    if k < l {
      NotAnsweredAgain(config, events, k, token, l, other);
    } else if l < k {
      NotAnsweredAgain(config, events, l, other, k, token);
    }
  }

  lemma NotAnsweredAgain(
    config: Config, events: seq<Event>, k: nat, token: AccessToken, l: nat, other: AccessToken)
    requires Legal(config, events) && Answered(config, events, k, token) && k < l < |events| && events[l].TokenEvent?
    requires config.hash(events[k].tokenRequest.code) == config.hash(events[l].tokenRequest.code)
    ensures !Answered(config, events, l, other)
  {
    hide Legal, Before, Token, Sound, UsersSound, ScopeList;
    var h := config.hash(events[k].tokenRequest.code);
    TokenMarksUsed(Before(config, events, k), config, events[k].tokenRequest, events[k].now);
    OneStep(config, events, k);
    UsedStays(config, events, k + 1, l, h);
    if Answered(config, events, l, other) {
      RunsKeep(config, events, l);
      SoundUsers(Before(config, events, l));
      AnsweredFits(Before(config, events, l), config, events[l].tokenRequest, events[l].now, other);
    }
  }

  /** A transaction that has been taken is over, and so is a callback that has ended. */
  lemma {:induction false} TransactionOver(config: Config, events: seq<Event>, m: nat, n: nat, t: Text)
    requires Legal(config, events) && m <= n <= |events|
    requires t in Before(config, events, m).started && t !in Before(config, events, m).transactions
    ensures t !in Before(config, events, n).transactions
    decreases n - m
  {
    if m < n {
      hide Legal, Before, Next, Sound, Starts, Enabled;
      var f := Before(config, events, m);
      RunsKeep(config, events, m);
      OneStep(config, events, m);
      LegalStep(config, events, m);
      StaysStarted(f, config, events[m], t);
      if t in Before(config, events, m + 1).transactions {
        NewTransaction(f, config, events[m], t);
        NotStartedAgain(f, config, events[m], t, Before(config, events, m + 1).transactions[t]);
      }
      TransactionOver(config, events, m + 1, n, t);
    }
  }

  lemma NotStartedAgain(f: Flow, config: Config, e: Event, t: Text, ask: Ask)
    requires Enabled(f, e) && t in f.started
    ensures !Starts(f, config, e, t, ask)
  {
    hide AuthorizeProblem;
  }

  lemma StaysStarted(f: Flow, config: Config, e: Event, t: Text)
    requires Sound(f) && Enabled(f, e)
    ensures var g := Next(f, config, e); f.started <= g.started && f.callbacksBegun <= g.callbacksBegun
  {
    hide Authorize, EndCallback, Token, UsersSound, CallbacksSound, Starts, SameCode;
    match e
    case AuthorizeEvent(_, _, _, _) => AuthorizeShape(f, config, e);
    case EndEvent(_, _, _, _) => EndShape(f, config, e);
    case TokenEvent(r, now) => TokenMarksUsed(f, config, r, now);
    case _ =>
  }

  lemma {:induction false} CallbackOver(config: Config, events: seq<Event>, m: nat, n: nat, c: nat)
    requires Legal(config, events) && m <= n <= |events|
    requires c in Before(config, events, m).callbacksBegun && c !in Before(config, events, m).callbacks
    ensures c !in Before(config, events, n).callbacks
    decreases n - m
  {
    if m < n {
      hide Legal, Before, Next, Sound, Begins, Enabled;
      var f := Before(config, events, m);
      RunsKeep(config, events, m);
      OneStep(config, events, m);
      LegalStep(config, events, m);
      StaysStarted(f, config, events[m], []);
      if c in Before(config, events, m + 1).callbacks {
        NewCallback(f, config, events[m], c);
        NotBegunAgain(f, events[m], c, Before(config, events, m + 1).callbacks[c].transaction);
      }
      CallbackOver(config, events, m + 1, n, c);
    }
  }

  lemma NotBegunAgain(f: Flow, e: Event, c: nat, t: Text)
    requires Enabled(f, e) && c in f.callbacksBegun
    ensures !Begins(f, e, c, t)
  {}

  /** Event j is a callback of its transaction that goes on to ask GitHub, and event l answers it with a code. */
  ghost predicate CodeFromCallback(config: Config, events: seq<Event>, j: nat, l: nat) {
    j < l < |events| && events[j].BeginEvent? && events[l].EndEvent? && events[l].callback == events[j].callback
    && Begins(Before(config, events, j), events[j], events[j].callback, events[j].transaction)
    && events[l].callback in Before(config, events, l).callbacks
    && EndCallback(Before(config, events, l), config, events[l].callback, events[l].user, events[l].code, events[l].now)
         .1.Done?
  }

  lemma TakenOnce(config: Config, events: seq<Event>, j: nat, k: nat)
    requires Legal(config, events) && j < k < |events| && events[j].BeginEvent? && events[k].BeginEvent?
    requires Begins(Before(config, events, j), events[j], events[j].callback, events[j].transaction)
    requires events[k].transaction == events[j].transaction
    ensures !Begins(Before(config, events, k), events[k], events[k].callback, events[k].transaction)
  {
    hide Legal, Before;
    RunsKeep(config, events, j);
    OneStep(config, events, j);
    TransactionOver(config, events, j + 1, k, events[j].transaction);
  }

  lemma EndedOnce(config: Config, events: seq<Event>, l: nat, m: nat)
    requires Legal(config, events) && l < m < |events| && events[l].EndEvent? && events[m].EndEvent?
    requires events[l].callback in Before(config, events, l).callbacks && events[m].callback == events[l].callback
    ensures events[m].callback !in Before(config, events, m).callbacks
  {
    hide Legal, Before, IssueFor, UsersSound;
    var f, e := Before(config, events, l), events[l];
    RunsKeep(config, events, l);
    OneStep(config, events, l);
    if e.user.Some? {
      var ended := f.(callbacks := f.callbacks - {e.callback});
      IssueForIssues(ended, config, f.callbacks[e.callback].ask, e.user.value, e.code, e.now);
    }
    CallbackOver(config, events, l + 1, m, e.callback);
  }

  /** In every run a GitHub transaction leads to at most one code: two answers with a code, to callbacks that took the
      same transaction, are the same answer to the same callback. */
  lemma OneCodePerGitHubTransaction(config: Config, events: seq<Event>, j: nat, l: nat, k: nat, m: nat)
    requires Legal(config, events) && CodeFromCallback(config, events, j, l) && CodeFromCallback(config, events, k, m)
    requires events[j].transaction == events[k].transaction
    ensures j == k && l == m
  {
    hide Legal, Before, Begins, EndCallback;
    if j < k {
      TakenOnce(config, events, j, k);
    } else if k < j {
      TakenOnce(config, events, k, j);
    }
    if l < m {
      EndedOnce(config, events, l, m);
    } else if m < l {
      EndedOnce(config, events, m, l);
    }
  }

  /** The scopes of a token are those its request named, in order, or the default ones if it named none. */
  lemma {:induction false} ScopesAreThoseAsked(words: seq<Text>)
    requires ScopeList(words).Done?
    ensures words == [] ==>
              ScopeList(words).value == [HostsReadScope, AgentsReadScope, StatusReadScope, LogsReadScope]
    ensures words != [] ==> |ScopeList(words).value| == |words|
    ensures words != [] ==>
              forall i :: 0 <= i < |words| ==> Utf16(ScopeName(ScopeList(words).value[i])) == words[i]
  {
    ParsedScopes(words);
  }

  lemma {:induction false} ParsedScopes(words: seq<Text>)
    requires forall w :: w in words ==> ScopeOf(w).Some?
    ensures |ParseScopes(words)| == |words|
    ensures forall i :: 0 <= i < |words| ==> Utf16(ScopeName(ParseScopes(words)[i])) == words[i]
  {
    hide ScopeName, FindScope, Utf16;
    if words != [] {
      assert words[0] in words;
      FoundScope(words[0], REMOTE_SCOPES);
      assert forall w :: w in words[1..] ==> w in words;
      ParsedScopes(words[1..]);
    }
  }

  lemma {:induction false} FoundScope(word: Text, scopes: seq<Scope>)
    requires FindScope(word, scopes).Some?
    ensures Utf16(ScopeName(FindScope(word, scopes).value)) == word
  {
    hide ScopeName, Utf16;
    if Utf16(ScopeName(scopes[0])) != word {
      FoundScope(word, scopes[1..]);
    }
  }
}

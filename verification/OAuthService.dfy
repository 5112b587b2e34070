/** The authorization server as an object whose handlers change its maps in place; each is proved to make the step that
    OAuthFlow.dfy describes. */
module OAuthService {
  import opened JsText
  import opened RemoteTypes
  import opened OAuthFlow

  class AuthorizationServer {
    const config: Config

    var clients: map<Text, Client>
    var authorizeTransactions: map<Text, Ask>
    var codes: map<Text, Code>
    var users: map<Text, User>
    ghost var callbacks: map<nat, Callback>
    ghost var started: set<Text>
    ghost var callbacksBegun: set<nat>

    ghost function State(): Flow
      reads this
    {
      Flow(clients, authorizeTransactions, callbacks, codes, users, started, callbacksBegun)
    }

    constructor (config: Config)
      ensures State() == EMPTY_FLOW && this.config == config
    {
      this.config := config;
      clients, authorizeTransactions, codes, users := map[], map[], map[], map[];
      callbacks, started, callbacksBegun := map[], {}, {};
    }

    method HandleRegister(redirectUris: seq<Text>, clientId: Text) returns (reply: Reply<Text>)
      modifies this`clients
      ensures (State(), reply) == Register(old(State()), config, redirectUris, clientId)
    {
      if redirectUris == [] || exists u :: u in redirectUris && !config.isSafe(u) {
        return Failed(InvalidRedirectUri);
      }
      if |clients| >= config.maxClients {
        return Failed(Forbidden);
      }
      if clientId in clients {
        return Failed(InternalError);
      }
      clients := clients[clientId := Client(redirectUris)];
      return Done(clientId);
    }

    method ValidateAuthorizeParams(r: AuthorizeRequest) returns (problem: Option<ErrorCode>)
      ensures problem == AuthorizeProblem(State(), config, r)
    {
      hide ScopeList;
      if r.clientId !in clients {
        return Some(InvalidClient);
      }
      if r.redirectUri !in clients[r.clientId].redirectUris || !config.isSafe(r.redirectUri) {
        return Some(InvalidRedirectUri);
      }
      if r.responseType != CODE {
        return Some(InvalidClient);
      }
      if r.codeChallenge == [] || r.codeChallengeMethod != S256 {
        return Some(PkceValidationFailed);
      }
      if r.resource != config.resource {
        return Some(InvalidToken);
      }
      if ScopeList(r.scope).Failed? {
        return Some(InvalidScope);
      }
      return None;
    }

    method UpsertGitHubUser(user: GitHubUser) returns (reply: Reply<Text>)
      modifies this`users
      ensures (State(), reply) == UpsertUser(old(State()), config, user)
    {
      hide Allowed;
      if !Allowed(config, user) {
        return Failed(Forbidden);
      }
      if exists g :: g in users && g != user.id && users[g].login == user.login {
        return Failed(InternalError);
      }
      var id := if user.id in users then users[user.id].id else GITHUB + user.id;
      users := users[user.id := User(id, user.login)];
      return Done(id);
    }

    method IssueAuthorizationCode(ask: Ask, userId: Text, code: Text, now: int) returns (reply: Reply<Text>)
      modifies this`codes
      ensures (State(), reply) == IssueCode(old(State()), config, ask, userId, code, now)
    {
      var h := config.hash(code);
      if h in codes {
        return Failed(InternalError);
      }
      codes := codes[h := Code(
        ask.clientId, userId, ask.redirectUri, ask.codeChallenge, ask.resource, ask.scope,
        now + config.authCodeTtlSeconds * 1000, false)];
      return Done(code);
    }

    method IssueFor(ask: Ask, user: GitHubUser, code: Text, now: int) returns (reply: Reply<Redirect>)
      modifies this`users, this`codes
      ensures (State(), reply) == OAuthFlow.IssueFor(old(State()), config, ask, user, code, now)
    {
      hide UpsertUser, IssueCode;
      var upserted := UpsertGitHubUser(user);
      if upserted.Failed? {
        return Failed(upserted.code);
      }
      var issued := IssueAuthorizationCode(ask, upserted.value, code, now);
      if issued.Failed? {
        return Failed(issued.code);
      }
      return Done(WithCode(ask.redirectUri, code, ask.state));
    }

    method HandleAuthorize(r: AuthorizeRequest, transaction: Text, code: Text, now: int)
      returns (reply: Reply<Redirect>)
      modifies this
      ensures (State(), reply) == Authorize(old(State()), config, r, transaction, code, now)
    {
      hide AuthorizeProblem, OAuthFlow.IssueFor;
      var problem := ValidateAuthorizeParams(r);
      if problem.Some? {
        return Failed(problem.value);
      }
      var ask := Ask(r.clientId, r.redirectUri, r.codeChallenge, r.resource, r.scope, r.state,
                     now + config.authCodeTtlSeconds * 1000);
      if config.testUser.Some? {
        reply := IssueFor(ask, config.testUser.value, code, now);
        return;
      }
      if !config.gitHubConfigured {
        return Failed(Forbidden);
      }
      authorizeTransactions := authorizeTransactions[transaction := ask];
      started := started + {transaction};
      return Done(ToGitHub(transaction));
    }

    /** Up to the request to GitHub. */
    method BeginGitHubCallback(gitHubCode: Text, transaction: Text, ghost callback: nat, now: int)
      returns (reply: Reply<Ask>)
      modifies this`authorizeTransactions, this`callbacks, this`callbacksBegun
      ensures State() == BeginCallback(old(State()), gitHubCode, transaction, callback, now).0
      ensures reply.Done? <==> BeginCallback(old(State()), gitHubCode, transaction, callback, now).1.Done?
      ensures reply.Done? ==> callback in callbacks && callbacks[callback] == Callback(transaction, reply.value)
    {
      var pending := if transaction in authorizeTransactions then Some(authorizeTransactions[transaction]) else None;
      authorizeTransactions := authorizeTransactions - {transaction};
      if gitHubCode == [] || pending.None? || pending.value.expiresAt < now {
        return Failed(InvalidToken);
      }
      callbacks := callbacks[callback := Callback(transaction, pending.value)];
      callbacksBegun := callbacksBegun + {callback};
      return Done(pending.value);
    }

    /** From GitHub's answer on. */
    method EndGitHubCallback(
      ghost callback: nat, ghost transaction: Text, pending: Ask, user: Option<GitHubUser>, code: Text, now: int)
      returns (reply: Reply<Redirect>)
      requires callback in callbacks && callbacks[callback] == Callback(transaction, pending)
      modifies this
      ensures (State(), reply) == EndCallback(old(State()), config, callback, user, code, now)
    {
      hide OAuthFlow.IssueFor;
      callbacks := callbacks - {callback};
      if user.None? {
        return Failed(InvalidToken);
      }
      reply := IssueFor(pending, user.value, code, now);
    }

    method HandleToken(r: TokenRequest, now: int) returns (reply: Reply<AccessToken>)
      modifies this`codes
      ensures (State(), reply) == Token(old(State()), config, r, now)
    {
      hide UserFromId, ScopeList, Utf16, AUTHORIZATION_CODE, GITHUB;
      if r.grantType != AUTHORIZATION_CODE || r.clientId !in clients {
        return Failed(InvalidClient);
      }
      var h := config.hash(r.code);
      if h !in codes || codes[h].clientId != r.clientId || codes[h].redirectUri != r.redirectUri {
        return Failed(InvalidToken);
      }
      var record := codes[h];
      if record.used || record.expiresAt < now {
        return Failed(InvalidToken);
      }
      if r.verifier == [] || config.hash(r.verifier) != record.codeChallenge {
        return Failed(PkceValidationFailed);
      }
      var user := FindUser(record.userId);
      if user.None? {
        return Failed(Unauthorized);
      }
      var scopes := ScopeList(record.scope);
      if scopes.Failed? {
        return Failed(InvalidScope);
      }
      codes := codes[h := record.(used := true)];
      return Done(AccessToken(r.clientId, user.value.id, scopes.value, now));
    }

    method FindUser(userId: Text) returns (user: Option<User>)
      ensures user == UserFromId(State(), userId)
    {
      if StartsWith(userId, GITHUB) && userId[|GITHUB|..] in users {
        return Some(users[userId[|GITHUB|..]]);
      }
      return None;
    }

    method CleanTransactions(now: int)
      modifies this`authorizeTransactions
      ensures State() == Cleaned(old(State()), now)
    {
      var todo := authorizeTransactions.Keys;
      ghost var was := authorizeTransactions;
      while todo != {}
        invariant todo <= was.Keys
        invariant authorizeTransactions
                  == map t | t in was && (t in todo || was[t].expiresAt > now) :: was[t]
        decreases |todo|
      {
        var t :| t in todo;
        if authorizeTransactions[t].expiresAt <= now {
          authorizeTransactions := authorizeTransactions - {t};
        }
        todo := todo - {t};
      }
    }
  }
}

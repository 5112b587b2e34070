/** What the authorization server answers: for every state and every request, when it succeeds, what it then does, and
    how it is refused. */
module OAuthAnswers {
  import opened JsText
  import opened RemoteTypes
  import opened OAuthFlow

  // ---- Clients ----

  /** A client is registered if and only if it names redirect URIs, all of them safe, and there is room for a new id. */
  lemma RegisteredExactlyWhen(f: Flow, config: Config, redirectUris: seq<Text>, clientId: Text)
    ensures var (g, reply) := Register(f, config, redirectUris, clientId);
            var fits := redirectUris != [] && forall u :: u in redirectUris ==> config.isSafe(u);
            if fits && |f.clients| < config.maxClients && clientId !in f.clients then
              reply == Done(clientId) && g == f.(clients := f.clients[clientId := Client(redirectUris)])
            else
              g == f
              && reply == Failed(if !fits then InvalidRedirectUri
                                 else if |f.clients| >= config.maxClients then Forbidden
                                 else InternalError)
  {}

  // ---- Scopes ----

  /** The word is the name of a scope. */
  ghost predicate NamesScope(word: Text) { exists s: Scope :: Utf16(ScopeName(s)) == word }

  lemma EveryScope(s: Scope)
    ensures s in REMOTE_SCOPES
  {}

  lemma {:induction false} FoundExactlyWhen(word: Text, scopes: seq<Scope>)
    ensures FindScope(word, scopes).Some? <==> exists s :: s in scopes && Utf16(ScopeName(s)) == word
  {
    hide ScopeName, Utf16;
    if scopes != [] {
      FoundExactlyWhen(word, scopes[1..]);
      assert scopes == [scopes[0]] + scopes[1..];
    }
  }

  lemma ScopeOfMeans(word: Text)
    ensures ScopeOf(word).Some? <==> NamesScope(word)
  {
    hide ScopeName, Utf16, REMOTE_SCOPES, FindScope;
    FoundExactlyWhen(word, REMOTE_SCOPES);
    if s: Scope :| Utf16(ScopeName(s)) == word {
      EveryScope(s);
    }
  }

  lemma ScopeListMeans(words: seq<Text>)
    ensures ScopeList(words).Done? <==> forall w :: w in words ==> NamesScope(w)
    ensures ScopeList(words).Failed? ==> ScopeList(words).code == InvalidScope
  {
    hide NamesScope, ScopeOf, ParseScopes, DEFAULT_SCOPES;
    forall w | w in words ensures ScopeOf(w).Some? <==> NamesScope(w) {
      ScopeOfMeans(w);
    }
  }

  // ---- Authorization requests ----

  /** The client is known, the redirect URI is one of its own and safe, a code is asked for under an S256 challenge, for
      this resource, and every scope is known. */
  ghost predicate AskFits(f: Flow, config: Config, r: AuthorizeRequest) {
    r.clientId in f.clients && r.redirectUri in f.clients[r.clientId].redirectUris && config.isSafe(r.redirectUri)
    && r.responseType == Utf16("code") && r.codeChallenge != [] && r.codeChallengeMethod == Utf16("S256")
    && r.resource == config.resource && forall w :: w in r.scope ==> NamesScope(w)
  }

  /** What is kept of an authorization request while GitHub is asked, and then in the code. */
  ghost predicate IsAskOf(ask: Ask, config: Config, r: AuthorizeRequest, now: int) {
    ask.clientId == r.clientId && ask.redirectUri == r.redirectUri && ask.codeChallenge == r.codeChallenge
    && ask.resource == r.resource && ask.scope == r.scope && ask.state == r.state
    && ask.expiresAt == now + config.authCodeTtlSeconds * 1000
  }

  lemma AuthorizeProblemMeans(f: Flow, config: Config, r: AuthorizeRequest)
    ensures AuthorizeProblem(f, config, r).None? <==> AskFits(f, config, r)
    ensures AuthorizeProblem(f, config, r).Some? ==>
              AuthorizeProblem(f, config, r).value
              == if r.clientId !in f.clients then InvalidClient
                 else if r.redirectUri !in f.clients[r.clientId].redirectUris || !config.isSafe(r.redirectUri)
                      then InvalidRedirectUri
                 else if r.responseType != Utf16("code") then InvalidClient
                 else if r.codeChallenge == [] || r.codeChallengeMethod != Utf16("S256") then PkceValidationFailed
                 else if r.resource != config.resource then InvalidToken
                 else InvalidScope
  {
    hide ScopeList, Utf16, NamesScope;
    ScopeListMeans(r.scope);
  }

  /** An authorization request goes on to GitHub if and only if it fits, no test user is configured and GitHub is; then
      the transaction is kept. With a test user it is answered at once, as GitHub's answer is later. */
  lemma AuthorizedExactlyHow(f: Flow, config: Config, r: AuthorizeRequest, transaction: Text, code: Text, now: int)
    ensures var (g, reply) := Authorize(f, config, r, transaction, code, now);
            if !AskFits(f, config, r) then g == f && reply.Failed?
            else if config.testUser.Some? then
              exists ask ::
                IsAskOf(ask, config, r, now)
                && IssuedExactly(f, g, config, ask, config.testUser.value, code, reply, now)
            else if !config.gitHubConfigured then g == f && reply == Failed(Forbidden)
            else
              reply == Done(ToGitHub(transaction)) && transaction in g.transactions
              && IsAskOf(g.transactions[transaction], config, r, now)
              && g == f.(transactions := f.transactions[transaction := g.transactions[transaction]],
                         started := f.started + {transaction})
  {
    hide AuthorizeProblem, AskFits, IssueFor, IssuedExactly;
    AuthorizeProblemMeans(f, config, r);
    var ask := AskOf(config, r, now);
    assert IsAskOf(ask, config, r, now);
    if config.testUser.Some? {
      IssueForMeans(f, config, ask, config.testUser.value, code, now);
    }
  }

  // ---- Codes ----

  /** The user is on one of the lists, and no other user has this login. */
  ghost predicate MaySignIn(f: Flow, config: Config, user: GitHubUser) {
    (config.allowAllUsers || user.id in config.allowedIds || user.login in config.allowedLogins)
    && forall g :: g in f.users && f.users[g].login == user.login ==> g == user.id
  }

  /** The code is for the client, the redirect URI, the challenge and the scopes of the request, and for the user; it is
      unused, and expires after the configured time. */
  ghost predicate IsCodeFor(c: Code, config: Config, ask: Ask, userId: Text, now: int) {
    c.clientId == ask.clientId && c.userId == userId && c.redirectUri == ask.redirectUri
    && c.codeChallenge == ask.codeChallenge && c.resource == ask.resource && c.scope == ask.scope && !c.used
    && c.expiresAt == now + config.authCodeTtlSeconds * 1000
  }

  /** A code is issued exactly if the user may sign in and the code is new: the user is then known by the login that
      GitHub gave, the code is kept by its hash, and the browser goes back to the request's own redirect URI with the
      code and the request's state. A user is kept also when only the code is not new. */
  ghost predicate IssuedExactly(
    f: Flow, g: Flow, config: Config, ask: Ask, user: GitHubUser, code: Text, reply: Reply<Redirect>, now: int)
  {
    var h := config.hash(code);
    g == f.(users := g.users, codes := g.codes)
    && if !MaySignIn(f, config, user) then
         g == f
         && reply
            == Failed(if config.allowAllUsers || user.id in config.allowedIds || user.login in config.allowedLogins
                      then InternalError else Forbidden)
       else
         user.id in g.users && g.users == f.users[user.id := g.users[user.id]] && g.users[user.id].login == user.login
         && g.users[user.id].id == (if user.id in f.users then f.users[user.id].id else Utf16("github:") + user.id)
         && if h in f.codes then g.codes == f.codes && reply == Failed(InternalError)
            else
              reply == Done(WithCode(ask.redirectUri, code, ask.state)) && h in g.codes
              && g.codes == f.codes[h := g.codes[h]] && IsCodeFor(g.codes[h], config, ask, g.users[user.id].id, now)
  }

  lemma IssueForMeans(f: Flow, config: Config, ask: Ask, user: GitHubUser, code: Text, now: int)
    ensures var (g, reply) := IssueFor(f, config, ask, user, code, now);
            IssuedExactly(f, g, config, ask, user, code, reply, now)
  {
    hide Utf16;
  }

  /** A callback goes on to ask GitHub if and only if it has a code and its transaction is there and not over; the
      transaction is gone in any case. */
  lemma CallbackTakenExactlyWhen(f: Flow, gitHubCode: Text, transaction: Text, callback: nat, now: int)
    ensures var (g, reply) := BeginCallback(f, gitHubCode, transaction, callback, now);
            transaction !in g.transactions && g.transactions == f.transactions - {transaction}
            && if gitHubCode != [] && transaction in f.transactions && now <= f.transactions[transaction].expiresAt then
                 reply == Done(())
                 && g == f.(transactions := g.transactions,
                            callbacks := f.callbacks[callback := Callback(transaction, f.transactions[transaction])],
                            callbacksBegun := f.callbacksBegun + {callback})
               else reply == Failed(InvalidToken) && g == f.(transactions := g.transactions)
  {}

  /** Cleaning drops exactly the transactions that are over or end now. No later callback can tell, except one that
      comes in the very millisecond in which its transaction ends: it would have been taken. */
  lemma CleaningShowsExactlyWhen(
    f: Flow, gitHubCode: Text, transaction: Text, callback: nat, now: int, later: int)
    requires now <= later
    ensures var g := Cleaned(f, now);
            g == f.(transactions := g.transactions)
            && (forall t :: t in g.transactions <==> t in f.transactions && now < f.transactions[t].expiresAt)
            && (forall t :: t in g.transactions ==> g.transactions[t] == f.transactions[t])
    ensures BeginCallback(Cleaned(f, now), gitHubCode, transaction, callback, later).1
            != BeginCallback(f, gitHubCode, transaction, callback, later).1
            <==> gitHubCode != [] && transaction in f.transactions
                 && f.transactions[transaction].expiresAt == now == later
  {}

  /** GitHub's answer is answered with a code if and only if it names a user who may sign in and the code is new; the
      callback is over in any case. */
  lemma CodeIssuedExactlyWhen(
    f: Flow, config: Config, callback: nat, user: Option<GitHubUser>, code: Text, now: int)
    requires callback in f.callbacks
    ensures var (g, reply) := EndCallback(f, config, callback, user, code, now);
            var ended := f.(callbacks := f.callbacks - {callback});
            (reply.Done? <==> user.Some? && MaySignIn(f, config, user.value) && config.hash(code) !in f.codes)
            && if user.None? then g == ended && reply == Failed(InvalidToken)
               else IssuedExactly(ended, g, config, f.callbacks[callback].ask, user.value, code, reply, now)
  {
    hide IssueFor;
    if user.Some? {
      var ended := f.(callbacks := f.callbacks - {callback});
      IssueForMeans(ended, config, f.callbacks[callback].ask, user.value, code, now);
    }
  }

  // ---- Tokens ----

  /** The code was issued to this client for this redirect URI, and is neither used nor over. */
  ghost predicate CodeFits(f: Flow, config: Config, r: TokenRequest, now: int) {
    var h := config.hash(r.code);
    h in f.codes && f.codes[h].clientId == r.clientId && f.codes[h].redirectUri == r.redirectUri
    && !f.codes[h].used && now <= f.codes[h].expiresAt
  }

  /** The user of the code is known. */
  ghost predicate UserKnown(f: Flow, userId: Text) {
    exists g :: g in f.users && userId == Utf16("github:") + g
  }

  lemma UserFromIdMeans(f: Flow, userId: Text)
    requires UsersSound(f.users)
    ensures UserFromId(f, userId).Some? <==> UserKnown(f, userId)
    ensures UserFromId(f, userId).Some? ==> UserFromId(f, userId).value.id == userId
  {
    hide Utf16;
    if g :| g in f.users && userId == GITHUB + g {
      assert userId[..|GITHUB|] == GITHUB && userId[|GITHUB|..] == g;
    }
    if UserFromId(f, userId).Some? {
      assert userId == GITHUB + userId[|GITHUB|..];
    }
  }

  /** A token is answered if and only if the grant is the one of authorization codes, the client is known, the code
      fits, the verifier is the one that the challenge was made from, the user is known and the scopes are; the code is
      then used, and the token is the client's, for the code's user and scopes. Otherwise nothing changes. */
  lemma TokenAnsweredExactlyWhen(f: Flow, config: Config, r: TokenRequest, now: int)
    requires UsersSound(f.users)
    ensures var (g, reply) := Token(f, config, r, now);
            var h := config.hash(r.code);
            (reply.Done?
             <==> r.grantType == Utf16("authorization_code") && r.clientId in f.clients && CodeFits(f, config, r, now)
                  && r.verifier != [] && config.hash(r.verifier) == f.codes[h].codeChallenge
                  && UserKnown(f, f.codes[h].userId) && forall w :: w in f.codes[h].scope ==> NamesScope(w))
            && if reply.Done? then
                 g == f.(codes := f.codes[h := f.codes[h].(used := true)])
                 && reply.value.clientId == r.clientId && reply.value.userId == f.codes[h].userId
                 && Done(reply.value.scopes) == ScopeList(f.codes[h].scope) && reply.value.issuedAt == now
               else
                 g == f
                 && reply.code
                    == if r.grantType != Utf16("authorization_code") || r.clientId !in f.clients then InvalidClient
                       else if !CodeFits(f, config, r, now) then InvalidToken
                       else if r.verifier == [] || config.hash(r.verifier) != f.codes[h].codeChallenge
                            then PkceValidationFailed
                       else if !UserKnown(f, f.codes[h].userId) then Unauthorized
                       else InvalidScope
  {
    hide ScopeList, Utf16, GITHUB, UserFromId, UserKnown, NamesScope, UsersSound;
    var h := config.hash(r.code);
    if h in f.codes {
      UserFromIdMeans(f, f.codes[h].userId);
      ScopeListMeans(f.codes[h].scope);
    }
  }
}

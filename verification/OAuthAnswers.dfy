/** What the two endpoints answer and leave behind, request by request: when they accept,
    and every part of what is then stored and returned. */
module OAuthAnswers {
  import opened Wrappers
  import opened Scopes
  import opened OAuthStore
  import opened OAuthGrants
  import opened OAuthRuns

  // ---------- The authorization endpoint ----------

  /** The address the client asked to be sent to is its registered one, or it asked for
      none, or it is a local one where these are allowed. */
  predicate RedirectAllowed(env: Env, client: Client, asked: Option<string>) {
    asked == None || asked == Some("") || asked == Some(client.redirectUri)
    || (env.localRedirects && env.isLocalHost(asked.value))
  }

  /** PKCE parameters come with a public client and with no other. */
  predicate PkceFits(client: Client, req: AuthorizationRequest) {
    var (m, c) := (req.codeChallengeMethod, req.codeChallenge);
    if client.publicClient then m.Some? && m.value != "" && c.Some? && c.value != ""
    else (m.None? || m.value == "") && (c.None? || c.value == "")
  }

  ghost predicate AuthorizationAccepted(env: Env, req: AuthorizationRequest, claims: Option<Claims>) {
    && AuthorizationSchema(env, req) && claims.Some? && req.clientId in env.clients
    && var client := env.clients[req.clientId];
       && RedirectAllowed(env, client, req.redirectUri)
       && ("AAL2" in req.wanted.acrValues ==> claims.value.aal.Some? && claims.value.aal.value >= 2)
       && Approved(env, claims.value, client, req.wanted.scope)
       && (req.responseType.ResponseCode? ==> PkceFits(client, req))
       && (req.responseType.ResponseToken? ==> client.canGrant)
  }

  /** An authorization is accepted if and only if the schema holds, the assertion does, the
      client is known, the redirect is allowed, the grant is approved, and PKCE fits (for a
      code) or the client may grant (for a token). A code goes to the registered address
      unless local ones are allowed and it is one. */
  lemma AuthorizationAnswer(env: Env, t: Tables, now: nat, req: AuthorizationRequest, claims: Option<Claims>, d: Draws)
    ensures var r := AuthorizationEndpoint(env, t, now, req, claims, d).1;
            && (r.Ok? <==> AuthorizationAccepted(env, req, claims))
            && (r.Ok? ==> r.value.CodeIssued? == req.responseType.ResponseCode?)
            && (r.Ok? && r.value.CodeIssued? ==>
                  && r.value.code == d.code
                  && (r.value.redirect == env.clients[req.clientId].redirectUri
                      || (env.localRedirects && env.isLocalHost(r.value.redirect)))
                  && (req.redirectUri.Some? && req.redirectUri.value != "" ==>
                        r.value.redirect == req.redirectUri.value))
  {
    if AuthorizationSchema(env, req) && claims.Some? && req.clientId in env.clients {
      GrantCheckMeaning(env, claims.value, env.clients[req.clientId], req.wanted);
    }
  }

  /** What an accepted authorization for a code stores: this one code, with the grant the
      user's assertion supports and the challenge of the request. */
  lemma AuthorizationStores(env: Env, t: Tables, now: nat, req: AuthorizationRequest, claims: Option<Claims>, d: Draws)
    requires WellFormed(env)
    requires AuthorizationEndpoint(env, t, now, req, claims, d).1.Ok? && req.responseType.ResponseCode?
    ensures var t' := AuthorizationEndpoint(env, t, now, req, claims, d).0;
            var h := env.hash(d.code);
            && t'.tokens == t.tokens && t'.refreshTokens == t.refreshTokens
            && t'.codes.Keys == t.codes.Keys + {h} && (forall k :: k in t.codes && k != h ==> t'.codes[k] == t.codes[k])
            && var row := t'.codes[h];
               && row.createdAt == now
               && row.codeChallenge == req.codeChallenge && row.codeChallengeMethod == req.codeChallengeMethod
               && Describes(Presented(claims.value.uid, claims.value.email, req.wanted.scope, req.wanted.offline,
                                      Some(claims.value.lastAuthAt), req.wanted.keysJwe),
                            req.clientId, row.grant)
  {
  }

  /** The implicit grant answers like the token endpoint. */
  lemma ImplicitAnswer(env: Env, t: Tables, now: nat, req: AuthorizationRequest, claims: Option<Claims>, d: Draws)
    requires WellFormed(env)
    requires AuthorizationEndpoint(env, t, now, req, claims, d).1.Ok? && req.responseType.ResponseToken?
    ensures var (t', r) := AuthorizationEndpoint(env, t, now, req, claims, d);
            AnswersAndStores(env, t, t', now, req.clientId,
                             Presented(claims.value.uid, claims.value.email, req.wanted.scope, req.wanted.offline,
                                       Some(claims.value.lastAuthAt), req.wanted.keysJwe),
                             req.ttl.value, d, r.value)
  {
  }

  // ---------- The token endpoint ----------

  /** What a request presents, be it a code, a refresh token or an assertion. */
  datatype Presented = Presented(
    userId: Uid,
    email: string,
    scope: ScopeSet,
    offline: bool,
    authAt: Option<nat>,
    keysJwe: Option<string>)

  predicate Describes(p: Presented, client: ClientId, g: Grant) {
    && g.clientId == client && g.userId == p.userId && g.email == p.email && g.scope == p.scope
    && g.offline == p.offline && g.authAt == p.authAt && g.keysJwe == p.keysJwe
  }

  predicate ClientIsGenuine(env: Env, req: TokenRequest) {
    && req.clientId in env.clients
    && var client := env.clients[req.clientId];
       if client.publicClient then req.clientSecret.None?
       else && req.clientSecret.Some? && client.hashedSecret.Some?
            && (|| env.hash(req.clientSecret.value) == client.hashedSecret.value
                || Some(env.hash(req.clientSecret.value)) == client.hashedSecretPrevious)
  }

  /** The code is the client's own and alive, and the verifier is the one its challenge
      asks for, or is absent like the challenge. */
  predicate CodeIsGood(env: Env, t: Tables, now: nat, client: Client, code: string, verifier: Option<string>) {
    && env.hash(code) in t.codes
    && var row := t.codes[env.hash(code)];
       && row.grant.clientId == client.id && now <= row.createdAt + env.codeTtl
       && (verifier.Some? ==> client.publicClient)
       && if row.codeChallenge == None || row.codeChallenge == Some("") then verifier.None?
          else && row.codeChallengeMethod == Some("S256") && verifier.Some?
               && row.codeChallenge.value == PkceHash(env, verifier.value)
  }

  ghost predicate TokenRequestAccepted(env: Env, t: Tables, now: nat, req: TokenRequest, claims: Option<Claims>) {
    && TtlSchema(env, req.ttl) && ClientIsGenuine(env, req)
    && var client := env.clients[req.clientId];
       match req.params
       case AuthorizationCode(code, verifier) => CodeIsGood(env, t, now, client, code, verifier)
       case RefreshGrant(token, scope) =>
         && env.hash(token) in t.refreshTokens
         && t.refreshTokens[env.hash(token)].clientId == client.id
         && Contains(env.implies, t.refreshTokens[env.hash(token)].scope, scope)
       case FxaCredentials(wanted) =>
         && client.canGrant && client.publicClient && claims.Some?
         && ("AAL2" in wanted.acrValues ==> claims.value.aal.Some? && claims.value.aal.value >= 2)
         && Approved(env, claims.value, client, wanted.scope)
  }

  /** Of a refresh token the owner is presented, with the scope asked for now, and neither
      offline access nor what belongs to the first grant. */
  ghost function PresentedBy(env: Env, t: Tables, req: TokenRequest, claims: Option<Claims>): Presented
    requires req.params.AuthorizationCode? ==> env.hash(req.params.code) in t.codes
    requires req.params.RefreshGrant? ==> env.hash(req.params.refreshToken) in t.refreshTokens
    requires req.params.FxaCredentials? ==> claims.Some?
  {
    match req.params
    case AuthorizationCode(code, _) =>
      var g := t.codes[env.hash(code)].grant;
      Presented(g.userId, g.email, g.scope, g.offline, g.authAt, g.keysJwe)
    case RefreshGrant(token, scope) =>
      var row := t.refreshTokens[env.hash(token)];
      Presented(row.userId, row.email, scope, false, None, None)
    case FxaCredentials(wanted) =>
      Presented(claims.value.uid, claims.value.email, wanted.scope, wanted.offline,
                Some(claims.value.lastAuthAt), wanted.keysJwe)
  }

  /** The answer and the two token tables after a successful request: one access token of
      the client and the presented user, and a refresh token if and only if what was
      presented is offline. */
  ghost predicate AnswersAndStores(env: Env, t: Tables, t': Tables, now: nat, client: ClientId, p: Presented,
                                   ttl: real, d: Draws, r: Response) {
    && r.Tokens? && r.accessToken == d.access && r.scope == p.scope && r.expiresIn == ttl
    && r.keysJwe == p.keysJwe
    && (r.authAt == p.authAt || (r.authAt.None? && p.authAt == Some(0)))
    && (p.authAt == Some(0) ==> r.authAt.None?)
    && (r.hasIdToken <==> Covers(env.implies, p.scope, "openid"))
    && (r.refreshToken.Some? <==> p.offline)
    && (r.refreshToken.Some? ==> r.refreshToken.value == d.refresh)
    && AccessTokensAfter(env, t, t', now, client, p, ttl, d)
    && RefreshTokensAfter(env, t, t', now, client, p, d)
  }

  ghost predicate AccessTokensAfter(env: Env, t: Tables, t': Tables, now: nat, client: ClientId, p: Presented,
                                    ttl: real, d: Draws) {
    var h := env.hash(d.access);
    && t'.tokens.Keys == t.tokens.Keys + {h}
    && (forall k :: k in t.tokens && k != h ==> t'.tokens[k] == t.tokens[k])
    && var row := t'.tokens[h];
       && row.clientId == client && row.userId == p.userId && row.email == p.email && row.scope == p.scope
       && row.createdAt == now && row.expiresAt == now + (ttl * 1000.0).Floor
  }

  ghost predicate RefreshTokensAfter(env: Env, t: Tables, t': Tables, now: nat, client: ClientId, p: Presented,
                                     d: Draws) {
    var h := env.hash(d.refresh);
    && t'.refreshTokens.Keys == t.refreshTokens.Keys + (if p.offline then {h} else {})
    && (p.offline ==>
          var row := t'.refreshTokens[h];
          && row.clientId == client && row.userId == p.userId && row.email == p.email && row.scope == p.scope
          && row.createdAt == now && row.lastUsedAt == now)
  }

  lemma GenuineClient(env: Env, req: TokenRequest)
    ensures AuthenticateClient(env, req.clientId, req.clientSecret).Ok? <==> ClientIsGenuine(env, req)
    ensures ClientIsGenuine(env, req) ==>
              AuthenticateClient(env, req.clientId, req.clientSecret) == Ok(env.clients[req.clientId])
  {
  }

  /** A token request is accepted if and only if the lifetime is allowed, the client is
      genuine, and what it presents is good. */
  lemma TokenRequestAnswer(env: Env, t: Tables, now: nat, req: TokenRequest, claims: Option<Claims>, d: Draws)
    ensures TokenEndpoint(env, t, now, req, claims, d).1.Ok? <==> TokenRequestAccepted(env, t, now, req, claims)
  {
    GenuineClient(env, req);
    if ClientIsGenuine(env, req) && req.params.FxaCredentials? && claims.Some? {
      GrantCheckMeaning(env, claims.value, env.clients[req.clientId], req.params.wanted);
    }
  }

  /** Every accepted token request answers with, and stores, what was presented; the code
      is gone and nothing else is; the refresh token notes its use if the last one noted
      is long enough ago. */
  lemma TokenRequestStores(env: Env, t: Tables, now: nat, req: TokenRequest, claims: Option<Claims>, d: Draws)
    requires WellFormed(env) && TokenEndpoint(env, t, now, req, claims, d).1.Ok?
    ensures TokenRequestAccepted(env, t, now, req, claims)
    ensures var (t', r) := TokenEndpoint(env, t, now, req, claims, d);
            && AnswersAndStores(env, t, t', now, req.clientId, PresentedBy(env, t, req, claims), req.ttl, d, r.value)
            && t'.codes == (if req.params.AuthorizationCode? then t.codes - {env.hash(req.params.code)} else t.codes)
            && (forall k :: k in t.refreshTokens &&
                            !(PresentedBy(env, t, req, claims).offline && k == env.hash(d.refresh)) ==>
                  t'.refreshTokens[k] == Noted(env, now, t.refreshTokens[k],
                                               req.params.RefreshGrant? && k == env.hash(req.params.refreshToken)))
  {
    TokenRequestAnswer(env, t, now, req, claims, d);
    GenuineClient(env, req);
    match req.params {
      case AuthorizationCode(_, _) =>
      case RefreshGrant(_, _) => RefreshStores(env, t, now, req, claims, d);
      case FxaCredentials(_) =>
    }
  }

  function Noted(env: Env, now: nat, row: RefreshToken, used: bool): RefreshToken {
    if used && now - row.lastUsedAt > env.updateAfter then row.(lastUsedAt := now) else row
  }

  lemma RefreshStores(env: Env, t: Tables, now: nat, req: TokenRequest, claims: Option<Claims>, d: Draws)
    requires TokenEndpoint(env, t, now, req, claims, d).1.Ok? && req.params.RefreshGrant?
    requires AuthenticateClient(env, req.clientId, req.clientSecret) == Ok(env.clients[req.clientId])
    requires req.clientId in env.clients && env.clients[req.clientId].id == req.clientId
    requires TokenRequestAccepted(env, t, now, req, claims)
    ensures var (t', r) := TokenEndpoint(env, t, now, req, claims, d);
            && AnswersAndStores(env, t, t', now, req.clientId, PresentedBy(env, t, req, claims), req.ttl, d, r.value)
            && t'.codes == t.codes
            && (forall k :: k in t.refreshTokens ==>
                  t'.refreshTokens[k] == Noted(env, now, t.refreshTokens[k], k == env.hash(req.params.refreshToken)))
  {
  }

  // ---------- Why a request is refused ----------

  /** The errors of a code exchange by a genuine client, told by what is wrong. */
  lemma ExchangeErrors(env: Env, t: Tables, now: nat, req: TokenRequest, claims: Option<Claims>, d: Draws)
    requires TtlSchema(env, req.ttl) && ClientIsGenuine(env, req) && req.params.AuthorizationCode?
    ensures var r := TokenEndpoint(env, t, now, req, claims, d).1;
            var client := env.clients[req.clientId];
            var unasked := req.params.codeVerifier.Some? && !client.publicClient;
            var h := env.hash(req.params.code);
            && (r == Err(NotPublicClient) <==> unasked)
            && (r == Err(UnknownCode) <==> !unasked && h !in t.codes)
            && (r == Err(MismatchCode) <==> !unasked && h in t.codes && t.codes[h].grant.clientId != client.id)
            && (r == Err(ExpiredCode) <==>
                  && !unasked && h in t.codes && t.codes[h].grant.clientId == client.id
                  && now > t.codes[h].createdAt + env.codeTtl)
            && (r.Err? && !unasked && h in t.codes && t.codes[h].grant.clientId == client.id
                && now <= t.codes[h].createdAt + env.codeTtl ==>
                  r.error in {MissingPkceParameters, MismatchCodeChallenge})
  {
    GenuineClient(env, req);
  }

  /** The errors of a refresh by a genuine client: a token of another client is as good as
      none, and too wide a scope is answered with what is too much. */
  lemma RefreshErrors(env: Env, t: Tables, now: nat, req: TokenRequest, claims: Option<Claims>, d: Draws)
    requires TtlSchema(env, req.ttl) && ClientIsGenuine(env, req) && req.params.RefreshGrant?
    ensures var r := TokenEndpoint(env, t, now, req, claims, d).1;
            var h := env.hash(req.params.refreshToken);
            var own := h in t.refreshTokens && t.refreshTokens[h].clientId == env.clients[req.clientId].id;
            && (r == Err(InvalidToken) <==> !own)
            && (r.Err? && own ==>
                  && r.error.InvalidScopes?
                  && r.error.scopes ==
                     set s | s in req.params.scope && !Covers(env.implies, t.refreshTokens[h].scope, s))
  {
    GenuineClient(env, req);
  }

  // ---------- Minted tokens stay ----------

  /** The row of a minted token. */
  predicate Stored(t: Tables, token: Hash, owner: Owner, r: Right) {
    if r.offline then token in t.refreshTokens && RefreshOwner(t.refreshTokens[token]) == owner
                      && t.refreshTokens[token].scope == r.scope
    else token in t.tokens && AccessOwner(t.tokens[token]) == owner && t.tokens[token].scope == r.scope
  }

  /** The action destroys this token or revokes its owner's. */
  predicate TakesAway(a: Action, token: Hash, owner: Owner, r: Right) {
    || (a == DestroyAccess(token) && !r.offline)
    || (a == DestroyRefresh(token) && r.offline)
    || (a == DeleteAuthorization(owner) && IsNamed(owner))
  }

  /** Every token a step logs as minted is stored by it. */
  lemma MintsAreStored(env: Env, s: System, a: Action, i: nat)
    requires WellFormed(env) && Fresh(env, s, a)
    requires |s.log| <= i < |Step(env, s, a).log| && Step(env, s, a).log[i].Minted?
    ensures var e := Step(env, s, a).log[i];
            Stored(Step(env, s, a).tables, e.token, e.owner, e.right) && e.token in Step(env, s, a).used
  {
    if a.Authorize? {
      AuthorizationMintsAreStored(env, s, a, i);
    } else if a.RequestToken? {
      RequestMintsAreStored(env, s, a, i);
    }
  }

  lemma AuthorizationMintsAreStored(env: Env, s: System, a: Action, i: nat)
    requires Fresh(env, s, a) && a.Authorize?
    requires |s.log| <= i < |Step(env, s, a).log| && Step(env, s, a).log[i].Minted?
    ensures var e := Step(env, s, a).log[i];
            Stored(Step(env, s, a).tables, e.token, e.owner, e.right) && e.token in Step(env, s, a).used
  {
  }

  lemma RequestMintsAreStored(env: Env, s: System, a: Action, i: nat)
    requires Fresh(env, s, a) && a.RequestToken?
    requires |s.log| <= i < |Step(env, s, a).log| && Step(env, s, a).log[i].Minted?
    ensures var e := Step(env, s, a).log[i];
            Stored(Step(env, s, a).tables, e.token, e.owner, e.right) && e.token in Step(env, s, a).used
  {
    var g := ClaimedGrant(env, s, a.treq, a.claims);
    TokenStepTables(env, s, a.treq, a.claims, a.draws);
    assert g.Some?;
    var events := ClaimEvents(env, s.now, a.treq.clientId, a.treq.params, a.claims, g.value);
    var minted := MintEvents(env, g.value, a.draws);
    assert Step(env, s, a).log == s.log + (events + minted);
    assert i - |s.log| >= |events|;
    assert Step(env, s, a).log[i] == minted[i - |s.log| - |events|];
  }

  lemma StepKeepsStored(env: Env, s: System, a: Action, token: Hash, owner: Owner, r: Right)
    requires Fresh(env, s, a) && token in s.used && Stored(s.tables, token, owner, r)
    requires !TakesAway(a, token, owner, r)
    ensures Stored(Step(env, s, a).tables, token, owner, r)
  {
    if a.Authorize? {
      AuthorizationKeepsStored(env, s, a, token, owner, r);
    } else if a.RequestToken? {
      RequestKeepsStored(env, s, a, token, owner, r);
    }
  }

  lemma AuthorizationKeepsStored(env: Env, s: System, a: Action, token: Hash, owner: Owner, r: Right)
    requires Fresh(env, s, a) && token in s.used && Stored(s.tables, token, owner, r) && a.Authorize?
    ensures Stored(Step(env, s, a).tables, token, owner, r)
  {
  }

  lemma RequestKeepsStored(env: Env, s: System, a: Action, token: Hash, owner: Owner, r: Right)
    requires Fresh(env, s, a) && token in s.used && Stored(s.tables, token, owner, r) && a.RequestToken?
    ensures Stored(Step(env, s, a).tables, token, owner, r)
  {
    TokenStepTables(env, s, a.treq, a.claims, a.draws);
  }

  /** On every run with fresh random values: a token that is minted is in its table, with
      its owner and scope, for as long as nobody destroys it or revokes its owner's. */
  lemma {:induction false} MintedTokensStay(env: Env, s: System, a: Action, i: nat, after: seq<Action>)
    requires WellFormed(env) && Fresh(env, s, a) && FreshRun(env, Step(env, s, a), after)
    requires |s.log| <= i < |Step(env, s, a).log| && Step(env, s, a).log[i].Minted?
    requires var e := Step(env, s, a).log[i];
             forall k :: 0 <= k < |after| ==> !TakesAway(after[k], e.token, e.owner, e.right)
    ensures var e := Step(env, s, a).log[i];
            Stored(Run(env, Step(env, s, a), after).tables, e.token, e.owner, e.right)
  {
    MintsAreStored(env, s, a, i);
    var e := Step(env, s, a).log[i];
    RunKeepsStored(env, Step(env, s, a), after, e.token, e.owner, e.right);
  }

  lemma {:induction false} RunKeepsStored(env: Env, s: System, actions: seq<Action>, token: Hash, owner: Owner,
                                          r: Right)
    requires FreshRun(env, s, actions) && token in s.used && Stored(s.tables, token, owner, r)
    requires forall k :: 0 <= k < |actions| ==> !TakesAway(actions[k], token, owner, r)
    ensures Stored(Run(env, s, actions).tables, token, owner, r)
    decreases |actions|
  {
    if actions == [] {
    } else {
      StepKeepsStored(env, s, actions[0], token, owner, r);
      RunKeepsStored(env, Step(env, s, actions[0]), actions[1..], token, owner, r);
    }
  }
}

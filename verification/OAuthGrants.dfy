/** What the authorization and token endpoints answer and how they change the
    tables, as functions of the request, the tables and the clock. */
module OAuthGrants {
  import opened Wrappers
  import opened Scopes
  import opened OAuthStore
  import UrlSafeBase64

  /** Configuration, the fixed client and scope tables, and the functions this
      model leaves uninterpreted. */
  datatype Env = Env(
    clients: map<ClientId, Client>,
    scopedKeys: map<Scope, bool>,
    implies: Implication,
    hash: string -> Hash,
    sha256: string -> seq<UrlSafeBase64.Octet>,
    isLocalHost: string -> bool,
    localRedirects: bool,
    maxTtl: nat,
    codeTtl: nat,
    updateAfter: nat,
    expiryEpoch: int)

  /** Clients are filed under their own id, and scopes are preordered. */
  ghost predicate WellFormed(env: Env) {
    && Preorder(env.implies)
    && (forall c :: c in env.clients ==> env.clients[c].id == c)
  }

  datatype Error =
    | UnknownClient
    | IncorrectSecret
    | InvalidRequestParameter
    | IncorrectRedirect
    | InvalidAssertion
    | MismatchAcr
    | InvalidScopes(scopes: ScopeSet)
    | InvalidResponseType
    | InvalidGrantType
    | NotPublicClient
    | MissingPkceParameters
    | UnknownCode
    | MismatchCode
    | ExpiredCode
    | MismatchCodeChallenge
    | InvalidToken
    | ExpiredToken
    | Unexpected

  /** The claims of a verified identity assertion. */
  datatype Claims = Claims(
    uid: Uid,
    email: string,
    aal: Option<nat>,
    tokenVerified: bool,
    lastAuthAt: nat)

  datatype GrantRequest = GrantRequest(
    scope: ScopeSet,
    acrValues: seq<string>,
    offline: bool,
    keysJwe: Option<string>)

  datatype ResponseType = ResponseCode | ResponseToken

  datatype AuthorizationRequest = AuthorizationRequest(
    clientId: ClientId,
    redirectUri: Option<string>,
    responseType: ResponseType,
    ttl: Option<real>,
    codeChallengeMethod: Option<string>,
    codeChallenge: Option<string>,
    wanted: GrantRequest)

  datatype TokenRequest = TokenRequest(
    clientId: ClientId,
    clientSecret: Option<string>,
    ttl: real,
    params: GrantParameters)

  datatype GrantParameters =
    | AuthorizationCode(code: string, codeVerifier: Option<string>)
    | RefreshGrant(refreshToken: string, scope: ScopeSet)
    | FxaCredentials(wanted: GrantRequest)

  datatype Response =
    | CodeIssued(code: string, redirect: string)
    | Tokens(
        accessToken: string,
        scope: ScopeSet,
        expiresIn: real,
        authAt: Option<nat>,
        keysJwe: Option<string>,
        refreshToken: Option<string>,
        hasIdToken: bool)

  /** The values the random source hands out during one request. */
  datatype Draws = Draws(code: string, access: string, refresh: string)

  const UNTRUSTED_CLIENT_ALLOWED_SCOPES: ScopeSet :=
    {"openid", "profile:uid", "profile:email", "profile:display_name"}

  const SCOPE_OPENID: ScopeSet := {"openid"}

  const S256 := "S256"

  // ---------- Approving a grant ----------

  function KeyBearing(env: Env, scope: ScopeSet): ScopeSet {
    set s | s in scope && s in env.scopedKeys && env.scopedKeys[s]
  }

  function GrantError(env: Env, claims: Claims, client: Client, wanted: GrantRequest): Option<Error> {
    var untrusted := Difference(env.implies, wanted.scope, UNTRUSTED_CLIENT_ALLOWED_SCOPES);
    var keys := KeyBearing(env, wanted.scope);
    var forbidden := Difference(env.implies, keys, client.allowedScopes);
    if "AAL2" in wanted.acrValues && !(claims.aal.Some? && claims.aal.value >= 2) then Some(MismatchAcr)
    else if !client.trusted && untrusted != {} then Some(InvalidScopes(untrusted))
    else if keys != {} && forbidden != {} then Some(InvalidScopes(forbidden))
    else if keys != {} && !claims.tokenVerified then Some(InvalidAssertion)
    else None
  }

  function GrantOf(claims: Claims, client: Client, wanted: GrantRequest): Grant {
    Grant(client.id, claims.uid, claims.email, wanted.scope, wanted.offline,
          Some(claims.lastAuthAt), wanted.keysJwe)
  }

  /** When a client may have these scopes for the user of these claims. */
  ghost predicate Approved(env: Env, claims: Claims, client: Client, scope: ScopeSet) {
    && (client.trusted || Contains(env.implies, UNTRUSTED_CLIENT_ALLOWED_SCOPES, scope))
    && (forall s :: s in KeyBearing(env, scope) ==>
          claims.tokenVerified && Covers(env.implies, client.allowedScopes, s))
  }

  /** The chain of checks approves exactly the requests whose assurance level was
      reached and whose scopes the client may have. */
  lemma GrantCheckMeaning(env: Env, claims: Claims, client: Client, wanted: GrantRequest)
    ensures GrantError(env, claims, client, wanted).None? <==>
            && ("AAL2" in wanted.acrValues ==> claims.aal.Some? && claims.aal.value >= 2)
            && Approved(env, claims, client, wanted.scope)
  {
    DifferenceEmpty(env.implies, wanted.scope, UNTRUSTED_CLIENT_ALLOWED_SCOPES);
    var keys := KeyBearing(env, wanted.scope);
    DifferenceEmpty(env.implies, keys, client.allowedScopes);
    if keys != {} {
      var k :| k in keys;
      assert k in KeyBearing(env, wanted.scope);
    }
  }

  lemma DifferenceEmpty(implies: Implication, a: ScopeSet, b: ScopeSet)
    ensures Difference(implies, a, b) == {} <==> Contains(implies, b, a)
  {
    if Difference(implies, a, b) == {} {
      forall x | x in a
        ensures Covers(implies, b, x)
      {
        assert x !in Difference(implies, a, b);
      }
    }
  }

  // ---------- Minting tokens ----------

  function ExpiresIn(env: Env, ttl: Option<real>): real {
    if ttl.Some? && ttl.value != 0.0 then ttl.value else (env.maxTtl / 1000) as real
  }

  function Mint(env: Env, t: Tables, now: nat, grant: Grant, ttl: Option<real>, draws: Draws): (Tables, Response) {
    var access := AccessToken(grant.clientId, grant.userId, grant.email, grant.scope,
                              now, now + Lifetime(ttl, env.maxTtl));
    var refresh := RefreshToken(grant.clientId, grant.userId, grant.email, grant.scope, now, now);
    var t' := t.(tokens := t.tokens[env.hash(draws.access) := access],
                 refreshTokens := if grant.offline
                                  then t.refreshTokens[env.hash(draws.refresh) := refresh]
                                  else t.refreshTokens);
    (t', Tokens(draws.access, grant.scope, ExpiresIn(env, ttl),
                if grant.authAt == Some(0) then None else grant.authAt,
                grant.keysJwe,
                if grant.offline then Some(draws.refresh) else None,
                Contains(env.implies, grant.scope, SCOPE_OPENID)))
  }

  // ---------- The authorization endpoint ----------

  /** A parameter that is given and not the empty string. */
  predicate Given(p: Option<string>) {
    p.Some? && p.value != ""
  }

  /** The facts the request schema establishes before the handler runs. */
  predicate AuthorizationSchema(env: Env, req: AuthorizationRequest) {
    && (req.codeChallengeMethod.Some? ==> req.codeChallengeMethod.value == S256)
    && (req.codeChallenge.Some? ==> |req.codeChallenge.value| == 43 && req.codeChallengeMethod.Some?)
    && (req.responseType.ResponseToken? ==>
          && req.codeChallengeMethod.None? && req.codeChallenge.None? && req.wanted.keysJwe.None?
          && req.ttl.Some? && TtlSchema(env, req.ttl.value))
  }

  predicate TtlSchema(env: Env, ttl: real) {
    0.0 < ttl <= env.maxTtl as real / 1000.0
  }

  function Redirect(client: Client, req: AuthorizationRequest): string {
    if Given(req.redirectUri) then req.redirectUri.value else client.redirectUri
  }

  function PkceError(client: Client, req: AuthorizationRequest): Option<Error> {
    if client.publicClient then
      if !Given(req.codeChallengeMethod) || !Given(req.codeChallenge)
      then Some(MissingPkceParameters) else None
    else if Given(req.codeChallengeMethod) || Given(req.codeChallenge)
    then Some(NotPublicClient) else None
  }

  function AuthorizationError(env: Env, req: AuthorizationRequest, claims: Option<Claims>): Option<Error> {
    if !AuthorizationSchema(env, req) then Some(InvalidRequestParameter)
    else if claims.None? then Some(InvalidAssertion)
    else if req.clientId !in env.clients then Some(UnknownClient)
    else
      var client := env.clients[req.clientId];
      var redirect := Redirect(client, req);
      if redirect != client.redirectUri && !(env.localRedirects && env.isLocalHost(redirect))
      then Some(IncorrectRedirect)
      else if GrantError(env, claims.value, client, req.wanted).Some?
      then GrantError(env, claims.value, client, req.wanted)
      else if req.responseType.ResponseCode? then PkceError(client, req)
      else if !client.canGrant then Some(InvalidResponseType)
      else None
  }

  function AuthorizationEndpoint(env: Env, t: Tables, now: nat, req: AuthorizationRequest,
                                 claims: Option<Claims>, draws: Draws): (Tables, Result<Response, Error>) {
    var e := AuthorizationError(env, req, claims);
    if e.Some? then (t, Err(e.value))
    else
      var client := env.clients[req.clientId];
      var grant := GrantOf(claims.value, client, req.wanted);
      if req.responseType.ResponseCode? then
        var code := Code(grant, req.codeChallengeMethod, req.codeChallenge, now);
        (t.(codes := t.codes[env.hash(draws.code) := code]),
         Ok(CodeIssued(draws.code, Redirect(client, req))))
      else
        var (t', r) := Mint(env, t, now, grant, req.ttl, draws);
        (t', Ok(r))
  }

  // ---------- The token endpoint ----------

  function AuthenticateClient(env: Env, id: ClientId, secret: Option<string>): Result<Client, Error> {
    if id !in env.clients then Err(UnknownClient)
    else
      var client := env.clients[id];
      if client.publicClient then
        if secret.Some? then Err(InvalidRequestParameter) else Ok(client)
      else if secret.None? then Err(InvalidRequestParameter)
      else if client.hashedSecret.None? then Err(Unexpected)
      else if env.hash(secret.value) == client.hashedSecret.value then Ok(client)
      else if client.hashedSecretPrevious == Some(env.hash(secret.value)) then Ok(client)
      else Err(IncorrectSecret)
  }

  function PkceHash(env: Env, verifier: string): string {
    UrlSafeBase64.UrlSafe(env.sha256(verifier))
  }

  function ExchangeOutcome(env: Env, t: Tables, now: nat, client: Client,
                           code: string, verifier: Option<string>): Result<Code, Error> {
    if verifier.Some? && !client.publicClient then Err(NotPublicClient)
    else if env.hash(code) !in t.codes then Err(UnknownCode)
    else
      var row := t.codes[env.hash(code)];
      if row.grant.clientId != client.id then Err(MismatchCode)
      else if now > row.createdAt + env.codeTtl then Err(ExpiredCode)
      else if Given(row.codeChallenge) && row.codeChallengeMethod != Some(S256) then Err(MismatchCodeChallenge)
      else if Given(row.codeChallenge) && verifier.None? then Err(MissingPkceParameters)
      else if Given(row.codeChallenge) && row.codeChallenge.value != PkceHash(env, verifier.value)
      then Err(MismatchCodeChallenge)
      else if verifier.Some? && !Given(row.codeChallenge) then Err(MismatchCodeChallenge)
      else Ok(row)
  }

  function RefreshOutcome(env: Env, t: Tables, client: Client, token: string, scope: ScopeSet)
    : Result<RefreshToken, Error> {
    if env.hash(token) !in t.refreshTokens then Err(InvalidToken)
    else
      var row := t.refreshTokens[env.hash(token)];
      if row.clientId != client.id then Err(InvalidToken)
      else if !Contains(env.implies, row.scope, scope)
      then Err(InvalidScopes(Difference(env.implies, scope, row.scope)))
      else Ok(row.(scope := scope))
  }

  /** The stored row remembers its use, but only once per `updateAfter`. */
  function Touch(env: Env, t: Tables, now: nat, h: Hash): Tables
    requires h in t.refreshTokens
  {
    if now - t.refreshTokens[h].lastUsedAt > env.updateAfter
    then t.(refreshTokens := t.refreshTokens[h := t.refreshTokens[h].(lastUsedAt := now)])
    else t
  }

  function GrantOfRefresh(row: RefreshToken): Grant {
    Grant(row.clientId, row.userId, row.email, row.scope, false, None, None)
  }

  function AssertionOutcome(env: Env, client: Client, claims: Option<Claims>, wanted: GrantRequest)
    : Result<Grant, Error> {
    if !client.canGrant then Err(InvalidGrantType)
    else if !client.publicClient then Err(NotPublicClient)
    else if claims.None? then Err(InvalidAssertion)
    else
      var e := GrantError(env, claims.value, client, wanted);
      if e.Some? then Err(e.value) else Ok(GrantOf(claims.value, client, wanted))
  }

  /** The grant a token request ends up with, and the tables after it was claimed. */
  function ClaimGrant(env: Env, t: Tables, now: nat, client: Client, params: GrantParameters,
                      claims: Option<Claims>): (Tables, Result<Grant, Error>) {
    match params
    case AuthorizationCode(code, verifier) =>
      (match ExchangeOutcome(env, t, now, client, code, verifier)
       case Err(e) => (t, Err(e))
       case Ok(row) => (t.(codes := t.codes - {env.hash(code)}), Ok(row.grant)))
    case RefreshGrant(token, scope) =>
      (match RefreshOutcome(env, t, client, token, scope)
       case Err(e) => (t, Err(e))
       case Ok(row) => (Touch(env, t, now, env.hash(token)), Ok(GrantOfRefresh(row))))
    case FxaCredentials(wanted) =>
      (t, AssertionOutcome(env, client, claims, wanted))
  }

  function TokenEndpoint(env: Env, t: Tables, now: nat, req: TokenRequest,
                         claims: Option<Claims>, draws: Draws): (Tables, Result<Response, Error>) {
    if !TtlSchema(env, req.ttl) then (t, Err(InvalidRequestParameter))
    else
      match AuthenticateClient(env, req.clientId, req.clientSecret)
      case Err(e) => (t, Err(e))
      case Ok(client) =>
        match ClaimGrant(env, t, now, client, req.params, claims)
        case (t', Err(e)) => (t', Err(e))
        case (t', Ok(grant)) =>
          var (t'', r) := Mint(env, t', now, grant, Some(req.ttl), draws);
          (t'', Ok(r))
  }

  // ---------- Checking an access token ----------

  datatype TokenInfo = TokenInfo(user: Uid, clientId: ClientId, scope: ScopeSet, email: Option<string>)

  const SCOPES_REQUIRING_EMAIL: ScopeSet := {"profile:email", "oauth"}

  function Verify(env: Env, t: Tables, now: nat, token: string): Result<TokenInfo, Error> {
    var h := env.hash(token);
    if h !in t.tokens then Err(InvalidToken)
    else if t.tokens[h].expiresAt < now && t.tokens[h].expiresAt >= env.expiryEpoch then Err(ExpiredToken)
    else
      var row := t.tokens[h];
      Ok(TokenInfo(row.userId, row.clientId, row.scope,
                   if Intersects(env.implies, row.scope, SCOPES_REQUIRING_EMAIL) then Some(row.email) else None))
  }

  // ---------- What single requests guarantee ----------

  /** A refused request leaves every table as it was. */
  lemma RefusedAuthorizationChangesNothing(env: Env, t: Tables, now: nat, req: AuthorizationRequest,
                                           claims: Option<Claims>, draws: Draws)
    ensures var (t', r) := AuthorizationEndpoint(env, t, now, req, claims, draws); r.Err? ==> t' == t
  {
  }

  lemma RefusedTokenRequestChangesNothing(env: Env, t: Tables, now: nat, req: TokenRequest,
                                          claims: Option<Claims>, draws: Draws)
    ensures var (t', r) := TokenEndpoint(env, t, now, req, claims, draws); r.Err? ==> t' == t
  {
  }

  /** Every successful token request mints for the client that made it and, on an
      assertion, for the user of the verified claims. */
  lemma MintedForThePresenter(env: Env, t: Tables, now: nat, req: TokenRequest, claims: Option<Claims>, draws: Draws)
    requires WellFormed(env)
    requires TokenEndpoint(env, t, now, req, claims, draws).1.Ok?
    ensures var (t', r) := TokenEndpoint(env, t, now, req, claims, draws);
            && r.value.Tokens? && r.value.accessToken == draws.access
            && env.hash(draws.access) in t'.tokens
            && var row := t'.tokens[env.hash(draws.access)];
               && row.clientId == req.clientId && row.scope == r.value.scope && row.createdAt == now
               && (req.params.AuthorizationCode? ==>
                     && env.hash(req.params.code) in t.codes && env.hash(req.params.code) !in t'.codes
                     && row.userId == t.codes[env.hash(req.params.code)].grant.userId)
               && (req.params.FxaCredentials? ==>
                     && claims.Some? && row.userId == claims.value.uid
                     && Approved(env, claims.value, env.clients[req.clientId], row.scope))
               && (r.value.refreshToken.Some? ==>
                     && env.hash(draws.refresh) in t'.refreshTokens
                     && t'.refreshTokens[env.hash(draws.refresh)] ==
                        RefreshToken(row.clientId, row.userId, row.email, row.scope, now, now))
  {
    if req.params.FxaCredentials? {
      GrantCheckMeaning(env, claims.value, env.clients[req.clientId], req.params.wanted);
    }
  }

  /** Refreshing: the new access token belongs to the owner of the refresh token and
      has exactly the requested scope, which that token contains; no refresh token
      is minted and the stored one keeps everything but its time of last use. */
  lemma RefreshNarrows(env: Env, t: Tables, now: nat, req: TokenRequest, claims: Option<Claims>, draws: Draws)
    requires req.params.RefreshGrant?
    requires TokenEndpoint(env, t, now, req, claims, draws).1.Ok?
    ensures var (t', r) := TokenEndpoint(env, t, now, req, claims, draws);
            var h := env.hash(req.params.refreshToken);
            && h in t.refreshTokens
            && Contains(env.implies, t.refreshTokens[h].scope, req.params.scope)
            && r.value.refreshToken.None?
            && r.value.scope == req.params.scope
            && t'.codes == t.codes
            && t'.tokens == t.tokens[env.hash(draws.access) :=
                 AccessToken(t.refreshTokens[h].clientId, t.refreshTokens[h].userId, t.refreshTokens[h].email,
                             req.params.scope, now, now + Lifetime(Some(req.ttl), env.maxTtl))]
            && t'.refreshTokens.Keys == t.refreshTokens.Keys
            && (forall k :: k in t.refreshTokens ==>
                  && t'.refreshTokens[k].(lastUsedAt := t.refreshTokens[k].lastUsedAt) == t.refreshTokens[k]
                  && (k != h ==> t'.refreshTokens[k] == t.refreshTokens[k]))
  {
  }

  /** The lifetime reported to the client is the stored one, to the millisecond;
      and it never exceeds the configured maximum. */
  lemma ReportedLifetime(env: Env, t: Tables, now: nat, grant: Grant, ttl: Option<real>, draws: Draws)
    requires ttl.Some? ==> TtlSchema(env, ttl.value)
    ensures var (t', r) := Mint(env, t, now, grant, ttl, draws);
            var row := t'.tokens[env.hash(draws.access)];
            && row.createdAt <= row.expiresAt <= row.createdAt + env.maxTtl
            && (ttl.Some? ==>
                  row.expiresAt as real <= row.createdAt as real + r.expiresIn * 1000.0 < row.expiresAt as real + 1.0)
            && (ttl.None? ==>
                  row.expiresAt as real - 1000.0 < row.createdAt as real + r.expiresIn * 1000.0
                    <= row.expiresAt as real)
  {
    if ttl.Some? {
      var ms := ttl.value * 1000.0;
      assert 0.0 <= ms <= env.maxTtl as real;
      assert ms.Floor as real <= ms < ms.Floor as real + 1.0;
    } else {
      assert env.maxTtl == env.maxTtl / 1000 * 1000 + env.maxTtl % 1000;
    }
  }
}

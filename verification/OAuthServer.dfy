/** The endpoint handlers of the OAuth server as they run against the store. */
module OAuthServer {
  import opened Wrappers
  import opened Scopes
  import opened OAuthStore
  import opened OAuthGrants
  import opened OAuthAnswers

  /** The store was opened with the configuration the handlers use. */
  ghost predicate Serves(db: MemoryStore, env: Env) {
    db.hash == env.hash && db.maxTtl == env.maxTtl && db.clients == env.clients
  }

  method ValidateRequestedGrant(env: Env, claims: Claims, client: Client, wanted: GrantRequest)
    returns (r: Result<Grant, Error>)
    ensures r == var e := GrantError(env, claims, client, wanted);
                 if e.Some? then Err(e.value) else Ok(GrantOf(claims, client, wanted))
  {
    if "AAL2" in wanted.acrValues {
      if !(claims.aal.Some? && claims.aal.value >= 2) {
        return Err(MismatchAcr);
      }
    }
    if !client.trusted {
      var invalidScopes := Difference(env.implies, wanted.scope, UNTRUSTED_CLIENT_ALLOWED_SCOPES);
      if invalidScopes != {} {
        return Err(InvalidScopes(invalidScopes));
      }
    }
    var keyBearingScopes := CollectKeyBearing(env, wanted.scope);
    if keyBearingScopes != {} {
      var invalidScopes := Difference(env.implies, keyBearingScopes, client.allowedScopes);
      if invalidScopes != {} {
        return Err(InvalidScopes(invalidScopes));
      }
      if !claims.tokenVerified {
        return Err(InvalidAssertion);
      }
    }
    return Ok(GrantOf(claims, client, wanted));
  }

  /** Looks every requested scope up and keeps those that carry keys. */
  method CollectKeyBearing(env: Env, scope: ScopeSet) returns (keys: ScopeSet)
    ensures keys == KeyBearing(env, scope)
  {
    keys := {};
    var rest := scope;
    while rest != {}
      invariant rest <= scope
      invariant keys == KeyBearing(env, scope - rest)
      decreases |rest|
    {
      var s :| s in rest;
      if s in env.scopedKeys && env.scopedKeys[s] {
        keys := keys + {s};
      }
      rest := rest - {s};
    }
    assert scope - {} == scope;
  }

  method GenerateTokens(env: Env, db: MemoryStore, now: nat, grant: Grant, ttl: Option<real>, draws: Draws)
    returns (r: Response)
    requires Serves(db, env)
    modifies db
    ensures (db.State(), r) == Mint(env, old(db.State()), now, grant, ttl, draws)
  {
    var access := db.GenerateAccessToken(grant, ttl, now, draws.access);
    var expiresIn := if ttl.Some? && ttl.value != 0.0 then ttl.value
                     else ((access.expiresAt - now) / 1000) as real;
    var authAt := None;
    if grant.authAt.Some? && grant.authAt.value != 0 {
      authAt := grant.authAt;
    }
    var refreshToken := None;
    if grant.offline {
      db.GenerateRefreshToken(grant, now, draws.refresh);
      refreshToken := Some(draws.refresh);
    }
    r := Tokens(draws.access, access.scope, expiresIn, authAt, grant.keysJwe, refreshToken,
                Contains(env.implies, grant.scope, SCOPE_OPENID));
  }

  method Authorization(env: Env, db: MemoryStore, now: nat, req: AuthorizationRequest,
                       claims: Option<Claims>, draws: Draws) returns (r: Result<Response, Error>)
    requires Serves(db, env)
    modifies db
    ensures (db.State(), r) == AuthorizationEndpoint(env, old(db.State()), now, req, claims, draws)
    ensures r.Ok? <==> AuthorizationAccepted(env, req, claims)
    ensures r.Ok? && r.value.CodeIssued? ==>
              || r.value.redirect == env.clients[req.clientId].redirectUri
              || (env.localRedirects && env.isLocalHost(r.value.redirect))
  {
    AuthorizationAnswer(env, db.State(), now, req, claims, draws);
    if !AuthorizationSchema(env, req) {
      return Err(InvalidRequestParameter);
    }
    if claims.None? {
      return Err(InvalidAssertion);
    }
    if req.clientId !in db.clients {
      return Err(UnknownClient);
    }
    var client := db.clients[req.clientId];
    var redirect := if Given(req.redirectUri) then req.redirectUri.value else client.redirectUri;
    if redirect != client.redirectUri {
      if !(env.localRedirects && env.isLocalHost(redirect)) {
        return Err(IncorrectRedirect);
      }
    }
    var grant := ValidateRequestedGrant(env, claims.value, client, req.wanted);
    if grant.Err? {
      return Err(grant.error);
    }
    if req.responseType.ResponseCode? {
      r := GenerateAuthorizationCode(env, db, now, client, req, redirect, grant.value, draws);
    } else {
      if !client.canGrant {
        return Err(InvalidResponseType);
      }
      var tokens := GenerateTokens(env, db, now, grant.value, req.ttl, draws);
      r := Ok(tokens);
    }
  }

  method GenerateAuthorizationCode(env: Env, db: MemoryStore, now: nat, client: Client,
                                   req: AuthorizationRequest, redirect: string, grant: Grant, draws: Draws)
    returns (r: Result<Response, Error>)
    requires Serves(db, env)
    modifies db
    ensures var e := PkceError(client, req);
            if e.Some? then r == Err(e.value) && db.State() == old(db.State())
            else
              && r == Ok(CodeIssued(draws.code, redirect))
              && db.State() == old(db.State()).(codes := old(db.codes)[env.hash(draws.code) :=
                   Code(grant, req.codeChallengeMethod, req.codeChallenge, now)])
  {
    if client.publicClient {
      if !Given(req.codeChallengeMethod) || !Given(req.codeChallenge) {
        return Err(MissingPkceParameters);
      }
    } else {
      if Given(req.codeChallengeMethod) || Given(req.codeChallenge) {
        return Err(NotPublicClient);
      }
    }
    var code := db.GenerateCode(grant, req.codeChallengeMethod, req.codeChallenge, now, draws.code);
    return Ok(CodeIssued(code, redirect));
  }

  method Token(env: Env, db: MemoryStore, now: nat, req: TokenRequest, claims: Option<Claims>, draws: Draws)
    returns (r: Result<Response, Error>)
    requires Serves(db, env)
    modifies db
    ensures (db.State(), r) == TokenEndpoint(env, old(db.State()), now, req, claims, draws)
    ensures r.Ok? <==> TokenRequestAccepted(env, old(db.State()), now, req, claims)
    ensures WellFormed(env) && r.Ok? ==>
              AnswersAndStores(env, old(db.State()), db.State(), now, req.clientId,
                               PresentedBy(env, old(db.State()), req, claims), req.ttl, draws, r.value)
  {
    TokenRequestAnswer(env, db.State(), now, req, claims, draws);
    if WellFormed(env) && TokenEndpoint(env, db.State(), now, req, claims, draws).1.Ok? {
      TokenRequestStores(env, db.State(), now, req, claims, draws);
    }
    if !TtlSchema(env, req.ttl) {
      return Err(InvalidRequestParameter);
    }
    var client := Authenticate(env, db, req);
    if client.Err? {
      return Err(client.error);
    }
    var grant;
    match req.params {
      case AuthorizationCode(code, verifier) =>
        grant := ValidateAuthorizationCodeGrant(env, db, now, client.value, code, verifier);
      case RefreshGrant(token, scope) =>
        grant := ValidateRefreshTokenGrant(env, db, now, client.value, token, scope);
      case FxaCredentials(wanted) =>
        grant := ValidateAssertionGrant(env, client.value, claims, wanted);
    }
    if grant.Err? {
      return Err(grant.error);
    }
    var tokens := GenerateTokens(env, db, now, grant.value, Some(req.ttl), draws);
    return Ok(tokens);
  }

  /** A public client comes without a secret, any other with its current or its previous
      one. */
  method Authenticate(env: Env, db: MemoryStore, req: TokenRequest) returns (r: Result<Client, Error>)
    requires Serves(db, env)
    ensures r == AuthenticateClient(env, req.clientId, req.clientSecret)
    ensures r.Ok? <==>
              && req.clientId in env.clients
              && var client := env.clients[req.clientId];
                 if client.publicClient then req.clientSecret.None?
                 else && req.clientSecret.Some? && client.hashedSecret.Some?
                      && Some(env.hash(req.clientSecret.value)) in {client.hashedSecret, client.hashedSecretPrevious}
    ensures r.Ok? ==> r.value == env.clients[req.clientId]
  {
    if req.clientId !in db.clients {
      return Err(UnknownClient);
    }
    var client := db.clients[req.clientId];
    if client.publicClient {
      if req.clientSecret.Some? {
        return Err(InvalidRequestParameter);
      }
      return Ok(client);
    }
    if req.clientSecret.None? {
      return Err(InvalidRequestParameter);
    }
    var submitted := env.hash(req.clientSecret.value);
    if client.hashedSecret.None? {
      return Err(Unexpected);
    }
    if submitted == client.hashedSecret.value {
      return Ok(client);
    }
    if client.hashedSecretPrevious.Some? {
      if submitted == client.hashedSecretPrevious.value {
        return Ok(client);
      }
    }
    return Err(IncorrectSecret);
  }

  method ValidateAuthorizationCodeGrant(env: Env, db: MemoryStore, now: nat, client: Client,
                                        code: string, verifier: Option<string>)
    returns (r: Result<Grant, Error>)
    requires Serves(db, env)
    modifies db
    ensures (db.State(), r) ==
            ClaimGrant(env, old(db.State()), now, client, AuthorizationCode(code, verifier), None)
  {
    var pkceHashValue := None;
    if verifier.Some? {
      if !client.publicClient {
        return Err(NotPublicClient);
      }
      pkceHashValue := Some(PkceHash(env, verifier.value));
    }
    var row := db.GetCode(code);
    if row.None? {
      return Err(UnknownCode);
    }
    var codeObj := row.value;
    if codeObj.grant.clientId != client.id {
      return Err(MismatchCode);
    }
    var expiresAt := codeObj.createdAt + env.codeTtl;
    if now > expiresAt {
      return Err(ExpiredCode);
    }
    if Given(codeObj.codeChallenge) {
      if codeObj.codeChallengeMethod != Some(S256) {
        return Err(MismatchCodeChallenge);
      }
      if pkceHashValue.None? {
        return Err(MissingPkceParameters);
      }
      if codeObj.codeChallenge.value != pkceHashValue.value {
        return Err(MismatchCodeChallenge);
      }
    }
    if verifier.Some? && !Given(codeObj.codeChallenge) {
      return Err(MismatchCodeChallenge);
    }
    db.RemoveCode(code);
    return Ok(codeObj.grant);
  }

  method ValidateRefreshTokenGrant(env: Env, db: MemoryStore, now: nat, client: Client,
                                   token: string, scope: ScopeSet) returns (r: Result<Grant, Error>)
    requires Serves(db, env)
    modifies db
    ensures (db.State(), r) == ClaimGrant(env, old(db.State()), now, client, RefreshGrant(token, scope), None)
  {
    var row := db.GetRefreshToken(env.hash(token));
    if row.None? {
      return Err(InvalidToken);
    }
    var tokObj := row.value;
    if tokObj.clientId != client.id {
      return Err(InvalidToken);
    }
    if !Contains(env.implies, tokObj.scope, scope) {
      return Err(InvalidScopes(Difference(env.implies, scope, tokObj.scope)));
    }
    tokObj := tokObj.(scope := scope);
    if now - tokObj.lastUsedAt > env.updateAfter {
      var _ := db.UsedRefreshToken(env.hash(token), now);
    }
    return Ok(GrantOfRefresh(tokObj));
  }

  /** Only a public client that may grant gets tokens on an assertion alone, for the user of
      the assertion and the scope asked for, if that is approved. */
  method ValidateAssertionGrant(env: Env, client: Client, claims: Option<Claims>, wanted: GrantRequest)
    returns (r: Result<Grant, Error>)
    ensures r == AssertionOutcome(env, client, claims, wanted)
    ensures r.Ok? <==>
              && client.canGrant && client.publicClient && claims.Some?
              && ("AAL2" in wanted.acrValues ==> claims.value.aal.Some? && claims.value.aal.value >= 2)
              && Approved(env, claims.value, client, wanted.scope)
    ensures r.Ok? ==> r.value.clientId == client.id && r.value.userId == claims.value.uid
    ensures r.Ok? ==> r.value.scope == wanted.scope
  {
    if !client.canGrant {
      return Err(InvalidGrantType);
    }
    if !client.publicClient {
      return Err(NotPublicClient);
    }
    if claims.None? {
      return Err(InvalidAssertion);
    }
    GrantCheckMeaning(env, claims.value, client, wanted);
    r := ValidateRequestedGrant(env, claims.value, client, wanted);
  }

  method VerifyToken(env: Env, db: MemoryStore, now: nat, token: string) returns (r: Result<TokenInfo, Error>)
    requires Serves(db, env)
    ensures r == Verify(env, db.State(), now, token)
    ensures r == Err(InvalidToken) <==> env.hash(token) !in db.tokens
    ensures r == Err(ExpiredToken) <==>
              env.hash(token) in db.tokens && env.expiryEpoch <= db.tokens[env.hash(token)].expiresAt < now
    ensures r.Err? ==> r.error in {InvalidToken, ExpiredToken}
    ensures r.Ok? ==>
              var row := db.tokens[env.hash(token)];
              && r.value.user == row.userId && r.value.clientId == row.clientId && r.value.scope == row.scope
              && r.value.email ==
                 if Covers(env.implies, row.scope, "profile:email") || Covers(env.implies, row.scope, "oauth")
                 then Some(row.email) else None
  {
    var row := db.GetAccessToken(env.hash(token));
    if row.None? {
      return Err(InvalidToken);
    }
    var tok := row.value;
    if tok.expiresAt < now {
      if tok.expiresAt >= env.expiryEpoch {
        return Err(ExpiredToken);
      }
    }
    var email := None;
    if Intersects(env.implies, tok.scope, SCOPES_REQUIRING_EMAIL) {
      email := Some(tok.email);
    }
    return Ok(TokenInfo(tok.userId, tok.clientId, tok.scope, email));
  }

  /** Removes the token named by an access token. */
  method DestroyAccessToken(env: Env, db: MemoryStore, token: string) returns (ok: bool)
    requires Serves(db, env)
    modifies db
    ensures ok == (env.hash(token) in old(db.tokens))
    ensures db.State() == old(db.State()).(tokens := old(db.tokens) - {env.hash(token)})
  {
    var row := db.GetAccessToken(env.hash(token));
    if row.None? {
      return false;
    }
    db.RemoveAccessToken(env.hash(token));
    return true;
  }

  /** Removes a refresh token named by its hash. */
  method DestroyRefreshToken(db: MemoryStore, h: Hash) returns (ok: bool)
    modifies db
    ensures ok == (h in old(db.refreshTokens))
    ensures db.State() == old(db.State()).(refreshTokens := old(db.refreshTokens) - {h})
  {
    var row := db.GetRefreshToken(h);
    if row.None? {
      return false;
    }
    db.RemoveRefreshToken(h);
    return true;
  }
}

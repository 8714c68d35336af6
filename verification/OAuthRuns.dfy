/** Whole runs of the OAuth server: any sequence of requests, destructions,
    revocations and clock ticks, each request being one atomic step. */
module OAuthRuns {
  import opened Wrappers
  import opened Scopes
  import opened OAuthStore
  import opened OAuthGrants

  datatype Action =
    | Authorize(areq: AuthorizationRequest, claims: Option<Claims>, draws: Draws)
    | RequestToken(treq: TokenRequest, claims: Option<Claims>, draws: Draws)
    | DestroyAccess(h: Hash)
    | DestroyRefresh(h: Hash)
    | DeleteAuthorization(owner: Owner)
    | Tick(ms: nat)

  /** What a run does that its safety speaks about. */
  datatype Event =
    | Granted(owner: Owner, claims: Claims, wanted: GrantRequest)
    | Issued(code: Hash, owner: Owner, at: nat, challenge: Option<string>)
    | Redeemed(code: Hash, client: ClientId, at: nat, verifierHash: Option<string>)
    | Minted(token: Hash, owner: Owner, right: Right)
    | Revoked(owner: Owner)

  /** What a row or a token conveys: a scope, and whether it can mint further tokens. */
  datatype Right = Right(scope: ScopeSet, offline: bool)

  function RightOf(g: Grant): Right { Right(g.scope, g.offline) }

  /** The server together with its history: the hashes of all values drawn so far
      and the events, oldest first. */
  datatype System = System(tables: Tables, now: nat, used: set<Hash>, log: seq<Event>)

  function Boot(now: nat): System {
    System(Tables(map[], map[], map[]), now, {}, [])
  }

  function Drawn(env: Env, d: Draws): set<Hash> {
    {env.hash(d.code), env.hash(d.access), env.hash(d.refresh)}
  }

  function GrantOwner(g: Grant): Owner { Owner(g.clientId, g.userId) }

  function MintEvents(env: Env, g: Grant, d: Draws): seq<Event> {
    [Minted(env.hash(d.access), GrantOwner(g), Right(g.scope, false))] +
    if g.offline then [Minted(env.hash(d.refresh), GrantOwner(g), Right(g.scope, true))] else []
  }

  function AuthorizeEvents(env: Env, now: nat, req: AuthorizationRequest, claims: Claims, d: Draws): seq<Event>
    requires req.clientId in env.clients
  {
    var g := GrantOf(claims, env.clients[req.clientId], req.wanted);
    [Granted(GrantOwner(g), claims, req.wanted)] +
    if req.responseType.ResponseCode?
    then [Issued(env.hash(d.code), GrantOwner(g), now, req.codeChallenge)]
    else MintEvents(env, g, d)
  }

  /** The events of a grant being claimed by an authenticated client. */
  function ClaimEvents(env: Env, now: nat, client: ClientId, params: GrantParameters, claims: Option<Claims>,
                       g: Grant): seq<Event> {
    match params
    case AuthorizationCode(code, verifier) =>
      [Redeemed(env.hash(code), client, now,
                if verifier.Some? then Some(PkceHash(env, verifier.value)) else None)]
    case RefreshGrant(_, _) => []
    case FxaCredentials(wanted) => if claims.Some? then [Granted(GrantOwner(g), claims.value, wanted)] else []
  }

  /** The grant a successful token request ends up with. */
  function ClaimedGrant(env: Env, s: System, req: TokenRequest, claims: Option<Claims>): Option<Grant> {
    match AuthenticateClient(env, req.clientId, req.clientSecret)
    case Err(_) => None
    case Ok(client) =>
      match ClaimGrant(env, s.tables, s.now, client, req.params, claims).1
      case Err(_) => None
      case Ok(g) => if TtlSchema(env, req.ttl) then Some(g) else None
  }

  function Step(env: Env, s: System, a: Action): System {
    match a
    case Authorize(req, claims, d) =>
      var (t, r) := AuthorizationEndpoint(env, s.tables, s.now, req, claims, d);
      System(t, s.now, s.used + Drawn(env, d),
             s.log + if r.Ok? then AuthorizeEvents(env, s.now, req, claims.value, d) else [])
    case RequestToken(req, claims, d) =>
      var (t, r) := TokenEndpoint(env, s.tables, s.now, req, claims, d);
      var g := ClaimedGrant(env, s, req, claims);
      System(t, s.now, s.used + Drawn(env, d),
             s.log + if g.Some?
                     then ClaimEvents(env, s.now, req.clientId, req.params, claims, g.value) +
                          MintEvents(env, g.value, d)
                     else [])
    case DestroyAccess(h) => s.(tables := s.tables.(tokens := s.tables.tokens - {h}))
    case DestroyRefresh(h) => s.(tables := s.tables.(refreshTokens := s.tables.refreshTokens - {h}))
    case DeleteAuthorization(o) =>
      if IsNamed(o) then s.(tables := Revoke(s.tables, o), log := s.log + [Revoked(o)]) else s
    case Tick(ms) => s.(now := s.now + ms)
  }

  /** The random source never hands out a value twice. */
  predicate Fresh(env: Env, s: System, a: Action) {
    (a.Authorize? || a.RequestToken?) ==>
      && Drawn(env, a.draws) !! s.used
      && env.hash(a.draws.code) != env.hash(a.draws.access)
      && env.hash(a.draws.code) != env.hash(a.draws.refresh)
      && env.hash(a.draws.access) != env.hash(a.draws.refresh)
  }

  function Run(env: Env, s: System, actions: seq<Action>): System
    decreases |actions|
  {
    if actions == [] then s else Run(env, Step(env, s, actions[0]), actions[1..])
  }

  predicate FreshRun(env: Env, s: System, actions: seq<Action>)
    decreases |actions|
  {
    actions == [] || (Fresh(env, s, actions[0]) && FreshRun(env, Step(env, s, actions[0]), actions[1..]))
  }

  // ---------- Every token rests on an approved, unrevoked grant ----------

  /** The grant asked for the whole right: a scope that contains it, and offline access
      if it can mint further tokens. */
  ghost predicate Conveys(env: Env, wanted: GrantRequest, r: Right) {
    Contains(env.implies, wanted.scope, r.scope) && (r.offline ==> wanted.offline)
  }

  /** Among the first `n` events there is a grant to `o` that conveys the right and
      that was not revoked before event `n`. */
  ghost predicate Backed(env: Env, log: seq<Event>, n: nat, o: Owner, r: Right)
    requires n <= |log|
  {
    exists g :: 0 <= g < n && Backs(env, log, g, n, o, r)
  }

  ghost predicate Backs(env: Env, log: seq<Event>, g: nat, n: nat, o: Owner, r: Right)
    requires g < n <= |log|
  {
    && log[g].Granted? && log[g].owner == o && Conveys(env, log[g].wanted, r)
    && (forall k :: g < k < n ==> log[k] != Revoked(o))
  }

  function CodeRight(c: Code): Right { RightOf(c.grant) }

  function AccessRight(t: AccessToken): Right { Right(t.scope, false) }

  function RefreshRight(t: RefreshToken): Right { Right(t.scope, true) }

  ghost predicate RowsBacked(env: Env, t: Tables, log: seq<Event>) {
    && (forall h :: h in t.codes ==> Backed(env, log, |log|, CodeOwner(t.codes[h]), CodeRight(t.codes[h])))
    && (forall h :: h in t.tokens ==> Backed(env, log, |log|, AccessOwner(t.tokens[h]), AccessRight(t.tokens[h])))
    && (forall h :: h in t.refreshTokens ==>
          Backed(env, log, |log|, RefreshOwner(t.refreshTokens[h]), RefreshRight(t.refreshTokens[h])))
  }

  ghost predicate MintsBacked(env: Env, log: seq<Event>) {
    forall i :: 0 <= i < |log| && log[i].Minted? ==> Backed(env, log, i, log[i].owner, log[i].right)
  }

  /** Every recorded grant passed the checks for its client, on claims of its user. */
  ghost predicate GrantsApproved(env: Env, log: seq<Event>) {
    forall i :: 0 <= i < |log| && log[i].Granted? ==>
      && log[i].owner.clientId in env.clients
      && log[i].owner.userId == log[i].claims.uid
      && GrantError(env, log[i].claims, env.clients[log[i].owner.clientId], log[i].wanted).None?
  }

  lemma BackedExtends(env: Env, log: seq<Event>, more: seq<Event>, n: nat, m: nat, o: Owner, r: Right)
    requires n <= |log| && n <= m <= |log + more|
    requires Backed(env, log, n, o, r)
    requires forall k :: n <= k < m ==> (log + more)[k] != Revoked(o)
    ensures Backed(env, log + more, m, o, r)
  {
    var g :| 0 <= g < n && Backs(env, log, g, n, o, r);
    assert Backs(env, log + more, g, m, o, r);
  }

  lemma BackedNarrows(env: Env, log: seq<Event>, n: nat, o: Owner, r: Right, narrower: Right)
    requires Preorder(env.implies) && n <= |log| && Backed(env, log, n, o, r)
    requires Contains(env.implies, r.scope, narrower.scope) && (narrower.offline ==> r.offline)
    ensures Backed(env, log, n, o, narrower)
  {
    var g :| 0 <= g < n && Backs(env, log, g, n, o, r);
    ContainsTransitive(env.implies, log[g].wanted.scope, r.scope, narrower.scope);
    assert Backs(env, log, g, n, o, narrower);
  }

  /** A grant backs what is issued on it in the same step. */
  lemma GrantBacks(env: Env, log: seq<Event>, claims: Claims, o: Owner, wanted: GrantRequest)
    requires Preorder(env.implies)
    ensures Backed(env, log + [Granted(o, claims, wanted)], |log| + 1, o, Right(wanted.scope, wanted.offline))
  {
    ContainsReflexive(env.implies, wanted.scope);
    assert Backs(env, log + [Granted(o, claims, wanted)], |log|, |log| + 1, o, Right(wanted.scope, wanted.offline));
  }

  /** Events that revoke nothing keep every row and every mint backed. */
  lemma BackingSurvives(env: Env, t: Tables, log: seq<Event>, more: seq<Event>)
    requires RowsBacked(env, t, log) && MintsBacked(env, log)
    requires forall k :: 0 <= k < |more| ==> !more[k].Revoked?
    requires forall k :: 0 <= k < |more| ==> !more[k].Minted?
    ensures RowsBacked(env, t, log + more) && MintsBacked(env, log + more)
  {
    var n := |log + more|;
    forall h | h in t.codes
      ensures Backed(env, log + more, n, CodeOwner(t.codes[h]), CodeRight(t.codes[h]))
    {
      BackedExtends(env, log, more, |log|, n, CodeOwner(t.codes[h]), CodeRight(t.codes[h]));
    }
    forall h | h in t.tokens
      ensures Backed(env, log + more, n, AccessOwner(t.tokens[h]), AccessRight(t.tokens[h]))
    {
      BackedExtends(env, log, more, |log|, n, AccessOwner(t.tokens[h]), AccessRight(t.tokens[h]));
    }
    forall h | h in t.refreshTokens
      ensures Backed(env, log + more, n, RefreshOwner(t.refreshTokens[h]), RefreshRight(t.refreshTokens[h]))
    {
      BackedExtends(env, log, more, |log|, n, RefreshOwner(t.refreshTokens[h]), RefreshRight(t.refreshTokens[h]));
    }
    forall i | 0 <= i < n && (log + more)[i].Minted?
      ensures Backed(env, log + more, i, (log + more)[i].owner, (log + more)[i].right)
    {
      BackedExtends(env, log, more, i, i, log[i].owner, log[i].right);
    }
  }

  /** The same for a step that mints on a backed grant. */
  lemma MintingIsBacked(env: Env, t: Tables, log: seq<Event>, now: nat, g: Grant, ttl: Option<real>, d: Draws)
    requires Preorder(env.implies)
    requires RowsBacked(env, t, log) && MintsBacked(env, log)
    requires Backed(env, log, |log|, GrantOwner(g), RightOf(g))
    ensures var (t', _) := Mint(env, t, now, g, ttl, d);
            var log' := log + MintEvents(env, g, d);
            RowsBacked(env, t', log') && MintsBacked(env, log')
  {
    var more := MintEvents(env, g, d);
    var log' := log + more;
    var (t', _) := Mint(env, t, now, g, ttl, d);
    var access := Right(g.scope, false);
    ContainsReflexive(env.implies, g.scope);
    BackedNarrows(env, log, |log|, GrantOwner(g), RightOf(g), access);
    BackedExtends(env, log, more, |log|, |log'|, GrantOwner(g), access);
    BackedExtends(env, log, more, |log|, |log'|, GrantOwner(g), RightOf(g));
    forall h | h in t.codes
      ensures Backed(env, log', |log'|, CodeOwner(t.codes[h]), CodeRight(t.codes[h]))
    {
      BackedExtends(env, log, more, |log|, |log'|, CodeOwner(t.codes[h]), CodeRight(t.codes[h]));
    }
    forall h | h in t'.tokens
      ensures Backed(env, log', |log'|, AccessOwner(t'.tokens[h]), AccessRight(t'.tokens[h]))
    {
      if h != env.hash(d.access) {
        BackedExtends(env, log, more, |log|, |log'|, AccessOwner(t.tokens[h]), AccessRight(t.tokens[h]));
      }
    }
    forall h | h in t'.refreshTokens
      ensures Backed(env, log', |log'|, RefreshOwner(t'.refreshTokens[h]), RefreshRight(t'.refreshTokens[h]))
    {
      if !(g.offline && h == env.hash(d.refresh)) {
        BackedExtends(env, log, more, |log|, |log'|,
                      RefreshOwner(t.refreshTokens[h]), RefreshRight(t.refreshTokens[h]));
      }
    }
    forall i | 0 <= i < |log'| && log'[i].Minted?
      ensures Backed(env, log', i, log'[i].owner, log'[i].right)
    {
      if i < |log| {
        BackedExtends(env, log, more, i, i, log[i].owner, log[i].right);
      } else {
        BackedExtends(env, log, more, |log|, i, GrantOwner(g), if i == |log| then access else RightOf(g));
      }
    }
  }

  /** Backing, approval and the table bounds, as kept by every step. */
  ghost predicate SoundTables(env: Env, t: Tables, log: seq<Event>) {
    RowsBacked(env, t, log) && MintsBacked(env, log) && GrantsApproved(env, log)
  }

  ghost predicate Sound(env: Env, s: System) {
    SoundTables(env, s.tables, s.log)
  }

  /** After a grant is recorded, everything stays backed, the grant itself included. */
  lemma GrantingKeepsSound(env: Env, s: System, claims: Claims, client: Client, wanted: GrantRequest, g: Grant)
    requires WellFormed(env) && Sound(env, s)
    requires g.clientId == client.id && client.id in env.clients && env.clients[client.id] == client
    requires g == GrantOf(claims, client, wanted) && GrantError(env, claims, client, wanted).None?
    ensures var s' := s.(log := s.log + [Granted(GrantOwner(g), claims, wanted)]);
            Sound(env, s') && Backed(env, s'.log, |s'.log|, GrantOwner(g), RightOf(g))
  {
    BackingSurvives(env, s.tables, s.log, [Granted(GrantOwner(g), claims, wanted)]);
    GrantBacks(env, s.log, claims, GrantOwner(g), wanted);
  }

  lemma IssuingKeepsSound(env: Env, s: System, h: Hash, g: Grant, challengeMethod: Option<string>,
                          challenge: Option<string>)
    requires Sound(env, s) && Backed(env, s.log, |s.log|, GrantOwner(g), RightOf(g))
    ensures Sound(env, System(s.tables.(codes := s.tables.codes[h := Code(g, challengeMethod, challenge, s.now)]),
                              s.now, s.used, s.log + [Issued(h, GrantOwner(g), s.now, challenge)]))
  {
    var issued := [Issued(h, GrantOwner(g), s.now, challenge)];
    BackedExtends(env, s.log, issued, |s.log|, |s.log| + 1, GrantOwner(g), RightOf(g));
    BackingSurvives(env, s.tables, s.log, issued);
  }

  lemma AuthorizeKeepsSound(env: Env, s: System, a: Action)
    requires WellFormed(env) && Sound(env, s) && a.Authorize?
    ensures Sound(env, Step(env, s, a))
  {
    var e := AuthorizationError(env, a.areq, a.claims);
    if e.Some? {
      assert s.log + [] == s.log;
    } else {
      var client := env.clients[a.areq.clientId];
      var g := GrantOf(a.claims.value, client, a.areq.wanted);
      GrantingKeepsSound(env, s, a.claims.value, client, a.areq.wanted, g);
      var s' := s.(log := s.log + [Granted(GrantOwner(g), a.claims.value, a.areq.wanted)]);
      if a.areq.responseType.ResponseCode? {
        IssuingKeepsSound(env, s', env.hash(a.draws.code), g, a.areq.codeChallengeMethod, a.areq.codeChallenge);
        assert Step(env, s, a).log ==
               s'.log + [Issued(env.hash(a.draws.code), GrantOwner(g), s.now, a.areq.codeChallenge)];
      } else {
        MintingIsBacked(env, s.tables, s'.log, s.now, g, a.areq.ttl, a.draws);
        assert Step(env, s, a).log == s'.log + MintEvents(env, g, a.draws);
      }
    }
  }

  /** The tables after a token request, as a claim followed by a mint. */
  lemma TokenStepTables(env: Env, s: System, req: TokenRequest, claims: Option<Claims>, d: Draws)
    ensures var g := ClaimedGrant(env, s, req, claims);
            if g.None? then TokenEndpoint(env, s.tables, s.now, req, claims, d).0 == s.tables
            else
              var client := AuthenticateClient(env, req.clientId, req.clientSecret).value;
              && ClaimGrant(env, s.tables, s.now, client, req.params, claims).1 == Ok(g.value)
              && TokenEndpoint(env, s.tables, s.now, req, claims, d).0 ==
                 Mint(env, ClaimGrant(env, s.tables, s.now, client, req.params, claims).0, s.now, g.value,
                      Some(req.ttl), d).0
  {
  }

  lemma TokenKeepsSound(env: Env, s: System, a: Action)
    requires WellFormed(env) && Sound(env, s) && a.RequestToken?
    ensures Sound(env, Step(env, s, a))
  {
    var claimed := ClaimedGrant(env, s, a.treq, a.claims);
    TokenStepTables(env, s, a.treq, a.claims, a.draws);
    if claimed.None? {
      assert s.log + [] == s.log;
    } else {
      var client := AuthenticateClient(env, a.treq.clientId, a.treq.clientSecret).value;
      TokenRequestKeepsSound(env, s, client, a.treq.params, a.claims, claimed.value, a.treq.ttl, a.draws);
      var (events, minted) := (ClaimEvents(env, s.now, client.id, a.treq.params, a.claims, claimed.value),
                               MintEvents(env, claimed.value, a.draws));
      assert Step(env, s, a).log == s.log + (events + minted);
      assert s.log + (events + minted) == s.log + events + minted;
    }
  }

  lemma TokenRequestKeepsSound(env: Env, s: System, client: Client, params: GrantParameters, claims: Option<Claims>,
                               g: Grant, ttl: real, d: Draws)
    requires WellFormed(env) && Sound(env, s)
    requires client.id in env.clients && env.clients[client.id] == client
    requires ClaimGrant(env, s.tables, s.now, client, params, claims).1 == Ok(g)
    ensures var t := ClaimGrant(env, s.tables, s.now, client, params, claims).0;
            var log := s.log + ClaimEvents(env, s.now, client.id, params, claims, g) + MintEvents(env, g, d);
            SoundTables(env, Mint(env, t, s.now, g, Some(ttl), d).0, log)
  {
    var t := ClaimGrant(env, s.tables, s.now, client, params, claims).0;
    var log := s.log + ClaimEvents(env, s.now, client.id, params, claims, g);
    ClaimIsBacked(env, s, client, params, claims, g);
    MintingIsBacked(env, t, log, s.now, g, Some(ttl), d);
  }

  /** What a claimed grant needs: the tables after the claim are backed by the log
      after the claim, and so is the grant itself. */
  ghost predicate ClaimBacked(env: Env, t: Tables, log: seq<Event>, g: Grant) {
    SoundTables(env, t, log) && Backed(env, log, |log|, GrantOwner(g), RightOf(g))
  }

  lemma ClaimIsBacked(env: Env, s: System, client: Client, params: GrantParameters, claims: Option<Claims>,
                                g: Grant)
    requires WellFormed(env) && Sound(env, s)
    requires client.id in env.clients && env.clients[client.id] == client
    requires ClaimGrant(env, s.tables, s.now, client, params, claims).1 == Ok(g)
    ensures ClaimBacked(env, ClaimGrant(env, s.tables, s.now, client, params, claims).0,
                        s.log + ClaimEvents(env, s.now, client.id, params, claims, g), g)
  {
    match params {
      case AuthorizationCode(_, _) => CodeClaimIsBacked(env, s, client, params, claims, g);
      case RefreshGrant(_, _) => RefreshClaimIsBacked(env, s, client, params, claims, g);
      case FxaCredentials(_) => AssertionClaimIsBacked(env, s, client, params, claims, g);
    }
  }

  lemma CodeClaimIsBacked(env: Env, s: System, client: Client, params: GrantParameters, claims: Option<Claims>,
                                g: Grant)
    requires Sound(env, s) && params.AuthorizationCode?
    requires ClaimGrant(env, s.tables, s.now, client, params, claims).1 == Ok(g)
    ensures ClaimBacked(env, ClaimGrant(env, s.tables, s.now, client, params, claims).0,
                        s.log + ClaimEvents(env, s.now, client.id, params, claims, g), g)
  {
    var events := ClaimEvents(env, s.now, client.id, params, claims, g);
    BackingSurvives(env, s.tables, s.log, events);
    assert s.tables.codes[env.hash(params.code)].grant == g;
    BackedExtends(env, s.log, events, |s.log|, |s.log + events|, GrantOwner(g), RightOf(g));
  }

  lemma RefreshClaimIsBacked(env: Env, s: System, client: Client, params: GrantParameters, claims: Option<Claims>,
                                g: Grant)
    requires WellFormed(env) && Sound(env, s) && params.RefreshGrant?
    requires ClaimGrant(env, s.tables, s.now, client, params, claims).1 == Ok(g)
    ensures ClaimBacked(env, ClaimGrant(env, s.tables, s.now, client, params, claims).0,
                        s.log + ClaimEvents(env, s.now, client.id, params, claims, g), g)
  {
    assert s.log + ClaimEvents(env, s.now, client.id, params, claims, g) == s.log;
    var row := s.tables.refreshTokens[env.hash(params.refreshToken)];
    BackedNarrows(env, s.log, |s.log|, RefreshOwner(row), RefreshRight(row), Right(params.scope, false));
  }

  lemma AssertionClaimIsBacked(env: Env, s: System, client: Client, params: GrantParameters, claims: Option<Claims>,
                                g: Grant)
    requires WellFormed(env) && Sound(env, s) && params.FxaCredentials?
    requires client.id in env.clients && env.clients[client.id] == client
    requires ClaimGrant(env, s.tables, s.now, client, params, claims).1 == Ok(g)
    ensures ClaimBacked(env, ClaimGrant(env, s.tables, s.now, client, params, claims).0,
                        s.log + ClaimEvents(env, s.now, client.id, params, claims, g), g)
  {
    BackingSurvives(env, s.tables, s.log, ClaimEvents(env, s.now, client.id, params, claims, g));
    GrantBacks(env, s.log, claims.value, GrantOwner(g), params.wanted);
  }

  lemma RevokeKeepsSound(env: Env, s: System, o: Owner)
    requires Sound(env, s)
    ensures Sound(env, Step(env, s, DeleteAuthorization(o)))
  {
    if IsNamed(o) {
      RevokeKeepsRows(env, s.tables, s.log, o);
      RevokeKeepsMints(env, s.log, o);
    }
  }

  lemma RevokeKeepsRows(env: Env, t: Tables, log: seq<Event>, o: Owner)
    requires RowsBacked(env, t, log)
    ensures RowsBacked(env, Revoke(t, o), log + [Revoked(o)])
  {
    var (t', gone, n) := (Revoke(t, o), [Revoked(o)], |log| + 1);
    forall h | h in t'.codes
      ensures Backed(env, log + gone, n, CodeOwner(t'.codes[h]), CodeRight(t'.codes[h]))
    {
      BackedExtends(env, log, gone, |log|, n, CodeOwner(t.codes[h]), CodeRight(t.codes[h]));
    }
    forall h | h in t'.tokens
      ensures Backed(env, log + gone, n, AccessOwner(t'.tokens[h]), AccessRight(t'.tokens[h]))
    {
      BackedExtends(env, log, gone, |log|, n, AccessOwner(t.tokens[h]), AccessRight(t.tokens[h]));
    }
    forall h | h in t'.refreshTokens
      ensures Backed(env, log + gone, n, RefreshOwner(t'.refreshTokens[h]), RefreshRight(t'.refreshTokens[h]))
    {
      BackedExtends(env, log, gone, |log|, n, RefreshOwner(t.refreshTokens[h]), RefreshRight(t.refreshTokens[h]));
    }
  }

  lemma RevokeKeepsMints(env: Env, log: seq<Event>, o: Owner)
    requires MintsBacked(env, log)
    ensures MintsBacked(env, log + [Revoked(o)])
  {
    var log' := log + [Revoked(o)];
    forall i | 0 <= i < |log'| && log'[i].Minted?
      ensures Backed(env, log', i, log'[i].owner, log'[i].right)
    {
      BackedExtends(env, log, [Revoked(o)], i, i, log[i].owner, log[i].right);
    }
  }

  lemma StepKeepsSound(env: Env, s: System, a: Action)
    requires WellFormed(env) && Sound(env, s)
    ensures Sound(env, Step(env, s, a))
  {
    match a {
      case Authorize(_, _, _) => AuthorizeKeepsSound(env, s, a);
      case RequestToken(_, _, _) => TokenKeepsSound(env, s, a);
      case DeleteAuthorization(o) => RevokeKeepsSound(env, s, o);
      case DestroyAccess(_) =>
      case DestroyRefresh(_) =>
      case Tick(_) =>
    }
  }

  lemma {:induction false} RunKeepsSound(env: Env, s: System, actions: seq<Action>)
    requires WellFormed(env) && Sound(env, s)
    ensures Sound(env, Run(env, s, actions))
    decreases |actions|
  {
    if actions == [] {
    } else {
      StepKeepsSound(env, s, actions[0]);
      RunKeepsSound(env, Step(env, s, actions[0]), actions[1..]);
    }
  }

  /** On every run, each stored code or token and each token ever minted belongs to a client
      and a user for whom one assertion-backed grant passed all its checks, the assurance
      level asked for included, contains its scope, asked for offline access if it is a
      refresh token, and was not revoked since; no freshness is needed. */
  lemma TokensRestOnApprovedGrants(env: Env, now: nat, actions: seq<Action>)
    requires WellFormed(env)
    ensures var s := Run(env, Boot(now), actions);
            && GrantsApproved(env, s.log)
            && MintsBacked(env, s.log)
            && RowsBacked(env, s.tables, s.log)
  {
    RunKeepsSound(env, Boot(now), actions);
  }

  // ---------- Revocation ----------

  /** Exactly the rows of the owner disappear. */
  lemma RevocationIsExact(t: Tables, o: Owner)
    ensures var t' := Revoke(t, o);
            && (forall h :: h in t'.codes <==> h in t.codes && CodeOwner(t.codes[h]) != o)
            && (forall h :: h in t'.tokens <==> h in t.tokens && AccessOwner(t.tokens[h]) != o)
            && (forall h :: h in t'.refreshTokens <==> h in t.refreshTokens && RefreshOwner(t.refreshTokens[h]) != o)
            && (forall h :: h in t'.codes ==> t'.codes[h] == t.codes[h])
            && (forall h :: h in t'.tokens ==> t'.tokens[h] == t.tokens[h])
            && (forall h :: h in t'.refreshTokens ==> t'.refreshTokens[h] == t.refreshTokens[h])
  {
  }

  /** Whatever the run, a token minted for an owner after a revocation rests on an
      approved grant that is later than the revocation. */
  lemma RevocationIsFinal(env: Env, now: nat, actions: seq<Action>, r: nat, i: nat)
    requires WellFormed(env)
    requires var log := Run(env, Boot(now), actions).log;
             r < i < |log| && log[i].Minted? && log[r] == Revoked(log[i].owner)
    ensures var log := Run(env, Boot(now), actions).log;
            exists g :: && r < g < i
                        && log[g].Granted? && log[g].owner == log[i].owner
                        && Conveys(env, log[g].wanted, log[i].right)
  {
    TokensRestOnApprovedGrants(env, now, actions);
    var log := Run(env, Boot(now), actions).log;
    var g :| 0 <= g < i && Backs(env, log, g, i, log[i].owner, log[i].right);
    assert !(g < r);
  }

  /** Right after a revocation, and until the next grant to that owner, the tables
      hold nothing of the owner. */
  lemma NothingLeftUntilNextGrant(env: Env, now: nat, actions: seq<Action>, r: nat)
    requires WellFormed(env)
    requires var log := Run(env, Boot(now), actions).log;
             && r < |log| && log[r].Revoked?
             && (forall g :: r < g < |log| && log[g].Granted? ==> log[g].owner != log[r].owner)
    ensures var s := Run(env, Boot(now), actions);
            var o := s.log[r].owner;
            && (forall h :: h in s.tables.codes ==> CodeOwner(s.tables.codes[h]) != o)
            && (forall h :: h in s.tables.tokens ==> AccessOwner(s.tables.tokens[h]) != o)
            && (forall h :: h in s.tables.refreshTokens ==> RefreshOwner(s.tables.refreshTokens[h]) != o)
  {
    TokensRestOnApprovedGrants(env, now, actions);
    var s := Run(env, Boot(now), actions);
    NotBackedAfterRevocation(env, s.log, r);
  }

  lemma NotBackedAfterRevocation(env: Env, log: seq<Event>, r: nat)
    requires r < |log| && log[r].Revoked?
    requires forall g :: r < g < |log| && log[g].Granted? ==> log[g].owner != log[r].owner
    ensures forall scope :: !Backed(env, log, |log|, log[r].owner, scope)
  {
  }
}

/** How long access tokens are accepted, over whole runs of the OAuth server. */
module OAuthLifetimes {
  import opened Wrappers
  import opened OAuthStore
  import opened OAuthGrants
  import opened OAuthRuns

  ghost predicate Bounded(env: Env, s: System) {
    forall h :: h in s.tables.tokens ==>
      && h in s.used
      && s.tables.tokens[h].createdAt <= s.now
      && s.tables.tokens[h].createdAt <= s.tables.tokens[h].expiresAt <= s.tables.tokens[h].createdAt + env.maxTtl
  }

  /** The only new access token a step can store is the one it drew. */
  lemma StepTokens(env: Env, s: System, a: Action, h: Hash)
    requires h in Step(env, s, a).tables.tokens
    ensures || ((a.Authorize? || a.RequestToken?) && h == env.hash(a.draws.access))
            || (h in s.tables.tokens && Step(env, s, a).tables.tokens[h] == s.tables.tokens[h])
  {
  }

  lemma StepKeepsBounded(env: Env, s: System, a: Action)
    requires Bounded(env, s)
    ensures Bounded(env, Step(env, s, a))
  {
    var s' := Step(env, s, a);
    forall h | h in s'.tables.tokens
      ensures && h in s'.used
              && s'.tables.tokens[h].createdAt <= s'.now
              && s'.tables.tokens[h].createdAt <= s'.tables.tokens[h].expiresAt
                 <= s'.tables.tokens[h].createdAt + env.maxTtl
    {
      StepTokens(env, s, a, h);
      if a.Authorize? && AuthorizationError(env, a.areq, a.claims).None? && a.areq.responseType.ResponseToken? {
        ReportedLifetime(env, s.tables, s.now, GrantOf(a.claims.value, env.clients[a.areq.clientId], a.areq.wanted),
                         a.areq.ttl, a.draws);
      } else if a.RequestToken? && ClaimedGrant(env, s, a.treq, a.claims).Some? {
        var client := AuthenticateClient(env, a.treq.clientId, a.treq.clientSecret).value;
        var t := ClaimGrant(env, s.tables, s.now, client, a.treq.params, a.claims).0;
        ReportedLifetime(env, t, s.now, ClaimedGrant(env, s, a.treq, a.claims).value, Some(a.treq.ttl), a.draws);
      }
    }
  }

  lemma {:induction false} RunKeepsBounded(env: Env, s: System, actions: seq<Action>)
    requires Bounded(env, s)
    ensures Bounded(env, Run(env, s, actions))
    decreases |actions|
  {
    if actions == [] {
    } else {
      StepKeepsBounded(env, s, actions[0]);
      RunKeepsBounded(env, Step(env, s, actions[0]), actions[1..]);
    }
  }

  /** On every run, a token that `Verify` accepts is at most as old as the configured
      maximum, unless it expired before the enforcement epoch; and it reports the
      user, client and scope of the stored row. */
  lemma AcceptedTokensAreYoung(env: Env, now: nat, actions: seq<Action>, token: string)
    requires var s := Run(env, Boot(now), actions); Verify(env, s.tables, s.now, token).Ok?
    ensures var s := Run(env, Boot(now), actions);
            && env.hash(token) in s.tables.tokens
            && var row := s.tables.tokens[env.hash(token)];
               && (s.now <= row.createdAt + env.maxTtl || row.expiresAt < env.expiryEpoch)
               && Verify(env, s.tables, s.now, token).value.user == row.userId
               && Verify(env, s.tables, s.now, token).value.clientId == row.clientId
               && Verify(env, s.tables, s.now, token).value.scope == row.scope
  {
    RunKeepsBounded(env, Boot(now), actions);
  }

  /** A value already drawn whose token is refused: expired, destroyed, revoked, or
      never an access token at all. */
  ghost predicate Dead(env: Env, s: System, token: string) {
    env.hash(token) in s.used && Verify(env, s.tables, s.now, token).Err?
  }

  lemma StepKeepsDead(env: Env, s: System, a: Action, token: string)
    requires Fresh(env, s, a) && Dead(env, s, token)
    ensures Dead(env, Step(env, s, a), token)
  {
    if env.hash(token) in Step(env, s, a).tables.tokens {
      StepTokens(env, s, a, env.hash(token));
    }
  }

  /** Acceptance that is lost, by expiry, destruction or revocation, never returns. */
  lemma {:induction false} DeadStaysDead(env: Env, s: System, actions: seq<Action>, token: string)
    requires FreshRun(env, s, actions) && Dead(env, s, token)
    ensures Dead(env, Run(env, s, actions), token)
    decreases |actions|
  {
    if actions == [] {
    } else {
      StepKeepsDead(env, s, actions[0], token);
      DeadStaysDead(env, Step(env, s, actions[0]), actions[1..], token);
    }
  }
}

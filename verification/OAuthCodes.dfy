/** One-time authorization codes and PKCE, over whole runs of the OAuth server. */
module OAuthCodes {
  import opened Wrappers
  import opened OAuthStore
  import opened OAuthGrants
  import opened OAuthRuns
  import UrlSafeBase64

  /** A stored code carries an S256 challenge exactly when its client is public. */
  ghost predicate PkceRow(env: Env, row: Code) {
    && row.grant.clientId in env.clients
    && if env.clients[row.grant.clientId].publicClient
       then row.codeChallengeMethod == Some(S256) && row.codeChallenge.Some? && |row.codeChallenge.value| == 43
       else row.codeChallengeMethod.None? && row.codeChallenge.None?
  }

  function IssueEvent(h: Hash, row: Code): Event {
    Issued(h, CodeOwner(row), row.createdAt, row.codeChallenge)
  }

  /** Redemption `r` is a legitimate use of the code issued at `i`: by its own client,
      within its lifetime, and for a public client with the right verifier. */
  ghost predicate Legitimate(env: Env, i: Event, r: Event) {
    && i.Issued? && r.Redeemed?
    && i.code == r.code && i.owner.clientId == r.client
    && i.at <= r.at <= i.at + env.codeTtl
    && r.client in env.clients
    && (if env.clients[r.client].publicClient
        then i.challenge.Some? && r.verifierHash == i.challenge
        else i.challenge.None? && r.verifierHash.None?)
  }

  ghost predicate RedeemedBefore(log: seq<Event>, n: nat, h: Hash)
    requires n <= |log|
  {
    exists k :: 0 <= k < n && log[k].Redeemed? && log[k].code == h
  }

  /** The run-wide statement: every redemption is a legitimate use of a code that
      was issued earlier, and no code is redeemed twice. */
  ghost predicate RedemptionsSafe(env: Env, log: seq<Event>) {
    forall j :: 0 <= j < |log| && log[j].Redeemed? ==>
      && !RedeemedBefore(log, j, log[j].code)
      && (exists i :: 0 <= i < j && Legitimate(env, log[i], log[j]))
  }

  ghost predicate CodesTracked(env: Env, codes: map<Hash, Code>, now: nat, used: set<Hash>, log: seq<Event>) {
    && (forall h :: h in codes ==>
          && h in used
          && PkceRow(env, codes[h])
          && codes[h].createdAt <= now
          && IssueEvent(h, codes[h]) in log
          && !RedeemedBefore(log, |log|, h))
    && (forall k :: 0 <= k < |log| && log[k].Redeemed? ==> log[k].code in used)
    && RedemptionsSafe(env, log)
  }

  lemma RedeemedBeforeStable(log: seq<Event>, more: seq<Event>, n: nat, h: Hash)
    requires n <= |log|
    ensures RedeemedBefore(log + more, n, h) == RedeemedBefore(log, n, h)
  {
    if RedeemedBefore(log, n, h) {
      var k :| 0 <= k < n && log[k].Redeemed? && log[k].code == h;
      assert (log + more)[k] == log[k];
    }
    if RedeemedBefore(log + more, n, h) {
      var k :| 0 <= k < n && (log + more)[k].Redeemed? && (log + more)[k].code == h;
      assert (log + more)[k] == log[k];
    }
  }

  /** Events other than redemptions change nothing about past redemptions. */
  lemma SafeExtends(env: Env, log: seq<Event>, more: seq<Event>)
    requires RedemptionsSafe(env, log)
    requires forall k :: 0 <= k < |more| ==> !more[k].Redeemed?
    ensures RedemptionsSafe(env, log + more)
    ensures forall h :: RedeemedBefore(log + more, |log + more|, h) == RedeemedBefore(log, |log|, h)
  {
    var log' := log + more;
    forall j | 0 <= j < |log'| && log'[j].Redeemed?
      ensures !RedeemedBefore(log', j, log'[j].code)
      ensures exists i :: 0 <= i < j && Legitimate(env, log'[i], log'[j])
    {
      assert log'[j] == log[j];
      RedeemedBeforeStable(log, more, j, log[j].code);
      var i :| 0 <= i < j && Legitimate(env, log[i], log[j]);
      assert Legitimate(env, log'[i], log'[j]);
    }
    forall h
      ensures RedeemedBefore(log', |log'|, h) == RedeemedBefore(log, |log|, h)
    {
      if RedeemedBefore(log', |log'|, h) {
        var k :| 0 <= k < |log'| && log'[k].Redeemed? && log'[k].code == h;
        assert log[k] == log'[k];
      }
      if RedeemedBefore(log, |log|, h) {
        var k :| 0 <= k < |log| && log[k].Redeemed? && log[k].code == h;
        assert log'[k] == log[k];
      }
    }
  }

  /** A step that issues and redeems nothing, at most deleting rows. */
  lemma TrackingSurvives(env: Env, codes: map<Hash, Code>, now: nat, used: set<Hash>, log: seq<Event>,
                         codes': map<Hash, Code>, now': nat, used': set<Hash>, more: seq<Event>)
    requires CodesTracked(env, codes, now, used, log)
    requires now <= now' && used <= used'
    requires forall h :: h in codes' ==> h in codes && codes'[h] == codes[h]
    requires forall k :: 0 <= k < |more| ==> !more[k].Redeemed?
    ensures CodesTracked(env, codes', now', used', log + more)
  {
    SafeExtends(env, log, more);
    forall k | 0 <= k < |log + more| && (log + more)[k].Redeemed?
      ensures (log + more)[k].code in used'
    {
      assert (log + more)[k] == log[k];
    }
  }

  lemma IssuingIsTracked(env: Env, codes: map<Hash, Code>, now: nat, used: set<Hash>, log: seq<Event>,
                         used': set<Hash>, before: seq<Event>, h: Hash, row: Code)
    requires CodesTracked(env, codes, now, used, log)
    requires used + {h} <= used' && h !in used
    requires PkceRow(env, row) && row.createdAt == now
    requires forall k :: 0 <= k < |before| ==> !before[k].Redeemed?
    ensures CodesTracked(env, codes[h := row], now, used', log + (before + [IssueEvent(h, row)]))
  {
    var more := before + [IssueEvent(h, row)];
    TrackingSurvives(env, codes, now, used, log, codes, now, used', more);
    SafeExtends(env, log, more);
    assert !RedeemedBefore(log, |log|, h);
    assert more[|before|] == IssueEvent(h, row);
    assert (log + more)[|log| + |before|] == IssueEvent(h, row);
  }

  lemma RedeemingIsTracked(env: Env, codes: map<Hash, Code>, now: nat, used: set<Hash>, log: seq<Event>,
                           h: Hash, r: Event)
    requires CodesTracked(env, codes, now, used, log)
    requires h in codes && r.Redeemed? && r.code == h
    requires Legitimate(env, IssueEvent(h, codes[h]), r)
    ensures CodesTracked(env, codes - {h}, now, used, log + [r])
  {
    var log' := log + [r];
    forall j | 0 <= j < |log'| && log'[j].Redeemed?
      ensures !RedeemedBefore(log', j, log'[j].code)
      ensures exists i :: 0 <= i < j && Legitimate(env, log'[i], log'[j])
      ensures log'[j].code in used
    {
      RedeemedBeforeStable(log, [r], j, log'[j].code);
      if j == |log| {
        var i :| 0 <= i < |log| && log[i] == IssueEvent(h, codes[h]);
        assert Legitimate(env, log'[i], log'[j]);
      } else {
        assert log'[j] == log[j];
        var i :| 0 <= i < j && Legitimate(env, log[i], log[j]);
        assert Legitimate(env, log'[i], log'[j]);
      }
    }
    forall k | k in codes - {h}
      ensures IssueEvent(k, codes[k]) in log' && !RedeemedBefore(log', |log'|, k)
    {
    }
  }

  ghost predicate Tracked(env: Env, s: System) {
    CodesTracked(env, s.tables.codes, s.now, s.used, s.log)
  }

  lemma AuthorizeKeepsTracked(env: Env, s: System, a: Action)
    requires WellFormed(env) && Tracked(env, s) && a.Authorize? && Fresh(env, s, a)
    ensures Tracked(env, Step(env, s, a))
  {
    var s' := Step(env, s, a);
    var codes := s.tables.codes;
    if AuthorizationError(env, a.areq, a.claims).Some? {
      TrackingSurvives(env, codes, s.now, s.used, s.log, codes, s.now, s'.used, []);
    } else {
      var client := env.clients[a.areq.clientId];
      var g := GrantOf(a.claims.value, client, a.areq.wanted);
      var granted := [Granted(GrantOwner(g), a.claims.value, a.areq.wanted)];
      if a.areq.responseType.ResponseCode? {
        var row := Code(g, a.areq.codeChallengeMethod, a.areq.codeChallenge, s.now);
        IssuingIsTracked(env, codes, s.now, s.used, s.log, s'.used, granted, env.hash(a.draws.code), row);
        assert AuthorizeEvents(env, s.now, a.areq, a.claims.value, a.draws)
               == granted + [IssueEvent(env.hash(a.draws.code), row)];
      } else {
        TrackingSurvives(env, codes, s.now, s.used, s.log, codes, s.now, s'.used,
                         granted + MintEvents(env, g, a.draws));
      }
    }
  }

  /** What a successful code exchange does to the codes and the log. */
  lemma ExchangeShape(env: Env, s: System, req: TokenRequest, claims: Option<Claims>, d: Draws)
    requires WellFormed(env) && Tracked(env, s) && req.params.AuthorizationCode?
    requires ClaimedGrant(env, s, req, claims).Some?
    ensures var h := env.hash(req.params.code);
            var g := ClaimedGrant(env, s, req, claims).value;
            var events := ClaimEvents(env, s.now, req.clientId, req.params, claims, g);
            && h in s.tables.codes
            && events == [events[0]]
            && events[0].Redeemed? && events[0].code == h
            && Legitimate(env, IssueEvent(h, s.tables.codes[h]), events[0])
  {
    var client := AuthenticateClient(env, req.clientId, req.clientSecret).value;
    ExchangeMeaning(env, s, client, req.params.code, req.params.codeVerifier);
  }

  /** How a token request changes the codes. */
  lemma TokenStepCodes(env: Env, s: System, req: TokenRequest, claims: Option<Claims>, d: Draws)
    ensures TokenEndpoint(env, s.tables, s.now, req, claims, d).0.codes ==
            if ClaimedGrant(env, s, req, claims).Some? && req.params.AuthorizationCode?
            then s.tables.codes - {env.hash(req.params.code)} else s.tables.codes
  {
  }

  lemma TokenKeepsTracked(env: Env, s: System, a: Action)
    requires WellFormed(env) && Tracked(env, s) && a.RequestToken?
    ensures Tracked(env, Step(env, s, a))
  {
    var claimed := ClaimedGrant(env, s, a.treq, a.claims);
    TokenStepCodes(env, s, a.treq, a.claims, a.draws);
    var used := s.used + Drawn(env, a.draws);
    if claimed.None? {
      TrackingSurvives(env, s.tables.codes, s.now, s.used, s.log, s.tables.codes, s.now, used, []);
    } else {
      var events := ClaimEvents(env, s.now, a.treq.clientId, a.treq.params, a.claims, claimed.value);
      var minted := MintEvents(env, claimed.value, a.draws);
      if a.treq.params.AuthorizationCode? {
        var h := env.hash(a.treq.params.code);
        ExchangeShape(env, s, a.treq, a.claims, a.draws);
        RedeemingIsTracked(env, s.tables.codes, s.now, s.used, s.log, h, events[0]);
        TrackingSurvives(env, s.tables.codes - {h}, s.now, s.used, s.log + events,
                         s.tables.codes - {h}, s.now, used, minted);
        assert s.log + (events + minted) == s.log + events + minted;
      } else {
        TrackingSurvives(env, s.tables.codes, s.now, s.used, s.log, s.tables.codes, s.now, used, events + minted);
      }
    }
  }

  lemma StepKeepsTracked(env: Env, s: System, a: Action)
    requires WellFormed(env) && Tracked(env, s) && Fresh(env, s, a)
    ensures Tracked(env, Step(env, s, a))
  {
    var s' := Step(env, s, a);
    match a {
      case Authorize(_, _, _) => AuthorizeKeepsTracked(env, s, a);
      case RequestToken(_, _, _) => TokenKeepsTracked(env, s, a);
      case DeleteAuthorization(o) =>
        TrackingSurvives(env, s.tables.codes, s.now, s.used, s.log, s'.tables.codes, s'.now, s'.used, [Revoked(o)]);
      case _ =>
        TrackingSurvives(env, s.tables.codes, s.now, s.used, s.log, s'.tables.codes, s'.now, s'.used, []);
        assert s.log + [] == s.log;
    }
  }

  lemma {:induction false} RunKeepsTracked(env: Env, s: System, actions: seq<Action>)
    requires WellFormed(env) && Tracked(env, s) && FreshRun(env, s, actions)
    ensures Tracked(env, Run(env, s, actions))
    decreases |actions|
  {
    if actions == [] {
    } else {
      StepKeepsTracked(env, s, actions[0]);
      RunKeepsTracked(env, Step(env, s, actions[0]), actions[1..]);
    }
  }

  /** What the chain of checks on a code amounts to on tables that a run produced:
      the code is there, belongs to the client and is still alive, and the verifier
      is the right one for a public client and absent for any other. The two checks
      that should never fire do not. */
  lemma ExchangeMeaning(env: Env, s: System, client: Client, code: string, verifier: Option<string>)
    requires Tracked(env, s)
    requires client.id in env.clients && env.clients[client.id] == client
    ensures ExchangeOutcome(env, s.tables, s.now, client, code, verifier).Ok? <==>
            && env.hash(code) in s.tables.codes
            && var row := s.tables.codes[env.hash(code)];
               && row.grant.clientId == client.id
               && s.now <= row.createdAt + env.codeTtl
               && (if client.publicClient
                   then verifier.Some? && row.codeChallenge == Some(PkceHash(env, verifier.value))
                   else verifier.None?)
    ensures env.hash(code) in s.tables.codes && s.tables.codes[env.hash(code)].grant.clientId == client.id ==>
            var row := s.tables.codes[env.hash(code)];
            && (Given(row.codeChallenge) ==> row.codeChallengeMethod == Some(S256))
            && (verifier.Some? && client.publicClient ==> Given(row.codeChallenge))
  {
    if env.hash(code) in s.tables.codes && s.tables.codes[env.hash(code)].grant.clientId == client.id {
      assert PkceRow(env, s.tables.codes[env.hash(code)]);
    }
  }

  /** On every run with fresh random values: each code is redeemed at most once, by
      its own client, within its lifetime, and for a public client only by a
      verifier whose hash is the challenge; and the stored codes have a challenge
      exactly when their client is public. */
  lemma CodesAreOneTime(env: Env, now: nat, actions: seq<Action>)
    requires WellFormed(env) && FreshRun(env, Boot(now), actions)
    ensures var s := Run(env, Boot(now), actions);
            && RedemptionsSafe(env, s.log)
            && (forall h :: h in s.tables.codes ==> PkceRow(env, s.tables.codes[h]))
  {
    RunKeepsTracked(env, Boot(now), actions);
  }

  /** The challenge a public client must answer has the length the request schema
      asks for, whatever the verifier. */
  lemma PkceHashShape(env: Env, verifier: string)
    requires |env.sha256(verifier)| == 32
    ensures |PkceHash(env, verifier)| == 43
    ensures forall c :: c in PkceHash(env, verifier) ==> UrlSafeBase64.InUrlAlphabet(c)
  {
    UrlSafeBase64.EncoderShape(env.sha256(verifier));
  }
}

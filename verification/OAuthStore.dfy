/** The tables of the OAuth server and the in-memory store that holds them. */
module OAuthStore {
  import opened Wrappers
  import opened Scopes

  /** The hash of a secret value, which is what the tables are keyed by. */
  type Hash = string

  type ClientId = string

  type Uid = string

  datatype Client = Client(
    id: ClientId,
    name: string,
    hashedSecret: Option<Hash>,
    hashedSecretPrevious: Option<Hash>,
    redirectUri: string,
    canGrant: bool,
    trusted: bool,
    publicClient: bool,
    allowedScopes: ScopeSet)

  /** What a verified identity assertion supports for one client. */
  datatype Grant = Grant(
    clientId: ClientId,
    userId: Uid,
    email: string,
    scope: ScopeSet,
    offline: bool,
    authAt: Option<nat>,
    keysJwe: Option<string>)

  datatype Code = Code(
    grant: Grant,
    codeChallengeMethod: Option<string>,
    codeChallenge: Option<string>,
    createdAt: nat)

  datatype AccessToken = AccessToken(
    clientId: ClientId,
    userId: Uid,
    email: string,
    scope: ScopeSet,
    createdAt: nat,
    expiresAt: int)

  datatype RefreshToken = RefreshToken(
    clientId: ClientId,
    userId: Uid,
    email: string,
    scope: ScopeSet,
    createdAt: nat,
    lastUsedAt: nat)

  datatype Tables = Tables(
    codes: map<Hash, Code>,
    tokens: map<Hash, AccessToken>,
    refreshTokens: map<Hash, RefreshToken>)

  datatype Owner = Owner(clientId: ClientId, userId: Uid)

  predicate IsNamed(o: Owner) {
    o.clientId != "" && o.userId != ""
  }

  function CodeOwner(c: Code): Owner { Owner(c.grant.clientId, c.grant.userId) }

  function AccessOwner(t: AccessToken): Owner { Owner(t.clientId, t.userId) }

  function RefreshOwner(t: RefreshToken): Owner { Owner(t.clientId, t.userId) }

  /** The rows that do not belong to `o`. */
  function NotOwnedBy<T>(rows: map<Hash, T>, owner: T -> Owner, o: Owner): map<Hash, T> {
    map h | h in rows && owner(rows[h]) != o :: rows[h]
  }

  function Revoke(t: Tables, o: Owner): Tables {
    Tables(
      NotOwnedBy(t.codes, CodeOwner, o),
      NotOwnedBy(t.tokens, AccessOwner, o),
      NotOwnedBy(t.refreshTokens, RefreshOwner, o))
  }

  /** Seconds asked for, or the configured maximum when none (or zero) is given;
      a date keeps whole milliseconds only. */
  function Lifetime(ttl: Option<real>, maxTtl: nat): int {
    if ttl.Some? && ttl.value != 0.0 then (ttl.value * 1000.0).Floor else maxTtl
  }

  class MemoryStore {
    const hash: string -> Hash
    const maxTtl: nat
    const clients: map<ClientId, Client>
    var codes: map<Hash, Code>
    var tokens: map<Hash, AccessToken>
    var refreshTokens: map<Hash, RefreshToken>

    constructor (hash: string -> Hash, maxTtl: nat, clients: map<ClientId, Client>)
      ensures this.hash == hash && this.maxTtl == maxTtl && this.clients == clients
      ensures State() == Tables(map[], map[], map[])
    {
      this.hash, this.maxTtl, this.clients := hash, maxTtl, clients;
      codes, tokens, refreshTokens := map[], map[], map[];
    }

    function State(): Tables
      reads this
    {
      Tables(codes, tokens, refreshTokens)
    }

    method GenerateCode(grant: Grant, challengeMethod: Option<string>, challenge: Option<string>,
                        now: nat, unique: string) returns (code: string)
      modifies this`codes
      ensures code == unique
      ensures codes == old(codes)[hash(unique) := Code(grant, challengeMethod, challenge, now)]
    {
      codes := codes[hash(unique) := Code(grant, challengeMethod, challenge, now)];
      code := unique;
    }

    method GetCode(code: string) returns (r: Option<Code>)
      ensures r == if hash(code) in codes then Some(codes[hash(code)]) else None
    {
      r := if hash(code) in codes then Some(codes[hash(code)]) else None;
    }

    method RemoveCode(code: string)
      modifies this`codes
      ensures codes == old(codes) - {hash(code)}
    {
      codes := codes - {hash(code)};
    }

    method GenerateAccessToken(grant: Grant, ttl: Option<real>, now: nat, unique: string)
      returns (t: AccessToken)
      modifies this`tokens
      ensures t == AccessToken(grant.clientId, grant.userId, grant.email, grant.scope,
                               now, now + Lifetime(ttl, maxTtl))
      ensures tokens == old(tokens)[hash(unique) := t]
    {
      t := AccessToken(grant.clientId, grant.userId, grant.email, grant.scope,
                       now, now + Lifetime(ttl, maxTtl));
      tokens := tokens[hash(unique) := t];
    }

    method GetAccessToken(h: Hash) returns (r: Option<AccessToken>)
      ensures r == if h in tokens then Some(tokens[h]) else None
    {
      r := if h in tokens then Some(tokens[h]) else None;
    }

    method RemoveAccessToken(h: Hash)
      modifies this`tokens
      ensures tokens == old(tokens) - {h}
    {
      tokens := tokens - {h};
    }

    method GenerateRefreshToken(grant: Grant, now: nat, unique: string)
      modifies this`refreshTokens
      ensures refreshTokens == old(refreshTokens)[hash(unique) :=
                RefreshToken(grant.clientId, grant.userId, grant.email, grant.scope, now, now)]
    {
      refreshTokens := refreshTokens[hash(unique) :=
        RefreshToken(grant.clientId, grant.userId, grant.email, grant.scope, now, now)];
    }

    method GetRefreshToken(h: Hash) returns (r: Option<RefreshToken>)
      ensures r == if h in refreshTokens then Some(refreshTokens[h]) else None
    {
      r := if h in refreshTokens then Some(refreshTokens[h]) else None;
    }

    /** False when the token does not exist. */
    method UsedRefreshToken(h: Hash, now: nat) returns (ok: bool)
      modifies this`refreshTokens
      ensures ok == (h in old(refreshTokens))
      ensures refreshTokens ==
              if ok then old(refreshTokens)[h := old(refreshTokens)[h].(lastUsedAt := now)]
              else old(refreshTokens)
    {
      ok := h in refreshTokens;
      if ok {
        refreshTokens := refreshTokens[h := refreshTokens[h].(lastUsedAt := now)];
      }
    }

    method RemoveRefreshToken(h: Hash)
      modifies this`refreshTokens
      ensures refreshTokens == old(refreshTokens) - {h}
    {
      refreshTokens := refreshTokens - {h};
    }

    /** Refused without a client or a user. */
    method DeleteClientAuthorization(clientId: ClientId, uid: Uid) returns (ok: bool)
      modifies this
      ensures ok == IsNamed(Owner(clientId, uid))
      ensures State() == if ok then Revoke(old(State()), Owner(clientId, uid)) else old(State())
    {
      if clientId == "" || uid == "" {
        return false;
      }
      codes := DeleteOwned(codes, CodeOwner, Owner(clientId, uid));
      tokens := DeleteOwned(tokens, AccessOwner, Owner(clientId, uid));
      refreshTokens := DeleteOwned(refreshTokens, RefreshOwner, Owner(clientId, uid));
      return true;
    }
  }

  /** Walks a snapshot of the keys and deletes the rows of one owner. */
  method DeleteOwned<T>(rows: map<Hash, T>, owner: T -> Owner, o: Owner) returns (kept: map<Hash, T>)
    ensures kept == NotOwnedBy(rows, owner, o)
  {
    kept := rows;
    var ids := rows.Keys;
    while ids != {}
      invariant ids <= rows.Keys
      invariant forall h :: h in kept <==> h in rows && (h in ids || owner(rows[h]) != o)
      invariant forall h :: h in kept ==> kept[h] == rows[h]
      decreases |ids|
    {
      var id :| id in ids;
      if owner(kept[id]) == o {
        kept := kept - {id};
      }
      ids := ids - {id};
    }
  }
}

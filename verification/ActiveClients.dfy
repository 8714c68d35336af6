/** The list of a user's active OAuth clients, summarised from access tokens. */
module ActiveClients {
  import opened Wrappers
  import opened Scopes
  import opened OAuthStore

  datatype ClientToken = ClientToken(id: ClientId, name: string, createdAt: nat, scope: ScopeSet)

  datatype ActiveClient = ActiveClient(id: ClientId, name: string, lastAccessTime: nat, scope: ScopeSet)

  /** An entry of the list, with its scopes written out in alphabetical order. */
  datatype ListedClient = ListedClient(client: ActiveClient, scopes: seq<Scope>)

  // ---------- Ordering ----------

  predicate LexLeq(a: string, b: string) {
    a == [] || (b != [] && (a[0] < b[0] || (a[0] == b[0] && LexLeq(a[1..], b[1..]))))
  }

  lemma {:induction false} LexTotal(a: string, b: string)
    ensures LexLeq(a, b) || LexLeq(b, a)
  {
    if a == [] || b == [] || a[0] != b[0] {
    } else {
      LexTotal(a[1..], b[1..]);
    }
  }

  lemma {:induction false} LexTransitive(a: string, b: string, c: string)
    requires LexLeq(a, b) && LexLeq(b, c)
    ensures LexLeq(a, c)
  {
    if a == [] || !(a[0] == b[0] == c[0]) {
    } else {
      LexTransitive(a[1..], b[1..], c[1..]);
    }
  }

  lemma {:induction false} LexAntisymmetric(a: string, b: string)
    requires LexLeq(a, b) && LexLeq(b, a)
    ensures a == b
  {
    if a == [] {
    } else {
      LexAntisymmetric(a[1..], b[1..]);
    }
  }

  /** The comparator handed to the sort: later access first, then by name. */
  function Compare(a: ActiveClient, b: ActiveClient): int {
    if b.lastAccessTime > a.lastAccessTime then 1
    else if b.lastAccessTime < a.lastAccessTime then -1
    else if !LexLeq(a.name, b.name) then 1
    else if !LexLeq(b.name, a.name) then -1
    else 0
  }

  predicate InOrder(a: ActiveClient, b: ActiveClient) {
    || a.lastAccessTime > b.lastAccessTime
    || (a.lastAccessTime == b.lastAccessTime && LexLeq(a.name, b.name))
  }

  ghost predicate Sorted(s: seq<ActiveClient>) {
    forall i, j :: 0 <= i < j < |s| ==> InOrder(s[i], s[j])
  }

  /** The comparator is a total preorder, which is what a sort needs of it. */
  lemma CompareIsConsistent(a: ActiveClient, b: ActiveClient, c: ActiveClient)
    ensures Compare(a, b) <= 0 <==> InOrder(a, b)
    ensures InOrder(a, b) || InOrder(b, a)
    ensures InOrder(a, b) && InOrder(b, c) ==> InOrder(a, c)
    ensures Compare(a, b) == 0 <==> a.lastAccessTime == b.lastAccessTime && a.name == b.name
  {
    LexTotal(a.name, b.name);
    if LexLeq(a.name, b.name) && LexLeq(b.name, c.name) {
      LexTransitive(a.name, b.name, c.name);
    }
    if LexLeq(a.name, b.name) && LexLeq(b.name, a.name) {
      LexAntisymmetric(a.name, b.name);
    }
  }

  /** Sorting with the comparator, by insertion. */
  method SortClients(s: seq<ActiveClient>) returns (r: seq<ActiveClient>)
    ensures Sorted(r)
    ensures multiset(r) == multiset(s)
  {
    r := [];
    for n := 0 to |s|
      invariant Sorted(r)
      invariant multiset(r) == multiset(s[..n])
    {
      var k := 0;
      while k < |r| && Compare(r[k], s[n]) <= 0
        invariant 0 <= k <= |r|
        invariant forall i :: 0 <= i < k ==> InOrder(r[i], s[n])
      {
        CompareIsConsistent(r[k], s[n], s[n]);
        k := k + 1;
      }
      InsertedInOrder(r, s[n], k);
      assert r == r[..k] + r[k..];
      assert s[..n + 1] == s[..n] + [s[n]];
      r := r[..k] + [s[n]] + r[k..];
    }
    assert s[..|s|] == s;
  }

  lemma InsertedInOrder(r: seq<ActiveClient>, x: ActiveClient, k: nat)
    requires Sorted(r) && k <= |r|
    requires forall i :: 0 <= i < k ==> InOrder(r[i], x)
    requires k < |r| ==> Compare(r[k], x) > 0
    ensures Sorted(r[..k] + [x] + r[k..])
  {
    var r' := r[..k] + [x] + r[k..];
    if k < |r| {
      CompareIsConsistent(r[k], x, x);
      forall j | k <= j < |r|
        ensures InOrder(x, r[j])
      {
        CompareIsConsistent(x, r[k], r[j]);
      }
    }
    forall i, j | 0 <= i < j < |r'|
      ensures InOrder(r'[i], r'[j])
    {
      if i < k && j > k {
        assert InOrder(r[i], r[j - 1]);
      } else if i > k {
        assert InOrder(r[i - 1], r[j - 1]);
      }
    }
  }

  /** The values of a scope set, each once, in alphabetical order. */
  ghost predicate Alphabetical(r: seq<Scope>, scope: ScopeSet) {
    && (forall s :: s in r <==> s in scope)
    && (forall i, j :: 0 <= i < j < |r| ==> LexLeq(r[i], r[j]) && r[i] != r[j])
  }

  method SortScopes(scope: ScopeSet) returns (r: seq<Scope>)
    ensures Alphabetical(r, scope)
  {
    r := [];
    var rest := scope;
    while rest != {}
      invariant rest <= scope
      invariant Alphabetical(r, scope - rest)
      decreases |rest|
    {
      var s :| s in rest;
      var k := 0;
      while k < |r| && LexLeq(r[k], s)
        invariant 0 <= k <= |r|
        invariant forall i :: 0 <= i < k ==> LexLeq(r[i], s)
      {
        k := k + 1;
      }
      assert s !in r;
      InsertedScopeInOrder(r, s, k);
      assert forall x :: x in r[..k] + [s] + r[k..] <==> x in r || x == s by {
        assert r == r[..k] + r[k..];
      }
      r := r[..k] + [s] + r[k..];
      rest := rest - {s};
    }
    assert scope - {} == scope;
  }

  lemma InsertedScopeInOrder(r: seq<Scope>, s: Scope, k: nat)
    requires forall i, j :: 0 <= i < j < |r| ==> LexLeq(r[i], r[j]) && r[i] != r[j]
    requires k <= |r| && s !in r
    requires forall i :: 0 <= i < k ==> LexLeq(r[i], s)
    requires k < |r| ==> !LexLeq(r[k], s)
    ensures var r' := r[..k] + [s] + r[k..];
            forall i, j :: 0 <= i < j < |r'| ==> LexLeq(r'[i], r'[j]) && r'[i] != r'[j]
  {
    forall j | k <= j < |r|
      ensures LexLeq(s, r[j])
    {
      LexTotal(r[k], s);
      if j > k {
        LexTransitive(s, r[k], r[j]);
      }
    }
  }

  // ---------- The summary ----------

  /** The entry a client deserves: its scopes are the union over its tokens, its
      access time is their latest and its name that of the first. */
  ghost predicate Summarises(tokens: seq<ClientToken>, c: ActiveClient) {
    && (forall s :: s in c.scope <==>
          exists k :: 0 <= k < |tokens| && tokens[k].id == c.id && s in tokens[k].scope)
    && (exists k :: 0 <= k < |tokens| && tokens[k].id == c.id && tokens[k].createdAt == c.lastAccessTime)
    && (forall k :: 0 <= k < |tokens| && tokens[k].id == c.id ==> tokens[k].createdAt <= c.lastAccessTime)
    && (exists k :: && 0 <= k < |tokens| && tokens[k].id == c.id && tokens[k].name == c.name
                    && (forall j :: 0 <= j < k ==> tokens[j].id != c.id))
  }

  ghost predicate HasEntry(clients: seq<ActiveClient>, id: ClientId) {
    exists c :: c in clients && c.id == id
  }

  ghost predicate IsSummary(tokens: seq<ClientToken>, clients: seq<ActiveClient>) {
    && (forall c :: c in clients ==> Summarises(tokens, c))
    && (forall i, j :: 0 <= i < j < |clients| ==> clients[i].id != clients[j].id)
    && (forall k :: 0 <= k < |tokens| ==> HasEntry(clients, tokens[k].id))
    && Sorted(clients)
  }

  function ClientsOf(listed: seq<ListedClient>): seq<ActiveClient> {
    seq(|listed|, i requires 0 <= i < |listed| => listed[i].client)
  }

  /** Folding one more token into the entries by client id. */
  function Absorb(entry: Option<ActiveClient>, t: ClientToken): ActiveClient {
    var c := if entry.Some? then entry.value else ActiveClient(t.id, t.name, t.createdAt, {});
    c.(scope := c.scope + t.scope,
       lastAccessTime := if t.createdAt > c.lastAccessTime then t.createdAt else c.lastAccessTime)
  }

  lemma AbsorbSummarises(tokens: seq<ClientToken>, entry: Option<ActiveClient>, t: ClientToken)
    requires entry.Some? ==> entry.value.id == t.id && Summarises(tokens, entry.value)
    requires entry.None? ==> forall k :: 0 <= k < |tokens| ==> tokens[k].id != t.id
    ensures Summarises(tokens + [t], Absorb(entry, t))
  {
    var tokens' := tokens + [t];
    var c := Absorb(entry, t);
    assert tokens'[|tokens|] == t;
    forall s
      ensures s in c.scope <==>
              exists k :: 0 <= k < |tokens'| && tokens'[k].id == c.id && s in tokens'[k].scope
    {
      if entry.Some? && s in entry.value.scope {
        var k :| 0 <= k < |tokens| && tokens[k].id == c.id && s in tokens[k].scope;
        assert tokens'[k] == tokens[k];
      }
      if k :| 0 <= k < |tokens'| && tokens'[k].id == c.id && s in tokens'[k].scope {
        if k < |tokens| {
          assert tokens'[k] == tokens[k];
        }
      }
    }
    if entry.Some? {
      var m :| 0 <= m < |tokens| && tokens[m].id == c.id && tokens[m].createdAt == entry.value.lastAccessTime;
      assert tokens'[m] == tokens[m];
      var f :| 0 <= f < |tokens| && tokens[f].id == c.id && tokens[f].name == c.name
               && forall j :: 0 <= j < f ==> tokens[j].id != c.id;
      assert tokens'[f] == tokens[f];
    } else {
      assert forall j :: 0 <= j < |tokens| ==> tokens'[j].id != c.id;
    }
  }

  lemma OtherTokenIrrelevant(tokens: seq<ClientToken>, c: ActiveClient, t: ClientToken)
    requires Summarises(tokens, c) && t.id != c.id
    ensures Summarises(tokens + [t], c)
  {
    var tokens' := tokens + [t];
    forall s
      ensures s in c.scope <==>
              exists k :: 0 <= k < |tokens'| && tokens'[k].id == c.id && s in tokens'[k].scope
    {
      if s in c.scope {
        var k :| 0 <= k < |tokens| && tokens[k].id == c.id && s in tokens[k].scope;
        assert tokens'[k] == tokens[k];
      }
    }
    var m :| 0 <= m < |tokens| && tokens[m].id == c.id && tokens[m].createdAt == c.lastAccessTime;
    assert tokens'[m] == tokens[m];
    var f :| 0 <= f < |tokens| && tokens[f].id == c.id && tokens[f].name == c.name
             && forall j :: 0 <= j < f ==> tokens[j].id != c.id;
    assert tokens'[f] == tokens[f];
  }

  /** The entries gathered from `tokens`, filed under their client id. */
  ghost predicate Grouped(tokens: seq<ClientToken>, active: map<ClientId, ActiveClient>) {
    && (forall id :: id in active ==> active[id].id == id && Summarises(tokens, active[id]))
    && (forall k :: 0 <= k < |tokens| ==> tokens[k].id in active)
  }

  lemma AbsorbKeepsGrouped(tokens: seq<ClientToken>, active: map<ClientId, ActiveClient>, t: ClientToken)
    requires Grouped(tokens, active)
    ensures Grouped(tokens + [t],
                    active[t.id := Absorb(if t.id in active then Some(active[t.id]) else None, t)])
  {
    var entry := if t.id in active then Some(active[t.id]) else None;
    var active' := active[t.id := Absorb(entry, t)];
    AbsorbSummarises(tokens, entry, t);
    forall id | id in active'
      ensures active'[id].id == id && Summarises(tokens + [t], active'[id])
    {
      if id != t.id {
        OtherTokenIrrelevant(tokens, active[id], t);
      }
    }
  }

  method GroupByClient(tokens: seq<ClientToken>) returns (active: map<ClientId, ActiveClient>)
    ensures Grouped(tokens, active)
  {
    active := map[];
    for n := 0 to |tokens|
      invariant Grouped(tokens[..n], active)
    {
      var t := tokens[n];
      AbsorbKeepsGrouped(tokens[..n], active, t);
      assert tokens[..n + 1] == tokens[..n] + [t];
      active := active[t.id := Absorb(if t.id in active then Some(active[t.id]) else None, t)];
    }
    assert tokens[..|tokens|] == tokens;
  }

  /** The entries as a list, one per key. */
  method Entries(active: map<ClientId, ActiveClient>) returns (entries: seq<ActiveClient>)
    requires forall id :: id in active ==> active[id].id == id
    ensures forall c :: c in entries <==> c.id in active && c == active[c.id]
    ensures forall i, j :: 0 <= i < j < |entries| ==> entries[i].id != entries[j].id
  {
    entries := [];
    var rest := active.Keys;
    while rest != {}
      invariant rest <= active.Keys
      invariant forall c: ActiveClient :: c in entries <==> c.id in active && c.id !in rest && c == active[c.id]
      invariant forall i, j :: 0 <= i < j < |entries| ==> entries[i].id != entries[j].id
      decreases |rest|
    {
      var id :| id in rest;
      entries := entries + [active[id]];
      rest := rest - {id};
    }
  }

  method AggregateActiveClients(tokens: seq<ClientToken>) returns (listed: seq<ListedClient>)
    ensures IsSummary(tokens, ClientsOf(listed))
    ensures forall l :: l in listed ==> Alphabetical(l.scopes, l.client.scope)
  {
    var active := GroupByClient(tokens);
    var entries := Entries(active);
    var clients := SortClients(entries);
    PermutationKeepsIds(entries, clients);
    PermutationKeepsMembers(entries, clients);
    forall k | 0 <= k < |tokens|
      ensures HasEntry(clients, tokens[k].id)
    {
      assert active[tokens[k].id] in clients;
    }
    assert IsSummary(tokens, clients);
    listed := [];
    for n := 0 to |clients|
      invariant ClientsOf(listed) == clients[..n]
      invariant forall l :: l in listed ==> Alphabetical(l.scopes, l.client.scope)
    {
      var scopes := SortScopes(clients[n].scope);
      listed := listed + [ListedClient(clients[n], scopes)];
    }
    assert ClientsOf(listed) == clients;
  }

  lemma PermutationKeepsMembers(s: seq<ActiveClient>, r: seq<ActiveClient>)
    requires multiset(s) == multiset(r)
    ensures forall c :: c in s <==> c in r
  {
    forall c
      ensures c in s <==> c in r
    {
      assert c in s <==> c in multiset(s);
      assert c in r <==> c in multiset(r);
    }
  }

  lemma PermutationKeepsIds(s: seq<ActiveClient>, r: seq<ActiveClient>)
    requires multiset(s) == multiset(r)
    requires forall i, j :: 0 <= i < j < |s| ==> s[i].id != s[j].id
    ensures forall i, j :: 0 <= i < j < |r| ==> r[i].id != r[j].id
  {
    forall i, j | 0 <= i < j < |r|
      ensures r[i].id != r[j].id
    {
      if r[i].id == r[j].id {
        assert r[i] in multiset(s) && r[j] in multiset(s);
        assert r[i] == r[j];
        TwiceInMultiset(r, i, j);
        OnceInMultiset(s, r[i]);
      }
    }
  }

  lemma TwiceInMultiset(r: seq<ActiveClient>, i: nat, j: nat)
    requires i < j < |r| && r[i] == r[j]
    ensures multiset(r)[r[i]] >= 2
  {
    assert r == r[..j] + r[j..];
    assert r[..j][i] == r[i] && r[j..][0] == r[j];
  }

  lemma {:induction false} OnceInMultiset(s: seq<ActiveClient>, c: ActiveClient)
    requires forall i, j :: 0 <= i < j < |s| ==> s[i].id != s[j].id
    ensures multiset(s)[c] <= 1
  {
    if s == [] {
    } else {
      assert s == [s[0]] + s[1..];
      OnceInMultiset(s[1..], c);
      if c == s[0] {
        assert c !in s[1..];
      }
    }
  }

  // ---------- One user's list ----------

  /** The token rows of a user that the list is made from. */
  predicate Relevant(clients: map<ClientId, Client>, row: AccessToken, uid: Uid) {
    row.userId == uid && row.clientId in clients && !clients[row.clientId].canGrant
  }

  function Annotate(clients: map<ClientId, Client>, row: AccessToken): ClientToken
    requires row.clientId in clients
  {
    ClientToken(row.clientId, clients[row.clientId].name, row.createdAt, row.scope)
  }

  /** `tokens` lists exactly the relevant rows among the keys `within`. */
  ghost predicate Collected(clients: map<ClientId, Client>, rows: map<Hash, AccessToken>, within: set<Hash>,
                            uid: Uid, tokens: seq<ClientToken>)
  {
    && (forall h :: h in within && h in rows && Relevant(clients, rows[h], uid) ==>
          Annotate(clients, rows[h]) in tokens)
    && (forall t :: t in tokens ==>
          exists h :: h in within && h in rows && Relevant(clients, rows[h], uid) && t == Annotate(clients, rows[h]))
  }

  /** The listing of one user: every stored token of that user whose client cannot
      grant is summarised, and nothing else is. It fails only without a user, or on a token
      of that user whose client is no longer registered. */
  method GetActiveClientsByUid(db: MemoryStore, uid: Uid) returns (r: Result<seq<ListedClient>, ()>)
    ensures r.Err? <==>
              || uid == ""
              || exists h :: h in db.tokens && db.tokens[h].userId == uid && db.tokens[h].clientId !in db.clients
    ensures r.Ok? ==>
              exists tokens :: && Collected(db.clients, db.tokens, db.tokens.Keys, uid, tokens)
                               && IsSummary(tokens, ClientsOf(r.value))
  {
    if uid == "" {
      return Err(());
    }
    var activeClientTokens := [];
    var ids := db.tokens.Keys;
    while ids != {}
      invariant ids <= db.tokens.Keys
      invariant forall h :: h in db.tokens && h !in ids && db.tokens[h].userId == uid ==>
                  db.tokens[h].clientId in db.clients
      invariant Collected(db.clients, db.tokens, db.tokens.Keys - ids, uid, activeClientTokens)
      decreases |ids|
    {
      var id :| id in ids;
      var row := db.tokens[id];
      ghost var before := activeClientTokens;
      if row.userId == uid {
        if row.clientId !in db.clients {
          return Err(());
        }
        if !db.clients[row.clientId].canGrant {
          activeClientTokens := activeClientTokens + [Annotate(db.clients, row)];
        }
      }
      CollectedOneMore(db.clients, db.tokens, db.tokens.Keys - ids, uid, before, id);
      ids := ids - {id};
      assert db.tokens.Keys - ids == db.tokens.Keys - (ids + {id}) + {id};
    }
    assert db.tokens.Keys - {} == db.tokens.Keys;
    var clients := AggregateActiveClients(activeClientTokens);
    return Ok(clients);
  }

  lemma CollectedOneMore(clients: map<ClientId, Client>, rows: map<Hash, AccessToken>, within: set<Hash>,
                         uid: Uid, tokens: seq<ClientToken>, h: Hash)
    requires h in rows && Collected(clients, rows, within, uid, tokens)
    requires rows[h].userId == uid ==> rows[h].clientId in clients
    ensures Collected(clients, rows, within + {h}, uid,
                      if Relevant(clients, rows[h], uid) then tokens + [Annotate(clients, rows[h])] else tokens)
  {
  }

  // ---------- Expired tokens ----------

  /** The user has a token for the client that a listing is made from, and that has not
      expired. */
  ghost predicate HasLiveToken(clients: map<ClientId, Client>, rows: map<Hash, AccessToken>, uid: Uid, now: int,
                               c: ClientId) {
    exists h :: h in rows && Relevant(clients, rows[h], uid) && rows[h].clientId == c && rows[h].expiresAt >= now
  }

  /** Expiry plays no part in the listing: it names only clients with a live token if and
      only if every client with a token at all has a live one. */
  lemma ListsOnlyLiveClients(clients: map<ClientId, Client>, rows: map<Hash, AccessToken>, uid: Uid, now: int,
                             tokens: seq<ClientToken>, listed: seq<ActiveClient>)
    requires Collected(clients, rows, rows.Keys, uid, tokens) && IsSummary(tokens, listed)
    ensures (forall c :: c in listed ==> HasLiveToken(clients, rows, uid, now, c.id)) <==>
            (forall h :: h in rows && Relevant(clients, rows[h], uid) ==>
               HasLiveToken(clients, rows, uid, now, rows[h].clientId))
  {
    if forall c :: c in listed ==> HasLiveToken(clients, rows, uid, now, c.id) {
      forall h | h in rows && Relevant(clients, rows[h], uid)
        ensures HasLiveToken(clients, rows, uid, now, rows[h].clientId)
      {
        EveryTokenIsListed(clients, rows, uid, tokens, listed, h);
      }
    }
    if forall h :: h in rows && Relevant(clients, rows[h], uid) ==>
         HasLiveToken(clients, rows, uid, now, rows[h].clientId) {
      forall c | c in listed
        ensures HasLiveToken(clients, rows, uid, now, c.id)
      {
        var t := SomeTokenOf(tokens, c);
        assert t in tokens;
      }
    }
  }

  lemma EveryTokenIsListed(clients: map<ClientId, Client>, rows: map<Hash, AccessToken>, uid: Uid,
                           tokens: seq<ClientToken>, listed: seq<ActiveClient>, h: Hash)
    requires Collected(clients, rows, rows.Keys, uid, tokens) && IsSummary(tokens, listed)
    requires h in rows && Relevant(clients, rows[h], uid)
    ensures HasEntry(listed, rows[h].clientId)
  {
    assert Annotate(clients, rows[h]) in tokens;
  }

  lemma SomeTokenOf(tokens: seq<ClientToken>, c: ActiveClient) returns (t: ClientToken)
    requires Summarises(tokens, c)
    ensures t in tokens && t.id == c.id
  {
    var k :| 0 <= k < |tokens| && tokens[k].id == c.id;
    t := tokens[k];
  }

  /** A user's only token has expired, and its client is listed all the same. */
  lemma ExpiredTokenIsListed(client: Client, row: AccessToken, h: Hash, now: int,
                             tokens: seq<ClientToken>, listed: seq<ActiveClient>)
    requires !client.canGrant && row.clientId == client.id && row.expiresAt < now
    requires Collected(map[client.id := client], map[h := row], {h}, row.userId, tokens)
    requires IsSummary(tokens, listed)
    ensures HasEntry(listed, client.id)
    ensures !HasLiveToken(map[client.id := client], map[h := row], row.userId, now, client.id)
  {
    EveryTokenIsListed(map[client.id := client], map[h := row], row.userId, tokens, listed, h);
  }
}

/** The session-token cache in Redis: one stored value per user, updated
    atomically, and the listing of sessions that reads and prunes it. */
module SessionCache {
  import opened Wrappers
  import opened CacheCodec

  type Uid = string

  /** The value under one key: missing, not JSON at all, or a JSON object whose
      entries are packed arrays, records in the older form, or anything else. */
  datatype Stored = Absent | Corrupt | Doc(tokens: map<Id, Value>)

  // ---------- What is cached of a token ----------

  /** The fields of a session token that the cache keeps. */
  datatype TokenInfo = TokenInfo(
    lastAccessTime: Value,
    uaBrowser: Value,
    uaBrowserVersion: Value,
    uaOS: Value,
    uaOSVersion: Value,
    uaDeviceType: Value,
    uaFormFactor: Value)

  datatype Place = Place(city: Value, state: Value, stateCode: Value, country: Value, countryCode: Value)

  function PlaceObject(place: Option<Place>): Value {
    if place.None? then Undefined
    else Obj(map[City := place.value.city, Country := place.value.country,
                 CountryCode := place.value.countryCode, State := place.value.state,
                 StateCode := place.value.stateCode])
  }

  function FreshRecord(t: TokenInfo, place: Option<Place>): Value {
    Obj(map[LastAccessTime := t.lastAccessTime, Location := PlaceObject(place),
            UaBrowser := t.uaBrowser, UaBrowserVersion := t.uaBrowserVersion,
            UaDeviceType := t.uaDeviceType, UaFormFactor := t.uaFormFactor,
            UaOS := t.uaOS, UaOSVersion := t.uaOSVersion])
  }

  /** What a touched token reads back as: its own seven fields and its place. */
  lemma FreshRecordView(t: TokenInfo, place: Option<Place>)
    ensures View(FreshRecord(t, place)) ==
            [Field.Plain(InArray(t.lastAccessTime)),
             if place.None? then Field.Plain(Null)
             else Field.Place([InArray(place.value.city), InArray(place.value.state), InArray(place.value.stateCode),
                               InArray(place.value.country), InArray(place.value.countryCode)]),
             Field.Plain(InArray(t.uaBrowser)), Field.Plain(InArray(t.uaBrowserVersion)),
             Field.Plain(InArray(t.uaOS)), Field.Plain(InArray(t.uaOSVersion)),
             Field.Plain(InArray(t.uaDeviceType)), Field.Plain(InArray(t.uaFormFactor))]
  {
    var r := FreshRecord(t, place);
    if place.Some? {
      var loc := PlaceObject(place);
      var p := place.value;
      assert PlaceItems(loc) == [p.city, p.state, p.stateCode, p.country, p.countryCode];
      assert Jsonify(PlaceItems(loc)) ==
             [InArray(p.city), InArray(p.state), InArray(p.stateCode), InArray(p.country), InArray(p.countryCode)];
    }
    assert forall i :: 0 <= i < 8 ==> View(r)[i] == ViewField(r, i);
  }

  // ---------- One key, as a value ----------

  function UnpackAll(tokens: map<Id, Value>): map<Id, Value> {
    map id | id in tokens :: Unpack(tokens[id])
  }

  /** Packing reads a property of every record, which fails on null. */
  predicate Packable(tokens: map<Id, Value>) {
    forall id :: id in tokens ==> !Nullish(tokens[id])
  }

  function PackEntry(record: Value): Value {
    if Nullish(record) then Null else Arr(Pack(record))
  }

  function PackAll(tokens: map<Id, Value>): map<Id, Value> {
    map id | id in tokens :: PackEntry(tokens[id])
  }

  /** Writing back an updated record map; a failure keeps the old value. */
  function WriteBack(stored: Stored, tokens: map<Id, Value>): Stored {
    if Packable(tokens) then Doc(PackAll(tokens)) else stored
  }

  function Touched(stored: Stored, id: Id, record: Value): Stored {
    match stored
    case Corrupt => Corrupt
    case Absent => WriteBack(stored, map[id := record])
    case Doc(tokens) => WriteBack(stored, UnpackAll(tokens)[id := record])
  }

  function Removed(stored: Stored, ids: set<Id>): Stored {
    match stored
    case Corrupt => Corrupt
    case Absent => Absent
    case Doc(tokens) =>
      var left := UnpackAll(tokens) - ids;
      if left == map[] then Absent else WriteBack(stored, left)
  }

  /** Whether an update goes through: the stored value is JSON and no null entry is
      left to be packed. */
  predicate TouchSucceeds(stored: Stored, id: Id, record: Value) {
    !stored.Corrupt? && (stored.Doc? ==> Packable(UnpackAll(stored.tokens)[id := record]))
  }

  predicate RemoveSucceeds(stored: Stored, ids: set<Id>) {
    !stored.Corrupt? && (stored.Doc? ==> Packable(UnpackAll(stored.tokens) - ids))
  }

  function Recovered(stored: Stored): Stored {
    if stored.Corrupt? then Absent else stored
  }

  // ---------- The plain map it stands for ----------

  /** The plain meaning: unreadable, or a map from ids to records, `None` standing
      for an entry that is null. */
  datatype Plain = Unreadable | Records(m: map<Id, Option<seq<Field>>>)

  function RecordOf(v: Value): Option<seq<Field>> {
    if Nullish(v) then None else Some(View(v))
  }

  function Meaning(stored: Stored): Plain {
    match stored
    case Corrupt => Unreadable
    case Absent => Records(map[])
    case Doc(tokens) => Records(map id | id in tokens :: RecordOf(Unpack(tokens[id])))
  }

  datatype Step = Touch(id: Id, token: TokenInfo, place: Option<Place>) | Delete(id: Id) | Prune(ids: set<Id>) | Read

  function StepCache(stored: Stored, step: Step): Stored {
    match step
    case Touch(id, token, place) => Touched(stored, id, FreshRecord(token, place))
    case Delete(id) => Removed(stored, {id})
    case Prune(ids) => Removed(stored, ids)
    case Read => Recovered(stored)
  }

  /** The map update a step stands for; it is refused while a null entry is left. */
  function Attempt(p: Plain, next: map<Id, Option<seq<Field>>>): Plain {
    if exists id :: id in next && next[id].None? then p else Records(next)
  }

  function StepPlain(p: Plain, step: Step): Plain {
    if p.Unreadable? then (if step.Read? then Records(map[]) else p)
    else
      match step
      case Touch(id, token, place) => Attempt(p, p.m[id := Some(View(FreshRecord(token, place)))])
      case Delete(id) => Attempt(p, p.m - {id})
      case Prune(ids) => Attempt(p, p.m - ids)
      case Read => p
  }

  function RunCache(stored: Stored, steps: seq<Step>): Stored
    decreases |steps|
  {
    if steps == [] then stored else RunCache(StepCache(stored, steps[0]), steps[1..])
  }

  function RunPlain(p: Plain, steps: seq<Step>): Plain
    decreases |steps|
  {
    if steps == [] then p else RunPlain(StepPlain(p, steps[0]), steps[1..])
  }

  function MapMeaning(tokens: map<Id, Value>): map<Id, Option<seq<Field>>> {
    map id | id in tokens :: RecordOf(tokens[id])
  }

  lemma PackedMeans(tokens: map<Id, Value>)
    requires Packable(tokens)
    ensures Meaning(Doc(PackAll(tokens))) == Records(MapMeaning(tokens))
  {
    forall id | id in tokens
      ensures RecordOf(Unpack(Arr(Pack(tokens[id])))) == RecordOf(tokens[id])
    {
      PackThenUnpack(tokens[id]);
      UnpackedProperty(Pack(tokens[id]), 0);
    }
    assert Meaning(Doc(PackAll(tokens))).m == MapMeaning(tokens);
  }

  lemma WriteBackMeans(stored: Stored, tokens: map<Id, Value>)
    ensures Meaning(WriteBack(stored, tokens)) == Attempt(Meaning(stored), MapMeaning(tokens))
  {
    if Packable(tokens) {
      PackedMeans(tokens);
    } else {
      var id :| id in tokens && Nullish(tokens[id]);
      assert MapMeaning(tokens)[id].None?;
    }
  }

  lemma TouchMeans(stored: Stored, id: Id, record: Value)
    requires !stored.Corrupt? && !Nullish(record)
    ensures Meaning(Touched(stored, id, record)) ==
            Attempt(Meaning(stored), Meaning(stored).m[id := Some(View(record))])
  {
    var all := if stored.Doc? then UnpackAll(stored.tokens) else map[];
    WriteBackMeans(stored, all[id := record]);
    assert MapMeaning(all[id := record]) == Meaning(stored).m[id := Some(View(record))];
  }

  lemma RemoveMeans(stored: Stored, ids: set<Id>)
    requires !stored.Corrupt?
    ensures Meaning(Removed(stored, ids)) == Attempt(Meaning(stored), Meaning(stored).m - ids)
  {
    if stored.Doc? {
      var left := UnpackAll(stored.tokens) - ids;
      WriteBackMeans(stored, left);
      assert MapMeaning(left) == Meaning(stored).m - ids;
    } else {
      assert Meaning(stored).m - ids == map[];
    }
  }

  lemma StepMeans(stored: Stored, step: Step)
    ensures Meaning(StepCache(stored, step)) == StepPlain(Meaning(stored), step)
  {
    if !stored.Corrupt? {
      match step {
        case Touch(id, token, place) => TouchMeans(stored, id, FreshRecord(token, place));
        case Delete(id) => RemoveMeans(stored, {id});
        case Prune(ids) => RemoveMeans(stored, ids);
        case Read =>
      }
    }
  }

  /** From any stored value, packed, older or mixed, any sequence of steps means the
      same steps on the plain map. */
  lemma {:induction false} CacheRefinesMap(stored: Stored, steps: seq<Step>)
    ensures Meaning(RunCache(stored, steps)) == RunPlain(Meaning(stored), steps)
    decreases |steps|
  {
    if steps == [] {
    } else {
      StepMeans(stored, steps[0]);
      CacheRefinesMap(StepCache(stored, steps[0]), steps[1..]);
    }
  }

  /** A step touches the record of no other token, and never leaves an empty object
      behind. */
  lemma StepIsLocal(stored: Stored, step: Step, other: Id)
    requires !step.Read?
    requires step.Touch? || step.Delete? ==> other != step.id
    requires step.Prune? ==> other !in step.ids
    requires !stored.Corrupt?
    ensures var (before, after) := (Meaning(stored), Meaning(StepCache(stored, step)));
            && (other in before.m <==> other in after.m)
            && (other in before.m ==> after.m[other] == before.m[other])
    ensures StepCache(stored, step) != Doc(map[])
  {
    StepMeans(stored, step);
    if stored.Doc? {
      match step {
        case Touch(id, token, place) =>
          var next := UnpackAll(stored.tokens)[id := FreshRecord(token, place)];
          assert id in next;
          WriteBackNotEmpty(stored, next, id);
        case Delete(id) =>
          LeftoversNotEmpty(stored, {id});
        case Prune(ids) =>
          LeftoversNotEmpty(stored, ids);
      }
    } else if step.Touch? {
      WriteBackNotEmpty(stored, map[step.id := FreshRecord(step.token, step.place)], step.id);
    }
  }

  lemma WriteBackNotEmpty(stored: Stored, tokens: map<Id, Value>, id: Id)
    requires id in tokens
    requires forall k :: k in tokens && Nullish(tokens[k]) ==> stored.Doc? && k in stored.tokens
    ensures WriteBack(stored, tokens) != Doc(map[])
  {
    if Packable(tokens) {
      assert id in PackAll(tokens);
    }
  }

  lemma LeftoversNotEmpty(stored: Stored, ids: set<Id>)
    requires stored.Doc?
    ensures Removed(stored, ids) != Doc(map[])
  {
    var left := UnpackAll(stored.tokens) - ids;
    if left != map[] {
      var id :| id in left;
      WriteBackNotEmpty(stored, left, id);
    }
  }

  /** Without null entries no step is refused, so a run is the plain sequence of map
      updates. */
  ghost predicate NoNulls(p: Plain) {
    p.Records? && forall id :: id in p.m ==> p.m[id].Some?
  }

  lemma {:induction false} NullFreeRunsNeverFail(p: Plain, steps: seq<Step>)
    requires NoNulls(p)
    ensures NoNulls(RunPlain(p, steps))
    ensures steps != [] ==>
              StepPlain(p, steps[0]) ==
              match steps[0]
              case Touch(id, token, place) => Records(p.m[id := Some(View(FreshRecord(token, place)))])
              case Delete(id) => Records(p.m - {id})
              case Prune(ids) => Records(p.m - ids)
              case Read => p
    decreases |steps|
  {
    if steps == [] {
    } else {
      NullFreeRunsNeverFail(StepPlain(p, steps[0]), steps[1..]);
    }
  }

  // ---------- The store ----------

  datatype Config = Config(
    redisEnabled: bool,
    lastAccessTimeEnabled: bool,
    pruningEnabled: bool,
    pruningMaxAge: int,
    maxAgeWithoutDevice: int)

  /** A row of the sessions table. */
  datatype Row = Row(tokenId: Id, deviceId: Option<string>, createdAt: int)

  /** The rows' cached counterparts are merged over them for the caller. */
  datatype Session = Session(row: Row, cached: Option<Value>)

  method TruncatePackedArray(packed: seq<Value>) returns (r: seq<Value>)
    ensures r == Truncate(packed)
  {
    r := packed;
    while r != [] && Nullish(r[|r| - 1])
      invariant Truncate(r) == Truncate(packed)
      decreases |r|
    {
      r := r[..|r| - 1];
    }
  }

  method PackToken(record: Value) returns (packed: seq<Value>)
    requires !Nullish(record)
    ensures packed == Pack(record)
  {
    var slots := [];
    for i := 0 to 8
      invariant slots == Slots(record)[..i]
    {
      var value := Get(record, PROPERTIES[i]);
      if i == LOCATION_INDEX && Truthy(value) {
        var parts := TruncatePackedArray(PlaceItems(value));
        value := Arr(Jsonify(parts));
      }
      slots := slots + [value];
    }
    assert slots == Slots(record);
    var r := TruncatePackedArray(slots);
    packed := Jsonify(r);
  }

  method PackTokensForRedis(tokens: map<Id, Value>) returns (r: Option<map<Id, Value>>)
    ensures r == if Packable(tokens) then Some(PackAll(tokens)) else None
  {
    var packed: map<Id, Value> := map[];
    var rest := tokens.Keys;
    while rest != {}
      invariant rest <= tokens.Keys
      invariant Packable(tokens - rest)
      invariant packed == PackAll(tokens - rest)
      decreases |rest|
    {
      var id :| id in rest;
      if Nullish(tokens[id]) {
        return None;
      }
      var p := PackToken(tokens[id]);
      ghost var done := tokens - rest;
      packed := packed[id := Arr(p)];
      rest := rest - {id};
      assert tokens - rest == done[id := tokens[id]];
    }
    assert tokens - {} == tokens;
    return Some(packed);
  }

  class Cache {
    const config: Config
    var redis: map<Uid, Stored>

    constructor (config: Config)
      ensures this.config == config && redis == map[]
    {
      this.config, redis := config, map[];
    }

    function Entry(uid: Uid): Stored
      reads this
    {
      if uid in redis then redis[uid] else Absent
    }

    /** An atomic update of one key; storing nothing deletes the key. */
    method Put(uid: Uid, s: Stored)
      modifies this
      ensures Entry(uid) == s
      ensures forall u :: u != uid ==> Entry(u) == old(Entry(u))
    {
      redis := if s.Absent? then redis - {uid} else redis[uid := s];
    }

    method TouchSessionToken(uid: Uid, id: Id, token: TokenInfo, place: Option<Place>) returns (ok: bool)
      modifies this
      ensures ok <==> (config.redisEnabled && config.lastAccessTimeEnabled ==>
                         TouchSucceeds(old(Entry(uid)), id, FreshRecord(token, place)))
      ensures Entry(uid) ==
              if config.redisEnabled && config.lastAccessTimeEnabled
              then Touched(old(Entry(uid)), id, FreshRecord(token, place)) else old(Entry(uid))
      ensures forall u :: u != uid ==> Entry(u) == old(Entry(u))
    {
      if !config.redisEnabled || !config.lastAccessTimeEnabled {
        return true;
      }
      var stored := Entry(uid);
      if stored.Corrupt? {
        return false;
      }
      var sessionTokens := if stored.Doc? then UnpackAll(stored.tokens) else map[];
      sessionTokens := sessionTokens[id := FreshRecord(token, place)];
      var packed := PackTokensForRedis(sessionTokens);
      if packed.None? {
        return false;
      }
      Put(uid, Doc(packed.value));
      return true;
    }

    method DeleteSessionTokenFromRedis(uid: Uid, id: Id) returns (ok: bool)
      modifies this
      ensures ok <==> (config.redisEnabled ==> RemoveSucceeds(old(Entry(uid)), {id}))
      ensures Entry(uid) == if config.redisEnabled then Removed(old(Entry(uid)), {id}) else old(Entry(uid))
      ensures forall u :: u != uid ==> Entry(u) == old(Entry(u))
    {
      if !config.redisEnabled {
        return true;
      }
      ok := Remove(uid, [id]);
      assert SetOf([id]) == {id};
    }

    /** Deletes some ids and writes back what is left, if anything. */
    method Remove(uid: Uid, ids: seq<Id>) returns (ok: bool)
      modifies this
      ensures ok <==> RemoveSucceeds(old(Entry(uid)), SetOf(ids))
      ensures Entry(uid) == Removed(old(Entry(uid)), SetOf(ids))
      ensures forall u :: u != uid ==> Entry(u) == old(Entry(u))
    {
      var stored := Entry(uid);
      if !stored.Doc? {
        return stored.Absent?;
      }
      var sessionTokens := UnpackAll(stored.tokens);
      for n := 0 to |ids|
        invariant sessionTokens == UnpackAll(stored.tokens) - SetOf(ids[..n])
      {
        assert SetOf(ids[..n + 1]) == SetOf(ids[..n]) + {ids[n]};
        sessionTokens := sessionTokens - {ids[n]};
      }
      assert ids[..|ids|] == ids;
      if |sessionTokens| > 0 {
        assert sessionTokens != map[];
        var packed := PackTokensForRedis(sessionTokens);
        if packed.None? {
          return false;
        }
        Put(uid, Doc(packed.value));
      } else {
        assert sessionTokens == map[];
        Put(uid, Absent);
      }
      return true;
    }

    method PruneSessionTokens(uid: Uid, rows: seq<Row>, now: int) returns (ok: bool)
      modifies this
      ensures ok <==> (config.redisEnabled && config.pruningEnabled && config.lastAccessTimeEnabled &&
                       Prunable(rows, now, config.pruningMaxAge) != [] ==>
                         RemoveSucceeds(old(Entry(uid)), SetOf(Prunable(rows, now, config.pruningMaxAge))))
      ensures Entry(uid) ==
              if config.redisEnabled && config.pruningEnabled && config.lastAccessTimeEnabled &&
                 Prunable(rows, now, config.pruningMaxAge) != []
              then Removed(old(Entry(uid)), SetOf(Prunable(rows, now, config.pruningMaxAge)))
              else old(Entry(uid))
      ensures Entry(uid) ==
              if config.redisEnabled && config.pruningEnabled && config.lastAccessTimeEnabled &&
                 OldIds(rows, now, config.pruningMaxAge) != {}
              then Removed(old(Entry(uid)), OldIds(rows, now, config.pruningMaxAge))
              else old(Entry(uid))
      ensures forall u :: u != uid ==> Entry(u) == old(Entry(u))
    {
      PrunableAreOld(rows, now, config.pruningMaxAge);
      if !config.redisEnabled || !config.pruningEnabled || !config.lastAccessTimeEnabled {
        return true;
      }
      var tokenIds := Prunable(rows, now, config.pruningMaxAge);
      if tokenIds == [] {
        return true;
      }
      ok := Remove(uid, tokenIds);
    }

    /** Reads one key; a value that is not JSON is deleted. */
    method SafeUnpackTokens(uid: Uid) returns (tokens: map<Id, Value>)
      modifies this
      ensures Entry(uid) == Recovered(old(Entry(uid)))
      ensures forall u :: u != uid ==> Entry(u) == old(Entry(u))
      ensures tokens == if Entry(uid).Doc? then UnpackAll(Entry(uid).tokens) else map[]
    {
      var stored := Entry(uid);
      if stored.Corrupt? {
        Put(uid, Absent);
        return map[];
      }
      return if stored.Doc? then UnpackAll(stored.tokens) else map[];
    }

    /** The live sessions of a user. The cache is read first; then the records of the
        expired rows are pruned. */
    method Sessions(uid: Uid, rows: seq<Row>, now: int) returns (sessions: seq<Session>)
      modifies this
      ensures forall u :: u != uid ==> Entry(u) == old(Entry(u))
      ensures |sessions| == |LiveRows(config, rows, now)|
      ensures forall i :: 0 <= i < |sessions| ==> sessions[i].row == LiveRows(config, rows, now)[i]
      ensures config.redisEnabled ==>
                forall i :: 0 <= i < |sessions| ==>
                  sessions[i].cached == Lookup(Recovered(old(Entry(uid))), sessions[i].row.tokenId)
      ensures Entry(uid) == ListingLeaves(config, old(Entry(uid)), rows, now)
      ensures Entry(uid) ==
              var stored := if config.redisEnabled && old(Entry(uid)).Corrupt? then Absent else old(Entry(uid));
              var ids := OutdatedIds(config, rows, now);
              if config.redisEnabled && config.pruningEnabled && config.lastAccessTimeEnabled && ids != {}
              then Removed(stored, ids) else stored
    {
      PrunableAreOld(ExpiredRows(config, rows, now), now, config.pruningMaxAge);
      ExpiredIdsAreOutdated(config, rows, now);
      var cached := map[];
      if config.redisEnabled {
        cached := SafeUnpackTokens(uid);
      }
      var live, expired := SplitRows(config, rows, now);
      if config.maxAgeWithoutDevice != 0 && expired != [] {
        var _ := PruneSessionTokens(uid, expired, now);
      }
      NoLimitAllLive(config, rows, now);
      sessions := MergeCached(live, cached);
    }
  }

  /** The live rows in order, and the expired ones. */
  method SplitRows(config: Config, rows: seq<Row>, now: int) returns (live: seq<Row>, expired: seq<Row>)
    ensures live == LiveRows(config, rows, now) && expired == ExpiredRows(config, rows, now)
  {
    if config.maxAgeWithoutDevice == 0 {
      NoLimitAllLive(config, rows, now);
      return rows, [];
    }
    live, expired := [], [];
    for n := 0 to |rows|
      invariant live == LiveRows(config, rows[..n], now)
      invariant expired == ExpiredRows(config, rows[..n], now)
    {
      assert rows[..n + 1][..n] == rows[..n];
      if rows[n].deviceId.Some? || rows[n].createdAt > now - config.maxAgeWithoutDevice {
        live := live + [rows[n]];
      } else {
        expired := expired + [rows[n]];
      }
    }
    assert rows[..|rows|] == rows;
  }

  /** Lays the cached records over their rows. */
  method MergeCached(live: seq<Row>, cached: map<Id, Value>) returns (sessions: seq<Session>)
    ensures |sessions| == |live|
    ensures forall i :: 0 <= i < |sessions| ==>
              sessions[i] == Session(live[i], if live[i].tokenId in cached then Some(cached[live[i].tokenId]) else None)
  {
    sessions := [];
    for n := 0 to |live|
      invariant |sessions| == n
      invariant forall i :: 0 <= i < n ==>
        sessions[i] == Session(live[i], if live[i].tokenId in cached then Some(cached[live[i].tokenId]) else None)
    {
      var id := live[n].tokenId;
      sessions := sessions + [Session(live[n], if id in cached then Some(cached[id]) else None)];
    }
  }

  function SetOf(ids: seq<Id>): set<Id> {
    set id | id in ids
  }

  function Lookup(stored: Stored, id: Id): Option<Value> {
    if stored.Doc? && id in stored.tokens then Some(Unpack(stored.tokens[id])) else None
  }

  function Prunable(rows: seq<Row>, now: int, maxAge: int): seq<Id> {
    if rows == [] then []
    else (if rows[0].createdAt <= now - maxAge then [rows[0].tokenId] else []) + Prunable(rows[1..], now, maxAge)
  }

  /** The ids of the rows that were created at least `maxAge` ago. */
  function OldIds(rows: seq<Row>, now: int, maxAge: int): set<Id> {
    set r | r in rows && r.createdAt + maxAge <= now :: r.tokenId
  }

  lemma {:induction false} PrunableAreOld(rows: seq<Row>, now: int, maxAge: int)
    ensures SetOf(Prunable(rows, now, maxAge)) == OldIds(rows, now, maxAge)
    ensures Prunable(rows, now, maxAge) == [] <==> OldIds(rows, now, maxAge) == {}
  {
    if rows == [] {
    } else {
      PrunableAreOld(rows[1..], now, maxAge);
      var (all, rest) := (Prunable(rows, now, maxAge), Prunable(rows[1..], now, maxAge));
      assert rows == [rows[0]] + rows[1..];
      if rows[0].createdAt + maxAge <= now {
        assert all == [rows[0].tokenId] + rest;
        assert SetOf(all) == {rows[0].tokenId} + SetOf(rest);
        assert OldIds(rows, now, maxAge) == {rows[0].tokenId} + OldIds(rows[1..], now, maxAge);
      } else {
        assert all == rest;
        assert OldIds(rows, now, maxAge) == OldIds(rows[1..], now, maxAge);
      }
    }
  }

  /** The ids of the rows without a device that have outlived both the allowed age of such
      rows, if there is one, and the age for pruning. */
  function OutdatedIds(config: Config, rows: seq<Row>, now: int): set<Id> {
    set r | r in rows && config.maxAgeWithoutDevice != 0 && r.deviceId.None?
            && r.createdAt + config.maxAgeWithoutDevice <= now && r.createdAt + config.pruningMaxAge <= now
          :: r.tokenId
  }

  lemma ExpiredIdsAreOutdated(config: Config, rows: seq<Row>, now: int)
    ensures OldIds(ExpiredRows(config, rows, now), now, config.pruningMaxAge) == OutdatedIds(config, rows, now)
  {
    RowsSplit(config, rows, now);
  }

  predicate Live(config: Config, row: Row, now: int) {
    || config.maxAgeWithoutDevice == 0
    || row.deviceId.Some?
    || row.createdAt > now - config.maxAgeWithoutDevice
  }

  function LiveRows(config: Config, rows: seq<Row>, now: int): seq<Row> {
    if rows == [] then []
    else LiveRows(config, rows[..|rows| - 1], now) +
         if Live(config, rows[|rows| - 1], now) then [rows[|rows| - 1]] else []
  }

  function ExpiredRows(config: Config, rows: seq<Row>, now: int): seq<Row> {
    if rows == [] then []
    else ExpiredRows(config, rows[..|rows| - 1], now) +
         if Live(config, rows[|rows| - 1], now) then [] else [rows[|rows| - 1]]
  }

  /** What a listing leaves in the cache. */
  function ListingLeaves(config: Config, stored: Stored, rows: seq<Row>, now: int): Stored {
    if !config.redisEnabled then stored
    else
      var ids := Prunable(ExpiredRows(config, rows, now), now, config.pruningMaxAge);
      if config.pruningEnabled && config.lastAccessTimeEnabled && ids != []
      then Removed(Recovered(stored), SetOf(ids)) else Recovered(stored)
  }

  lemma {:induction false} NoLimitAllLive(config: Config, rows: seq<Row>, now: int)
    ensures config.maxAgeWithoutDevice == 0 ==>
              LiveRows(config, rows, now) == rows && ExpiredRows(config, rows, now) == []
  {
    if rows == [] {
    } else {
      NoLimitAllLive(config, rows[..|rows| - 1], now);
    }
  }

  // ---------- Listing and authentication agree ----------

  /** A token rebuilt from a row; no lifetime stands for infinity. */
  datatype Token = Token(lifetime: Option<int>, createdAt: int)

  function Rebuild(config: Config, row: Row): Token {
    Token(if config.maxAgeWithoutDevice != 0 && row.deviceId.None? then Some(config.maxAgeWithoutDevice) else None,
          row.createdAt)
  }

  function CeilSeconds(ms: int): int {
    -(-ms / 1000)
  }

  /** Seconds left, rounded up and never negative; `None` for ever. */
  function Ttl(t: Token, now: int): Option<nat> {
    if t.lifetime.None? then None
    else
      var s := CeilSeconds(t.lifetime.value - (now - t.createdAt));
      Some(if s > 0 then s else 0)
  }

  predicate Expired(t: Token, now: int) {
    Ttl(t, now) == Some(0)
  }

  lemma CeilSecondsBounds(ms: int)
    ensures CeilSeconds(ms) * 1000 - 1000 < ms <= CeilSeconds(ms) * 1000
  {
  }

  /** At every instant a row is listed exactly when its token is not expired. */
  lemma ListedIffNotExpired(config: Config, row: Row, now: int)
    ensures Live(config, row, now) <==> !Expired(Rebuild(config, row), now)
  {
    CeilSecondsBounds(config.maxAgeWithoutDevice - (now - row.createdAt));
  }

  lemma {:induction false} RowsSplit(config: Config, rows: seq<Row>, now: int)
    ensures forall r :: r in LiveRows(config, rows, now) <==> r in rows && Live(config, r, now)
    ensures forall r :: r in ExpiredRows(config, rows, now) <==> r in rows && !Live(config, r, now)
  {
    if rows == [] {
    } else {
      RowsSplit(config, rows[..|rows| - 1], now);
      assert rows == rows[..|rows| - 1] + [rows[|rows| - 1]];
    }
  }

  lemma {:induction false} PrunableIds(rows: seq<Row>, now: int, maxAge: int)
    ensures forall id :: id in Prunable(rows, now, maxAge) ==> exists r :: r in rows && r.tokenId == id
  {
    if rows == [] {
    } else {
      PrunableIds(rows[1..], now, maxAge);
    }
  }

  /** The listing returns exactly the rows whose tokens still authenticate, and the
      pruning it triggers keeps the cached record of each of them. Token ids are the
      key of the sessions table. */
  lemma ListingKeepsListedRecords(config: Config, stored: Stored, rows: seq<Row>, now: int, row: Row)
    requires forall a, b :: a in rows && b in rows && a.tokenId == b.tokenId ==> a == b
    requires row in rows
    ensures row in LiveRows(config, rows, now) <==> !Expired(Rebuild(config, row), now)
    ensures row in LiveRows(config, rows, now) && !stored.Corrupt? ==>
              var (before, after) := (Meaning(stored), Meaning(ListingLeaves(config, stored, rows, now)));
              && (row.tokenId in before.m <==> row.tokenId in after.m)
              && (row.tokenId in before.m ==> after.m[row.tokenId] == before.m[row.tokenId])
  {
    RowsSplit(config, rows, now);
    ListedIffNotExpired(config, row, now);
    if row in LiveRows(config, rows, now) && !stored.Corrupt? {
      var ids := Prunable(ExpiredRows(config, rows, now), now, config.pruningMaxAge);
      PrunableIds(ExpiredRows(config, rows, now), now, config.pruningMaxAge);
      assert row.tokenId !in SetOf(ids);
      StepIsLocal(stored, Prune(SetOf(ids)), row.tokenId);
    }
  }
}

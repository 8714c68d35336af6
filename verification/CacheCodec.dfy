/** The packed form of cached session-token records: positional arrays without
    trailing nulls, next to the older form that keeps property names. */
module CacheCodec {
  type Id = string

  /** The property names the cache knows; any other name may occur in older data. */
  datatype Property =
    | LastAccessTime | Location | UaBrowser | UaBrowserVersion
    | UaOS | UaOSVersion | UaDeviceType | UaFormFactor
    | City | State | StateCode | Country | CountryCode
    | Other(name: string)

  /** JavaScript values. Those parsed from JSON contain no `Undefined`. */
  datatype Value =
    | Undefined
    | Null
    | Bool(b: bool)
    | Num(n: int)
    | Str(s: string)
    | Arr(items: seq<Value>)
    | Obj(props: map<Property, Value>)

  const PROPERTIES: seq<Property> :=
    [LastAccessTime, Location, UaBrowser, UaBrowserVersion, UaOS, UaOSVersion, UaDeviceType, UaFormFactor]

  const LOCATION_INDEX := 1

  const LOCATION_PROPERTIES: seq<Property> := [City, State, StateCode, Country, CountryCode]

  predicate Nullish(v: Value) { v.Undefined? || v.Null? }

  predicate Truthy(v: Value) {
    !Nullish(v) && v != Bool(false) && v != Num(0) && v != Str("")
  }

  /** Reading a property; only objects have the properties of the cache. */
  function Get(v: Value, p: Property): Value
    requires !Nullish(v)
  {
    if v.Obj? && p in v.props then v.props[p] else Undefined
  }

  function At(items: seq<Value>, i: nat): Value {
    if i < |items| then items[i] else Undefined
  }

  /** What becomes of an array element that goes through JSON. */
  function InArray(v: Value): Value {
    if v.Undefined? then Null else v
  }

  function Jsonify(items: seq<Value>): (r: seq<Value>)
    ensures |r| == |items|
  {
    seq(|items|, i requires 0 <= i < |items| => InArray(items[i]))
  }

  function Truncate(items: seq<Value>): seq<Value> {
    if items == [] || !Nullish(items[|items| - 1]) then items
    else Truncate(items[..|items| - 1])
  }

  // ---------- Packing ----------

  function PlaceItems(loc: Value): (r: seq<Value>)
    requires !Nullish(loc)
    ensures |r| == 5
  {
    seq(5, j requires 0 <= j < 5 => Get(loc, LOCATION_PROPERTIES[j]))
  }

  function Slot(record: Value, i: nat): Value
    requires !Nullish(record) && i < 8
  {
    var v := Get(record, PROPERTIES[i]);
    if i == LOCATION_INDEX && Truthy(v) then Arr(Jsonify(Truncate(PlaceItems(v)))) else v
  }

  function Slots(record: Value): (r: seq<Value>)
    requires !Nullish(record)
    ensures |r| == 8
  {
    seq(8, i requires 0 <= i < 8 => Slot(record, i))
  }

  /** A record as it is written. */
  function Pack(record: Value): seq<Value>
    requires !Nullish(record)
  {
    Jsonify(Truncate(Slots(record)))
  }

  // ---------- Unpacking ----------

  /** The position of a property in its list. */
  function Position(p: Property): nat {
    match p
    case LastAccessTime => 0
    case Location => 1
    case UaBrowser => 2
    case UaBrowserVersion => 3
    case UaOS => 4
    case UaOSVersion => 5
    case UaDeviceType => 6
    case UaFormFactor => 7
    case City => 0
    case State => 1
    case StateCode => 2
    case Country => 3
    case CountryCode => 4
    case Other(_) => 0
  }

  lemma Positions()
    ensures |PROPERTIES| == 8 && |LOCATION_PROPERTIES| == 5
    ensures forall i :: 0 <= i < 8 ==> Position(PROPERTIES[i]) == i
    ensures forall j :: 0 <= j < 5 ==> Position(LOCATION_PROPERTIES[j]) == j
  {
  }

  /** Gives the elements their property names. */
  function Named(items: seq<Value>, names: seq<Property>): map<Property, Value> {
    map p | p in names :: At(items, Position(p))
  }

  /** A record as it is read back, from either form. */
  function Unpack(stored: Value): Value {
    if stored.Arr? then
      var props := Named(stored.items, PROPERTIES);
      var loc := At(stored.items, LOCATION_INDEX);
      Obj(if loc.Arr? then props[Location := Obj(Named(loc.items, LOCATION_PROPERTIES))] else props)
    else stored
  }

  // ---------- The meaning of a record ----------

  /** One cached property: a plain value, or a place with its five properties. */
  datatype Field = Plain(value: Value) | Place(parts: seq<Value>)

  function ViewField(record: Value, i: nat): Field
    requires !Nullish(record) && i < 8
  {
    var v := Get(record, PROPERTIES[i]);
    if i == LOCATION_INDEX && Truthy(v) then Place(Jsonify(PlaceItems(v))) else Plain(InArray(v))
  }

  /** The eight cached properties of an unpacked record, with undefined read as null. */
  function View(record: Value): (r: seq<Field>)
    requires !Nullish(record)
    ensures |r| == 8
  {
    seq(8, i requires 0 <= i < 8 => ViewField(record, i))
  }

  function EncodeField(f: Field): Value {
    match f
    case Plain(v) => v
    case Place(parts) => Arr(Truncate(parts))
  }

  function Encode(view: seq<Field>): seq<Value> {
    Truncate(seq(|view|, i requires 0 <= i < |view| => EncodeField(view[i])))
  }

  // ---------- Truncation ----------

  /** Truncation keeps a prefix that ends in something, and drops only nulls. */
  lemma {:induction false} TruncateShape(a: seq<Value>)
    ensures Truncate(a) <= a
    ensures Truncate(a) != [] ==> !Nullish(Truncate(a)[|Truncate(a)| - 1])
    ensures forall i :: |Truncate(a)| <= i < |a| ==> Nullish(a[i])
  {
    if a == [] || !Nullish(a[|a| - 1]) {
    } else {
      TruncateShape(a[..|a| - 1]);
      assert forall i :: 0 <= i < |a| - 1 ==> a[..|a| - 1][i] == a[i];
    }
  }

  lemma {:induction false} TruncateJsonify(a: seq<Value>)
    ensures Truncate(Jsonify(a)) == Jsonify(Truncate(a))
  {
    if a == [] || !Nullish(a[|a| - 1]) {
    } else {
      TruncateJsonify(a[..|a| - 1]);
      assert Jsonify(a)[..|a| - 1] == Jsonify(a[..|a| - 1]);
    }
  }

  // ---------- Packing depends on the meaning only ----------

  lemma PackEncodesView(record: Value)
    requires !Nullish(record)
    ensures Pack(record) == Encode(View(record))
  {
    TruncateJsonify(Slots(record));
    var encoded := seq(8, i requires 0 <= i < 8 => EncodeField(View(record)[i]));
    forall i | 0 <= i < 8
      ensures Jsonify(Slots(record))[i] == encoded[i]
    {
      var v := Get(record, PROPERTIES[i]);
      if i == LOCATION_INDEX && Truthy(v) {
        TruncateJsonify(PlaceItems(v));
      }
    }
    assert Jsonify(Slots(record)) == encoded;
  }

  lemma UnpackedProperty(items: seq<Value>, i: nat)
    requires i < 8
    ensures !Nullish(Unpack(Arr(items)))
    ensures Get(Unpack(Arr(items)), PROPERTIES[i]) ==
            if i == LOCATION_INDEX && At(items, i).Arr?
            then Obj(Named(At(items, i).items, LOCATION_PROPERTIES))
            else At(items, i)
  {
    Positions();
    assert PROPERTIES[i] in PROPERTIES;
    assert PROPERTIES[i] == Location <==> i == LOCATION_INDEX;
  }

  lemma PlaceProperty(items: seq<Value>, j: nat)
    requires j < 5
    ensures Get(Obj(Named(items, LOCATION_PROPERTIES)), LOCATION_PROPERTIES[j]) == At(items, j)
  {
    Positions();
    assert LOCATION_PROPERTIES[j] in LOCATION_PROPERTIES;
  }

  lemma UnpackedPlace(items: seq<Value>, j: nat)
    requires j < 5
    ensures Jsonify(PlaceItems(Obj(Named(items, LOCATION_PROPERTIES))))[j] == InArray(At(items, j))
  {
    PlaceProperty(items, j);
  }

  /** Reading back what truncation left gives the same elements, nulls included. */
  lemma TruncatedAt(a: seq<Value>, i: nat)
    requires i < |a|
    ensures InArray(At(Jsonify(Truncate(a)), i)) == InArray(a[i])
  {
    TruncateShape(a);
  }

  /** Unpacking a packed record gives the same record, up to null and undefined. */
  lemma PackThenUnpack(record: Value)
    requires !Nullish(record)
    ensures View(Unpack(Arr(Pack(record)))) == View(record)
  {
    var items := Pack(record);
    var back := Unpack(Arr(items));
    forall i | 0 <= i < 8
      ensures ViewField(back, i) == ViewField(record, i)
    {
      UnpackedProperty(items, i);
      TruncatedAt(Slots(record), i);
      var v := Get(record, PROPERTIES[i]);
      if i == LOCATION_INDEX && Truthy(v) {
        PlaceSurvives(v, At(items, i));
      } else if i == LOCATION_INDEX {
        assert !At(items, i).Arr?;
      }
    }
  }

  lemma PlaceSurvives(loc: Value, stored: Value)
    requires !Nullish(loc)
    requires InArray(stored) == Arr(Jsonify(Truncate(PlaceItems(loc))))
    ensures stored.Arr?
    ensures Jsonify(PlaceItems(Obj(Named(stored.items, LOCATION_PROPERTIES)))) == Jsonify(PlaceItems(loc))
  {
    var place := Obj(Named(stored.items, LOCATION_PROPERTIES));
    forall j | 0 <= j < 5
      ensures Jsonify(PlaceItems(place))[j] == Jsonify(PlaceItems(loc))[j]
    {
      UnpackedPlace(stored.items, j);
      TruncatedAt(PlaceItems(loc), j);
    }
  }

  /** Packing is canonical: records that mean the same are packed alike, so packing
      an unpacked record again changes nothing. */
  lemma PackIsCanonical(a: Value, b: Value)
    requires !Nullish(a) && !Nullish(b)
    ensures View(a) == View(b) ==> Pack(a) == Pack(b)
    ensures Pack(Unpack(Arr(Pack(a)))) == Pack(a)
  {
    PackEncodesView(a);
    PackEncodesView(b);
    PackThenUnpack(a);
    UnpackedProperty(Pack(a), 0);
    PackEncodesView(Unpack(Arr(Pack(a))));
  }

  /** Conversely, records packed alike mean the same: packing loses only what the
      view leaves out. */
  lemma PackIsFaithful(a: Value, b: Value)
    requires !Nullish(a) && !Nullish(b)
    ensures Pack(a) == Pack(b) ==> View(a) == View(b)
  {
    PackThenUnpack(a);
    PackThenUnpack(b);
  }

  /** No array that unpacks to the same record is shorter, and neither is its
      location array. */
  lemma PackIsShortest(record: Value, items: seq<Value>)
    requires !Nullish(record)
    requires View(Unpack(Arr(items))) == View(record)
    ensures |Pack(record)| <= |items|
    ensures |Pack(record)| > LOCATION_INDEX && Truthy(Get(record, Location)) && items[LOCATION_INDEX].Arr? ==>
              && Pack(record)[LOCATION_INDEX].Arr?
              && |Pack(record)[LOCATION_INDEX].items| <= |items[LOCATION_INDEX].items|
  {
    TruncateShape(Slots(record));
    forall i | |items| <= i < 8
      ensures Nullish(Slots(record)[i])
    {
      UnpackedProperty(items, i);
      assert View(Unpack(Arr(items)))[i] == ViewField(record, i);
    }
    if |Pack(record)| > LOCATION_INDEX && Truthy(Get(record, Location)) && items[LOCATION_INDEX].Arr? {
      assert Pack(record)[LOCATION_INDEX] == InArray(Slots(record)[LOCATION_INDEX]);
      assert View(Unpack(Arr(items)))[LOCATION_INDEX] == ViewField(record, LOCATION_INDEX);
      PlaceIsShortest(Get(record, Location), items);
    }
  }

  lemma PlaceIsShortest(loc: Value, items: seq<Value>)
    requires Truthy(loc)
    requires LOCATION_INDEX < |items| && items[LOCATION_INDEX].Arr?
    requires ViewField(Unpack(Arr(items)), LOCATION_INDEX) == Place(Jsonify(PlaceItems(loc)))
    ensures |Truncate(PlaceItems(loc))| <= |items[LOCATION_INDEX].items|
  {
    UnpackedProperty(items, LOCATION_INDEX);
    var parts := items[LOCATION_INDEX].items;
    TruncateShape(PlaceItems(loc));
    forall j | |parts| <= j < 5
      ensures Nullish(PlaceItems(loc)[j])
    {
      UnpackedPlace(parts, j);
      assert Jsonify(PlaceItems(loc))[j] == InArray(PlaceItems(loc)[j]);
    }
  }
}

/**
 * JSON values as the tools build and inspect them with nlohmann::json, as a tree.
 * Objects are maps from key to value (the library's default object type is a
 * map sorted by key, `std::map`, so keys are unique); the text form produced by `dump()` and read by
 * `parse()` is not modelled.
 */
module Json {
  import opened Wrappers

  datatype Json =
    | JNull
    | JBool(b: bool)
    | JInt(i: int)
    | JFloat(r: real)
    | JString(s: string)
    | JArray(elems: seq<Json>)
    | JObject(fields: map<string, Json>)

  /** `j.contains(key)`: only an object has keys. */
  predicate Contains(j: Json, key: string) {
    j.JObject? && key in j.fields
  }

  /** The member `key` of an object, if there is one. */
  function Field(j: Json, key: string): Option<Json> {
    if Contains(j, key) then Some(j.fields[key]) else None
  }

  function StringField(j: Json, key: string): Option<string> {
    var v :- Field(j, key);
    if v.JString? then Some(v.s) else None
  }

  function IntField(j: Json, key: string): Option<int> {
    var v :- Field(j, key);
    if v.JInt? then Some(v.i) else None
  }

  function ArrayField(j: Json, key: string): Option<seq<Json>> {
    var v :- Field(j, key);
    if v.JArray? then Some(v.elems) else None
  }

  /** `get<bool>()`: only a boolean converts; anything else is a type error (None). */
  function AsBool(j: Json): (r: Option<bool>)
    ensures r.Some? <==> j.JBool?
    ensures j.JBool? ==> r == Some(j.b)
  {
    if j.JBool? then Some(j.b) else None
  }

  /** `get<float>()`: booleans and numbers convert; anything else is a type error (None). */
  function AsReal(j: Json): (r: Option<real>)
    ensures r.Some? <==> j.JBool? || j.JInt? || j.JFloat?
    ensures j.JBool? ==> r == Some(if j.b then 1.0 else 0.0)
    ensures j.JInt? ==> r == Some(j.i as real)
    ensures j.JFloat? ==> r == Some(j.r)
  {
    match j
    case JBool(b) => Some(if b then 1.0 else 0.0)
    case JInt(i) => Some(i as real)
    case JFloat(r) => Some(r)
    case _ => None
  }

  /** C++ conversion of a floating value to an integer: truncation toward zero. */
  function TruncateTowardZero(r: real): (n: int)
    ensures r >= 0.0 ==> 0 <= n && n as real <= r < n as real + 1.0
    ensures r < 0.0 ==> n <= 0 && n as real - 1.0 < r <= n as real
  {
    if r >= 0.0 then r.Floor else -((-r).Floor)
  }

  const IntBound: int := 0x8000_0000

  /**
   * The conversion of a stored integer to a 32-bit `int`: the value in
   * [-2^31, 2^31) that agrees with it modulo 2^32.
   */
  function Wrap32(i: int): (w: int)
    ensures -IntBound <= w < IntBound
    ensures (w - i) % (2 * IntBound) == 0
    ensures -IntBound <= i < IntBound ==> w == i
  {
    (i + IntBound) % (2 * IntBound) - IntBound
  }

  /**
   * `get<int>()`: booleans and numbers convert (integers wrap to 32 bits,
   * floats truncate); anything else is a type error (None).
   */
  function AsInt(j: Json): (r: Option<int>)
    ensures r.Some? <==> j.JBool? || j.JInt? || j.JFloat?
    ensures j.JBool? ==> r == Some(if j.b then 1 else 0)
    ensures j.JInt? ==> r == Some(Wrap32(j.i))
    ensures j.JFloat? ==> r == Some(TruncateTowardZero(j.r))
  {
    match j
    case JBool(b) => Some(if b then 1 else 0)
    case JInt(i) => Some(Wrap32(i))
    case JFloat(r) => Some(TruncateTowardZero(r))
    case _ => None
  }

  /** An integer just past the 32-bit range wraps around: 2^32 + 1 reads as 1 and 2^32 as 0. */
  lemma AsIntWrapsAround()
    ensures AsInt(JInt(0x1_0000_0001)) == Some(1)
    ensures AsInt(JInt(0x1_0000_0000)) == Some(0)
    ensures AsInt(JInt(-IntBound - 1)) == Some(IntBound - 1)
  {
    assert Wrap32(0x1_0000_0001) == 1;
    assert Wrap32(0x1_0000_0000) == 0;
    assert Wrap32(-IntBound - 1) == IntBound - 1;
  }

  /**
   * `obj.value(key, default)` on an object: the default when the key is absent,
   * the converted member when present, None when the conversion throws.
   */
  function ValueOr<T>(obj: Json, key: string, default: T, convert: Json -> Option<T>): (r: Option<T>)
    requires obj.JObject?
    ensures key !in obj.fields ==> r == Some(default)
    ensures key in obj.fields ==> r == convert(obj.fields[key])
  {
    if key in obj.fields then convert(obj.fields[key]) else Some(default)
  }
}

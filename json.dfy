/** JSON documents as values, and the accessors through which the engine (jsoncpp) and
    the Python client and gateway read them. Text encoding and decoding are not modelled:
    a request is a parsed value, or nothing when the text does not parse. */
module JsonValues {
  import opened Types

  /** A parsed JSON document. Numbers are integers: a number with a fraction or an
      exponent is not modelled. */
  datatype Json =
    | JNull
    | JBool(b: bool)
    | JInt(i: int)
    | JString(s: string)
    | JArray(items: seq<Json>)
    | JObject(members: map<string, Json>)

  // ---------------------------------------------------------------------------
  // Decimal text of integers (jsoncpp's asString on a number, Python's f-strings)

  function Digit(d: nat): (c: char)
    requires d < 10
    ensures '0' <= c <= '9'
  {
    "0123456789"[d]
  }

  function DigitValue(c: char): nat
  {
    if '0' <= c <= '9' then (c - '0') as nat else 0
  }

  /** The decimal digits of `n`, most significant first, without leading zeros. */
  function NatToString(n: nat): (s: string)
    ensures s != [] && forall i :: 0 <= i < |s| ==> '0' <= s[i] <= '9'
    ensures n > 0 ==> s[0] != '0'
  {
    if n < 10 then [Digit(n)] else NatToString(n / 10) + [Digit(n % 10)]
  }

  function IntToString(n: int): (s: string)
    ensures s != []
  {
    if n < 0 then "-" + NatToString(-n) else NatToString(n)
  }

  /** The value of a string of decimal digits. */
  function ParseNat(s: string): nat
  {
    if s == [] then 0 else 10 * ParseNat(s[..|s| - 1]) + DigitValue(s[|s| - 1])
  }

  /** Reading the digits back gives the number. */
  lemma {:induction false} NatToStringRoundTrip(n: nat)
    ensures ParseNat(NatToString(n)) == n
  {
    var s := NatToString(n);
    if n < 10 {
      assert s[..0] == [];
    } else {
      var prefix := NatToString(n / 10);
      assert s[..|s| - 1] == prefix;
      NatToStringRoundTrip(n / 10);
    }
  }

  // ---------------------------------------------------------------------------
  // jsoncpp (Json::Value) accessors, with the messages of the exceptions they throw

  const FindNeedsObject := "in Json::Value::find(begin, end): requires objectValue or nullValue"
  const NotConvertibleToInt := "Value is not convertible to Int."
  const NotConvertibleToUInt64 := "Value is not convertible to UInt64."
  const NotConvertibleToString := "Type is not convertible to string"

  /** jsoncpp stores an integer as a signed 64-bit value when it fits, as an unsigned one
      when only that fits, and as a double otherwise. */
  predicate IsInt64(x: int) { -0x8000_0000_0000_0000 <= x < 0x8000_0000_0000_0000 }

  /** Value::get(key, default): the member, or the default when the value is null or has
      no such member; any other value throws. */
  function Get(v: Json, key: string, default: Json): (r: Result<Json>)
    ensures r.Ok? <==> v.JNull? || v.JObject?
    ensures v.JObject? && key in v.members ==> r == Ok(v.members[key])
    ensures r.Ok? && !(v.JObject? && key in v.members) ==> r.value == default
    ensures r.Err? ==> r.message == FindNeedsObject
  {
    match v
    case JNull => Ok(default)
    case JObject(m) => Ok(if key in m then m[key] else default)
    case _ => Err(FindNeedsObject)
  }

  /** The value Value::get returns for an object or null, whose reads cannot throw. */
  function GetFrom(v: Json, key: string, default: Json): (r: Json)
    requires v.JNull? || v.JObject?
    ensures Get(v, key, default) == Ok(r)
  {
    if v.JObject? && key in v.members then v.members[key] else default
  }

  /** `root[key]` on the request root: the member, or null when it is absent (the
      non-const operator[] also inserts that null member, which nothing reads again). */
  function Member(v: Json, key: string): (r: Json)
    ensures v.JObject? && key in v.members ==> r == v.members[key]
    ensures !(v.JObject? && key in v.members) ==> r == JNull
  {
    if v.JObject? && key in v.members then v.members[key] else JNull
  }

  /** Value::asInt(): null is 0, a boolean is 0 or 1, an integer must fit in 32 bits. */
  function AsInt(v: Json): (r: Result<int>)
    ensures r.Ok? ==> IsInt32(r.value)
    ensures v.JInt? ==> (r.Ok? <==> IsInt32(v.i))
    ensures v.JInt? && IsInt32(v.i) ==> r.value == v.i
    ensures (v.JString? || v.JArray? || v.JObject?) ==> r.Err?
  {
    match v
    case JNull => Ok(0)
    case JBool(b) => Ok(if b then 1 else 0)
    case JInt(n) =>
      if IsInt32(n) then Ok(n)
      else if IsInt64(n) then Err("LargestInt out of Int range")
      else if IsUInt64(n) then Err("LargestUInt out of Int range")
      else Err("double out of Int range")
    case _ => Err(NotConvertibleToInt)
  }

  /** Value::asUInt64(): null is 0, a boolean is 0 or 1, an integer must fit in 64
      unsigned bits. */
  function AsUInt64(v: Json): (r: Result<nat>)
    ensures r.Ok? ==> IsUInt64(r.value)
    ensures v.JInt? ==> (r.Ok? <==> IsUInt64(v.i))
    ensures v.JInt? && IsUInt64(v.i) ==> r.value == v.i
    ensures (v.JString? || v.JArray? || v.JObject?) ==> r.Err?
  {
    match v
    case JNull => Ok(0)
    case JBool(b) => Ok(if b then 1 else 0)
    case JInt(n) =>
      if IsUInt64(n) then Ok(n)
      else if n < 0 && IsInt64(n) then Err("LargestInt out of UInt64 range")
      else Err("double out of UInt64 range")
    case _ => Err(NotConvertibleToUInt64)
  }

  /** Value::asString(): null is empty, a string is itself, a boolean and an integer are
      their text; an array or an object throws. */
  function AsString(v: Json): (r: Result<string>)
    ensures r.Ok? <==> !(v.JArray? || v.JObject?)
    ensures v.JNull? ==> r == Ok("")
    ensures v.JString? ==> r == Ok(v.s)
    ensures v.JInt? ==> r == Ok(IntToString(v.i))
  {
    match v
    case JNull => Ok("")
    case JBool(b) => Ok(if b then "true" else "false")
    case JInt(n) => Ok(IntToString(n))
    case JString(s) => Ok(s)
    case _ => Err(NotConvertibleToString)
  }

  // ---------------------------------------------------------------------------
  // Python's view of a decoded document (dict.get, truthiness)

  /** The name Python gives the type of a decoded value. */
  function PyTypeName(v: Json): string
  {
    match v
    case JNull => "NoneType"
    case JBool(_) => "bool"
    case JInt(_) => "int"
    case JString(_) => "str"
    case JArray(_) => "list"
    case JObject(_) => "dict"
  }

  /** `v.get(key, default)`: a dict answers with the member or the default; any other
      value has no `get` and raises AttributeError. */
  function PyGet(v: Json, key: string, default: Json): (r: Result<Json>)
    ensures r.Ok? <==> v.JObject?
    ensures v.JObject? && key in v.members ==> r == Ok(v.members[key])
    ensures v.JObject? && key !in v.members ==> r == Ok(default)
  {
    if v.JObject? then Ok(if key in v.members then v.members[key] else default)
    else Err("'" + PyTypeName(v) + "' object has no attribute 'get'")
  }

  /** Python truthiness: None, False, 0 and empty strings, lists and dicts are false. */
  predicate Truthy(v: Json)
  {
    match v
    case JNull => false
    case JBool(b) => b
    case JInt(n) => n != 0
    case JString(s) => s != ""
    case JArray(items) => items != []
    case JObject(m) => m != map[]
  }
}

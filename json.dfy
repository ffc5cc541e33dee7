/** A JSON document as the firmware's JSON library (ArduinoJson 6) presents it,
    and the few accessors the decoders and payload builders use. Lexing the
    response text is not modelled: a payload arrives already deserialized, or
    as the library's error text. */
module Json {
  import opened Text

  datatype Json =
    | Null
    | Bool(b: bool)
    | Int(i: int)
    | Float(r: real)
    | Str(s: string)
    | Array(items: seq<Json>)
    | Object(members: map<string, Json>)

  /** Outcome of deserializeJson on a response body. */
  datatype ParsedPayload = Malformed(error: string) | Parsed(doc: Json)

  /** JsonDocument::containsKey: the value is an object with that key. */
  predicate ContainsKey(j: Json, key: string) {
    j.Object? && key in j.members
  }

  /** variant[key]: the member, or null when absent or not an object. */
  function Member(j: Json, key: string): (r: Json)
    ensures ContainsKey(j, key) ==> r == j.members[key]
    ensures !ContainsKey(j, key) ==> r == Null
  {
    if j.Object? && key in j.members then j.members[key] else Null
  }

  /** variant[i]: the element, or null when out of range or not an array. */
  function At(j: Json, i: int): (r: Json)
    ensures j.Array? && 0 <= i < |j.items| ==> r == j.items[i]
    ensures !(j.Array? && 0 <= i < |j.items|) ==> r == Null
  {
    if j.Array? && 0 <= i < |j.items| then j.items[i] else Null
  }

  /** variant.size(): element count of an array, member count of an object, else 0. */
  function Size(j: Json): (n: nat)
    ensures j.Array? ==> n == |j.items|
    ensures !j.Array? && !j.Object? ==> n == 0
  {
    match j
    case Array(items) => |items|
    case Object(members) => |members|
    case _ => 0
  }

  /** variant.is<float>(): true for integer and floating-point values alike. */
  predicate IsNumber(j: Json) {
    j.Int? || j.Float?
  }

  /** variant.as<float>(): numbers as they are, booleans as 1 or 0, anything else 0. */
  function AsFloat(j: Json): (r: real)
    ensures j.Int? ==> r == j.i as real
    ensures j.Float? ==> r == j.r
    ensures !IsNumber(j) && !j.Bool? ==> r == 0.0
  {
    match j
    case Int(i) => i as real
    case Float(r) => r
    case Bool(b) => if b then 1.0 else 0.0
    case _ => 0.0
  }

  /** variant.as<unsigned long>(): an in-range number (a float truncated),
      a boolean as 1 or 0; out-of-range numbers and other values give 0. */
  function AsULong(j: Json): (r: U32)
    ensures j.Int? && 0 <= j.i < TWO_TO_32 ==> r == j.i
    ensures j.Float? && 0.0 <= j.r < TWO_TO_32 as real ==> r == j.r.Floor
  {
    match j
    case Int(i) => if 0 <= i < TWO_TO_32 then i else 0
    case Float(r) => if 0.0 <= r < TWO_TO_32 as real then r.Floor else 0
    case Bool(b) => if b then 1 else 0
    case _ => 0
  }

  /** variant.as<const char*>(): the text of a string value; any other value is
      a null `const char*`, which the firmware prints as the empty text. */
  function AsString(j: Json): (s: string)
    ensures j.Str? ==> s == j.s
    ensures !j.Str? ==> s == ""
  {
    if j.Str? then j.s else ""
  }

  /** Follows a path of member names from the root; a missing step yields null. */
  function Path(j: Json, keys: seq<string>): Json
    decreases keys
  {
    if keys == [] then j else Path(Member(j, keys[0]), keys[1..])
  }
}

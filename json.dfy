/** An abstract view of JSON: the values `JSON.parse` produces, JavaScript
    truthiness, and property access on a parsed value. The text itself is not
    modelled character by character: a `Text` is either the serialisation of a
    value or some string that is not valid JSON. */
module Json {

  datatype Json =
    | JNull
    | JBool(b: bool)
    | JNumber(n: int)
    | JString(s: string)
    | JArray(items: seq<Json>)
    | JObject(fields: map<string, Json>)

  datatype Text = Serialised(value: Json) | Malformed(raw: string)

  datatype ParseError = SyntaxError

  datatype Parsed = Parsed(value: Json) | ParseFailed(error: ParseError)

  /** `JSON.stringify(v)`. */
  function Stringify(v: Json): (t: Text)
    ensures t.Serialised?
  {
    Serialised(v)
  }

  /** `JSON.parse(t)`: the value the text denotes, or a `SyntaxError`. */
  function Parse(t: Text): (r: Parsed)
    ensures r.ParseFailed? <==> t.Malformed?
  {
    match t
    case Serialised(v) => Parsed(v)
    case Malformed(_) => ParseFailed(SyntaxError)
  }

  /** Parsing what was stringified gives the value back. */
  lemma ParseStringify(v: Json)
    ensures Parse(Stringify(v)) == Parsed(v)
  {
  }

  /** JavaScript truthiness of a JSON value: `null`, `false`, `0` and `""` are
      falsy; every array and object, the empty ones included, is truthy. */
  predicate Truthy(v: Json)
  {
    match v
    case JNull => false
    case JBool(b) => b
    case JNumber(n) => n != 0
    case JString(s) => s != ""
    case JArray(_) => true
    case JObject(_) => true
  }

  datatype Access = Value(v: Json) | Undefined | Throws

  /** `v[key]` on a parsed value: reading a property of `null` throws a
      `TypeError`; an object yields the field or `undefined`; any other value
      has no such own property and yields `undefined`. The backup import reads
      only the keys `devices`, `notes` and `checklists`; for keys such as
      `length` or `toString`, which JavaScript finds on arrays, strings or the
      prototype, this is not the language's lookup. */
  function Member(v: Json, key: string): (a: Access)
    ensures a.Throws? <==> v.JNull?
    ensures a.Value? <==> v.JObject? && key in v.fields
    ensures a.Value? ==> a.v == v.fields[key]
  {
    match v
    case JNull => Throws
    case JObject(m) => if key in m then Value(m[key]) else Undefined
    case _ => Undefined
  }

  /** Truthiness of a property read; `undefined` is falsy. */
  predicate TruthyAccess(a: Access)
    requires !a.Throws?
  {
    a.Value? && Truthy(a.v)
  }
}

/**
 * The dynamic values that Go's `encoding/json` produces when it decodes into
 * `interface{}`, and the codec (text <-> value) the client relies on.
 */
module Json {
  import opened Wrappers

  /**
   * A Go float64 seen only through the two ways the client prints it.
   * `Integral(value)` is a float with no fractional part; `NonIntegral` carries
   * what `%.0f` prints it as (`nearest`) and what `%v` prints (`shown`).
   */
  datatype Number =
    | Integral(value: int)
    | NonIntegral(nearest: int, shown: string)

  /**
   * A decoded JSON value (nil, bool, float64, string, []interface{},
   * map[string]interface{}), plus `Other` for any other Go value a handler may
   * place in a variable (an int, a struct, a channel, ...).
   */
  datatype Json =
    | JNull
    | JBool(b: bool)
    | JNum(n: Number)
    | JStr(s: string)
    | JArr(items: seq<Json>)
    | JObj(fields: map<string, Json>)
    | Other(goType: string)

  /**
   * The JSON library as the client uses it: `parse` is `json.Unmarshal` into
   * `interface{}` (error text on malformed input), `marshal` is `json.Marshal`.
   */
  datatype JsonCodec = JsonCodec(parse: string -> Result<Json>, marshal: Json -> Result<string>)

  /** The word Go's decoder uses for a JSON value in a type-mismatch error. */
  function KindName(j: Json): (k: string)
    ensures k != ""
  {
    match j
    case JNull => "null"
    case JBool(_) => "bool"
    case JNum(_) => "number"
    case JStr(_) => "string"
    case JArr(_) => "array"
    case JObj(_) => "object"
    case Other(_) => "value"
  }

  /** The text of the error `json.Unmarshal` returns when `j` does not fit `goType`. */
  function UnmarshalTypeError(j: Json, goType: string): (e: string)
    ensures "json: cannot unmarshal " + KindName(j) <= e
    ensures |e| > |goType| && e[|e| - |goType|..] == goType
  {
    "json: cannot unmarshal " + KindName(j) + " into Go value of type " + goType
  }

  /** `m[key].(string)` with the comma-ok test: the string, if the key holds one. */
  function StringField(m: map<string, Json>, key: string): (r: Option<string>)
    ensures r.Some? <==> key in m && m[key].JStr?
    ensures r.Some? ==> m[key] == JStr(r.value)
  {
    if key in m && m[key].JStr? then Some(m[key].s) else None
  }
}

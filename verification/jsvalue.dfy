/** JavaScript values as the SDK sees them after `JSON.parse`: JSON data with
    JavaScript truthiness and property access. `JSON.parse` and `JSON.stringify`
    themselves are runtime builtins; the model receives them as a `Codec` value. */
module JsValue {

  datatype Option<+T> = None | Some(value: T) {
    /** `x ?? d` for a value that may be undefined */
    function GetOr(d: T): T {
      if Some? then value else d
    }
  }

  /** A parsed JSON value. Numbers are modelled as integers. */
  datatype Json =
    | JNull
    | JBool(b: bool)
    | JNum(n: int)
    | JStr(s: string)
    | JArr(items: seq<Json>)
    | JObj(fields: map<string, Json>)

  /** JavaScript truthiness of a JSON value: null, false, 0 and "" are falsy,
      every array and object is truthy. */
  predicate Truthy(j: Json) {
    match j
    case JNull => false
    case JBool(b) => b
    case JNum(n) => n != 0
    case JStr(s) => s != ""
    case _ => true
  }

  /** `j[k]` on a parsed value; None stands for `undefined` (a missing key, or a
      value that has no such property). */
  function Field(j: Json, k: string): Option<Json> {
    if j.JObj? && k in j.fields then Some(j.fields[k]) else None
  }

  /** `if (j[k])` */
  predicate TruthyField(j: Json, k: string) {
    Field(j, k).Some? && Truthy(Field(j, k).value)
  }

  /** `JSON.stringify` and `JSON.parse` (None: the parse throws). */
  datatype Codec = Codec(stringify: Json -> string, parse: string -> Option<Json>)

  /** What the runtime guarantees of the pair on the values this model stores:
      stringify never yields the empty text and parse reads back what stringify wrote. */
  ghost predicate Faithful(c: Codec) {
    forall j :: c.stringify(j) != "" && c.parse(c.stringify(j)) == Some(j)
  }
}

/**
 * The slice of JavaScript value semantics the routes and the page rely on:
 * parsed JSON values, truthiness, property reads that throw on null and
 * undefined, and the JSON bodies of HTTP responses.
 */
module Js {
  import opened Wrappers
  import Text

  /** A value produced by JSON.parse. `undefined` is never one: it is None in an Option<Json>. */
  datatype Json =
    | JNull
    | JBool(b: bool)
    | JNum(x: real)
    | JStr(s: string)
    | JArray(items: seq<Json>)
    | JObject(fields: seq<(string, Json)>)

  /** The outcome of reading a property: a value (None for undefined) or a thrown TypeError's text. */
  datatype Access = Got(value: Option<Json>) | Threw(error: string)

  /** A response built by NextResponse.json: a status and a JSON body. */
  datatype Response = Response(status: int, body: Json)

  /** `!!v`: false exactly for undefined, null, false, 0 and the empty string. */
  predicate Truthy(v: Option<Json>)
  {
    match v
    case None => false
    case Some(j) =>
      match j
      case JNull => false
      case JBool(b) => b
      case JNum(x) => x != 0.0
      case JStr(s) => s != ""
      case JArray(_) => true
      case JObject(_) => true
  }

  /** `response.ok`: a status in the range 200-299. */
  predicate IsOk(status: int)
  {
    200 <= status <= 299
  }

  /** The value bound to key in a parsed object; JSON.parse keeps the last of duplicate keys. */
  function Lookup(fields: seq<(string, Json)>, key: string): (r: Option<Json>)
    ensures r.Some? <==> exists i :: 0 <= i < |fields| && fields[i].0 == key
    ensures r.Some? ==>
      exists i :: 0 <= i < |fields| && fields[i] == (key, r.value) && forall j :: i < j < |fields| ==> fields[j].0 != key
  {
    if |fields| == 0 then None
    else if fields[|fields| - 1].0 == key then Some(fields[|fields| - 1].1)
    else Lookup(fields[..|fields| - 1], key)
  }

  /** V8's message for reading a property of null or undefined. */
  function ReadError(what: string, key: string): string
  {
    "TypeError: Cannot read properties of " + what + " (reading '" + key + "')"
  }

  /**
   * `v.key`, for keys that are not built-in properties of strings or arrays
   * (the code reads only message, text, error, choices, content and audio).
   */
  function Get(v: Option<Json>, key: string): (r: Access)
    ensures r.Threw? <==> v == None || v == Some(JNull)
  {
    match v
    case None => Threw(ReadError("undefined", key))
    case Some(j) =>
      match j
      case JNull => Threw(ReadError("null", key))
      case JObject(fields) => Got(Lookup(fields, key))
      case _ => Got(None)
  }

  /** `v?.key`: undefined instead of a TypeError when v is null or undefined. */
  function GetOpt(v: Option<Json>, key: string): Option<Json>
  {
    match Get(v, key)
    case Threw(_) => None
    case Got(r) => r
  }

  /** `v[i]`: an array element, a one-character string, or the object property named by i's digits. */
  function At(v: Option<Json>, i: nat): (r: Access)
    ensures r.Threw? <==> v == None || v == Some(JNull)
  {
    match v
    case None => Threw(ReadError("undefined", Text.NatToString(i)))
    case Some(j) =>
      match j
      case JNull => Threw(ReadError("null", Text.NatToString(i)))
      case JArray(items) => Got(if i < |items| then Some(items[i]) else None)
      case JStr(s) => Got(if i < |s| then Some(JStr([s[i]])) else None)
      case JObject(fields) => Got(Lookup(fields, Text.NatToString(i)))
      case _ => Got(None)
  }

  /** V8's message for `const { key } = name` when name holds null. */
  function DestructureError(key: string, name: string): string
  {
    "TypeError: Cannot destructure property '" + key + "' of '" + name + "' as it is null."
  }

  /** `const { key } = v` for a v that JSON.parse produced (so never undefined). */
  function Destructure(v: Json, key: string, name: string): Access
  {
    if v == JNull then Threw(DestructureError(key, name)) else Get(Some(v), key)
  }

  /** `{ error }` */
  function ErrorBody(error: string): Json
  {
    JObject([("error", JStr(error))])
  }

  /** `{ error, details }` */
  function ErrorWithDetails(error: string, details: Json): Json
  {
    JObject([("error", JStr(error)), ("details", details)])
  }
}

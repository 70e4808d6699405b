/** The few JavaScript value semantics the webhook handler depends on:
    optional values (undefined / null), truthiness of strings, template-literal
    interpolation, and the shapes a request body can take. */
module JsValues {

  /** A possibly missing value: `None` stands for JavaScript's `undefined` or `null`. */
  datatype Option<+T> = None | Some(value: T)

  /** A computation that either yields a value or throws an error with a message. */
  datatype Result<+T> = Success(value: T) | Failure(error: string)

  /** JavaScript truthiness of an optional string: `undefined`, `null` and `""` are falsy. */
  predicate Truthy(v: Option<string>) {
    v.Some? && v.value != ""
  }

  /** `v || null`: keeps a truthy string and turns every falsy one into `null`. */
  function OrNull(v: Option<string>): (r: Option<string>)
    ensures r.Some? <==> Truthy(v)
    ensures r.Some? ==> r == v
  {
    if Truthy(v) then v else None
  }

  /** `${v}` inside a template literal, for a value that is a string or missing
      (metadata values are strings, so a missing one is `undefined`). */
  function Interpolated(v: Option<string>): (s: string)
    ensures v.Some? ==> s == v.value
    ensures v.None? ==> s == "undefined"
  {
    match v
    case Some(text) => text
    case None => "undefined"
  }

  /** A value of a JSON document, as a body parser produces it. */
  datatype Json =
    | JNull
    | JBool(b: bool)
    | JNumber(n: int)
    | JString(s: string)
    | JArray(items: seq<Json>)
    | JObject(members: seq<(string, Json)>)

  /** The results of `typeof` other than "string" and "object". */
  datatype PrimitiveType = Undefined | Number | Boolean | BigInt | Symbol | Function {
    /** The text `typeof` returns. */
    function Name(): string {
      match this
      case Undefined => "undefined"
      case Number => "number"
      case Boolean => "boolean"
      case BigInt => "bigint"
      case Symbol => "symbol"
      case Function => "function"
    }
  }

  /** What `req.body` can hold when the handler runs: a raw string, a Buffer of
      bytes, an already parsed JSON value (`typeof` is "object", which includes
      `null`), or a value of some other type. */
  datatype Body =
    | StringBody(text: string)
    | BufferBody(bytes: seq<bv8>)
    | ObjectBody(parsed: Json)
    | OtherBody(kind: PrimitiveType)
}

/** The shape of an HTTP request and of a JSON response as the Cloud Functions handlers see
    them (an Express-style `request` and `response.status(code).json(body)`). */
module Http {
  import opened Wrappers
  import opened Strings
  import opened Json

  /** `hasGet` says whether the request object has Express's `get` method; `headers` is
      Node's header map, whose keys are lower-case; `body` is the parsed body, `None` when it
      is `undefined`. */
  datatype Request = Request(httpMethod: string, hasGet: bool, headers: map<string, string>, body: Option<Json>)

  /** A response written with `response.status(status).json(body)`. */
  datatype Response = Response(status: int, body: Json)

  /** `request.get(name)`: Express looks the header up by its lower-cased name. */
  function HeaderViaGet(req: Request, name: string): Option<string> {
    var key := ToLower(name);
    if key in req.headers then Some(req.headers[key]) else None
  }

  /** `request.headers[name]`: a plain lookup of the exact key. */
  function HeaderIndexed(req: Request, name: string): Option<string> {
    if name in req.headers then Some(req.headers[name]) else None
  }

  /** `{ success: false, error: msg }`. */
  function ErrorBody(msg: string): Json {
    JObject(map["success" := JBool(false), "error" := JString(msg)])
  }

  /** The message V8 gives the TypeError thrown by calling `request.get` when it is absent. */
  const GET_NOT_A_FUNCTION := "request.get is not a function"

  /** The message V8 gives the TypeError thrown by destructuring `prop` out of
      `request.body` when the body is `undefined` or `null`. */
  function DestructureError(prop: string, body: Option<Json>): string {
    "Cannot destructure property '" + prop + "' of 'request.body' as it is "
      + (if body.None? then "undefined." else "null.")
  }

  /** Destructuring `request.body` throws exactly when it is `undefined` or `null`. */
  predicate BodyIsNullish(body: Option<Json>) {
    body.None? || body.value.JNull?
  }

  /** A field destructured out of a body that is not nullish (`undefined` when absent). */
  function BodyField(body: Option<Json>, key: string): Option<Json>
    requires !BodyIsNullish(body)
  {
    Get(body.value, key)
  }
}

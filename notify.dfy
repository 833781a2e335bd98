/** The post-upload notification handler (backend/funtions/scr/notifyFileUploaded.js): its own
    key check, which calls `request.get` unconditionally, and its guard chain. Nothing is
    published or stored: a request that passes every guard is only acknowledged. */
module Notify {
  import opened Wrappers
  import opened Strings
  import opened Json
  import opened Http
  import Auth

  const UNAUTHORIZED_ERROR := "No autorizado. API key inválida."
  const METHOD_NOT_ALLOWED_ERROR := "Método no permitido. Use POST."
  const MISSING_FILE_NAME_ERROR := "Falta el parámetro fileName."
  const INTERNAL_ERROR := "Error interno del servidor."

  /** `request.get('x-api-key') || request.headers['x-api-key']`; calling `get` on a request
      without it throws. */
  function ClientKey(req: Request): (r: Result<Option<string>>)
    ensures r.Err? <==> !req.hasGet
    ensures r.Err? ==> r.msg == GET_NOT_A_FUNCTION
  {
    if !req.hasGet then Err(GET_NOT_A_FUNCTION)
    else
      var viaGet := HeaderViaGet(req, Auth.API_KEY_HEADER);
      if viaGet.Some? && viaGet.value != "" then Ok(viaGet)
      else Ok(HeaderIndexed(req, Auth.API_KEY_HEADER))
  }

  /** The local `isAuthorized`: the truthiness of `apiKey && clientKey && apiKey === clientKey`,
      or the error its `request.get` call throws. */
  function IsAuthorized(serverKey: Option<string>, req: Request): (r: Result<bool>)
    ensures r.Err? <==> !req.hasGet
    ensures r.Ok? ==> (r.value <==> serverKey.Some? && serverKey.value != "" && ClientKey(req).value == serverKey)
  {
    match ClientKey(req)
    case Err(e) => Err(e)
    case Ok(clientKey) =>
      Ok(serverKey.Some? && serverKey.value != "" && clientKey.Some? && clientKey.value != ""
         && serverKey.value == clientKey.value)
  }

  /** When `request.get` exists the header fallback never changes the answer: the lower-case
      header name makes both reads see the same entry, so this check agrees with the shared
      one in `auth.js`. */
  lemma AgreesWithSharedCheck(serverKey: Option<string>, req: Request)
    ensures req.hasGet ==> IsAuthorized(serverKey, req) == Ok(Auth.IsAuthorized(serverKey, req))
  {
    Auth.ClientKeyIgnoresAccessPath(req);
  }

  /** The acknowledgement, with `fileName` rendered as a template literal renders it. */
  function Acknowledgement(fileName: Json): (r: string)
    requires ConvertsToString(fileName)
    ensures fileName.JString? ==> Contains(r, fileName.s)
  {
    ContainsInside("Archivo ", ToJsString(fileName), " notificado y procesado correctamente.");
    "Archivo " + ToJsString(fileName) + " notificado y procesado correctamente."
  }

  /** The catch block: 500 with the thrown message. */
  function CaughtError(msg: string): (r: Response)
    ensures r.status == 500 && r.body == ErrorBody(OrDefault(msg, INTERNAL_ERROR))
  {
    Response(500, ErrorBody(OrDefault(msg, INTERNAL_ERROR)))
  }

  /** `notifyFileUploaded(request, response)`: the response it writes. */
  function NotifyFileUploaded(req: Request, serverKey: Option<string>): (r: Response)
    ensures !req.hasGet ==> r == Response(500, ErrorBody(GET_NOT_A_FUNCTION))
    ensures req.hasGet && !Auth.IsAuthorized(serverKey, req) ==> r == Response(401, ErrorBody(UNAUTHORIZED_ERROR))
    ensures req.hasGet && Auth.IsAuthorized(serverKey, req) && req.httpMethod != "POST"
      ==> r == Response(405, ErrorBody(METHOD_NOT_ALLOWED_ERROR))
    ensures req.hasGet && Auth.IsAuthorized(serverKey, req) && req.httpMethod == "POST" && BodyIsNullish(req.body)
      ==> r == Response(500, ErrorBody(DestructureError("fileName", req.body)))
    ensures req.hasGet && Auth.IsAuthorized(serverKey, req) && req.httpMethod == "POST" && !BodyIsNullish(req.body)
      && !TruthyOpt(BodyField(req.body, "fileName"))
      ==> r == Response(400, ErrorBody(MISSING_FILE_NAME_ERROR))
    ensures req.hasGet && Auth.IsAuthorized(serverKey, req) && req.httpMethod == "POST" && !BodyIsNullish(req.body)
      && TruthyOpt(BodyField(req.body, "fileName")) && !ConvertsToString(BodyField(req.body, "fileName").value)
      ==> r == Response(500, ErrorBody(PRIMITIVE_CONVERSION_ERROR))
    ensures r.status == 200 <==>
      req.hasGet && Auth.IsAuthorized(serverKey, req) && req.httpMethod == "POST"
      && !BodyIsNullish(req.body) && TruthyOpt(BodyField(req.body, "fileName"))
      && ConvertsToString(BodyField(req.body, "fileName").value)
    ensures r.status == 200 ==> r.body == JObject(map[
      "success" := JBool(true),
      "message" := JString(Acknowledgement(BodyField(req.body, "fileName").value))])
  {
    AgreesWithSharedCheck(serverKey, req);
    match IsAuthorized(serverKey, req)
    case Err(e) => CaughtError(e)
    case Ok(authorized) =>
      if !authorized then Response(401, ErrorBody(UNAUTHORIZED_ERROR))
      else if req.httpMethod != "POST" then Response(405, ErrorBody(METHOD_NOT_ALLOWED_ERROR))
      else if BodyIsNullish(req.body) then CaughtError(DestructureError("fileName", req.body))
      else
        var fileName := BodyField(req.body, "fileName");
        if !TruthyOpt(fileName) then Response(400, ErrorBody(MISSING_FILE_NAME_ERROR))
        // the template literal of the acknowledgement throws inside the `try`
        else if !ConvertsToString(fileName.value) then CaughtError(PRIMITIVE_CONVERSION_ERROR)
        else
          Response(200, JObject(map[
            "success" := JBool(true),
            "message" := JString(Acknowledgement(fileName.value))]))
  }

  /** Only `fileName` is read: two bodies that agree on it get the same response, whatever
      else (a `template`, say) they carry. */
  lemma OnlyFileNameMatters(req: Request, fields1: map<string, Json>, fields2: map<string, Json>, serverKey: Option<string>)
    requires ("fileName" in fields1) == ("fileName" in fields2)
    requires "fileName" in fields1 ==> fields1["fileName"] == fields2["fileName"]
    ensures NotifyFileUploaded(req.(body := Some(JObject(fields1))), serverKey)
         == NotifyFileUploaded(req.(body := Some(JObject(fields2))), serverKey)
  {
  }

  /** The unit test's request, a plain object with `method` and an empty body and no `get`,
      gets 500 from the TypeError, not the 400 the test expects. */
  lemma BareTestRequestGets500(serverKey: Option<string>)
    ensures NotifyFileUploaded(Request("POST", false, map[], Some(JObject(map[]))), serverKey).status == 500
  {
  }

  /** A named file on an authorised POST is acknowledged: `{"fileName": "a.pdf"}` gives 200
      with the message naming `a.pdf`. */
  lemma NamedFileIsAcknowledged(req: Request, serverKey: Option<string>)
    requires req.hasGet && Auth.IsAuthorized(serverKey, req) && req.httpMethod == "POST"
    requires req.body == Some(JObject(map["fileName" := JString("a.pdf")]))
    ensures NotifyFileUploaded(req, serverKey) == Response(200, JObject(map[
      "success" := JBool(true),
      "message" := JString("Archivo " + "a.pdf" + " notificado y procesado correctamente.")]))
  {
  }

  /** A `fileName` object with its own `toString` key cannot be rendered into the
      acknowledgement: the TypeError is caught and answered with 500. */
  lemma UnconvertibleFileNameIsServerError(req: Request, serverKey: Option<string>, toStringValue: Json)
    requires req.hasGet && Auth.IsAuthorized(serverKey, req) && req.httpMethod == "POST"
    requires req.body == Some(JObject(map["fileName" := JObject(map["toString" := toStringValue])]))
    ensures NotifyFileUploaded(req, serverKey) == Response(500, ErrorBody(PRIMITIVE_CONVERSION_ERROR))
  {
    assert BodyField(req.body, "fileName") == Some(JObject(map["toString" := toStringValue]));
  }
}

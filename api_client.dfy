/** The frontend's request builder (frontend/src/Services/api.js): the URL under `/api`, the
    header defaults merged with the caller's headers, the body each verb sends, the query
    string of `get`, and the error message of a failed response. `fetch`, `JSON.stringify` and
    `URLSearchParams` are parameters. */
module ApiClient {
  import opened Wrappers
  import opened Strings
  import opened Json
  import Http
  import Auth

  const API_BASE_URL := "/api"
  const JSON_CONTENT_TYPE: map<string, string> := map["Content-Type" := "application/json"]

  /** A request body: none, a `FormData` (its entries), or a string. */
  datatype Body = NoBody | FormDataBody(entries: seq<(string, string)>) | TextBody(text: string)

  /** The `options` a verb passes to `apiRequest`. */
  datatype Options = Options(httpMethod: string, headers: Option<map<string, string>>, body: Body)

  /** The `config` handed to `fetch`, with the URL it is sent to. */
  datatype Config = Config(url: string, httpMethod: string, headers: map<string, string>, body: Body)

  /** What `post` is given: a `FormData` or a value to serialise. */
  datatype Payload = Form(entries: seq<(string, string)>) | Data(value: Json)

  /** A settled `fetch`: `ok`, `status`, `statusText`, and what `response.json()` gives. */
  datatype FetchResponse = FetchResponse(ok: bool, status: int, statusText: string, json: Result<Json>)

  /** The default headers: none for a `FormData` body, the JSON content type otherwise. */
  function DefaultHeaders(body: Body): (r: map<string, string>)
    ensures body.FormDataBody? ==> r == map[]
    ensures !body.FormDataBody? ==> r == JSON_CONTENT_TYPE
  {
    if body.FormDataBody? then map[] else JSON_CONTENT_TYPE
  }

  /** `{ ...defaults, ...overrides }` on header maps. */
  function MergeHeaders(defaults: map<string, string>, overrides: map<string, string>): (r: map<string, string>)
    ensures r.Keys == defaults.Keys + overrides.Keys
    ensures forall k :: k in overrides ==> r[k] == overrides[k]
    ensures forall k :: k in defaults && k !in overrides ==> r[k] == defaults[k]
  {
    defaults + overrides
  }

  /** The `url` and `config` that `apiRequest` builds. */
  function BuildConfig(endpoint: string, options: Options): (c: Config)
    ensures c.url == API_BASE_URL + endpoint
    ensures c.httpMethod == options.httpMethod && c.body == options.body
    ensures options.headers.Some? ==> forall k :: k in options.headers.value ==> k in c.headers && c.headers[k] == options.headers.value[k]
    ensures forall k :: k in c.headers ==>
      (options.headers.Some? && k in options.headers.value) || k in DefaultHeaders(options.body)
    ensures options.headers.None? ==> c.headers == DefaultHeaders(options.body)
  {
    var caller := if options.headers.Some? then options.headers.value else map[];
    Config(API_BASE_URL + endpoint, options.httpMethod, MergeHeaders(DefaultHeaders(options.body), caller), options.body)
  }

  /** A caller header overrides the default of the same name, and the JSON content type is
      there, besides, unless the body is a `FormData`. */
  lemma CallerHeadersWin(endpoint: string, options: Options, name: string, value: string)
    requires options.headers.Some? && name in options.headers.value && options.headers.value[name] == value
    ensures BuildConfig(endpoint, options).headers[name] == value
    ensures !options.body.FormDataBody? && "Content-Type" !in options.headers.value ==>
      BuildConfig(endpoint, options).headers["Content-Type"] == "application/json"
  {
  }

  /** The generic message of a failed response: a fixed prefix, the status code, and the
      status text last. */
  function StatusMessage(status: int, statusText: string): (r: string)
    ensures StartsWith(r, "Error en la solicitud: " + IntToString(status))
    ensures EndsWith(r, " " + statusText)
  {
    "Error en la solicitud: " + IntToString(status) + " " + statusText
  }

  /** `apiRequest`: the parsed body of an ok response, or the message of the error thrown:
      the `fetch` failure, the server's `error` field, or the generic status message. An
      `error` that does not convert to a string makes `new Error(errorMessage)` throw a
      TypeError, which the outer `catch` rethrows. */
  function ApiRequest(endpoint: string, options: Options, fetch: Config -> Result<FetchResponse>): (r: Result<Json>)
    ensures fetch(BuildConfig(endpoint, options)).Err? ==> r == Err(fetch(BuildConfig(endpoint, options)).msg)
    ensures var response := fetch(BuildConfig(endpoint, options));
      response.Ok? && response.value.ok ==> r == response.value.json
    ensures var response := fetch(BuildConfig(endpoint, options));
      response.Ok? && !response.value.ok ==>
        var errorData := response.value.json;
        if errorData.Ok? && TruthyOpt(Get(errorData.value, "error")) then
          r == Err(if ConvertsToString(Get(errorData.value, "error").value) then ToJsString(Get(errorData.value, "error").value)
                   else PRIMITIVE_CONVERSION_ERROR)
        else r == Err(StatusMessage(response.value.status, response.value.statusText))
  {
    var config := BuildConfig(endpoint, options);
    match fetch(config)
    case Err(m) => Err(m)
    case Ok(response) =>
      if !response.ok then
        var generic := StatusMessage(response.status, response.statusText);
        var errorMessage :=
          match response.json
          case Err(_) => generic
          case Ok(errorData) =>
            if errorData.JNull? then generic // reading `error` of null throws; the inner catch keeps the generic text
            else if !TruthyOpt(Get(errorData, "error")) then generic
            else if ConvertsToString(Get(errorData, "error").value) then ToJsString(Get(errorData, "error").value)
            else PRIMITIVE_CONVERSION_ERROR;
        Err(errorMessage)
      else response.json
  }

  /** How a verb's result follows from the reply to its request: a `fetch` failure is passed
      on, an ok reply gives its parsed body, and any other reply is an error. */
  predicate Relays(r: Result<Json>, response: Result<FetchResponse>) {
    && (response.Err? ==> r == Err(response.msg))
    && (response.Ok? && response.value.ok ==> r == response.value.json)
    && (response.Ok? && !response.value.ok ==> r.Err?)
  }

  /** The config `get` hands to `fetch`. */
  function GetConfig(endpoint: string, queryString: string): Config {
    Config(API_BASE_URL + UrlWithParams(endpoint, queryString), "GET", JSON_CONTENT_TYPE, NoBody)
  }

  /** The config `put` hands to `fetch`. */
  function PutConfig(endpoint: string, data: Json, stringify: Json -> string): Config {
    Config(API_BASE_URL + endpoint, "PUT", JSON_CONTENT_TYPE, TextBody(stringify(data)))
  }

  /** The config `del` hands to `fetch`. */
  function DelConfig(endpoint: string): Config {
    Config(API_BASE_URL + endpoint, "DELETE", JSON_CONTENT_TYPE, NoBody)
  }

  /** The endpoint `get` requests: the query string appended only when non-empty. */
  function UrlWithParams(endpoint: string, queryString: string): (r: string)
    ensures queryString == "" ==> r == endpoint
    ensures queryString != "" ==> r == endpoint + "?" + queryString
  {
    if queryString != "" then endpoint + "?" + queryString else endpoint
  }

  function GetOptions(): Options {
    Options("GET", None, NoBody)
  }

  /** `get(endpoint, params)`, with `encode` in place of `URLSearchParams(...).toString()`. */
  function ApiGet(endpoint: string, params: seq<(string, string)>, encode: seq<(string, string)> -> string,
                  fetch: Config -> Result<FetchResponse>): (r: Result<Json>)
    ensures Relays(r, fetch(GetConfig(endpoint, encode(params))))
  {
    ApiRequest(UrlWithParams(endpoint, encode(params)), GetOptions(), fetch)
  }

  /** With no parameters the endpoint is requested as it is, with the JSON content type and
      no body. */
  lemma GetWithoutParams(endpoint: string, encode: seq<(string, string)> -> string)
    requires encode([]) == ""
    ensures BuildConfig(UrlWithParams(endpoint, encode([])), GetOptions())
            == Config(API_BASE_URL + endpoint, "GET", JSON_CONTENT_TYPE, NoBody)
  {
  }

  /** The options `post` passes: a `FormData` as it is, anything else serialised; no headers. */
  function PostOptions(data: Payload, stringify: Json -> string): (o: Options)
    ensures o.httpMethod == "POST" && o.headers.None?
    ensures data.Form? ==> o.body == FormDataBody(data.entries)
    ensures data.Data? ==> o.body == TextBody(stringify(data.value))
  {
    Options("POST", None, match data case Form(entries) => FormDataBody(entries) case Data(v) => TextBody(stringify(v)))
  }

  /** The config `post` hands to `fetch`. */
  function PostConfig(endpoint: string, data: Payload, stringify: Json -> string): Config {
    match data
    case Form(entries) => Config(API_BASE_URL + endpoint, "POST", map[], FormDataBody(entries))
    case Data(v) => Config(API_BASE_URL + endpoint, "POST", JSON_CONTENT_TYPE, TextBody(stringify(v)))
  }

  /** `post(endpoint, data)`: a `FormData` goes without headers, any other value serialised
      with the JSON content type. */
  function ApiPost(endpoint: string, data: Payload, stringify: Json -> string, fetch: Config -> Result<FetchResponse>): (r: Result<Json>)
    ensures Relays(r, fetch(PostConfig(endpoint, data, stringify)))
  {
    ApiRequest(endpoint, PostOptions(data, stringify), fetch)
  }

  /** The options `put` passes: always serialised. */
  function PutOptions(data: Json, stringify: Json -> string): Options {
    Options("PUT", None, TextBody(stringify(data)))
  }

  /** `put(endpoint, data)`. */
  function ApiPut(endpoint: string, data: Json, stringify: Json -> string, fetch: Config -> Result<FetchResponse>): (r: Result<Json>)
    ensures Relays(r, fetch(PutConfig(endpoint, data, stringify)))
  {
    ApiRequest(endpoint, PutOptions(data, stringify), fetch)
  }

  /** The options `del` passes: no body. */
  function DelOptions(): Options {
    Options("DELETE", None, NoBody)
  }

  /** `del(endpoint)`. */
  function ApiDel(endpoint: string, fetch: Config -> Result<FetchResponse>): (r: Result<Json>)
    ensures Relays(r, fetch(DelConfig(endpoint)))
  {
    ApiRequest(endpoint, DelOptions(), fetch)
  }

  /** Each verb's method and body: `post` passes a `FormData` through and serialises the rest,
      `put` always serialises, `del` and `get` send no body. */
  lemma VerbsSetMethodAndBody(endpoint: string, data: Json, entries: seq<(string, string)>, stringify: Json -> string)
    ensures BuildConfig(endpoint, PostOptions(Form(entries), stringify)) == Config(API_BASE_URL + endpoint, "POST", map[], FormDataBody(entries))
    ensures BuildConfig(endpoint, PostOptions(Data(data), stringify))
            == Config(API_BASE_URL + endpoint, "POST", JSON_CONTENT_TYPE, TextBody(stringify(data)))
    ensures BuildConfig(endpoint, PutOptions(data, stringify))
            == Config(API_BASE_URL + endpoint, "PUT", JSON_CONTENT_TYPE, TextBody(stringify(data)))
    ensures BuildConfig(endpoint, DelOptions()) == Config(API_BASE_URL + endpoint, "DELETE", JSON_CONTENT_TYPE, NoBody)
  {
  }

  /** What `put` sends: `PUT` with the serialised value; a failed reply without an `error`
      field gives the generic status message. */
  lemma ApiPutReportsTheStatus(endpoint: string, data: Json, stringify: Json -> string, fetch: Config -> Result<FetchResponse>,
                               status: int, statusText: string)
    requires fetch(Config(API_BASE_URL + endpoint, "PUT", JSON_CONTENT_TYPE, TextBody(stringify(data))))
             == Ok(FetchResponse(false, status, statusText, Ok(JObject(map[]))))
    ensures ApiPut(endpoint, data, stringify, fetch) == Err(StatusMessage(status, statusText))
  {
  }

  /** What `del` sends: `DELETE` with no body; a failed reply's `error` field is the message. */
  lemma ApiDelReportsTheServerError(endpoint: string, fetch: Config -> Result<FetchResponse>, text: string)
    requires text != ""
    requires fetch(Config(API_BASE_URL + endpoint, "DELETE", JSON_CONTENT_TYPE, NoBody))
             == Ok(FetchResponse(false, 500, "", Ok(JObject(map["error" := JString(text)]))))
    ensures ApiDel(endpoint, fetch) == Err(text)
  {
  }

  /** A failed reply whose `error` is an object with its own `toString` key: building the
      `Error` throws a TypeError, and its message is what `del` rejects with. */
  lemma UnconvertibleServerErrorGivesTypeError(endpoint: string, fetch: Config -> Result<FetchResponse>, toStringValue: Json)
    requires fetch(DelConfig(endpoint))
             == Ok(FetchResponse(false, 500, "", Ok(JObject(map["error" := JObject(map["toString" := toStringValue])]))))
    ensures ApiDel(endpoint, fetch) == Err(PRIMITIVE_CONVERSION_ERROR)
  {
  }

  /** `post` takes no headers, so the API key the storage service means to send with its
      upload-URL and notification requests never leaves the browser: a request that arrives
      with only the posted headers (names lower-cased by Node) carries no key, and a
      server with a key refuses it. */
  lemma PostedRequestsCarryNoApiKey(endpoint: string, data: Json, stringify: Json -> string,
                                    req: Http.Request, serverKey: Option<string>)
    requires forall k :: k in req.headers ==>
      k in (set h | h in BuildConfig(endpoint, PostOptions(Data(data), stringify)).headers :: ToLower(h))
    ensures Auth.ClientKey(req).None?
    ensures !Auth.IsAuthorized(serverKey, req)
  {
    var sent := BuildConfig(endpoint, PostOptions(Data(data), stringify)).headers;
    assert sent == JSON_CONTENT_TYPE;
    assert |ToLower("Content-Type")| == 12;
    assert Auth.API_KEY_HEADER !in req.headers;
    Auth.ClientKeyIgnoresAccessPath(req);
  }
}

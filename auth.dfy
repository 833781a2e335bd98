/** The shared API-key check of the HTTP functions (backend/funtions/scr/auth.js). The server
    key `process.env.API_KEY` is passed in as `serverKey`. */
module Auth {
  import opened Wrappers
  import opened Strings
  import opened Http

  const API_KEY_HEADER := "x-api-key"

  /** The key the client sent: through `request.get` when the request has it, otherwise
      from the `headers` map. */
  function ClientKey(req: Request): (r: Option<string>)
    ensures r == HeaderIndexed(req, API_KEY_HEADER)
  {
    ToLowerOfLowerCase(API_KEY_HEADER);
    if req.hasGet then HeaderViaGet(req, API_KEY_HEADER) else HeaderIndexed(req, API_KEY_HEADER)
  }

  /** `!!(apiKey && clientKey && apiKey === clientKey)`: authorised exactly when a non-empty
      server key is configured and the client sent that very string. */
  function IsAuthorized(serverKey: Option<string>, req: Request): (r: bool)
    ensures r <==> serverKey.Some? && serverKey.value != "" && ClientKey(req) == serverKey
  {
    var clientKey := ClientKey(req);
    serverKey.Some? && serverKey.value != ""
    && clientKey.Some? && clientKey.value != ""
    && serverKey.value == clientKey.value
  }

  /** With no server key (or an empty one) every request is refused, whatever its headers. */
  lemma NoServerKeyRefusesAll(serverKey: Option<string>, req: Request)
    requires serverKey.None? || serverKey.value == ""
    ensures !IsAuthorized(serverKey, req)
  {
  }

  /** Matching is exact: a key that differs in any character (case included) is refused. */
  lemma OnlyTheExactKeyIsAccepted(key: string, req: Request)
    requires ClientKey(req).Some? && ClientKey(req).value != key
    ensures !IsAuthorized(Some(key), req)
  {
  }

  /** The header name is already lower-case, so `request.get` and the `headers` map read
      the same entry. */
  lemma ClientKeyIgnoresAccessPath(req: Request)
    ensures HeaderViaGet(req, API_KEY_HEADER) == HeaderIndexed(req, API_KEY_HEADER)
  {
    ToLowerOfLowerCase(API_KEY_HEADER);
  }
}

/** Upload admission (backend/funtions/scr/generateUploadUrl.js): the extension table, the
    input checks of `generateSignedUrl`, the name and expiry it hands to the storage signer,
    and the guard chain and status mapping of the `generateUploadUrl` HTTP handler. The
    Cloud Storage signer, the clock and the ISO rendering of a date are parameters. */
module UploadUrl {
  import opened Wrappers
  import opened Strings
  import opened Json
  import opened Http
  import Auth

  const DEFAULT_BUCKET_NAME := "intelliforms-uploads"
  const DEFAULT_EXPIRATION_MINUTES := 15
  const MAX_FILE_SIZE := 10 * 1024 * 1024

  /** The extension-to-MIME table. */
  const ALLOWED_FILE_TYPES: map<string, string> := map[
    ".txt" := "text/plain",
    ".pdf" := "application/pdf",
    ".jpg" := "image/jpeg",
    ".jpeg" := "image/jpeg",
    ".png" := "image/png",
    ".doc" := "application/msword",
    ".docx" := "application/vnd.openxmlformats-officedocument.wordprocessingml.document"
  ]

  /** `Object.keys(ALLOWED_FILE_TYPES)`: the table's keys in the order they are written. */
  const ALLOWED_KEY_ORDER: seq<string> := [".txt", ".pdf", ".jpg", ".jpeg", ".png", ".doc", ".docx"]

  /** The key list names every key of the table once. */
  lemma KeyOrderListsTheTable()
    ensures forall k :: k in ALLOWED_FILE_TYPES <==> k in ALLOWED_KEY_ORDER
    ensures forall i, j :: 0 <= i < j < |ALLOWED_KEY_ORDER| ==> ALLOWED_KEY_ORDER[i] != ALLOWED_KEY_ORDER[j]
  {
  }

  // ---------------------------------------------------------------------------
  // Extensions and MIME types
  // ---------------------------------------------------------------------------

  /** Lower-case the extension and put a `.` in front when it does not start with one (the
      test for the `.` is made before lower-casing; `.` has no case, so the order is
      immaterial). */
  function NormalizeExtension(ext: string): (r: string)
    ensures StartsWith(r, ".") && IsLowerCase(r)
    ensures StartsWith(ext, ".") ==> r == ToLower(ext)
    ensures !StartsWith(ext, ".") ==> r == "." + ToLower(ext)
  {
    if StartsWith(ext, ".") then ToLower(ext) else "." + ToLower(ext)
  }

  /** Normalising twice is normalising once. */
  lemma NormalizeIdempotent(ext: string)
    ensures NormalizeExtension(NormalizeExtension(ext)) == NormalizeExtension(ext)
  {
    var n := NormalizeExtension(ext);
    ToLowerOfLowerCase(n);
  }

  /** `isValidFileExtension`: the normalised extension is a key of the table. */
  predicate IsValidFileExtension(ext: string) {
    NormalizeExtension(ext) in ALLOWED_FILE_TYPES
  }

  /** The message `getMimeType` throws for a refused extension; it quotes the extension as
      the caller gave it. */
  function RefusedExtensionError(ext: string): string {
    REFUSED_EXTENSION_CLAUSE + ": " + ext + ". Extensiones válidas: " + Join(ALLOWED_KEY_ORDER, ", ")
  }

  /** `getMimeType`: normalise, check validity of the normalised form, and look it up. */
  function GetMimeType(ext: string): (r: Result<string>)
    ensures r.Ok? <==> NormalizeExtension(ext) in {".txt", ".pdf", ".jpg", ".jpeg", ".png", ".doc", ".docx"}
    ensures r.Ok? ==> r.value == ALLOWED_FILE_TYPES[NormalizeExtension(ext)]
    ensures r.Err? ==> r.msg == RefusedExtensionError(ext)
  {
    var normalized := NormalizeExtension(ext);
    NormalizeIdempotent(ext);
    if !IsValidFileExtension(normalized) then Err(RefusedExtensionError(ext))
    else Ok(ALLOWED_FILE_TYPES[normalized])
  }

  /** `.jpg`, lower case with the dot, maps to `image/jpeg`. */
  lemma DottedJpgIsKnown()
    ensures GetMimeType(".jpg") == Ok("image/jpeg")
  {
    ToLowerOfLowerCase(".jpg");
    assert ".jpg"[..1] == ".";
    assert ALLOWED_FILE_TYPES[".jpg"] == "image/jpeg";
  }

  /** `JPEG`, upper case without the dot, maps to `image/jpeg` too: the case is folded and
      the dot added. */
  lemma UpperJpegIsKnown()
    ensures GetMimeType("JPEG") == Ok("image/jpeg")
  {
    assert ToLower("JPEG") == "jpeg" by {
      assert forall i :: 0 <= i < 4 ==> ToLower("JPEG")[i] == "jpeg"[i];
    }
    assert "JPEG"[..1][0] == 'J';
    assert NormalizeExtension("JPEG") == ".jpeg";
    assert ALLOWED_FILE_TYPES[".jpeg"] == "image/jpeg";
  }

  /** `.JpEg`, mixed case with the dot, maps to `image/jpeg` as well. */
  lemma MixedJpegIsKnown()
    ensures GetMimeType(".JpEg") == Ok("image/jpeg")
  {
    assert ".JpEg"[..1] == ".";
    assert ToLower(".JpEg") == ".jpeg" by {
      assert forall i :: 0 <= i < 5 ==> ToLower(".JpEg")[i] == ".jpeg"[i];
    }
    assert ALLOWED_FILE_TYPES[".jpeg"] == "image/jpeg";
  }

  /** An extension outside the table is refused with the message naming it. */
  lemma UnknownExtensionRefused()
    ensures GetMimeType(".exe") == Err(RefusedExtensionError(".exe"))
    ensures GetMimeType("gif").Err?
  {
    ToLowerOfLowerCase(".exe");
    ToLowerOfLowerCase("gif");
    assert ".exe"[..1] == ".";
    assert NormalizeExtension(".exe") == ".exe";
  }

  // ---------------------------------------------------------------------------
  // generateSignedUrl
  // ---------------------------------------------------------------------------

  /** `BUCKET_NAME` and `URL_EXPIRATION_TIME` after reading the environment. */
  datatype Settings = Settings(bucketName: string, expirationMs: int)

  /** The settings from the environment: `bucketEnv` is `BUCKET_NAME`, `minutesEnv` the
      integer `parseInt` reads from `URL_EXPIRATION_TIME` (None when it is unset or empty). */
  function SettingsFromEnv(bucketEnv: Option<string>, minutesEnv: Option<int>): (s: Settings)
    ensures bucketEnv.None? || bucketEnv.value == "" ==> s.bucketName == DEFAULT_BUCKET_NAME
    ensures bucketEnv.Some? && bucketEnv.value != "" ==> s.bucketName == bucketEnv.value
    ensures minutesEnv.None? ==> s.expirationMs == 15 * 60 * 1000
    ensures minutesEnv.Some? ==> s.expirationMs == minutesEnv.value * 60_000
  {
    var bucket := if bucketEnv.Some? && bucketEnv.value != "" then bucketEnv.value else DEFAULT_BUCKET_NAME;
    var minutes := if minutesEnv.Some? then minutesEnv.value else DEFAULT_EXPIRATION_MINUTES;
    Settings(bucket, minutes * 60 * 1000)
  }

  /** The two readings of `Date.now()` in `generateSignedUrl`: one for the signing options and
      one for the returned expiration time. */
  datatype Clock = Clock(atSigning: int, atReturn: int)

  /** The options object handed to `file.getSignedUrl` for `bucket`/`file`. */
  datatype SignRequest = SignRequest(bucket: string, file: string, version: string, action: string,
                                     expires: int, contentType: string)

  /** The object `generateSignedUrl` resolves with; `expirationTime` in milliseconds since the
      epoch (its ISO rendering is applied by the handler). */
  datatype Grant = Grant(signedUrl: string, fileName: string, mimeType: string, expirationTime: int)

  /** The phrases the handler's catch block looks for in a message. */
  const REFUSED_EXTENSION_CLAUSE := "Extensión de archivo no permitida"
  const EMPTY_NAME_CLAUSE := "nombre del archivo no puede estar vacío"
  const EXTENSION_REQUIRED_CLAUSE := "extensión del archivo es requerida"

  const EMPTY_NAME_ERROR := "El " + EMPTY_NAME_CLAUSE
  const EXTENSION_REQUIRED_ERROR := "La " + EXTENSION_REQUIRED_CLAUSE
  const SIZE_NOT_POSITIVE_ERROR := "El tamaño del archivo " + "debe ser un número positivo."
  const SIZE_TOO_LARGE_ERROR :=
    "El archivo excede el tamaño " + "máximo permitido (" + IntToString(MAX_FILE_SIZE / (1024 * 1024)) + " MB)."

  /** The name check: a string that is not empty after trimming. */
  predicate NameAccepted(fileName: Option<Json>) {
    fileName.Some? && fileName.value.JString? && Trim(fileName.value.s) != ""
  }

  /** A size is given when it is neither `undefined` nor `null`. */
  predicate SizeGiven(fileSize: Option<Json>) {
    fileSize.Some? && !fileSize.value.JNull?
  }

  /** The three size rules together: absent, or a positive number of at most 10 MiB. */
  predicate SizeAccepted(fileSize: Option<Json>) {
    !SizeGiven(fileSize) || (fileSize.value.JNumber? && 0 < fileSize.value.n <= MAX_FILE_SIZE)
  }

  /** The first failing input check, in the order the source makes them. */
  function InputError(fileName: Option<Json>, fileExtension: Option<Json>, fileSize: Option<Json>): (r: Option<string>)
    ensures r.None? <==> NameAccepted(fileName) && IsNonEmptyString(fileExtension) && SizeAccepted(fileSize)
    ensures !NameAccepted(fileName) ==> r == Some(EMPTY_NAME_ERROR)
    ensures NameAccepted(fileName) && !IsNonEmptyString(fileExtension) ==> r == Some(EXTENSION_REQUIRED_ERROR)
    ensures NameAccepted(fileName) && IsNonEmptyString(fileExtension) && !SizeAccepted(fileSize)
      ==> r == Some(SIZE_NOT_POSITIVE_ERROR) || r == Some(SIZE_TOO_LARGE_ERROR)
  {
    if !(fileName.Some? && Truthy(fileName.value)) || !fileName.value.JString? || Trim(fileName.value.s) == "" then
      Some(EMPTY_NAME_ERROR)
    else if !(fileExtension.Some? && Truthy(fileExtension.value)) || !fileExtension.value.JString? then
      Some(EXTENSION_REQUIRED_ERROR)
    else if SizeGiven(fileSize) && (!fileSize.value.JNumber? || fileSize.value.n <= 0) then
      Some(SIZE_NOT_POSITIVE_ERROR)
    else if SizeGiven(fileSize) && fileSize.value.n > MAX_FILE_SIZE then
      Some(SIZE_TOO_LARGE_ERROR)
    else None
  }

  /** `generateSignedUrl(fileName, fileExtension, fileSize)`: the checks, then the MIME type,
      the full name and the signer call; any failure is rethrown unchanged. */
  function GenerateSignedUrl(fileName: Option<Json>, fileExtension: Option<Json>, fileSize: Option<Json>,
                             settings: Settings, clock: Clock, signer: SignRequest -> Result<string>): (r: Result<Grant>)
    ensures InputError(fileName, fileExtension, fileSize).Some? ==> r == Err(InputError(fileName, fileExtension, fileSize).value)
    ensures InputError(fileName, fileExtension, fileSize).None? ==>
      var ext := fileExtension.value.s;
      var fullName := fileName.value.s + NormalizeExtension(ext);
      var mime := GetMimeType(ext);
      if mime.Err? then r == Err(mime.msg)
      else
        var request := SignRequest(settings.bucketName, fullName, "v4", "write",
                                   clock.atSigning + settings.expirationMs, mime.value);
        if signer(request).Err? then r == Err(signer(request).msg)
        else r == Ok(Grant(signer(request).value, fullName, mime.value, clock.atReturn + settings.expirationMs))
  {
    match InputError(fileName, fileExtension, fileSize)
    case Some(e) => Err(e)
    case None =>
      var ext := fileExtension.value.s;
      match GetMimeType(ext)
      case Err(e) => Err(e)
      case Ok(mimeType) =>
        var fullFileName := fileName.value.s + NormalizeExtension(ext);
        var options := SignRequest(settings.bucketName, fullFileName, "v4", "write",
                                   clock.atSigning + settings.expirationMs, mimeType);
        match signer(options)
        case Err(e) => Err(e)
        case Ok(signedUrl) =>
          Ok(Grant(signedUrl, fullFileName, mimeType, clock.atReturn + settings.expirationMs))
  }

  /** On success the granted name is the untrimmed name plus the normalised extension, and
      the MIME type is the table's entry for it. */
  lemma GrantNamesTheExtendedFile(fileName: Option<Json>, fileExtension: Option<Json>, fileSize: Option<Json>,
                                  settings: Settings, clock: Clock, signer: SignRequest -> Result<string>)
    requires GenerateSignedUrl(fileName, fileExtension, fileSize, settings, clock, signer).Ok?
    ensures var g := GenerateSignedUrl(fileName, fileExtension, fileSize, settings, clock, signer).value;
      NameAccepted(fileName) && IsNonEmptyString(fileExtension) && SizeAccepted(fileSize)
      && g.fileName == fileName.value.s + NormalizeExtension(fileExtension.value.s)
      && IsValidFileExtension(fileExtension.value.s)
      && g.mimeType == ALLOWED_FILE_TYPES[NormalizeExtension(fileExtension.value.s)]
      && g.expirationTime == clock.atReturn + settings.expirationMs
  {
  }

  /** A size of exactly 10 MiB passes; one byte more is refused as too large. */
  lemma TenMiBIsTheLimit(fileName: Option<Json>, fileExtension: Option<Json>)
    requires NameAccepted(fileName) && IsNonEmptyString(fileExtension)
    ensures InputError(fileName, fileExtension, Some(JNumber(10_485_760))).None?
    ensures InputError(fileName, fileExtension, Some(JNumber(10_485_761))) == Some(SIZE_TOO_LARGE_ERROR)
    ensures InputError(fileName, fileExtension, Some(JNumber(0))) == Some(SIZE_NOT_POSITIVE_ERROR)
    ensures InputError(fileName, fileExtension, Some(JString("5"))) == Some(SIZE_NOT_POSITIVE_ERROR)
    ensures InputError(fileName, fileExtension, Some(JNull)).None?
  {
    assert InputError(fileName, fileExtension, Some(JNumber(10_485_760))).None? by {
      SizeCheckOnly(fileName, fileExtension, Some(JNumber(10_485_760)));
    }
    assert InputError(fileName, fileExtension, Some(JNumber(10_485_761))) == Some(SIZE_TOO_LARGE_ERROR) by {
      SizeCheckOnly(fileName, fileExtension, Some(JNumber(10_485_761)));
    }
    assert InputError(fileName, fileExtension, Some(JNumber(0))) == Some(SIZE_NOT_POSITIVE_ERROR) by {
      SizeCheckOnly(fileName, fileExtension, Some(JNumber(0)));
    }
    assert InputError(fileName, fileExtension, Some(JString("5"))) == Some(SIZE_NOT_POSITIVE_ERROR) by {
      SizeCheckOnly(fileName, fileExtension, Some(JString("5")));
    }
    assert InputError(fileName, fileExtension, Some(JNull)).None? by {
      SizeCheckOnly(fileName, fileExtension, Some(JNull));
    }
  }

  /** Once name and extension pass, only the two size rules are left, in order. */
  lemma SizeCheckOnly(fileName: Option<Json>, fileExtension: Option<Json>, fileSize: Option<Json>)
    requires NameAccepted(fileName) && IsNonEmptyString(fileExtension)
    ensures InputError(fileName, fileExtension, fileSize) ==
      if SizeGiven(fileSize) && (!fileSize.value.JNumber? || fileSize.value.n <= 0) then Some(SIZE_NOT_POSITIVE_ERROR)
      else if SizeGiven(fileSize) && fileSize.value.n > MAX_FILE_SIZE then Some(SIZE_TOO_LARGE_ERROR)
      else None
  {
  }

  // ---------------------------------------------------------------------------
  // The HTTP handler
  // ---------------------------------------------------------------------------

  const UNAUTHORIZED_ERROR := "No autorizado. API key inválida."
  const METHOD_NOT_ALLOWED_ERROR := "Método no permitido. Use POST."
  const CONTENT_TYPE_ERROR := "Content-Type debe ser application/json"
  const MISSING_FIELDS_ERROR := "Faltan datos requeridos. Se necesita fileName y fileExtension."
  const SUCCESS_MESSAGE := "URL generada correctamente. Use esta URL para subir su archivo."
  const INTERNAL_ERROR := "Error interno del servidor al generar la URL firmada."

  /** The substrings that make a thrown message a client error. */
  predicate IsClientErrorMessage(msg: string) {
    Contains(msg, REFUSED_EXTENSION_CLAUSE)
    || Contains(msg, EMPTY_NAME_CLAUSE)
    || Contains(msg, EXTENSION_REQUIRED_CLAUSE)
  }

  /** The catch block's response for a thrown message: 400 for the three client errors,
      500 for everything else. */
  function CaughtError(msg: string): (r: Response)
    ensures r.status == 400 || r.status == 500
    ensures r.status == 400 <==> IsClientErrorMessage(msg)
    ensures r.body == ErrorBody(OrDefault(msg, INTERNAL_ERROR))
  {
    Response(if IsClientErrorMessage(msg) then 400 else 500, ErrorBody(OrDefault(msg, INTERNAL_ERROR)))
  }

  /** The 200 body: `success`, the grant's fields and the fixed message. */
  function SuccessBody(g: Grant, toIso: int -> string): (r: Json)
    ensures r.JObject? && r.fields.Keys == {"success", "signedUrl", "fileName", "mimeType", "expirationTime", "message"}
    ensures Truthy(r.fields["success"])
    ensures r.fields["signedUrl"] == JString(g.signedUrl) && r.fields["fileName"] == JString(g.fileName)
  {
    JObject(map[
      "success" := JBool(true),
      "signedUrl" := JString(g.signedUrl),
      "fileName" := JString(g.fileName),
      "mimeType" := JString(g.mimeType),
      "expirationTime" := JString(toIso(g.expirationTime)),
      "message" := JString(SUCCESS_MESSAGE)
    ])
  }

  /** The Content-Type guard: the header is present and mentions `application/json`. */
  predicate JsonContentType(req: Request) {
    var ct := HeaderViaGet(req, "Content-Type");
    ct.Some? && Contains(ct.value, "application/json")
  }

  /** The key, method and Content-Type guards pass, so `request.body` is destructured. */
  predicate ReachesBody(req: Request, serverKey: Option<string>) {
    Auth.IsAuthorized(serverKey, req) && req.httpMethod == "POST" && req.hasGet && JsonContentType(req)
  }

  /** Every guard of the handler passes, so `generateSignedUrl` is called. */
  predicate ReachesGeneration(req: Request, serverKey: Option<string>) {
    ReachesBody(req, serverKey) && !BodyIsNullish(req.body)
    && TruthyOpt(BodyField(req.body, "fileName")) && TruthyOpt(BodyField(req.body, "fileExtension"))
  }

  /** `generateUploadUrl(request, response)`: the response it writes. */
  function GenerateUploadUrl(req: Request, serverKey: Option<string>, settings: Settings, clock: Clock,
                             signer: SignRequest -> Result<string>, toIso: int -> string): (r: Response)
    ensures !Auth.IsAuthorized(serverKey, req) ==> r == Response(401, ErrorBody(UNAUTHORIZED_ERROR))
    ensures Auth.IsAuthorized(serverKey, req) && req.httpMethod != "POST"
      ==> r == Response(405, ErrorBody(METHOD_NOT_ALLOWED_ERROR))
    ensures Auth.IsAuthorized(serverKey, req) && req.httpMethod == "POST" && !req.hasGet
      ==> r == CaughtError(GET_NOT_A_FUNCTION)
    ensures Auth.IsAuthorized(serverKey, req) && req.httpMethod == "POST" && req.hasGet && !JsonContentType(req)
      ==> r == Response(400, ErrorBody(CONTENT_TYPE_ERROR))
    ensures ReachesBody(req, serverKey) && BodyIsNullish(req.body)
      ==> r == CaughtError(DestructureError("fileName", req.body))
    ensures ReachesBody(req, serverKey) && !BodyIsNullish(req.body)
      && (!TruthyOpt(BodyField(req.body, "fileName")) || !TruthyOpt(BodyField(req.body, "fileExtension")))
      ==> r == Response(400, ErrorBody(MISSING_FIELDS_ERROR))
    ensures ReachesGeneration(req, serverKey) ==>
      var result := GenerateSignedUrl(BodyField(req.body, "fileName"), BodyField(req.body, "fileExtension"),
                                      BodyField(req.body, "fileSize"), settings, clock, signer);
      result.Err? ==> r == CaughtError(result.msg)
    ensures r.status == 200 <==>
      ReachesGeneration(req, serverKey)
      && GenerateSignedUrl(BodyField(req.body, "fileName"), BodyField(req.body, "fileExtension"),
                           BodyField(req.body, "fileSize"), settings, clock, signer).Ok?
    ensures r.status == 200 ==>
      r.body == SuccessBody(GenerateSignedUrl(BodyField(req.body, "fileName"), BodyField(req.body, "fileExtension"),
                                              BodyField(req.body, "fileSize"), settings, clock, signer).value, toIso)
    ensures r.status in {200, 400, 401, 405, 500}
  {
    if !Auth.IsAuthorized(serverKey, req) then Response(401, ErrorBody(UNAUTHORIZED_ERROR))
    else if req.httpMethod != "POST" then Response(405, ErrorBody(METHOD_NOT_ALLOWED_ERROR))
    else if !req.hasGet then CaughtError(GET_NOT_A_FUNCTION)
    else if !JsonContentType(req) then Response(400, ErrorBody(CONTENT_TYPE_ERROR))
    else if BodyIsNullish(req.body) then CaughtError(DestructureError("fileName", req.body))
    else
      var fileName := BodyField(req.body, "fileName");
      var fileExtension := BodyField(req.body, "fileExtension");
      var fileSize := BodyField(req.body, "fileSize");
      if !TruthyOpt(fileName) || !TruthyOpt(fileExtension) then Response(400, ErrorBody(MISSING_FIELDS_ERROR))
      else
        match GenerateSignedUrl(fileName, fileExtension, fileSize, settings, clock, signer)
        case Ok(g) => Response(200, SuccessBody(g, toIso))
        case Err(e) => CaughtError(e)
  }

  /** A message with neither `ó` nor `í` is not a client error: each phrase has one of the
      two. */
  lemma NoAccentsNoClientError(msg: string)
    requires 'ó' !in msg && 'í' !in msg
    ensures !IsClientErrorMessage(msg)
  {
    assert REFUSED_EXTENSION_CLAUSE[7] == 'ó';
    assert EMPTY_NAME_CLAUSE[37] == 'í';
    assert EXTENSION_REQUIRED_CLAUSE[7] == 'ó';
    NotContainsMissingChar(msg, REFUSED_EXTENSION_CLAUSE, 'ó');
    NotContainsMissingChar(msg, EMPTY_NAME_CLAUSE, 'í');
    NotContainsMissingChar(msg, EXTENSION_REQUIRED_CLAUSE, 'ó');
  }

  lemma SizeNotPositiveHasNoAccents()
    ensures 'ó' !in SIZE_NOT_POSITIVE_ERROR && 'í' !in SIZE_NOT_POSITIVE_ERROR
  {
    FirstSizePartHasNoAccents();
    SecondSizePartHasNoAccents();
  }

  lemma FirstSizePartHasNoAccents()
    ensures 'ó' !in "El tamaño del archivo " && 'í' !in "El tamaño del archivo "
  {
  }

  lemma SecondSizePartHasNoAccents()
    ensures 'ó' !in "debe ser un número positivo." && 'í' !in "debe ser un número positivo."
  {
  }

  lemma SizeTooLargeReadsTenMB()
    ensures SIZE_TOO_LARGE_ERROR == "El archivo excede el tamaño " + "máximo permitido (10 MB)."
  {
    assert MAX_FILE_SIZE / (1024 * 1024) == 10;
    assert IntToString(10) == "10";
  }

  lemma SizeTooLargeHasNoAccents()
    ensures 'ó' !in SIZE_TOO_LARGE_ERROR && 'í' !in SIZE_TOO_LARGE_ERROR
  {
    SizeTooLargeReadsTenMB();
    FirstTooLargePartHasNoAccents();
    SecondTooLargePartHasNoAccents();
  }

  lemma FirstTooLargePartHasNoAccents()
    ensures 'ó' !in "El archivo excede el tamaño " && 'í' !in "El archivo excede el tamaño "
  {
  }

  lemma SecondTooLargePartHasNoAccents()
    ensures 'ó' !in "máximo permitido (10 MB)." && 'í' !in "máximo permitido (10 MB)."
  {
  }

  /** The size messages contain none of the client-error phrases. */
  lemma SizeMessagesAreNotClientErrors()
    ensures !IsClientErrorMessage(SIZE_NOT_POSITIVE_ERROR)
    ensures !IsClientErrorMessage(SIZE_TOO_LARGE_ERROR)
  {
    SizeNotPositiveHasNoAccents();
    NoAccentsNoClientError(SIZE_NOT_POSITIVE_ERROR);
    SizeTooLargeHasNoAccents();
    NoAccentsNoClientError(SIZE_TOO_LARGE_ERROR);
  }

  /** A request that passes every guard but carries a bad size gets 500, not 400. */
  lemma BadSizeIsServerError(req: Request, serverKey: Option<string>, settings: Settings, clock: Clock,
                             signer: SignRequest -> Result<string>, toIso: int -> string)
    requires ReachesGeneration(req, serverKey)
    requires NameAccepted(BodyField(req.body, "fileName")) && IsNonEmptyString(BodyField(req.body, "fileExtension"))
    requires !SizeAccepted(BodyField(req.body, "fileSize"))
    ensures GenerateUploadUrl(req, serverKey, settings, clock, signer, toIso).status == 500
  {
    SizeMessagesAreNotClientErrors();
  }

  /** The name and extension messages are client errors. */
  lemma InputMessagesAreClientErrors(ext: string)
    ensures IsClientErrorMessage(EMPTY_NAME_ERROR)
    ensures IsClientErrorMessage(EXTENSION_REQUIRED_ERROR)
    ensures IsClientErrorMessage(RefusedExtensionError(ext))
  {
    EmptyNameIsClientError();
    ExtensionRequiredIsClientError();
    RefusedExtensionMessageIsClientError(ext);
  }

  lemma EmptyNameIsClientError()
    ensures Contains(EMPTY_NAME_ERROR, EMPTY_NAME_CLAUSE)
  {
    ContainsInside("El ", EMPTY_NAME_CLAUSE, "");
    assert "El " + EMPTY_NAME_CLAUSE + "" == EMPTY_NAME_ERROR;
  }

  lemma ExtensionRequiredIsClientError()
    ensures Contains(EXTENSION_REQUIRED_ERROR, EXTENSION_REQUIRED_CLAUSE)
  {
    ContainsInside("La ", EXTENSION_REQUIRED_CLAUSE, "");
    assert "La " + EXTENSION_REQUIRED_CLAUSE + "" == EXTENSION_REQUIRED_ERROR;
  }

  lemma RefusedExtensionMessageIsClientError(ext: string)
    ensures Contains(RefusedExtensionError(ext), REFUSED_EXTENSION_CLAUSE)
  {
    var c := REFUSED_EXTENSION_CLAUSE;
    assert StartsWith(c, c) by { assert c[..|c|] == c; }
    StartsWithAppend(c, c, ": ");
    StartsWithAppend(c + ": ", c, ext);
    StartsWithAppend(c + ": " + ext, c, ". Extensiones válidas: ");
    StartsWithAppend(c + ": " + ext + ". Extensiones válidas: ", c, Join(ALLOWED_KEY_ORDER, ", "));
    StartsWithContains(RefusedExtensionError(ext), c);
  }

  /** A refused extension reaching generation gets 400 with the message naming it. */
  lemma RefusedExtensionIsClientError(req: Request, serverKey: Option<string>, settings: Settings, clock: Clock,
                                      signer: SignRequest -> Result<string>, toIso: int -> string)
    requires ReachesGeneration(req, serverKey)
    requires NameAccepted(BodyField(req.body, "fileName")) && IsNonEmptyString(BodyField(req.body, "fileExtension"))
    requires SizeAccepted(BodyField(req.body, "fileSize"))
    requires !IsValidFileExtension(BodyField(req.body, "fileExtension").value.s)
    ensures GenerateUploadUrl(req, serverKey, settings, clock, signer, toIso)
      == Response(400, ErrorBody(RefusedExtensionError(BodyField(req.body, "fileExtension").value.s)))
  {
    InputMessagesAreClientErrors(BodyField(req.body, "fileExtension").value.s);
  }

  /** A 200 body says `success: true` and carries the grant's fields and the fixed message. */
  lemma SuccessBodyCarriesTheGrant(g: Grant, toIso: int -> string)
    ensures var body := SuccessBody(g, toIso);
      Get(body, "success") == Some(JBool(true))
      && Get(body, "signedUrl") == Some(JString(g.signedUrl))
      && Get(body, "fileName") == Some(JString(g.fileName))
      && Get(body, "mimeType") == Some(JString(g.mimeType))
      && Get(body, "expirationTime") == Some(JString(toIso(g.expirationTime)))
      && Get(body, "message") == Some(JString(SUCCESS_MESSAGE))
  {
  }

  /** A request object without `get` gets past the key check (read from `headers`) and then
      fails with the TypeError at the Content-Type read: 500, not 400. */
  lemma RequestWithoutGetIsServerError(req: Request, serverKey: Option<string>, settings: Settings, clock: Clock,
                                       signer: SignRequest -> Result<string>, toIso: int -> string)
    requires Auth.IsAuthorized(serverKey, req) && req.httpMethod == "POST" && !req.hasGet
    ensures GenerateUploadUrl(req, serverKey, settings, clock, signer, toIso)
      == Response(500, ErrorBody(GET_NOT_A_FUNCTION))
  {
    GetNotAFunctionIsServerError();
  }

  /** The TypeError's message names no client error, so it is answered with 500. */
  lemma GetNotAFunctionIsServerError()
    ensures CaughtError(GET_NOT_A_FUNCTION) == Response(500, ErrorBody(GET_NOT_A_FUNCTION))
  {
    assert 'ó' !in GET_NOT_A_FUNCTION && 'í' !in GET_NOT_A_FUNCTION;
    NoAccentsNoClientError(GET_NOT_A_FUNCTION);
  }
  /** A body that is `undefined` or `null` (the request was not parsed as JSON) throws the
      destructuring TypeError, whose message names no client error: 500. */
  lemma NullishBodyIsServerError(req: Request, serverKey: Option<string>, settings: Settings, clock: Clock,
                                 signer: SignRequest -> Result<string>, toIso: int -> string)
    requires ReachesBody(req, serverKey) && BodyIsNullish(req.body)
    ensures GenerateUploadUrl(req, serverKey, settings, clock, signer, toIso)
      == Response(500, ErrorBody(DestructureError("fileName", req.body)))
  {
    DestructureErrorHasNoAccents(req.body);
    NoAccentsNoClientError(DestructureError("fileName", req.body));
  }

  lemma DestructureErrorHasNoAccents(body: Option<Json>)
    ensures var msg := DestructureError("fileName", body); 'ó' !in msg && 'í' !in msg
  {
    DestructureHeadHasNoAccents();
    DestructureMiddleHasNoAccents();
    assert 'ó' !in "fileName" && 'í' !in "fileName";
    assert 'ó' !in "undefined." && 'í' !in "undefined.";
    assert 'ó' !in "null." && 'í' !in "null.";
  }

  lemma DestructureHeadHasNoAccents()
    ensures 'ó' !in "Cannot destructure property '" && 'í' !in "Cannot destructure property '"
  {
  }

  lemma DestructureMiddleHasNoAccents()
    ensures 'ó' !in "' of 'request.body' as it is " && 'í' !in "' of 'request.body' as it is "
  {
  }
}

/** The multipart form-generation endpoint (backend/funtions/scr/generarFormularioHttp.js):
    the extension and extractor choice for an uploaded buffer, the CORS and method checks, the
    accumulation of the upload by Busboy's callbacks, and the finish handler's responses. The
    extractor libraries, the model and `JSON.parse` are parameters; Busboy's parsing is the
    sequence of events it delivers. */
module FormHttp {
  import opened Wrappers
  import opened Strings
  import opened Json
  import opened StorageExtraction
  import Gemini

  // ---------------------------------------------------------------------------
  // extractTextFromBuffer
  // ---------------------------------------------------------------------------

  const BUFFER_UNSUPPORTED_ERROR := "Tipo de archivo no soportado para extracción de texto"

  /** `filename.split('.').pop().toLowerCase()`. */
  function BufferExtension(filename: string): (r: string)
    ensures r == ToLower(filename[LastIndexOf(filename, '.') + 1..])
    ensures IsLowerCase(r)
  {
    SplitLastIsSuffix(filename, '.');
    ToLowerIsLowerCase(Last(Split(filename, '.')));
    ToLower(Last(Split(filename, '.')))
  }

  /** With a dot, the buffer path's extension is the storage path's one. */
  lemma ExtensionsAgreeWithADot(filename: string)
    requires '.' in filename
    ensures GetFileExtension(filename) == Ok(BufferExtension(filename))
  {
    SplitLastIsSuffix(filename, '.');
  }

  /** Without a dot, the buffer path takes the whole lower-cased name (the storage path
      fails instead). */
  lemma DotlessNameIsItsOwnExtension(filename: string)
    requires '.' !in filename
    ensures BufferExtension(filename) == ToLower(filename)
    ensures GetFileExtension(filename).Err?
  {
    SplitWithoutSeparator(filename, '.');
  }

  /** A file named `TXT` is read as text. */
  lemma FileNamedTxtIsText()
    ensures BufferDispatch(BufferExtension("TXT")) == Ok(TextDecoder)
  {
    DotlessNameIsItsOwnExtension("TXT");
    assert ToLower("TXT") == "txt" by {
      assert forall i :: 0 <= i < 3 ==> ToLower("TXT")[i] == "txt"[i];
    }
  }

  /** The buffer path's `switch`: the storage one plus `jpeg`, with a fixed message. */
  function BufferDispatch(ext: string): (r: Result<Extractor>)
    ensures r == Ok(TextDecoder) <==> ext == "txt"
    ensures r == Ok(PdfParser) <==> ext == "pdf"
    ensures r == Ok(WordExtractor) <==> ext == "doc" || ext == "docx"
    ensures r == Ok(Ocr) <==> ext == "png" || ext == "jpg" || ext == "jpeg"
    ensures r.Err? ==> r.msg == BUFFER_UNSUPPORTED_ERROR
  {
    if ext == "txt" then Ok(TextDecoder)
    else if ext == "pdf" then Ok(PdfParser)
    else if ext == "doc" || ext == "docx" then Ok(WordExtractor)
    else if ext == "png" || ext == "jpg" || ext == "jpeg" then Ok(Ocr)
    else Err(BUFFER_UNSUPPORTED_ERROR)
  }

  /** The two dispatch tables pick the same extractor for every extension but `jpeg`, which
      only the buffer path accepts. */
  lemma DispatchTablesDifferOnlyOnJpeg(ext: string)
    ensures ext != "jpeg" ==> BufferDispatch(ext).Ok? == StorageDispatch(ext).Ok?
    ensures ext != "jpeg" && BufferDispatch(ext).Ok? ==> BufferDispatch(ext).value == StorageDispatch(ext).value
    ensures BufferDispatch("jpeg") == Ok(Ocr) && StorageDispatch("jpeg").Err?
  {
  }

  /** `extractTextFromBuffer(buffer, filename)`. */
  function ExtractTextFromBuffer(lib: Libraries, buffer: Bytes, filename: string): (r: Result<string>)
    ensures BufferDispatch(BufferExtension(filename)).Err? ==> r == Err(BUFFER_UNSUPPORTED_ERROR)
    ensures BufferDispatch(BufferExtension(filename)).Ok? ==>
      r == RunExtractor(lib, BufferDispatch(BufferExtension(filename)).value, buffer)
  {
    match BufferDispatch(BufferExtension(filename))
    case Err(e) => Err(e)
    case Ok(extractor) => RunExtractor(lib, extractor, buffer)
  }

  // ---------------------------------------------------------------------------
  // Responses
  // ---------------------------------------------------------------------------

  /** A written response: status, headers, and the JSON value serialised into the body
      (`None` for an empty body). */
  datatype Reply = Reply(status: int, headers: map<string, string>, body: Option<Json>)

  /** The CORS headers set before anything else. */
  const CORS_HEADERS: map<string, string> := map[
    "Access-Control-Allow-Origin" := "*",
    "Access-Control-Allow-Methods" := "POST, OPTIONS",
    "Access-Control-Allow-Headers" := "Content-Type"]

  /** `res.writeHead(status, {'Content-Type': 'application/json'})` then the JSON body. */
  function JsonReply(status: int, body: Json): (r: Reply)
    ensures r.status == status && r.body == Some(body)
    ensures forall h :: h in CORS_HEADERS ==> h in r.headers && r.headers[h] == CORS_HEADERS[h]
    ensures "Content-Type" in r.headers && r.headers["Content-Type"] == "application/json"
  {
    Reply(status, CORS_HEADERS["Content-Type" := "application/json"], Some(body))
  }

  function ErrorJson(msg: string): Json {
    JObject(map["success" := JBool(false), "error" := JString(msg)])
  }

  const METHOD_NOT_ALLOWED_ERROR := "Método no permitido. Use POST."
  const NO_FILE_ERROR := "No se recibió ningún archivo."
  const NO_TEMPLATE_ERROR := "No se especificó la plantilla."
  const GEMINI_DEFAULT_ERROR := "Error al generar el formulario con Gemini."
  const INTERNAL_ERROR := "Error interno del servidor."
  const TEXT_LIMIT := 15000

  /** The `finish` handler on the accumulated upload. */
  function FinishReply(buffer: Bytes, nombre: string, plantilla: string, lib: Libraries,
                       generate: (string, string) -> Result<string>, parse: string -> Option<Json>): (r: Reply)
    ensures nombre == "" || |buffer| == 0 ==> r == JsonReply(400, ErrorJson(NO_FILE_ERROR))
    ensures nombre != "" && |buffer| > 0 && plantilla == "" ==> r == JsonReply(400, ErrorJson(NO_TEMPLATE_ERROR))
    ensures r.status in {200, 400, 500}
    // a failed extraction reaches the outer catch, a failed generation the inner one
    ensures nombre != "" && |buffer| > 0 && plantilla != "" && ExtractTextFromBuffer(lib, buffer, nombre).Err?
      ==> r == JsonReply(500, ErrorJson(OrDefault(ExtractTextFromBuffer(lib, buffer, nombre).msg, INTERNAL_ERROR)))
    ensures nombre != "" && |buffer| > 0 && plantilla != "" && ExtractTextFromBuffer(lib, buffer, nombre).Ok? ==>
      var generated := Gemini.LlamarGemini(TakePrefix(ExtractTextFromBuffer(lib, buffer, nombre).value, TEXT_LIMIT),
                                           plantilla, generate, parse);
      generated.Err? ==> r == JsonReply(500, ErrorJson(OrDefault(generated.msg, GEMINI_DEFAULT_ERROR)))
    ensures r.status == 200 <==>
      nombre != "" && |buffer| > 0 && plantilla != ""
      && ExtractTextFromBuffer(lib, buffer, nombre).Ok?
      && Gemini.LlamarGemini(TakePrefix(ExtractTextFromBuffer(lib, buffer, nombre).value, TEXT_LIMIT),
                             plantilla, generate, parse).Ok?
    ensures r.status == 200 ==> r == JsonReply(200, JObject(map[
      "success" := JBool(true),
      "formulario" := Gemini.LlamarGemini(TakePrefix(ExtractTextFromBuffer(lib, buffer, nombre).value, TEXT_LIMIT),
                                          plantilla, generate, parse).value]))
  {
    if nombre == "" || |buffer| == 0 then JsonReply(400, ErrorJson(NO_FILE_ERROR))
    else if plantilla == "" then JsonReply(400, ErrorJson(NO_TEMPLATE_ERROR))
    else
      match ExtractTextFromBuffer(lib, buffer, nombre)
      case Err(e) => JsonReply(500, ErrorJson(OrDefault(e, INTERNAL_ERROR)))
      case Ok(textoExtraido) =>
        var textoLimitado := TakePrefix(textoExtraido, TEXT_LIMIT);
        match Gemini.LlamarGemini(textoLimitado, plantilla, generate, parse)
        case Err(e) => JsonReply(500, ErrorJson(OrDefault(e, GEMINI_DEFAULT_ERROR)))
        case Ok(formularioData) =>
          JsonReply(200, JObject(map["success" := JBool(true), "formulario" := formularioData]))
  }

  /** The two 400 answers use neither the extractors nor the model. */
  lemma RejectionsCallNothing(buffer: Bytes, nombre: string, plantilla: string,
                              lib1: Libraries, generate1: (string, string) -> Result<string>, parse1: string -> Option<Json>,
                              lib2: Libraries, generate2: (string, string) -> Result<string>, parse2: string -> Option<Json>)
    requires nombre == "" || |buffer| == 0 || plantilla == ""
    ensures FinishReply(buffer, nombre, plantilla, lib1, generate1, parse1)
         == FinishReply(buffer, nombre, plantilla, lib2, generate2, parse2)
  {
  }

  /** The model sees at most 15000 characters: the prefix of the text, all of it when
      shorter. */
  lemma ModelSeesTheTruncatedText(text: string)
    ensures |TakePrefix(text, TEXT_LIMIT)| <= 15000
    ensures TakePrefix(text, TEXT_LIMIT) == text[..|TakePrefix(text, TEXT_LIMIT)|]
    ensures |text| <= 15000 ==> TakePrefix(text, TEXT_LIMIT) == text
  {
  }

  // ---------------------------------------------------------------------------
  // Accumulating the upload
  // ---------------------------------------------------------------------------

  /** One callback Busboy makes: the start of a file part, a chunk of its data, or a
      non-file field. */
  datatype Event = FileStart(filename: string, mimetype: string) | Data(chunk: Bytes) | Field(fieldname: string, val: string)

  /** The concatenation of a list of chunks: every chunk fits in it, and a single chunk is
      itself. */
  function Flatten(chunks: seq<Bytes>): (r: Bytes)
    ensures forall k :: 0 <= k < |chunks| ==> |chunks[k]| <= |r|
    ensures |chunks| == 1 ==> r == chunks[0]
    decreases |chunks|
  {
    if |chunks| == 0 then [] else Flatten(chunks[..|chunks| - 1]) + chunks[|chunks| - 1]
  }

  /** The data chunks among the events, in arrival order. */
  function DataChunks(events: seq<Event>): (r: seq<Bytes>)
    ensures |r| <= |events|
    decreases |events|
  {
    if |events| == 0 then []
    else
      var last := events[|events| - 1];
      DataChunks(events[..|events| - 1]) + (if last.Data? then [last.chunk] else [])
  }

  /** The positions of the data chunks among the events, in arrival order. */
  function DataIndices(events: seq<Event>): (r: seq<nat>)
    ensures forall k :: 0 <= k < |r| ==> r[k] < |events|
    decreases |events|
  {
    if |events| == 0 then []
    else DataIndices(events[..|events| - 1]) + (if events[|events| - 1].Data? then [|events| - 1] else [])
  }

  /** The chunks are exactly the payloads of the `Data` events, in the order they arrived:
      the k-th chunk is the payload of the k-th `Data` event, and no `Data` event is
      skipped. */
  lemma {:induction false} DataChunksInArrivalOrder(events: seq<Event>)
    ensures var r := DataChunks(events); var idx := DataIndices(events);
      |idx| == |r|
      && (forall k :: 0 <= k < |idx| ==> events[idx[k]] == Data(r[k]))
      && (forall k, l :: 0 <= k < l < |idx| ==> idx[k] < idx[l])
      && (forall i :: 0 <= i < |events| && events[i].Data? ==> i in idx)
    decreases |events|
  {
    if |events| > 0 {
      var n := |events|;
      var front := events[..n - 1];
      DataChunksInArrivalOrder(front);
      var r, idx := DataChunks(events), DataIndices(events);
      var rF, idxF := DataChunks(front), DataIndices(front);
      assert forall k :: 0 <= k < |idxF| ==> idx[k] == idxF[k] && r[k] == rF[k] && events[idxF[k]] == front[idxF[k]];
      assert forall i :: 0 <= i < n - 1 ==> events[i] == front[i];
    }
  }

  /** No file part starts after position `i`. */
  predicate NoFileStartAfter(events: seq<Event>, i: nat) {
    forall j :: i < j < |events| ==> !events[j].FileStart?
  }

  /** A `plantilla` field. */
  predicate IsTemplateField(e: Event) {
    e.Field? && e.fieldname == "plantilla"
  }

  /** No `plantilla` field arrives after position `i`. */
  predicate NoTemplateFieldAfter(events: seq<Event>, i: nat) {
    forall j :: i < j < |events| ==> !IsTemplateField(events[j])
  }

  /** The name and type of the last file part, `""` before any. */
  function LastFile(events: seq<Event>): (r: (string, string))
    ensures (forall i :: 0 <= i < |events| ==> !events[i].FileStart?) ==> r == ("", "")
    ensures forall i :: (0 <= i < |events| && events[i].FileStart? && NoFileStartAfter(events, i)
      ==> r == (events[i].filename, events[i].mimetype))
    decreases |events|
  {
    if |events| == 0 then ("", "")
    else if events[|events| - 1].FileStart? then (events[|events| - 1].filename, events[|events| - 1].mimetype)
    else LastFile(events[..|events| - 1])
  }

  /** The value of the last `plantilla` field, `""` before any. */
  function LastTemplate(events: seq<Event>): (r: string)
    ensures (forall i :: 0 <= i < |events| ==> !IsTemplateField(events[i])) ==> r == ""
    ensures forall i :: (0 <= i < |events| && IsTemplateField(events[i]) && NoTemplateFieldAfter(events, i)
      ==> r == events[i].val)
    decreases |events|
  {
    if |events| == 0 then ""
    else if IsTemplateField(events[|events| - 1]) then events[|events| - 1].val
    else LastTemplate(events[..|events| - 1])
  }

  /** The handler's four variables, written by the callbacks. */
  class MultipartSession {
    var archivoBuffer: Bytes
    var archivoNombre: string
    var archivoMime: string
    var plantilla: string

    /** The chunks received so far. */
    ghost var chunks: seq<Bytes>

    /** The buffer is the concatenation of the chunks received so far. */
    ghost predicate Valid()
      reads this
    {
      archivoBuffer == Flatten(chunks)
    }

    constructor ()
      ensures Valid() && chunks == []
      ensures archivoBuffer == [] && archivoNombre == "" && archivoMime == "" && plantilla == ""
    {
      archivoBuffer := [];
      archivoNombre := "";
      archivoMime := "";
      plantilla := "";
      chunks := [];
    }

    /** `busboy.on('file', ...)`: remember the name and type of the part. */
    method OnFile(filename: string, mimetype: string)
      modifies this
      ensures archivoNombre == filename && archivoMime == mimetype
      ensures archivoBuffer == old(archivoBuffer) && plantilla == old(plantilla) && chunks == old(chunks)
    {
      archivoNombre := filename;
      archivoMime := mimetype;
    }

    /** `file.on('data', ...)`: append the chunk to the buffer. */
    method OnData(data: Bytes)
      requires Valid()
      modifies this
      ensures Valid() && chunks == old(chunks) + [data]
      ensures archivoBuffer == old(archivoBuffer) + data
      ensures archivoNombre == old(archivoNombre) && archivoMime == old(archivoMime) && plantilla == old(plantilla)
    {
      archivoBuffer := archivoBuffer + data;
      chunks := chunks + [data];
      assert chunks[..|chunks| - 1] == old(chunks);
    }

    /** `busboy.on('field', ...)`: only the `plantilla` field is kept. */
    method OnField(fieldname: string, val: string)
      modifies this
      ensures plantilla == (if fieldname == "plantilla" then val else old(plantilla))
      ensures archivoBuffer == old(archivoBuffer) && archivoNombre == old(archivoNombre)
      ensures archivoMime == old(archivoMime) && chunks == old(chunks)
    {
      if fieldname == "plantilla" {
        plantilla := val;
      }
    }

    /** Deliver one event to its callback. */
    method Deliver(e: Event)
      requires Valid()
      modifies this
      ensures Valid()
      ensures chunks == old(chunks) + (if e.Data? then [e.chunk] else [])
      ensures (archivoNombre, archivoMime) == (if e.FileStart? then (e.filename, e.mimetype) else (old(archivoNombre), old(archivoMime)))
      ensures plantilla == (if e.Field? && e.fieldname == "plantilla" then e.val else old(plantilla))
    {
      match e
      case FileStart(filename, mimetype) => OnFile(filename, mimetype);
      case Data(chunk) => OnData(chunk);
      case Field(fieldname, val) => OnField(fieldname, val);
    }
  }

  /** What the endpoint answers for a request with this method whose body Busboy delivers as
      these events. */
  function Respond(httpMethod: string, events: seq<Event>, lib: Libraries,
                   generate: (string, string) -> Result<string>, parse: string -> Option<Json>): (r: Reply)
    ensures httpMethod == "OPTIONS" ==> r == Reply(204, CORS_HEADERS, None)
    ensures httpMethod != "OPTIONS" && httpMethod != "POST" ==> r == JsonReply(405, ErrorJson(METHOD_NOT_ALLOWED_ERROR))
    ensures httpMethod == "POST" ==>
      r == FinishReply(Flatten(DataChunks(events)), LastFile(events).0, LastTemplate(events), lib, generate, parse)
  {
    if httpMethod == "OPTIONS" then Reply(204, CORS_HEADERS, None)
    else if httpMethod != "POST" then JsonReply(405, ErrorJson(METHOD_NOT_ALLOWED_ERROR))
    else FinishReply(Flatten(DataChunks(events)), LastFile(events).0, LastTemplate(events), lib, generate, parse)
  }

  /** Preflight and other methods are answered from the method alone. */
  lemma MethodChecksComeFirst(httpMethod: string, events1: seq<Event>, events2: seq<Event>, lib: Libraries,
                              generate: (string, string) -> Result<string>, parse: string -> Option<Json>)
    requires httpMethod != "POST"
    ensures Respond(httpMethod, events1, lib, generate, parse) == Respond(httpMethod, events2, lib, generate, parse)
    ensures httpMethod == "OPTIONS" ==> Respond(httpMethod, events1, lib, generate, parse).status == 204
    ensures httpMethod != "OPTIONS" ==> Respond(httpMethod, events1, lib, generate, parse).status == 405
  {
  }

  /** `generarFormularioHttp(req, res)`: the method checks, then a session fed Busboy's
      events in order (the loop stands for Busboy emitting them as it reads the body), then
      the finish handler. */
  method GenerarFormularioHttp(httpMethod: string, events: seq<Event>, lib: Libraries,
                               generate: (string, string) -> Result<string>, parse: string -> Option<Json>)
    returns (reply: Reply)
    ensures reply == Respond(httpMethod, events, lib, generate, parse)
  {
    if httpMethod == "OPTIONS" {
      return Reply(204, CORS_HEADERS, None);
    }
    if httpMethod != "POST" {
      return JsonReply(405, ErrorJson(METHOD_NOT_ALLOWED_ERROR));
    }
    var session := new MultipartSession();
    var i := 0;
    while i < |events|
      invariant 0 <= i <= |events|
      invariant session.Valid()
      invariant session.chunks == DataChunks(events[..i])
      invariant (session.archivoNombre, session.archivoMime) == LastFile(events[..i])
      invariant session.plantilla == LastTemplate(events[..i])
    {
      session.Deliver(events[i]);
      assert events[..i + 1][..i] == events[..i];
      i := i + 1;
    }
    assert events[..i] == events;
    reply := FinishReply(session.archivoBuffer, session.archivoNombre, session.plantilla, lib, generate, parse);
  }

  /** Flattening distributes over the concatenation of chunk lists. */
  lemma {:induction false} FlattenAppend(a: seq<Bytes>, b: seq<Bytes>)
    ensures Flatten(a + b) == Flatten(a) + Flatten(b)
    decreases |b|
  {
    if |b| == 0 {
      assert a + b == a;
    } else {
      var front := b[..|b| - 1];
      var ab := a + b;
      assert ab[..|ab| - 1] == a + front;
      assert ab[|ab| - 1] == b[|b| - 1];
      FlattenAppend(a, front);
      assert Flatten(ab) == Flatten(a + front) + b[|b| - 1];
      assert Flatten(b) == Flatten(front) + b[|b| - 1];
    }
  }

  /** Chunk lists compose along the events. */
  lemma {:induction false} DataChunksAppend(e1: seq<Event>, e2: seq<Event>)
    ensures DataChunks(e1 + e2) == DataChunks(e1) + DataChunks(e2)
    decreases |e2|
  {
    if |e2| == 0 {
      assert e1 + e2 == e1;
    } else {
      assert (e1 + e2)[..|e1 + e2| - 1] == e1 + e2[..|e2| - 1];
      DataChunksAppend(e1, e2[..|e2| - 1]);
    }
  }

  /** The buffer of two files' worth of events is the first file's bytes followed by the
      second's: the data of every part lands in the one buffer, in arrival order, while the
      name is the last part's. */
  lemma TwoPartsShareTheBuffer(a: Bytes, b: Bytes, first: string, second: string)
    ensures var events := [FileStart(first, "text/plain"), Data(a), FileStart(second, "text/plain"), Data(b)];
      Flatten(DataChunks(events)) == a + b && LastFile(events).0 == second
  {
    var p1 := [FileStart(first, "text/plain"), Data(a)];
    var p2 := [FileStart(second, "text/plain"), Data(b)];
    OnePartChunks(first, "text/plain", a);
    OnePartChunks(second, "text/plain", b);
    DataChunksAppend(p1, p2);
    assert p1 + p2 == [FileStart(first, "text/plain"), Data(a), FileStart(second, "text/plain"), Data(b)];
    FlattenAppend([a], [b]);
    assert [a] + [b] == [a, b];
    assert Flatten([a]) == a by {
      assert [a][..0] == [];
    }
    assert Flatten([b]) == b by {
      assert [b][..0] == [];
    }
    LastFileOfTwoParts(p1, second, "text/plain", b);
  }

  /** A file part's start and its one chunk yield that chunk. */
  lemma OnePartChunks(name: string, mimetype: string, chunk: Bytes)
    ensures DataChunks([FileStart(name, mimetype), Data(chunk)]) == [chunk]
  {
    var events := [FileStart(name, mimetype), Data(chunk)];
    assert events[..1] == [FileStart(name, mimetype)];
    assert events[..1][..0] == [];
  }

  /** After a second file part starts, its name is the last file's. */
  lemma LastFileOfTwoParts(before: seq<Event>, name: string, mimetype: string, chunk: Bytes)
    ensures LastFile(before + [FileStart(name, mimetype), Data(chunk)]).0 == name
  {
    var events := before + [FileStart(name, mimetype), Data(chunk)];
    assert events[..|events| - 1] == before + [FileStart(name, mimetype)];
  }
}

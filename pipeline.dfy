/** The queue-triggered orchestrator (backend/funtions/scr/processFile.js): decode the
    message, check its fields, extract the text, check it, truncate it and generate the form.
    Every failure ends the run quietly, so a run is a terminal outcome plus the calls it made
    to the extractor and the generator; nothing is stored. Base64 decoding, `JSON.parse`, the
    extractor and the generator are parameters. */
module Pipeline {
  import opened Wrappers
  import opened Strings
  import opened Json
  import StorageExtraction

  /** A call made to one of the two services, with its arguments. */
  datatype Call = Extract(bucket: Json, name: Json) | Generate(text: string, template: Json)

  /** Where a run ends. */
  datatype Outcome =
    | DecodeFailed        // no data, bad JSON or a `null` message: the outer catch
    | InvalidMessage      // a missing `fileName`, `template` or `bucket`
    | LogFailed           // a field the first log lines render does not convert: the outer catch
    | ExtractionFailed    // the extractor threw
    | EmptyText           // nothing but white space was extracted
    | GenerationFailed    // the generator threw: the outer catch
    | Completed(form: Json)

  datatype Run = Run(outcome: Outcome, calls: seq<Call>)

  const TEXT_LIMIT := 15000

  /** The decoded message, or `None` when decoding throws: `message.data` missing, text that
      is not JSON, or `null`, whose destructuring throws. */
  function DecodeMessage(data: Option<string>, decodeBase64: string -> string, parse: string -> Option<Json>): (r: Option<Json>)
    ensures r.Some? ==> !r.value.JNull?
    ensures data.None? ==> r.None?
    ensures data.Some? && parse(decodeBase64(data.value)) != Some(JNull) ==> r == parse(decodeBase64(data.value))
  {
    if data.None? then None
    else
      match parse(decodeBase64(data.value))
      case None => None
      case Some(JNull) => None
      case Some(messageData) => Some(messageData)
  }

  /** The three fields the message must carry, all truthy. */
  predicate WellFormed(messageData: Json) {
    TruthyOpt(Get(messageData, "fileName")) && TruthyOpt(Get(messageData, "template")) && TruthyOpt(Get(messageData, "bucket"))
  }

  /** The two log lines before the extraction render `fileName`, `template` and `bucket` in
      template literals; they throw unless all three convert to strings. */
  predicate Loggable(messageData: Json)
    requires WellFormed(messageData)
  {
    ConvertsToString(Get(messageData, "fileName").value) && ConvertsToString(Get(messageData, "template").value)
    && ConvertsToString(Get(messageData, "bucket").value)
  }

  /** The message gets past the field check and the log lines, so the extractor is called. */
  predicate Proceeds(messageData: Json) {
    WellFormed(messageData) && Loggable(messageData)
  }

  /** `extractTextFromGCSFile({ bucket, name: fileName })` of a well-formed message. */
  function ExtractCall(messageData: Json): Call
    requires WellFormed(messageData)
  {
    Extract(Get(messageData, "bucket").value, Get(messageData, "fileName").value)
  }

  /** `processFile(message)`. */
  function ProcessFile(data: Option<string>, decodeBase64: string -> string, parse: string -> Option<Json>,
                       extract: (Json, Json) -> Result<string>, generate: (string, Json) -> Result<Json>): (r: Run)
    // which outcome each stage's result leads to
    ensures var m := DecodeMessage(data, decodeBase64, parse);
      (r.outcome == DecodeFailed <==> m.None?)
      && (r.outcome == InvalidMessage <==> m.Some? && !WellFormed(m.value))
      && (r.outcome == LogFailed <==> m.Some? && WellFormed(m.value) && !Loggable(m.value))
    ensures var m := DecodeMessage(data, decodeBase64, parse);
      m.Some? && Proceeds(m.value) ==>
        var text := extract(Get(m.value, "bucket").value, Get(m.value, "fileName").value);
        |r.calls| >= 1 && r.calls[0] == ExtractCall(m.value)
        && (r.outcome == ExtractionFailed <==> text.Err?)
        && (r.outcome == EmptyText <==> text.Ok? && IsBlank(text.value))
        && (text.Ok? && !IsBlank(text.value) ==>
              var generated := generate(TakePrefix(text.value, TEXT_LIMIT), Get(m.value, "template").value);
              (generated.Err? ==> r.outcome == GenerationFailed)
              && (generated.Ok? ==> r.outcome == Completed(generated.value)))
    // which calls each outcome made
    ensures r.outcome in {DecodeFailed, InvalidMessage, LogFailed} ==> r.calls == []
    ensures r.outcome in {ExtractionFailed, EmptyText} ==>
      var m := DecodeMessage(data, decodeBase64, parse);
      m.Some? && Proceeds(m.value) && r.calls == [ExtractCall(m.value)]
    ensures r.outcome == GenerationFailed || r.outcome.Completed? ==>
      var m := DecodeMessage(data, decodeBase64, parse);
      m.Some? && Proceeds(m.value)
      && var text := extract(Get(m.value, "bucket").value, Get(m.value, "fileName").value);
      text.Ok? && !IsBlank(text.value)
      && r.calls == [ExtractCall(m.value), Generate(TakePrefix(text.value, TEXT_LIMIT), Get(m.value, "template").value)]
    ensures r.outcome.Completed? ==>
      |r.calls| == 2 && r.calls[1].Generate? && generate(r.calls[1].text, r.calls[1].template) == Ok(r.outcome.form)
    ensures r.outcome == GenerationFailed ==>
      |r.calls| == 2 && r.calls[1].Generate? && generate(r.calls[1].text, r.calls[1].template).Err?
  {
    match DecodeMessage(data, decodeBase64, parse)
    case None => Run(DecodeFailed, [])
    case Some(messageData) =>
      var fileName := Get(messageData, "fileName");
      var template := Get(messageData, "template");
      var bucket := Get(messageData, "bucket");
      if !TruthyOpt(fileName) || !TruthyOpt(template) || !TruthyOpt(bucket) then Run(InvalidMessage, [])
      else if !ConvertsToString(fileName.value) || !ConvertsToString(template.value) || !ConvertsToString(bucket.value) then
        Run(LogFailed, [])
      else
        var extraction := Extract(bucket.value, fileName.value);
        match extract(bucket.value, fileName.value)
        case Err(_) => Run(ExtractionFailed, [extraction])
        case Ok(textoExtraido) =>
          TrimEmptyIffBlank(textoExtraido);
          if textoExtraido == "" || Trim(textoExtraido) == "" then Run(EmptyText, [extraction])
          else
            var textoLimitado := TakePrefix(textoExtraido, TEXT_LIMIT);
            var generation := Generate(textoLimitado, template.value);
            match generate(textoLimitado, template.value)
            case Err(_) => Run(GenerationFailed, [extraction, generation])
            case Ok(formularioGenerado) => Run(Completed(formularioGenerado), [extraction, generation])
  }

  /** The generator is called exactly when the message decodes, carries the three fields,
      they can be logged, the extraction succeeds and the text is not blank; and then with at most 15000
      characters of it. */
  lemma GeneratorCalledOnlyWhenAllStagesPass(data: Option<string>, decodeBase64: string -> string, parse: string -> Option<Json>,
                                             extract: (Json, Json) -> Result<string>, generate: (string, Json) -> Result<Json>)
    ensures var r := ProcessFile(data, decodeBase64, parse, extract, generate);
      var m := DecodeMessage(data, decodeBase64, parse);
      (exists k :: 0 <= k < |r.calls| && r.calls[k].Generate?) <==>
        (m.Some? && Proceeds(m.value)
         && extract(Get(m.value, "bucket").value, Get(m.value, "fileName").value).Ok?
         && !IsBlank(extract(Get(m.value, "bucket").value, Get(m.value, "fileName").value).value))
    ensures var r := ProcessFile(data, decodeBase64, parse, extract, generate);
      forall k :: 0 <= k < |r.calls| && r.calls[k].Generate? ==> |r.calls[k].text| <= TEXT_LIMIT
  {
    var r := ProcessFile(data, decodeBase64, parse, extract, generate);
    StagesRunOnceInOrder(data, decodeBase64, parse, extract, generate);
    if |r.calls| == 2 {
      assert r.calls[1].Generate?;
    }
  }

  /** Each service is called at most once, the extractor first: no stage is retried. */
  lemma StagesRunOnceInOrder(data: Option<string>, decodeBase64: string -> string, parse: string -> Option<Json>,
                             extract: (Json, Json) -> Result<string>, generate: (string, Json) -> Result<Json>)
    ensures var r := ProcessFile(data, decodeBase64, parse, extract, generate);
      |r.calls| <= 2 && (|r.calls| >= 1 ==> r.calls[0].Extract?) && (|r.calls| == 2 ==> r.calls[1].Generate?)
  {
  }

  /** The blank check looks at the whole text: 15000 spaces followed by `x` is not blank, so
      the generator is called, with only the spaces. */
  lemma BlankCheckPrecedesTruncation(messageData: Json, decodeBase64: string -> string, parse: string -> Option<Json>,
                                     extract: (Json, Json) -> Result<string>, generate: (string, Json) -> Result<Json>, data: string)
    requires DecodeMessage(Some(data), decodeBase64, parse) == Some(messageData) && Proceeds(messageData)
    requires extract(Get(messageData, "bucket").value, Get(messageData, "fileName").value)
             == Ok(seq(TEXT_LIMIT, _ => ' ') + "x")
    ensures var r := ProcessFile(Some(data), decodeBase64, parse, extract, generate);
      |r.calls| == 2 && r.calls[1].text == seq(TEXT_LIMIT, _ => ' ') && IsBlank(r.calls[1].text)
  {
    var text := seq(TEXT_LIMIT, _ => ' ') + "x";
    assert !IsJsWhitespace(text[TEXT_LIMIT]);
    assert !IsBlank(text);
    assert text[..TEXT_LIMIT] == seq(TEXT_LIMIT, _ => ' ');
  }

  /** A message without `bucket` ends the run before any call. */
  lemma MissingBucketStopsEarly(data: string, decodeBase64: string -> string, parse: string -> Option<Json>,
                                extract: (Json, Json) -> Result<string>, generate: (string, Json) -> Result<Json>)
    requires parse(decodeBase64(data)) == Some(JObject(map["fileName" := JString("a.pdf"), "template" := JString("moderna")]))
    ensures ProcessFile(Some(data), decodeBase64, parse, extract, generate) == Run(InvalidMessage, [])
  {
  }

  /** With the storage extractor behind it, an uploaded `.jpeg` never reaches the generator:
      the extraction fails on the type (after the download) and the run ends there. */
  lemma JpegUploadNeverReachesGenerator(data: string, decodeBase64: string -> string, parse: string -> Option<Json>,
                                        extract: (Json, Json) -> Result<string>, generate: (string, Json) -> Result<Json>,
                                        messageData: Json, bucket: string, name: string,
                                        download: (string, string) -> Result<StorageExtraction.Bytes>,
                                        lib: StorageExtraction.Libraries)
    requires DecodeMessage(Some(data), decodeBase64, parse) == Some(messageData)
    requires Get(messageData, "bucket") == Some(JString(bucket)) && Get(messageData, "fileName") == Some(JString(name))
    requires TruthyOpt(Get(messageData, "template")) && ConvertsToString(Get(messageData, "template").value)
    requires bucket != "" && name != ""
    requires extract(JString(bucket), JString(name))
             == StorageExtraction.ExtractTextFromGCSFile(StorageExtraction.Event(bucket, name), download, lib)
    requires StorageExtraction.GetFileExtension(name) == Ok("jpeg")
    ensures ProcessFile(Some(data), decodeBase64, parse, extract, generate).outcome == ExtractionFailed
  {
    StorageExtraction.JpegAndEmptyAreUnsupported();
  }

  /** A `template` object with its own `toString` key makes the first log line throw: the run
      ends in the outer catch before the extractor is called. */
  lemma UnconvertibleTemplateStopsBeforeExtraction(data: string, decodeBase64: string -> string, parse: string -> Option<Json>,
                                                   extract: (Json, Json) -> Result<string>, generate: (string, Json) -> Result<Json>,
                                                   toStringValue: Json)
    requires parse(decodeBase64(data)) == Some(JObject(map[
      "fileName" := JString("a.pdf"), "template" := JObject(map["toString" := toStringValue]), "bucket" := JString("b")]))
    ensures ProcessFile(Some(data), decodeBase64, parse, extract, generate) == Run(LogFailed, [])
  {
  }
}

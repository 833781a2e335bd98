/** Text extraction from a stored file (backend/funtions/scr/extractTextFromGCSFile.js): the
    extension of the object name, the choice of extractor, the four extractor helpers (which
    the multipart endpoint reuses) and the wrapping of every failure. The download, the
    UTF-8 decoder, pdf-parse, mammoth and the OCR client are parameters. */
module StorageExtraction {
  import opened Wrappers
  import opened Strings

  newtype byte = x: int | 0 <= x < 256

  type Bytes = seq<byte>

  /** What mammoth's `extractRawText` resolves with: the text and its warnings. */
  datatype WordResult = WordResult(value: string, messages: seq<string>)

  /** One OCR text annotation; only its description is read. */
  datatype Annotation = Annotation(description: string)

  /** The libraries behind the helpers. `textDetection` resolves with the annotation list, or
      `None` when the result has no `textAnnotations`. */
  datatype Libraries = Libraries(
    decodeUtf8: Bytes -> string,
    pdfParse: Bytes -> Result<string>,
    extractRawText: Bytes -> Result<WordResult>,
    textDetection: Bytes -> Result<Option<seq<Annotation>>>)

  // ---------------------------------------------------------------------------
  // The four helpers
  // ---------------------------------------------------------------------------

  /** The four helpers, by the kind of file they read. */
  datatype Extractor = TextDecoder | PdfParser | WordExtractor | Ocr

  /** `extractTextFromImage`: no annotations, or an empty list, is no text; otherwise the
      first annotation holds the full text. */
  function TextFromDetections(detections: Option<seq<Annotation>>): (r: string)
    ensures detections.None? || detections.value == [] ==> r == ""
    ensures detections.Some? && detections.value != [] ==> r == detections.value[0].description
  {
    if detections.None? || |detections.value| == 0 then "" else detections.value[0].description
  }

  /** Run one helper on a buffer. Word warnings are only logged: the text is returned. */
  function RunExtractor(lib: Libraries, e: Extractor, buffer: Bytes): (r: Result<string>)
    ensures e == TextDecoder ==> r == Ok(lib.decodeUtf8(buffer))
    ensures e == PdfParser ==> r == lib.pdfParse(buffer)
    ensures e == WordExtractor ==>
      if lib.extractRawText(buffer).Ok? then r == Ok(lib.extractRawText(buffer).value.value)
      else r == Err(lib.extractRawText(buffer).msg)
    ensures e == Ocr && lib.textDetection(buffer).Err? ==> r == Err(lib.textDetection(buffer).msg)
    ensures e == Ocr && lib.textDetection(buffer).Ok? ==> r == Ok(TextFromDetections(lib.textDetection(buffer).value))
  {
    match e
    case TextDecoder => Ok(lib.decodeUtf8(buffer))
    case PdfParser => lib.pdfParse(buffer)
    case WordExtractor =>
      (match lib.extractRawText(buffer)
       case Err(m) => Err(m)
       case Ok(result) => Ok(result.value))
    case Ocr =>
      (match lib.textDetection(buffer)
       case Err(m) => Err(m)
       case Ok(detections) => Ok(TextFromDetections(detections)))
  }

  /** Word warnings never change the outcome: two mammoth results that differ only in their
      warnings give the same text. */
  lemma WordWarningsAreIgnored(lib: Libraries, buffer: Bytes, text: string, warnings1: seq<string>, warnings2: seq<string>)
    requires lib.extractRawText(buffer) == Ok(WordResult(text, warnings1))
    ensures RunExtractor(lib, WordExtractor, buffer) == Ok(text)
    ensures RunExtractor(lib.(extractRawText := b => if b == buffer then Ok(WordResult(text, warnings2)) else lib.extractRawText(b)),
                         WordExtractor, buffer) == Ok(text)
  {
  }

  /** OCR that finds no text yields the empty string rather than a failure. */
  lemma NoDetectionsIsEmptyText(lib: Libraries, buffer: Bytes)
    requires lib.textDetection(buffer) == Ok(None) || lib.textDetection(buffer) == Ok(Some([]))
    ensures RunExtractor(lib, Ocr, buffer) == Ok("")
  {
  }

  // ---------------------------------------------------------------------------
  // Extension and dispatch
  // ---------------------------------------------------------------------------

  const NO_EXTENSION_ERROR := "El archivo no tiene extensión"
  const UNSUPPORTED_PREFIX := "Tipo de archivo no soportado: ."
  const FAILURE_PREFIX := "Error al procesar el archivo: "

  /** `getFileExtension`: the lower-cased text after the last `.`; a name without `.` throws. */
  function GetFileExtension(fileName: string): (r: Result<string>)
    ensures r.Err? <==> '.' !in fileName
    ensures r.Err? ==> r.msg == NO_EXTENSION_ERROR
    ensures r.Ok? ==> '.' !in r.value && |r.value| < |fileName|
    ensures r.Ok? ==> var k := LastIndexOf(fileName, '.');
      fileName[k] == '.' && r.value == ToLower(fileName[k + 1..])
  {
    var lastDotIndex := LastIndexOf(fileName, '.');
    if lastDotIndex == -1 then Err(NO_EXTENSION_ERROR)
    else
      var ext := ToLower(fileName[lastDotIndex + 1..]);
      assert forall i :: 0 <= i < |ext| ==> ext[i] == LowerChar(fileName[lastDotIndex + 1 + i]);
      Ok(ext)
  }

  /** The `switch` on the extension. */
  function StorageDispatch(ext: string): (r: Result<Extractor>)
    ensures r == Ok(TextDecoder) <==> ext == "txt"
    ensures r == Ok(PdfParser) <==> ext == "pdf"
    ensures r == Ok(WordExtractor) <==> ext == "doc" || ext == "docx"
    ensures r == Ok(Ocr) <==> ext == "png" || ext == "jpg"
    ensures r.Err? ==> r.msg == UNSUPPORTED_PREFIX + ext
  {
    if ext == "txt" then Ok(TextDecoder)
    else if ext == "pdf" then Ok(PdfParser)
    else if ext == "doc" || ext == "docx" then Ok(WordExtractor)
    else if ext == "png" || ext == "jpg" then Ok(Ocr)
    else Err(UNSUPPORTED_PREFIX + ext)
  }

  /** `jpeg` and the empty extension are not dispatched. */
  lemma JpegAndEmptyAreUnsupported()
    ensures StorageDispatch("jpeg") == Err(UNSUPPORTED_PREFIX + "jpeg")
    ensures StorageDispatch("") == Err(UNSUPPORTED_PREFIX)
  {
  }

  // ---------------------------------------------------------------------------
  // extractTextFromGCSFile
  // ---------------------------------------------------------------------------

  /** The storage event's two fields that are read. */
  datatype Event = Event(bucket: string, name: string)

  /** `extractTextFromGCSFile(event)`: extension, then download, then the extractor; every
      failure is rethrown with the same prefix. */
  function ExtractTextFromGCSFile(event: Event, download: (string, string) -> Result<Bytes>, lib: Libraries): (r: Result<string>)
    ensures r.Err? ==> exists m :: r.msg == FAILURE_PREFIX + m
    ensures r.Ok? ==>
      GetFileExtension(event.name).Ok? && download(event.bucket, event.name).Ok?
      && StorageDispatch(GetFileExtension(event.name).value).Ok?
      && r == RunExtractor(lib, StorageDispatch(GetFileExtension(event.name).value).value,
                           download(event.bucket, event.name).value)
    // each stage's failure, in order, is the one reported
    ensures var ext := GetFileExtension(event.name);
      ext.Err? ==> r == Err(FAILURE_PREFIX + ext.msg)
    ensures var ext := GetFileExtension(event.name);
      var file := download(event.bucket, event.name);
      ext.Ok? && file.Err? ==> r == Err(FAILURE_PREFIX + file.msg)
    ensures var ext := GetFileExtension(event.name);
      var file := download(event.bucket, event.name);
      ext.Ok? && file.Ok? && StorageDispatch(ext.value).Err? ==> r == Err(FAILURE_PREFIX + StorageDispatch(ext.value).msg)
    ensures var ext := GetFileExtension(event.name);
      var file := download(event.bucket, event.name);
      ext.Ok? && file.Ok? && StorageDispatch(ext.value).Ok? ==>
        var text := RunExtractor(lib, StorageDispatch(ext.value).value, file.value);
        (text.Err? ==> r == Err(FAILURE_PREFIX + text.msg)) && (text.Ok? ==> r == text)
  {
    match GetFileExtension(event.name)
    case Err(e) => Err(FAILURE_PREFIX + e)
    case Ok(fileExtension) =>
      match download(event.bucket, event.name)
      case Err(e) => Err(FAILURE_PREFIX + e)
      case Ok(fileBuffer) =>
        match StorageDispatch(fileExtension)
        case Err(e) => Err(FAILURE_PREFIX + e)
        case Ok(extractor) =>
          match RunExtractor(lib, extractor, fileBuffer)
          case Err(e) => Err(FAILURE_PREFIX + e)
          case Ok(text) => Ok(text)
  }

  /** A name without a dot fails before any download: the outcome does not depend on the
      download at all. */
  lemma NoDotFailsBeforeDownload(event: Event, d1: (string, string) -> Result<Bytes>,
                                 d2: (string, string) -> Result<Bytes>, lib: Libraries)
    requires '.' !in event.name
    ensures ExtractTextFromGCSFile(event, d1, lib) == ExtractTextFromGCSFile(event, d2, lib)
    ensures ExtractTextFromGCSFile(event, d1, lib) == Err(FAILURE_PREFIX + NO_EXTENSION_ERROR)
  {
  }

  /** The download comes before the dispatch: an unsupported type whose download fails
      reports the download failure, and one whose download succeeds reports the type. */
  lemma DownloadPrecedesDispatch(event: Event, download: (string, string) -> Result<Bytes>, lib: Libraries)
    requires GetFileExtension(event.name).Ok? && StorageDispatch(GetFileExtension(event.name).value).Err?
    ensures download(event.bucket, event.name).Err? ==>
      ExtractTextFromGCSFile(event, download, lib) == Err(FAILURE_PREFIX + download(event.bucket, event.name).msg)
    ensures download(event.bucket, event.name).Ok? ==>
      ExtractTextFromGCSFile(event, download, lib)
        == Err(FAILURE_PREFIX + UNSUPPORTED_PREFIX + GetFileExtension(event.name).value)
  {
  }

  /** A downloaded `<base>.JPEG`, such as `photo.JPEG`, is refused as type `.jpeg`. */
  lemma JpegPhotoIsRefused(bucket: string, base: string, download: (string, string) -> Result<Bytes>, lib: Libraries)
    requires download(bucket, base + ".JPEG").Ok?
    ensures ExtractTextFromGCSFile(Event(bucket, base + ".JPEG"), download, lib)
      == Err(FAILURE_PREFIX + UNSUPPORTED_PREFIX + "jpeg")
  {
    UpperJpegExtension(base);
  }

  /** The extension of `<base>.JPEG` is `jpeg`. */
  lemma UpperJpegExtension(base: string)
    ensures GetFileExtension(base + ".JPEG") == Ok("jpeg")
  {
    assert '.' !in "JPEG";
    LastIndexOfBeforeSuffix(base, '.', "JPEG");
    assert base + ['.'] + "JPEG" == base + ".JPEG";
    assert ToLower("JPEG") == "jpeg" by {
      assert forall i :: 0 <= i < 4 ==> ToLower("JPEG")[i] == "jpeg"[i];
    }
  }
}

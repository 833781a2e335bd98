/** The upload component (frontend/Components/FileUploader/FileUploader.jsx): the selection
    check, the name splitting before the URL request, and the state its handlers write. React
    batches the writes of one handler, so the last write to a field wins; each handler is a
    method that makes its writes in the source's order. The three service calls of
    frontend/Services/storageService.js are parameters that succeed or fail. */
module Uploader {
  import opened Wrappers
  import opened Strings
  import opened Json
  import UploadUrl
  import StorageExtraction

  /** The browser `File` fields that are read. */
  datatype File = File(name: string, fileType: string, size: int)

  datatype UploadStatus = Idle | Uploading | Success | Failure

  const ALLOWED_FILE_TYPES: seq<string> := [
    "text/plain",
    "application/pdf",
    "image/jpeg",
    "image/png",
    "application/msword",
    "application/vnd.openxmlformats-officedocument.wordprocessingml.document"]

  const MAX_FILE_SIZE := 10 * 1024 * 1024
  const ALLOWED_EXTENSIONS: seq<string> := [".txt", ".pdf", ".jpg", ".png", ".doc", ".docx"]

  const EXTENSION_ERROR_PREFIX := "Extensión no permitida. " + "Solo se aceptan: "
  const EXTENSION_ERROR := EXTENSION_ERROR_PREFIX + Join(ALLOWED_EXTENSIONS, ", ")
  const TYPE_ERROR := "Tipo de archivo no permitido. " + "Verifica el formato del archivo."
  /** The size message, with `formatFileSize(MAX_FILE_SIZE)` rendered as `10 MB`. */
  const SIZE_ERROR := "El archivo excede el tamaño " + "máximo permitido (10 MB)"
  const NO_SELECTION_ERROR := "Por favor selecciona un archivo para subir"
  const DEFAULT_UPLOAD_ERROR := "Ocurrió un error durante la carga del archivo"
  const DEFAULT_BASE_NAME := "uploaded_file"
  const DEFAULT_BUCKET := "intelliforms-uploads"
  const STORAGE_HOST := "https://storage.googleapis.com/"

  // ---------------------------------------------------------------------------
  // Selection check
  // ---------------------------------------------------------------------------

  /** `'.' + name.split('.').pop().toLowerCase()`. */
  function SelectionExtension(name: string): (r: string)
    ensures StartsWith(r, ".") && IsLowerCase(r[1..])
    ensures r == "." + ToLower(name[LastIndexOf(name, '.') + 1..])
  {
    SplitLastIsSuffix(name, '.');
    ToLowerIsLowerCase(Last(Split(name, '.')));
    var r := "." + ToLower(Last(Split(name, '.')));
    assert r[1..] == ToLower(Last(Split(name, '.')));
    r
  }

  /** The three checks of `handleFileSelection`, in order: the message of the first that
      fails, or `None` when the file is accepted. */
  function SelectionError(file: File): (r: Option<string>)
    ensures r.None? <==>
      SelectionExtension(file.name) in ALLOWED_EXTENSIONS && file.fileType in ALLOWED_FILE_TYPES && file.size <= MAX_FILE_SIZE
    ensures SelectionExtension(file.name) !in ALLOWED_EXTENSIONS ==> r == Some(EXTENSION_ERROR)
    ensures SelectionExtension(file.name) in ALLOWED_EXTENSIONS && file.fileType !in ALLOWED_FILE_TYPES ==> r == Some(TYPE_ERROR)
    ensures (SelectionExtension(file.name) in ALLOWED_EXTENSIONS && file.fileType in ALLOWED_FILE_TYPES
             && file.size > MAX_FILE_SIZE) ==> r == Some(SIZE_ERROR)
  {
    if SelectionExtension(file.name) !in ALLOWED_EXTENSIONS then Some(EXTENSION_ERROR)
    else if file.fileType !in ALLOWED_FILE_TYPES then Some(TYPE_ERROR)
    else if file.size > MAX_FILE_SIZE then Some(SIZE_ERROR)
    else None
  }

  /** `event.target.files[0]`, or `undefined` when no file was chosen. */
  function FirstFile(files: seq<File>): (r: Option<File>)
    ensures r.Some? <==> |files| > 0
    ensures r.Some? ==> r.value == files[0]
  {
    if |files| == 0 then None else Some(files[0])
  }

  // ---------------------------------------------------------------------------
  // Name splitting
  // ---------------------------------------------------------------------------

  /** Lines 89-95 of `initiateFileUpload`: the base name (all parts but the last, rejoined
      with `.`) and the extension (`.` and the last part), which is empty without a dot. */
  function SplitFileName(name: string): (r: (string, string))
    ensures '.' in name ==> r.0 + r.1 == name && StartsWith(r.1, ".") && '.' !in r.1[1..]
    ensures '.' in name ==> r.1 == "." + name[LastIndexOf(name, '.') + 1..]
    ensures '.' !in name ==> r == ("", "")
  {
    var fileNameParts := Split(name, '.');
    var n := |fileNameParts|;
    var extension := if n > 1 then "." + fileNameParts[n - 1] else "";
    var baseName := Join(fileNameParts[..n - 1], ".");
    SplitHasSeveralParts(name, '.');
    if n > 1 then
      BaseAndExtensionRejoin(name);
      LastPartHasNoDot(name);
      assert extension[1..] == fileNameParts[n - 1];
      (baseName, extension)
    else
      (baseName, extension)
  }

  /** With a dot, the parts but the last, rejoined, then a dot and the last part, give the
      name back. */
  lemma BaseAndExtensionRejoin(name: string)
    requires '.' in name
    ensures var parts := Split(name, '.');
      |parts| > 1 && Join(parts[..|parts| - 1], ".") + "." + parts[|parts| - 1] == name
  {
    var parts := Split(name, '.');
    var n := |parts|;
    SplitHasSeveralParts(name, '.');
    JoinSplit(name, '.');
    JoinSnoc(parts[..n - 1], parts[n - 1], ".");
    assert parts[..n - 1] + [parts[n - 1]] == parts;
  }

  /** The last part of a split on `.` has no dot and is the text after the last dot. */
  lemma LastPartHasNoDot(name: string)
    ensures '.' !in Last(Split(name, '.'))
    ensures Last(Split(name, '.')) == name[LastIndexOf(name, '.') + 1..]
  {
    SplitPartsAvoidSeparator(name, '.');
    SplitLastIsSuffix(name, '.');
  }

  /** The base name sent with the URL request: `baseName || 'uploaded_file'`. */
  function RequestBaseName(name: string): (r: string)
    ensures r != ""
    ensures '.' !in name ==> r == DEFAULT_BASE_NAME
    ensures '.' in name && LastIndexOf(name, '.') > 0 ==> r == name[..LastIndexOf(name, '.')]
    ensures '.' in name && LastIndexOf(name, '.') == 0 ==> r == DEFAULT_BASE_NAME
  {
    OrDefault(SplitFileName(name).0, DEFAULT_BASE_NAME)
  }

  /** The public URL of the stored object, under the configured or the default bucket. */
  function FileUrl(bucketEnv: Option<string>, fileName: string): (r: string)
    ensures bucketEnv.None? || bucketEnv.value == "" ==> r == STORAGE_HOST + DEFAULT_BUCKET + "/" + fileName
    ensures bucketEnv.Some? && bucketEnv.value != "" ==> r == STORAGE_HOST + bucketEnv.value + "/" + fileName
  {
    var bucket := if bucketEnv.Some? && bucketEnv.value != "" then bucketEnv.value else DEFAULT_BUCKET;
    STORAGE_HOST + bucket + "/" + fileName
  }

  /** The frontend's default bucket is the backend's: without configuration the public URL
      points into the bucket the signed URL was issued for. */
  lemma DefaultBucketsAgree()
    ensures DEFAULT_BUCKET == UploadUrl.DEFAULT_BUCKET_NAME
    ensures UploadUrl.SettingsFromEnv(None, None).bucketName == DEFAULT_BUCKET
  {
  }

  // ---------------------------------------------------------------------------
  // The upload attempt
  // ---------------------------------------------------------------------------

  /** What `requestUploadUrl` resolves with; its other fields are not read. */
  datatype UrlGrant = UrlGrant(signedUrl: string, fileName: string)

  /** What `uploadFileToStorage` does: the progress percentages it reports, then its outcome. */
  datatype Transfer = Transfer(progress: seq<int>, result: Outcome)

  datatype Services = Services(
    requestUploadUrl: (string, string, int) -> Result<UrlGrant>,
    uploadFileToStorage: (File, string) -> Transfer,
    notifyFileProcessing: (string, string, string) -> Outcome)

  /** A call made to a service, with its arguments. */
  datatype ServiceCall =
    | RequestUrl(baseName: string, extension: string, size: int)
    | Upload(signedUrl: string)
    | Notify(fileName: string, fileUrl: string, fileType: string)

  /** The calls of one attempt, the message it failed with, if any, and the last progress. */
  datatype Attempt = Attempt(calls: seq<ServiceCall>, failure: Option<string>, progress: int)

  /** The `try` block of `initiateFileUpload` for a selected file. */
  function RunUpload(file: File, services: Services, bucketEnv: Option<string>): (a: Attempt)
    ensures 1 <= |a.calls| <= 3
    ensures a.calls[0] == RequestUrl(RequestBaseName(file.name), SplitFileName(file.name).1, file.size)
    ensures a.failure.None? ==> |a.calls| == 3
  {
    var extension := SplitFileName(file.name).1;
    var baseName := RequestBaseName(file.name);
    var request := RequestUrl(baseName, extension, file.size);
    match services.requestUploadUrl(baseName, extension, file.size)
    case Err(m) => Attempt([request], Some(m), 0)
    case Ok(grant) =>
      var transfer := services.uploadFileToStorage(file, grant.signedUrl);
      var progress := if |transfer.progress| == 0 then 0 else transfer.progress[|transfer.progress| - 1];
      var upload := Upload(grant.signedUrl);
      if transfer.result.Fail? then Attempt([request, upload], Some(transfer.result.msg), progress)
      else
        var fileUrl := FileUrl(bucketEnv, grant.fileName);
        var notify := Notify(grant.fileName, fileUrl, file.fileType);
        match services.notifyFileProcessing(grant.fileName, fileUrl, file.fileType)
        case Fail(m) => Attempt([request, upload, notify], Some(m), progress)
        case Pass => Attempt([request, upload, notify], None, progress)
  }

  /** The steps run in the order request, upload, notify; a failing step is the last one
      called; the upload goes to the URL just granted and the notification names the object
      the backend returned. */
  lemma StepsRunInOrder(file: File, services: Services, bucketEnv: Option<string>)
    ensures var a := RunUpload(file, services, bucketEnv);
      var grant := services.requestUploadUrl(RequestBaseName(file.name), SplitFileName(file.name).1, file.size);
      (grant.Err? <==> |a.calls| == 1)
      && (grant.Err? ==> a.failure == Some(grant.msg) && a.progress == 0)
      && (grant.Ok? ==>
            a.calls[1] == Upload(grant.value.signedUrl)
            && var transfer := services.uploadFileToStorage(file, grant.value.signedUrl);
            (transfer.result.Fail? <==> |a.calls| == 2)
            && (transfer.result.Fail? ==> a.failure == Some(transfer.result.msg))
            && (transfer.result.Pass? ==>
                  var fileUrl := FileUrl(bucketEnv, grant.value.fileName);
                  a.calls[2] == Notify(grant.value.fileName, fileUrl, file.fileType)
                  && var notified := services.notifyFileProcessing(grant.value.fileName, fileUrl, file.fileType);
                  (notified.Pass? ==> a.failure.None?)
                  && (notified.Fail? ==> a.failure == Some(notified.msg))))
  {
  }

  // ---------------------------------------------------------------------------
  // The component
  // ---------------------------------------------------------------------------

  class FileUploader {
    var selectedFile: Option<File>
    var uploadProgress: int
    var errorMessage: string
    var isUploading: bool
    var uploadStatus: UploadStatus
    /** `fileInputRef.current.value`, the file input's current value. */
    var inputValue: string
    /** Whether `fileInputRef.current` is set, that is, whether the input is mounted. */
    const inputMounted: bool

    /** Between handlers: a selected file passed the selection check and no upload is running. */
    predicate Valid()
      reads this
    {
      (selectedFile.Some? ==> SelectionError(selectedFile.value).None?)
      && !isUploading && uploadStatus != Uploading
    }

    /** The initial `useState` values. */
    constructor(inputMounted: bool)
      ensures Valid()
      ensures selectedFile.None? && uploadProgress == 0 && errorMessage == "" && !isUploading
      ensures uploadStatus == Idle && inputValue == "" && this.inputMounted == inputMounted
    {
      selectedFile := None;
      uploadProgress := 0;
      errorMessage := "";
      isUploading := false;
      uploadStatus := Idle;
      inputValue := "";
      this.inputMounted := inputMounted;
    }

    /** Clear the file input's value when it is mounted. */
    method ClearInput()
      modifies this
      ensures inputValue == (if inputMounted then "" else old(inputValue))
      ensures selectedFile == old(selectedFile) && uploadProgress == old(uploadProgress)
      ensures errorMessage == old(errorMessage) && isUploading == old(isUploading) && uploadStatus == old(uploadStatus)
    {
      if inputMounted {
        inputValue := "";
      }
    }

    /** `resetUploader`: back to no selection, no message, `idle` and no progress. */
    method ResetUploader()
      modifies this
      ensures selectedFile.None? && errorMessage == "" && uploadStatus == Idle && uploadProgress == 0
      ensures inputValue == (if inputMounted then "" else old(inputValue))
      ensures isUploading == old(isUploading)
    {
      selectedFile := None;
      errorMessage := "";
      uploadStatus := Idle;
      uploadProgress := 0;
      ClearInput();
    }

    /** `handleFileSelection`, as written: on a rejection the error text is written and then
        overwritten by the `''` of `resetUploader`, so no message remains. */
    method HandleFileSelection(files: seq<File>)
      requires Valid()
      modifies this
      ensures Valid()
      ensures var file := FirstFile(files);
        if file.None? || SelectionError(file.value).Some? then
          selectedFile.None? && errorMessage == "" && uploadStatus == Idle && uploadProgress == 0
          && inputValue == (if inputMounted then "" else old(inputValue))
        else
          selectedFile == file && errorMessage == "" && uploadStatus == Idle
          && uploadProgress == old(uploadProgress) && inputValue == old(inputValue)
      ensures isUploading == old(isUploading)
    {
      var file := FirstFile(files);
      if file.None? {
        ResetUploader();
        return;
      }
      var rejection := SelectionError(file.value);
      if rejection.Some? {
        errorMessage := rejection.value;
        ResetUploader();
        return;
      }
      AcceptSelection(file.value);
    }

    /** The selection handler as its tests expect it: the same checks and the same reset, with
        the error text written after the reset so that it is shown. */
    method HandleFileSelectionShowingError(files: seq<File>)
      requires Valid()
      modifies this
      ensures Valid()
      ensures var file := FirstFile(files);
        if file.None? then
          selectedFile.None? && errorMessage == "" && uploadStatus == Idle && uploadProgress == 0
          && inputValue == (if inputMounted then "" else old(inputValue))
        else if SelectionError(file.value).Some? then
          selectedFile.None? && errorMessage == SelectionError(file.value).value && uploadStatus == Idle
          && uploadProgress == 0 && inputValue == (if inputMounted then "" else old(inputValue))
        else
          selectedFile == file && errorMessage == "" && uploadStatus == Idle
          && uploadProgress == old(uploadProgress) && inputValue == old(inputValue)
      ensures isUploading == old(isUploading)
    {
      var file := FirstFile(files);
      if file.None? {
        ResetUploader();
        return;
      }
      var rejection := SelectionError(file.value);
      if rejection.Some? {
        ResetUploader();
        errorMessage := rejection.value;
        return;
      }
      AcceptSelection(file.value);
    }

    /** The writes for an accepted file: no message, the file selected, `idle`. */
    method AcceptSelection(file: File)
      modifies this
      ensures selectedFile == Some(file) && errorMessage == "" && uploadStatus == Idle
      ensures uploadProgress == old(uploadProgress) && inputValue == old(inputValue) && isUploading == old(isUploading)
    {
      errorMessage := "";
      selectedFile := Some(file);
      uploadStatus := Idle;
    }

    /** `initiateFileUpload`: without a selection only the message is set; with one the three
        steps of RunUpload run and the component ends unselected, not uploading, in `success`
        or `error`. Returns the service calls made. */
    method InitiateFileUpload(services: Services, bucketEnv: Option<string>) returns (calls: seq<ServiceCall>)
      requires Valid()
      modifies this
      ensures Valid()
      ensures old(selectedFile).None? ==>
        calls == [] && errorMessage == NO_SELECTION_ERROR && selectedFile == old(selectedFile)
        && uploadProgress == old(uploadProgress) && isUploading == old(isUploading)
        && uploadStatus == old(uploadStatus) && inputValue == old(inputValue)
      ensures old(selectedFile).Some? ==>
        var a := RunUpload(old(selectedFile).value, services, bucketEnv);
        calls == a.calls && !isUploading && selectedFile.None? && uploadProgress == a.progress
        && inputValue == (if inputMounted then "" else old(inputValue))
        && (a.failure.None? ==> uploadStatus == Success && errorMessage == old(errorMessage))
        && (a.failure.Some? ==> uploadStatus == Failure && errorMessage == OrDefault(a.failure.value, DEFAULT_UPLOAD_ERROR))
    {
      if selectedFile.None? {
        errorMessage := NO_SELECTION_ERROR;
        calls := [];
        return;
      }
      var file := selectedFile.value;
      BeginUpload();
      var attempt := RunUpload(file, services, bucketEnv);
      calls := attempt.calls;
      EndUpload(attempt);
    }

    /** The writes before the first step: uploading, with no progress. */
    method BeginUpload()
      modifies this
      ensures isUploading && uploadStatus == Uploading && uploadProgress == 0
      ensures selectedFile == old(selectedFile) && errorMessage == old(errorMessage) && inputValue == old(inputValue)
    {
      isUploading := true;
      uploadStatus := Uploading;
      uploadProgress := 0;
    }

    /** The writes once an attempt is over: its last progress, the `success` or the `error`
        branch, and the `finally`. */
    method EndUpload(attempt: Attempt)
      modifies this
      ensures !isUploading && selectedFile.None? && uploadProgress == attempt.progress
      ensures inputValue == (if inputMounted then "" else old(inputValue))
      ensures attempt.failure.None? ==> uploadStatus == Success && errorMessage == old(errorMessage)
      ensures attempt.failure.Some? ==>
        uploadStatus == Failure && errorMessage == OrDefault(attempt.failure.value, DEFAULT_UPLOAD_ERROR)
    {
      uploadProgress := attempt.progress;
      if attempt.failure.None? {
        uploadStatus := Success;
        selectedFile := None;
        ClearInput();
      } else {
        errorMessage := OrDefault(attempt.failure.value, DEFAULT_UPLOAD_ERROR);
        uploadStatus := Failure;
        selectedFile := None;
        ClearInput();
      }
      isUploading := false;
    }
  }

  // ---------------------------------------------------------------------------
  // Against the backend
  // ---------------------------------------------------------------------------

  /** The lower-cased dotted form of one of the six allowed extensions is its own
      normalisation. */
  lemma DottedLowerCaseIsNormal(e: string)
    requires StartsWith(e, ".") && IsLowerCase(e)
    ensures UploadUrl.NormalizeExtension(e) == e
  {
    ToLowerOfLowerCase(e);
  }

  /** Every extension the selection check allows is issued a URL. */
  lemma FrontendExtensionsAreIssuedUrls()
    ensures forall e :: e in ALLOWED_EXTENSIONS ==> UploadUrl.GetMimeType(e).Ok? && UploadUrl.NormalizeExtension(e) == e
  {
    forall e | e in ALLOWED_EXTENSIONS
      ensures UploadUrl.GetMimeType(e).Ok? && UploadUrl.NormalizeExtension(e) == e
    {
      assert e[..1] == ".";
      DottedLowerCaseIsNormal(e);
    }
  }

  /** An accepted file with a dot in its name sends an extension the backend accepts: the
      backend normalises the extension the frontend sends to the one it checked. */
  lemma AcceptedSelectionIsIssuedAUrl(file: File)
    requires SelectionError(file).None? && '.' in file.name
    ensures UploadUrl.GetMimeType(SplitFileName(file.name).1).Ok?
    ensures UploadUrl.NormalizeExtension(SplitFileName(file.name).1) == SelectionExtension(file.name)
  {
    SentExtensionNormalisesToSelection(file.name);
    FrontendExtensionsAreIssuedUrls();
    var e := SelectionExtension(file.name);
    assert UploadUrl.GetMimeType(e).Ok? && UploadUrl.NormalizeExtension(e) == e;
  }

  /** With a dot in the name, the extension sent normalises to the one the selection checked. */
  lemma SentExtensionNormalisesToSelection(name: string)
    requires '.' in name
    ensures UploadUrl.NormalizeExtension(SplitFileName(name).1) == SelectionExtension(name)
  {
    var tail := name[LastIndexOf(name, '.') + 1..];
    var sent := SplitFileName(name).1;
    assert sent == "." + tail;
    assert StartsWith(sent, ".") by {
      assert sent[..1] == ".";
    }
    assert ToLower(sent) == "." + ToLower(tail) by {
      ToLowerAppend(".", tail);
      assert ToLower(".") == "." by {
        assert ToLower(".")[0] == '.';
      }
    }
    assert UploadUrl.NormalizeExtension(sent) == ToLower(sent);
  }

  /** `.jpeg` is issued a URL by the backend but refused by the selection check and, as `jpeg`,
      by the storage extractor's dispatch. */
  lemma JpegIsOnlyAcceptedByTheBackend()
    ensures UploadUrl.GetMimeType(".jpeg") == Ok("image/jpeg")
    ensures ".jpeg" !in ALLOWED_EXTENSIONS
    ensures StorageExtraction.StorageDispatch("jpeg").Err?
  {
    assert ".jpeg"[..1] == ".";
    DottedLowerCaseIsNormal(".jpeg");
    StorageExtraction.JpegAndEmptyAreUnsupported();
  }

  /** A file named `pdf`, without a dot, passes the selection check as `.pdf` but is sent
      with no extension and the default base name, which the backend refuses. */
  lemma DotlessNamePassesSelectionButSendsNoExtension()
    ensures SelectionError(File("pdf", "application/pdf", 100)).None?
    ensures SplitFileName("pdf") == ("", "")
    ensures RequestBaseName("pdf") == DEFAULT_BASE_NAME
    ensures UploadUrl.InputError(Some(JString(DEFAULT_BASE_NAME)), Some(JString("")), Some(JNumber(100)))
            == Some(UploadUrl.EXTENSION_REQUIRED_ERROR)
  {
    DotlessPdfPassesSelection();
    DotlessPdfHasNoSplit();
    EmptyExtensionIsRefused();
  }

  /** `pdf` passes the selection check as `.pdf`. */
  lemma DotlessPdfPassesSelection()
    ensures SelectionError(File("pdf", "application/pdf", 100)).None?
  {
    DotlessPdfExtension();
    assert ALLOWED_EXTENSIONS[1] == ".pdf";
    assert ALLOWED_FILE_TYPES[1] == "application/pdf";
  }

  /** The selection extension of `pdf` is `.pdf`: the whole name is its last part. */
  lemma DotlessPdfExtension()
    ensures SelectionExtension("pdf") == ".pdf"
  {
    assert LastIndexOf("pdf", '.') == -1;
    assert "pdf"[0..] == "pdf";
    ToLowerOfLowerCase("pdf");
  }

  /** `pdf` has no dot, so nothing is split off and the default base name is sent. */
  lemma DotlessPdfHasNoSplit()
    ensures SplitFileName("pdf") == ("", "")
    ensures RequestBaseName("pdf") == DEFAULT_BASE_NAME
  {
    assert '.' !in "pdf";
  }

  /** The backend refuses the empty extension. */
  lemma EmptyExtensionIsRefused()
    ensures UploadUrl.InputError(Some(JString(DEFAULT_BASE_NAME)), Some(JString("")), Some(JNumber(100)))
            == Some(UploadUrl.EXTENSION_REQUIRED_ERROR)
  {
    assert !Truthy(JString(""));
    assert Trim(DEFAULT_BASE_NAME) != "" by {
      assert !IsBlank(DEFAULT_BASE_NAME) by {
        assert !IsJsWhitespace(DEFAULT_BASE_NAME[0]);
      }
      TrimEmptyIffBlank(DEFAULT_BASE_NAME);
    }
  }

  /** The selection extension of a name ending in a lower-case extension `e` is `e`. */
  lemma ExtensionAfterLastDot(a: string, e: string)
    requires StartsWith(e, ".") && '.' !in e[1..] && IsLowerCase(e)
    ensures SelectionExtension(a + e) == e
  {
    var b := e[1..];
    assert e == ['.'] + b;
    assert a + e == a + ['.'] + b;
    LastIndexOfBeforeSuffix(a, '.', b);
    ToLowerOfLowerCase(b);
  }

  /** Any executable, such as the `test.exe` of the component's tests, fails the first check. */
  lemma ExecutableFailsSelection(base: string, size: int)
    ensures SelectionError(File(base + ".exe", "application/octet-stream", size)) == Some(EXTENSION_ERROR)
  {
    ExecutableExtension(base);
    ExecutableIsNotAnAllowedExtension();
  }

  /** The selection extension of `<base>.exe` is `.exe`. */
  lemma ExecutableExtension(base: string)
    ensures SelectionExtension(base + ".exe") == ".exe"
  {
    assert ".exe"[..1] == "." && ".exe"[1..] == "exe";
    ExtensionAfterLastDot(base, ".exe");
  }

  lemma ExecutableIsNotAnAllowedExtension()
    ensures ".exe" !in ALLOWED_EXTENSIONS
  {
  }

  /** The three rejection messages are not empty. */
  lemma RejectionMessagesAreNotEmpty()
    ensures EXTENSION_ERROR != "" && TYPE_ERROR != "" && SIZE_ERROR != ""
  {
    assert |EXTENSION_ERROR_PREFIX| > 0;
    assert |"Tipo de archivo no permitido. "| > 0;
    assert |"El archivo excede el tamaño "| > 0;
  }

  /** On any rejected file, the selection handler as written ends with no message where the
      tests expect the rejection message; `test.exe` is one such file. */
  method RejectedSelectionShowsNoMessage(file: File) returns (shown: string, expected: string)
    requires SelectionError(file).Some?
    ensures shown == "" && expected == SelectionError(file).value && shown != expected
  {
    RejectionMessagesAreNotEmpty();
    var uploader := new FileUploader(true);
    uploader.HandleFileSelection([file]);
    shown := uploader.errorMessage;
    expected := SelectionError(file).value;
  }

  /** The corrected handler shows the rejection message on the same files. */
  method CorrectedSelectionShowsTheMessage(file: File) returns (shown: string)
    requires SelectionError(file).Some?
    ensures shown == SelectionError(file).value && shown != ""
  {
    RejectionMessagesAreNotEmpty();
    var uploader := new FileUploader(true);
    uploader.HandleFileSelectionShowingError([file]);
    shown := uploader.errorMessage;
  }
}

# IntelliForms core, modelled in Dafny

IntelliForms turns an uploaded document into a dynamic web form. It has two halves.

The backend is a set of Cloud Functions:
- `generateUploadUrl` checks a requested upload (API key, method, content type, name, extension, size) and issues a write-scoped signed URL for the object `name + normalised extension`.
- `notifyFileUploaded` acknowledges an upload behind its own API-key check.
- `extractTextFromGCSFile` downloads a stored object and picks a text extractor from its extension.
- `llamarGemini` asks the model for a form, strips code fences from the answer, checks the parsed form's structure and classifies failures.
- `processFile` is the queue-triggered orchestrator. It decodes, checks, extracts, truncates to 15000 characters and generates, ending quietly at the first failure.
- `generarFormularioHttp` is the multipart endpoint. It accumulates the upload from Busboy's callbacks and answers with a generated form.
- `getTemplates` and `generarFormulario` are two fixed endpoints.

The frontend has three parts:
- the upload component `FileUploader`, which checks a selection and then requests a URL, uploads and notifies;
- the single-page generator `FileGenerator`, with its page state, button and rendering of the generated form;
- the request helper `api.js`.

Each source file is one module:

| module | file |
|---|---|
| `Wrappers`, `Strings`, `Json`, `Http` | shared: results, JavaScript string operations, JSON values and truthiness, request and response shapes |
| `UploadUrl` | `backend/funtions/scr/generateUploadUrl.js` |
| `Auth` | `backend/funtions/scr/auth.js` |
| `Notify` | `backend/funtions/scr/notifyFileUploaded.js` |
| `StorageExtraction` | `backend/funtions/scr/extractTextFromGCSFile.js` |
| `Gemini` | `backend/funtions/scr/geminiService.js` |
| `FormHttp` | `backend/funtions/scr/generarFormularioHttp.js` |
| `Pipeline` | `backend/funtions/scr/processFile.js` |
| `Templates` | `backend/funtions/scr/formularioEndpoints.js` |
| `Uploader` | `frontend/Components/FileUploader/FileUploader.jsx` |
| `GeneratorPage` | `frontend/src/FileGenerator.jsx` |
| `ApiClient` | `frontend/src/Services/api.js` |

How the model is built:
- The request handlers are functions from a request (and the services they call) to the response they write.
- A thrown `Error` is an `Err(message)`. `undefined` is `None`.
- The services are parameters of function type:
  - the Cloud Storage signer and download;
  - pdf-parse, mammoth and the Vision OCR client;
  - the Gemini client, `JSON.parse`, `JSON.stringify`, base64 decoding and `URLSearchParams`;
  - `fetch`, and the three storage-service calls of the upload component.
- The clock and the ISO rendering of a date are parameters.
- The environment variables are `Option` parameters.
- State that the source writes step by step is kept in classes whose methods make the same writes in the same order:
  - the four variables of the multipart handler (`FormHttp.MultipartSession`);
  - the `useState` fields of the two React components (`Uploader.FileUploader`, `GeneratorPage.FileGenerator`).
- React batches the writes of one handler, so the last write to a field wins. The methods reproduce that order.
- The Busboy callbacks are delivered by a loop over the events of the request body (`FormHttp.GenerarFormularioHttp`). That loop is proved against the function that reads the same events (`FormHttp.Respond`).

Where the code and the design description of the system disagree, the model follows the code:
- `notifyFileUploaded` publishes nothing and returns no message id. It reads only `fileName`, not `template`.
- The stored-file extractor does not dispatch `jpeg`. Only the multipart endpoint's extractor does.
- Refused sizes are answered with 500, not 400. Only the three name and extension messages map to 400.
- Error messages are returned as they are, not suppressed.
- No handler checks for missing configuration. Every setting has a default or is read as absent.
- The form's keys are the Spanish ones the code checks: `titulo`, `campos`, `etiqueta`, `tipo`, `opciones`, `valor` and `texto`.
- The unit test of `notifyFileUploaded` (`backend/funtions/generateUploadUrl.test.js:17-24`) expects 400 for a plain object without `get`. The code calls `request.get` first, which throws, so the answer is 500 (`Notify.BareTestRequestGets500`).

## Model

| member | source | states |
|---|---|---|
| `Strings.LowerChar` | backend/funtions/scr/generateUploadUrl.js:38-40 | `toLowerCase` of one character: A-Z move to a-z, everything else is kept |
| `Strings.ToLower` | backend/funtions/scr/generateUploadUrl.js:38-40 | same length, and each character lower-cased in place |
| `Strings.ToLowerIsLowerCase` | backend/funtions/scr/generateUploadUrl.js:38-40 | the result of lower-casing has no upper-case letter |
| `Strings.ToLowerOfLowerCase` | backend/funtions/scr/generateUploadUrl.js:38-40 | lower-casing a lower-case string leaves it unchanged |
| `Strings.ToLowerIdempotent` | backend/funtions/scr/generateUploadUrl.js:53-57 | lower-casing twice is lower-casing once |
| `Strings.ToLowerAppend` | frontend/Components/FileUploader/FileUploader.jsx:47 | lower-casing distributes over concatenation |
| `Strings.ContainsInside` | backend/funtions/scr/generateUploadUrl.js:182-184 | `includes` finds `t` in `a + t + b` |
| `Strings.NotContainsMissingChar` | backend/funtions/scr/generateUploadUrl.js:182-184 | a string lacking a character of `t` does not include `t` |
| `Strings.LastIndexOf` | backend/funtions/scr/extractTextFromGCSFile.js:62 | `lastIndexOf`: -1 exactly when the character is absent; otherwise a position holding it with none after |
| `Strings.Split` | frontend/Components/FileUploader/FileUploader.jsx:89 | `split` on one character always yields at least one part |
| `Strings.SplitPartsAvoidSeparator` | frontend/Components/FileUploader/FileUploader.jsx:89 | no part of a split contains the separator |
| `Strings.SplitHasSeveralParts` | frontend/Components/FileUploader/FileUploader.jsx:90-92 | a split has more than one part exactly when the separator occurs |
| `Strings.JoinSplit` | frontend/Components/FileUploader/FileUploader.jsx:89-95 | joining a split with its separator gives the string back |
| `Strings.JoinSnoc` | frontend/Components/FileUploader/FileUploader.jsx:95 | joining one more part appends the separator and that part |
| `Strings.SplitWithoutSeparator` | backend/funtions/scr/generarFormularioHttp.js:23 | without the separator the split is the whole string alone |
| `Strings.SplitLastIsSuffix` | backend/funtions/scr/generarFormularioHttp.js:23 | `split(d).pop()` is the text after the last `d` (all of it when there is none) |
| `Strings.LastIndexOfBeforeSuffix` | frontend/Components/FileUploader/FileUploader.jsx:47 | in `a + d + b` with no `d` in `b`, the last `d` is the one at position `\|a\|` and `b` follows it |
| `Strings.LastIndexOfCons` | backend/funtions/scr/extractTextFromGCSFile.js:62 | how `lastIndexOf` of a string relates to that of its tail |
| `Strings.TrimStart` | backend/funtions/scr/generateUploadUrl.js:77 | drops a blank prefix and leaves a suffix starting with non-space |
| `Strings.TrimEnd` | backend/funtions/scr/generateUploadUrl.js:77 | drops a blank suffix and leaves a prefix ending with non-space |
| `Strings.TrimEmptyIffBlank` | backend/funtions/scr/processFile.js:54 | `trim() === ''` holds exactly for strings made only of ECMAScript white space |
| `Strings.TrimOfUnpadded` | backend/funtions/scr/generateUploadUrl.js:77 | a string with non-space ends is its own trim |
| `Strings.TakePrefix` | backend/funtions/scr/processFile.js:62 | `substring(0, n)`: a prefix of length `n`, or the whole string when shorter |
| `Json.Get` | backend/funtions/scr/geminiService.js:36 | property access: a value exactly when an object has the key, and then that value |
| `Json.OrDefault` | backend/funtions/scr/notifyFileUploaded.js:60 | `msg \|\| fallback`: a non-empty message is kept and an empty one is replaced by the fallback |
| `Json.Truthy` | backend/funtions/scr/notifyFileUploaded.js:43 | a value is truthy exactly when it is none of `null`, `false`, `0` and `""` |
| `Json.ToJsString` | backend/funtions/scr/notifyFileUploaded.js:54 | for a value that converts: a string is itself, `null` is `"null"`, a boolean its word, an object `[object Object]`, an empty array `""` and a one-entry array its entry (`""` for `null`) |
| `UploadUrl.KeyOrderListsTheTable` | backend/funtions/scr/generateUploadUrl.js:20-28 | the key order quoted in the refusal lists each table key exactly once |
| `UploadUrl.NormalizeExtension` | backend/funtions/scr/generateUploadUrl.js:53-55 | the result starts with `.` and is lower case; it is the lower-cased input, with a dot put in front when there was none |
| `UploadUrl.NormalizeIdempotent` | backend/funtions/scr/generateUploadUrl.js:53-57 | normalising an extension again changes nothing, so the validity check on the normalised form agrees |
| `UploadUrl.GetMimeType` | backend/funtions/scr/generateUploadUrl.js:52-62 | succeeds exactly for the seven table keys after normalising, with the table's MIME type; otherwise the refusal naming the extension as given |
| `UploadUrl.DottedJpgIsKnown` | backend/funtions/scr/generateUploadUrl.js:23 | `.jpg` maps to `image/jpeg` |
| `UploadUrl.UpperJpegIsKnown` | backend/funtions/scr/generateUploadUrl.js:24 | `JPEG`, without the dot and in upper case, maps to `image/jpeg` |
| `UploadUrl.MixedJpegIsKnown` | backend/funtions/scr/generateUploadUrl.js:24 | `.JpEg`, in mixed case, maps to `image/jpeg` |
| `UploadUrl.UnknownExtensionRefused` | backend/funtions/scr/generateUploadUrl.js:57-59 | `.exe` is refused with the message naming it; `gif` is refused |
| `UploadUrl.SettingsFromEnv` | backend/funtions/scr/generateUploadUrl.js:16-17 | a non-empty `BUCKET_NAME` is used as given, an absent or empty one gives `intelliforms-uploads`; expiry defaults to 15 minutes, and a given number of minutes becomes minutes times 60000 ms |
| `UploadUrl.InputError` | backend/funtions/scr/generateUploadUrl.js:76-92 | no error exactly when the name is a non-blank string, the extension a non-empty string and the size absent or in (0, 10 MiB]; otherwise the first failing check's message, in source order |
| `UploadUrl.GenerateSignedUrl` | backend/funtions/scr/generateUploadUrl.js:74-125 | input errors, then the MIME error, then the signer's error are rethrown unchanged; on success the grant holds the signer's URL, `name + normalised extension`, the MIME type and the second clock reading plus the expiry |
| `UploadUrl.GrantNamesTheExtendedFile` | backend/funtions/scr/generateUploadUrl.js:94-120 | a grant implies all input checks passed and the extension is valid; its name is the untrimmed name plus the normalised extension, with the table's MIME type |
| `UploadUrl.TenMiBIsTheLimit` | backend/funtions/scr/generateUploadUrl.js:85-91 | 10485760 bytes pass, 10485761 are too large, 0 and the string `"5"` are not positive, `null` counts as absent |
| `UploadUrl.CaughtError` | backend/funtions/scr/generateUploadUrl.js:178-191 | the catch answers 400 exactly when the message contains one of the client-error phrases and 500 otherwise, with the message, or the default text when the message is empty |
| `UploadUrl.GenerateUploadUrl` | backend/funtions/scr/generateUploadUrl.js:133-192 | in guard order: 401 without the key, 405 for other methods, the caught TypeError without `get`, 400 for a non-JSON content type, the caught destructuring TypeError for a nullish body, 400 for a falsy `fileName` or `fileExtension`, and a failed grant answered by the catch with its message; 200 exactly when every guard passes and a grant is issued, with the grant's fields in the body; no status outside 200, 400, 401, 405 and 500 |
| `UploadUrl.NoAccentsNoClientError` | backend/funtions/scr/generateUploadUrl.js:182-184 | a message with neither `ó` nor `í` matches none of the three client-error phrases |
| `UploadUrl.SizeNotPositiveHasNoAccents` | backend/funtions/scr/generateUploadUrl.js:87 | the non-positive-size message has neither `ó` nor `í` |
| `UploadUrl.SizeTooLargeReadsTenMB` | backend/funtions/scr/generateUploadUrl.js:90 | the too-large message renders the limit as `10 MB` |
| `UploadUrl.SizeTooLargeHasNoAccents` | backend/funtions/scr/generateUploadUrl.js:90 | the too-large message has neither `ó` nor `í` |
| `UploadUrl.SizeMessagesAreNotClientErrors` | backend/funtions/scr/generateUploadUrl.js:85-91 | neither size message matches a client-error phrase |
| `UploadUrl.BadSizeIsServerError` | backend/funtions/scr/generateUploadUrl.js:178-186 | a request passing every guard but with a refused size is answered with 500, not 400 |
| `UploadUrl.InputMessagesAreClientErrors` | backend/funtions/scr/generateUploadUrl.js:76-83 | the empty-name, missing-extension and refused-extension messages each match a client-error phrase |
| `UploadUrl.EmptyNameIsClientError` | backend/funtions/scr/generateUploadUrl.js:78 | the empty-name message contains its phrase |
| `UploadUrl.ExtensionRequiredIsClientError` | backend/funtions/scr/generateUploadUrl.js:82 | the missing-extension message contains its phrase |
| `UploadUrl.RefusedExtensionMessageIsClientError` | backend/funtions/scr/generateUploadUrl.js:58 | every refused-extension message contains its phrase |
| `UploadUrl.RefusedExtensionIsClientError` | backend/funtions/scr/generateUploadUrl.js:171-186 | a valid request with an extension outside the table gets 400 with the message naming that extension |
| `UploadUrl.SuccessBodyCarriesTheGrant` | backend/funtions/scr/generateUploadUrl.js:173-177 | the 200 body has `success: true`, the URL, the name, the MIME type, the ISO expiry and the fixed message |
| `UploadUrl.SuccessBody` | backend/funtions/scr/generateUploadUrl.js:173-177 | exactly the six keys `success`, `signedUrl`, `fileName`, `mimeType`, `expirationTime` and `message`, a truthy `success`, and the grant's URL and name |
| `UploadUrl.RequestWithoutGetIsServerError` | backend/funtions/scr/generateUploadUrl.js:152 | an authorised POST whose request object lacks `get` fails at the Content-Type read with 500 |
| `UploadUrl.NullishBodyIsServerError` | backend/funtions/scr/generateUploadUrl.js:162 | an authorised JSON POST whose body is `undefined` or `null` fails at the destructuring with 500 and the TypeError's message |
| `UploadUrl.GetNotAFunctionIsServerError` | backend/funtions/scr/generateUploadUrl.js:181-186 | the TypeError's message matches no client-error phrase, so it is answered with 500 |
| `Auth.IsAuthorized` | backend/funtions/scr/auth.js:10-15 | authorised exactly when a non-empty server key is set and the client sent that very string |
| `Auth.NoServerKeyRefusesAll` | backend/funtions/scr/auth.js:14 | without a server key, or with an empty one, every request is refused |
| `Auth.OnlyTheExactKeyIsAccepted` | backend/funtions/scr/auth.js:14 | a client key that differs from the server key in any character, case included, is refused |
| `Auth.ClientKeyIgnoresAccessPath` | backend/funtions/scr/auth.js:13 | `request.get` and `request.headers` read the same entry for the lower-case header name |
| `Auth.ClientKey` | backend/funtions/scr/auth.js:13 | the client key is the `x-api-key` entry of the lower-case header map, whichever access path the request offers |
| `Notify.ClientKey` | backend/funtions/scr/notifyFileUploaded.js:21 | fails with the TypeError exactly when the request has no `get` |
| `Notify.IsAuthorized` | backend/funtions/scr/notifyFileUploaded.js:19-23 | fails exactly without `get`; otherwise true exactly when a non-empty server key equals the key read |
| `Notify.AgreesWithSharedCheck` | backend/funtions/scr/notifyFileUploaded.js:19-23 | with `get` present, the local check gives the same answer as the shared one in `auth.js` |
| `Notify.CaughtError` | backend/funtions/scr/notifyFileUploaded.js:56-62 | the catch answers 500 with the message or the default text |
| `Notify.NotifyFileUploaded` | backend/funtions/scr/notifyFileUploaded.js:25-63 | 500 without `get`, then 401, then 405, then 500 with the destructuring TypeError for a nullish body, then 400 for a falsy `fileName`, then 500 with the conversion TypeError for a `fileName` that does not convert; 200 exactly when authorised, POST, a non-nullish body and a truthy `fileName` that converts, with the acknowledgement naming the file |
| `Notify.OnlyFileNameMatters` | backend/funtions/scr/notifyFileUploaded.js:42-49 | two bodies that agree on `fileName` get the same response, whatever else they carry |
| `Notify.BareTestRequestGets500` | backend/funtions/generateUploadUrl.test.js:17-24 | the unit test's plain request, without `get`, gets 500 from the TypeError |
| `Notify.NamedFileIsAcknowledged` | backend/funtions/scr/notifyFileUploaded.js:52-55 | an authorised POST naming `a.pdf` gets 200 and the message naming `a.pdf` |
| `Notify.Acknowledgement` | backend/funtions/scr/notifyFileUploaded.js:54 | the 200 message contains the file name when it is a string |
| `Notify.UnconvertibleFileNameIsServerError` | backend/funtions/scr/notifyFileUploaded.js:54-62 | a `fileName` object with its own `toString` key makes the message template throw, and the catch answers 500 with the TypeError text |
| `StorageExtraction.TextFromDetections` | backend/funtions/scr/extractTextFromGCSFile.js:138-145 | no annotations, or an empty list, give `""`; otherwise the first annotation's description |
| `StorageExtraction.RunExtractor` | backend/funtions/scr/extractTextFromGCSFile.js:88-146 | each helper returns its library's text or failure: UTF-8 decoding, pdf-parse's text, mammoth's value, and for images the detections' text on success or the OCR failure |
| `StorageExtraction.WordWarningsAreIgnored` | backend/funtions/scr/extractTextFromGCSFile.js:118-122 | mammoth warnings never change the text returned |
| `StorageExtraction.NoDetectionsIsEmptyText` | backend/funtions/scr/extractTextFromGCSFile.js:140-142 | OCR that finds no text yields `""`, not a failure |
| `StorageExtraction.GetFileExtension` | backend/funtions/scr/extractTextFromGCSFile.js:61-67 | fails exactly when the name has no dot; otherwise the lower-cased text after the last dot, which has no dot |
| `StorageExtraction.StorageDispatch` | backend/funtions/scr/extractTextFromGCSFile.js:29-46 | `txt`, `pdf`, `doc`/`docx` and `png`/`jpg` pick their extractor (each if and only if); anything else fails naming `.ext` |
| `StorageExtraction.JpegAndEmptyAreUnsupported` | backend/funtions/scr/extractTextFromGCSFile.js:40-45 | `jpeg` and the empty extension are refused |
| `StorageExtraction.ExtractTextFromGCSFile` | backend/funtions/scr/extractTextFromGCSFile.js:15-54 | every failure carries the processing prefix, and it is the first stage to fail (extension, download, type dispatch, extractor) whose message follows the prefix; success needs an extension, the download and a supported type, and is exactly that extractor's result on the downloaded bytes |
| `StorageExtraction.NoDotFailsBeforeDownload` | backend/funtions/scr/extractTextFromGCSFile.js:20-25 | a name without a dot fails with the no-extension message whatever the download would do |
| `StorageExtraction.DownloadPrecedesDispatch` | backend/funtions/scr/extractTextFromGCSFile.js:25-46 | for an unsupported type a failed download is reported; a successful one leads to the unsupported-type message |
| `StorageExtraction.JpegPhotoIsRefused` | backend/funtions/scr/extractTextFromGCSFile.js:29-53 | any downloaded `<base>.JPEG` fails as unsupported `.jpeg` |
| `StorageExtraction.UpperJpegExtension` | backend/funtions/scr/extractTextFromGCSFile.js:66 | the extension of `<base>.JPEG` is `jpeg` |
| `Gemini.DropOpeningFence` | backend/funtions/scr/geminiService.js:28-30 | removes the seven-character opening fence and at most one newline after it, and nothing else |
| `Gemini.DropClosingFence` | backend/funtions/scr/geminiService.js:31-33 | removes the closing fence and at most one newline before it, and nothing else |
| `Gemini.Unfence` | backend/funtions/scr/geminiService.js:28-33 | text with neither fence is kept as it is, and text with either fence gets shorter |
| `Gemini.StripFences` | backend/funtions/scr/geminiService.js:27-33 | the trimmed reply, unchanged when it has no fence, and never longer than it |
| `Gemini.StripsAtMostOneFenceEachSide` | backend/funtions/scr/geminiService.js:28-33 | unfencing cuts 0, 7 or 8 characters in front and 0, 3 or 4 behind, and something is cut in front exactly when it starts with the json fence |
| `Gemini.FencedBlockIsUnwrapped` | backend/funtions/scr/geminiService.js:28-33 | a json-fenced block is parsed from exactly its content |
| `Gemini.UnfencedTextIsKept` | backend/funtions/scr/geminiService.js:28-33 | text without fences is passed on unchanged |
| `Gemini.BareOpeningFenceIsKept` | backend/funtions/scr/geminiService.js:28-33 | an opening fence without `json` stays; only the closing one goes |
| `Gemini.FirstInvalidOption` | backend/funtions/scr/geminiService.js:51-55 | none exactly when every option has a truthy `valor` and `texto`; otherwise the first bad option |
| `Gemini.FirstInvalidField` | backend/funtions/scr/geminiService.js:39-57 | none exactly when every field is valid; otherwise the index of the first field that throws |
| `Gemini.ParseForm` | backend/funtions/scr/geminiService.js:34-63 | succeeds exactly when the text parses to a valid form, which is returned as parsed; every failure is the one invalid-JSON message |
| `Gemini.ClassifyError` | backend/funtions/scr/geminiService.js:64-74 | the first marker found decides: `API_KEY_INVALID` the key message, then `QUOTA_EXCEEDED` the quota message, then `SAFETY` the safety message, and otherwise the generic prefix followed by the message |
| `Gemini.UnmarkedMessageGetsPrefix` | backend/funtions/scr/geminiService.js:64-74 | a message with neither `_` nor `Y` is reported with the generic prefix |
| `Gemini.InvalidJsonHasNoMarkerChars` | backend/funtions/scr/geminiService.js:62 | the invalid-JSON message has neither `_` nor `Y` |
| `Gemini.InvalidJsonIsReportedWithPrefix` | backend/funtions/scr/geminiService.js:59-74 | the invalid-JSON message is not taken for a provider error: it gets the generic prefix |
| `Gemini.KeyMarkerWins` | backend/funtions/scr/geminiService.js:66-67 | a message containing `API_KEY_INVALID` is a key error whatever else it contains |
| `Gemini.LlamarGemini` | backend/funtions/scr/geminiService.js:16-76 | a model failure is classified; a reply gives the parsed form exactly when its stripped text parses to a valid form, and otherwise the prefixed invalid-JSON error |
| `Gemini.EmptyFieldListIsValid` | backend/funtions/scr/geminiService.js:36-39 | a titled form with an empty `campos` array is accepted |
| `Gemini.ChoiceFieldsNeedOptions` | backend/funtions/scr/geminiService.js:47-56 | a radio with an empty `opciones` array and a select whose option lacks `texto` are invalid; a text field's `opciones` are not looked at |
| `FormHttp.ExtensionsAgreeWithADot` | backend/funtions/scr/generarFormularioHttp.js:23 | with a dot in the name, the multipart extension equals the stored-file one |
| `FormHttp.DotlessNameIsItsOwnExtension` | backend/funtions/scr/generarFormularioHttp.js:23 | without a dot the whole lower-cased name is the extension, where the stored-file path fails |
| `FormHttp.BufferExtension` | backend/funtions/scr/generarFormularioHttp.js:23 | the lower-cased text after the last dot (the whole name when there is none); the result is lower case |
| `FormHttp.FileNamedTxtIsText` | backend/funtions/scr/generarFormularioHttp.js:23-26 | a file named `TXT` is read as text |
| `FormHttp.BufferDispatch` | backend/funtions/scr/generarFormularioHttp.js:24-38 | `txt`, `pdf`, `doc`/`docx` and `png`/`jpg`/`jpeg` pick their extractor (each if and only if); anything else fails with the fixed message |
| `FormHttp.DispatchTablesDifferOnlyOnJpeg` | backend/funtions/scr/generarFormularioHttp.js:32-35 | the two dispatch tables agree on every extension except `jpeg`, which only this endpoint accepts |
| `FormHttp.ExtractTextFromBuffer` | backend/funtions/scr/generarFormularioHttp.js:22-39 | an unsupported extension fails with the fixed message; otherwise the chosen extractor's result |
| `FormHttp.JsonReply` | backend/funtions/scr/generarFormularioHttp.js:48-50 | a JSON reply has the given status and body, every CORS header and the JSON content type |
| `FormHttp.FinishReply` | backend/funtions/scr/generarFormularioHttp.js:81-112 | 400 for no file, then 400 for no template; a failed extraction is 500 with its message or `Error interno del servidor.`, a failed generation 500 with its message or the Gemini default text; 200 exactly when extraction and generation on the first 15000 characters succeed, with that form |
| `FormHttp.RejectionsCallNothing` | backend/funtions/scr/generarFormularioHttp.js:83-92 | the two 400 answers depend on neither the extractors nor the model |
| `FormHttp.ModelSeesTheTruncatedText` | backend/funtions/scr/generarFormularioHttp.js:96 | the model sees a prefix of at most 15000 characters, all of a shorter text |
| `FormHttp.DataChunksInArrivalOrder` | backend/funtions/scr/generarFormularioHttp.js:67-72 | the accumulated chunks are exactly the payloads of the data events: the k-th chunk is the k-th data event's, in arrival order, none skipped |
| `FormHttp.DataChunks` | backend/funtions/scr/generarFormularioHttp.js:69-72 | no more chunks than events; which chunks, and in what order, is stated by `FormHttp.DataChunksInArrivalOrder` |
| `FormHttp.Flatten` | backend/funtions/scr/generarFormularioHttp.js:71 | every chunk fits in the buffer, and a single chunk is the buffer |
| `FormHttp.LastFile` | backend/funtions/scr/generarFormularioHttp.js:67-68 | the name and type of the last file part, `""` when there is none |
| `FormHttp.LastTemplate` | backend/funtions/scr/generarFormularioHttp.js:75-78 | the value of the last `plantilla` field, `""` when there is none |
| `FormHttp.MultipartSession.constructor` | backend/funtions/scr/generarFormularioHttp.js:62-65 | empty buffer, name, type and template; no chunks |
| `FormHttp.MultipartSession.OnFile` | backend/funtions/scr/generarFormularioHttp.js:67-69 | records the part's name and type and changes nothing else |
| `FormHttp.MultipartSession.OnData` | backend/funtions/scr/generarFormularioHttp.js:70-72 | appends the chunk to the buffer, keeping the buffer equal to the concatenated chunks |
| `FormHttp.MultipartSession.OnField` | backend/funtions/scr/generarFormularioHttp.js:75-79 | keeps the value of a `plantilla` field only |
| `FormHttp.MultipartSession.Deliver` | backend/funtions/scr/generarFormularioHttp.js:67-79 | routes an event to its callback, with that callback's effect |
| `FormHttp.MethodChecksComeFirst` | backend/funtions/scr/generarFormularioHttp.js:51-59 | OPTIONS gets 204 and other non-POST methods 405, whatever the body |
| `FormHttp.Respond` | backend/funtions/scr/generarFormularioHttp.js:46-115 | OPTIONS gets 204 with the CORS headers, other non-POST methods 405; a POST is finished on all chunks concatenated, the last file's name and the last template |
| `FormHttp.GenerarFormularioHttp` | backend/funtions/scr/generarFormularioHttp.js:46-115 | 204 for OPTIONS and 405 for other non-POST methods; otherwise feeding the events to the callbacks in order, then finishing, gives the answer computed from the last file's name, the last template and all chunks concatenated |
| `FormHttp.FlattenAppend` | backend/funtions/scr/generarFormularioHttp.js:71 | concatenating chunk lists concatenates their bytes |
| `FormHttp.DataChunksAppend` | backend/funtions/scr/generarFormularioHttp.js:70-72 | the chunks of two event runs are the chunks of each, in order |
| `FormHttp.TwoPartsShareTheBuffer` | backend/funtions/scr/generarFormularioHttp.js:67-73 | with two file parts, the buffer holds both parts' bytes in order but the name is the second's |
| `Pipeline.DecodeMessage` | backend/funtions/scr/processFile.js:29-32 | no data fails; otherwise the message is the parse of the decoded data, and a decoded message is never `null` |
| `Pipeline.ProcessFile` | backend/funtions/scr/processFile.js:26-82 | each outcome exactly when its stage is the first to fail (decoding, fields, the log lines, extraction, blank text), generation failure or the generated form otherwise; decode, field and log failures make no call; from a message that gets past the log lines the first call is the extraction and, with non-blank text, the next is generation with the first 15000 characters |
| `Pipeline.GeneratorCalledOnlyWhenAllStagesPass` | backend/funtions/scr/processFile.js:32-65 | the generator is called exactly when the message decodes with the three fields, the fields convert for the log lines and extraction gives non-blank text, and with at most 15000 characters |
| `Pipeline.StagesRunOnceInOrder` | backend/funtions/scr/processFile.js:43-65 | at most two calls, the extraction first and the generation second; nothing is retried |
| `Pipeline.BlankCheckPrecedesTruncation` | backend/funtions/scr/processFile.js:54-62 | 15000 spaces and an `x` pass the blank check, so the generator gets only the spaces |
| `Pipeline.MissingBucketStopsEarly` | backend/funtions/scr/processFile.js:34-37 | a message without `bucket` ends as invalid before any call |
| `Pipeline.JpegUploadNeverReachesGenerator` | backend/funtions/scr/processFile.js:44-52 | behind the stored-file extractor, a `.jpeg` upload ends at extraction |
| `Pipeline.UnconvertibleTemplateStopsBeforeExtraction` | backend/funtions/scr/processFile.js:39-46 | a `template` object with its own `toString` key ends the run in the outer catch with no call made |
| `Templates.GetTemplates` | backend/funtions/scr/formularioEndpoints.js:6-26 | 200 with `success` and the three templates, entry by entry, in order |
| `Templates.TemplateIdsAreDistinct` | backend/funtions/scr/formularioEndpoints.js:10-16 | template ids are distinct and non-empty |
| `Templates.TemplatesIgnoreTheRequest` | backend/funtions/scr/formularioEndpoints.js:6-26 | the list does not depend on the request |
| `Templates.GenerarFormulario` | backend/funtions/scr/formularioEndpoints.js:33-46 | 200 with exactly the simulated form, which passes the generator's own validator |
| `Templates.PlainFieldIsValid` | backend/funtions/scr/geminiService.js:39-56 | a field with an id, a label and an allowed non-choice type is valid, whatever its `requerido` |
| `Templates.SimulatedFormIsValid` | backend/funtions/scr/formularioEndpoints.js:37-44 | the simulated form has a title and only valid fields |
| `Templates.SimulatedFieldsAreValid` | backend/funtions/scr/formularioEndpoints.js:39-43 | each of the three simulated fields is valid |
| `Templates.SimulatedFormSurvivesParsing` | backend/funtions/scr/formularioEndpoints.js:37-45 | served as a model reply, the simulated form passes the generator's parsing unchanged |
| `Uploader.SelectionExtension` | frontend/Components/FileUploader/FileUploader.jsx:47 | a dot followed by the lower-cased text after the last dot (all of the name without one) |
| `Uploader.SelectionError` | frontend/Components/FileUploader/FileUploader.jsx:46-66 | accepted exactly when extension, MIME type and size all pass; otherwise the first failing check's message |
| `Uploader.FirstFile` | frontend/Components/FileUploader/FileUploader.jsx:39-44 | the first chosen file, none exactly when nothing was chosen |
| `Uploader.SplitFileName` | frontend/Components/FileUploader/FileUploader.jsx:89-95 | with a dot, base and extension rejoin to the name and the extension is `.` plus the text after the last dot; without one both are empty |
| `Uploader.BaseAndExtensionRejoin` | frontend/Components/FileUploader/FileUploader.jsx:89-95 | all parts but the last, rejoined, then a dot and the last part, give the name |
| `Uploader.LastPartHasNoDot` | frontend/Components/FileUploader/FileUploader.jsx:89-92 | the last part has no dot and is the text after the last dot |
| `Uploader.RequestBaseName` | frontend/Components/FileUploader/FileUploader.jsx:98 | the name before its last dot when that is not empty; `uploaded_file` for a dotless name or one whose only base is empty |
| `Uploader.FileUrl` | frontend/Components/FileUploader/FileUploader.jsx:106 | the public URL under the configured bucket, or the default one when unset or empty |
| `Uploader.DefaultBucketsAgree` | frontend/Components/FileUploader/FileUploader.jsx:106 | the frontend's default bucket is the backend's default |
| `Uploader.RunUpload` | frontend/Components/FileUploader/FileUploader.jsx:87-110 | one to three calls, the first the URL request with the split name and the size; success means all three ran |
| `Uploader.StepsRunInOrder` | frontend/Components/FileUploader/FileUploader.jsx:97-109 | request, upload to the granted URL, notify with the granted name; the failing step is the last one called and its message is the failure |
| `Uploader.FileUploader.constructor` | frontend/Components/FileUploader/FileUploader.jsx:14-19 | the initial state: nothing selected, no progress, no message, idle |
| `Uploader.FileUploader.ClearInput` | frontend/Components/FileUploader/FileUploader.jsx:152-154 | clears the input's value only when it is mounted |
| `Uploader.FileUploader.ResetUploader` | frontend/Components/FileUploader/FileUploader.jsx:147-155 | no file, no message, idle, no progress, input cleared |
| `Uploader.FileUploader.HandleFileSelection` | frontend/Components/FileUploader/FileUploader.jsx:38-72 | as written: on no file or a rejected file the state is reset and no message remains; an accepted file is selected, idle, with no message |
| `Uploader.FileUploader.HandleFileSelectionShowingError` | frontend/Components/FileUploader/FileUploader.jsx:38-72 | corrected: the same, but a rejected file leaves its rejection message shown |
| `Uploader.FileUploader.AcceptSelection` | frontend/Components/FileUploader/FileUploader.jsx:68-71 | the file selected, no message, idle, nothing else changed |
| `Uploader.FileUploader.InitiateFileUpload` | frontend/Components/FileUploader/FileUploader.jsx:77-129 | without a selection only the prompt message is set; otherwise the attempt's calls are made and the component ends unselected, not uploading, in success or in error with the failure text or the default |
| `Uploader.FileUploader.BeginUpload` | frontend/Components/FileUploader/FileUploader.jsx:83-85 | uploading, status `uploading`, progress 0 |
| `Uploader.FileUploader.EndUpload` | frontend/Components/FileUploader/FileUploader.jsx:111-128 | the last progress, success or error with its message, unselected, input cleared, not uploading |
| `Uploader.DottedLowerCaseIsNormal` | backend/funtions/scr/generateUploadUrl.js:53-55 | the backend leaves a dotted lower-case extension unchanged |
| `Uploader.FrontendExtensionsAreIssuedUrls` | frontend/Components/FileUploader/FileUploader.jsx:32 | every extension the component allows is in the backend's table, unchanged by normalising |
| `Uploader.AcceptedSelectionIsIssuedAUrl` | frontend/Components/FileUploader/FileUploader.jsx:89-98 | an accepted file with a dot sends an extension the backend accepts and normalises to the one checked |
| `Uploader.SentExtensionNormalisesToSelection` | frontend/Components/FileUploader/FileUploader.jsx:89-92 | the extension sent normalises to the extension the selection checked |
| `Uploader.JpegIsOnlyAcceptedByTheBackend` | frontend/Components/FileUploader/FileUploader.jsx:32 | `.jpeg` gets a URL from the backend but is refused by the component and by the stored-file extractor |
| `Uploader.DotlessNamePassesSelectionButSendsNoExtension` | frontend/Components/FileUploader/FileUploader.jsx:89-98 | a file named `pdf` passes the selection as `.pdf` but is sent with no extension and the default name, which the backend refuses |
| `Uploader.DotlessPdfPassesSelection` | frontend/Components/FileUploader/FileUploader.jsx:47-48 | `pdf` passes the selection |
| `Uploader.DotlessPdfExtension` | frontend/Components/FileUploader/FileUploader.jsx:47 | the selection extension of `pdf` is `.pdf` |
| `Uploader.DotlessPdfHasNoSplit` | frontend/Components/FileUploader/FileUploader.jsx:89-98 | `pdf` splits to an empty base and an empty extension and sends `uploaded_file` |
| `Uploader.EmptyExtensionIsRefused` | backend/funtions/scr/generateUploadUrl.js:81-83 | the backend refuses an empty extension with the extension-required message |
| `Uploader.ExtensionAfterLastDot` | frontend/Components/FileUploader/FileUploader.jsx:47 | a name ending in a lower-case extension without further dots has that selection extension |
| `Uploader.ExecutableFailsSelection` | frontend/Components/FileUploader/FileUploader.jsx:46-52 | any `<base>.exe` of type `application/octet-stream`, such as the tests' `test.exe`, fails with the extension message, whatever its size |
| `Uploader.ExecutableExtension` | frontend/Components/FileUploader/FileUploader.jsx:47 | the selection extension of `<base>.exe` is `.exe` |
| `Uploader.RejectionMessagesAreNotEmpty` | frontend/Components/FileUploader/FileUploader.jsx:49-63 | the three rejection messages are not empty |
| `Uploader.RejectedSelectionShowsNoMessage` | frontend/Components/FileUploader/FileUploader.jsx:48-51 | for every rejected file the handler as written shows `""` where its rejection message is expected |
| `Uploader.CorrectedSelectionShowsTheMessage` | frontend/Components/FileUploader/FileUploader.jsx:48-51 | the corrected handler shows the non-empty rejection message for every rejected file |
| `GeneratorPage.ErrorOr` | frontend/src/FileGenerator.jsx:52 | the `error` text when truthy and convertible, the conversion TypeError's text when truthy and not convertible, the fallback otherwise |
| `GeneratorPage.ReadyMessage` | frontend/src/FileGenerator.jsx:69 | the status text names the chosen file |
| `GeneratorPage.TemplatesFrom` | frontend/src/FileGenerator.jsx:49-58 | templates are loaded exactly when the fetch succeeds with a truthy `success`; a fetch failure's message is kept, a `null` reply fails reading `success`, and a falsy `success` gives `data.error` or `No se pudieron cargar las plantillas.` |
| `GeneratorPage.GenerationResult` | frontend/src/FileGenerator.jsx:109-131 | a form exactly when the reply is ok with a truthy `success`; otherwise the `error` text, the status message or the backend-failure text, in source order |
| `GeneratorPage.ServerErrorTextIsShown` | frontend/src/FileGenerator.jsx:121-126 | a failed reply with an `error` text reports that text |
| `GeneratorPage.ButtonLabel` | frontend/src/FileGenerator.jsx:143-152 | the default label exactly in the default state |
| `GeneratorPage.ButtonLabelsAreDistinct` | frontend/src/FileGenerator.jsx:143-152 | each button state has its own label |
| `GeneratorPage.RenderField` | frontend/src/FileGenerator.jsx:13-27 | keyed by `id`, labelled by `etiqueta`, a textarea exactly for type `textarea`, otherwise an input of the field's type; the marker exactly for a truthy `requerido` |
| `GeneratorPage.Placeholder` | frontend/src/FileGenerator.jsx:21-23 | `""` for a falsy placeholder, and a string placeholder as it is |
| `GeneratorPage.DynamicForm` | frontend/src/FileGenerator.jsx:6-31 | renders exactly when `campos` is an array without `null`, the title and every label are children React accepts (no object, at any depth of an array) and every field's `id`, `tipo` and `placeholder` convert to strings; then the title and one group per field, in order |
| `GeneratorPage.ObjectTitlePassesValidationButDoesNotRender` | frontend/src/FileGenerator.jsx:11 | a form with an object `titulo` passes the backend's validator and makes the render throw |
| `GeneratorPage.ValidatedFormsRender` | frontend/src/FileGenerator.jsx:6-31 | a form the backend's validator accepts renders exactly when its title and labels are children React accepts and its attributes convert, and then each group is keyed by its field's id |
| `GeneratorPage.FileGenerator.GetButtonContent` | frontend/src/FileGenerator.jsx:143-152 | the label of the current button state |
| `GeneratorPage.FileGenerator.constructor` | frontend/src/FileGenerator.jsx:37-44 | the initial state, with the loading message |
| `GeneratorPage.FileGenerator.FetchTemplates` | frontend/src/FileGenerator.jsx:47-63 | loaded templates clear the status; a failure keeps the list and shows the prefixed error; nothing else changes |
| `GeneratorPage.FileGenerator.SelectTemplate` | frontend/src/FileGenerator.jsx:195 | only the selected template changes |
| `GeneratorPage.FileGenerator.HandleFileChange` | frontend/src/FileGenerator.jsx:66-73 | a file replaces the selection, shows it ready and clears the form; no file changes nothing |
| `GeneratorPage.FileGenerator.HandleDragOver` | frontend/src/FileGenerator.jsx:75-78 | only the drag flag is set |
| `GeneratorPage.FileGenerator.HandleDragLeave` | frontend/src/FileGenerator.jsx:80-83 | only the drag flag is cleared |
| `GeneratorPage.FileGenerator.HandleDrop` | frontend/src/FileGenerator.jsx:85-92 | the drag ends and the first dropped file, if any, is chosen as by a file change |
| `GeneratorPage.FileGenerator.HandleGenerateClick` | frontend/src/FileGenerator.jsx:94-139 | without a file or template only the status changes and nothing is sent; otherwise the request is sent with the key and the page ends not loading, showing the form or the error |
| `GeneratorPage.ButtonEnabledIffClickSends` | frontend/src/FileGenerator.jsx:141 | between handlers the button is enabled exactly when a file and a template are chosen, which is when a click sends |
| `GeneratorPage.FileGenerator.IsGenerateButtonDisabled` | frontend/src/FileGenerator.jsx:141 | the button is enabled only with a chosen file and template and no request in flight |
| `ApiClient.DefaultHeaders` | frontend/src/Services/api.js:27-32 | no default headers for a FormData body, the JSON content type otherwise |
| `ApiClient.MergeHeaders` | frontend/src/Services/api.js:38-41 | the union of both header sets, the caller's value winning on a clash |
| `ApiClient.BuildConfig` | frontend/src/Services/api.js:24-42 | the URL under `/api`, the verb's method and body, every caller header, and otherwise only defaults |
| `ApiClient.CallerHeadersWin` | frontend/src/Services/api.js:35-42 | a caller header overrides the default, and the JSON content type stays for a non-FormData body |
| `ApiClient.ApiRequest` | frontend/src/Services/api.js:21-70 | a fetch failure is rethrown; an ok reply gives its parsed body; a failed one gives the server's `error` text, the conversion TypeError's text when that `error` does not convert, or the status message |
| `ApiClient.UrlWithParams` | frontend/src/Services/api.js:81-82 | the query string is appended only when non-empty |
| `ApiClient.StatusMessage` | frontend/src/Services/api.js:50 | the generic message starts with the fixed prefix and the status code and ends with the status text |
| `ApiClient.ApiGet` | frontend/src/Services/api.js:79-85 | `get` sends `GET` to the URL with its query string, with the JSON content type and no body, and relays the reply |
| `ApiClient.GetWithoutParams` | frontend/src/Services/api.js:79-85 | `get` without parameters requests the endpoint itself, with the JSON content type and no body |
| `ApiClient.PostOptions` | frontend/src/Services/api.js:94-100 | POST without headers; a FormData body as it is, anything else serialised |
| `ApiClient.ApiPost` | frontend/src/Services/api.js:94-100 | `post` sends a FormData with no headers, any other value serialised with the JSON content type, and relays the reply |
| `ApiClient.ApiPut` | frontend/src/Services/api.js:109-114 | `put` sends the serialised value with the JSON content type and relays the reply |
| `ApiClient.ApiDel` | frontend/src/Services/api.js:122-124 | `del` sends `DELETE` with the JSON content type and no body, and relays the reply |
| `ApiClient.VerbsSetMethodAndBody` | frontend/src/Services/api.js:94-124 | the exact config `post`, `put` and `del` send |
| `ApiClient.ApiPutReportsTheStatus` | frontend/src/Services/api.js:109-114 | a failed `put` reply without `error` gives the status message |
| `ApiClient.ApiDelReportsTheServerError` | frontend/src/Services/api.js:122-124 | a failed `del` reply's `error` text is the message |
| `ApiClient.UnconvertibleServerErrorGivesTypeError` | frontend/src/Services/api.js:53-59 | a failed reply whose `error` is an object with its own `toString` key rejects with the TypeError text |
| `ApiClient.PostedRequestsCarryNoApiKey` | frontend/src/Services/api.js:94-100 | a request carrying only `post`'s headers has no API key, so a server with a key refuses it |

## Left out

- Floating point is left out. JSON numbers are integers, so `isNaN` and fractional sizes are not modelled.
- `Uploader.SIZE_ERROR` renders `formatFileSize(MAX_FILE_SIZE)` as the constant `10 MB`. `formatFileSize` works on floating point.
- `UploadUrl.InputError` does not model `NaN` or fractional sizes.
- `UploadUrl.SettingsFromEnv` takes the integer `parseInt` reads as a parameter. `parseInt` itself, and its `NaN`, are not modelled.
- `Strings.LowerChar` folds only ASCII letters; `toLowerCase` folds all Unicode.
- Strings are sequences of characters, not UTF-16 code units. `substring(0, 15000)` counts characters.
- The prompt text, the model name and the client's lazy initialisation are left out. The model call is the `generate` parameter.
- Cloud Storage, Vision OCR, pdf-parse, mammoth, `fetch`, XHR progress, `JSON.parse`, `JSON.stringify`, base64 and `URLSearchParams` are parameters.
- Logging is left out except where it can throw. The template literals of the log lines at `processFile.js:39` and `:42` render `fileName`, `template` and `bucket`, and a value that does not convert makes them throw; that is modelled as `Pipeline.LogFailed`. The log lines after those repeat `fileName` or print numbers, so they cannot throw once the first two have not.
- `FormHttp.GenerarFormularioHttp` and `FormHttp.Respond` assume Busboy accepts the request's headers. Busboy's constructor at `generarFormularioHttp.js:61` throws synchronously, outside every `try`, when the Content-Type is missing or not multipart; that uncaught throw, which Express answers itself, is not modelled.
- Busboy's parsing and its `fileSize` limit are left out. The request body is the sequence of callbacks Busboy makes, and a truncated file part is not modelled.
- `Http.Request` follows Node's lower-case header keys. Express's own header merging is not modelled.
- `GeneratorPage.DynamicForm` models a render that throws as `None`, without React's error message. Of React's rules it models the object-child throw for `titulo` and `etiqueta` and the string conversion of `id`, `tipo` and `placeholder`; `required` is taken as a boolean attribute, and a falsy non-boolean `requerido` such as `0`, which React would render as the text `0` beside the label, is modelled as no marker.
- `backend/funtions/scr/geminiService.js:6` requires `./scr/api`, which resolves to `scr/scr/api`, a file that does not exist; `api.js` sits beside it. As written the module does not load. The model assumes it loads, and its functions model the code after that line.
- `GeneratorPage.FileGenerator.HandleGenerateClick`, `Uploader.FileUploader.InitiateFileUpload` and `GeneratorPage.FileGenerator.FetchTemplates` are not modelled across their `await`s. The intermediate states between the two halves of a handler (loading, uploading) are stated through `BeginUpload` and `Valid()`. Interleaving with other handlers is not modelled.
- `Uploader.RunUpload` keeps only the last progress value `uploadFileToStorage` reports, which is the one left in state.
- `ApiClient.ApiGet`, `ApiClient.ApiPost`, `ApiClient.ApiPut` and `ApiClient.ApiDel` state only that a failed reply is an error. Which error it is, is stated by `ApiClient.ApiRequest` and the lemmas after the verbs.
- `frontend/Services/storageService.js` is not part of this model. Its three calls are the `Services` parameter of the upload component.
- Queue publishing, Firestore persistence, retries and deduplication are absent from the code and so from the model.
- `request.body` parsing is Express's own and is not modelled.

## Findings

| source | as written | input that shows it | evidently intended | confidence | as-written member | corrected member |
|---|---|---|---|---|---|---|
| frontend/Components/FileUploader/FileUploader.jsx:48-51 | each rejection branch of `handleFileSelection` sets the error text and then calls `resetUploader`, whose `setErrorMessage('')` is the last write, so no message is shown (the same holds at lines 55-58 and 62-65) | selecting `test.exe` of type `application/octet-stream`, the component test's file (FileUploader.test.jsx line 34, whose expectation at lines 42-44 is the extension message) | the rejection message stays visible after the reset | not executed | `Uploader.RejectedSelectionShowsNoMessage` (on `Uploader.FileUploader.HandleFileSelection`) | `Uploader.CorrectedSelectionShowsTheMessage` (on `Uploader.FileUploader.HandleFileSelectionShowingError`) |

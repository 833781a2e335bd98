/** The single-page generator (frontend/src/FileGenerator.jsx): the page state its handlers
    write, the button's enabled state and label, and the choice of control for each field of
    the rendered form. As on the upload component, the writes of one handler land in order and
    the last one wins. The template fetch and the generation `fetch` are parameters. */
module GeneratorPage {
  import opened Wrappers
  import opened Strings
  import opened Json
  import Gemini

  /** The chosen file; only its name is read. */
  datatype ChosenFile = ChosenFile(name: string)

  datatype StatusKind = Info | Success | Error

  /** The message shown in the result card and its style. */
  datatype Status = Status(message: string, kind: StatusKind)

  datatype ButtonState = Default | Loading | Generated

  /** A settled `fetch` whose body parsed as JSON: `response.ok`, `response.status` and the
      body. A `fetch` or `response.json()` that throws is an `Err` with the thrown message. */
  datatype Reply = Reply(ok: bool, status: int, data: Json)

  /** The generation request: the URL, the two form-data parts and the API key header. */
  datatype GenerateRequest = GenerateRequest(url: string, file: ChosenFile, plantilla: string, apiKey: string)

  const LOADING_TEMPLATES := "Cargando plantillas..."
  const TEMPLATES_DEFAULT_ERROR := "No se pudieron cargar las plantillas."
  const TEMPLATES_ERROR_PREFIX := "Error al cargar plantillas: "
  const MISSING_SELECTION := "Por favor, selecciona un archivo y una plantilla."
  const ANALYZING := "Analizando el documento y generando preguntas..."
  const SERVER_ERROR_PREFIX := "Error del servidor: "
  const BACKEND_FAILURE := "El backend indicó un fallo en la operación."
  const GENERATED_MESSAGE := "¡Formulario generado con éxito!"
  const GENERATE_URL := "/api/generarFormularioHttp"

  /** The TypeError of reading a property of `null`. */
  function NullPropertyError(prop: string): string {
    "Cannot read properties of null (reading '" + prop + "')"
  }

  /** The status written when a file is chosen. */
  function ReadyMessage(file: ChosenFile): (r: string)
    ensures Contains(r, file.name)
  {
    ContainsInside("Archivo \"", file.name, "\" listo para procesar.");
    "Archivo \"" + file.name + "\" listo para procesar."
  }

  /** `new Error(data.error || fallback).message`; an `error` that does not convert to a string
      makes the `Error` constructor throw its own TypeError, whose message is the one caught. */
  function ErrorOr(data: Json, fallback: string): (r: string)
    ensures TruthyOpt(Get(data, "error")) && ConvertsToString(Get(data, "error").value)
      ==> r == ToJsString(Get(data, "error").value)
    ensures TruthyOpt(Get(data, "error")) && !ConvertsToString(Get(data, "error").value)
      ==> r == PRIMITIVE_CONVERSION_ERROR
    ensures !TruthyOpt(Get(data, "error")) ==> r == fallback
  {
    var error := Get(data, "error");
    if !TruthyOpt(error) then fallback
    else if ConvertsToString(error.value) then ToJsString(error.value)
    else PRIMITIVE_CONVERSION_ERROR
  }

  /** The templates the page loads: `data.templates` when `data.success` is truthy, otherwise
      the message the `catch` shows. */
  function TemplatesFrom(fetched: Result<Json>): (r: Result<Option<Json>>)
    ensures r.Ok? <==> fetched.Ok? && TruthyOpt(Get(fetched.value, "success"))
    ensures r.Ok? ==> r.value == Get(fetched.value, "templates")
    ensures fetched.Err? ==> r == Err(fetched.msg)
    ensures fetched.Ok? && fetched.value.JNull? ==> r == Err(NullPropertyError("success"))
    ensures fetched.Ok? && !fetched.value.JNull? && !TruthyOpt(Get(fetched.value, "success"))
      ==> r == Err(ErrorOr(fetched.value, TEMPLATES_DEFAULT_ERROR))
  {
    match fetched
    case Err(m) => Err(m)
    case Ok(data) =>
      if data.JNull? then Err(NullPropertyError("success"))
      else if !TruthyOpt(Get(data, "success")) then Err(ErrorOr(data, TEMPLATES_DEFAULT_ERROR))
      else Ok(Get(data, "templates"))
  }

  /** The `try` block of `handleGenerateClick` after the request is sent: the generated form
      (`data.formulario`, possibly absent), or the message of the error thrown. */
  function GenerationResult(reply: Result<Reply>): (r: Result<Option<Json>>)
    ensures r.Ok? <==> reply.Ok? && reply.value.ok && TruthyOpt(Get(reply.value.data, "success"))
    ensures r.Ok? ==> r.value == Get(reply.value.data, "formulario")
    ensures reply.Err? ==> r == Err(reply.msg)
    ensures reply.Ok? && !reply.value.ok && reply.value.data.JObject? ==>
      r == Err(ErrorOr(reply.value.data, SERVER_ERROR_PREFIX + IntToString(reply.value.status)))
    ensures reply.Ok? && reply.value.ok && reply.value.data.JObject? && !TruthyOpt(Get(reply.value.data, "success")) ==>
      r == Err(ErrorOr(reply.value.data, BACKEND_FAILURE))
  {
    match reply
    case Err(m) => Err(m)
    case Ok(response) =>
      var data := response.data;
      if !response.ok then
        if data.JNull? then Err(NullPropertyError("error"))
        else Err(ErrorOr(data, SERVER_ERROR_PREFIX + IntToString(response.status)))
      else if data.JNull? then Err(NullPropertyError("success"))
      else if !TruthyOpt(Get(data, "success")) then Err(ErrorOr(data, BACKEND_FAILURE))
      else Ok(Get(data, "formulario"))
  }

  /** A failure reply carrying an `error` text shows that text, whatever the status. */
  lemma ServerErrorTextIsShown(status: int, ok: bool, text: string, fields: map<string, Json>)
    requires text != "" && "error" in fields && fields["error"] == JString(text)
    requires !ok || !TruthyOpt(Get(JObject(fields), "success"))
    ensures GenerationResult(Ok(Reply(ok, status, JObject(fields)))) == Err(text)
  {
  }

  /** The label shown on the generate button, by button state. */
  function ButtonLabel(buttonState: ButtonState): (r: string)
    ensures buttonState == Default <==> r == "Generar Formulario"
  {
    match buttonState
    case Loading => "Procesando..."
    case Generated => "✔ Generado"
    case Default => "Generar Formulario"
  }

  /** Each button state has its own label. */
  lemma ButtonLabelsAreDistinct(a: ButtonState, b: ButtonState)
    ensures ButtonLabel(a) == ButtonLabel(b) ==> a == b
  {
    assert ButtonLabel(Loading)[0] == 'P';
    assert ButtonLabel(Generated)[0] == '✔';
  }

  // ---------------------------------------------------------------------------
  // DynamicForm
  // ---------------------------------------------------------------------------

  datatype Control = TextArea | Input(inputType: Option<Json>)

  /** One rendered form group: its React key, its label text, the required marker, the
      control and the placeholder. */
  datatype Group = Group(key: Option<Json>, etiqueta: Option<Json>, requiredMark: bool, control: Control, placeholder: string)

  datatype RenderedForm = RenderedForm(title: Option<Json>, groups: seq<Group>)

  /** An attribute value React stringifies: `undefined`, or a value that converts. */
  predicate OptConverts(v: Option<Json>) {
    v.None? || ConvertsToString(v.value)
  }

  /** `placeholder || ''`, as the attribute string React sets. */
  function Placeholder(p: Option<Json>): (r: string)
    requires OptConverts(p)
    ensures !TruthyOpt(p) ==> r == ""
    ensures p.Some? && p.value.JString? ==> r == p.value.s
  {
    if TruthyOpt(p) then ToJsString(p.value) else ""
  }

  /** The field's string attributes (`key`, `id`, `htmlFor`, `name`, `type`, `placeholder`)
      convert to strings; React throws if one does not. */
  predicate FieldAttributesConvert(campo: Json) {
    OptConverts(Get(campo, "id")) && OptConverts(Get(campo, "tipo")) && OptConverts(Get(campo, "placeholder"))
  }

  /** Every field's string attributes convert. */
  predicate AttributesConvert(campos: seq<Json>) {
    forall k :: 0 <= k < |campos| ==> FieldAttributesConvert(campos[k])
  }

  /** The group rendered for one field. */
  function RenderField(campo: Json): (g: Group)
    requires FieldAttributesConvert(campo)
    ensures g.key == Get(campo, "id") && g.etiqueta == Get(campo, "etiqueta")
    ensures g.control.TextArea? <==> Get(campo, "tipo") == Some(JString("textarea"))
    ensures g.control.Input? ==> g.control.inputType == Get(campo, "tipo")
    ensures g.requiredMark <==> TruthyOpt(Get(campo, "requerido"))
  {
    var tipo := Get(campo, "tipo");
    var control := if tipo == Some(JString("textarea")) then TextArea else Input(tipo);
    Group(Get(campo, "id"), Get(campo, "etiqueta"), TruthyOpt(Get(campo, "requerido")), control,
          Placeholder(Get(campo, "placeholder")))
  }

  /** Whether React can render a value placed as a child: an object throws ("Objects are not
      valid as a React child"), an array renders each entry, and every other value renders
      as text or as nothing. */
  predicate RendersAsChild(v: Json)
    decreases v
  {
    match v
    case JObject(_) => false
    case JArray(items) => forall i :: 0 <= i < |items| ==> RendersAsChild(items[i])
    case _ => true
  }

  /** A destructured child that may be `undefined`, which renders as nothing. */
  predicate OptRendersAsChild(v: Option<Json>) {
    v.None? || RendersAsChild(v.value)
  }

  /** The labels of the fields all render as children. */
  predicate LabelsRender(campos: seq<Json>) {
    forall k :: 0 <= k < |campos| ==> OptRendersAsChild(Get(campos[k], "etiqueta"))
  }

  /** Whether the form renders: `campos` is an array none of whose entries is `null`
      (destructuring it would throw), the title and every label are children React accepts,
      and every string attribute converts; `None` is a render that throws. */
  function DynamicForm(formData: Json): (r: Option<RenderedForm>)
    ensures r.Some? <==> (Get(formData, "campos").Some? && Get(formData, "campos").value.JArray?
      && (forall k :: 0 <= k < |Get(formData, "campos").value.items| ==> !Get(formData, "campos").value.items[k].JNull?)
      && OptRendersAsChild(Get(formData, "titulo")) && LabelsRender(Get(formData, "campos").value.items)
      && AttributesConvert(Get(formData, "campos").value.items))
    ensures r.Some? ==> var campos := Get(formData, "campos").value.items;
      r.value.title == Get(formData, "titulo") && |r.value.groups| == |campos|
      && forall k :: 0 <= k < |campos| ==> r.value.groups[k] == RenderField(campos[k])
  {
    var campos := Get(formData, "campos");
    if campos.None? || !campos.value.JArray? then None
    else if exists k :: 0 <= k < |campos.value.items| && campos.value.items[k].JNull? then None
    else if !OptRendersAsChild(Get(formData, "titulo")) || !LabelsRender(campos.value.items) then None
    else if !AttributesConvert(campos.value.items) then None
    else
      var items := campos.value.items;
      Some(RenderedForm(Get(formData, "titulo"), seq(|items|, k requires 0 <= k < |items| => RenderField(items[k]))))
  }

  /** A form the generator's validator accepts renders exactly when its title and labels are
      children React accepts and its attributes convert, and then one group per field, keyed
      by the field's id. The
      validator only asks for truthy values, so an object title passes it and still makes the
      render throw. */
  lemma ValidatedFormsRender(form: Json)
    requires Gemini.ValidForm(form)
    ensures DynamicForm(form).Some? <==>
      OptRendersAsChild(Get(form, "titulo")) && LabelsRender(Get(form, "campos").value.items)
      && AttributesConvert(Get(form, "campos").value.items)
    ensures DynamicForm(form).Some? ==> var campos := Get(form, "campos").value.items;
      forall k :: 0 <= k < |campos| ==> DynamicForm(form).value.groups[k].key == Get(campos[k], "id") && Get(campos[k], "id").Some?
  {
    var campos := Get(form, "campos").value.items;
    forall k | 0 <= k < |campos|
      ensures !campos[k].JNull?
    {
      assert Gemini.ValidField(campos[k]);
    }
  }

  /** `{"titulo": {"es": "X"}, "campos": []}` passes the validator but does not render. */
  lemma ObjectTitlePassesValidationButDoesNotRender()
    ensures var form := JObject(map["titulo" := JObject(map["es" := JString("X")]), "campos" := JArray([])]);
      Gemini.ValidForm(form) && DynamicForm(form).None?
  {
    var form := JObject(map["titulo" := JObject(map["es" := JString("X")]), "campos" := JArray([])]);
    assert !OptRendersAsChild(Get(form, "titulo"));
  }

  // ---------------------------------------------------------------------------
  // The page
  // ---------------------------------------------------------------------------

  class FileGenerator {
    var templates: Option<Json>
    var selectedFile: Option<ChosenFile>
    var selectedTemplate: string
    var status: Status
    var isLoading: bool
    var isDragOver: bool
    var generatedForm: Option<Json>
    var buttonState: ButtonState

    /** Between handlers: nothing is loading, and a shown form comes from a generation. */
    predicate Valid()
      reads this
    {
      !isLoading && buttonState != Loading && (generatedForm.Some? ==> buttonState == Generated)
    }

    /** `isGenerateButtonDisabled`. */
    predicate IsGenerateButtonDisabled()
      reads this
      ensures !IsGenerateButtonDisabled() <==> selectedFile.Some? && selectedTemplate != "" && !isLoading
    {
      selectedFile.None? || selectedTemplate == "" || isLoading
    }

    /** `getButtonContent()`. */
    function GetButtonContent(): (r: string)
      reads this
      ensures r == ButtonLabel(buttonState)
    {
      ButtonLabel(buttonState)
    }

    /** The initial `useState` values. */
    constructor()
      ensures Valid()
      ensures templates == Some(JArray([])) && selectedFile.None? && selectedTemplate == ""
      ensures status == Status(LOADING_TEMPLATES, Info) && !isDragOver && generatedForm.None? && buttonState == Default
    {
      templates := Some(JArray([]));
      selectedFile := None;
      selectedTemplate := "";
      status := Status(LOADING_TEMPLATES, Info);
      isLoading := false;
      isDragOver := false;
      generatedForm := None;
      buttonState := Default;
    }

    /** `fetchTemplates`, run once on mount on what `get('/getTemplates')` settled with. */
    method FetchTemplates(fetched: Result<Json>)
      requires Valid()
      modifies this
      ensures Valid()
      ensures var loaded := TemplatesFrom(fetched);
        (loaded.Ok? ==> templates == loaded.value && status == Status("", Info))
        && (loaded.Err? ==> templates == old(templates) && status == Status(TEMPLATES_ERROR_PREFIX + loaded.msg, Error))
      ensures selectedFile == old(selectedFile) && selectedTemplate == old(selectedTemplate) && isLoading == old(isLoading)
      ensures isDragOver == old(isDragOver) && generatedForm == old(generatedForm) && buttonState == old(buttonState)
    {
      var loaded := TemplatesFrom(fetched);
      if loaded.Ok? {
        templates := loaded.value;
        status := Status("", Info);
      } else {
        status := Status(TEMPLATES_ERROR_PREFIX + loaded.msg, Error);
      }
    }

    /** The template `select`'s `onChange`. */
    method SelectTemplate(value: string)
      requires Valid()
      modifies this
      ensures Valid()
      ensures selectedTemplate == value
      ensures templates == old(templates) && selectedFile == old(selectedFile) && status == old(status)
      ensures isLoading == old(isLoading) && isDragOver == old(isDragOver)
      ensures generatedForm == old(generatedForm) && buttonState == old(buttonState)
    {
      selectedTemplate := value;
    }

    /** `handleFileChange`: a file replaces the selection and clears the shown form; no file
        changes nothing. */
    method HandleFileChange(file: Option<ChosenFile>)
      requires Valid()
      modifies this
      ensures Valid()
      ensures file.Some? ==>
        selectedFile == file && status == Status(ReadyMessage(file.value), Success)
        && generatedForm.None? && buttonState == Default
      ensures file.None? ==>
        selectedFile == old(selectedFile) && status == old(status)
        && generatedForm == old(generatedForm) && buttonState == old(buttonState)
      ensures templates == old(templates) && selectedTemplate == old(selectedTemplate)
      ensures isLoading == old(isLoading) && isDragOver == old(isDragOver)
    {
      if file.Some? {
        selectedFile := file;
        status := Status(ReadyMessage(file.value), Success);
        generatedForm := None;
        buttonState := Default;
      }
    }

    /** `handleDragOver`. */
    method HandleDragOver()
      requires Valid()
      modifies this
      ensures Valid()
      ensures isDragOver
      ensures templates == old(templates) && selectedFile == old(selectedFile) && selectedTemplate == old(selectedTemplate)
      ensures status == old(status) && isLoading == old(isLoading)
      ensures generatedForm == old(generatedForm) && buttonState == old(buttonState)
    {
      isDragOver := true;
    }

    /** `handleDragLeave`. */
    method HandleDragLeave()
      requires Valid()
      modifies this
      ensures Valid()
      ensures !isDragOver
      ensures templates == old(templates) && selectedFile == old(selectedFile) && selectedTemplate == old(selectedTemplate)
      ensures status == old(status) && isLoading == old(isLoading)
      ensures generatedForm == old(generatedForm) && buttonState == old(buttonState)
    {
      isDragOver := false;
    }

    /** `handleDrop`: the drag ends and only the first dropped file, if any, is chosen. */
    method HandleDrop(files: seq<ChosenFile>)
      requires Valid()
      modifies this
      ensures Valid()
      ensures !isDragOver
      ensures |files| > 0 ==>
        selectedFile == Some(files[0]) && status == Status(ReadyMessage(files[0]), Success)
        && generatedForm.None? && buttonState == Default
      ensures |files| == 0 ==>
        selectedFile == old(selectedFile) && status == old(status)
        && generatedForm == old(generatedForm) && buttonState == old(buttonState)
      ensures templates == old(templates) && selectedTemplate == old(selectedTemplate) && isLoading == old(isLoading)
    {
      isDragOver := false;
      if |files| > 0 {
        HandleFileChange(Some(files[0]));
      }
    }

    /** `handleGenerateClick`. Without a file or a template only the status changes and
        nothing is sent. Otherwise the request is sent (and returned) and the page ends not
        loading, showing the form and `generated` on success, or no form, `default` and the
        error on failure. */
    method HandleGenerateClick(apiKeyEnv: Option<string>, send: GenerateRequest -> Result<Reply>)
      returns (sent: Option<GenerateRequest>)
      requires Valid()
      modifies this
      ensures Valid()
      ensures old(selectedFile).None? || old(selectedTemplate) == "" ==>
        sent.None? && status == Status(MISSING_SELECTION, Error)
        && isLoading == old(isLoading) && buttonState == old(buttonState) && generatedForm == old(generatedForm)
      ensures old(selectedFile).Some? && old(selectedTemplate) != "" ==>
        var request := GenerateRequest(GENERATE_URL, old(selectedFile).value, old(selectedTemplate),
                                       if apiKeyEnv.Some? then apiKeyEnv.value else "");
        var result := GenerationResult(send(request));
        sent == Some(request) && !isLoading
        && (result.Ok? ==> generatedForm == result.value && buttonState == Generated
                           && status == Status(GENERATED_MESSAGE, Success))
        && (result.Err? ==> generatedForm.None? && buttonState == Default && status == Status(result.msg, Error))
      ensures templates == old(templates) && selectedFile == old(selectedFile) && selectedTemplate == old(selectedTemplate)
      ensures isDragOver == old(isDragOver)
    {
      if selectedFile.None? || selectedTemplate == "" {
        status := Status(MISSING_SELECTION, Error);
        sent := None;
        return;
      }
      isLoading := true;
      buttonState := Loading;
      generatedForm := None;
      status := Status(ANALYZING, Info);
      var request := GenerateRequest(GENERATE_URL, selectedFile.value, selectedTemplate,
                                     if apiKeyEnv.Some? then apiKeyEnv.value else "");
      sent := Some(request);
      var result := GenerationResult(send(request));
      if result.Ok? {
        generatedForm := result.value;
        status := Status(GENERATED_MESSAGE, Success);
        buttonState := Generated;
      } else {
        status := Status(result.msg, Error);
        buttonState := Default;
      }
      isLoading := false;
    }
  }

  /** Between handlers the button is enabled exactly when a file and a template are chosen,
      which is exactly when a click sends a request. */
  lemma ButtonEnabledIffClickSends(page: FileGenerator)
    requires page.Valid()
    ensures !page.IsGenerateButtonDisabled() <==> page.selectedFile.Some? && page.selectedTemplate != ""
  {
  }
}

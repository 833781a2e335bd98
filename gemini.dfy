/** The form generator's post-processing of the model's answer
    (backend/funtions/scr/geminiService.js): code-fence stripping, the structural check of the
    parsed form, and the classification of failures. The model call (with its prompt) and
    `JSON.parse` are parameters. */
module Gemini {
  import opened Wrappers
  import opened Strings
  import opened Json

  // ---------------------------------------------------------------------------
  // Fence stripping
  // ---------------------------------------------------------------------------

  const JSON_FENCE := "```json"
  const FENCE := "```"

  /** `s.replace(/```json\n?/, '')` on a string that starts with the fence: the leftmost match
      is the fence itself, with the newline after it when there is one. */
  function DropOpeningFence(s: string): (r: string)
    requires StartsWith(s, JSON_FENCE)
    ensures |r| <= |s| - 7 && s == JSON_FENCE + s[7..|s| - |r|] + r
    ensures s[7..|s| - |r|] == "" || s[7..|s| - |r|] == "\n"
    ensures |r| == |s| - 8 <==> 7 < |s| && s[7] == '\n'
  {
    var r := if 7 < |s| && s[7] == '\n' then s[8..] else s[7..];
    assert s == s[..7] + s[7..|s| - |r|] + r;
    r
  }

  /** `s.replace(/\n?```$/, '')` on a string that ends with the fence: the leftmost match takes
      the newline before it when there is one. */
  function DropClosingFence(s: string): (r: string)
    requires EndsWith(s, FENCE)
    ensures |r| <= |s| - 3 && s == r + s[|r|..|s| - 3] + FENCE
    ensures s[|r|..|s| - 3] == "" || s[|r|..|s| - 3] == "\n"
    ensures |r| == |s| - 4 <==> 4 <= |s| && s[|s| - 4] == '\n'
  {
    assert s == s[..|s| - 3] + FENCE;
    if 4 <= |s| && s[|s| - 4] == '\n' then
      var r := s[..|s| - 4];
      assert s[|r|..|s| - 3] == [s[|s| - 4]];
      assert s == r + s[|r|..|s| - 3] + FENCE;
      r
    else
      var r := s[..|s| - 3];
      assert s[|r|..|s| - 3] == "";
      r
  }

  /** What the two `replace` steps leave of the trimmed text: the opening `json` fence goes
      when it starts the text, then a closing fence when it ends what is left. */
  function Unfence(t: string): (r: string)
    ensures !StartsWith(t, JSON_FENCE) && !EndsWith(t, FENCE) ==> r == t
    ensures StartsWith(t, JSON_FENCE) || EndsWith(t, FENCE) ==> |r| < |t|
  {
    var unopened := if StartsWith(t, JSON_FENCE) then DropOpeningFence(t) else t;
    if EndsWith(unopened, FENCE) then DropClosingFence(unopened) else unopened
  }

  /** The string handed to `JSON.parse`. */
  function StripFences(responseText: string): (r: string)
    ensures !StartsWith(Trim(responseText), JSON_FENCE) && !EndsWith(Trim(responseText), FENCE) ==> r == Trim(responseText)
    ensures |r| <= |Trim(responseText)|
  {
    Unfence(Trim(responseText))
  }

  /** At most one opening fence with one newline and at most one closing fence with one
      newline are removed, and nothing else: the result is `t` less `i` characters in front
      and `j` behind. */
  lemma StripsAtMostOneFenceEachSide(t: string) returns (i: nat, j: nat)
    ensures i in {0, 7, 8} && j in {0, 3, 4} && i + j <= |t|
    ensures Unfence(t) == t[i..|t| - j]
    ensures i > 0 <==> StartsWith(t, JSON_FENCE)
  {
    var a := if StartsWith(t, JSON_FENCE) then DropOpeningFence(t) else t;
    i := |t| - |a|;
    assert a == t[i..];
    var r := if EndsWith(a, FENCE) then DropClosingFence(a) else a;
    j := |a| - |r|;
    assert r == a[..|a| - j];
    SliceOfSuffix(t, i, |a| - j);
  }

  /** A prefix of a suffix is a slice. */
  lemma SliceOfSuffix(t: string, i: nat, k: nat)
    requires i + k <= |t|
    ensures t[i..][..k] == t[i..i + k]
  {
  }

  /** A fenced block loses exactly its fences. */
  lemma FencedBlockIsUnwrapped(b: string)
    ensures Unfence("```json\n" + b + "\n```") == b
  {
    var t := "```json\n" + b + "\n```";
    assert t[..7] == JSON_FENCE;
    assert t[7] == '\n';
    var a := t[8..];
    assert a == b + "\n```";
    assert a[|a| - 3..] == FENCE;
    assert a[|a| - 4] == '\n';
    assert a[..|a| - 4] == b;
  }

  /** Text without fences is left as it is. */
  lemma UnfencedTextIsKept(t: string)
    requires !StartsWith(t, JSON_FENCE) && !EndsWith(t, FENCE)
    ensures Unfence(t) == t
  {
  }

  /** A bare opening fence (without `json`) stays; only the closing one goes. */
  lemma BareOpeningFenceIsKept(b: string)
    ensures Unfence("```\n" + b + "\n```") == "```\n" + b
  {
    var t := "```\n" + b + "\n```";
    assert |t| >= 7 ==> t[..7][3] == '\n';
    assert !StartsWith(t, JSON_FENCE);
    assert t[|t| - 3..] == FENCE;
    assert t[|t| - 4] == '\n';
    assert t[..|t| - 4] == "```\n" + b;
  }

  // ---------------------------------------------------------------------------
  // Structural check of the form
  // ---------------------------------------------------------------------------

  const ALLOWED_TYPES: seq<string> := ["texto", "email", "numero", "textarea", "select", "radio", "checkbox"]
  const CHOICE_TYPES: seq<string> := ["select", "radio", "checkbox"]

  /** An option needs a truthy `valor` and a truthy `texto` (a non-object has neither). */
  predicate ValidOption(o: Json) {
    TruthyOpt(Get(o, "valor")) && TruthyOpt(Get(o, "texto"))
  }

  /** `tipo` is a string among the listed ones. */
  predicate HasTypeIn(field: Json, types: seq<string>) {
    var tipo := Get(field, "tipo");
    tipo.Some? && tipo.value.JString? && tipo.value.s in types
  }

  /** A non-empty `opciones` array whose every entry is a valid option. */
  predicate HasValidOptions(field: Json) {
    var opciones := Get(field, "opciones");
    opciones.Some? && opciones.value.JArray? && |opciones.value.items| > 0
    && forall k :: 0 <= k < |opciones.value.items| ==> ValidOption(opciones.value.items[k])
  }

  /** A field: truthy `id`, `etiqueta` and `tipo`, an allowed type, and valid options when the
      type is a choice; the options of other types are not looked at. */
  predicate ValidField(field: Json) {
    TruthyOpt(Get(field, "id")) && TruthyOpt(Get(field, "etiqueta")) && TruthyOpt(Get(field, "tipo"))
    && HasTypeIn(field, ALLOWED_TYPES)
    && (HasTypeIn(field, CHOICE_TYPES) ==> HasValidOptions(field))
  }

  /** A form: truthy `titulo` and an array `campos` (possibly empty) of valid fields. */
  predicate ValidForm(form: Json) {
    var campos := Get(form, "campos");
    TruthyOpt(Get(form, "titulo")) && campos.Some? && campos.value.JArray?
    && forall i :: 0 <= i < |campos.value.items| ==> ValidField(campos.value.items[i])
  }

  /** The option check of one field, stopping at the first bad option: its index. */
  function FirstInvalidOption(opciones: seq<Json>): (r: Option<nat>)
    ensures r.None? <==> forall k :: 0 <= k < |opciones| ==> ValidOption(opciones[k])
    ensures r.Some? ==> (r.value < |opciones| && !ValidOption(opciones[r.value])
                      && forall k :: 0 <= k < r.value ==> ValidOption(opciones[k]))
    decreases |opciones|
  {
    if |opciones| == 0 then None
    else if !ValidOption(opciones[0]) then Some(0)
    else
      match FirstInvalidOption(opciones[1..])
      case None => None
      case Some(k) => Some(k + 1)
  }

  /** One iteration of the field loop: does this field throw? */
  predicate FieldPasses(field: Json) {
    TruthyOpt(Get(field, "id")) && TruthyOpt(Get(field, "etiqueta")) && TruthyOpt(Get(field, "tipo"))
    && HasTypeIn(field, ALLOWED_TYPES)
    && (HasTypeIn(field, CHOICE_TYPES) ==>
          var opciones := Get(field, "opciones");
          TruthyOpt(opciones) && opciones.value.JArray? && |opciones.value.items| != 0
          && FirstInvalidOption(opciones.value.items).None?)
  }

  /** The field loop, stopping at the first field that throws: its index. */
  function FirstInvalidField(campos: seq<Json>): (r: Option<nat>)
    ensures r.None? <==> forall i :: 0 <= i < |campos| ==> ValidField(campos[i])
    ensures r.Some? ==> (r.value < |campos| && !ValidField(campos[r.value])
                      && forall i :: 0 <= i < r.value ==> ValidField(campos[i]))
    decreases |campos|
  {
    if |campos| == 0 then None
    else if !FieldPasses(campos[0]) then Some(0)
    else
      match FirstInvalidField(campos[1..])
      case None => None
      case Some(k) => Some(k + 1)
  }

  const INVALID_JSON := "La respuesta de Gemini no es un JSON válido"

  /** The inner `try`: parse, check the shape and every field; any failure becomes the one
      invalid-JSON message. A form that passes is returned as parsed. */
  function ParseForm(jsonStr: string, parse: string -> Option<Json>): (r: Result<Json>)
    ensures r.Ok? <==> parse(jsonStr).Some? && ValidForm(parse(jsonStr).value)
    ensures r.Ok? ==> r.value == parse(jsonStr).value
    ensures r.Err? ==> r.msg == INVALID_JSON
  {
    match parse(jsonStr)
    case None => Err(INVALID_JSON)
    case Some(formulario) =>
      var campos := Get(formulario, "campos");
      if !TruthyOpt(Get(formulario, "titulo")) || !TruthyOpt(campos) || !campos.value.JArray? then Err(INVALID_JSON)
      else if FirstInvalidField(campos.value.items).Some? then Err(INVALID_JSON)
      else Ok(formulario)
  }

  // ---------------------------------------------------------------------------
  // Failure classification and the whole call
  // ---------------------------------------------------------------------------

  const KEY_INVALID_MESSAGE := "La clave de API de Gemini no es válida"
  const QUOTA_MESSAGE := "Se ha excedido la cuota de la API de Gemini"
  const SAFETY_MESSAGE := "El contenido ha sido bloqueado por las políticas de seguridad de Gemini"
  const GENERATION_PREFIX := "Error al generar el formulario: "

  /** The outer `catch`: the first matching marker decides the message. */
  function ClassifyError(msg: string): (r: string)
    ensures Contains(msg, "API_KEY_INVALID") ==> r == KEY_INVALID_MESSAGE
    ensures !Contains(msg, "API_KEY_INVALID") && Contains(msg, "QUOTA_EXCEEDED") ==> r == QUOTA_MESSAGE
    ensures !Contains(msg, "API_KEY_INVALID") && !Contains(msg, "QUOTA_EXCEEDED") && Contains(msg, "SAFETY")
      ==> r == SAFETY_MESSAGE
    ensures !Contains(msg, "API_KEY_INVALID") && !Contains(msg, "QUOTA_EXCEEDED") && !Contains(msg, "SAFETY")
      ==> r == GENERATION_PREFIX + msg
  {
    if Contains(msg, "API_KEY_INVALID") then KEY_INVALID_MESSAGE
    else if Contains(msg, "QUOTA_EXCEEDED") then QUOTA_MESSAGE
    else if Contains(msg, "SAFETY") then SAFETY_MESSAGE
    else GENERATION_PREFIX + msg
  }

  /** A message with none of `_`, `Y` gets the generic prefix: each marker has one of them. */
  lemma UnmarkedMessageGetsPrefix(msg: string)
    requires '_' !in msg && 'Y' !in msg
    ensures ClassifyError(msg) == GENERATION_PREFIX + msg
  {
    assert "API_KEY_INVALID"[3] == '_';
    assert "QUOTA_EXCEEDED"[5] == '_';
    assert "SAFETY"[5] == 'Y';
    NotContainsMissingChar(msg, "API_KEY_INVALID", '_');
    NotContainsMissingChar(msg, "QUOTA_EXCEEDED", '_');
    NotContainsMissingChar(msg, "SAFETY", 'Y');
  }

  lemma InvalidJsonHasNoMarkerChars()
    ensures '_' !in INVALID_JSON && 'Y' !in INVALID_JSON
  {
    var first, second := "La respuesta de Gemini ", "no es un JSON válido";
    assert INVALID_JSON == first + second;
    FirstInvalidJsonPartHasNoMarkerChars();
    SecondInvalidJsonPartHasNoMarkerChars();
    MissingFromBothParts(first, second, '_');
    MissingFromBothParts(first, second, 'Y');
  }

  lemma FirstInvalidJsonPartHasNoMarkerChars()
    ensures '_' !in "La respuesta de Gemini " && 'Y' !in "La respuesta de Gemini "
  {
  }

  lemma SecondInvalidJsonPartHasNoMarkerChars()
    ensures '_' !in "no es un JSON válido" && 'Y' !in "no es un JSON válido"
  {
  }

  lemma MissingFromBothParts(a: string, b: string, c: char)
    requires c !in a && c !in b
    ensures c !in a + b
  {
    assert forall i :: 0 <= i < |a + b| ==> (a + b)[i] == if i < |a| then a[i] else b[i - |a|];
  }

  /** The invalid-JSON message is not taken for a provider error. */
  lemma InvalidJsonIsReportedWithPrefix()
    ensures ClassifyError(INVALID_JSON) == GENERATION_PREFIX + INVALID_JSON
  {
    InvalidJsonHasNoMarkerChars();
    UnmarkedMessageGetsPrefix(INVALID_JSON);
  }

  /** The markers are tested in order: a message that has the key marker is a key error
      whatever else it mentions. */
  lemma KeyMarkerWins(before: string, after: string)
    ensures ClassifyError(before + "API_KEY_INVALID" + after) == KEY_INVALID_MESSAGE
  {
    ContainsInside(before, "API_KEY_INVALID", after);
  }

  /** `llamarGemini(texto, plantilla)`: ask the model (`generate` stands for the client, the
      prompt built from `texto` and `plantilla`, and `response.text()`), strip the fences,
      parse and check; failures are classified. */
  function LlamarGemini(texto: string, plantilla: string, generate: (string, string) -> Result<string>,
                        parse: string -> Option<Json>): (r: Result<Json>)
    ensures generate(texto, plantilla).Err? ==> r == Err(ClassifyError(generate(texto, plantilla).msg))
    ensures generate(texto, plantilla).Ok? ==>
      var jsonStr := StripFences(generate(texto, plantilla).value);
      if parse(jsonStr).Some? && ValidForm(parse(jsonStr).value) then r == Ok(parse(jsonStr).value)
      else r == Err(GENERATION_PREFIX + INVALID_JSON)
  {
    InvalidJsonIsReportedWithPrefix();
    match generate(texto, plantilla)
    case Err(e) => Err(ClassifyError(e))
    case Ok(responseText) =>
      match ParseForm(StripFences(responseText), parse)
      case Err(e) => Err(ClassifyError(e))
      case Ok(formulario) => Ok(formulario)
  }

  /** An empty field list is accepted. */
  lemma EmptyFieldListIsValid(titulo: string)
    requires titulo != ""
    ensures ValidForm(JObject(map["titulo" := JString(titulo), "campos" := JArray([])]))
  {
  }

  /** A choice field with no options, or with an option lacking `texto`, is invalid; a text
      field's options are not inspected. */
  lemma ChoiceFieldsNeedOptions()
    ensures !ValidField(JObject(map["id" := JString("c"), "etiqueta" := JString("C"), "tipo" := JString("radio"),
                                    "opciones" := JArray([])]))
    ensures !ValidField(JObject(map["id" := JString("c"), "etiqueta" := JString("C"), "tipo" := JString("select"),
                                    "opciones" := JArray([JObject(map["valor" := JString("v")])])]))
    ensures ValidField(JObject(map["id" := JString("c"), "etiqueta" := JString("C"), "tipo" := JString("texto"),
                                   "opciones" := JNull]))
  {
    var bad := JObject(map["valor" := JString("v")]);
    assert !ValidOption(bad);
    var select := JObject(map["id" := JString("c"), "etiqueta" := JString("C"), "tipo" := JString("select"),
                              "opciones" := JArray([bad])]);
    assert Get(select, "opciones").value.items[0] == bad;
    assert !HasValidOptions(select);
  }
}

/** The two utility endpoints (backend/funtions/scr/formularioEndpoints.js): the fixed list of
    templates and the simulated form. Neither reads its request, and nothing in either can
    throw, so their `catch` branch is never taken. */
module Templates {
  import opened Wrappers
  import opened Json
  import opened Http
  import Gemini

  /** One entry of the template list. */
  datatype Template = Template(id: string, nombre: string)

  /** The source of truth for the available templates, in the order served. */
  const AVAILABLE_TEMPLATES: seq<Template> := [
    Template("moderna", "Moderna y Limpia"),
    Template("clasica", "Clásica Corporativa"),
    Template("creativa", "Creativa y Colorida")]

  function TemplateJson(t: Template): Json {
    JObject(map["id" := JString(t.id), "nombre" := JString(t.nombre)])
  }

  /** `getTemplates`: 200 with `success` and the list, entry by entry. */
  function GetTemplates(req: Request): (r: Response)
    ensures r.status == 200
    ensures Get(r.body, "success") == Some(JBool(true))
    ensures Get(r.body, "templates").Some? && Get(r.body, "templates").value.JArray?
    ensures var items := Get(r.body, "templates").value.items;
      |items| == |AVAILABLE_TEMPLATES|
      && forall k :: 0 <= k < |items| ==>
           Get(items[k], "id") == Some(JString(AVAILABLE_TEMPLATES[k].id))
           && Get(items[k], "nombre") == Some(JString(AVAILABLE_TEMPLATES[k].nombre))
  {
    var items := seq(|AVAILABLE_TEMPLATES|, k requires 0 <= k < |AVAILABLE_TEMPLATES| => TemplateJson(AVAILABLE_TEMPLATES[k]));
    Response(200, JObject(map["success" := JBool(true), "templates" := JArray(items)]))
  }

  /** No two templates share an id, and every id is a non-empty identifier. */
  lemma TemplateIdsAreDistinct()
    ensures forall i, j :: 0 <= i < j < |AVAILABLE_TEMPLATES| ==> AVAILABLE_TEMPLATES[i].id != AVAILABLE_TEMPLATES[j].id
    ensures forall i :: 0 <= i < |AVAILABLE_TEMPLATES| ==> AVAILABLE_TEMPLATES[i].id != ""
  {
    assert AVAILABLE_TEMPLATES[0].id[0] == 'm';
    assert AVAILABLE_TEMPLATES[1].id[1] == 'l';
    assert AVAILABLE_TEMPLATES[2].id[1] == 'r';
  }

  /** The list does not depend on the request. */
  lemma TemplatesIgnoreTheRequest(req1: Request, req2: Request)
    ensures GetTemplates(req1) == GetTemplates(req2)
  {
  }

  function Field(id: string, etiqueta: string, tipo: string, requerido: bool): Json {
    JObject(map["id" := JString(id), "etiqueta" := JString(etiqueta), "tipo" := JString(tipo), "requerido" := JBool(requerido)])
  }

  /** The simulated form: a title and three fields, the first two required. */
  const SIMULATED_FIELDS: seq<Json> := [
    Field("nombre", "Nombre", "texto", true),
    Field("email", "Correo Electrónico", "email", true),
    Field("comentarios", "Comentarios", "textarea", false)]

  const SIMULATED_FORM: Json := JObject(map["titulo" := JString("Formulario Generado"), "campos" := JArray(SIMULATED_FIELDS)])

  /** `generarFormulario`: 200 with a form that the generator's own validator accepts. */
  function GenerarFormulario(req: Request): (r: Response)
    ensures r == Response(200, SIMULATED_FORM)
    ensures Gemini.ValidForm(r.body)
  {
    SimulatedFormIsValid();
    Response(200, SIMULATED_FORM)
  }

  /** A plain field with an id, a label and an allowed type that is not a choice is valid;
      its `requerido` flag is not looked at. */
  lemma PlainFieldIsValid(id: string, etiqueta: string, tipo: string, requerido: bool)
    requires id != "" && etiqueta != ""
    requires tipo in Gemini.ALLOWED_TYPES && tipo !in Gemini.CHOICE_TYPES
    ensures Gemini.ValidField(Field(id, etiqueta, tipo, requerido))
  {
    assert tipo != "";
  }

  lemma TextIsAPlainType()
    ensures "texto" in Gemini.ALLOWED_TYPES && "texto" !in Gemini.CHOICE_TYPES
  {
    assert Gemini.ALLOWED_TYPES[0] == "texto";
  }

  lemma EmailIsAPlainType()
    ensures "email" in Gemini.ALLOWED_TYPES && "email" !in Gemini.CHOICE_TYPES
  {
    assert Gemini.ALLOWED_TYPES[1] == "email";
  }

  lemma TextareaIsAPlainType()
    ensures "textarea" in Gemini.ALLOWED_TYPES && "textarea" !in Gemini.CHOICE_TYPES
  {
    assert Gemini.ALLOWED_TYPES[3] == "textarea";
  }

  /** The simulated form has a title and only valid fields. */
  lemma SimulatedFormIsValid()
    ensures Gemini.ValidForm(SIMULATED_FORM)
  {
    SimulatedFieldsAreValid();
    assert Get(SIMULATED_FORM, "campos") == Some(JArray(SIMULATED_FIELDS));
  }

  /** Each simulated field has an id, a label and an allowed, non-choice type. */
  lemma SimulatedFieldsAreValid()
    ensures forall i :: 0 <= i < |SIMULATED_FIELDS| ==> Gemini.ValidField(SIMULATED_FIELDS[i])
  {
    TextIsAPlainType();
    EmailIsAPlainType();
    TextareaIsAPlainType();
    PlainFieldIsValid("nombre", "Nombre", "texto", true);
    PlainFieldIsValid("email", "Correo Electrónico", "email", true);
    PlainFieldIsValid("comentarios", "Comentarios", "textarea", false);
  }

  /** Served as a model reply, the simulated form passes the generator's parsing unchanged. */
  lemma SimulatedFormSurvivesParsing(jsonStr: string, parse: string -> Option<Json>, req: Request)
    requires parse(jsonStr) == Some(GenerarFormulario(req).body)
    ensures Gemini.ParseForm(jsonStr, parse) == Ok(SIMULATED_FORM)
  {
  }
}

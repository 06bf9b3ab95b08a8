/**
 * The immutable domain tree: Project -> Layer -> Form -> Field -> Option,
 * plus features, observations and audit information. Maps are keyed by
 * entity id; entities are values, rebuilt on every read.
 */
module Domain {
  import opened Wrappers
  import opened Documents

  /** Localised text: language code to string. */
  type StringMap = map<string, string>

  /** The only field type the mapper produces. */
  datatype FieldType = Text

  /** One choice of a multiple-choice field (the source's `Option` entity). */
  // `labelText` is the source's `label` (a reserved word in Dafny).
  datatype ChoiceOption = ChoiceOption(id: string, code: Option<string>, labelText: StringMap)

  datatype MultipleChoice = MultipleChoice(cardinality: Option<string>, options: map<string, ChoiceOption>)

  datatype Field = Field(
    id: string,
    fieldType: FieldType,
    labelText: StringMap,
    required: Option<bool>,
    multipleChoice: Option<MultipleChoice>)

  datatype Form = Form(id: string, fields: map<string, Field>)

  /** `name` and `forms` are unset on a layer the edit dialog has just allocated. */
  datatype Layer = Layer(
    id: string,
    color: Option<string>,
    name: Option<StringMap>,
    forms: Option<map<string, Form>>)

  datatype Project = Project(id: string, title: StringMap, description: StringMap, layers: map<string, Layer>) {

    /** `project.getForm(layerId, formId)`: the form `formId` of layer `layerId`, if both exist. */
    function GetForm(layerId: Option<string>, formId: Option<string>): (r: Option<Form>)
      ensures r.Some? <==>
        && layerId.Some? && layerId.value in layers
        && formId.Some? && layers[layerId.value].forms.Some?
        && formId.value in layers[layerId.value].forms.value
      ensures r.Some? ==> r.value == layers[layerId.value].forms.value[formId.value]
    {
      if layerId.Some? && layerId.value in layers && formId.Some? then
        var forms := layers[layerId.value].forms;
        if forms.Some? && formId.value in forms.value then Some(forms.value[formId.value]) else None
      else None
    }
  }

  datatype GeoPoint = GeoPoint(latitude: real, longitude: real)

  datatype Feature = Feature(id: string, layerId: Option<string>, location: Option<GeoPoint>)

  /** An answer, passed through as stored: a string, a number or a list of strings. */
  datatype Response = Response(value: Json)

  /** Who and when; the user descriptor and the instants are opaque. */
  datatype AuditInfo = AuditInfo(user: Option<Json>, clientTimestamp: Option<int>, serverTimestamp: Option<int>)

  datatype Observation = Observation(
    id: string,
    form: Form,
    created: AuditInfo,
    lastModified: AuditInfo,
    responses: map<string, Response>)
}

/**
 * The layer edit dialog: it resolves (or allocates) the layer being edited
 * when the active project arrives, keeps the typed name and question, and on
 * save assembles the layer handed to `updateLayer`.
 */
module LayerDialogs {
  import opened Wrappers
  import opened Domain
  import opened Documents
  import opened Store
  import opened DataStore
  import opened Ids

  /** The layer id the dialog is opened with to create a layer. */
  const NewLayerId := ":new"

  /** What the dialog throws. */
  datatype DialogError =
    | NoLayerExists        // the project has no layer under the dialog's layer id
    | ProjectNotYetLoaded  // save before a project was loaded

  /** The arguments of one `updateLayer(projectId, layer)` call. */
  datatype LayerUpdate = LayerUpdate(projectId: string, layer: Layer)

  /** `layer?.name?.get(lang) || ''`: the layer's name in `lang`, or `""` when there is none. */
  function LayerNameOf(layer: Option<Layer>, lang: string): (name: string)
    ensures layer.Some? && layer.value.name.Some? && lang in layer.value.name.value ==>
      name == layer.value.name.value[lang]
    ensures layer.None? || layer.value.name.None? || lang !in layer.value.name.value ==> name == ""
  {
    if layer.Some? && layer.value.name.Some? && lang in layer.value.name.value then layer.value.name.value[lang]
    else ""
  }

  /** `getForm(question, fieldId, formId)`: a form holding one required-false text question. */
  function QuestionForm(question: string, fieldId: string, formId: string): (form: Form)
    ensures form.id == formId && form.fields.Keys == {fieldId}
    ensures form.fields[fieldId].id == fieldId
    ensures form.fields[fieldId].fieldType == Text
    ensures form.fields[fieldId].required == Some(false)
    ensures form.fields[fieldId].labelText.Keys == {"en"} && form.fields[fieldId].labelText["en"] == question
    ensures form.fields[fieldId].multipleChoice.None?
  {
    Form(formId, map[fieldId := Field(fieldId, Text, map["en" := question], Some(false), None)])
  }

  /**
   * The layer `onSave` builds: the dialog's layer id, the loaded layer's
   * colour, its name with the `lang` entry set to the typed name (no name at
   * all when the loaded layer had none), and one form keyed by `formId`
   * when the question is non-empty (no forms at all otherwise).
   */
  function SavedLayer(layerId: string, layer: Option<Layer>, lang: string, layerName: string,
                      question: string, formId: string, fieldId: string): (saved: Layer)
    ensures saved.id == layerId
    ensures saved.color == (if layer.Some? then layer.value.color else None)
    ensures saved.name.Some? <==> layer.Some? && layer.value.name.Some?
    ensures saved.name.Some? ==> saved.name.value == layer.value.name.value[lang := layerName]
    ensures saved.forms.Some? <==> question != ""
    ensures saved.forms.Some? ==> saved.forms.value == map[formId := QuestionForm(question, fieldId, formId)]
  {
    var color := if layer.Some? then layer.value.color else None;
    var name := if layer.Some? && layer.value.name.Some? then Some(layer.value.name.value[lang := layerName]) else None;
    var forms := if question != "" then Some(map[formId := QuestionForm(question, fieldId, formId)]) else None;
    Layer(layerId, color, name, forms)
  }

  /** `!this.projectId`: no project id, or the empty one. */
  predicate ProjectLoaded(projectId: Option<string>) {
    projectId.Some? && projectId.value != ""
  }

  class LayerDialog {
    const lang: string
    var layerId: string
    var layer: Option<Layer>
    var layerName: string
    var projectId: Option<string>
    /** The value of the dialog form's `question` control. */
    var question: string
    /** The data-store service's id source. */
    const ids: IdAllocator

    ghost predicate Valid()
      reads this, ids
    {
      ids.Valid()
    }

    constructor (layerId: string, ids: IdAllocator)
      requires ids.Valid()
      ensures Valid() && this.ids == ids
      ensures lang == "en" && this.layerId == layerId
      ensures layer.None? && layerName == "" && projectId.None? && question == ""
    {
      lang := "en";
      this.layerId := layerId;
      layer := None;
      layerName := "";
      projectId := None;
      question := "";
      this.ids := ids;
    }

    /**
     * `onProjectLoaded(project)`: a `:new` layer id is replaced by a fresh id
     * and the layer becomes a bare layer with that id; any other id is looked
     * up in the project. The name field is filled either way; a missing layer
     * then throws and leaves the project id as it was.
     */
    method OnProjectLoaded(project: Project) returns (thrown: Option<DialogError>)
      requires Valid()
      modifies this, ids
      ensures Valid()
      ensures old(layerId) == NewLayerId ==>
        && layerId == IdOf(old(ids.next)) && layerId !in old(ids.issued)
        && ids.next == old(ids.next) + 1
        && layer == Some(Layer(layerId, None, None, None))
      ensures old(layerId) != NewLayerId ==>
        && layerId == old(layerId) && ids.next == old(ids.next)
        && layer == (if layerId in project.layers then Some(project.layers[layerId]) else None)
      ensures layerName == LayerNameOf(layer, lang)
      ensures thrown.Some? <==> layer.None?
      ensures thrown.Some? ==> thrown.value == NoLayerExists && projectId == old(projectId)
      ensures thrown.None? ==> projectId == Some(project.id)
      ensures question == old(question)
    {
      if layerId == NewLayerId {
        layerId := ids.GenerateId();
        layer := Some(Layer(layerId, None, None, None));
      } else {
        layer := if layerId in project.layers then Some(project.layers[layerId]) else None;
      }
      layerName := LayerNameOf(layer, lang);
      if layer.None? {
        return Some(NoLayerExists);
      }
      projectId := Some(project.id);
      return None;
    }

    /**
     * `onSave()`: without a loaded project it throws before drawing any id;
     * otherwise it draws a form id and then a field id, both new and
     * distinct, and yields the `updateLayer` call for the saved layer.
     */
    method OnSave() returns (r: Result<LayerUpdate, DialogError>)
      requires Valid()
      modifies ids
      ensures Valid()
      ensures !ProjectLoaded(projectId) ==> r == Err(ProjectNotYetLoaded) && ids.next == old(ids.next)
      ensures ProjectLoaded(projectId) ==>
        var formId := IdOf(old(ids.next));
        var fieldId := IdOf(old(ids.next) + 1);
        && ids.next == old(ids.next) + 2
        && formId != fieldId && formId !in old(ids.issued) && fieldId !in old(ids.issued)
        && r == Ok(LayerUpdate(projectId.value, SavedLayer(layerId, layer, lang, layerName, question, formId, fieldId)))
    {
      if !ProjectLoaded(projectId) {
        return Err(ProjectNotYetLoaded);
      }
      var formId := ids.GenerateId();
      var fieldId := ids.GenerateId();
      var saved := SavedLayer(layerId, layer, lang, layerName, question, formId, fieldId);
      return Ok(LayerUpdate(projectId.value, saved));
    }

    /** `setLayerName(value)`: changes the typed name and nothing else. */
    method SetLayerName(value: string)
      modifies this`layerName
      ensures layerName == value
    {
      layerName := value;
    }

    /** Typing into the `question` control. */
    method SetQuestion(value: string)
      modifies this`question
      ensures question == value
    {
      question := value;
    }
  }

  /**
   * What a save leaves in the store: applying the saved layer's patch to a
   * decodable project document gives a document that still decodes; the
   * saved layer reads back with its colour, with the typed name as its only
   * change of name when it had one and an empty name when it had none, and
   * with no forms, or one form without questions, by whether the question
   * was empty; every other layer is as before.
   */
  lemma SavedLayerReadsBack(projectId: string, doc: map<string, Json>, layerId: string, layer: Option<Layer>,
                            lang: string, layerName: string, question: string, formId: string, fieldId: string)
    requires '.' !in layerId
    requires ToProject(projectId, Obj(doc)).Ok?
    ensures var saved := SavedLayer(layerId, layer, lang, layerName, question, formId, fieldId);
      var before := ToProject(projectId, Obj(doc)).value;
      var after := ToProject(projectId, Obj(Update(doc, LayerPatch(saved))));
      && after.Ok?
      && layerId in after.value.layers
      && after.value.layers[layerId].color == (if layer.Some? then layer.value.color else None)
      && after.value.layers[layerId].name ==
           Some(if layer.Some? && layer.value.name.Some? then layer.value.name.value[lang := layerName] else map[])
      && after.value.layers[layerId].forms == Some(if question == "" then map[] else map[formId := Form(formId, map[])])
      && forall k :: k in before.layers && k != layerId ==> k in after.value.layers && after.value.layers[k] == before.layers[k]
  {
    var saved := SavedLayer(layerId, layer, lang, layerName, question, formId, fieldId);
    SavedProjectDecodes(projectId, doc, saved);
    SavedLayerNameReadsBack(layerId, layer, lang, layerName, question, formId, fieldId);
    SavedLayerFormsReadBack(layerId, layer, lang, layerName, question, formId, fieldId);
  }

  /** The saved layer's patch body reads back with its colour, and with its name or an empty one. */
  lemma SavedLayerNameReadsBack(layerId: string, layer: Option<Layer>, lang: string, layerName: string,
                                question: string, formId: string, fieldId: string)
    ensures var saved := SavedLayer(layerId, layer, lang, layerName, question, formId, fieldId);
      var r := ToLayer(layerId, LayerBody(saved));
      && r.Ok?
      && r.value.color == (if layer.Some? then layer.value.color else None)
      && r.value.name == Some(if layer.Some? && layer.value.name.Some? then layer.value.name.value[lang := layerName] else map[])
  {
    LayerRoundTrip(SavedLayer(layerId, layer, lang, layerName, question, formId, fieldId));
  }

  /** The saved layer's patch body reads back with no forms, or with the one new form and no questions in it. */
  lemma SavedLayerFormsReadBack(layerId: string, layer: Option<Layer>, lang: string, layerName: string,
                                question: string, formId: string, fieldId: string)
    ensures var saved := SavedLayer(layerId, layer, lang, layerName, question, formId, fieldId);
      var r := ToLayer(layerId, LayerBody(saved));
      && r.Ok?
      && r.value.forms == Some(if question == "" then map[] else map[formId := Form(formId, map[])])
  {
    var saved := SavedLayer(layerId, layer, lang, layerName, question, formId, fieldId);
    var written := saved.forms.GetOr(map[]);
    assert written.Keys == if question == "" then {} else {formId};
    var r := ToLayer(layerId, LayerBody(saved));
    assert r.Ok? && r.value.forms.Some? && r.value.forms.value.Keys == written.Keys
      && forall k :: k in r.value.forms.value ==> r.value.forms.value[k] == Form(k, map[])
    by {
      LayerRoundTrip(saved);
    }
    var forms := r.value.forms.value;
    if question == "" {
      assert forms.Keys == {};
    } else {
      assert forms.Keys == {formId};
      assert forms[formId] == Form(formId, map[]);
      SingleEntry(forms, formId);
    }
  }

  /** A map whose only key is `k` is the one-entry map at `k`. */
  lemma SingleEntry<V>(m: map<string, V>, k: string)
    requires m.Keys == {k}
    ensures m == map[k := m[k]]
  {
  }
}

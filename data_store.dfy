/**
 * The document mapper of the data-store service: decoding raw store
 * documents into the domain tree (read path) and building the patches that
 * the service writes (write path).
 *
 * Every decoder is keyed by the document's own sub-keys, turns a missing or
 * falsy sub-map into an empty map, and leaves a missing scalar unset. What
 * JavaScript throws while decoding is modelled as `Err`.
 */
module DataStore {
  import opened Wrappers
  import opened Documents
  import opened Domain
  import opened Store
  import opened Strings

  /** What the decoders throw. */
  datatype DecodeError =
    | PropertyOfNull   // a property read on `null` or `undefined` (a TypeError)
    | NotAFunction     // `?.toDate()` on a value that is not a timestamp (a TypeError)
    | FormNotFound     // `project.getForm` found no such layer or form

  type Decoded<T> = Result<T, DecodeError>

  /** `keys(dict)` together with `dict[id]`: the entries of a sub-map, none when it is falsy or not a map. */
  function Entries(dict: Option<Json>): (m: map<string, Json>)
    ensures !Truthy(dict) ==> m == map[]
    ensures dict.Some? && dict.value.Obj? ==> m == dict.value.fields
    ensures m != map[] ==> dict.Some? && dict.value.Obj?
  {
    if dict.Some? && dict.value.Obj? then dict.value.fields else map[]
  }

  /** `StringMap(v)`: the string-valued entries of a raw map. */
  function StringMapOf(v: Option<Json>): (m: StringMap)
    ensures m.Keys <= Entries(v).Keys
    ensures forall k :: k in m ==> Entries(v)[k] == Str(m[k])
  {
    var entries := Entries(v);
    map k | k in entries && entries[k].Str? :: entries[k].str
  }

  /** A raw geographic point, when the value is one. */
  function AsGeoPoint(v: Option<Json>): Option<GeoPoint> {
    if v.Some? && v.value.GeoValue? then Some(GeoPoint(v.value.latitude, v.value.longitude)) else None
  }

  /** A decoder of the tree that throws only by reading a property of `null`. */
  ghost predicate FailsOnlyOnNull<T>(decode: (string, Json) -> Decoded<T>) {
    forall id, data :: decode(id, data).Err? ==> decode(id, data).error == PropertyOfNull
  }

  /** `Map(keys(dict).map(id => [id, decode(id, dict[id])]))`: decodes every entry under its own key. */
  function DecodeEach<T>(entries: map<string, Json>, decode: (string, Json) -> Decoded<T>): (r: Decoded<map<string, T>>)
    requires FailsOnlyOnNull(decode)
    ensures r.Ok? <==> forall k :: k in entries ==> decode(k, entries[k]).Ok?
    ensures r.Ok? ==> r.value.Keys == entries.Keys
    ensures r.Ok? ==> forall k :: k in entries ==> r.value[k] == decode(k, entries[k]).value
    ensures r.Err? ==> exists k :: k in entries && decode(k, entries[k]) == Err(r.error)
  {
    if forall k :: k in entries ==> decode(k, entries[k]).Ok? then
      Ok(map k | k in entries :: decode(k, entries[k]).value)
    else
      Err(PropertyOfNull)
  }

  // ---------------------------------------------------------------- read path

  /** `toOption(id, data)`. */
  function ToOption(id: string, data: Json): (r: Decoded<ChoiceOption>)
    ensures r.Ok? <==> data != Null
    ensures r.Err? ==> r.error == PropertyOfNull
    ensures r.Ok? ==> r.value.id == id
    ensures r.Ok? ==> r.value.code == AsString(Get(data, "code"))
    ensures r.Ok? ==> r.value.labelText == StringMapOf(Get(data, "label"))
  {
    if data == Null then Err(PropertyOfNull)
    else Ok(ChoiceOption(id, AsString(Get(data, "code")), StringMapOf(Get(data, "label"))))
  }

  /** `toField(id, data)`: always of type TEXT; a choice part exactly when `options` is truthy. */
  function ToField(id: string, data: Json): (r: Decoded<Field>)
    ensures r.Ok? <==>
      && data != Null
      && (Truthy(Get(data, "options")) ==>
            forall k :: k in Entries(Get(data, "options")) ==> Entries(Get(data, "options"))[k] != Null)
    ensures r.Err? ==> r.error == PropertyOfNull
    ensures r.Ok? ==> r.value.id == id && r.value.fieldType == Text
    ensures r.Ok? ==> r.value.labelText == StringMapOf(Get(data, "label"))
    ensures r.Ok? ==> r.value.required == AsBool(Get(data, "required"))
    ensures r.Ok? ==> (r.value.multipleChoice.Some? <==> Truthy(Get(data, "options")))
    ensures r.Ok? && r.value.multipleChoice.Some? ==>
      var choice := r.value.multipleChoice.value;
      && choice.cardinality == AsString(Get(data, "cardinality"))
      && choice.options.Keys == Entries(Get(data, "options")).Keys
      && (forall k :: k in choice.options ==> choice.options[k].id == k)
      && (forall k :: k in choice.options ==> choice.options[k] == ToOption(k, Entries(Get(data, "options"))[k]).value)
  {
    if data == Null then Err(PropertyOfNull)
    else
      var labelText := StringMapOf(Get(data, "label"));
      var required := AsBool(Get(data, "required"));
      if !Truthy(Get(data, "options")) then Ok(Field(id, Text, labelText, required, None))
      else
        match DecodeEach(Entries(Get(data, "options")), ToOption)
        case Err(e) => Err(e)
        case Ok(options) =>
          Ok(Field(id, Text, labelText, required, Some(MultipleChoice(AsString(Get(data, "cardinality")), options))))
  }

  /** `toForm(id, data)`: the fields are read from the `elements` sub-map. */
  function ToForm(id: string, data: Json): (r: Decoded<Form>)
    ensures r.Ok? <==>
      && data != Null
      && forall k :: k in Entries(Get(data, "elements")) ==> ToField(k, Entries(Get(data, "elements"))[k]).Ok?
    ensures r.Err? ==> r.error == PropertyOfNull
    ensures r.Ok? ==> r.value.id == id
    ensures r.Ok? ==> r.value.fields.Keys == Entries(Get(data, "elements")).Keys
    ensures r.Ok? ==> forall k :: k in r.value.fields ==> r.value.fields[k].id == k
    ensures r.Ok? ==> forall k :: k in r.value.fields ==>
      r.value.fields[k] == ToField(k, Entries(Get(data, "elements"))[k]).value
    ensures data != Null && !Truthy(Get(data, "elements")) ==> r == Ok(Form(id, map[]))
  {
    if data == Null then Err(PropertyOfNull)
    else
      match DecodeEach(Entries(Get(data, "elements")), ToField)
      case Err(e) => Err(e)
      case Ok(fields) => Ok(Form(id, fields))
  }

  /** `toLayer(id, data)`: `name` and `forms` are always set, `color` only when stored. */
  function ToLayer(id: string, data: Json): (r: Decoded<Layer>)
    ensures r.Ok? <==>
      && data != Null
      && forall k :: k in Entries(Get(data, "forms")) ==> ToForm(k, Entries(Get(data, "forms"))[k]).Ok?
    ensures r.Err? ==> r.error == PropertyOfNull
    ensures r.Ok? ==> r.value.id == id
    ensures r.Ok? ==> r.value.color == AsString(Get(data, "color"))
    ensures r.Ok? ==> r.value.name == Some(StringMapOf(Get(data, "name")))
    ensures r.Ok? ==> r.value.forms.Some? && r.value.forms.value.Keys == Entries(Get(data, "forms")).Keys
    ensures r.Ok? ==> forall k :: k in r.value.forms.value ==> r.value.forms.value[k].id == k
    ensures r.Ok? ==> forall k :: k in r.value.forms.value ==>
      r.value.forms.value[k] == ToForm(k, Entries(Get(data, "forms"))[k]).value
    ensures data != Null && !Truthy(Get(data, "forms")) ==> r.Ok? && r.value.forms == Some(map[])
  {
    if data == Null then Err(PropertyOfNull)
    else
      match DecodeEach(Entries(Get(data, "forms")), ToForm)
      case Err(e) => Err(e)
      case Ok(forms) => Ok(Layer(id, AsString(Get(data, "color")), Some(StringMapOf(Get(data, "name"))), Some(forms)))
  }

  /** `toProject(id, data)`. */
  function ToProject(id: string, data: Json): (r: Decoded<Project>)
    ensures r.Ok? <==>
      && data != Null
      && forall k :: k in Entries(Get(data, "layers")) ==> ToLayer(k, Entries(Get(data, "layers"))[k]).Ok?
    ensures r.Err? ==> r.error == PropertyOfNull
    ensures r.Ok? ==> r.value.id == id
    ensures r.Ok? ==> r.value.title == StringMapOf(Get(data, "title"))
    ensures r.Ok? ==> r.value.description == StringMapOf(Get(data, "description"))
    ensures r.Ok? ==> r.value.layers.Keys == Entries(Get(data, "layers")).Keys
    ensures r.Ok? ==> forall k :: k in r.value.layers ==> r.value.layers[k].id == k
    ensures r.Ok? ==> forall k :: k in r.value.layers ==>
      r.value.layers[k] == ToLayer(k, Entries(Get(data, "layers"))[k]).value
    ensures data != Null && !Truthy(Get(data, "layers")) ==> r.Ok? && r.value.layers == map[]
  {
    if data == Null then Err(PropertyOfNull)
    else
      match DecodeEach(Entries(Get(data, "layers")), ToLayer)
      case Err(e) => Err(e)
      case Ok(layers) =>
        Ok(Project(id, StringMapOf(Get(data, "title")), StringMapOf(Get(data, "description")), layers))
  }

  /** `toFeature(id, data)`: `layerId` and `location` are copied, unset when not stored. */
  function ToFeature(id: string, data: Json): (r: Decoded<Feature>)
    ensures r.Ok? <==> data != Null
    ensures r.Err? ==> r.error == PropertyOfNull
    ensures r.Ok? ==> r.value.id == id
    ensures r.Ok? ==> r.value.layerId == AsString(Get(data, "layerId"))
    ensures r.Ok? ==> r.value.location == AsGeoPoint(Get(data, "location"))
  {
    if data == Null then Err(PropertyOfNull)
    else Ok(Feature(id, AsString(Get(data, "layerId")), AsGeoPoint(Get(data, "location"))))
  }

  /** `v?.toDate()`: unset stays unset, a timestamp gives its instant, anything else is not callable. */
  function ToDate(v: Option<Json>): (r: Decoded<Option<int>>)
    ensures r.Ok? <==> v.None? || v.value.Null? || v.value.Timestamp?
    ensures r.Err? ==> r.error == NotAFunction
    ensures r.Ok? ==> (r.value.Some? <==> v.Some? && v.value.Timestamp?)
    ensures r.Ok? && r.value.Some? ==> r.value.value == v.value.instant
  {
    match v
    case None => Ok(None)
    case Some(Null) => Ok(None)
    case Some(Timestamp(t)) => Ok(Some(t))
    case Some(_) => Err(NotAFunction)
  }

  /** `toAuditInfo(data)`: throws on an absent or null audit record. */
  function ToAuditInfo(data: Option<Json>): (r: Decoded<AuditInfo>)
    ensures data.None? || data.value.Null? ==> r == Err(PropertyOfNull)
    ensures r.Ok? <==>
      && data.Some? && data.value != Null
      && ToDate(Get(data.value, "clientTimestamp")).Ok?
      && ToDate(Get(data.value, "serverTimestamp")).Ok?
    ensures r.Ok? ==> r.value.user == Get(data.value, "user")
    ensures r.Ok? ==> r.value.clientTimestamp == ToDate(Get(data.value, "clientTimestamp")).value
    ensures r.Ok? ==> r.value.serverTimestamp == ToDate(Get(data.value, "serverTimestamp")).value
  {
    if data.None? || data.value == Null then Err(PropertyOfNull)
    else
      var d := data.value;
      // the server timestamp is converted first, by the logging line
      var server := ToDate(Get(d, "serverTimestamp"));
      var client := ToDate(Get(d, "clientTimestamp"));
      if server.Err? then Err(server.error)
      else if client.Err? then Err(client.error)
      else Ok(AuditInfo(Get(d, "user"), client.value, server.value))
  }

  /**
   * `toObservation(project, feature, id, data)`: the form is looked up through
   * the feature's layer; responses are passed through under their own keys.
   */
  function ToObservation(project: Project, feature: Feature, id: string, data: Json): (r: Decoded<Observation>)
    ensures data != Null && project.GetForm(feature.layerId, AsString(Get(data, "formId"))).None? ==>
      r == Err(FormNotFound)
    ensures r.Ok? <==>
      && data != Null
      && project.GetForm(feature.layerId, AsString(Get(data, "formId"))).Some?
      && ToAuditInfo(Get(data, "created")).Ok?
      && ToAuditInfo(Get(data, "lastModified")).Ok?
    ensures r.Ok? ==> r.value.id == id
    ensures r.Ok? ==> r.value.form == project.GetForm(feature.layerId, AsString(Get(data, "formId"))).value
    ensures r.Ok? ==>
      && r.value.created == ToAuditInfo(Get(data, "created")).value
      && r.value.lastModified == ToAuditInfo(Get(data, "lastModified")).value
    ensures r.Ok? ==> r.value.responses.Keys == Entries(Get(data, "responses")).Keys
    ensures r.Ok? ==> forall k :: k in r.value.responses ==>
      r.value.responses[k] == Response(Entries(Get(data, "responses"))[k])
  {
    if data == Null then Err(PropertyOfNull)
    else
      match project.GetForm(feature.layerId, AsString(Get(data, "formId")))
      case None => Err(FormNotFound)
      case Some(form) =>
        var created := ToAuditInfo(Get(data, "created"));
        var lastModified := ToAuditInfo(Get(data, "lastModified"));
        if created.Err? then Err(created.error)
        else if lastModified.Err? then Err(lastModified.error)
        else
          var responses := Entries(Get(data, "responses"));
          Ok(Observation(id, form, created.value, lastModified.value, map k | k in responses :: Response(responses[k])))
  }

  // --------------------------------------------------------------- write path

  /** `stringMap.toJS()`: a plain map of strings, which `StringMapOf` reads back unchanged. */
  function StringMapToJs(m: StringMap): (j: Json)
    ensures j.Obj? && j.fields.Keys == m.Keys
    ensures StringMapOf(Some(j)) == m
  {
    Obj(map k | k in m :: Str(m[k]))
  }

  /** The fields of a plain object with an optional member, left out when unset. */
  function WithOptional(fields: map<string, Json>, key: string, v: Option<Json>): map<string, Json> {
    if v.Some? then fields[key := v.value] else fields
  }

  /** The plain object of a choice option: its id, its label and, when set, its code. */
  function ChoiceOptionToJs(o: ChoiceOption): (j: Json)
    ensures j.Obj? && Get(j, "id") == Some(Str(o.id))
    ensures AsString(Get(j, "code")) == o.code
    ensures StringMapOf(Get(j, "label")) == o.labelText
  {
    Obj(WithOptional(map["id" := Str(o.id), "label" := StringMapToJs(o.labelText)],
                     "code", if o.code.Some? then Some(Str(o.code.value)) else None))
  }

  /** The plain object of a choice part: its options under their own keys and, when set, the cardinality. */
  function MultipleChoiceToJs(c: MultipleChoice): (j: Json)
    ensures j.Obj? && AsString(Get(j, "cardinality")) == c.cardinality
    ensures "options" in j.fields && j.fields["options"].Obj? && j.fields["options"].fields.Keys == c.options.Keys
    ensures forall k :: k in c.options ==> j.fields["options"].fields[k] == ChoiceOptionToJs(c.options[k])
  {
    Obj(WithOptional(map["options" := Obj(map k | k in c.options :: ChoiceOptionToJs(c.options[k]))],
                     "cardinality", if c.cardinality.Some? then Some(Str(c.cardinality.value)) else None))
  }

  /** The plain object of a field; the field type is written as its name. */
  function FieldToJs(f: Field): (j: Json)
    ensures j.Obj? && Get(j, "id") == Some(Str(f.id)) && Get(j, "type") == Some(Str("TEXT"))
    ensures StringMapOf(Get(j, "label")) == f.labelText
    ensures AsBool(Get(j, "required")) == f.required
    ensures "multipleChoice" in j.fields <==> f.multipleChoice.Some?
    ensures f.multipleChoice.Some? ==> j.fields["multipleChoice"] == MultipleChoiceToJs(f.multipleChoice.value)
  {
    var fields := map["id" := Str(f.id), "type" := Str("TEXT"), "label" := StringMapToJs(f.labelText)];
    var fields := WithOptional(fields, "required", if f.required.Some? then Some(Bool(f.required.value)) else None);
    Obj(WithOptional(fields, "multipleChoice",
                     if f.multipleChoice.Some? then Some(MultipleChoiceToJs(f.multipleChoice.value)) else None))
  }

  /** The plain object of a form: its questions go under `fields`, not under `elements` where `ToForm` reads them. */
  function FormToJs(f: Form): (j: Json)
    ensures j.Obj? && j.fields.Keys == {"id", "fields"}
    ensures j.fields["id"] == Str(f.id)
    ensures j.fields["fields"].Obj? && j.fields["fields"].fields.Keys == f.fields.Keys
    ensures forall k :: k in f.fields ==> j.fields["fields"].fields[k] == FieldToJs(f.fields[k])
  {
    Obj(map["id" := Str(f.id), "fields" := Obj(map k | k in f.fields :: FieldToJs(f.fields[k]))])
  }

  /**
   * The value `updateLayer` writes for a layer: `name` and `forms` become `{}`
   * when unset, every other member is copied and `id` is left out.
   */
  function LayerBody(layer: Layer): (body: Json)
    ensures body.Obj? && "id" !in body.fields
    ensures body.fields.Keys == {"name", "forms"} + (if layer.color.Some? then {"color"} else {})
    ensures body.fields["name"] == StringMapToJs(layer.name.GetOr(map[]))
    ensures body.fields["forms"].Obj? && body.fields["forms"].fields.Keys == layer.forms.GetOr(map[]).Keys
    ensures forall k :: k in layer.forms.GetOr(map[]) ==>
      body.fields["forms"].fields[k] == FormToJs(layer.forms.GetOr(map[])[k])
    ensures layer.color.Some? ==> body.fields["color"] == Str(layer.color.value)
  {
    var forms := layer.forms.GetOr(map[]);
    var fields := map[
      "name" := StringMapToJs(layer.name.GetOr(map[])),
      "forms" := Obj(map k | k in forms :: FormToJs(forms[k]))];
    Obj(WithOptional(fields, "color", if layer.color.Some? then Some(Str(layer.color.value)) else None))
  }

  /** The patch of `updateLayer(projectId, layer)`: the single field path `layers.<id>`. */
  function LayerPatch(layer: Layer): (writes: seq<FieldWrite>)
    ensures |writes| == 1 && writes[0].path == "layers." + layer.id
    ensures writes[0].value == LayerBody(layer)
  {
    [FieldWrite("layers." + layer.id, LayerBody(layer))]
  }

  /** The data that `updateProjectTitle` merges into the project: the English title only. */
  function TitleData(newTitle: string): (data: map<string, Json>)
    ensures data.Keys == {"title"} && data["title"] == Obj(map["en" := Str(newTitle)])
  {
    map["title" := Obj(map["en" := Str(newTitle)])]
  }

  // ------------------------------------------------------------------ lemmas

  /** Every entry of a null-free sub-map is null-free. */
  lemma NullFreeEntries(data: Json, key: string)
    requires NullFree(data)
    ensures forall k :: k in Entries(Get(data, key)) ==> NullFree(Entries(Get(data, key))[k])
  {
    if Get(data, key).Some? {
      assert NullFree(data.fields[key]);
    }
  }

  /** A field document without nulls always decodes. */
  lemma NullFreeFieldDecodes(id: string, data: Json)
    requires NullFree(data)
    ensures ToField(id, data).Ok?
  {
    NullFreeEntries(data, "options");
  }

  /** A form document without nulls always decodes. */
  lemma NullFreeFormDecodes(id: string, data: Json)
    requires NullFree(data)
    ensures ToForm(id, data).Ok?
  {
    var elements := Entries(Get(data, "elements"));
    NullFreeEntries(data, "elements");
    forall k | k in elements ensures ToField(k, elements[k]).Ok? {
      NullFreeFieldDecodes(k, elements[k]);
    }
  }

  /** A layer document without nulls always decodes. */
  lemma NullFreeLayerDecodes(id: string, data: Json)
    requires NullFree(data)
    ensures ToLayer(id, data).Ok?
  {
    var forms := Entries(Get(data, "forms"));
    NullFreeEntries(data, "forms");
    forall k | k in forms ensures ToForm(k, forms[k]).Ok? {
      NullFreeFormDecodes(k, forms[k]);
    }
  }

  /** Decoding is total on documents without nulls: a project document without nulls always decodes. */
  lemma NullFreeProjectDecodes(id: string, data: Json)
    requires NullFree(data)
    ensures ToProject(id, data).Ok?
  {
    var layers := Entries(Get(data, "layers"));
    NullFreeEntries(data, "layers");
    forall k | k in layers ensures ToLayer(k, layers[k]).Ok? {
      NullFreeLayerDecodes(k, layers[k]);
    }
  }

  /** A written form reads back as an empty form: its questions are under `fields`, and `ToForm` reads `elements`. */
  lemma WrittenFormReadsBackEmpty(id: string, form: Form)
    ensures ToForm(id, FormToJs(form)) == Ok(Form(id, map[]))
  {
    assert Get(FormToJs(form), "elements").None?;
  }

  /**
   * Round trip of the layer patch: decoding the written body gives back the
   * layer's id, colour, name (empty when unset) and set of form ids, but
   * every form comes back without fields.
   */
  lemma LayerRoundTrip(layer: Layer)
    ensures var r := ToLayer(layer.id, LayerBody(layer));
      && r.Ok?
      && r.value.id == layer.id
      && r.value.color == layer.color
      && r.value.name == Some(layer.name.GetOr(map[]))
      && r.value.forms.Some?
      && r.value.forms.value.Keys == layer.forms.GetOr(map[]).Keys
      && forall k :: k in r.value.forms.value ==> r.value.forms.value[k] == Form(k, map[])
  {
    var body := LayerBody(layer);
    var forms := Entries(Get(body, "forms"));
    forall k | k in forms ensures ToForm(k, forms[k]) == Ok(Form(k, map[])) {
      WrittenFormReadsBackEmpty(k, layer.forms.GetOr(map[])[k]);
    }
    assert StringMapOf(Get(body, "name")) == layer.name.GetOr(map[]);
  }

  /**
   * Applied as a field-path update, the layer patch replaces the entry of
   * that one layer and leaves every sibling layer and every other field of
   * the project document as it was (for a layer id free of dots).
   */
  lemma LayerPatchTouchesOnlyItsLayer(doc: map<string, Json>, layer: Layer)
    requires '.' !in layer.id
    ensures var after := Update(doc, LayerPatch(layer));
      && after.Keys == doc.Keys + {"layers"}
      && (forall k :: k in doc && k != "layers" ==> after[k] == doc[k])
      && Entries(Get(Obj(after), "layers")) == Entries(Get(Obj(doc), "layers"))[layer.id := LayerBody(layer)]
  {
    var body := LayerBody(layer);
    assert "layers." + layer.id == "layers" + "." + layer.id;
    assert LayerPatch(layer) == [FieldWrite("layers" + "." + layer.id, body)];
    ChildUpdateLeavesSiblings(doc, "layers", layer.id, body);
    var siblings := FieldsOf(if "layers" in doc then doc["layers"] else Obj(map[]));
    assert siblings == Entries(Get(Obj(doc), "layers"));
  }

  /**
   * The field path `layers.<id>` is split at every dot: a layer id `a.b`
   * (with `a` and `b` free of dots) writes the body at `b` inside the layer
   * entry `a`, and leaves an entry stored under `a.b` as it was.
   */
  lemma DottedLayerIdWritesNested(doc: map<string, Json>, layer: Layer, a: string, b: string)
    requires '.' !in a && '.' !in b && layer.id == a + "." + b
    ensures var before := Entries(Get(Obj(doc), "layers"));
      var after := Entries(Get(Obj(Update(doc, LayerPatch(layer))), "layers"));
      && a in after && Get(after[a], b) == Some(LayerBody(layer))
      && (layer.id in before <==> layer.id in after)
      && (layer.id in before ==> after[layer.id] == before[layer.id])
  {
    assert "layers." + layer.id == "layers" + "." + (a + "." + b);
    NestedPathUpdate(doc, "layers", a, b, LayerBody(layer));
  }

  /** The path `parent.a.b` splits into its three dot-free segments. */
  lemma NestedPathSegments(parent: string, a: string, b: string)
    requires '.' !in parent && '.' !in a && '.' !in b
    ensures Split(parent + "." + (a + "." + b), '.') == [parent, a, b]
  {
    assert parent + "." + (a + "." + b) == parent + ['.'] + (a + ['.'] + b);
    SplitAfterHead(parent, '.', a + ['.'] + b);
    SplitAfterHead(a, '.', b);
    SplitWithoutSeparator(b, '.');
  }

  /** An update at the path `parent.a.b` writes at `b` inside the entry `a` of `parent`, and no other entry of `parent` changes. */
  lemma NestedPathUpdate(doc: map<string, Json>, parent: string, a: string, b: string, v: Json)
    requires '.' !in parent && '.' !in a && '.' !in b
    ensures var before := Entries(Get(Obj(doc), parent));
      var after := Entries(Get(Obj(Update(doc, [FieldWrite(parent + "." + (a + "." + b), v)])), parent));
      && a in after && Get(after[a], b) == Some(v)
      && after.Keys == before.Keys + {a}
      && forall k :: k in before && k != a ==> after[k] == before[k]
  {
    var writes := [FieldWrite(parent + "." + (a + "." + b), v)];
    var updated := Update(doc, writes);
    var below := if parent in doc then FieldsOf(doc[parent]) else map[];
    var belowA := if a in below then FieldsOf(below[a]) else map[];
    assert updated == SetPath(doc, [parent, a, b], v) by {
      NestedPathSegments(parent, a, b);
      assert writes[1..] == [];
      assert updated == Update(SetPath(doc, [parent, a, b], v), []);
    }
    assert SetPath(doc, [parent, a, b], v) == doc[parent := Obj(below[a := Obj(belowA[b := v])])] by {
      assert [parent, a, b][1..] == [a, b] && [a, b][1..] == [b];
      assert SetPath(belowA, [b], v) == belowA[b := v];
      assert SetPath(below, [a, b], v) == below[a := Obj(belowA[b := v])];
    }
    assert Entries(Get(Obj(doc), parent)) == below;
  }

  /** Replacing one decodable entry keeps the decoded map, with that one entry replaced. */
  lemma DecodeEachReplace<T>(entries: map<string, Json>, decode: (string, Json) -> Decoded<T>, key: string, v: Json)
    requires FailsOnlyOnNull(decode)
    requires DecodeEach(entries, decode).Ok? && decode(key, v).Ok?
    ensures DecodeEach(entries[key := v], decode) == Ok(DecodeEach(entries, decode).value[key := decode(key, v).value])
  {
    var updated := entries[key := v];
    forall k | k in updated ensures decode(k, updated[k]).Ok? {
      if k != key {
        assert decode(k, entries[k]).Ok?;
      }
    }
    assert DecodeEach(updated, decode).Ok?;
    var before := DecodeEach(entries, decode).value;
    var after := DecodeEach(updated, decode).value;
    assert after.Keys == before.Keys + {key};
    forall k | k in after ensures after[k] == before[key := decode(key, v).value][k] {
      if k != key {
        assert after[k] == decode(k, entries[k]).value == before[k];
      }
    }
    assert after == before[key := decode(key, v).value];
  }

  /**
   * Saving a layer into a decodable project document gives a document that
   * still decodes, to the same project with that one layer replaced by the
   * read-back of the written body.
   */
  lemma SavedProjectDecodes(projectId: string, doc: map<string, Json>, layer: Layer)
    requires '.' !in layer.id
    requires ToProject(projectId, Obj(doc)).Ok?
    ensures ToLayer(layer.id, LayerBody(layer)).Ok?
    ensures var before := ToProject(projectId, Obj(doc)).value;
      ToProject(projectId, Obj(Update(doc, LayerPatch(layer)))) ==
        Ok(before.(layers := before.layers[layer.id := ToLayer(layer.id, LayerBody(layer)).value]))
  {
    LayerBodyDecodes(layer);
    PatchKeepsProjectFields(doc, layer);
    ProjectWithReplacedLayer(projectId, doc, Update(doc, LayerPatch(layer)), layer.id, LayerBody(layer));
  }

  /** The written body of any layer decodes. */
  lemma LayerBodyDecodes(layer: Layer)
    ensures ToLayer(layer.id, LayerBody(layer)).Ok?
  {
    LayerRoundTrip(layer);
  }

  /** The layer patch keeps the project's title and description and replaces one raw layer entry. */
  lemma PatchKeepsProjectFields(doc: map<string, Json>, layer: Layer)
    requires '.' !in layer.id
    ensures Get(Obj(Update(doc, LayerPatch(layer))), "title") == Get(Obj(doc), "title")
    ensures Get(Obj(Update(doc, LayerPatch(layer))), "description") == Get(Obj(doc), "description")
    ensures Entries(Get(Obj(Update(doc, LayerPatch(layer))), "layers")) ==
      Entries(Get(Obj(doc), "layers"))[layer.id := LayerBody(layer)]
  {
    LayerPatchTouchesOnlyItsLayer(doc, layer);
  }

  /**
   * Two project documents with the same title and description, whose layer
   * entries differ in one decodable entry, decode to the same project up to
   * that one layer.
   */
  lemma ProjectWithReplacedLayer(projectId: string, doc: map<string, Json>, after: map<string, Json>, key: string, v: Json)
    requires ToProject(projectId, Obj(doc)).Ok? && ToLayer(key, v).Ok?
    requires Get(Obj(after), "title") == Get(Obj(doc), "title")
    requires Get(Obj(after), "description") == Get(Obj(doc), "description")
    requires Entries(Get(Obj(after), "layers")) == Entries(Get(Obj(doc), "layers"))[key := v]
    ensures var before := ToProject(projectId, Obj(doc)).value;
      ToProject(projectId, Obj(after)) == Ok(before.(layers := before.layers[key := ToLayer(key, v).value]))
  {
    DecodeEachReplace(Entries(Get(Obj(doc), "layers")), ToLayer, key, v);
    ProjectDecodesFromParts(projectId, Obj(doc));
    ProjectDecodesFromParts(projectId, Obj(after));
  }

  /** A project document decodes to its title, description and decoded layer entries. */
  lemma ProjectDecodesFromParts(projectId: string, data: Json)
    requires data != Null
    ensures var layers := DecodeEach(Entries(Get(data, "layers")), ToLayer);
      ToProject(projectId, data) ==
        if layers.Err? then Err(layers.error)
        else Ok(Project(projectId, StringMapOf(Get(data, "title")), StringMapOf(Get(data, "description")), layers.value))
  {
  }

  /** Merging `{en: s}` into a map of fields sets that one entry. */
  lemma MergeEnglish(t: map<string, Json>, s: string)
    ensures MergeSet(t, map["en" := Str(s)]) == t["en" := Str(s)]
  {
  }

  /** Setting the `en` entry of a raw text sets that entry of its string map. */
  lemma StringMapOfSetEnglish(t: map<string, Json>, s: string)
    ensures StringMapOf(Some(Obj(t["en" := Str(s)]))) == StringMapOf(Some(Obj(t)))["en" := s]
  {
  }

  /**
   * `updateProjectTitle` merges `{title: {en: newTitle}}`: the decoded
   * project keeps every other language of the title, its description and its
   * layers, and gets the new English title.
   */
  lemma TitleUpdateSetsEnglishOnly(projectId: string, doc: map<string, Json>, newTitle: string)
    requires ToProject(projectId, Obj(doc)).Ok?
    ensures var before := ToProject(projectId, Obj(doc)).value;
      var after := ToProject(projectId, Obj(MergeSet(doc, TitleData(newTitle))));
      && after.Ok?
      && after.value == before.(title := before.title["en" := newTitle])
  {
    var data := TitleData(newTitle);
    var merged := MergeSet(doc, data);
    var oldTitle := StringMapOf(Get(Obj(doc), "title"));
    var newTitleDoc := Get(Obj(merged), "title");
    if "title" in doc && doc["title"].Obj? {
      var t := doc["title"].fields;
      MergeEnglish(t, newTitle);
      assert newTitleDoc == Some(Obj(t["en" := Str(newTitle)]));
      StringMapOfSetEnglish(t, newTitle);
    } else {
      assert newTitleDoc == Some(Obj(map["en" := Str(newTitle)]));
      assert oldTitle == map[];
      StringMapOfSetEnglish(map[], newTitle);
    }
    assert StringMapOf(newTitleDoc) == oldTitle["en" := newTitle];
    assert Get(Obj(merged), "layers") == Get(Obj(doc), "layers");
    assert Get(Obj(merged), "description") == Get(Obj(doc), "description");
  }
}

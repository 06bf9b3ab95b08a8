# Ground web app core, modelled in Dafny

This project models three pieces of the Ground web app (`web-ng`).

- **The document mapper of the data-store service.** It decodes the remote store's nested key/value documents into the immutable domain tree: Project → Layer → Form → Field → Option, plus features, observations and audit records. It also builds the two writes the service sends: the `layers.<id>` patch of `updateLayer` and the merged title of `updateProjectTitle`.
- **The marker projection of the map component.** On every change of (project, features, URL fragment), `renderMarkers` takes every marker off the map, empties the marker table and builds one marker per feature. A marker gets its layer's colour, defaulting to red. It is emphasised exactly when its feature is the one named by the fragment's `f` parameter.
- **The layer edit dialog.**
  - `onProjectLoaded` resolves the layer being edited, or allocates a new one.
  - `onSave` assembles the layer handed to `updateLayer`.
  - `setLayerName` keeps the typed name.

Files:

- `wrappers.dfy`: `Option` and `Result`.
- `strings.dfy`: one-character `split`, `indexOf` and decimal ids.
- `documents.dfy`: the raw document value `Json` and JavaScript truthiness.
- `domain.dfy`: the domain entities as datatypes.
- `store.dfy`: the store's field-path `update` and merging `set`, as functions on a document.
- `data_store.dfy`: the decoders, the write path, and the lemmas relating them.
- `ids.dfy`: the id source behind `generateId`, as a counter-backed class.
- `map_view.dfy`: fragment parsing, the icon rule, the expected marker table, and the `MapComponent` class.
- `layer_dialog.dfy`: the `LayerDialog` class and the saved layer.

How the source's behaviour is represented:

- **Exceptions.** Where the source throws (reading a property of `null`, calling `toDate` on something that is not a timestamp, the dialog's two `Error`s), the model returns an `Err` or a `thrown` value.
- **Form lookup.** `Project.getForm` is not part of this model's sources; only its call in `toObservation` is. `Domain.Project.GetForm` is a partial lookup through the layer, then its forms. That a miss throws is assumed, and the model returns `FormNotFound` for it.
- **Stateful code.** The marker table and the dialog are classes whose methods update their fields. Each method's contract ties the new state to a specification function.

## Model

| member | source | states |
|---|---|---|
| DataStore.Entries | web-ng/src/app/services/data-store/data-store.service.ts:40-42 | a missing or falsy sub-map has no entries; a map value gives exactly its own fields, and entries only ever come from a map value |
| DataStore.DecodeEach | web-ng/src/app/services/data-store/data-store.service.ts:168-173 | decoding a sub-map succeeds iff every entry decodes; the result's keys are exactly the raw sub-keys, each value is that entry's decoding, and a failure is some entry's failure |
| DataStore.ToOption | web-ng/src/app/services/data-store/data-store.service.ts:282-284 | throws only on a null document; the id is the key; `code` is copied and stays unset when not stored; the label is the string map of `label` |
| DataStore.ToField | web-ng/src/app/services/data-store/data-store.service.ts:249-266 | always type TEXT; the label is the string map of `label`; `required` copied; the multiple-choice part is present iff `options` is truthy, carries `cardinality` unchanged, and has exactly the raw option keys, each option being `ToOption` of its raw entry under its own key; fails only on a null document or a null option |
| DataStore.ToForm | web-ng/src/app/services/data-store/data-store.service.ts:205-215 | fields are read from `elements`: exactly its keys, each field being `ToField` of its raw entry and identified by its key; a missing `elements` gives an empty form; fails iff the document or an element fails |
| DataStore.ToLayer | web-ng/src/app/services/data-store/data-store.service.ts:184-196 | id is the key, `color` copied (unset when not stored), `name` always set to the string map of `name`, `forms` always set with exactly the raw form keys, each form being `ToForm` of its raw entry and identified by its key; missing `forms` gives an empty map; fails iff the document or a form fails |
| DataStore.ToProject | web-ng/src/app/services/data-store/data-store.service.ts:163-175 | the id is the key; title and description are the string maps of `title` and `description`; layers keyed exactly by the raw `layers` keys, each layer being `ToLayer` of its raw entry and identified by its key; missing `layers` gives an empty map; fails iff the document or a layer fails |
| DataStore.NullFreeProjectDecodes | web-ng/src/app/services/data-store/data-store.service.ts:163-175 | decoding never fails on a project document that holds no nulls, at any depth |
| DataStore.ToFeature | web-ng/src/app/services/data-store/data-store.service.ts:293-295 | id is the key; `layerId` and `location` copied, unset when not stored |
| DataStore.ToDate | web-ng/src/app/services/data-store/data-store.service.ts:358-359 | `?.toDate()`: unset or null stays unset, a timestamp gives its instant, anything else throws |
| DataStore.ToAuditInfo | web-ng/src/app/services/data-store/data-store.service.ts:353-361 | throws on an absent or null record; `user` and both timestamps are copied, unset when not stored |
| DataStore.ToObservation | web-ng/src/app/services/data-store/data-store.service.ts:316-334 | the form is `project.getForm(feature.layerId, formId)` and a failed lookup is an error; both audit records decoded; responses keyed by the raw keys with values passed through unchanged |
| Domain.Project.GetForm | web-ng/src/app/services/data-store/data-store.service.ts:324 | finds a form iff the layer exists, has forms, and holds that form id; the result is that entry |
| DataStore.StringMapToJs | web-ng/src/app/services/data-store/data-store.service.ts:86 | the plain object written for a string map reads back as the same string map |
| DataStore.FormToJs | web-ng/src/app/services/data-store/data-store.service.ts:87 | a written form has exactly the keys `id` and `fields`: `id` holds the form's id, and `fields` holds each field's plain object under its own id |
| DataStore.FieldToJs | web-ng/src/app/services/data-store/data-store.service.ts:87 | a written field holds its id, the type `TEXT`, a label that reads back as the field's label and a `required` that reads back as the field's; `multipleChoice` is present iff the field has a choice part, and is then that part's plain object |
| DataStore.MultipleChoiceToJs | web-ng/src/app/services/data-store/data-store.service.ts:87 | a written choice part holds a `cardinality` that reads back as the part's, and each option's plain object under its own key |
| DataStore.ChoiceOptionToJs | web-ng/src/app/services/data-store/data-store.service.ts:87 | a written option holds its id, and a code and label that read back as the option's |
| DataStore.LayerBody | web-ng/src/app/services/data-store/data-store.service.ts:78-91 | the written layer has no `id`; `name` and `forms` are `{}` when unset and their plain form otherwise; `color` is copied when set and is the only other key (see Left out for a `color` that is present but undefined) |
| DataStore.LayerPatch | web-ng/src/app/services/data-store/data-store.service.ts:84-90 | the patch is the single field path `layers.<layer id>` holding the layer body |
| DataStore.LayerPatchTouchesOnlyItsLayer | web-ng/src/app/services/data-store/data-store.service.ts:78-91 | for a layer id without dots: applied as a field-path update, the patch replaces that one layer entry and leaves sibling layers and every other project field unchanged |
| DataStore.DottedLayerIdWritesNested | web-ng/src/app/services/data-store/data-store.service.ts:85 | the field path is split at every dot: a layer id `a.b` (with `a` and `b` free of dots) writes the body at `b` inside the layer entry `a`, and an entry stored under `a.b` stays as it was |
| DataStore.NestedPathUpdate | web-ng/src/app/services/data-store/data-store.service.ts:84-90 | an update at `parent.a.b` writes the value at `b` inside the entry `a` of `parent`, adds `a` if missing, and keeps every other entry of `parent` |
| DataStore.WrittenFormReadsBackEmpty | web-ng/src/app/services/data-store/data-store.service.ts:205-214 | a written form reads back with its id and no fields, because the write path uses `fields` and the decoder reads `elements` |
| DataStore.LayerRoundTrip | web-ng/src/app/services/data-store/data-store.service.ts:184-196 | decoding the written body gives back the id, the colour, the name (empty when unset) and the set of form ids, with every form empty |
| DataStore.SavedProjectDecodes | web-ng/src/app/services/data-store/data-store.service.ts:78-91 | for a layer id without dots: after the patch, a decodable project document still decodes, to the same project with that one layer replaced by the read-back of the body |
| DataStore.TitleData | web-ng/src/app/services/data-store/data-store.service.ts:73 | the merged data is `{title: {en: newTitle}}` |
| DataStore.TitleUpdateSetsEnglishOnly | web-ng/src/app/services/data-store/data-store.service.ts:69-75 | merging the title data into a decodable project changes the decoded project only in the English title |
| Store.SetPath | web-ng/src/app/services/data-store/data-store.service.ts:84-90 | a field-path write adds or replaces only the path's first key, leaving every other top-level key as it was |
| Store.MergeSet | web-ng/src/app/services/data-store/data-store.service.ts:73 | a merging `set` keeps every stored key not in the data and yields exactly the keys of both |
| Store.ChildUpdateLeavesSiblings | web-ng/src/app/services/data-store/data-store.service.ts:85 | an update at `parent.child` replaces exactly that child of `parent` and nothing else |
| Ids.IdAllocator.GenerateId | web-ng/src/app/services/data-store/data-store.service.ts:363-365 | returns an id never handed out before and records it as issued |
| MapView.ParseParams | web-ng/src/app/components/map/map.component.ts:86 | an absent or empty fragment has no parameters |
| MapView.ParseParam | web-ng/src/app/components/map/map.component.ts:86 | a piece is split at its first `=`; a piece without `=` has the empty value |
| MapView.ParseParamsCons | web-ng/src/app/components/map/map.component.ts:86 | a fragment is parsed piece by piece: the first `&`-free piece gives the first parameter, and the rest of the fragment gives the others in order |
| MapView.FocusAfterOtherParam | web-ng/src/app/components/map/map.component.ts:85-89 | an `f` parameter after a parameter of another name is still found: `x=1&f=<id>` focuses `<id>` |
| MapView.ClickFragmentParams | web-ng/src/app/components/map/map.component.ts:107-108 | the fragment a click writes holds exactly the one parameter `f` with the feature id |
| MapView.ParamGetIsFirst | web-ng/src/app/components/map/map.component.ts:87-88 | `get` yields the value of the first parameter with that name, and nothing exactly when there is none |
| MapView.FocusedIdIsFirstF | web-ng/src/app/components/map/map.component.ts:85-89 | the focused id is the first `f` parameter's value when it is non-empty, otherwise `''` |
| MapView.FragmentRoundTrip | web-ng/src/app/components/map/map.component.ts:107-108 | the fragment written by a click on a marker parses back to that feature's id |
| MapView.RenderIcon | web-ng/src/app/components/map/map.component.ts:117-127 | the icon has the given colour and opacity 1; its scale is 1.5 when selected and 1 otherwise; its anchor is (7, 20) |
| MapView.LayerColor | web-ng/src/app/components/map/map.component.ts:92 | the layer's colour when set and non-empty, else `'red'` |
| MapView.MarkerFor | web-ng/src/app/components/map/map.component.ts:92-109 | a marker sits at the feature's location, has its layer's colour, is emphasised iff the feature is focused, and its click writes `f=<id>` |
| MapView.RenderablePrefix | web-ng/src/app/components/map/map.component.ts:91-98 | counts the features before the first one whose layer is missing or that has no location, where the source throws |
| MapView.MarkerTableKeys | web-ng/src/app/components/map/map.component.ts:91-113 | the rebuilt table has exactly one entry per distinct feature id |
| MapView.MarkerTableEntry | web-ng/src/app/components/map/map.component.ts:112 | a feature that no later feature shares its id with is shown by its own marker |
| MapView.EmphasisIffFocused | web-ng/src/app/components/map/map.component.ts:100 | in the table, a marker is emphasised iff its id is the focused id |
| MapView.SelectionScenario | web-ng/src/app/components/map/map.component.ts:91-113 | two features in a red and a blue layer, with the second focused: both are shown at their locations in their colours, and only the second is emphasised |
| MapView.ScenarioFragmentFocusesF2 | web-ng/src/app/components/map/map.component.ts:84-89 | the scenario's fragment `f=f2`, which a click on f2 writes, focuses f2 |
| MapView.MapComponent.ClearMarkers | web-ng/src/app/components/map/map.component.ts:82-83 | every marker of the table is taken off the map and the table is emptied |
| MapView.MapComponent.ShowMarker | web-ng/src/app/components/map/map.component.ts:94-112 | a new marker is put on the map and filed under the feature id, replacing any entry there and keeping the others |
| MapView.MapComponent.RenderMarkers | web-ng/src/app/components/map/map.component.ts:81-113 | all old markers are off the map; the table holds only new markers, all on the map, showing the expected marker table of the features up to the first faulty one; `ok` iff no feature was faulty |
| MapView.MapComponent.ShowFeatures | web-ng/src/app/components/map/map.component.ts:91-112 | starting from an empty table, the loop files one fresh on-map marker per feature up to the first faulty one, so the table shows the expected marker table of that prefix; `ok` iff no feature was faulty |
| MapView.RenderTwice | web-ng/src/app/components/map/map.component.ts:81-113 | recomputing twice from the same inputs shows the same marker table |
| LayerDialogs.LayerNameOf | web-ng/src/app/components/layer-dialog/layer-dialog.component.ts:80 | the layer's name in the language, or `''` when the layer, its name or the entry is missing |
| LayerDialogs.QuestionForm | web-ng/src/app/components/layer-dialog/layer-dialog.component.ts:89-104 | a form with id `formId` and exactly one field, keyed and identified by `fieldId`: type TEXT, not required, label `{en: question}` |
| LayerDialogs.SavedLayer | web-ng/src/app/components/layer-dialog/layer-dialog.component.ts:113-126 | keeps the layer id and the loaded colour; the name is the loaded name with the language entry set, and unset when the layer had none; one form keyed by `formId` iff the question is non-empty |
| LayerDialogs.LayerDialog.constructor | web-ng/src/app/components/layer-dialog/layer-dialog.component.ts:55-63 | language `en`, the given layer id, no layer or project yet, an empty question |
| LayerDialogs.LayerDialog.OnProjectLoaded | web-ng/src/app/components/layer-dialog/layer-dialog.component.ts:71-86 | `:new` becomes a fresh id with a bare layer; any other id is looked up; the name is filled; a missing layer throws and leaves the project id unchanged; otherwise the project id is set |
| LayerDialogs.LayerDialog.OnSave | web-ng/src/app/components/layer-dialog/layer-dialog.component.ts:106-135 | without a loaded project it throws before drawing any id; otherwise it draws two fresh, distinct ids and yields the `updateLayer` call with the saved layer |
| LayerDialogs.LayerDialog.SetLayerName | web-ng/src/app/components/layer-dialog/layer-dialog.component.ts:143-145 | changes the typed name and nothing else |
| LayerDialogs.LayerDialog.SetQuestion | web-ng/src/app/components/layer-dialog/layer-dialog.component.ts:61-63 | changes the question control's value and nothing else |
| LayerDialogs.SavedLayerReadsBack | web-ng/src/app/components/layer-dialog/layer-dialog.component.ts:113-130 | for a layer id without dots: after a save, the project still decodes; the layer keeps its colour; the typed name survives only if the layer already had a name (else the name is empty); the layer has no forms, or one form with no questions; the other layers are unchanged |
| LayerDialogs.SavedLayerNameReadsBack | web-ng/src/app/components/layer-dialog/layer-dialog.component.ts:116 | the saved body reads back with the loaded colour, and with the loaded name plus the typed entry, or an empty name |
| LayerDialogs.SavedLayerFormsReadBack | web-ng/src/app/components/layer-dialog/layer-dialog.component.ts:117-125 | the saved body reads back with no forms for an empty question, else only the new form id, with no questions |

## Left out

- `Object.keys` on a truthy string or array enumerates its indices; the model gives any non-map value no entries.
- Values of the wrong JavaScript type are read as absent. This covers a numeric colour, a non-boolean `required`, and a non-string `code`, `cardinality`, `layerId` or `formId`. The source would pass such values through untyped.
- `DataStore.StringMapOf`: a non-string entry of a localized text (`title`, `description`, `name`, `label`) is dropped. The source's `StringMap(...)` keeps it, untyped.
- `DataStore.AsGeoPoint`: only a store geographic point is read as a location. A `location` stored as a plain map with `latitude` and `longitude` reads as unset, so `RenderMarkers` treats that feature as faulty and stops. The source reads `.latitude` and `.longitude` from any object and does not throw there.
- The domain model classes, `StringMap` and `FieldType` are not part of this model. Their shapes come from the constructor calls in the mapper. A written field's type is the text `"TEXT"`, and its choices go under `multipleChoice`.
- `toDate` converts a store timestamp into a date. The model keeps the timestamp's instant as an opaque integer. Latitudes and longitudes are opaque reals that are only copied.
- Firestore transport, and the service's own readers and listeners, are not modelled. This covers `loadProject$`, `loadFeature$`, `user$`, `features$` and `observations$`, as well as promises and failures of `update` (for example a missing document). The store is a document value that `Update` and `MergeSet` change.
- `generateId` mints ids from the store. The model stands in a counter. The distinctness of its ids is a property of this stand-in, not a promise of the store.
- rxjs streams, `combineLatest`, subscriptions and `ngOnDestroy` are not modelled. Each emission is one call of `RenderMarkers` or `OnProjectLoaded` only until a call throws. A throw in the subscriber ends the subscription, so later emissions call nothing; the model does not capture that ending.
- Google Maps objects are not modelled. This covers the map, `LatLng` (including its clamping of coordinates), the icon path, the `Point` anchor and click listeners. A marker is its options plus an on-map flag, and a click is the fragment it writes.
- Router navigation, `MatDialogRef`, `onClose`, `alert` and the `FormBuilder` widget are not modelled. The question control is a field that `SetQuestion` sets.
- `DataStore.LayerPatchTouchesOnlyItsLayer`: promised only for a layer id without dots. The source builds the path `layers.<id>` from any id, and the store splits it at every dot; `DottedLayerIdWritesNested` states what then happens. The dialog's id comes from the route or from a stored key, so nothing keeps it free of dots.
- `DataStore.SavedProjectDecodes`: promised only for a layer id without dots, for the same reason.
- `LayerDialogs.SavedLayerReadsBack`: promised only for a layer id without dots, for the same reason.
- `MapView.ParseParams`: the percent-decoding (`decodeURIComponent`) of keys and values is not modelled; `+` is kept as it is, by the source and the model alike. For that reason `FragmentRoundTrip` asks only that the id be free of `&`. An id holding `%` escapes is decoded by the source but not by the model. A malformed escape such as `f=%` makes the source throw after the marker table has been cleared; the model reads it literally and renders the markers.
- `DataStore.LayerBody`: the rest spread of `updateLayer` copies a `color` member that is present but undefined, as on a layer the dialog builds for a `:new` id. The model leaves the key out. How the store treats an undefined value is not part of this model.
- `MapView.MapComponent.RenderMarkers`: a feature id shown twice leaves the earlier marker on the map but out of the table. The contract speaks only of the table's markers and of the markers from before the call.
- `LayerDialogs.LayerDialog.constructor`: the source leaves `layerName` undefined until a project arrives, and the model starts it as `""`. Nothing reads it before then, because `onSave` throws first.

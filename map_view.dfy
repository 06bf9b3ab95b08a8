/**
 * The map component's marker projection: on every change of (project,
 * features, fragment) it takes every rendered marker off the map, empties
 * its marker table, and builds one marker per feature, emphasising the one
 * whose id the fragment's `f` parameter names.
 */
module MapView {
  import opened Wrappers
  import opened Domain
  import opened Strings

  // ----------------------------------------------------------- the fragment

  /** Drops one leading `?`, as the query-string parser does. */
  function StripQueryMark(s: string): string {
    if |s| > 0 && s[0] == '?' then s[1..] else s
  }

  /** One `key=value` piece: split at the first `=`; a piece without `=` has the value `""`. */
  function ParseParam(piece: string): (param: (string, string))
    ensures '=' !in piece ==> param == (piece, "")
    ensures '=' in piece ==> '=' !in param.0 && piece == param.0 + "=" + param.1
  {
    var eq := IndexOf(piece, '=');
    if eq == -1 then (piece, "")
    else
      assert piece == piece[..eq] + "=" + piece[eq + 1..];
      (piece[..eq], piece[eq + 1..])
  }

  /** `new HttpParams({fromString: fragment})`: the `&`-separated parameters in order; none for an absent or empty fragment. */
  function ParseParams(fragment: Option<string>): (params: seq<(string, string)>)
    ensures fragment.None? || fragment.value == "" ==> params == []
  {
    if fragment.None? || fragment.value == "" then []
    else
      var pieces := Split(StripQueryMark(fragment.value), '&');
      seq(|pieces|, i requires 0 <= i < |pieces| => ParseParam(pieces[i]))
  }

  /** `params.get(key)`: the value of the first parameter named `key`. */
  function ParamGet(params: seq<(string, string)>, key: string): Option<string> {
    if params == [] then None
    else if params[0].0 == key then Some(params[0].1)
    else
      ParamGet(params[1..], key)
  }

  /** `get` finds the first parameter named `key`, and finds nothing exactly when there is none. */
  lemma {:induction false} ParamGetIsFirst(params: seq<(string, string)>, key: string)
    ensures ParamGet(params, key).None? <==> forall i :: 0 <= i < |params| ==> params[i].0 != key
    ensures ParamGet(params, key).Some? ==>
      exists i :: 0 <= i < |params| && params[i] == (key, ParamGet(params, key).value)
                  && forall j :: 0 <= j < i ==> params[j].0 != key
    decreases |params|
  {
    if params != [] && params[0].0 != key {
      ParamGetIsFirst(params[1..], key);
      if ParamGet(params, key).Some? {
        var i :| 0 <= i < |params[1..]| && params[1..][i] == (key, ParamGet(params, key).value)
                 && forall j :: 0 <= j < i ==> params[1..][j].0 != key;
        assert params[i + 1] == (key, ParamGet(params, key).value);
        forall j | 0 <= j < i + 1 ensures params[j].0 != key {
          if j > 0 { assert params[j] == params[1..][j - 1]; }
        }
      } else {
        forall i | 0 <= i < |params| ensures params[i].0 != key {
          if i > 0 { assert params[i] == params[1..][i - 1]; }
        }
      }
    } else if params != [] {
      assert params[0] == (key, ParamGet(params, key).value);
    }
  }

  /** The focused feature id: the fragment's `f` parameter when it is non-empty, otherwise `""`. */
  function FocusedId(fragment: Option<string>): string {
    var f := ParamGet(ParseParams(fragment), "f");
    if f.Some? && f.value != "" then f.value else ""
  }

  /**
   * The focused id is the value of the first `f` parameter of the fragment;
   * nothing is focused when there is no such parameter or its value is empty.
   */
  lemma FocusedIdIsFirstF(fragment: Option<string>)
    ensures var params := ParseParams(fragment);
      var id := FocusedId(fragment);
      && (id != "" ==>
            exists i :: 0 <= i < |params| && params[i] == ("f", id) && forall j :: 0 <= j < i ==> params[j].0 != "f")
      && (id == "" ==>
            || (forall i :: 0 <= i < |params| ==> params[i].0 != "f")
            || exists i :: 0 <= i < |params| && params[i] == ("f", "") && forall j :: 0 <= j < i ==> params[j].0 != "f")
  {
    ParamGetIsFirst(ParseParams(fragment), "f");
  }

  /** The fragment a click on a feature's marker navigates to. */
  function ClickFragment(featureId: string): string {
    "f=" + featureId
  }

  /** The fragment a click writes holds the one parameter `f` with the feature id. */
  lemma ClickFragmentParams(featureId: string)
    requires '&' !in featureId
    ensures ParseParams(Some(ClickFragment(featureId))) == [("f", featureId)]
  {
    var fragment := ClickFragment(featureId);
    assert StripQueryMark(fragment) == fragment;
    SplitWithoutSeparator(fragment, '&');
    assert fragment == "f" + ['='] + featureId;
    IndexOfAfterHead("f", '=', featureId);
    assert fragment[..1] == "f" && fragment[2..] == featureId;
    assert ParseParam(fragment) == ("f", featureId);
  }

  /** Clicking a marker selects its feature: the written fragment parses back to the feature id. */
  lemma FragmentRoundTrip(featureId: string)
    requires '&' !in featureId
    ensures FocusedId(Some(ClickFragment(featureId))) == featureId
  {
    ClickFragmentParams(featureId);
  }

  /**
   * A fragment is parsed piece by piece: a first piece free of `&` gives the
   * first parameter, and the rest of the fragment gives the others.
   */
  lemma ParseParamsCons(piece: string, rest: string)
    requires '&' !in piece && rest != ""
    requires piece == [] || piece[0] != '?'
    requires rest[0] != '?'
    ensures ParseParams(Some(piece + "&" + rest)) == [ParseParam(piece)] + ParseParams(Some(rest))
  {
    var fragment := piece + "&" + rest;
    assert Split(fragment, '&') == [piece] + Split(rest, '&') by {
      assert fragment == piece + ['&'] + rest;
      SplitAfterHead(piece, '&', rest);
    }
    ParamsArePieces(fragment);
    ParamsArePieces(rest);
    ParsedCons(ParseParams(Some(fragment)), ParseParams(Some(rest)), piece, Split(rest, '&'));
  }

  /** Parsing a list of pieces with one piece in front gives that piece's parameter in front. */
  lemma ParsedCons(params: seq<(string, string)>, tail: seq<(string, string)>, piece: string, pieces: seq<string>)
    requires |params| == 1 + |pieces| && |tail| == |pieces|
    requires forall i :: 0 <= i < |params| ==> params[i] == ParseParam(([piece] + pieces)[i])
    requires forall i :: 0 <= i < |pieces| ==> tail[i] == ParseParam(pieces[i])
    ensures params == [ParseParam(piece)] + tail
  {
    forall i | 0 <= i < |params| ensures params[i] == ([ParseParam(piece)] + tail)[i] {
      if i > 0 {
        assert ([piece] + pieces)[i] == pieces[i - 1];
      }
    }
  }

  /** Each parameter of a fragment without a leading `?` is the parse of the piece at its position. */
  lemma ParamsArePieces(fragment: string)
    requires fragment != "" && fragment[0] != '?'
    ensures |ParseParams(Some(fragment))| == |Split(fragment, '&')|
    ensures forall i :: 0 <= i < |Split(fragment, '&')| ==> ParseParams(Some(fragment))[i] == ParseParam(Split(fragment, '&')[i])
  {
    assert StripQueryMark(fragment) == fragment;
  }

  /** An `f` parameter after another parameter is still found: `x=1&f=<id>` focuses `<id>`. */
  lemma FocusAfterOtherParam(piece: string, featureId: string)
    requires '&' !in piece && '&' !in featureId
    requires piece == [] || piece[0] != '?'
    requires ParseParam(piece).0 != "f"
    ensures FocusedId(Some(piece + "&" + ClickFragment(featureId))) == featureId
  {
    ParseParamsCons(piece, ClickFragment(featureId));
    ClickFragmentParams(featureId);
    var params := ParseParams(Some(piece + "&" + ClickFragment(featureId)));
    assert params == [ParseParam(piece), ("f", featureId)];
    assert params[1..] == [("f", featureId)];
    assert ParamGet(params, "f") == ParamGet([("f", featureId)], "f") == Some(featureId);
  }

  // ---------------------------------------------------------- the markers

  const DefaultColor := "red"

  /** The marker symbol; its path drawing is left out. */
  datatype Icon = Icon(fillColor: string, fillOpacity: int, scale: real, anchorX: int, anchorY: int)

  /** `renderIcon(color, isSelected)`: a selected marker is drawn half as large again. */
  function RenderIcon(color: string, isSelected: bool): (icon: Icon)
    ensures icon.fillColor == color && icon.fillOpacity == 1
    ensures icon.scale > 1.0 <==> isSelected
    ensures icon.scale == 1.0 || icon.scale == 1.5
    ensures (icon.anchorX, icon.anchorY) == (7, 20)
  {
    Icon(color, 1, if isSelected then 1.5 else 1.0, 7, 20)
  }

  /** What a marker is built from: its position, its icon and where a click navigates. */
  datatype MarkerOptions = MarkerOptions(position: GeoPoint, icon: Icon, clickFragment: string)

  /** A feature can be drawn: its layer exists in the project and it has a location. */
  predicate Renderable(project: Project, feature: Feature) {
    feature.layerId.Some? && feature.layerId.value in project.layers && feature.location.Some?
  }

  /** `layer.color || 'red'`: the layer's colour when set and non-empty. */
  function LayerColor(project: Project, layerId: string): (color: string)
    requires layerId in project.layers
    ensures color != ""
    ensures project.layers[layerId].color.Some? && project.layers[layerId].color.value != "" ==>
      color == project.layers[layerId].color.value
    ensures project.layers[layerId].color.None? || project.layers[layerId].color.value == "" ==>
      color == DefaultColor
  {
    var c := project.layers[layerId].color;
    if c.Some? && c.value != "" then c.value else DefaultColor
  }

  /** The marker of one feature, given the focused id. */
  function MarkerFor(project: Project, feature: Feature, focusedId: string): (m: MarkerOptions)
    requires Renderable(project, feature)
    ensures m.position == feature.location.value
    ensures m.icon.fillColor == LayerColor(project, feature.layerId.value)
    ensures m.icon.scale > 1.0 <==> feature.id == focusedId
    ensures m.clickFragment == ClickFragment(feature.id)
  {
    MarkerOptions(
      feature.location.value,
      RenderIcon(LayerColor(project, feature.layerId.value), feature.id == focusedId),
      ClickFragment(feature.id))
  }

  /** How many features, from the first, can be drawn before the first that cannot. */
  function RenderablePrefix(project: Project, features: seq<Feature>): (n: nat)
    ensures n <= |features|
    ensures forall i :: 0 <= i < n ==> Renderable(project, features[i])
    ensures n < |features| ==> !Renderable(project, features[n])
  {
    if features == [] || !Renderable(project, features[0]) then 0
    else 1 + RenderablePrefix(project, features[1..])
  }

  /** The prefix ends at the first feature that cannot be drawn, or at the end. */
  lemma {:induction false} RenderablePrefixStops(project: Project, features: seq<Feature>, i: nat)
    requires i <= |features|
    requires forall j :: 0 <= j < i ==> Renderable(project, features[j])
    requires i < |features| ==> !Renderable(project, features[i])
    ensures RenderablePrefix(project, features) == i
    decreases i
  {
    if i > 0 {
      RenderablePrefixStops(project, features[1..], i - 1);
    }
  }

  /**
   * The expected marker table after the first `n` features: each feature's
   * marker under its id, a later feature replacing an earlier one.
   */
  function MarkerTable(project: Project, features: seq<Feature>, n: nat, focusedId: string): map<string, MarkerOptions>
    requires n <= |features|
    requires forall i :: 0 <= i < n ==> Renderable(project, features[i])
  {
    if n == 0 then map[]
    else
      var last := features[n - 1];
      MarkerTable(project, features, n - 1, focusedId)[last.id := MarkerFor(project, last, focusedId)]
  }

  /** The table holds exactly one entry per distinct feature id. */
  lemma {:induction false} MarkerTableKeys(project: Project, features: seq<Feature>, n: nat, focusedId: string)
    requires n <= |features|
    requires forall i :: 0 <= i < n ==> Renderable(project, features[i])
    ensures MarkerTable(project, features, n, focusedId).Keys == set i | 0 <= i < n :: features[i].id
  {
    if n > 0 {
      MarkerTableKeys(project, features, n - 1, focusedId);
      var ids := set i | 0 <= i < n :: features[i].id;
      var frontIds := set i | 0 <= i < n - 1 :: features[i].id;
      assert ids == frontIds + {features[n - 1].id} by {
        forall id | id in ids ensures id in frontIds + {features[n - 1].id} {
          var i :| 0 <= i < n && features[i].id == id;
          if i < n - 1 { assert id in frontIds; }
        }
      }
    }
  }

  /** The entry of a feature that no later feature shares its id with is that feature's marker. */
  lemma {:induction false} MarkerTableEntry(project: Project, features: seq<Feature>, n: nat, focusedId: string, i: nat)
    requires n <= |features|
    requires forall j :: 0 <= j < n ==> Renderable(project, features[j])
    requires i < n
    requires forall j :: i < j < n ==> features[j].id != features[i].id
    ensures features[i].id in MarkerTable(project, features, n, focusedId)
    ensures MarkerTable(project, features, n, focusedId)[features[i].id] == MarkerFor(project, features[i], focusedId)
  {
    if i < n - 1 {
      MarkerTableEntry(project, features, n - 1, focusedId, i);
    }
  }

  /** Exactly the focused feature's marker is emphasised. */
  lemma {:induction false} EmphasisIffFocused(project: Project, features: seq<Feature>, n: nat, focusedId: string)
    requires n <= |features|
    requires forall i :: 0 <= i < n ==> Renderable(project, features[i])
    ensures forall id :: id in MarkerTable(project, features, n, focusedId) ==>
      (MarkerTable(project, features, n, focusedId)[id].icon.scale > 1.0 <==> id == focusedId)
  {
    if n > 0 {
      EmphasisIffFocused(project, features, n - 1, focusedId);
    }
  }

  /**
   * With features f1 at (1,1) in a red layer and f2 at (2,2) in a blue
   * layer, and f2 focused (the fragment a click on f2 writes, by
   * `FragmentRoundTrip`), both get a marker in their layer's colour and only
   * f2 is emphasised.
   */
  lemma SelectionScenario()
    ensures
      var l1 := Layer("L1", Some("red"), Some(map[]), Some(map[]));
      var l2 := Layer("L2", Some("blue"), Some(map[]), Some(map[]));
      var project := Project("p", map[], map[], map["L1" := l1, "L2" := l2]);
      var features := [Feature("f1", Some("L1"), Some(GeoPoint(1.0, 1.0))),
                       Feature("f2", Some("L2"), Some(GeoPoint(2.0, 2.0)))];
      var table := MarkerTable(project, features, 2, "f2");
      && table.Keys == {"f1", "f2"}
      && table["f2"].icon == RenderIcon("blue", true)
      && table["f1"].icon == RenderIcon("red", false)
      && table["f1"].position == GeoPoint(1.0, 1.0)
      && table["f2"].position == GeoPoint(2.0, 2.0)
  {
    var l1 := Layer("L1", Some("red"), Some(map[]), Some(map[]));
    var l2 := Layer("L2", Some("blue"), Some(map[]), Some(map[]));
    var project := Project("p", map[], map[], map["L1" := l1, "L2" := l2]);
    var features := [Feature("f1", Some("L1"), Some(GeoPoint(1.0, 1.0))),
                     Feature("f2", Some("L2"), Some(GeoPoint(2.0, 2.0)))];
    var focusedId := "f2";
    assert LayerColor(project, "L1") == "red" && LayerColor(project, "L2") == "blue";
    assert Renderable(project, features[0]) && Renderable(project, features[1]);
    var t0 := MarkerTable(project, features, 0, focusedId);
    assert t0 == map[];
    var t1 := MarkerTable(project, features, 1, focusedId);
    assert t1 == t0[features[0].id := MarkerFor(project, features[0], focusedId)];
    assert MarkerTable(project, features, 2, focusedId) == t1["f2" := MarkerFor(project, features[1], focusedId)];
  }

  /** The scenario's fragment `f=f2`, written by a click on f2, focuses f2. */
  lemma ScenarioFragmentFocusesF2()
    ensures FocusedId(Some("f=f2")) == "f2"
  {
    assert ClickFragment("f2") == "f=f2";
    FragmentRoundTrip("f2");
  }

  // ------------------------------------------------------------- the state

  /** A marker on the rendering surface; `SetMap(false)` takes it off the map. */
  class Marker {
    const options: MarkerOptions
    var onMap: bool

    constructor (options: MarkerOptions)
      ensures this.options == options && onMap
    {
      this.options := options;
      onMap := true;
    }
  }

  class MapComponent {
    var markers: map<string, Marker>

    constructor ()
      ensures markers == map[]
    {
      markers := map[];
    }

    /** What the marker table shows: each entry's marker options. */
    function Descriptors(): map<string, MarkerOptions>
      reads this
    {
      map id | id in markers :: markers[id].options
    }

    /** The marker table holds exactly the entries of `table`, each marker built from its entry. */
    predicate Shows(table: map<string, MarkerOptions>)
      reads this
    {
      markers.Keys == table.Keys && forall id :: id in markers ==> markers[id].options == table[id]
    }

    /** What the table shows is its descriptors. */
    lemma ShowsDescriptors(table: map<string, MarkerOptions>)
      requires Shows(table)
      ensures Descriptors() == table
    {
    }

    /** Takes every marker of the table off the map and empties the table. */
    method ClearMarkers()
      modifies this, markers.Values
      ensures forall m :: m in old(markers.Values) ==> !m.onMap
      ensures markers == map[]
    {
      var shown := markers.Values;
      var toDetach := shown;
      while toDetach != {}
        invariant toDetach <= shown
        invariant forall m :: m in shown - toDetach ==> !m.onMap
        decreases toDetach
      {
        var m :| m in toDetach;
        m.onMap := false;
        toDetach := toDetach - {m};
      }
      markers := map[];
    }

    /** Creates a marker on the map and files it under `id`, replacing any entry there. */
    method ShowMarker(id: string, options: MarkerOptions, ghost table: map<string, MarkerOptions>)
      requires Shows(table)
      modifies this
      ensures Shows(table[id := options])
      ensures id in markers && fresh(markers[id]) && markers[id].onMap
      ensures forall other :: other in old(markers) && other != id ==> other in markers && markers[other] == old(markers)[other]
      ensures markers.Keys == old(markers).Keys + {id}
    {
      var marker := new Marker(options);
      markers := markers[id := marker];
    }

    /**
     * One recomputation of `renderMarkers`. Every marker of the old table is
     * taken off the map and the table is rebuilt from `features` alone. A
     * feature whose layer is missing, or that has no location, makes the
     * source throw: then `ok` is false and the table holds the markers of
     * the features before it.
     */
    method RenderMarkers(project: Project, features: seq<Feature>, fragment: Option<string>) returns (ok: bool)
      modifies this, markers.Values
      ensures forall m :: m in old(markers.Values) ==> !m.onMap
      ensures forall id :: id in markers ==> fresh(markers[id]) && markers[id].onMap
      ensures Shows(MarkerTable(project, features, RenderablePrefix(project, features), FocusedId(fragment)))
      ensures ok <==> RenderablePrefix(project, features) == |features|
    {
      ClearMarkers();
      var focusedId := FocusedId(fragment);
      ok := ShowFeatures(project, features, focusedId);
    }

    /**
     * The loop of `renderMarkers` over the features, into an empty table: a
     * marker for each feature in turn, up to the first feature whose layer
     * is missing or that has no location, where the source throws.
     */
    method ShowFeatures(project: Project, features: seq<Feature>, focusedId: string) returns (ok: bool)
      requires markers == map[]
      modifies this
      ensures forall id :: id in markers ==> fresh(markers[id]) && markers[id].onMap
      ensures Shows(MarkerTable(project, features, RenderablePrefix(project, features), focusedId))
      ensures ok <==> RenderablePrefix(project, features) == |features|
    {
      var i := 0;
      while i < |features|
        invariant 0 <= i <= |features|
        invariant forall j :: 0 <= j < i ==> Renderable(project, features[j])
        invariant forall id :: id in markers ==> fresh(markers[id]) && markers[id].onMap
        invariant Shows(MarkerTable(project, features, i, focusedId))
      {
        var feature := features[i];
        if !Renderable(project, feature) {
          RenderablePrefixStops(project, features, i);
          return false;
        }
        ghost var table := MarkerTable(project, features, i, focusedId);
        var options := MarkerFor(project, feature, focusedId);
        ShowMarker(feature.id, options, table);
        assert MarkerTable(project, features, i + 1, focusedId) == table[feature.id := options];
        i := i + 1;
      }
      RenderablePrefixStops(project, features, i);
      return true;
    }
  }

  /** Recomputing twice from the same inputs leaves the same marker table. */
  method RenderTwice(view: MapComponent, project: Project, features: seq<Feature>, fragment: Option<string>)
    returns (first: map<string, MarkerOptions>, second: map<string, MarkerOptions>)
    modifies view, view.markers.Values
    ensures first == second
  {
    ghost var table := MarkerTable(project, features, RenderablePrefix(project, features), FocusedId(fragment));
    var _ := view.RenderMarkers(project, features, fragment);
    view.ShowsDescriptors(table);
    first := view.Descriptors();
    var _ := view.RenderMarkers(project, features, fragment);
    view.ShowsDescriptors(table);
    second := view.Descriptors();
  }
}

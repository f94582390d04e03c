/**
 * The Views style plugin `LeafletMap` (leaflet_views/lib/Drupal/leaflet_views/Plugin/views/style/LeafletMap.php):
 * `init` remembers the entity type whose base table is the view's, `render` turns every result row's geofield
 * into points stamped with popup, label and icon, and `validateOptionsForm` checks the height.
 */
module LeafletMapStyle {
  import opened Common
  import opened Php
  import LeafletViewsStyle

  /** An entry of `entity_get_info()`: its `base_table` when set, and the whole info array. */
  datatype EntityDefinition = EntityDefinition(baseTable: Option<string>, info: map<string, Value>)

  /**
   * `isset($info['base_table']) && $info['base_table'] == $base_table`, where `$base_table` is the first base
   * table, or FALSE when the view has none (a string equals FALSE when it is `''` or `'0'`).
   */
  predicate Matches(def: EntityDefinition, baseTable: Option<string>)
  {
    && def.baseTable.Some?
    && match baseTable
       case None => def.baseTable.value == "" || def.baseTable.value == "0"
       case Some(t) => def.baseTable.value == t
  }

  function MatchesTable(baseTable: Option<string>): ((string, EntityDefinition)) -> bool
  {
    (entry: (string, EntityDefinition)) => Matches(entry.1, baseTable)
  }

  /** `reset(array_keys($view->getBaseTables()))`. */
  function FirstBaseTable(baseTables: seq<string>): Option<string>
  {
    if baseTables == [] then None else Some(baseTables[0])
  }

  /** What `render` returns. */
  datatype MapOutput = PreviewMessage(message: Value) | Empty | Rendered(element: MapElement<Point>)

  /**
   * The helpers `render` calls and does not define: `getFieldValue`, the rendered fields, the two geofield
   * processors, `is_object`, entity loading and rendering, and `leaflet_map_get_info`.
   */
  datatype Env<!R> = Env(
    fieldValue: (nat, Value) -> Value,
    renderedField: (nat, Value) -> Value,
    processRendered: Value -> Value,
    processGeofield: Value -> seq<Point>,
    isObject: R -> bool,
    renderEntity: (Option<string>, Option<EntityDefinition>, R, Value) -> Value,
    mapInfo: Value -> Value)

  /** The geofield value of a row: the raw field value, or, when that is empty, the one parsed from the rendered field. */
  function GeofieldValue<R>(id: nat, geofieldName: Value, env: Env<R>): Value
  {
    var raw := env.fieldValue(id, geofieldName);
    if !Truthy(raw) then env.processRendered(env.renderedField(id, geofieldName)) else raw
  }

  /** `$description` after a contributing row: the rendered entity, the rendered description field, or the previous value. */
  function NextDescription<R>(
    previous: Value, id: nat, r: R, options: map<string, Value>, env: Env<R>,
    entityType: Option<string>, entityInfo: Option<EntityDefinition>): Value
  {
    var field := Lookup(options, "description_field");
    if field == Str("#rendered_entity") && env.isObject(r) then
      env.renderEntity(entityType, entityInfo, r, Lookup(options, "view_mode"))
    else if Truthy(field) then env.renderedField(id, field)
    else previous
  }

  /** A row's points with the popup (when `$description` is set) and the label (when `name_field` is set) applied. */
  function RowPoints<R>(points: seq<Point>, description: Value, id: nat, options: map<string, Value>, env: Env<R>): seq<Point>
  {
    var withPopup := if description.Null? then points else Stamped(points, "popup", description);
    var nameField := Lookup(options, "name_field");
    if Truthy(nameField) then Stamped(withPopup, "label", env.renderedField(id, nameField)) else withPopup
  }

  /** `!empty($icon) && $icon['iconUrl']`, with `['iconUrl']` read as PHP 7 reads it. */
  predicate IconApplies(icon: Value)
  {
    Truthy(icon) && Truthy(Subscript(icon, "iconUrl"))
  }

  /**
   * The icon option applies exactly when it is a non-empty array with a truthy `iconUrl`, or a string whose
   * first character, which `['iconUrl']` reads, is not `'0'`.
   */
  lemma IconAppliesCases(icon: Value)
    ensures IconApplies(icon) <==>
      || (icon.Dict? && |icon.d| != 0 && Truthy(Lookup(icon.d, "iconUrl")))
      || (icon.Str? && icon.s != "" && icon.s[0] != '0')
  {
    if icon.Str? && icon.s != "" {
      assert icon.s[..1] == [icon.s[0]];
    }
  }

  function WithIcon(data: seq<Point>, icon: Value): seq<Point>
  {
    if IconApplies(icon) then Stamped(data, "icon", icon) else data
  }

  /** `$data` and `$description` as the result loop carries them. */
  datatype RowState = RowState(data: seq<Point>, description: Value)

  /** One iteration of the result loop. */
  function RowStep<R>(
    st: RowState, id: nat, r: R, options: map<string, Value>, env: Env<R>,
    entityType: Option<string>, entityInfo: Option<EntityDefinition>): RowState
  {
    var value := GeofieldValue(id, Lookup(options, "data_source"), env);
    if !Truthy(value) then st
    else
      var description := NextDescription(st.description, id, r, options, env, entityType, entityInfo);
      var points := RowPoints(env.processGeofield(value), description, id, options, env);
      RowState(WithIcon(st.data + points, Lookup(options, "icon")), description)
  }

  /** The loop state after the given result rows (row `i` has id `i`). */
  function RowsState<R>(
    results: seq<R>, options: map<string, Value>, env: Env<R>,
    entityType: Option<string>, entityInfo: Option<EntityDefinition>): RowState
  {
    if results == [] then RowState([], Null)
    else
      var n := |results| - 1;
      RowStep(RowsState(results[..n], options, env, entityType, entityInfo), n, results[n], options, env, entityType, entityInfo)
  }

  /** What `render` returns for the given preview flag, options, results and entity type. */
  function RenderOutput<R>(
    livePreview: Value, options: map<string, Value>, results: seq<R>, env: Env<R>,
    entityType: Option<string>, entityInfo: Option<EntityDefinition>): MapOutput
  {
    if Truthy(livePreview) then PreviewMessage(Message("Preview is not available for Leaflet map."))
    else if !Truthy(Lookup(options, "data_source")) then Empty
    else
      var data := RowsState(results, options, env, entityType, entityInfo).data;
      if data == [] then Empty
      else Rendered(MapElement(env.mapInfo(Lookup(options, "map")), data, PixelHeight(Lookup(options, "height"))))
  }

  /** The style plugin, with the entity type and info that `init` may set. */
  class LeafletMap {
    var entityType: Option<string>
    var entityInfo: Option<EntityDefinition>

    constructor ()
      ensures entityType == None && entityInfo == None
    {
      entityType := None;
      entityInfo := None;
    }

    /**
     * `init`: the first entity definition whose base table matches the view's first base table sets the entity
     * type and info; when none matches, both stay as they were.
     */
    method Init(baseTables: seq<string>, definitions: seq<(string, EntityDefinition)>)
      modifies this
      ensures var found := FirstIndex(definitions, MatchesTable(FirstBaseTable(baseTables)));
        && (found.Some? ==>
              entityType == Some(definitions[found.value].0) && entityInfo == Some(definitions[found.value].1))
        && (found.None? ==> entityType == old(entityType) && entityInfo == old(entityInfo))
    {
      var baseTable := FirstBaseTable(baseTables);
      var i := 0;
      while i < |definitions|
        invariant 0 <= i <= |definitions|
        invariant forall j :: 0 <= j < i ==> !MatchesTable(baseTable)(definitions[j])
        invariant entityType == old(entityType) && entityInfo == old(entityInfo)
      {
        if Matches(definitions[i].1, baseTable) {
          entityType := Some(definitions[i].0);
          entityInfo := Some(definitions[i].1);
          assert MatchesTable(baseTable)(definitions[i]);
          return;
        }
        i := i + 1;
      }
    }

    /** One pass of the result loop: the row's geofield value, its description, its stamped points and the icon. */
    method ProcessRow<R>(id: nat, result: R, data: seq<Point>, description: Value, options: map<string, Value>, env: Env<R>)
      returns (data': seq<Point>, description': Value)
      ensures RowState(data', description') == RowStep(RowState(data, description), id, result, options, env, entityType, entityInfo)
    {
      data', description' := data, description;
      var geofieldName := Lookup(options, "data_source");
      var geofieldValue := env.fieldValue(id, geofieldName);
      if !Truthy(geofieldValue) {
        geofieldValue := env.processRendered(env.renderedField(id, geofieldName));
      }
      if Truthy(geofieldValue) {
        var points := env.processGeofield(geofieldValue);
        var descriptionField := Lookup(options, "description_field");
        if descriptionField == Str("#rendered_entity") && env.isObject(result) {
          description' := env.renderEntity(entityType, entityInfo, result, Lookup(options, "view_mode"));
        } else if Truthy(descriptionField) {
          description' := env.renderedField(id, descriptionField);
        }
        if !description'.Null? {
          points := StampAll(points, "popup", description');
        }
        var nameField := Lookup(options, "name_field");
        if Truthy(nameField) {
          points := StampAll(points, "label", env.renderedField(id, nameField));
        }
        data' := data' + points;
        var icon := Lookup(options, "icon");
        if IconApplies(icon) {
          data' := StampAll(data', "icon", icon);
        }
      }
    }

    /** `render`: the result loop with its by-reference stamping loops, then the map element when data was found. */
    method Render<R>(livePreview: Value, options: map<string, Value>, results: seq<R>, env: Env<R>) returns (out: MapOutput)
      ensures out == RenderOutput(livePreview, options, results, env, entityType, entityInfo)
    {
      if Truthy(livePreview) {
        return PreviewMessage(Message("Preview is not available for Leaflet map."));
      }
      var data: seq<Point> := [];
      var description := Null;
      var geofieldName := Lookup(options, "data_source");
      if Truthy(geofieldName) {
        var id := 0;
        while id < |results|
          invariant 0 <= id <= |results|
          invariant RowState(data, description) == RowsState(results[..id], options, env, entityType, entityInfo)
        {
          data, description := ProcessRow(id, results[id], data, description, options, env);
          assert results[..id + 1][..id] == results[..id];
          id := id + 1;
        }
        assert results[..id] == results;
        var mapInfo := env.mapInfo(Lookup(options, "map"));
        if data != [] {
          return Rendered(MapElement(mapInfo, data, PixelHeight(Lookup(options, "height"))));
        }
      }
      return Empty;
    }
  }

  // ---------------------------------------------------------------------------------------------
  // Properties of render
  // ---------------------------------------------------------------------------------------------

  predicate HasIcon(p: Point, icon: Value)
  {
    "icon" in p && p["icon"] == icon
  }

  /** When the icon applies, every accumulated feature carries the whole icon option. */
  lemma {:induction false} IconOnEveryFeature<R>(
    results: seq<R>, options: map<string, Value>, env: Env<R>,
    entityType: Option<string>, entityInfo: Option<EntityDefinition>)
    requires IconApplies(Lookup(options, "icon"))
    ensures forall k :: 0 <= k < |RowsState(results, options, env, entityType, entityInfo).data| ==>
      HasIcon(RowsState(results, options, env, entityType, entityInfo).data[k], Lookup(options, "icon"))
  {
    if results != [] {
      var n := |results| - 1;
      IconOnEveryFeature(results[..n], options, env, entityType, entityInfo);
      var before := RowsState(results[..n], options, env, entityType, entityInfo);
      var value := GeofieldValue(n, Lookup(options, "data_source"), env);
      if Truthy(value) {
        var description := NextDescription(before.description, n, results[n], options, env, entityType, entityInfo);
        var points := RowPoints(env.processGeofield(value), description, n, options, env);
        var data := RowsState(results, options, env, entityType, entityInfo).data;
        assert data == Stamped(before.data + points, "icon", Lookup(options, "icon"));
        forall k | 0 <= k < |data|
          ensures HasIcon(data[k], Lookup(options, "icon"))
        {
          assert data[k] == (before.data + points)[k]["icon" := Lookup(options, "icon")];
        }
      } else {
        assert RowsState(results, options, env, entityType, entityInfo) == before;
      }
    }
  }

  /**
   * Row `i` appends its own points, popup, label and icon applied, after the earlier rows' data, which it leaves
   * as it was (re-stamping the icon changes nothing); a row whose geofield is empty, even after the rendered-field
   * fallback, appends nothing and keeps `$description`.
   */
  lemma RowAppendsItsPoints<R>(
    results: seq<R>, i: nat, options: map<string, Value>, env: Env<R>,
    entityType: Option<string>, entityInfo: Option<EntityDefinition>)
    requires i < |results|
    ensures var before := RowsState(results[..i], options, env, entityType, entityInfo);
      var after := RowsState(results[..i + 1], options, env, entityType, entityInfo);
      var value := GeofieldValue(i, Lookup(options, "data_source"), env);
      if !Truthy(value) then after == before
      else
        after.data == before.data + WithIcon(RowPoints(env.processGeofield(value), after.description, i, options, env), Lookup(options, "icon"))
  {
    var icon := Lookup(options, "icon");
    var before := RowsState(results[..i], options, env, entityType, entityInfo);
    assert results[..i + 1][..i] == results[..i];
    var value := GeofieldValue(i, Lookup(options, "data_source"), env);
    if Truthy(value) && IconApplies(icon) {
      IconOnEveryFeature(results[..i], options, env, entityType, entityInfo);
      var description := NextDescription(before.description, i, results[i], options, env, entityType, entityInfo);
      var points := RowPoints(env.processGeofield(value), description, i, options, env);
      StampedAppend(before.data, points, "icon", icon);
      assert Stamped(before.data, "icon", icon) == before.data by {
        forall k | 0 <= k < |before.data|
          ensures Stamped(before.data, "icon", icon)[k] == before.data[k]
        {
          assert HasIcon(before.data[k], icon);
          assert before.data[k]["icon" := icon] == before.data[k];
        }
      }
    }
  }

  /**
   * `$description` is never reset, yet no row gets a stale popup: when `description_field` is set, every contributing
   * row computes its own description (the rendered entity for an object row with `#rendered_entity`, otherwise the
   * rendered field); when it is empty, `$description` is never set and no point gets a popup.
   */
  lemma DescriptionIsPerRow<R>(
    previous: Value, id: nat, r: R, options: map<string, Value>, env: Env<R>,
    entityType: Option<string>, entityInfo: Option<EntityDefinition>)
    ensures var field := Lookup(options, "description_field");
      var d := NextDescription(previous, id, r, options, env, entityType, entityInfo);
      && (Truthy(field) && !(field == Str("#rendered_entity") && env.isObject(r)) ==> d == env.renderedField(id, field))
      && (field == Str("#rendered_entity") && env.isObject(r) ==> d == env.renderEntity(entityType, entityInfo, r, Lookup(options, "view_mode")))
      && (!Truthy(field) ==> d == previous)
  {
  }

  lemma {:induction false} NoDescriptionFieldNoPopup<R>(
    results: seq<R>, options: map<string, Value>, env: Env<R>,
    entityType: Option<string>, entityInfo: Option<EntityDefinition>)
    requires !Truthy(Lookup(options, "description_field"))
    ensures RowsState(results, options, env, entityType, entityInfo).description == Null
  {
    if results != [] {
      NoDescriptionFieldNoPopup(results[..|results| - 1], options, env, entityType, entityInfo);
    }
  }

  /** A row's popup and label reach every one of its points, and every other key of a point is kept. */
  lemma RowPointsStamped<R>(points: seq<Point>, description: Value, id: nat, options: map<string, Value>, env: Env<R>)
    ensures var r := RowPoints(points, description, id, options, env);
      var nameField := Lookup(options, "name_field");
      && |r| == |points|
      && (forall k :: 0 <= k < |r| && !description.Null? ==> r[k]["popup"] == description)
      && (forall k :: 0 <= k < |r| && Truthy(nameField) ==> r[k]["label"] == env.renderedField(id, nameField))
      && (forall k, key :: 0 <= k < |r| && key in points[k] && key != "popup" && key != "label" ==> r[k][key] == points[k][key])
  {
  }

  /** The three ways `render` ends: the preview message, the empty string, or the map of the accumulated data. */
  lemma RenderCases<R>(
    livePreview: Value, options: map<string, Value>, results: seq<R>, env: Env<R>,
    entityType: Option<string>, entityInfo: Option<EntityDefinition>)
    ensures var out := RenderOutput(livePreview, options, results, env, entityType, entityInfo);
      var data := RowsState(results, options, env, entityType, entityInfo).data;
      && (out.PreviewMessage? <==> Truthy(livePreview))
      && (out.Empty? <==> !Truthy(livePreview) && (!Truthy(Lookup(options, "data_source")) || data == []))
      && (out.Rendered? ==> out.element.features == data && out.element.height == PixelHeight(Lookup(options, "height")))
  {
  }

  // ---------------------------------------------------------------------------------------------
  // defineOptions
  // ---------------------------------------------------------------------------------------------

  /**
   * `defineOptions`: the parent's definitions, with the data source, name and description fields and the map
   * defaulting to `''`, the view mode to `'full'`, the height to `'400'` and the icon to an empty array.
   */
  function DefineOptions(parent: map<string, Value>): (options: map<string, Value>)
    ensures options.Keys == parent.Keys + {"data_source", "name_field", "description_field", "view_mode", "map", "height", "icon"}
    ensures options["data_source"] == LeafletViewsStyle.Default(Str(""))
    ensures options["name_field"] == LeafletViewsStyle.Default(Str(""))
    ensures options["description_field"] == LeafletViewsStyle.Default(Str(""))
    ensures options["view_mode"] == LeafletViewsStyle.Default(Str("full"))
    ensures options["map"] == LeafletViewsStyle.Default(Str(""))
    ensures options["height"] == LeafletViewsStyle.Default(Str("400"))
    ensures options["icon"] == LeafletViewsStyle.Default(Dict(map[]))
    ensures forall k ::
      k in parent && k !in {"data_source", "name_field", "description_field", "view_mode", "map", "height", "icon"} ==>
        options[k] == parent[k]
  {
    parent["data_source" := LeafletViewsStyle.Default(Str(""))]
      ["name_field" := LeafletViewsStyle.Default(Str(""))]
      ["description_field" := LeafletViewsStyle.Default(Str(""))]
      ["view_mode" := LeafletViewsStyle.Default(Str("full"))]
      ["map" := LeafletViewsStyle.Default(Str(""))]
      ["height" := LeafletViewsStyle.Default(Str("400"))]
      ["icon" := LeafletViewsStyle.Default(Dict(map[]))]
  }

  /**
   * A display left at its defaults has no data source, so outside a preview it renders the empty string
   * whatever the results; the default height passes the height check, as written and as corrected.
   */
  lemma DefaultsRenderNothing<R>(
    parent: map<string, Value>, livePreview: Value, results: seq<R>, env: Env<R>,
    entityType: Option<string>, entityInfo: Option<EntityDefinition>)
    requires !Truthy(livePreview)
    ensures var values := LeafletViewsStyle.DefaultValues(DefineOptions(parent));
      && RenderOutput(livePreview, values, results, env, entityType, entityInfo) == Empty
      && ValidateOptionsForm(Lookup(values, "height")) == []
      && ValidateOptionsFormCorrected(Lookup(values, "height")) == []
  {
    DefaultLookups(parent);
    DefaultHeightPositive();
  }

  lemma DefaultLookups(parent: map<string, Value>)
    ensures var values := LeafletViewsStyle.DefaultValues(DefineOptions(parent));
      Lookup(values, "data_source") == Str("") && Lookup(values, "height") == Str("400")
  {
  }

  // ---------------------------------------------------------------------------------------------
  // validateOptionsForm
  // ---------------------------------------------------------------------------------------------

  /** `!is_numeric($height) || $height < 0`. */
  predicate HeightRejected(height: Value)
  {
    NumericSign(height).None? || NumericSign(height).value < 0
  }

  /** `validateOptionsForm`: one error on `height` exactly when the height is rejected. */
  function ValidateOptionsForm(height: Value): (errors: seq<LeafletViewsStyle.FormError>)
    ensures |errors| <= 1
    ensures |errors| == 1 <==> HeightRejected(height)
    ensures |errors| == 1 ==> errors[0] == LeafletViewsStyle.FormError("height", Message("Map height needs to be a positive number"))
  {
    if HeightRejected(height) then [LeafletViewsStyle.FormError("height", Message("Map height needs to be a positive number"))] else []
  }

  /**
   * This check is laxer than the `Leaflet` style's by exactly the numeric zeros: a height the `Leaflet`
   * style rejects is rejected here or is zero.
   */
  lemma LaxerByZero(height: Value)
    ensures LeafletViewsStyle.HeightRejected(height) <==> HeightRejected(height) || NumericSign(height) == Some(0)
  {
  }

  /** A zero height passes this check although its message asks for a positive number. */
  lemma ZeroHeightAccepted()
    ensures ValidateOptionsForm(Int(0)) == []
    ensures ValidateOptionsForm(Str("0")) == []
    ensures LeafletViewsStyle.HeightRejected(Str("0"))
  {
    assert Str("0") == Str(Decimal(0));
    DecimalIsNumeric(0);
  }

  /** The check as its message states it: a height is accepted exactly when it is a positive number. */
  function ValidateOptionsFormCorrected(height: Value): (errors: seq<LeafletViewsStyle.FormError>)
    ensures |errors| <= 1
    ensures |errors| == 1 <==> NumericSign(height) != Some(1)
  {
    if HeightRejected(height) || NumericSign(height) == Some(0)
    then [LeafletViewsStyle.FormError("height", Message("Map height needs to be a positive number"))]
    else []
  }

  /** The corrected check agrees with the `Leaflet` style's and differs from the one as written only on zero. */
  lemma CorrectedAgreesWithLeafletStyle(height: Value)
    ensures |ValidateOptionsFormCorrected(height)| == 1 <==> LeafletViewsStyle.HeightRejected(height)
    ensures ValidateOptionsFormCorrected(height) != ValidateOptionsForm(height) <==> NumericSign(height) == Some(0)
  {
  }
}

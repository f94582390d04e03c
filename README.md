# Leaflet for Drupal: a verified model of the map pipeline

This project models, in Dafny, the part of the Drupal Leaflet module that turns stored geometry and view settings into a
feature list, and the browser behaviour that turns that list into a Leaflet map. It also proves properties of the model.

- **Browser behaviour** (`leaflet_drupal.dfy`, module `LeafletBehavior`). This is `Drupal.behaviors.leaflet.attach`, and `Behavior` models it as a class.
  - Its field `bounds` is the closure variable shared with the four `leaflet_create_*` helpers.
  - Each method is proved equal to a specification function: `FeaturePass` for the feature loop, `MapOutcome` for one map, `AttachOutcome` for the whole attach.
  - Leaflet itself is not modelled. Every call into it is recorded, in order, as a `Call`.
- **Views feature extraction** (`views_leaflet_style.dfy`, module `LeafletViewsStyle`). This is the `Leaflet` style plugin: `extract_features` over a render tree (`Node`), `render` over the attachments, and the option defaults and validation hooks.
- **Marker grouping styles**, in three modules:
  - `MarkerDefault`: the `renderGroupingSets` loop and the view's `row_index`;
  - `MarkerLayerGroup`: the label of the ungrouped set and `renderRowGroup`;
  - `MarkerClusterGroup`: one group entry per set.
- **Row annotation** (`leaflet_map_style.dfy`, module `LeafletMapStyle`). This is the `LeafletMap` style plugin:
  - `init` picks the entity type by base table;
  - `render` grows `$data` row by row and stamps popup, label and icon onto the points;
  - `defineOptions`;
  - `validateOptionsForm`.
- **Field formatters**. `LeafletDefaultFormatter` is the newer formatter: defaults, summary, URL check and `viewElements`. `LegacyLeafletDefaultFormatter` is the older one: annotation defaults and `#markup`-wrapped elements.
- **Shared modules**:
  - `Common`: Option, Flatten, FirstIndex, decimal rendering;
  - `Php`: PHP values, truthiness, loose `==` against a `case` word, `is_numeric` with the sign of the number, by-reference stamping of points, and feature-list entries.

Unseen helpers are parameters of the operations that call them. These include `leaflet_process_geofield`, `leaflet_map_get_info`, `views_embed_view`, the row plugin, entity rendering, `getFieldValue`, the rendered fields and the URL validators.

The `multipolygon` and `multipolyline` cases of the feature `switch` both call `leaflet_create_multipoly`, which builds an `L.MultiPolygon`. The model builds the same shape for both (`ShapeOf`, `CreateShape`).

The `switch` statements in PHP compare loosely, as PHP 7 does, so an integer `0` as `#leaflet` takes the first case, `markers` (`LooseEqualsWord`). JavaScript's `switch` compares strictly (`KindOf`).

## Model

| member | source | states |
|---|---|---|
| LeafletBehavior.CopyOptions | leaflet.drupal.js:25-29 | every source key is written with its value; every other target key keeps its value; no other key appears |
| LeafletBehavior.NamedLayersKeys | leaflet.drupal.js:20-30 | the `layers` object holds exactly the keys of the layer list |
| LeafletBehavior.NamedLayersValues | leaflet.drupal.js:22-30 | with distinct keys, each key holds the tile layer built from its own entry's URL and copied options |
| LeafletBehavior.BuildLayers | leaflet.drupal.js:20-51 | the layer loop yields that `layers` object and a single `addLayer`, for the first layer only |
| LeafletBehavior.OnlyFirstLayerShown | leaflet.drupal.js:46-50 | any tile layer added to the map is the first layer's, and the first layer, when there is one, is always added |
| LeafletBehavior.SwitcherOnlyWithLayerControl | leaflet.drupal.js:53-56 | a layer switcher is added iff `settings.layerControl` is truthy, and it lists every layer key |
| LeafletBehavior.InvertedYFlipsRows | leaflet.drupal.js:42 | `2^zoom - y - 1` maps the rows of a zoom level onto themselves, undoes itself and reverses the row order |
| LeafletBehavior.ReplaceFirstAt | leaflet.drupal.js:39-42 | a string replace changes exactly the first occurrence of the pattern and nothing else |
| LeafletBehavior.ReplaceFirstAbsent | leaflet.drupal.js:39-42 | without an occurrence the URL is unchanged |
| LeafletBehavior.TileStreamUrlOfTemplate | leaflet.drupal.js:34-43 | on a template `a{z}b{x}c{y}d`, the URL holds the zoom, x and the inverted y in place of the placeholders; the subdomain plays no part |
| LeafletBehavior.TileStreamExample | leaflet.drupal.js:35-42 | zoom 3, tile (1, 2) on `{z}/{x}/{y}` gives `3/1/5` |
| LeafletBehavior.ThrownStays | leaflet.drupal.js:82-84 | after the TypeError of `undefined.bindPopup`, no later feature changes anything |
| LeafletBehavior.PassMatchesBuilt | leaflet.drupal.js:60-85 | without a throw every feature is processed, the layers built are those of the known-typed features in order, and `lFeature` is the last of them |
| LeafletBehavior.FeatureCallsAreVectorCalls | leaflet.drupal.js:81-84 | the feature loop only adds vector layers (or `undefined`) and binds popups; it never adds a tile layer |
| LeafletBehavior.ThrowsIffEarlyPopup | leaflet.drupal.js:62-84 | the loop throws iff some feature with a truthy popup comes at or before the first feature of known type; this is the only TypeError the model has (see `LeafletBehavior.Step` under Left out) |
| LeafletBehavior.PassCallsGrow | leaflet.drupal.js:60-85 | the calls for a prefix of the features are a prefix of the calls for all of them |
| LeafletBehavior.StepAppends | leaflet.drupal.js:61-84 | feature i sets `lFeature` to its own new layer or keeps the previous one, and appends the matching `addLayer` and `bindPopup` |
| LeafletBehavior.KnownFeatureGetsOwnLayer | leaflet.drupal.js:63-84 | a feature of known type gets its own layer, at its place among the built ones; the layer is added to the map and receives the feature's popup |
| LeafletBehavior.UnknownFeatureReusesPrevious | leaflet.drupal.js:62-84 | a feature of unknown type builds nothing; the stale `lFeature` is added again and receives this feature's popup |
| LeafletBehavior.OnePopupPerPopupFeature | leaflet.drupal.js:81-84 | without a throw, the number of `bindPopup` calls equals the number of features with a truthy popup |
| LeafletBehavior.MapCallOrigin | leaflet.drupal.js:8-102 | every call of a map build comes from the head (map, first layer, switcher), from the feature loop, or, when nothing threw, from the tail |
| LeafletBehavior.Positioning | leaflet.drupal.js:87-93 | with a center the view is set to it at `settings.zoom`; without one the map is fitted to every vertex; never both |
| LeafletBehavior.AttributionOnlyWithBoth | leaflet.drupal.js:95-99 | prefix and text are set only when `attributionControl` is truthy and `attribution` is present, and then both are set |
| LeafletBehavior.AttachStopsAtFirstThrow | leaflet.drupal.js:8-102 | maps are built in settings order, result j is map j's build, only the last can have thrown, and stopping early means it did |
| LeafletBehavior.TwoPointsFitted | leaflet.drupal.js:59-106 | two points and no center: `bounds` is both points in order and the map is fitted to them |
| LeafletBehavior.Behavior.CreatePoint | leaflet.drupal.js:104-121 | pushes the point onto `bounds` and builds a marker, with the icon built from the icon spec when one is given |
| LeafletBehavior.Behavior.CreateLinestring | leaflet.drupal.js:123-131 | every point in order goes into the polyline and onto `bounds` |
| LeafletBehavior.Behavior.CreatePolygon | leaflet.drupal.js:133-141 | every point in order goes into the polygon and onto `bounds` |
| LeafletBehavior.Behavior.CreateMultipoly | leaflet.drupal.js:143-156 | one ring per component, ring i equal to component i's points; `bounds` grows by all components' points in order |
| LeafletBehavior.Behavior.CreateShape | leaflet.drupal.js:63-79 | the `switch` builds the shape of `ShapeOf` (multipolyline as a multipolygon) and pushes exactly the feature's vertices onto `bounds`; an unknown type pushes nothing |
| LeafletBehavior.Behavior.AddFeature | leaflet.drupal.js:61-84 | one loop iteration is the step function `Step`, and `bounds` grows by that feature's vertices |
| LeafletBehavior.Behavior.AddFeatures | leaflet.drupal.js:59-85 | the loop is `FeaturePass`; `bounds` grows by the vertices of the features processed, in feature and vertex order |
| LeafletBehavior.Behavior.StartMap | leaflet.drupal.js:10-56 | copying the settings, creating the map, the layers and the switcher make exactly the head calls |
| LeafletBehavior.Behavior.PlaceMap | leaflet.drupal.js:87-99 | with `bounds` holding every vertex, centring or fitting and the attribution make exactly the tail calls |
| LeafletBehavior.Behavior.BuildMap | leaflet.drupal.js:9-101 | one map is `MapOutcome`; `bounds` is reset and ends holding the vertices of the processed features |
| LeafletBehavior.Behavior.Attach | leaflet.drupal.js:8-102 | the whole behaviour is `AttachOutcome` |
| LeafletViewsStyle.ExtractFeatures | leaflet_views/src/Plugin/views/style/Leaflet.php:113-148 | the recursive method with its point and row loops computes `Extract` |
| LeafletViewsStyle.MarkersNodeIsTransparent | leaflet_views/src/Plugin/views/style/Leaflet.php:116-117 | a `markers` node extracts to what its `#markers` child extracts to |
| LeafletViewsStyle.MarkerNodeStampsPopup | leaflet_views/src/Plugin/views/style/Leaflet.php:119-125 | a `marker` node yields its points, same number and order, every other key kept, each with `popup` set to `#popup['body']` as PHP 7 reads it: the `body` entry of an array, the first character of a string (`''` for the empty string), NULL otherwise |
| LeafletViewsStyle.GroupNodeYieldsOneGroup | leaflet_views/src/Plugin/views/style/Leaflet.php:127-135 | a `LayerGroup` or `MarkerClusterGroup` node yields exactly one group labelled `#title` holding the extraction of `#markers` |
| LeafletViewsStyle.UnknownTagYieldsNothing | leaflet_views/src/Plugin/views/style/Leaflet.php:137-138 | any other `#leaflet` word yields the empty list |
| LeafletViewsStyle.ExtractRowsAppend | leaflet_views/src/Plugin/views/style/Leaflet.php:141-147 | an array without `#leaflet` extracts row by row: the extraction of a concatenation is the concatenation of extractions |
| LeafletViewsStyle.ExtractKeepsEveryMarkerPoint | leaflet_views/src/Plugin/views/style/Leaflet.php:113-148 | opening the groups of the extraction gives every `marker` point of the tree, popup applied, in document order: nothing is lost or duplicated |
| LeafletViewsStyle.RowsKeepEveryMarkerPoint | leaflet_views/src/Plugin/views/style/Leaflet.php:141-147 | the same for a list of rows |
| LeafletViewsStyle.EmbedArgs | leaflet_views/src/Plugin/views/style/Leaflet.php:99-101 | `views_embed_view` gets the view name, then the display id, then the attachment's arguments unchanged |
| LeafletViewsStyle.AttachmentFeaturesAreOneExtraction | leaflet_views/src/Plugin/views/style/Leaflet.php:97-104 | merging per attachment equals extracting one array of every attachment's `#rows`, in attachment order |
| LeafletViewsStyle.Render | leaflet_views/src/Plugin/views/style/Leaflet.php:96-111 | the element carries the configured map, the merged features of all attachments and the height + `px`; it is printed iff the view is a preview |
| LeafletViewsStyle.ValidateOptionsForm | leaflet_views/src/Plugin/views/style/Leaflet.php:68-75 | the parent's errors are kept, and one height error is added iff the height is not numeric or is `<= 0` |
| LeafletViewsStyle.HeightAcceptedIffPositive | leaflet_views/src/Plugin/views/style/Leaflet.php:71-74 | an integer height, or its decimal string, is accepted iff it is positive |
| LeafletViewsStyle.Validate | leaflet_views/src/Plugin/views/style/Leaflet.php:153-159 | the parent's errors are kept, and one "requires a leaflet map" error is added iff `map` is empty |
| LeafletViewsStyle.DefineOptions | leaflet_views/src/Plugin/views/style/Leaflet.php:164-169 | `map` defaults to `''` and `height` to `'400'`; every other parent definition is kept |
| LeafletViewsStyle.DefaultsNeedAMap | leaflet_views/src/Plugin/views/style/Leaflet.php:153-169 | with the defaults the height passes, but `validate` reports the missing map |
| Php.DecimalIsNumeric | leaflet_views/src/Plugin/views/style/Leaflet.php:72 | the string of an integer passes `is_numeric` and keeps the integer's sign |
| Php.StampAll | leaflet_views/src/Plugin/views/style/Leaflet.php:121-124 | the by-reference loop sets one key on every point, keeps all other keys, and adds, drops or moves no point |
| Php.StampedTwice | leaflet_views/lib/Drupal/leaflet_views/Plugin/views/style/LeafletMap.php:367-371 | re-stamping the icon after each row is idempotent |
| MarkerDefault.BaseGroupIgnoresTitleAndLevel | leaflet_views/src/Plugin/views/style/MarkerDefault.php:96-98 | the base `renderLeafletGroup` returns its features as a plain list, whatever the title and level |
| MarkerDefault.RenderedRows | leaflet_views/src/Plugin/views/style/MarkerDefault.php:60-63 | one rendered row per row of the set |
| MarkerDefault.RenderGroupingSets | leaflet_views/src/Plugin/views/style/MarkerDefault.php:56-82 | the output is `GroupingSetsOutput`: each row is rendered with `row_index` set to its index, and `row_index` is unset at the end |
| MarkerDefault.SetFeaturesSplit | leaflet_views/src/Plugin/views/style/MarkerDefault.php:65-68 | a set's features are its rendered rows concatenated in row order |
| MarkerDefault.OutputAppend | leaflet_views/src/Plugin/views/style/MarkerDefault.php:58-79 | sets are processed independently and in order: the output of concatenated sets is the concatenation of outputs |
| MarkerDefault.BaseFlattensSets | leaflet_views/src/Plugin/views/style/MarkerDefault.php:56-98 | with the base class, the output is the concatenation of every set's features, in set order |
| MarkerLayerGroup.FallbackLabel | leaflet_views/src/Plugin/views/style/MarkerLayerGroup.php:45-46 | the label is the display title when truthy, else "Label missing"; it is always truthy |
| MarkerLayerGroup.RenderGrouping | leaflet_views/src/Plugin/views/style/MarkerLayerGroup.php:42-49 | with groupings the sets are unchanged; without, the `''` set gets the label and keeps its place and rows, or a label-only `''` set is appended when there is none |
| MarkerLayerGroup.LabelLeavesOutputUnchanged | leaflet_views/src/Plugin/views/style/MarkerLayerGroup.php:23 | with the inherited `renderLeafletGroup`, relabelling changes no rendered feature |
| MarkerLayerGroup.RowGroupIsOneUnlabelledGroup | leaflet_views/src/Plugin/views/style/MarkerLayerGroup.php:62-67 | a row group extracts to exactly one group labelled NULL, because there is no `#title`, holding its rows' features in order |
| MarkerLayerGroup.DefineOptions | leaflet_views/src/Plugin/views/style/MarkerLayerGroup.php:54-57 | the parent's option definitions, unchanged |
| MarkerClusterGroup.RenderLeafletGroup | leaflet_views/src/Plugin/views/style/MarkerClusterGroup.php:27-33 | always a group entry, labelled with the title and holding the features unchanged; the level is ignored |
| MarkerClusterGroup.DefaultArguments | leaflet_views/src/Plugin/views/style/MarkerClusterGroup.php:27 | the title defaults to `''` and the features to none |
| MarkerClusterGroup.OneGroupPerSet | leaflet_views/src/Plugin/views/style/MarkerClusterGroup.php:22-33 | each grouping set becomes exactly one appended group entry with that set's label and features, in set order |
| MarkerClusterGroup.UngroupedIsOneLabelledCluster | leaflet_views/src/Plugin/views/style/MarkerClusterGroup.php:22-33 | without groupings the map holds one cluster, labelled with the title or "Label missing", holding every rendered row's features |
| LeafletMapStyle.LeafletMap.Init | leaflet_views/lib/Drupal/leaflet_views/Plugin/views/style/LeafletMap.php:50-59 | the first entity definition whose set `base_table` equals the first base table (or, without a base table, loosely equals FALSE) sets type and info; when none matches they stay as they were |
| LeafletMapStyle.LeafletMap.ProcessRow | leaflet_views/lib/Drupal/leaflet_views/Plugin/views/style/LeafletMap.php:330-372 | one pass of the result loop is the step function `RowStep` |
| LeafletMapStyle.LeafletMap.Render | leaflet_views/lib/Drupal/leaflet_views/Plugin/views/style/LeafletMap.php:319-382 | `render` is `RenderOutput` of the loop state `RowsState` |
| LeafletMapStyle.RenderCases | leaflet_views/lib/Drupal/leaflet_views/Plugin/views/style/LeafletMap.php:319-382 | a preview returns the message; no data source or no data returns `''`; otherwise the map holds the data, at the height + `px` |
| LeafletMapStyle.RowAppendsItsPoints | leaflet_views/lib/Drupal/leaflet_views/Plugin/views/style/LeafletMap.php:328-372 | row i appends its own stamped points after the earlier data, which stays as it was; a row with an empty geofield, even after the fallback, changes nothing |
| LeafletMapStyle.DescriptionIsPerRow | leaflet_views/lib/Drupal/leaflet_views/Plugin/views/style/LeafletMap.php:341-349 | with `description_field` set, each contributing row computes its own description, so the unreset `$description` is never stale there |
| LeafletMapStyle.NoDescriptionFieldNoPopup | leaflet_views/lib/Drupal/leaflet_views/Plugin/views/style/LeafletMap.php:341-356 | with `description_field` empty, `$description` is never assigned and stays NULL through every row |
| LeafletMapStyle.RowPointsStamped | leaflet_views/lib/Drupal/leaflet_views/Plugin/views/style/LeafletMap.php:351-363 | every point of a row gets the description as popup and the rendered name field as label; all other keys are kept |
| LeafletMapStyle.IconAppliesCases | leaflet_views/lib/Drupal/leaflet_views/Plugin/views/style/LeafletMap.php:367 | the icon test passes iff the option is a non-empty array with a truthy `iconUrl`, or a string whose first character is not `0` |
| LeafletMapStyle.IconOnEveryFeature | leaflet_views/lib/Drupal/leaflet_views/Plugin/views/style/LeafletMap.php:367-371 | when the icon option is a non-empty array with a truthy `iconUrl`, every accumulated feature carries the whole icon array |
| LeafletMapStyle.DefineOptions | leaflet_views/lib/Drupal/leaflet_views/Plugin/views/style/LeafletMap.php:65-75 | the seven option defaults, every other parent definition kept |
| LeafletMapStyle.DefaultsRenderNothing | leaflet_views/lib/Drupal/leaflet_views/Plugin/views/style/LeafletMap.php:65-75 | at the defaults there is no data source, so outside a preview `render` returns `''`; the default height passes the check as written and as corrected |
| LeafletMapStyle.ValidateOptionsForm | leaflet_views/lib/Drupal/leaflet_views/Plugin/views/style/LeafletMap.php:310-314 | one height error iff the height is not numeric or is `< 0` |
| LeafletMapStyle.LaxerByZero | leaflet_views/lib/Drupal/leaflet_views/Plugin/views/style/LeafletMap.php:311 | this check rejects exactly what the `Leaflet` style's check rejects, minus the numeric zeros |
| LeafletMapStyle.ZeroHeightAccepted | leaflet_views/lib/Drupal/leaflet_views/Plugin/views/style/LeafletMap.php:311-312 | heights `0` and `"0"` pass, though the message asks for a positive number, and the `Leaflet` style rejects `"0"` |
| LeafletMapStyle.ValidateOptionsFormCorrected | leaflet_views/lib/Drupal/leaflet_views/Plugin/views/style/LeafletMap.php:311-312 | the check as its message states it: an error iff the height is not a positive number |
| LeafletMapStyle.CorrectedAgreesWithLeafletStyle | leaflet_views/lib/Drupal/leaflet_views/Plugin/views/style/LeafletMap.php:311-312 | the corrected check agrees with the `Leaflet` style's, and differs from the one as written exactly on zero |
| LeafletDefaultFormatter.DefaultSettings | src/Plugin/Field/FieldFormatter/LeafletDefaultFormatter.php:34-48 | map `''`, height 400, popup FALSE, empty URLs and zero offsets, winning over the parent on shared keys; other parent keys kept |
| LeafletDefaultFormatter.SettingsSummary | src/Plugin/Field/FieldFormatter/LeafletDefaultFormatter.php:201-206 | exactly two lines, for the map and the height |
| LeafletDefaultFormatter.ValidateUrl | src/Plugin/Field/FieldFormatter/LeafletDefaultFormatter.php:238-242 | an "Icon Url is not valid." error iff the value is non-empty and not a valid URL |
| LeafletDefaultFormatter.IconUrlCases | src/Plugin/Field/FieldFormatter/LeafletDefaultFormatter.php:215-228 | `$settings['icon']['icon_url']` is the array entry, or the first character of a string setting; an icon is drawn iff the entry is truthy or the string does not start with `0` |
| LeafletDefaultFormatter.ItemFeatures | src/Plugin/Field/FieldFormatter/LeafletDefaultFormatter.php:222-232 | popup on: the first feature's popup is the label, and with no feature a popup-only entry is created; a non-empty icon URL goes on every feature; nothing else changes |
| LeafletDefaultFormatter.ItemFeaturesUntouched | src/Plugin/Field/FieldFormatter/LeafletDefaultFormatter.php:225-232 | popup off and an empty icon URL leave the features untouched |
| LeafletDefaultFormatter.ViewElements | src/Plugin/Field/FieldFormatter/LeafletDefaultFormatter.php:213-236 | one element per item, at its delta, with the item's annotated features and the height + `px` |
| LeafletDefaultFormatter.PopupOnlyForLoneItem | src/Plugin/Field/FieldFormatter/LeafletDefaultFormatter.php:225-227 | with more or fewer than one item, no popup is written |
| LeafletDefaultFormatter.DefaultsLeaveFeaturesAlone | src/Plugin/Field/FieldFormatter/LeafletDefaultFormatter.php:34-48 | at the defaults, every item's features pass through unchanged at `400px` |
| LegacyLeafletDefaultFormatter.AnnotationSettings | lib/Drupal/leaflet/Plugin/field/formatter/LeafletDefaultFormatter.php:25-49 | height `"400"`, popup 0, and the misspelled `schadow_anchor`/`popop_anchor`: `shadow_anchor` and `popup_anchor` have no default |
| LegacyLeafletDefaultFormatter.AnnotationDefaultsRenderLikeNewer | lib/Drupal/leaflet/Plugin/field/formatter/LeafletDefaultFormatter.php:25-49 | the annotation defaults and the newer ones render alike: the same map, `400px`, no popup, an empty icon URL |
| LegacyLeafletDefaultFormatter.SummaryOfDefaults | lib/Drupal/leaflet/Plugin/field/formatter/LeafletDefaultFormatter.php:205-210 | the summary of the defaults: the empty map and height "400" |
| LegacyLeafletDefaultFormatter.ViewElements | lib/Drupal/leaflet/Plugin/field/formatter/LeafletDefaultFormatter.php:217-241 | one `#markup` element per item, at its delta, holding the same map as the newer formatter |

## Left out

- Form building (`buildOptionsForm`, `settingsForm`) is left out: it only builds literal arrays. So are translation and `evenEmpty`/`query`.
- The unseen helpers are function parameters with no assumed behaviour. They are `leaflet_process_geofield`, `leaflet_process_rendered_geofield`, `leaflet_map_get_info`, `views_embed_view`, the row plugin's `render`, `entity_load`/`entity_view`/`drupal_render`, `getFieldValue`, `UrlHelper::isValid` and `valid_url`. `leaflet_render_map` is recorded as the `MapElement` of its arguments. `parent::renderGrouping` is the input of `RenderGrouping`.
- The side effect of `renderFields` is modelled as the `renderedField` parameter it fills.
- Leaflet and jQuery objects are recorded as `Call`s: no tile fetching, no bounding-box arithmetic, no DOM. Coordinates are opaque pairs.
- `this.lMap = lMap` is not modelled, because nothing in the model reads it.
- LeafletBehavior.TileStreamUrl: the subdomain is computed and never used. It is left out of the URL, and so is the NaN index it gives for an empty subdomain list.
- JavaScript design choices:
  - numbers are exact reals without NaN;
  - `for ... in` order is the order of the layer list;
  - duplicate layer keys are allowed, and LeafletBehavior.NamedLayersValues states its per-key values only for distinct keys.
- LeafletBehavior.AttachOutcome: a TypeError is modelled as ending the whole `attach`, and the maps after it are not built. That is what an uncaught exception inside `$.each` does.
- PHP values and arithmetic:
  - keyed arrays are unordered maps;
  - features lists are sequences, because `array_merge` renumbers integer keys; string-keyed entries of a feature list are not modelled;
  - integers are unbounded;
  - `is_numeric` follows PHP 7, with leading whitespace only;
  - only the sign of a numeric height is computed, which is all `< 0` and `<= 0` need; floats are not modelled.
- MarkerDefault.RenderGroupingSets: `usesRowPlugin()` is always TRUE here, so there is no branch for a style without a row plugin.
- MarkerDefault.GroupResult: `renderLeafletGroup` returns either a plain list or an entry whose `group` is TRUE. A list with a truthy `group` key is not modelled.
- Php.Subscript: a translated string read with `[key]` yields NULL. PHP reads the text of a `t()` string, and a markup object there is a fatal error.
- Php.Subscript: a key that is a numeric string is not modelled: every key read this way is a word, which a string offset converts to 0.
- LeafletMapStyle.Matches: two strings compare exactly. PHP 7 compares two numeric strings as numbers (`'1' == '01'`); base-table names are not numeric.
- LeafletMapStyle.LeafletMap.Init: the plugin flags it sets and the call to `parent::init` are left out, since no modelled behaviour reads them.
- The `print_r` dump of a preview is the element itself, tagged `Preview`.
- `leaflet_views/src/Plugin/views/display/LeafletAttachment.php` is not part of this model: it only overrides plugin configuration.
- The legacy `validateUrl` and `settingsSummary` are modelled by the newer formatter's `ValidateUrl` and `SettingsSummary`, which LegacyLeafletDefaultFormatter.SummaryOfDefaults applies. The two are the same code apart from `t()` against `$this->t()`.

- LeafletBehavior.Step: every Leaflet call returns normally, including `lMap.addLayer(undefined)`, which happens when no feature of known type has come yet; what Leaflet does with `undefined` is not part of this model. The only TypeError modelled is `bindPopup` on `undefined`.
- LeafletBehavior.Feature: every feature carries the fields its type reads (`points`, `component`, and the three icon offsets of a truthy `icon`). So the TypeErrors of a missing field (leaflet.drupal.js:110-112, 125, 135, 145, 148) are not modelled.
- LeafletViewsStyle.Extract: a `marker` element always has a list of `#points`. In PHP 7 a missing `#points` makes `extract_features` return NULL, and `array_merge` with NULL (Leaflet.php lines 103 and 144) then returns NULL for the whole feature list; NULL feature lists are not modelled.
- LeafletBehavior.Behavior.Attach: it states its results but not the final `bounds`, which nothing reads after `attach`. BuildMap states `bounds` for each map.

## Findings

| source | as written | input that shows it | evidently intended | confidence | as-written member | corrected member |
|---|---|---|---|---|---|---|
| leaflet_views/lib/Drupal/leaflet_views/Plugin/views/style/LeafletMap.php:311 | the height is rejected only when not numeric or `< 0` | height `0` or `"0"` passes, giving a 0px map, while the error message says "positive number" | reject any height that is not a positive number, as `Leaflet.php:72` does with `<= 0` | medium; not executed | LeafletMapStyle.ZeroHeightAccepted | LeafletMapStyle.ValidateOptionsFormCorrected |

/**
 * The older field formatter `LeafletDefaultFormatter` (lib/Drupal/leaflet/Plugin/field/formatter/LeafletDefaultFormatter.php):
 * the same per-item features as the newer formatter, each map wrapped as `#markup`, with its default settings
 * declared in the plugin annotation.
 */
module LegacyLeafletDefaultFormatter {
  import opened Common
  import opened Php
  import LeafletDefaultFormatter

  /** `{"x" = "", "y" = ""}`. */
  function BlankOffset(): Value
  {
    Dict(map["x" := Str(""), "y" := Str("")])
  }

  /** The settings of the plugin annotation, with its anchor keys spelled `schadow_anchor` and `popop_anchor`. */
  function AnnotationSettings(): (settings: map<string, Value>)
    ensures settings.Keys == {"leaflet_map", "height", "popup", "icon"}
    ensures settings["leaflet_map"] == Str("") && settings["height"] == Str("400") && settings["popup"] == Int(0)
    ensures settings["icon"].Dict?
    ensures settings["icon"].d.Keys == {"icon_url", "shadow_url", "icon_size", "icon_anchor", "schadow_anchor", "popop_anchor"}
    ensures "shadow_anchor" !in settings["icon"].d && "popup_anchor" !in settings["icon"].d
  {
    map[
      "leaflet_map" := Str(""),
      "height" := Str("400"),
      "popup" := Int(0),
      "icon" := Dict(map[
        "icon_url" := Str(""),
        "shadow_url" := Str(""),
        "icon_size" := BlankOffset(),
        "icon_anchor" := BlankOffset(),
        "schadow_anchor" := BlankOffset(),
        "popop_anchor" := BlankOffset()])]
  }

  /** The annotation's defaults and the newer formatter's agree on everything the map output depends on. */
  lemma AnnotationDefaultsRenderLikeNewer(parent: map<string, Value>)
    ensures var old_ := AnnotationSettings();
      var new_ := LeafletDefaultFormatter.DefaultSettings(parent);
      && PixelHeight(Lookup(old_, "height")) == PixelHeight(Lookup(new_, "height")) == "400px"
      && !Truthy(Lookup(old_, "popup")) && !Truthy(Lookup(new_, "popup"))
      && LeafletDefaultFormatter.IconUrl(old_) == LeafletDefaultFormatter.IconUrl(new_) == Str("")
      && Lookup(old_, "leaflet_map") == Lookup(new_, "leaflet_map")
  {
    DefaultHeightText();
    AnnotationLookups();
    NewerLookups(parent);
  }

  lemma AnnotationLookups()
    ensures var a := AnnotationSettings();
      && Lookup(a, "height") == Str("400") && Lookup(a, "popup") == Int(0)
      && LeafletDefaultFormatter.IconUrl(a) == Str("") && Lookup(a, "leaflet_map") == Str("")
  {
  }

  lemma NewerLookups(parent: map<string, Value>)
    ensures var n := LeafletDefaultFormatter.DefaultSettings(parent);
      && Lookup(n, "height") == Int(400) && Lookup(n, "popup") == Bool(false)
      && LeafletDefaultFormatter.IconUrl(n) == Str("") && Lookup(n, "leaflet_map") == Str("")
  {
  }

  /** `settingsSummary` of the annotation defaults: the empty map name and the height "400". */
  lemma SummaryOfDefaults()
    ensures LeafletDefaultFormatter.SettingsSummary(AnnotationSettings())
         == [Translated("Leaflet map: @map", map["@map" := Str("")]),
             Translated("Map height: @height px", map["@height" := Str("400")])]
  {
  }

  /** A rendered map wrapped as `array('#markup' => ...)`. */
  datatype Markup = Markup(markup: MapElement<Point>)

  /** `viewElements`: one `#markup` element per item, at the item's delta, holding the newer formatter's map. */
  method ViewElements(
    entityLabel: Value, items: seq<Value>, settings: map<string, Value>,
    processGeofield: Value -> seq<Point>, mapInfo: Value -> Value)
    returns (elements: seq<Markup>)
    ensures |elements| == |items|
    ensures forall delta :: 0 <= delta < |items| ==>
      elements[delta] == Markup(LeafletDefaultFormatter.ItemElement(items, delta, settings, entityLabel, processGeofield, mapInfo))
  {
    var iconUrl := LeafletDefaultFormatter.IconUrl(settings);
    var map_ := mapInfo(Lookup(settings, "leaflet_map"));
    elements := [];
    var delta := 0;
    while delta < |items|
      invariant 0 <= delta <= |items|
      invariant |elements| == delta
      invariant forall d :: 0 <= d < delta ==>
        elements[d] == Markup(LeafletDefaultFormatter.ItemElement(items, d, settings, entityLabel, processGeofield, mapInfo))
    {
      var features := processGeofield(items[delta]);
      if Truthy(Lookup(settings, "popup")) && |items| == 1 {
        if features == [] {
          features := [map["popup" := entityLabel]];
        } else {
          features := features[0 := features[0]["popup" := entityLabel]];
        }
      }
      if Truthy(iconUrl) {
        features := StampAll(features, "icon", iconUrl);
      }
      elements := elements + [Markup(MapElement(map_, features, PixelHeight(Lookup(settings, "height"))))];
      delta := delta + 1;
    }
  }
}

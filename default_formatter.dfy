/**
 * The field formatter `LeafletDefaultFormatter` (src/Plugin/Field/FieldFormatter/LeafletDefaultFormatter.php):
 * one Leaflet map per geofield item, with the entity label as popup of a lone item and the configured icon URL
 * on every feature; its default settings, settings summary and icon URL check.
 */
module LeafletDefaultFormatter {
  import opened Common
  import opened Php

  /** `array('x' => 0, 'y' => 0)`. */
  function ZeroOffset(): Value
  {
    Dict(map["x" := Int(0), "y" := Int(0)])
  }

  /** The icon defaults: empty URLs and every size and anchor at the origin. */
  function IconDefaults(): map<string, Value>
  {
    map[
      "icon_url" := Str(""),
      "shadow_url" := Str(""),
      "icon_size" := ZeroOffset(),
      "icon_anchor" := ZeroOffset(),
      "shadow_anchor" := ZeroOffset(),
      "popup_anchor" := ZeroOffset()]
  }

  /** The formatter's own settings, before `+ parent::defaultSettings()`. */
  function OwnSettings(): map<string, Value>
  {
    map["leaflet_map" := Str(""), "height" := Int(400), "popup" := Bool(false), "icon" := Dict(IconDefaults())]
  }

  /** `defaultSettings`: the own settings `+` the parent's, so that on a shared key the own value wins. */
  function DefaultSettings(parent: map<string, Value>): (settings: map<string, Value>)
    ensures settings.Keys == parent.Keys + {"leaflet_map", "height", "popup", "icon"}
    ensures settings["leaflet_map"] == Str("") && settings["height"] == Int(400) && settings["popup"] == Bool(false)
    ensures settings["icon"].Dict? && settings["icon"].d.Keys
         == {"icon_url", "shadow_url", "icon_size", "icon_anchor", "shadow_anchor", "popup_anchor"}
    ensures forall k :: k in settings["icon"].d && k != "icon_url" && k != "shadow_url" ==> settings["icon"].d[k] == ZeroOffset()
    ensures settings["icon"].d["icon_url"] == Str("") && settings["icon"].d["shadow_url"] == Str("")
    ensures forall k :: k in parent && k !in OwnSettings() ==> settings[k] == parent[k]
  {
    parent + OwnSettings()
  }

  /** `settingsSummary`: two lines, the map and the height, each carrying its setting as placeholder. */
  function SettingsSummary(settings: map<string, Value>): (summary: seq<Value>)
    ensures |summary| == 2
    ensures summary[0] == Translated("Leaflet map: @map", map["@map" := Lookup(settings, "leaflet_map")])
    ensures summary[1] == Translated("Map height: @height px", map["@height" := Lookup(settings, "height")])
  {
    [Translated("Leaflet map: @map", map["@map" := Lookup(settings, "leaflet_map")]),
     Translated("Map height: @height px", map["@height" := Lookup(settings, "height")])]
  }

  /** `validateUrl`, with the URL validator as a parameter: an error exactly when the value is set and invalid. */
  function ValidateUrl(value: Value, isValid: Value -> bool): (errors: seq<Value>)
    ensures |errors| <= 1
    ensures |errors| == 1 <==> Truthy(value) && !isValid(value)
    ensures forall e :: e in errors ==> e == Message("Icon Url is not valid.")
  {
    if Truthy(value) && !isValid(value) then [Message("Icon Url is not valid.")] else []
  }

  /** `$settings['icon']['icon_url']`. */
  function IconUrl(settings: map<string, Value>): Value
  {
    Subscript(Lookup(settings, "icon"), "icon_url")
  }

  /**
   * The icon URL is the `icon_url` entry of an array `icon` setting, the first character of a non-empty
   * string setting, and NULL otherwise; so an icon is drawn exactly when the array entry is truthy or the
   * string does not start with `'0'`.
   */
  lemma IconUrlCases(settings: map<string, Value>)
    ensures var icon := Lookup(settings, "icon");
      && (icon.Dict? ==> IconUrl(settings) == Lookup(icon.d, "icon_url"))
      && (icon.Str? && icon.s != "" ==> IconUrl(settings) == Str([icon.s[0]]))
      && (Truthy(IconUrl(settings)) <==>
            || (icon.Dict? && Truthy(Lookup(icon.d, "icon_url")))
            || (icon.Str? && icon.s != "" && icon.s[0] != '0'))
  {
    var icon := Lookup(settings, "icon");
    if icon.Str? && icon.s != "" {
      assert icon.s[..1] == [icon.s[0]];
    }
  }

  /**
   * An item's features after the popup and icon steps. With `popup` on, the first feature's popup becomes the
   * label, and when there is no feature `$features[0]['popup'] = ...` creates one holding only the popup.
   * With a non-empty icon URL, every feature's icon is that URL. Nothing else changes.
   */
  function ItemFeatures(features: seq<Point>, popup: bool, title: Value, iconUrl: Value): (r: seq<Point>)
    ensures |r| == if popup && features == [] then 1 else |features|
    ensures popup ==> "popup" in r[0] && r[0]["popup"] == title
    ensures popup && features == [] ==> r[0].Keys == (if Truthy(iconUrl) then {"popup", "icon"} else {"popup"})
    ensures Truthy(iconUrl) ==> forall k :: 0 <= k < |r| ==> "icon" in r[k] && r[k]["icon"] == iconUrl
    ensures forall k, key :: 0 <= k < |features| && key in features[k]
              && (key != "popup" || !popup || k != 0) && (key != "icon" || !Truthy(iconUrl))
              ==> key in r[k] && r[k][key] == features[k][key]
    ensures forall k :: 0 <= k < |features| ==>
              r[k].Keys == features[k].Keys + (if popup && k == 0 then {"popup"} else {}) + (if Truthy(iconUrl) then {"icon"} else {})
  {
    var withPopup :=
      if !popup then features
      else if features == [] then [map["popup" := title]]
      else features[0 := features[0]["popup" := title]];
    if Truthy(iconUrl) then Stamped(withPopup, "icon", iconUrl) else withPopup
  }

  /** With popup off and no icon URL, an item's features pass through untouched. */
  lemma ItemFeaturesUntouched(features: seq<Point>, title: Value, iconUrl: Value)
    requires !Truthy(iconUrl)
    ensures ItemFeatures(features, false, title, iconUrl) == features
  {
  }

  /** The element `viewElements` produces for item `delta`. */
  function ItemElement(
    items: seq<Value>, delta: nat, settings: map<string, Value>, entityLabel: Value,
    processGeofield: Value -> seq<Point>, mapInfo: Value -> Value): MapElement<Point>
    requires delta < |items|
  {
    var popup := Truthy(Lookup(settings, "popup")) && |items| == 1;
    MapElement(
      mapInfo(Lookup(settings, "leaflet_map")),
      ItemFeatures(processGeofield(items[delta]), popup, entityLabel, IconUrl(settings)),
      PixelHeight(Lookup(settings, "height")))
  }

  /** `viewElements`: one map per item, at the item's delta, built by the in-place popup and icon updates. */
  method ViewElements(
    items: seq<Value>, settings: map<string, Value>, entityLabel: Value,
    processGeofield: Value -> seq<Point>, mapInfo: Value -> Value)
    returns (elements: seq<MapElement<Point>>)
    ensures |elements| == |items|
    ensures forall delta :: 0 <= delta < |items| ==>
      elements[delta] == ItemElement(items, delta, settings, entityLabel, processGeofield, mapInfo)
  {
    var iconUrl := IconUrl(settings);
    var map_ := mapInfo(Lookup(settings, "leaflet_map"));
    elements := [];
    var delta := 0;
    while delta < |items|
      invariant 0 <= delta <= |items|
      invariant |elements| == delta
      invariant forall d :: 0 <= d < delta ==>
        elements[d] == ItemElement(items, d, settings, entityLabel, processGeofield, mapInfo)
    {
      var features := processGeofield(items[delta]);
      if Truthy(Lookup(settings, "popup")) && |items| == 1 {
        if features == [] {
          features := [map["popup" := entityLabel]];
        } else {
          features := features[0 := features[0]["popup" := entityLabel]];
        }
      }
      if Truthy(iconUrl) {
        features := StampAll(features, "icon", iconUrl);
      }
      elements := elements + [MapElement(map_, features, PixelHeight(Lookup(settings, "height")))];
      delta := delta + 1;
    }
  }

  /** Only a lone item gets the entity label as popup: with several items no popup is written. */
  lemma PopupOnlyForLoneItem(
    items: seq<Value>, delta: nat, settings: map<string, Value>, entityLabel: Value,
    processGeofield: Value -> seq<Point>, mapInfo: Value -> Value)
    requires delta < |items| && |items| != 1
    ensures ItemElement(items, delta, settings, entityLabel, processGeofield, mapInfo).features
         == ItemFeatures(processGeofield(items[delta]), false, entityLabel, IconUrl(settings))
  {
  }

  /** The default settings draw no popup and no icon: every item's features are passed on unchanged. */
  lemma DefaultsLeaveFeaturesAlone(
    parent: map<string, Value>, items: seq<Value>, delta: nat, title: Value,
    processGeofield: Value -> seq<Point>, mapInfo: Value -> Value)
    requires delta < |items|
    ensures var e := ItemElement(items, delta, DefaultSettings(parent), title, processGeofield, mapInfo);
      e.features == processGeofield(items[delta]) && e.height == "400px"
  {
    var settings := DefaultSettings(parent);
    assert IconUrl(settings) == Str("");
    assert !Truthy(Lookup(settings, "popup"));
    ItemFeaturesUntouched(processGeofield(items[delta]), title, IconUrl(settings));
    assert Lookup(settings, "height") == Int(400);
    DefaultHeightText();
  }
}

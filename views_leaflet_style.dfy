/**
 * The Views style plugin `Leaflet` (leaflet_views/src/Plugin/views/style/Leaflet.php): it embeds every
 * attached view, folds the render tree of each into one feature list, and hands the list to
 * `leaflet_render_map()`; plus its option defaults and the two validation hooks.
 */
module LeafletViewsStyle {
  import opened Common
  import opened Php

  /** A `#leaflet` value that `isset()` accepts. */
  type Tag = v: Value | !v.Null? witness Str("markers")

  /**
   * The render tree `extract_features` walks. `Element` is an array with a set `#leaflet` key, with its
   * `#markers`, `#points`, `#popup` and `#title` entries (a missing `#markers`, `#popup` or `#title` reads as
   * NULL; `#points` is always a list of points);
   * `Rows` is any other array, given by its values in order; `Scalar` is anything that is not an array.
   */
  datatype Node =
    | Element(tag: Tag, markers: Node, points: seq<Point>, popup: Value, title: Value)
    | Rows(rows: seq<Node>)
    | Scalar(v: Value)

  /** `$data['#popup']['body']`. */
  function PopupBody(popup: Value): Value
  {
    Subscript(popup, "body")
  }

  /** What `extract_features` returns for a node. */
  function Extract(data: Node): seq<Entry>
    decreases data
  {
    match data
    case Element(tag, markers, points, popup, title) =>
      if LooseEqualsWord(tag, "markers") then Extract(markers)
      else if LooseEqualsWord(tag, "marker") then AsFeatures(Stamped(points, "popup", PopupBody(popup)))
      else if LooseEqualsWord(tag, "LayerGroup") || LooseEqualsWord(tag, "MarkerClusterGroup") then
        [Group(title, Extract(markers))]
      else []
    case Rows(rows) => ExtractRows(rows)
    case Scalar(_) => []
  }

  /** The rows' extractions, concatenated in row order. */
  function ExtractRows(rows: seq<Node>): seq<Entry>
    decreases rows
  {
    if rows == [] then [] else ExtractRows(rows[..|rows| - 1]) + Extract(rows[|rows| - 1])
  }

  /** `extract_features`: structural recursion, with the by-reference point loop and the row loop. */
  method ExtractFeatures(data: Node) returns (features: seq<Entry>)
    ensures features == Extract(data)
    decreases data
  {
    match data {
      case Element(tag, markers, points, popup, title) =>
        if LooseEqualsWord(tag, "markers") {
          features := ExtractFeatures(markers);
        } else if LooseEqualsWord(tag, "marker") {
          var stamped := StampAll(points, "popup", PopupBody(popup));
          features := AsFeatures(stamped);
        } else if LooseEqualsWord(tag, "LayerGroup") || LooseEqualsWord(tag, "MarkerClusterGroup") {
          var inner := ExtractFeatures(markers);
          features := [Group(title, inner)];
        } else {
          features := [];
        }
      case Rows(rows) =>
        features := [];
        var i := 0;
        while i < |rows|
          invariant 0 <= i <= |rows|
          invariant features == ExtractRows(rows[..i])
        {
          var more := ExtractFeatures(rows[i]);
          assert rows[..i + 1][..i] == rows[..i];
          features := features + more;
          i := i + 1;
        }
        assert rows[..i] == rows;
      case Scalar(_) =>
        features := [];
    }
  }

  lemma {:induction false} ExtractRowsAppend(a: seq<Node>, b: seq<Node>)
    ensures ExtractRows(a + b) == ExtractRows(a) + ExtractRows(b)
    decreases |b|
  {
    if b == [] {
      assert a + b == a;
    } else {
      var n := |b| - 1;
      assert (a + b)[..|a + b| - 1] == a + b[..n];
      ExtractRowsAppend(a, b[..n]);
    }
  }

  /** A `markers` node extracts to what its `#markers` child extracts to. */
  lemma MarkersNodeIsTransparent(m: Node, points: seq<Point>, popup: Value, title: Value)
    ensures Extract(Element(Str("markers"), m, points, popup, title)) == Extract(m)
  {
  }

  /**
   * A `marker` node yields its points, as many and in the same order, each with `popup` set to
   * `#popup['body']` and every other key kept.
   */
  lemma MarkerNodeStampsPopup(m: Node, points: seq<Point>, popup: Value, title: Value)
    ensures var r := Extract(Element(Str("marker"), m, points, popup, title));
      && |r| == |points|
      && forall i :: 0 <= i < |r| ==>
           && r[i].Feature?
           && r[i].props.Keys == points[i].Keys + {"popup"}
           && (popup.Dict? ==> r[i].props["popup"] == Lookup(popup.d, "body"))
           && (popup.Str? ==> r[i].props["popup"] == Str(if popup.s == "" then "" else popup.s[..1]))
           && (!popup.Dict? && !popup.Str? ==> r[i].props["popup"] == Null)
           && forall k :: k in points[i] && k != "popup" ==> r[i].props[k] == points[i][k]
  {
  }

  /** A `LayerGroup` or `MarkerClusterGroup` node yields one group entry labelled with `#title`. */
  lemma GroupNodeYieldsOneGroup(tag: Tag, m: Node, points: seq<Point>, popup: Value, title: Value)
    requires tag == Str("LayerGroup") || tag == Str("MarkerClusterGroup")
    ensures Extract(Element(tag, m, points, popup, title)) == [Group(title, Extract(m))]
  {
  }

  /** A `#leaflet` string that is none of the four words yields nothing. */
  lemma UnknownTagYieldsNothing(word: string, m: Node, points: seq<Point>, popup: Value, title: Value)
    requires word !in {"markers", "marker", "LayerGroup", "MarkerClusterGroup"}
    ensures Extract(Element(Str(word), m, points, popup, title)) == []
  {
  }

  // ---------------------------------------------------------------------------------------------
  // Every marker point survives extraction
  // ---------------------------------------------------------------------------------------------

  /** The features of an entry list, with groups opened up, in order. */
  function FeaturePoints(entries: seq<Entry>): seq<Point>
    decreases entries
  {
    if entries == [] then [] else FeaturePoints(entries[..|entries| - 1]) + EntryPoints(entries[|entries| - 1])
  }

  /** The features of one entry: the feature itself, or the opened-up contents of the group. */
  function EntryPoints(e: Entry): seq<Point>
    decreases e
  {
    match e
    case Feature(props) => [props]
    case Group(_, features) => FeaturePoints(features)
  }

  /** The points of every `marker` node reachable in the tree, popup applied, in document order. */
  function MarkerPoints(data: Node): seq<Point>
    decreases data
  {
    match data
    case Element(tag, markers, points, popup, _) =>
      if LooseEqualsWord(tag, "markers") then MarkerPoints(markers)
      else if LooseEqualsWord(tag, "marker") then Stamped(points, "popup", PopupBody(popup))
      else if LooseEqualsWord(tag, "LayerGroup") || LooseEqualsWord(tag, "MarkerClusterGroup") then MarkerPoints(markers)
      else []
    case Rows(rows) => RowsMarkerPoints(rows)
    case Scalar(_) => []
  }

  function RowsMarkerPoints(rows: seq<Node>): seq<Point>
    decreases rows
  {
    if rows == [] then [] else RowsMarkerPoints(rows[..|rows| - 1]) + MarkerPoints(rows[|rows| - 1])
  }

  lemma {:induction false} FeaturePointsAppend(a: seq<Entry>, b: seq<Entry>)
    ensures FeaturePoints(a + b) == FeaturePoints(a) + FeaturePoints(b)
    decreases |b|
  {
    if b == [] {
      assert a + b == a;
    } else {
      var n := |b| - 1;
      assert (a + b)[..|a + b| - 1] == a + b[..n];
      assert (a + b)[|a + b| - 1] == b[n];
      FeaturePointsAppend(a, b[..n]);
    }
  }

  lemma {:induction false} FeaturePointsOfFeatures(points: seq<Point>)
    ensures FeaturePoints(AsFeatures(points)) == points
    decreases |points|
  {
    if points != [] {
      var n := |points| - 1;
      assert AsFeatures(points)[..n] == AsFeatures(points[..n]);
      FeaturePointsOfFeatures(points[..n]);
      assert points[..n] + [points[n]] == points;
    }
  }

  /**
   * Extraction loses and invents no point: the features it yields, groups opened up, are exactly the
   * points of the tree's `marker` nodes with their popups, in order.
   */
  lemma {:induction false} ExtractKeepsEveryMarkerPoint(data: Node)
    ensures FeaturePoints(Extract(data)) == MarkerPoints(data)
    decreases data, 1
  {
    match data
    case Element(tag, markers, points, popup, title) =>
      if LooseEqualsWord(tag, "markers") {
        ExtractKeepsEveryMarkerPoint(markers);
      } else if LooseEqualsWord(tag, "marker") {
        FeaturePointsOfFeatures(Stamped(points, "popup", PopupBody(popup)));
      } else if LooseEqualsWord(tag, "LayerGroup") || LooseEqualsWord(tag, "MarkerClusterGroup") {
        ExtractKeepsEveryMarkerPoint(markers);
        var g := [Group(title, Extract(markers))];
        assert g[..0] == [];
        assert FeaturePoints(g) == FeaturePoints([]) + EntryPoints(g[0]);
      }
    case Rows(rows) =>
      RowsKeepEveryMarkerPoint(rows);
    case Scalar(_) =>
  }

  lemma {:induction false} RowsKeepEveryMarkerPoint(rows: seq<Node>)
    ensures FeaturePoints(ExtractRows(rows)) == RowsMarkerPoints(rows)
    decreases rows, 0
  {
    if rows != [] {
      var n := |rows| - 1;
      RowsKeepEveryMarkerPoint(rows[..n]);
      ExtractKeepsEveryMarkerPoint(rows[n]);
      FeaturePointsAppend(ExtractRows(rows[..n]), Extract(rows[n]));
    }
  }

  // ---------------------------------------------------------------------------------------------
  // render
  // ---------------------------------------------------------------------------------------------

  /** One entry of `$this->view->attachment_before`. */
  datatype Attachment = Attachment(name: string, displayId: string, arguments: seq<Value>)

  /** The arguments `views_embed_view` receives: the view name, the display id, then the attachment's arguments. */
  function EmbedArgs(a: Attachment): (args: seq<Value>)
    ensures |args| == |a.arguments| + 2
    ensures args[0] == Str(a.name) && args[1] == Str(a.displayId)
    ensures args[2..] == a.arguments
  {
    [Str(a.name), Str(a.displayId)] + a.arguments
  }

  /**
   * The features of all attachments: the extraction of each one's `#rows`, concatenated in attachment
   * order. `rowsOf` stands for `views_embed_view(...)['#rows']`.
   */
  function AttachmentFeatures(attachments: seq<Attachment>, rowsOf: seq<Value> -> Node): seq<Entry>
  {
    if attachments == [] then []
    else
      var n := |attachments| - 1;
      AttachmentFeatures(attachments[..n], rowsOf) + Extract(rowsOf(EmbedArgs(attachments[n])))
  }

  /** Merging per attachment is the same as extracting one array holding every attachment's `#rows`. */
  lemma {:induction false} AttachmentFeaturesAreOneExtraction(attachments: seq<Attachment>, rowsOf: seq<Value> -> Node)
    ensures AttachmentFeatures(attachments, rowsOf)
         == Extract(Rows(seq(|attachments|, i requires 0 <= i < |attachments| => rowsOf(EmbedArgs(attachments[i])))))
  {
    var all := seq(|attachments|, i requires 0 <= i < |attachments| => rowsOf(EmbedArgs(attachments[i])));
    if attachments != [] {
      var n := |attachments| - 1;
      AttachmentFeaturesAreOneExtraction(attachments[..n], rowsOf);
      var pre := seq(n, i requires 0 <= i < n => rowsOf(EmbedArgs(attachments[..n][i])));
      assert all[..n] == pre;
    }
  }

  /** The value `render` returns: the `leaflet_render_map()` element, or (in a preview) its printed dump. */
  datatype StyleOutput = Plain(element: MapElement<Entry>) | Preview(printed: MapElement<Entry>)

  /** `render`: embed every attachment, merge the extracted features, build the map element. */
  method Render(
    attachments: seq<Attachment>,
    options: map<string, Value>,
    preview: bool,
    rowsOf: seq<Value> -> Node,
    mapInfo: Value -> Value)
    returns (out: StyleOutput)
    ensures var element := if out.Plain? then out.element else out.printed;
      && element.mapInfo == mapInfo(Lookup(options, "map"))
      && element.features == AttachmentFeatures(attachments, rowsOf)
      && element.height == PixelHeight(Lookup(options, "height"))
    ensures out.Preview? <==> preview
  {
    var features := [];
    var i := 0;
    while i < |attachments|
      invariant 0 <= i <= |attachments|
      invariant features == AttachmentFeatures(attachments[..i], rowsOf)
    {
      var attachment := attachments[i];
      var args := attachment.arguments;
      args := [Str(attachment.displayId)] + args;
      args := [Str(attachment.name)] + args;
      var viewRows := rowsOf(args);
      var more := ExtractFeatures(viewRows);
      assert attachments[..i + 1][..i] == attachments[..i];
      assert args == EmbedArgs(attachments[..i + 1][i]);
      features := features + more;
      i := i + 1;
    }
    assert attachments[..i] == attachments;
    var element := MapElement(mapInfo(Lookup(options, "map")), features, PixelHeight(Lookup(options, "height")));
    if preview {
      out := Preview(element);
    } else {
      out := Plain(element);
    }
  }

  // ---------------------------------------------------------------------------------------------
  // Options and validation
  // ---------------------------------------------------------------------------------------------

  /** An error set on a form element, by element name. */
  datatype FormError = FormError(element: string, message: Value)

  /** `!is_numeric($height) || $height <= 0`. */
  predicate HeightRejected(height: Value)
  {
    NumericSign(height).None? || NumericSign(height).value <= 0
  }

  /** `validateOptionsForm`: the parent's errors, then one error on `height` exactly when the height is rejected. */
  function ValidateOptionsForm(parentErrors: seq<FormError>, height: Value): (errors: seq<FormError>)
    ensures |errors| == |parentErrors| + (if HeightRejected(height) then 1 else 0)
    ensures errors[..|parentErrors|] == parentErrors
    ensures HeightRejected(height) ==>
      errors[|parentErrors|] == FormError("height", Message("Map height needs to be a positive number."))
  {
    if HeightRejected(height)
    then parentErrors + [FormError("height", Message("Map height needs to be a positive number."))]
    else parentErrors
  }

  /** A height given as an integer or the decimal string of an integer is accepted exactly when it is positive. */
  lemma HeightAcceptedIffPositive(n: int)
    ensures !HeightRejected(Int(n)) <==> n > 0
    ensures !HeightRejected(Str(Decimal(n))) <==> n > 0
  {
    DecimalIsNumeric(n);
    assert NumericSign(Str(Decimal(n))) == NumericSign(Int(n));
  }

  /** The message `validate` adds for a missing map. */
  function MissingMapError(styleTitle: Value): Value
  {
    Translated("Style @style requires a leaflet map to be configured.", map["@style" := styleTitle])
  }

  /** `validate`: the parent's errors, then one more exactly when the `map` option is empty. */
  function Validate(parentErrors: seq<Value>, options: map<string, Value>, styleTitle: Value): (errors: seq<Value>)
    ensures |errors| == |parentErrors| || |errors| == |parentErrors| + 1
    ensures errors[..|parentErrors|] == parentErrors
    ensures |errors| == |parentErrors| + 1 <==> !Truthy(Lookup(options, "map"))
    ensures |errors| > |parentErrors| ==> errors[|parentErrors|] == MissingMapError(styleTitle)
  {
    if !Truthy(Lookup(options, "map")) then parentErrors + [MissingMapError(styleTitle)] else parentErrors
  }

  /** An option definition `array('default' => v)`. */
  function Default(v: Value): Value
  {
    Dict(map["default" := v])
  }

  /** `defineOptions`: the parent's definitions, with `map` defaulting to `''` and `height` to `'400'`. */
  function DefineOptions(parent: map<string, Value>): (options: map<string, Value>)
    ensures options.Keys == parent.Keys + {"map", "height"}
    ensures options["map"] == Default(Str("")) && options["height"] == Default(Str("400"))
    ensures forall k :: k in parent && k !in {"map", "height"} ==> options[k] == parent[k]
  {
    parent["map" := Default(Str(""))]["height" := Default(Str("400"))]
  }

  /** The option values a fresh display starts with. */
  function DefaultValues(definitions: map<string, Value>): map<string, Value>
  {
    map k | k in definitions && definitions[k].Dict? && "default" in definitions[k].d :: definitions[k].d["default"]
  }

  /**
   * With the defaults, the height passes `validateOptionsForm` but `validate` reports the missing map:
   * a new display must be given a map before it is valid.
   */
  lemma DefaultsNeedAMap(parent: map<string, Value>, parentErrors: seq<Value>, title: Value)
    ensures var values := DefaultValues(DefineOptions(parent));
      && ValidateOptionsForm([], Lookup(values, "height")) == []
      && Validate(parentErrors, values, title) == parentErrors + [MissingMapError(title)]
  {
    var values := DefaultValues(DefineOptions(parent));
    assert Lookup(values, "map") == Str("");
    DefaultHeightText();
    assert Lookup(values, "height") == Str(Decimal(400));
    HeightAcceptedIffPositive(400);
  }
}

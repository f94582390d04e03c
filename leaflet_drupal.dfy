/**
 * The browser behaviour `Drupal.behaviors.leaflet.attach` (leaflet.drupal.js): for every map in the page
 * settings it copies the map settings, creates the tile layers (adding only the first one to the map),
 * optionally adds a layer switcher, turns every feature into a Leaflet vector layer while collecting its
 * vertices into `bounds`, binds popups, then centres or fits the map and sets the attribution.
 *
 * Leaflet itself is not modelled: every call into it is recorded, in order, as a `Call`. Coordinates are
 * opaque pairs; only their order and number matter.
 */
module LeafletBehavior {
  import opened Common

  // ---------------------------------------------------------------------------------------------
  // JavaScript values and the settings objects read by the behaviour
  // ---------------------------------------------------------------------------------------------

  datatype JsValue = Undefined | Null | Bool(b: bool) | Number(n: real) | String(s: string) | Object(ref: nat)

  /** JavaScript truthiness (NaN is not modelled). */
  predicate Truthy(v: JsValue)
  {
    match v
    case Undefined => false
    case Null => false
    case Bool(b) => b
    case Number(n) => n != 0.0
    case String(s) => s != ""
    case Object(_) => true
  }

  /** A plain JavaScript object used as an option bag. */
  type Options = map<string, JsValue>

  /** `o[k]`, `undefined` when the key is absent. */
  function Get(o: Options, k: string): JsValue
  {
    if k in o then o[k] else Undefined
  }

  datatype LatLng = LatLng(lat: real, lon: real)

  /** An `{x, y}` pair of icon pixel offsets, passed through unchanged. */
  datatype Offset = Offset(x: JsValue, y: JsValue)

  datatype IconSpec = IconSpec(iconUrl: JsValue, shadowUrl: JsValue, iconSize: Offset, iconAnchor: Offset, popupAnchor: Offset)

  /**
   * One entry of `this.features`. `kind` is `feature.type`; a point uses `at` (its lat/lon) and `icon`,
   * a linestring or polygon uses `points`, a multipolygon or multipolyline uses `component` (the points of
   * each component in order).
   */
  datatype Feature = Feature(
    kind: JsValue,
    at: LatLng,
    points: seq<LatLng>,
    component: seq<seq<LatLng>>,
    popup: JsValue,
    icon: Option<IconSpec>)

  /** One entry of `this.map.layers`. */
  datatype LayerSpec = LayerSpec(urlTemplate: string, options: Option<Options>, layerType: JsValue)

  datatype Attribution = Attribution(prefix: JsValue, text: JsValue)

  /** One entry of `settings.leaflet`: the container id and `this.map` (settings, layers, center, attribution). */
  datatype MapSpec = MapSpec(
    mapId: JsValue,
    settings: Options,
    layers: seq<(string, LayerSpec)>,
    center: Option<LatLng>,
    attribution: Option<Attribution>,
    features: seq<Feature>)

  // ---------------------------------------------------------------------------------------------
  // Leaflet objects and calls, recorded abstractly
  // ---------------------------------------------------------------------------------------------

  datatype Icon = Icon(url: JsValue, size: Offset, anchor: Offset, popupAnchor: Offset, shadowUrl: JsValue)

  /** The vector layers the behaviour constructs. A multipolyline is built as an `L.MultiPolygon` too. */
  datatype Shape =
    | Marker(position: LatLng, icon: Option<Icon>)
    | Polyline(path: seq<LatLng>)
    | Polygon(ring: seq<LatLng>)
    | MultiPolygon(rings: seq<seq<LatLng>>)

  /** An `L.TileLayer`: its URL template, its options after copying, and whether `getTileUrl` is the TileStream one. */
  datatype TileLayer = TileLayer(url: string, options: Options, tileStream: bool)

  /** What a call receives as a layer: a tile layer, the i-th vector layer built for this map, or `undefined`. */
  datatype LayerRef = Tile(tile: TileLayer) | Vector(index: nat) | UndefinedLayer

  datatype Call =
    | NewMap(container: JsValue, mapSettings: Options)
    | AddLayer(layer: LayerRef)
    | AddLayerControl(switchable: map<string, TileLayer>)
    | BindPopup(target: LayerRef, content: JsValue)
    | SetView(center: LatLng, zoom: JsValue)
    | FitBounds(bounds: seq<LatLng>)
    | SetPrefix(prefix: JsValue)
    | AddAttribution(text: JsValue)

  /**
   * The outcome of building one map: the calls made, the vector layers built (indexed by `Vector`), and
   * whether the build stopped with a TypeError (`bindPopup` called on `undefined`).
   */
  datatype MapResult = MapResult(calls: seq<Call>, shapes: seq<Shape>, threw: bool)

  // ---------------------------------------------------------------------------------------------
  // Option copying
  // ---------------------------------------------------------------------------------------------

  /**
   * `for (var k in source) target[k] = source[k];`: every key of `source` is written with its value,
   * every other key of `target` keeps its value, and no other key appears.
   */
  method CopyOptions(target: Options, source: Options) returns (r: Options)
    ensures r.Keys == target.Keys + source.Keys
    ensures forall k :: k in source ==> r[k] == source[k]
    ensures forall k :: k in target && k !in source ==> r[k] == target[k]
    ensures r == target + source
  {
    r := target;
    var todo := source.Keys;
    while todo != {}
      invariant todo <= source.Keys
      invariant r.Keys == target.Keys + (source.Keys - todo)
      invariant forall k :: k in source.Keys - todo ==> r[k] == source[k]
      invariant forall k :: k in target && k !in source.Keys - todo ==> r[k] == target[k]
      decreases todo
    {
      var k :| k in todo;
      r := r[k := source[k]];
      todo := todo - {k};
    }
    assert r == target + source;
  }

  // ---------------------------------------------------------------------------------------------
  // Tile layers
  // ---------------------------------------------------------------------------------------------

  /** The tile layer built for one layer entry, starting from Leaflet's default tile options. */
  function MakeTile(spec: LayerSpec, defaults: Options): TileLayer
  {
    TileLayer(
      spec.urlTemplate,
      if spec.options.Some? then defaults + spec.options.value else defaults,
      spec.layerType == String("tilestream"))
  }

  predicate DistinctKeys<V>(entries: seq<(string, V)>)
  {
    forall i, j :: 0 <= i < j < |entries| ==> entries[i].0 != entries[j].0
  }

  function KeySet<V>(entries: seq<(string, V)>): set<string>
  {
    set i | 0 <= i < |entries| :: entries[i].0
  }

  /** The `layers` object after the layer loop: every key is stored, with the tile layer built for it. */
  function NamedLayers(layers: seq<(string, LayerSpec)>, defaults: Options): map<string, TileLayer>
  {
    if layers == [] then map[]
    else NamedLayers(layers[..|layers| - 1], defaults)[layers[|layers| - 1].0 := MakeTile(layers[|layers| - 1].1, defaults)]
  }

  /** The `layers` object holds exactly the keys of the layer list. */
  lemma {:induction false} NamedLayersKeys(layers: seq<(string, LayerSpec)>, defaults: Options)
    ensures NamedLayers(layers, defaults).Keys == KeySet(layers)
  {
    if layers != [] {
      var n := |layers| - 1;
      var pre := layers[..n];
      NamedLayersKeys(pre, defaults);
      forall k | k in KeySet(layers) ensures k in KeySet(pre) + {layers[n].0} {
        var i :| 0 <= i < |layers| && layers[i].0 == k;
        if i < n { assert pre[i] == layers[i]; }
      }
      forall k | k in KeySet(pre) ensures k in KeySet(layers) {
        var i :| 0 <= i < n && pre[i].0 == k;
        assert layers[i] == pre[i];
      }
    }
  }

  /** With distinct keys, each key of the `layers` object holds the tile layer built for its own entry. */
  lemma {:induction false} NamedLayersValues(layers: seq<(string, LayerSpec)>, defaults: Options)
    requires DistinctKeys(layers)
    ensures forall j :: 0 <= j < |layers| ==>
      layers[j].0 in NamedLayers(layers, defaults) && NamedLayers(layers, defaults)[layers[j].0] == MakeTile(layers[j].1, defaults)
  {
    NamedLayersKeys(layers, defaults);
    if layers != [] {
      var n := |layers| - 1;
      var pre := layers[..n];
      assert DistinctKeys(pre) by {
        forall a, b | 0 <= a < b < |pre| ensures pre[a].0 != pre[b].0 {
          assert pre[a] == layers[a] && pre[b] == layers[b];
        }
      }
      NamedLayersValues(pre, defaults);
      NamedLayersKeys(pre, defaults);
      forall j | 0 <= j < n
        ensures layers[j].0 in NamedLayers(layers, defaults) && NamedLayers(layers, defaults)[layers[j].0] == MakeTile(layers[j].1, defaults)
      {
        assert pre[j] == layers[j];
        assert layers[j].0 != layers[n].0;
      }
    }
  }

  /** The tile-layer `addLayer` calls: the first layer in iteration order, and only it. */
  function LayerCalls(layers: seq<(string, LayerSpec)>, defaults: Options): seq<Call>
  {
    if layers == [] then [] else [AddLayer(Tile(MakeTile(layers[0].1, defaults)))]
  }

  /** The layer loop: builds every tile layer, stores it under its key and adds the first one (`i === 0`) to the map. */
  method BuildLayers(layers: seq<(string, LayerSpec)>, defaults: Options) returns (named: map<string, TileLayer>, added: seq<Call>)
    ensures named == NamedLayers(layers, defaults)
    ensures added == LayerCalls(layers, defaults)
  {
    named, added := map[], [];
    var i := 0;
    while i < |layers|
      invariant 0 <= i <= |layers|
      invariant named == NamedLayers(layers[..i], defaults)
      invariant added == LayerCalls(layers[..i], defaults)
    {
      var (key, layer) := layers[i];
      var options := defaults;
      if layer.options.Some? {
        options := CopyOptions(options, layer.options.value);
      }
      var mapLayer := TileLayer(layer.urlTemplate, options, layer.layerType == String("tilestream"));
      named := named[key := mapLayer];
      if i == 0 {
        added := added + [AddLayer(Tile(mapLayer))];
      }
      assert layers[..i + 1][..i] == layers[..i];
      i := i + 1;
    }
    assert layers[..i] == layers;
  }

  // ---------------------------------------------------------------------------------------------
  // The TileStream tile URL
  // ---------------------------------------------------------------------------------------------

  /** 2 to the power `n` (`Math.pow(2, zoom)`, exact). */
  function Pow2(n: nat): (p: nat)
    ensures p >= 1
  {
    if n == 0 then 1 else 2 * Pow2(n - 1)
  }

  /** The y coordinate the TileStream override substitutes: `2^zoom - y - 1`. */
  function InvertedY(zoom: nat, y: int): int
  {
    Pow2(zoom) - y - 1
  }

  /** Inverting the y coordinate maps the tile rows of a zoom level onto themselves and undoes itself. */
  lemma InvertedYFlipsRows(zoom: nat, y: int)
    requires 0 <= y < Pow2(zoom)
    ensures 0 <= InvertedY(zoom, y) < Pow2(zoom)
    ensures InvertedY(zoom, InvertedY(zoom, y)) == y
    ensures y < Pow2(zoom) - 1 ==> InvertedY(zoom, y + 1) == InvertedY(zoom, y) - 1
  {
  }

  predicate OccursAt(s: string, pattern: string, i: nat)
  {
    i + |pattern| <= |s| && s[i..i + |pattern|] == pattern
  }

  /** `s.replace(pattern, replacement)` with a string pattern: only the first occurrence is replaced. */
  function ReplaceFirst(s: string, pattern: string, replacement: string): string
    requires |pattern| > 0
    decreases |s|
  {
    if |s| < |pattern| then s
    else if s[..|pattern|] == pattern then replacement + s[|pattern|..]
    else [s[0]] + ReplaceFirst(s[1..], pattern, replacement)
  }

  /** Dropping the first character moves every occurrence one place to the left. */
  lemma ShiftedOccurrence(s: string, pattern: string, j: nat)
    requires |s| > 0
    ensures OccursAt(s[1..], pattern, j) <==> OccursAt(s, pattern, j + 1)
  {
    if j + |pattern| <= |s| - 1 {
      assert s[1..][j..j + |pattern|] == s[j + 1..j + 1 + |pattern|];
    }
  }

  /** Where the pattern does not start the string, the first character is kept and the rest is searched. */
  lemma ReplaceFirstSkips(s: string, pattern: string, replacement: string)
    requires |pattern| > 0 && |s| >= |pattern| && !OccursAt(s, pattern, 0)
    ensures ReplaceFirst(s, pattern, replacement) == [s[0]] + ReplaceFirst(s[1..], pattern, replacement)
  {
  }

  /** No occurrence before `i` in `s` means none before `i - 1` in its tail. */
  lemma NoneBeforeInTail(s: string, pattern: string, i: nat)
    requires 0 < i <= |s|
    requires forall j :: 0 <= j < i ==> !OccursAt(s, pattern, j)
    ensures forall j :: 0 <= j < i - 1 ==> !OccursAt(s[1..], pattern, j)
  {
    forall j | 0 <= j < i - 1
      ensures !OccursAt(s[1..], pattern, j)
    {
      ShiftedOccurrence(s, pattern, j);
    }
  }

  /** Putting the first character back in front of a split of the tail. */
  lemma ConsSplit(s: string, r: string, i: nat, k: nat)
    requires 0 < i <= k <= |s|
    ensures [s[0]] + (s[1..][..i - 1] + r + s[1..][k - 1..]) == s[..i] + r + s[k..]
  {
    assert [s[0]] + s[1..][..i - 1] == s[..i];
    assert s[1..][k - 1..] == s[k..];
  }

  /** When the pattern first occurs at `i`, exactly that occurrence is replaced. */
  lemma {:induction false} ReplaceFirstAt(s: string, pattern: string, replacement: string, i: nat)
    requires |pattern| > 0 && OccursAt(s, pattern, i)
    requires forall j :: 0 <= j < i ==> !OccursAt(s, pattern, j)
    ensures ReplaceFirst(s, pattern, replacement) == s[..i] + replacement + s[i + |pattern|..]
    decreases i
  {
    if i == 0 {
      assert s[..|pattern|] == pattern;
    } else {
      ReplaceFirstSkips(s, pattern, replacement);
      NoneBeforeInTail(s, pattern, i);
      ShiftedOccurrence(s, pattern, i - 1);
      ReplaceFirstAt(s[1..], pattern, replacement, i - 1);
      ConsSplit(s, replacement, i, i + |pattern|);
    }
  }

  /** When the pattern does not occur, the string is unchanged. */
  lemma {:induction false} ReplaceFirstAbsent(s: string, pattern: string, replacement: string)
    requires |pattern| > 0
    requires forall j :: 0 <= j <= |s| ==> !OccursAt(s, pattern, j)
    ensures ReplaceFirst(s, pattern, replacement) == s
    decreases |s|
  {
    if |s| >= |pattern| {
      assert !OccursAt(s, pattern, 0);
      var t := s[1..];
      forall j | 0 <= j <= |t|
        ensures !OccursAt(t, pattern, j)
      {
        ShiftedOccurrence(s, pattern, j);
      }
      ReplaceFirstAbsent(t, pattern, replacement);
    }
  }

  /** The URL the TileStream `getTileUrl` override returns; the subdomain it computes is never used. */
  function TileStreamUrl(url: string, x: int, y: int, zoom: nat): string
  {
    var withZ := ReplaceFirst(url, "{z}", Decimal(zoom));
    var withX := ReplaceFirst(withZ, "{x}", Decimal(x));
    ReplaceFirst(withX, "{y}", Decimal(InvertedY(zoom, y)))
  }

  predicate NoBrace(s: string)
  {
    forall i :: 0 <= i < |s| ==> s[i] != '{'
  }

  lemma ReplaceAfterPlainText(p: string, pattern: string, rest: string, replacement: string)
    requires |pattern| > 0 && pattern[0] == '{' && NoBrace(p)
    ensures ReplaceFirst(p + pattern + rest, pattern, replacement) == p + replacement + rest
  {
    var s := p + pattern + rest;
    assert s[|p|..|p| + |pattern|] == pattern;
    forall j | 0 <= j < |p|
      ensures !OccursAt(s, pattern, j)
    {
      assert s[j] == p[j];
      if j + |pattern| <= |s| {
        assert s[j..j + |pattern|][0] == s[j];
      }
    }
    ReplaceFirstAt(s, pattern, replacement, |p|);
    assert s[..|p|] == p;
    assert s[|p| + |pattern|..] == rest;
  }

  lemma DecimalHasNoBrace(n: int)
    ensures NoBrace(Decimal(n))
  {
    DecimalChars(n);
  }

  lemma NoBraceConcat(a: string, b: string)
    requires NoBrace(a) && NoBrace(b)
    ensures NoBrace(a + b)
  {
    forall i | 0 <= i < |a + b| ensures (a + b)[i] != '{' {
      if i < |a| { assert (a + b)[i] == a[i]; } else { assert (a + b)[i] == b[i - |a|]; }
    }
  }

  lemma Regroup(a: string, z: string, b: string, p: string, rest: string)
    ensures a + z + (b + p + rest) == (a + z + b) + p + rest
  {
  }

  lemma Nest(a: string, pz: string, b: string, px: string, c: string, py: string, d: string)
    ensures a + pz + b + px + c + py + d == a + pz + (b + px + (c + py + d))
  {
    calc {
      a + pz + b + px + c + py + d;
      (a + pz + b + px + c) + (py + d);
      (a + pz + b) + (px + (c + (py + d)));
      a + pz + (b + px + (c + py + d));
    }
  }

  /** Three first-occurrence replacements in a row, each placeholder preceded by brace-free text. */
  lemma ReplaceThree(a: string, b: string, c: string, d: string, pz: string, px: string, py: string,
                     z: string, xs: string, ys: string)
    requires |pz| > 0 && pz[0] == '{' && |px| > 0 && px[0] == '{' && |py| > 0 && py[0] == '{'
    requires NoBrace(a) && NoBrace(b) && NoBrace(c) && NoBrace(z) && NoBrace(xs)
    ensures ReplaceFirst(ReplaceFirst(ReplaceFirst(a + pz + b + px + c + py + d, pz, z), px, xs), py, ys)
         == a + z + b + xs + c + ys + d
  {
    var r2 := c + py + d;
    var r1 := b + px + r2;
    Nest(a, pz, b, px, c, py, d);
    ReplaceAfterPlainText(a, pz, r1, z);
    NoBraceConcat(a, z);
    NoBraceConcat(a + z, b);
    Regroup(a, z, b, px, r2);
    ReplaceAfterPlainText(a + z + b, px, r2, xs);
    NoBraceConcat(a + z + b, xs);
    NoBraceConcat(a + z + b + xs, c);
    Regroup(a + z + b, xs, c, py, d);
    ReplaceAfterPlainText(a + z + b + xs + c, py, d, ys);
  }

  /**
   * For a template `a{z}b{x}c{y}d` whose literal parts before `{y}` hold no `{`, the TileStream URL puts the
   * zoom, the x coordinate and the inverted y coordinate in place of the three placeholders.
   */
  lemma TileStreamUrlOfTemplate(a: string, b: string, c: string, d: string, x: int, y: int, zoom: nat)
    requires NoBrace(a) && NoBrace(b) && NoBrace(c)
    ensures TileStreamUrl(a + "{z}" + b + "{x}" + c + "{y}" + d, x, y, zoom)
         == a + Decimal(zoom) + b + Decimal(x) + c + Decimal(InvertedY(zoom, y)) + d
  {
    DecimalHasNoBrace(zoom);
    DecimalHasNoBrace(x);
    ReplaceThree(a, b, c, d, "{z}", "{x}", "{y}", Decimal(zoom), Decimal(x), Decimal(InvertedY(zoom, y)));
  }

  /** Zoom 3, x 1, y 2 on the template `{z}/{x}/{y}`: the y placeholder becomes 2^3 - 2 - 1 = 5. */
  lemma TileStreamExample()
    ensures TileStreamUrl("{z}/{x}/{y}", 1, 2, 3) == "3/1/5"
  {
    assert NoBrace("") && NoBrace("/");
    assert "{z}/{x}/{y}" == "" + "{z}" + "/" + "{x}" + "/" + "{y}" + "";
    TileStreamUrlOfTemplate("", "/", "/", "", 1, 2, 3);
    ExampleNumbers();
    assert "" + "3" + "/" + "1" + "/" + "5" + "" == "3/1/5";
  }

  lemma ExampleNumbers()
    ensures InvertedY(3, 2) == 5
    ensures Decimal(3) == "3" && Decimal(1) == "1" && Decimal(5) == "5"
  {
    assert Pow2(3) == 8;
  }

  // ---------------------------------------------------------------------------------------------
  // Features
  // ---------------------------------------------------------------------------------------------

  datatype Kind = PointKind | LineStringKind | PolygonKind | MultiPolygonKind | MultiPolylineKind

  /** The `switch (feature.type)`: five cases compared with `===`, and no default. */
  function KindOf(t: JsValue): Option<Kind>
  {
    match t
    case String(s) =>
      if s == "point" then Some(PointKind)
      else if s == "linestring" then Some(LineStringKind)
      else if s == "polygon" then Some(PolygonKind)
      else if s == "multipolygon" then Some(MultiPolygonKind)
      else if s == "multipolyline" then Some(MultiPolylineKind)
      else None
    case _ => None
  }

  function IconOf(spec: Option<IconSpec>): Option<Icon>
  {
    match spec
    case Some(i) => Some(Icon(i.iconUrl, i.iconSize, i.iconAnchor, i.popupAnchor, i.shadowUrl))
    case None => None
  }

  /** The vector layer built for a feature, if its type is one of the five. */
  function ShapeOf(f: Feature): Option<Shape>
  {
    match KindOf(f.kind)
    case Some(PointKind) => Some(Marker(f.at, IconOf(f.icon)))
    case Some(LineStringKind) => Some(Polyline(f.points))
    case Some(PolygonKind) => Some(Polygon(f.points))
    case Some(MultiPolygonKind) => Some(MultiPolygon(f.component))
    case Some(MultiPolylineKind) => Some(MultiPolygon(f.component))
    case None => None
  }

  /** The vertices a feature pushes onto `bounds`, in order; none for an unknown type. */
  function Vertices(f: Feature): seq<LatLng>
  {
    match KindOf(f.kind)
    case Some(PointKind) => [f.at]
    case Some(LineStringKind) => f.points
    case Some(PolygonKind) => f.points
    case Some(MultiPolygonKind) => Flatten(f.component)
    case Some(MultiPolylineKind) => Flatten(f.component)
    case None => []
  }

  /** Every vertex of every feature, in feature order and then vertex order. */
  function AllVertices(fs: seq<Feature>): seq<LatLng>
  {
    if fs == [] then [] else AllVertices(fs[..|fs| - 1]) + Vertices(fs[|fs| - 1])
  }

  /**
   * The state of the feature loop: the vector layers built so far, the value of `lFeature` (never reset
   * between iterations), the calls made, the number of features processed, and whether a TypeError ended it.
   */
  datatype Pass = Pass(shapes: seq<Shape>, current: LayerRef, calls: seq<Call>, consumed: nat, threw: bool)

  /** One iteration of the feature loop. */
  function Step(p: Pass, f: Feature): Pass
  {
    if p.threw then p
    else
      var shape := ShapeOf(f);
      var shapes := if shape.Some? then p.shapes + [shape.value] else p.shapes;
      var current := if shape.Some? then Vector(|p.shapes|) else p.current;
      var calls := p.calls + [AddLayer(current)];
      if Truthy(f.popup) && current == UndefinedLayer then Pass(shapes, current, calls, p.consumed + 1, true)
      else if Truthy(f.popup) then Pass(shapes, current, calls + [BindPopup(current, f.popup)], p.consumed + 1, false)
      else Pass(shapes, current, calls, p.consumed + 1, false)
  }

  function FeaturePass(fs: seq<Feature>): (p: Pass)
    ensures p.consumed <= |fs|
  {
    if fs == [] then Pass([], UndefinedLayer, [], 0, false)
    else Step(FeaturePass(fs[..|fs| - 1]), fs[|fs| - 1])
  }

  /** The vector layers built for the features of known type, in order. */
  function Built(fs: seq<Feature>): seq<Shape>
  {
    if fs == [] then []
    else
      var last := ShapeOf(fs[|fs| - 1]);
      Built(fs[..|fs| - 1]) + (if last.Some? then [last.value] else [])
  }

  lemma PassStep(fs: seq<Feature>, i: nat)
    requires i < |fs|
    ensures FeaturePass(fs[..i + 1]) == Step(FeaturePass(fs[..i]), fs[i])
    ensures AllVertices(fs[..i + 1]) == AllVertices(fs[..i]) + Vertices(fs[i])
  {
    assert fs[..i + 1][..i] == fs[..i];
    assert fs[..i + 1][i] == fs[i];
  }

  /** Once the loop has thrown, later features change nothing. */
  lemma {:induction false} ThrownStays(fs: seq<Feature>, n: nat)
    requires n <= |fs| && FeaturePass(fs[..n]).threw
    ensures FeaturePass(fs) == FeaturePass(fs[..n])
    decreases |fs| - n
  {
    if n < |fs| {
      var m := |fs| - 1;
      assert fs[..m][..n] == fs[..n];
      ThrownStays(fs[..m], n);
      assert FeaturePass(fs) == Step(FeaturePass(fs[..m]), fs[m]);
    } else {
      assert fs[..n] == fs;
    }
  }

  /**
   * Without a TypeError every feature is processed, the layers built are those of the known-typed
   * features, and `lFeature` refers to the last one built (or is still `undefined`).
   */
  lemma {:induction false} PassMatchesBuilt(fs: seq<Feature>)
    requires !FeaturePass(fs).threw
    ensures FeaturePass(fs).consumed == |fs|
    ensures FeaturePass(fs).shapes == Built(fs)
    ensures FeaturePass(fs).current == if Built(fs) == [] then UndefinedLayer else Vector(|Built(fs)| - 1)
  {
    if fs != [] {
      var m := |fs| - 1;
      PassMatchesBuilt(fs[..m]);
    }
  }

  /** The calls of the loop are `addLayer` with a vector layer or `undefined`, and `bindPopup`; nothing else. */
  lemma {:induction false} FeatureCallsAreVectorCalls(fs: seq<Feature>)
    ensures forall c :: c in FeaturePass(fs).calls ==>
      (c.AddLayer? && !c.layer.Tile?) || (c.BindPopup? && !c.target.Tile?)
  {
    if fs != [] {
      FeatureCallsAreVectorCalls(fs[..|fs| - 1]);
      var p := FeaturePass(fs[..|fs| - 1]);
      assert !p.current.Tile? by {
        PassCurrentNotTile(fs[..|fs| - 1]);
      }
    }
  }

  lemma {:induction false} PassCurrentNotTile(fs: seq<Feature>)
    ensures !FeaturePass(fs).current.Tile?
  {
    if fs != [] {
      PassCurrentNotTile(fs[..|fs| - 1]);
    }
  }

  /** None of the first i + 1 features has a known type. */
  predicate NoShapeThrough(fs: seq<Feature>, i: nat)
    requires i < |fs|
  {
    forall j :: 0 <= j <= i ==> ShapeOf(fs[j]).None?
  }

  /** Feature i has a popup and neither it nor any feature before it has a known type. */
  predicate EarlyPopup(fs: seq<Feature>, i: nat)
  {
    i < |fs| && Truthy(fs[i].popup) && NoShapeThrough(fs, i)
  }

  lemma EarlyPopupPrefix(fs: seq<Feature>, n: nat, i: nat)
    requires i < n <= |fs|
    ensures EarlyPopup(fs[..n], i) <==> EarlyPopup(fs, i)
  {
    assert forall j :: 0 <= j <= i ==> fs[..n][j] == fs[j];
  }

  /** The loop throws exactly when some feature with a popup comes before or at the first feature of known type. */
  lemma {:induction false} ThrowsIffEarlyPopup(fs: seq<Feature>)
    ensures FeaturePass(fs).threw <==> exists i :: EarlyPopup(fs, i)
  {
    if fs != [] {
      var m: nat := |fs| - 1;
      var pre := fs[..m];
      ThrowsIffEarlyPopup(pre);
      var p := FeaturePass(pre);
      if p.threw {
        var i :| EarlyPopup(pre, i);
        EarlyPopupPrefix(fs, m, i);
      } else {
        forall i: nat | i < m ensures !EarlyPopup(fs, i) {
          EarlyPopupPrefix(fs, m, i);
        }
        PassMatchesBuilt(pre);
        BuiltEmptyIffNoShape(pre);
        assert forall j :: 0 <= j < m ==> pre[j] == fs[j];
        assert FeaturePass(fs).threw <==> EarlyPopup(fs, m);
      }
    }
  }

  lemma {:induction false} BuiltEmptyIffNoShape(fs: seq<Feature>)
    ensures Built(fs) == [] <==> forall j :: 0 <= j < |fs| ==> ShapeOf(fs[j]).None?
  {
    if fs != [] {
      var m := |fs| - 1;
      BuiltEmptyIffNoShape(fs[..m]);
      assert forall j :: 0 <= j < m ==> fs[..m][j] == fs[j];
    }
  }

  /** The calls made for a prefix of the features are a prefix of the calls made for all of them. */
  lemma {:induction false} PassCallsGrow(fs: seq<Feature>, n: nat)
    requires n <= |fs|
    ensures FeaturePass(fs[..n]).calls <= FeaturePass(fs).calls
    ensures !FeaturePass(fs).threw ==> !FeaturePass(fs[..n]).threw
    decreases |fs| - n
  {
    if n < |fs| {
      var m := |fs| - 1;
      assert fs[..m][..n] == fs[..n];
      PassCallsGrow(fs[..m], n);
      var p := FeaturePass(fs[..m]);
      if p.threw {
        assert FeaturePass(fs) == p;
      }
    } else {
      assert fs[..n] == fs;
    }
  }

  lemma InPrefix<T>(a: seq<T>, b: seq<T>, x: T)
    requires a <= b && x in a
    ensures x in b
  {
    var k :| 0 <= k < |a| && a[k] == x;
    assert b[k] == x;
  }

  /**
   * Processing feature i, without a TypeError, sets `lFeature` to its own new layer (known type) or leaves
   * it as it was, and appends the matching `addLayer` and `bindPopup` calls.
   */
  lemma StepAppends(fs: seq<Feature>, i: nat)
    requires i < |fs| && !FeaturePass(fs[..i + 1]).threw
    ensures !FeaturePass(fs[..i]).threw
    ensures FeaturePass(fs[..i + 1]).current ==
      if ShapeOf(fs[i]).Some? then Vector(|FeaturePass(fs[..i]).shapes|) else FeaturePass(fs[..i]).current
    ensures Built(fs[..i + 1]) == Built(fs[..i]) + if ShapeOf(fs[i]).Some? then [ShapeOf(fs[i]).value] else []
    ensures AddLayer(FeaturePass(fs[..i + 1]).current) in FeaturePass(fs[..i + 1]).calls
    ensures Truthy(fs[i].popup) ==> BindPopup(FeaturePass(fs[..i + 1]).current, fs[i].popup) in FeaturePass(fs[..i + 1]).calls
  {
    assert fs[..i + 1][..i] == fs[..i];
    assert fs[..i + 1][i] == fs[i];
  }

  /** The layer `lFeature` names after feature i, when the loop did not throw. */
  lemma CurrentAfter(fs: seq<Feature>, i: nat)
    requires i < |fs| && !FeaturePass(fs[..i + 1]).threw
    requires ShapeOf(fs[i]).Some? || Built(fs[..i]) != []
    ensures FeaturePass(fs[..i + 1]).current ==
      if ShapeOf(fs[i]).Some? then Vector(|Built(fs[..i])|) else Vector(|Built(fs[..i])| - 1)
  {
    StepAppends(fs, i);
    PassMatchesBuilt(fs[..i]);
  }

  /** A call of the loop over the first i + 1 features is a call of the loop over all of them. */
  lemma CallSurvives(fs: seq<Feature>, i: nat, c: Call)
    requires i < |fs| && c in FeaturePass(fs[..i + 1]).calls
    ensures c in FeaturePass(fs).calls
  {
    PassCallsGrow(fs, i + 1);
    InPrefix(FeaturePass(fs[..i + 1]).calls, FeaturePass(fs).calls, c);
  }

  /** A feature of known type gets its own vector layer, which is added to the map and receives the feature's popup. */
  lemma KnownFeatureGetsOwnLayer(fs: seq<Feature>, i: nat)
    requires i < |fs| && !FeaturePass(fs).threw && ShapeOf(fs[i]).Some?
    ensures |Built(fs[..i])| < |FeaturePass(fs).shapes|
    ensures FeaturePass(fs).shapes[|Built(fs[..i])|] == ShapeOf(fs[i]).value
    ensures AddLayer(Vector(|Built(fs[..i])|)) in FeaturePass(fs).calls
    ensures Truthy(fs[i].popup) ==> BindPopup(Vector(|Built(fs[..i])|), fs[i].popup) in FeaturePass(fs).calls
  {
    PassCallsGrow(fs, i + 1);
    StepAppends(fs, i);
    CurrentAfter(fs, i);
    var own := Vector(|Built(fs[..i])|);
    CallSurvives(fs, i, AddLayer(own));
    if Truthy(fs[i].popup) {
      CallSurvives(fs, i, BindPopup(own, fs[i].popup));
    }
    PassMatchesBuilt(fs);
    BuiltPrefix(fs, i + 1);
    var n := |Built(fs[..i])|;
    assert Built(fs[..i + 1])[n] == ShapeOf(fs[i]).value;
  }

  /**
   * A feature of unknown type builds no layer: the previous feature's layer is added again and receives
   * this feature's popup.
   */
  lemma UnknownFeatureReusesPrevious(fs: seq<Feature>, i: nat)
    requires i < |fs| && !FeaturePass(fs).threw && ShapeOf(fs[i]).None? && Built(fs[..i]) != []
    ensures AddLayer(Vector(|Built(fs[..i])| - 1)) in FeaturePass(fs).calls
    ensures Truthy(fs[i].popup) ==> BindPopup(Vector(|Built(fs[..i])| - 1), fs[i].popup) in FeaturePass(fs).calls
  {
    PassCallsGrow(fs, i + 1);
    StepAppends(fs, i);
    CurrentAfter(fs, i);
    var previous := Vector(|Built(fs[..i])| - 1);
    CallSurvives(fs, i, AddLayer(previous));
    if Truthy(fs[i].popup) {
      CallSurvives(fs, i, BindPopup(previous, fs[i].popup));
    }
  }

  lemma {:induction false} BuiltPrefix(fs: seq<Feature>, n: nat)
    requires n <= |fs|
    ensures Built(fs[..n]) <= Built(fs)
    decreases |fs| - n
  {
    if n < |fs| {
      var m := |fs| - 1;
      assert fs[..m][..n] == fs[..n];
      BuiltPrefix(fs[..m], n);
    } else {
      assert fs[..n] == fs;
    }
  }

  /** The number of `bindPopup` calls in a call log. */
  function PopupsBound(calls: seq<Call>): nat
  {
    if calls == [] then 0 else PopupsBound(calls[..|calls| - 1]) + (if calls[|calls| - 1].BindPopup? then 1 else 0)
  }

  lemma {:induction false} PopupsBoundAppend(a: seq<Call>, b: seq<Call>)
    ensures PopupsBound(a + b) == PopupsBound(a) + PopupsBound(b)
    decreases |b|
  {
    if b == [] {
      assert a + b == a;
    } else {
      var n := |b| - 1;
      assert (a + b)[..|a + b| - 1] == a + b[..n];
      assert (a + b)[|a + b| - 1] == b[n];
      PopupsBoundAppend(a, b[..n]);
    }
  }

  /** The number of features whose `popup` is truthy. */
  function PopupFeatures(fs: seq<Feature>): nat
  {
    if fs == [] then 0 else PopupFeatures(fs[..|fs| - 1]) + (if Truthy(fs[|fs| - 1].popup) then 1 else 0)
  }

  /**
   * When the features are all processed, exactly one popup is bound per feature with a truthy popup: each such
   * feature binds one, and no other feature binds any.
   */
  lemma {:induction false} OnePopupPerPopupFeature(fs: seq<Feature>)
    requires !FeaturePass(fs).threw
    ensures PopupsBound(FeaturePass(fs).calls) == PopupFeatures(fs)
  {
    if fs != [] {
      var n := |fs| - 1;
      var p := FeaturePass(fs[..n]);
      assert !p.threw;
      OnePopupPerPopupFeature(fs[..n]);
      var shape := ShapeOf(fs[n]);
      var current := if shape.Some? then Vector(|p.shapes|) else p.current;
      PopupsBoundAppend(p.calls, [AddLayer(current)]);
      assert PopupsBound([AddLayer(current)]) == 0;
      if Truthy(fs[n].popup) {
        PopupsBoundAppend(p.calls + [AddLayer(current)], [BindPopup(current, fs[n].popup)]);
        assert PopupsBound([BindPopup(current, fs[n].popup)]) == 1;
      }
    }
  }

  // ---------------------------------------------------------------------------------------------
  // The whole map
  // ---------------------------------------------------------------------------------------------

  function ControlCalls(settings: Options, named: map<string, TileLayer>): seq<Call>
  {
    if Truthy(Get(settings, "layerControl")) then [AddLayerControl(named)] else []
  }

  function PositionCalls(m: MapSpec, bounds: seq<LatLng>): seq<Call>
  {
    if m.center.Some? then [SetView(m.center.value, Get(m.settings, "zoom"))] else [FitBounds(bounds)]
  }

  function AttributionCalls(m: MapSpec): seq<Call>
  {
    if Truthy(Get(m.settings, "attributionControl")) && m.attribution.Some?
    then [SetPrefix(m.attribution.value.prefix), AddAttribution(m.attribution.value.text)]
    else []
  }

  /** The calls made before the features: the map, the first tile layer and the optional layer switcher. */
  function HeadCalls(m: MapSpec, defaults: Options): seq<Call>
  {
    [NewMap(m.mapId, m.settings)] + LayerCalls(m.layers, defaults) + ControlCalls(m.settings, NamedLayers(m.layers, defaults))
  }

  /** The calls made after the features: centre or fit, then the attribution. */
  function TailCalls(m: MapSpec): seq<Call>
  {
    PositionCalls(m, AllVertices(m.features)) + AttributionCalls(m)
  }

  /** What building one map does, start to end; a TypeError in the feature loop skips the tail. */
  function MapOutcome(m: MapSpec, defaults: Options): MapResult
  {
    var p := FeaturePass(m.features);
    MapResult(HeadCalls(m, defaults) + p.calls + (if p.threw then [] else TailCalls(m)), p.shapes, p.threw)
  }

  /** Every call of a map build comes from the head, from the feature loop (vector layers and popups only) or from the tail. */
  lemma MapCallOrigin(m: MapSpec, defaults: Options, c: Call)
    requires c in MapOutcome(m, defaults).calls
    ensures || c in HeadCalls(m, defaults)
            || (c.AddLayer? && !c.layer.Tile?)
            || c.BindPopup?
            || (!MapOutcome(m, defaults).threw && c in TailCalls(m))
  {
    FeatureCallsAreVectorCalls(m.features);
  }

  /** Only the first layer in iteration order is added to the map as a tile layer, and it always is. */
  lemma OnlyFirstLayerShown(m: MapSpec, defaults: Options)
    ensures forall c :: c in MapOutcome(m, defaults).calls && c.AddLayer? && c.layer.Tile? ==>
      |m.layers| > 0 && c.layer.tile == MakeTile(m.layers[0].1, defaults)
    ensures |m.layers| > 0 ==> AddLayer(Tile(MakeTile(m.layers[0].1, defaults))) in MapOutcome(m, defaults).calls
  {
    forall c | c in MapOutcome(m, defaults).calls && c.AddLayer? && c.layer.Tile?
      ensures |m.layers| > 0 && c.layer.tile == MakeTile(m.layers[0].1, defaults)
    {
      TileCallIsFirstLayer(m, defaults, c);
    }
  }

  lemma TileCallIsFirstLayer(m: MapSpec, defaults: Options, c: Call)
    requires c in MapOutcome(m, defaults).calls && c.AddLayer? && c.layer.Tile?
    ensures |m.layers| > 0 && c.layer.tile == MakeTile(m.layers[0].1, defaults)
  {
    MapCallOrigin(m, defaults, c);
    assert c in HeadCalls(m, defaults);
  }

  /** The layer switcher is added exactly when `settings.layerControl` is truthy, and it lists every layer key. */
  lemma SwitcherOnlyWithLayerControl(m: MapSpec, defaults: Options)
    ensures (exists c :: c in MapOutcome(m, defaults).calls && c.AddLayerControl?)
        <==> Truthy(Get(m.settings, "layerControl"))
    ensures forall c :: c in MapOutcome(m, defaults).calls && c.AddLayerControl? ==>
      c.switchable.Keys == KeySet(m.layers)
  {
    NamedLayersKeys(m.layers, defaults);
    forall c | c in MapOutcome(m, defaults).calls && c.AddLayerControl?
      ensures Truthy(Get(m.settings, "layerControl")) && c.switchable.Keys == KeySet(m.layers)
    {
      MapCallOrigin(m, defaults, c);
    }
    if Truthy(Get(m.settings, "layerControl")) {
      assert AddLayerControl(NamedLayers(m.layers, defaults)) in HeadCalls(m, defaults);
      assert AddLayerControl(NamedLayers(m.layers, defaults)) in MapOutcome(m, defaults).calls;
    }
  }

  /**
   * A map with a center is set to it at `settings.zoom`; a map without one is fitted to every vertex of
   * every feature. Only one of the two happens.
   */
  lemma Positioning(m: MapSpec, defaults: Options)
    requires !MapOutcome(m, defaults).threw
    ensures m.center.Some? ==> SetView(m.center.value, Get(m.settings, "zoom")) in MapOutcome(m, defaults).calls
    ensures m.center.None? ==> FitBounds(AllVertices(m.features)) in MapOutcome(m, defaults).calls
    ensures forall c :: c in MapOutcome(m, defaults).calls ==> !(c.SetView? && m.center.None?)
    ensures forall c :: c in MapOutcome(m, defaults).calls ==> !(c.FitBounds? && m.center.Some?)
  {
    forall c | c in MapOutcome(m, defaults).calls
      ensures !(c.SetView? && m.center.None?) && !(c.FitBounds? && m.center.Some?)
    {
      MapCallOrigin(m, defaults, c);
    }
    var first := PositionCalls(m, AllVertices(m.features))[0];
    assert first in TailCalls(m);
    assert first in MapOutcome(m, defaults).calls;
  }

  /** The attribution prefix and text are set only when both `attributionControl` and `attribution` are present. */
  lemma AttributionOnlyWithBoth(m: MapSpec, defaults: Options)
    ensures (exists c :: c in MapOutcome(m, defaults).calls && (c.SetPrefix? || c.AddAttribution?))
        ==> Truthy(Get(m.settings, "attributionControl")) && m.attribution.Some?
    ensures !MapOutcome(m, defaults).threw && Truthy(Get(m.settings, "attributionControl")) && m.attribution.Some? ==>
      && SetPrefix(m.attribution.value.prefix) in MapOutcome(m, defaults).calls
      && AddAttribution(m.attribution.value.text) in MapOutcome(m, defaults).calls
  {
    forall c | c in MapOutcome(m, defaults).calls && (c.SetPrefix? || c.AddAttribution?)
      ensures Truthy(Get(m.settings, "attributionControl")) && m.attribution.Some?
    {
      MapCallOrigin(m, defaults, c);
    }
    if !MapOutcome(m, defaults).threw && Truthy(Get(m.settings, "attributionControl")) && m.attribution.Some? {
      var a := m.attribution.value;
      assert SetPrefix(a.prefix) in TailCalls(m) && AddAttribution(a.text) in TailCalls(m);
    }
  }

  /**
   * Every map of the page settings built in order by `build`, up to and including the first one whose build
   * throws. Keeping the builder a parameter lets the lemmas below reason about the order without the builds.
   */
  function AttachWith(maps: seq<MapSpec>, build: MapSpec -> MapResult): seq<MapResult>
  {
    if maps == [] then []
    else
      var r := build(maps[0]);
      if r.threw then [r] else [r] + AttachWith(maps[1..], build)
  }

  function Builder(defaults: Options): MapSpec -> MapResult
  {
    m => MapOutcome(m, defaults)
  }

  /** What `attach` does with the maps of the page settings. */
  function AttachOutcome(maps: seq<MapSpec>, defaults: Options): seq<MapResult>
  {
    AttachWith(maps, Builder(defaults))
  }

  /** What `bounds` holds after map `m` is built: the vertices of the features its loop processed. */
  function ProcessedVertices(m: MapSpec): seq<LatLng>
  {
    AllVertices(m.features[..FeaturePass(m.features).consumed])
  }

  /** One more map built by `attach`: it ends the outcome when it throws, and the rest follows otherwise. */
  lemma AttachStep(maps: seq<MapSpec>, build: MapSpec -> MapResult, i: nat, results: seq<MapResult>)
    requires i < |maps| && AttachWith(maps, build) == results + AttachWith(maps[i..], build)
    ensures var r := build(maps[i]);
      if r.threw then AttachWith(maps, build) == results + [r]
      else AttachWith(maps, build) == (results + [r]) + AttachWith(maps[i + 1..], build)
  {
    AttachWithFrom(maps, build, i);
    var r := build(maps[i]);
    AppendThrough(AttachWith(maps, build), results, AttachWith(maps[i..], build), r,
      AttachWith(maps[i + 1..], build), r.threw);
  }

  lemma AppendThrough<T>(whole: seq<T>, done: seq<T>, tail: seq<T>, r: T, rest: seq<T>, stop: bool)
    requires whole == done + tail
    requires tail == if stop then [r] else [r] + rest
    ensures if stop then whole == done + [r] else whole == (done + [r]) + rest
  {
    if !stop {
      assert done + ([r] + rest) == (done + [r]) + rest;
    }
  }

  lemma AttachWithFrom(maps: seq<MapSpec>, build: MapSpec -> MapResult, i: nat)
    requires i < |maps|
    ensures AttachWith(maps[i..], build) ==
      if build(maps[i]).threw then [build(maps[i])] else [build(maps[i])] + AttachWith(maps[i + 1..], build)
  {
    assert maps[i..][0] == maps[i];
    assert maps[i..][1..] == maps[i + 1..];
  }

  /** Result j is map j's own build, and no map past the end of the settings is built. */
  lemma {:induction false} AttachBuildsInOrder(maps: seq<MapSpec>, build: MapSpec -> MapResult)
    ensures |AttachWith(maps, build)| <= |maps|
    ensures forall j :: 0 <= j < |AttachWith(maps, build)| ==> AttachWith(maps, build)[j] == build(maps[j])
  {
    if maps != [] && !build(maps[0]).threw {
      var rest := AttachWith(maps[1..], build);
      AttachBuildsInOrder(maps[1..], build);
      var all := AttachWith(maps, build);
      assert all == [build(maps[0])] + rest;
      forall j | 1 <= j < |all| ensures all[j] == build(maps[j]) {
        assert all[j] == rest[j - 1] && maps[1..][j - 1] == maps[j];
      }
    }
  }

  /** Only the last map built can have thrown, and stopping before the end means it did. */
  lemma {:induction false} AttachThrowsOnlyLast(maps: seq<MapSpec>, build: MapSpec -> MapResult)
    ensures forall j :: 0 <= j < |AttachWith(maps, build)| - 1 ==> !AttachWith(maps, build)[j].threw
    ensures |AttachWith(maps, build)| < |maps| ==>
      AttachWith(maps, build) != [] && AttachWith(maps, build)[|AttachWith(maps, build)| - 1].threw
  {
    if maps != [] && !build(maps[0]).threw {
      var rest := AttachWith(maps[1..], build);
      AttachThrowsOnlyLast(maps[1..], build);
      var all := AttachWith(maps, build);
      assert all == [build(maps[0])] + rest;
      forall j | 1 <= j < |all| - 1 ensures !all[j].threw {
        assert all[j] == rest[j - 1];
      }
      if rest != [] {
        assert all[|all| - 1] == rest[|rest| - 1];
      }
    }
  }

  /** `attach` builds the maps in order and stops right after the first one that throws. */
  lemma AttachStopsAtFirstThrow(maps: seq<MapSpec>, defaults: Options)
    ensures |AttachOutcome(maps, defaults)| <= |maps|
    ensures forall j :: 0 <= j < |AttachOutcome(maps, defaults)| ==> AttachOutcome(maps, defaults)[j] == MapOutcome(maps[j], defaults)
    ensures forall j :: 0 <= j < |AttachOutcome(maps, defaults)| - 1 ==> !MapOutcome(maps[j], defaults).threw
    ensures |AttachOutcome(maps, defaults)| < |maps| ==>
      AttachOutcome(maps, defaults) != [] && MapOutcome(maps[|AttachOutcome(maps, defaults)| - 1], defaults).threw
  {
    AttachBuildsInOrder(maps, Builder(defaults));
    AttachThrowsOnlyLast(maps, Builder(defaults));
  }

  /** Two points and no center: `bounds` holds both, in order, and the map is fitted to them. */
  lemma TwoPointsFitted(m: MapSpec, defaults: Options, p: LatLng, q: LatLng)
    requires m.center.None?
    requires |m.features| == 2 && m.features[0].kind == String("point") && m.features[1].kind == String("point")
    requires m.features[0].at == p && m.features[1].at == q
    ensures AllVertices(m.features) == [p, q]
    ensures !MapOutcome(m, defaults).threw && FitBounds([p, q]) in MapOutcome(m, defaults).calls
  {
    var fs := m.features;
    assert KindOf(String("point")) == Some(PointKind);
    assert Vertices(fs[0]) == [p] && Vertices(fs[1]) == [q];
    assert fs[..1][..0] == [] && fs[..1][0] == fs[0];
    assert AllVertices(fs[..1]) == [p];
    assert fs[..2 - 1] == fs[..1];
    assert AllVertices(fs) == [p, q];
    ThrowsIffEarlyPopup(fs);
    Positioning(m, defaults);
  }

  // ---------------------------------------------------------------------------------------------
  // The behaviour itself
  // ---------------------------------------------------------------------------------------------

  class Behavior {
    /** The `bounds` variable of `attach`, shared with the feature constructors. */
    var bounds: seq<LatLng>

    constructor ()
      ensures bounds == []
    {
      bounds := [];
    }

    /** `leaflet_create_point`: pushes the point onto `bounds` and builds a marker, with an icon when one is given. */
    method CreatePoint(marker: Feature) returns (s: Shape)
      modifies this
      ensures bounds == old(bounds) + [marker.at]
      ensures s == Marker(marker.at, IconOf(marker.icon))
    {
      var latLng := marker.at;
      bounds := bounds + [latLng];
      if marker.icon.Some? {
        var spec := marker.icon.value;
        var icon := Icon(spec.iconUrl, spec.iconSize, spec.iconAnchor, spec.popupAnchor, spec.shadowUrl);
        s := Marker(latLng, Some(icon));
      } else {
        s := Marker(latLng, None);
      }
    }

    /** `leaflet_create_linestring`: every point, in order, goes both into the polyline and onto `bounds`. */
    method CreateLinestring(polyline: Feature) returns (s: Shape)
      modifies this
      ensures bounds == old(bounds) + polyline.points
      ensures s == Polyline(polyline.points)
    {
      var latlngs := [];
      var i := 0;
      while i < |polyline.points|
        invariant 0 <= i <= |polyline.points|
        invariant latlngs == polyline.points[..i]
        invariant bounds == old(bounds) + polyline.points[..i]
      {
        var latlng := polyline.points[i];
        latlngs := latlngs + [latlng];
        bounds := bounds + [latlng];
        i := i + 1;
      }
      assert polyline.points[..i] == polyline.points;
      s := Polyline(latlngs);
    }

    /** `leaflet_create_polygon`: like the linestring, closing the ring into a polygon. */
    method CreatePolygon(polygon: Feature) returns (s: Shape)
      modifies this
      ensures bounds == old(bounds) + polygon.points
      ensures s == Polygon(polygon.points)
    {
      var latlngs := [];
      var i := 0;
      while i < |polygon.points|
        invariant 0 <= i <= |polygon.points|
        invariant latlngs == polygon.points[..i]
        invariant bounds == old(bounds) + polygon.points[..i]
      {
        var latlng := polygon.points[i];
        latlngs := latlngs + [latlng];
        bounds := bounds + [latlng];
        i := i + 1;
      }
      assert polygon.points[..i] == polygon.points;
      s := Polygon(latlngs);
    }

    /**
     * `leaflet_create_multipoly`: one ring per component, ring i holding component i's points in order;
     * the vertices go onto `bounds` component by component.
     */
    method CreateMultipoly(multipoly: Feature) returns (s: Shape)
      modifies this
      ensures bounds == old(bounds) + Flatten(multipoly.component)
      ensures s == MultiPolygon(multipoly.component)
    {
      var components := multipoly.component;
      var polygons: seq<seq<LatLng>> := [];
      var x := 0;
      while x < |components|
        invariant 0 <= x <= |components|
        invariant polygons == components[..x]
        invariant bounds == old(bounds) + Flatten(components[..x])
      {
        var latlngs := [];
        var polygon := components[x];
        var i := 0;
        while i < |polygon|
          invariant 0 <= i <= |polygon|
          invariant latlngs == polygon[..i]
          invariant bounds == old(bounds) + Flatten(components[..x]) + polygon[..i]
        {
          var latlng := polygon[i];
          latlngs := latlngs + [latlng];
          bounds := bounds + [latlng];
          i := i + 1;
        }
        assert latlngs == polygon;
        polygons := polygons + [latlngs];
        assert components[..x + 1][..x] == components[..x];
        x := x + 1;
      }
      assert components[..x] == components;
      s := MultiPolygon(polygons);
    }

    /** The `switch (feature.type)`: the matching constructor, or nothing for an unknown type. */
    method CreateShape(feature: Feature) returns (s: Option<Shape>)
      modifies this
      ensures s == ShapeOf(feature)
      ensures bounds == old(bounds) + Vertices(feature)
    {
      match KindOf(feature.kind) {
        case Some(PointKind) =>
          var shape := CreatePoint(feature);
          s := Some(shape);
        case Some(LineStringKind) =>
          var shape := CreateLinestring(feature);
          s := Some(shape);
        case Some(PolygonKind) =>
          var shape := CreatePolygon(feature);
          s := Some(shape);
        case Some(MultiPolygonKind) =>
          var shape := CreateMultipoly(feature);
          s := Some(shape);
        case Some(MultiPolylineKind) =>
          var shape := CreateMultipoly(feature);
          s := Some(shape);
        case None =>
          s := None;
      }
    }

    /**
     * One iteration of the feature loop: build the shape (or keep the stale `lFeature`), add it to the map,
     * and bind the popup when there is one, throwing when there is no layer to bind it to.
     */
    method AddFeature(p: Pass, feature: Feature) returns (q: Pass)
      requires !p.threw
      modifies this
      ensures q == Step(p, feature)
      ensures bounds == old(bounds) + Vertices(feature)
    {
      var shapes, lFeature := p.shapes, p.current;
      var shape := CreateShape(feature);
      if shape.Some? {
        shapes, lFeature := shapes + [shape.value], Vector(|shapes|);
      }
      var calls := p.calls + [AddLayer(lFeature)];
      if Truthy(feature.popup) {
        if lFeature == UndefinedLayer {
          return Pass(shapes, lFeature, calls, p.consumed + 1, true);
        }
        calls := calls + [BindPopup(lFeature, feature.popup)];
      }
      q := Pass(shapes, lFeature, calls, p.consumed + 1, false);
    }

    /** The feature loop, including the stale `lFeature` and the TypeError of `undefined.bindPopup`. */
    method AddFeatures(features: seq<Feature>) returns (p: Pass)
      modifies this
      ensures p == FeaturePass(features)
      ensures bounds == old(bounds) + AllVertices(features[..p.consumed])
    {
      p := Pass([], UndefinedLayer, [], 0, false);
      var i := 0;
      while i < |features|
        invariant 0 <= i <= |features|
        invariant p == FeaturePass(features[..i])
        invariant !p.threw && p.consumed == i
        invariant bounds == old(bounds) + AllVertices(features[..i])
      {
        PassStep(features, i);
        p := AddFeature(p, features[i]);
        assert bounds == old(bounds) + AllVertices(features[..i + 1]) by {
          assert bounds == (old(bounds) + AllVertices(features[..i])) + Vertices(features[i]);
        }
        if p.threw {
          ThrownStays(features, i + 1);
          return;
        }
        i := i + 1;
      }
      assert features[..i] == features;
    }

    /** The start of one map: copy the settings, create the map, add the layers and the layer switcher. */
    method StartMap(m: MapSpec, defaults: Options) returns (calls: seq<Call>)
      ensures calls == HeadCalls(m, defaults)
    {
      var settings := CopyOptions(map[], m.settings);
      assert settings == m.settings;
      calls := [NewMap(m.mapId, settings)];
      var named, added := BuildLayers(m.layers, defaults);
      calls := calls + added;
      if Truthy(Get(m.settings, "layerControl")) {
        calls := calls + [AddLayerControl(named)];
      }
    }

    /** The end of one map: centre it or fit it to `bounds`, then set the attribution. */
    method PlaceMap(m: MapSpec) returns (tail: seq<Call>)
      requires bounds == AllVertices(m.features)
      ensures tail == TailCalls(m)
    {
      tail := [];
      if m.center.Some? {
        tail := tail + [SetView(m.center.value, Get(m.settings, "zoom"))];
      } else {
        tail := tail + [FitBounds(bounds)];
      }
      assert tail == PositionCalls(m, AllVertices(m.features));
      if Truthy(Get(m.settings, "attributionControl")) && m.attribution.Some? {
        tail := tail + [SetPrefix(m.attribution.value.prefix), AddAttribution(m.attribution.value.text)];
      }
    }

    /** One map, from copying the settings to setting the attribution; `bounds` ends up holding the vertices of the features processed. */
    method BuildMap(m: MapSpec, defaults: Options) returns (r: MapResult)
      modifies this
      ensures r == MapOutcome(m, defaults)
      ensures bounds == ProcessedVertices(m)
    {
      var calls := StartMap(m, defaults);
      bounds := [];
      var p := AddFeatures(m.features);
      calls := calls + p.calls;
      if p.threw {
        r := MapResult(calls, p.shapes, true);
        assert calls + [] == calls;
        return;
      }
      PassMatchesBuilt(m.features);
      assert m.features[..p.consumed] == m.features;
      var tail := PlaceMap(m);
      r := MapResult(calls + tail, p.shapes, false);
    }

    /** `attach`: every map of `settings.leaflet`, in order, until one throws. */
    method Attach(maps: seq<MapSpec>, defaults: Options) returns (results: seq<MapResult>)
      modifies this
      ensures results == AttachOutcome(maps, defaults)
    {
      results := [];
      var i := 0;
      while i < |maps|
        invariant 0 <= i <= |maps|
        invariant AttachWith(maps, Builder(defaults)) == results + AttachWith(maps[i..], Builder(defaults))
      {
        var r := BuildMap(maps[i], defaults);
        AttachStep(maps, Builder(defaults), i, results);
        results := results + [r];
        if r.threw {
          return;
        }
        i := i + 1;
      }
      assert maps[i..] == [];
    }
  }
}

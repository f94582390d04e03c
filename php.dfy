/**
 * The PHP values the server-side plugins pass around: scalars, keyed arrays and translated strings,
 * PHP's truthiness, string conversion and `is_numeric`, and the feature records handed to
 * `leaflet_render_map()`.
 */
module Php {
  import opened Common

  /**
   * A PHP value. Keyed arrays are modelled as maps (their order never matters where they are used here);
   * `Translated` is the object `t()` returns, kept untranslated with its placeholder arguments.
   */
  datatype Value =
    | Null
    | Bool(b: bool)
    | Int(i: int)
    | Str(s: string)
    | Dict(d: map<string, Value>)
    | Translated(source: string, args: map<string, Value>)

  /** PHP's conversion to boolean; `empty($x)` on a set variable is its negation. */
  predicate Truthy(v: Value)
  {
    match v
    case Null => false
    case Bool(b) => b
    case Int(i) => i != 0
    case Str(s) => s != "" && s != "0"
    case Dict(d) => |d| != 0
    case Translated(_, _) => true
  }

  /** `$m[$k]` where reading a missing key yields NULL. */
  function Lookup(m: map<string, Value>, k: string): Value
  {
    if k in m then m[k] else Null
  }

  /** The string `$v . ''` produces (a translated string is kept in its source language). */
  function ToString(v: Value): string
  {
    match v
    case Null => ""
    case Bool(b) => if b then "1" else ""
    case Int(i) => Decimal(i)
    case Str(s) => s
    case Dict(_) => "Array"
    case Translated(source, _) => source
  }

  /**
   * `$v[key]` read in PHP 7, for a key that is not a numeric string (every key read this way here is a
   * word). An array yields its entry, or NULL. A string is read at the offset the key converts to, which is
   * 0: a non-empty string yields its first character, the empty string yields `''`. NULL, booleans and
   * integers yield NULL. A translated string is taken to yield NULL.
   */
  function Subscript(v: Value, key: string): Value
  {
    match v
    case Dict(d) => Lookup(d, key)
    case Str(s) => if s == "" then Str("") else Str(s[..1])
    case _ => Null
  }

  function Message(source: string): Value
  {
    Translated(source, map[])
  }

  /**
   * `$v == 'word'` in PHP 7, for a non-empty word that is not a numeric string (the `case` labels of a
   * `switch`): strings compare as strings, a boolean compares with the word's truthiness (TRUE), an integer
   * compares with the word converted to a number (0), NULL equals only the empty string, an array never
   * equals a string, and a translated string compares by its text.
   */
  predicate LooseEqualsWord(v: Value, word: string)
  {
    match v
    case Null => false
    case Bool(b) => b
    case Int(i) => i == 0
    case Str(s) => s == word
    case Dict(_) => false
    case Translated(source, _) => source == word
  }

  // ---------------------------------------------------------------------------------------------
  // is_numeric and the sign of a numeric value
  // ---------------------------------------------------------------------------------------------

  predicate IsWhitespace(c: char)
  {
    c == ' ' || c == '\t' || c == '\n' || c == '\r' || c == 11 as char || c == 12 as char
  }

  function LeadingSpace(s: string): (n: nat)
    ensures n <= |s|
  {
    if s != [] && IsWhitespace(s[0]) then 1 + LeadingSpace(s[1..]) else 0
  }

  /** Length of the run of decimal digits at the start of `s`. */
  function DigitRun(s: string): (n: nat)
    ensures n <= |s|
    ensures forall i :: 0 <= i < n ==> IsDigit(s[i])
    ensures n < |s| ==> !IsDigit(s[n])
  {
    if s != [] && IsDigit(s[0]) then 1 + DigitRun(s[1..]) else 0
  }

  /** An exponent part `e`/`E`, an optional sign and at least one digit, and nothing after them. */
  predicate IsExponent(r: string)
  {
    && |r| >= 2
    && (r[0] == 'e' || r[0] == 'E')
    && var q := if r[1] == '+' || r[1] == '-' then r[2..] else r[1..];
       q != [] && DigitRun(q) == |q|
  }

  predicate HasNonzeroDigit(s: string)
  {
    exists i :: 0 <= i < |s| && '1' <= s[i] <= '9'
  }

  /**
   * `is_numeric($s)` for a string, as PHP 7 decides it (leading whitespace, an optional sign, digits with
   * an optional decimal point and at least one digit, an optional exponent, nothing trailing), together with
   * the sign of the number: None when the string is not numeric, else Some(-1), Some(0) or Some(1).
   */
  function NumericStringSign(s: string): Option<int>
  {
    var t := s[LeadingSpace(s)..];
    var negative := t != [] && t[0] == '-';
    var u := if t != [] && (t[0] == '-' || t[0] == '+') then t[1..] else t;
    var whole := DigitRun(u);
    var point := whole < |u| && u[whole] == '.';
    var fraction := if point then DigitRun(u[whole + 1..]) else 0;
    var mantissaEnd := if point then whole + 1 + fraction else whole;
    if whole + fraction == 0 || !(mantissaEnd == |u| || IsExponent(u[mantissaEnd..])) then None
    else if !HasNonzeroDigit(u[..mantissaEnd]) then Some(0)
    else if negative then Some(-1)
    else Some(1)
  }

  /** `is_numeric($v)` and, when it holds, the sign of `$v` as `<`, `<=` against 0 see it. */
  function NumericSign(v: Value): Option<int>
  {
    match v
    case Int(i) => Some(if i > 0 then 1 else if i < 0 then -1 else 0)
    case Str(s) => NumericStringSign(s)
    case _ => None
  }

  /** An integer, rendered to a string, is numeric again and keeps its sign. */
  lemma DecimalIsNumeric(n: int)
    ensures NumericStringSign(Decimal(n)) == Some(if n > 0 then 1 else if n < 0 then -1 else 0)
  {
    var s := Decimal(n);
    DecimalChars(n);
    var m := if n < 0 then -n else n;
    DigitsShape(m);
    var d := Digits(m);
    assert !IsWhitespace(s[0]);
    assert LeadingSpace(s) == 0;
    assert s[0..] == s;
    var u := if n < 0 then s[1..] else s;
    assert u == d;
    assert DigitRun(u) == |u|;
    assert u[..|u|] == u;
    if n != 0 {
      var i :| 0 <= i < |d| && '1' <= d[i] <= '9';
      assert HasNonzeroDigit(u);
    } else {
      assert d == "0";
      assert !HasNonzeroDigit(u);
    }
  }

  /** The default map height 400, converted to a string, reads "400". */
  lemma DefaultHeightText()
    ensures Decimal(400) == "400"
  {
    assert Digits(4) == "4";
    assert Digits(40) == Digits(4) + [DigitChar(0)];
    assert Digits(400) == Digits(40) + [DigitChar(0)];
  }

  /** The default height `'400'` is numeric and positive. */
  lemma DefaultHeightPositive()
    ensures NumericSign(Str("400")) == Some(1)
  {
    DefaultHeightText();
    DecimalIsNumeric(400);
  }

  // ---------------------------------------------------------------------------------------------
  // Feature records
  // ---------------------------------------------------------------------------------------------

  /** One feature as the geofield helpers produce it: a keyed array (type, lat, lon, points, popup, ...). */
  type Point = map<string, Value>

  /** Every point with `$point[key] = v` applied. */
  function Stamped(points: seq<Point>, key: string, v: Value): seq<Point>
  {
    seq(|points|, i requires 0 <= i < |points| => points[i][key := v])
  }

  /**
   * `foreach ($points as &$point) { $point[key] = v; }`: every point gets `key` set to `v` and keeps all its
   * other keys and values; no point is added, dropped or moved.
   */
  method StampAll(points: seq<Point>, key: string, v: Value) returns (r: seq<Point>)
    ensures |r| == |points|
    ensures forall i :: 0 <= i < |r| ==> r[i].Keys == points[i].Keys + {key} && r[i][key] == v
    ensures forall i, k :: 0 <= i < |r| && k in points[i] && k != key ==> r[i][k] == points[i][k]
    ensures r == Stamped(points, key, v)
  {
    r := points;
    var i := 0;
    while i < |r|
      invariant 0 <= i <= |r| == |points|
      invariant forall j :: 0 <= j < i ==> r[j] == points[j][key := v]
      invariant forall j :: i <= j < |r| ==> r[j] == points[j]
    {
      r := r[i := r[i][key := v]];
      i := i + 1;
    }
  }

  lemma StampedAppend(a: seq<Point>, b: seq<Point>, key: string, v: Value)
    ensures Stamped(a + b, key, v) == Stamped(a, key, v) + Stamped(b, key, v)
  {
  }

  /** Stamping the same key with the same value twice is the same as stamping it once. */
  lemma StampedTwice(a: seq<Point>, key: string, v: Value)
    ensures Stamped(Stamped(a, key, v), key, v) == Stamped(a, key, v)
  {
    var once := Stamped(a, key, v);
    forall i | 0 <= i < |a|
      ensures Stamped(once, key, v)[i] == once[i]
    {
      assert once[i][key := v] == once[i];
    }
  }

  /** An entry of the feature list passed to `leaflet_render_map()`: a feature, or `{group: TRUE, label, features}`. */
  datatype Entry = Feature(props: Point) | Group(groupLabel: Value, features: seq<Entry>)

  function AsFeatures(points: seq<Point>): seq<Entry>
  {
    seq(|points|, i requires 0 <= i < |points| => Feature(points[i]))
  }

  /** The arguments of a `leaflet_render_map($map, $features, $height)` call. */
  datatype MapElement<F> = MapElement(mapInfo: Value, features: seq<F>, height: string)

  /** The height argument every plugin builds as `$height . 'px'`. */
  function PixelHeight(height: Value): string
  {
    ToString(height) + "px"
  }
}

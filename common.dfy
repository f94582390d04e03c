/** Small definitions shared by the browser-side and the server-side models. */
module Common {

  datatype Option<+T> = None | Some(value: T)

  /** The concatenation, in order, of a sequence of sequences. */
  function Flatten<T>(ss: seq<seq<T>>): seq<T>
  {
    if ss == [] then [] else Flatten(ss[..|ss| - 1]) + ss[|ss| - 1]
  }

  lemma {:induction false} FlattenAppend<T>(a: seq<seq<T>>, b: seq<seq<T>>)
    ensures Flatten(a + b) == Flatten(a) + Flatten(b)
    decreases |b|
  {
    if b == [] {
      assert a + b == a;
    } else {
      var n := |b| - 1;
      assert (a + b)[..|a + b| - 1] == a + b[..n];
      FlattenAppend(a, b[..n]);
    }
  }

  /** The index of the first element satisfying `p`, if any. */
  function FirstIndex<T>(s: seq<T>, p: T -> bool): (r: Option<nat>)
    ensures r.Some? ==> r.value < |s| && p(s[r.value]) && forall j :: 0 <= j < r.value ==> !p(s[j])
    ensures r.None? <==> forall j :: 0 <= j < |s| ==> !p(s[j])
  {
    if s == [] then None
    else if p(s[0]) then Some(0)
    else match FirstIndex(s[1..], p)
      case None => None
      case Some(k) => Some(k + 1)
  }

  predicate IsDigit(c: char)
  {
    '0' <= c <= '9'
  }

  function DigitChar(d: nat): char
    requires d < 10
  {
    "0123456789"[d]
  }

  /** Base-ten digits of a natural number, most significant first, without leading zeros. */
  function Digits(n: nat): string
  {
    if n < 10 then [DigitChar(n)] else Digits(n / 10) + [DigitChar(n % 10)]
  }

  /** The decimal rendering of an integer, as both PHP's and JavaScript's integer-to-string conversions produce it. */
  function Decimal(n: int): string
  {
    if n < 0 then "-" + Digits(-n) else Digits(n)
  }

  lemma {:induction false} DigitsShape(n: nat)
    ensures |Digits(n)| > 0
    ensures forall i :: 0 <= i < |Digits(n)| ==> IsDigit(Digits(n)[i])
    ensures Digits(n)[0] == '0' <==> n == 0
    ensures n > 0 ==> exists i :: 0 <= i < |Digits(n)| && '1' <= Digits(n)[i] <= '9'
    ensures n == 0 ==> Digits(n) == "0"
  {
    if n >= 10 {
      DigitsShape(n / 10);
      var s := Digits(n / 10);
      assert Digits(n)[0] == s[0];
      assert '1' <= Digits(n)[0] <= '9';
    }
  }

  /** Neither rendering contains a character other than a digit or a leading minus sign. */
  lemma DecimalChars(n: int)
    ensures |Decimal(n)| > 0
    ensures forall i :: 0 <= i < |Decimal(n)| ==> IsDigit(Decimal(n)[i]) || (i == 0 && Decimal(n)[i] == '-' && n < 0)
  {
    if n < 0 {
      var d := Digits(-n);
      DigitsShape(-n);
      assert Decimal(n) == "-" + d;
      forall i | 0 < i < |Decimal(n)| ensures IsDigit(Decimal(n)[i]) {
        assert Decimal(n)[i] == d[i - 1];
      }
    } else {
      DigitsShape(n);
    }
  }
}

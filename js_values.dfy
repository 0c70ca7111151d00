/**
  The JavaScript values the routes read out of a parsed JSON reply, and the
  few language conversions the routes rely on: truthiness, conversion to
  text inside a template literal, the numeric coercion of `i < filter`,
  `String.prototype.slice(0, n)` and `Array.prototype.join`.
 */
module JsValues {
  import opened Wrappers

  /** A JSON field as seen by JavaScript. `Undefined` is a missing field.
      Numbers are integers here; `Obj` is an object or array, carried with
      the text that `String(...)` gives for it, or `None` when converting it
      throws (a parsed object whose own `toString` is not a function, such
      as `{"toString": 0}`, or an array holding one). */
  datatype JsValue =
    | Undefined
    | Null
    | Bool(b: bool)
    | Num(n: int)
    | Str(s: string)
    | Obj(text: Option<string>)

  /** JavaScript truthiness: `undefined`, `null`, `false`, `0` and `""` are falsy. */
  predicate Truthy(v: JsValue)
  {
    match v
    case Undefined => false
    case Null => false
    case Bool(b) => b
    case Num(n) => n != 0
    case Str(s) => s != ""
    case Obj(_) => true
  }

  // ----- decimal numerals -----

  predicate IsDigit(c: char) { '0' <= c <= '9' }

  predicate IsDigits(s: string)
  {
    s != [] && forall i :: 0 <= i < |s| ==> IsDigit(s[i])
  }

  function DigitChar(d: nat): (c: char)
    requires d < 10
    ensures IsDigit(c)
  {
    ('0' as int + d) as char
  }

  function DigitValue(c: char): (d: nat)
    requires IsDigit(c)
    ensures d < 10 && DigitChar(d) == c
  {
    (c as int - '0' as int) as nat
  }

  /** The number a string of decimal digits denotes. */
  function DigitsValue(s: string): nat
    requires forall i :: 0 <= i < |s| ==> IsDigit(s[i])
  {
    if s == [] then 0 else DigitsValue(s[..|s| - 1]) * 10 + DigitValue(s[|s| - 1])
  }

  /** How JavaScript writes a non-negative integer: decimal, no leading zeros. */
  function NatToString(n: nat): string
  {
    if n < 10 then [DigitChar(n)] else NatToString(n / 10) + [DigitChar(n % 10)]
  }

  /** NatToString writes digits only, with no leading zero. */
  lemma {:induction false} NatToStringIsNumeral(n: nat)
    ensures IsDigits(NatToString(n))
    ensures NatToString(n)[0] == '0' ==> n == 0
  {
    if n >= 10 {
      NatToStringIsNumeral(n / 10);
    }
  }

  /** Reading back what NatToString wrote gives the number again, so the
      numerals the routes print (counts, page numbers) are unambiguous. */
  lemma {:induction false} NatToStringRoundTrip(n: nat)
    ensures IsDigits(NatToString(n)) && DigitsValue(NatToString(n)) == n
  {
    var s := NatToString(n);
    NatToStringIsNumeral(n);
    if n >= 10 {
      NatToStringIsNumeral(n / 10);
      NatToStringRoundTrip(n / 10);
      assert s[..|s| - 1] == NatToString(n / 10);
    }
  }

  lemma NatToStringInjective(m: nat, n: nat)
    requires NatToString(m) == NatToString(n)
    ensures m == n
  {
    NatToStringRoundTrip(m);
    NatToStringRoundTrip(n);
  }

  function IntToString(n: int): string
  {
    if n < 0 then "-" + NatToString(-n) else NatToString(n)
  }

  /** What `${v}` inserts into a template literal; `None` when the
      conversion throws a TypeError. */
  function ToText(v: JsValue): (text: Option<string>)
    ensures text.None? <==> v.Obj? && v.text.None?
    ensures v.Str? ==> text == Some(v.s)
  {
    match v
    case Undefined => Some("undefined")
    case Null => Some("null")
    case Bool(b) => Some(if b then "true" else "false")
    case Num(n) => Some(IntToString(n))
    case Str(s) => Some(s)
    case Obj(text) => text
  }

  // ----- the loop bound of getTopResultsFromGoogle -----

  /** The default of the `filter` parameter. */
  const DefaultFilter: int := 3

  /** The integer that `i < filter` behaves like for an argument `v`.
      A missing argument takes the default; `null` and `false` compare as 0,
      `true` as 1; a string of digits as its value; any other string or
      object is NaN, against which every comparison is false, as against 0.
      An object whose conversion throws fails the first comparison, and the
      catch block of getTopResultsFromGoogle then returns the list built so
      far, which is empty: the same result as a bound of 0. */
  function FilterBound(v: JsValue): (bound: int)
    ensures v.Undefined? ==> bound == DefaultFilter
    ensures !Truthy(v) && !v.Undefined? ==> bound == 0
    ensures v.Num? ==> bound == v.n
    ensures v.Str? && IsDigits(v.s) ==> bound == DigitsValue(v.s)
    ensures v.Obj? ==> bound == 0
  {
    match v
    case Undefined => DefaultFilter
    case Null => 0
    case Bool(b) => if b then 1 else 0
    case Num(n) => n
    case Str(s) => if IsDigits(s) then DigitsValue(s) else 0
    case Obj(_) => 0
  }

  // ----- String.prototype.slice(0, n) -----

  /** `s.slice(0, n)`: the first n characters, or all of s when it is shorter. */
  function Prefix(s: string, n: nat): (r: string)
    ensures r <= s
    ensures |r| == if |s| <= n then |s| else n
  {
    if |s| <= n then s else s[..n]
  }

  lemma PrefixKeepsShort(s: string, n: nat)
    requires |s| <= n
    ensures Prefix(s, n) == s
  {
  }

  // ----- Array.prototype.map with the index, and Array.prototype.join -----

  /** `xs.map((x, index) => f(x, index))`. */
  function MapWithIndex<T>(xs: seq<T>, f: (T, nat) -> string): (r: seq<string>)
    ensures |r| == |xs|
    ensures forall i :: 0 <= i < |xs| ==> r[i] == f(xs[i], i)
  {
    seq(|xs|, i requires 0 <= i < |xs| => f(xs[i], i))
  }


  /** `parts.join(sep)`. */
  function Join(parts: seq<string>, sep: string): string
  {
    if |parts| == 0 then ""
    else if |parts| == 1 then parts[0]
    else parts[0] + sep + Join(parts[1..], sep)
  }

  /** Where the k-th part starts inside Join(parts, sep). */
  function Offset(parts: seq<string>, sep: string, k: nat): nat
    requires k <= |parts|
  {
    if k == 0 then 0 else |parts[0]| + |sep| + Offset(parts[1..], sep, k - 1)
  }

  /** Each part sits, unchanged, at its offset in the joined text, and the
      offsets grow with k: the parts appear in the order of the list. */
  lemma {:induction false} JoinPlacesParts(parts: seq<string>, sep: string, k: nat)
    requires k < |parts|
    ensures Offset(parts, sep, k) + |parts[k]| <= |Join(parts, sep)|
    ensures Join(parts, sep)[Offset(parts, sep, k)..Offset(parts, sep, k) + |parts[k]|] == parts[k]
    ensures k + 1 < |parts| ==> Offset(parts, sep, k) + |parts[k]| + |sep| == Offset(parts, sep, k + 1)
    ensures k + 1 == |parts| ==> Offset(parts, sep, k) + |parts[k]| == |Join(parts, sep)|
  {
    var j := Join(parts, sep);
    if k == 0 {
      if |parts| > 1 {
        assert j == parts[0] + (sep + Join(parts[1..], sep));
        assert Offset(parts, sep, 1) == |parts[0]| + |sep| + Offset(parts[1..], sep, 0);
      }
    } else {
      JoinPlacesParts(parts[1..], sep, k - 1);
      var tail := Join(parts[1..], sep);
      var head := parts[0] + sep;
      assert j == head + tail;
      var o := Offset(parts[1..], sep, k - 1);
      assert Offset(parts, sep, k) == |head| + o;
      assert j[|head| + o..|head| + o + |parts[k]|] == tail[o..o + |parts[k]|];
      if k + 1 < |parts| {
        assert Offset(parts, sep, k + 1) == |head| + Offset(parts[1..], sep, k);
      }
    }
  }

  /** A part of a part: when piece i of an outer join is itself a join,
      the inner part k sits at the sum of the two offsets. */
  lemma JoinPlacesNestedPart(outer: seq<string>, i: nat, inner: seq<string>, sep: string, k: nat)
    requires i < |outer| && outer[i] == Join(inner, sep) && k < |inner| && sep != ""
    ensures var at := Offset(outer, "", i) + Offset(inner, sep, k);
      && at + |inner[k]| <= |Join(outer, "")|
      && Join(outer, "")[at..at + |inner[k]|] == inner[k]
      && (k + 1 < |inner| ==> at + |inner[k]| < Offset(outer, "", i) + Offset(inner, sep, k + 1))
  {
    JoinPlacesParts(outer, "", i);
    JoinPlacesParts(inner, sep, k);
    var whole := Join(outer, "");
    var o := Offset(outer, "", i);
    var ok := Offset(inner, sep, k);
    assert whole[o..o + |outer[i]|] == outer[i];
    SliceOfSlice(whole, o, o + |outer[i]|, ok, ok + |inner[k]|);
  }

  /** A slice of a slice is a slice. */
  lemma SliceOfSlice(s: string, i: nat, j: nat, a: nat, b: nat)
    requires i <= j <= |s| && a <= b <= j - i
    ensures s[i..j][a..b] == s[i + a..i + b]
  {
    assert forall t :: 0 <= t < b - a ==> s[i..j][a..b][t] == s[i + a + t];
  }
}

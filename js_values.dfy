/**
 * The part of JavaScript's value semantics that the search and recommendation
 * code relies on: parsed JSON values (plus `undefined`), truthiness, the
 * conversion `String(v)`, and `String.prototype.trim`.
 *
 * Numbers are integers here; fractional numbers and NaN are not modelled.
 * An object is the map of its own enumerable properties.
 */
module JsValues {
  import opened Wrappers

  datatype JsValue =
    | Undefined
    | Null
    | Bool(b: bool)
    | Num(n: int)
    | Str(s: string)
    | Arr(items: seq<JsValue>)
    | Obj(fields: map<string, JsValue>)

  /** Property read `obj[key]` on a plain object: a missing key reads as `undefined`. */
  function Get(obj: map<string, JsValue>, key: string): (v: JsValue)
    ensures key !in obj ==> v == Undefined
    ensures key in obj ==> v == obj[key]
  {
    if key in obj then obj[key] else Undefined
  }

  /** Property access `v.key` on a parsed JSON value: only an object has keys of its own. */
  function Prop(v: JsValue, key: string): (r: JsValue)
    ensures !v.Obj? ==> r == Undefined
    ensures v.Obj? && key !in v.fields ==> r == Undefined
    ensures v.Obj? && key in v.fields ==> r == v.fields[key]
  {
    if v.Obj? then Get(v.fields, key) else Undefined
  }

  /** JavaScript truthiness: `undefined`, `null`, `false`, `0` and `""` are the falsy values. */
  predicate Truthy(v: JsValue) {
    match v
    case Undefined => false
    case Null => false
    case Bool(b) => b
    case Num(n) => n != 0
    case Str(s) => s != ""
    case Arr(_) => true
    case Obj(_) => true
  }

  /** The expression `a || b`. */
  function Or(a: JsValue, b: JsValue): (r: JsValue)
    ensures Truthy(a) ==> r == a
    ensures !Truthy(a) ==> r == b
  {
    if Truthy(a) then a else b
  }

  function DigitChar(d: nat): (c: char)
    requires d < 10
    ensures '0' <= c <= '9' && c as int - '0' as int == d
  {
    ('0' as int + d) as char
  }

  /** Decimal digits of a natural number, as `String(n)` prints it; reading them back gives `n`. */
  function NatToDecimal(n: nat): (r: string)
    ensures IsDigits(r)
    ensures DigitsValue(r) == n
  {
    if n < 10 then [DigitChar(n)]
    else
      var r := NatToDecimal(n / 10) + [DigitChar(n % 10)];
      assert r[..|r| - 1] == NatToDecimal(n / 10);
      r
  }

  function IntToDecimal(n: int): (r: string)
    ensures |r| > 0
    ensures forall i :: 0 <= i < |r| ==> r[i] == '-' || '0' <= r[i] <= '9'
  {
    if n < 0 then "-" + NatToDecimal(-n) else NatToDecimal(n)
  }

  predicate IsDigits(ds: string) {
    |ds| > 0 && forall i :: 0 <= i < |ds| ==> '0' <= ds[i] <= '9'
  }

  /** The value of a run of decimal digits, most significant first. */
  function DigitsValue(ds: string): (n: nat)
    requires forall i :: 0 <= i < |ds| ==> '0' <= ds[i] <= '9'
  {
    if ds == [] then 0 else 10 * DigitsValue(ds[..|ds| - 1]) + (ds[|ds| - 1] as int - '0' as int)
  }

  /**
   * `String(v)` throws a TypeError on an object with an own `toString`
   * property, since a parsed JSON value never makes it callable and the
   * inherited `valueOf` does not give a primitive either. An array converts
   * through `join`, so it throws when one of its elements does. A number
   * conversion (`pageCount - 1`) fails on exactly the same values.
   */
  predicate StringThrows(v: JsValue)
    ensures StringThrows(v) ==> (v.Obj? || v.Arr?) && Truthy(v)
  {
    match v
    case Obj(fields) => "toString" in fields
    case Arr(items) => exists i :: 0 <= i < |items| && StringThrows(items[i])
    case _ => false
  }

  /**
   * `String(v)` when it does not throw (see `StringThrows`). An array prints
   * its elements joined by commas, with `null` and `undefined` printed empty.
   */
  function ToString(v: JsValue): (r: string)
    ensures v.Str? ==> r == v.s
    ensures v.Num? ==> StringToNumber(r) == Some(v.n)
    ensures v.Obj? ==> r == "[object Object]"
  {
    match v
    case Undefined => "undefined"
    case Null => "null"
    case Bool(b) => if b then "true" else "false"
    case Num(n) => DecimalRoundTrip(n); IntToDecimal(n)
    case Str(s) => s
    case Arr(items) => JoinElements(items)
    case Obj(_) => "[object Object]"
  }

  /** `Array.prototype.join(",")`, the conversion `String` applies to an array. */
  function JoinElements(items: seq<JsValue>): string {
    if |items| == 0 then ""
    else
      (if items[0] == Undefined || items[0] == Null then "" else ToString(items[0]))
      + (if |items| == 1 then "" else "," + JoinElements(items[1..]))
  }

  /** The characters `trim` removes: ECMAScript's WhiteSpace and LineTerminator. */
  predicate IsJsSpace(c: char) {
    c == '\U{9}' || c == '\U{A}' || c == '\U{B}' || c == '\U{C}' || c == '\U{D}' ||
    c == ' ' || c == '\U{A0}' || c == '\U{1680}' || ('\U{2000}' <= c <= '\U{200A}') ||
    c == '\U{2028}' || c == '\U{2029}' || c == '\U{202F}' || c == '\U{205F}' ||
    c == '\U{3000}' || c == '\U{FEFF}'
  }

  predicate AllSpace(s: string) {
    forall i :: 0 <= i < |s| ==> IsJsSpace(s[i])
  }

  /** Leading white space removed, and nothing else. */
  function TrimStart(s: string): (r: string)
    ensures |r| <= |s| && r == s[|s| - |r|..]
    ensures AllSpace(s[..|s| - |r|])
    ensures r == [] || !IsJsSpace(r[0])
  {
    if |s| > 0 && IsJsSpace(s[0]) then
      var r := TrimStart(s[1..]);
      var k := |s| - |r|;
      assert s[..k] == [s[0]] + s[1..][..k - 1];
      r
    else s
  }

  /** Trailing white space removed, and nothing else. */
  function TrimEnd(s: string): (r: string)
    ensures |r| <= |s| && r == s[..|r|]
    ensures AllSpace(s[|r|..])
    ensures r == [] || !IsJsSpace(r[|r| - 1])
  {
    if |s| > 0 && IsJsSpace(s[|s| - 1]) then
      var r := TrimEnd(s[..|s| - 1]);
      assert s[|r|..] == s[..|s| - 1][|r|..] + [s[|s| - 1]];
      r
    else s
  }

  /**
   * `s.trim()`: a piece of `s` that starts and ends with a character other
   * than white space, empty exactly when `s` is all white space.
   */
  function Trim(s: string): (r: string)
    ensures r == [] <==> AllSpace(s)
    ensures r == [] || (!IsJsSpace(r[0]) && !IsJsSpace(r[|r| - 1]))
    ensures exists i :: 0 <= i <= |s| && r <= s[i..]
  {
    TrimPieces(s);
    var t := TrimStart(s);
    var r := TrimEnd(t);
    assert r <= s[|s| - |t|..];
    r
  }

  lemma TrimPieces(s: string)
    ensures var t := TrimStart(s); var r := TrimEnd(t);
      (r == [] <==> AllSpace(s)) && r <= s[|s| - |t|..]
  {
    var t := TrimStart(s);
    TrimStartEmptyIffAllSpace(s);
    if t != [] {
      // TrimEnd stops at the first character of t at the latest, which is not white space.
      TrimEndKeepsNonSpace(t, 0);
    }
  }

  /** Text that neither starts nor ends with white space is its own trim. */
  lemma TrimOfUnpadded(s: string)
    requires |s| > 0 && !IsJsSpace(s[0]) && !IsJsSpace(s[|s| - 1])
    ensures Trim(s) == s
  {
    assert TrimStart(s) == s;
  }

  /**
   * Numeric conversion of a string, as `-` applies it: surrounding white space
   * is ignored, blank text is 0, an optionally signed decimal integer is its
   * value, and anything else is NaN (`None`).
   */
  function StringToNumber(s: string): (r: Option<int>)
    ensures AllSpace(s) ==> r == Some(0)
  {
    var t := Trim(s);
    if t == [] then Some(0)
    else if IsDigits(t) then Some(DigitsValue(t))
    else if t[0] == '+' && IsDigits(t[1..]) then Some(DigitsValue(t[1..]))
    else if t[0] == '-' && IsDigits(t[1..]) then Some(0 - DigitsValue(t[1..]))
    else None
  }

  /**
   * Trimmed text with a character other than a digit, unless it is a leading
   * sign, is NaN: `"1,2"` and `"[object Object]"` both are.
   */
  lemma NonDigitIsNaN(s: string, i: int)
    requires 0 <= i < |Trim(s)| && !('0' <= Trim(s)[i] <= '9')
    requires i == 0 ==> Trim(s)[0] != '+' && Trim(s)[0] != '-'
    ensures StringToNumber(s).None?
  {
    var t := Trim(s);
    if i > 0 {
      assert t[1..][i - 1] == t[i];
    }
  }

  /** `String(n)` read back by `Number` is `n`. */
  lemma DecimalRoundTrip(n: int)
    ensures StringToNumber(IntToDecimal(n)) == Some(n)
  {
    var s := IntToDecimal(n);
    NumeralNotSpace(s[0]);
    NumeralNotSpace(s[|s| - 1]);
    TrimOfUnpadded(s);
    if n < 0 {
      var d := NatToDecimal(-n);
      assert s == "-" + d && s[1..] == d;
      assert !IsDigits(s);
    } else {
      assert s == NatToDecimal(n);
    }
  }

  lemma NumeralNotSpace(c: char)
    requires c == '-' || '0' <= c <= '9'
    ensures !IsJsSpace(c)
  {
  }

  /** Numeric conversion of a value (`None` is NaN); an array converts through its string. */
  function ToNumber(v: JsValue): (r: Option<int>)
    ensures v.Num? ==> r == Some(v.n)
    ensures v.Undefined? || v.Obj? ==> r.None?
    ensures v.Null? || v == Arr([]) ==> r == Some(0)
    ensures v.Arr? && |v.items| == 1 && v.items[0].Num? ==> r == Some(v.items[0].n)
  {
    match v
    case Undefined => None
    case Null => Some(0)
    case Bool(b) => Some(if b then 1 else 0)
    case Num(n) => Some(n)
    case Str(s) => StringToNumber(s)
    case Arr(items) =>
      assert |items| == 1 && items[0].Num? ==> JoinElements(items) == ToString(items[0]);
      StringToNumber(ToString(v))
    case Obj(_) => None
  }

  lemma TrimStartEmptyIffAllSpace(s: string)
    ensures TrimStart(s) == [] <==> AllSpace(s)
  {
    var r := TrimStart(s);
    if r == [] {
      assert s[..|s|] == s;
    } else {
      // the first kept character is not white space
      assert r[0] == s[|s| - |r|];
    }
  }

  lemma {:induction false} TrimEndKeepsNonSpace(s: string, k: nat)
    requires k < |s| && !IsJsSpace(s[k])
    ensures |TrimEnd(s)| > k
  {
    if |s| > 0 && IsJsSpace(s[|s| - 1]) {
      TrimEndKeepsNonSpace(s[..|s| - 1], k);
    }
  }

  /** The test `pick` applies, when it does not throw: not `undefined`, not `null`, and `String(v).trim() !== ""`. */
  predicate Present(v: JsValue) {
    v != Undefined && v != Null && !StringThrows(v) && Trim(ToString(v)) != ""
  }

  /** `pick` moves past `v`: the test neither accepts it nor throws. */
  predicate Skipped(v: JsValue) {
    !Present(v) && !StringThrows(v)
  }

  /**
   * Every number, boolean and object without an own `toString` passes
   * `pick`'s test, whatever its truthiness; an object with one makes the
   * test throw.
   */
  lemma NonStringScalarsArePresent(v: JsValue)
    requires v.Num? || v.Bool? || v.Obj?
    ensures Present(v) <==> !StringThrows(v)
    ensures StringThrows(v) <==> v.Obj? && "toString" in v.fields
  {
    var s := ToString(v);
    ScalarStringStart(v);
    assert !IsJsSpace(s[0]);
    assert Trim(s) != "";
  }

  lemma ScalarStringStart(v: JsValue)
    requires v.Num? || v.Bool? || v.Obj?
    ensures |ToString(v)| > 0 && !IsJsSpace(ToString(v)[0])
  {
    var s := ToString(v);
    if v.Num? {
      assert s == IntToDecimal(v.n);
      NumeralNotSpace(s[0]);
    }
  }

  /** A string passes `pick`'s test exactly when it has a character that is not white space. */
  lemma StringPresentIffNotAllSpace(s: string)
    ensures Present(Str(s)) <==> !AllSpace(s)
  {
  }
}

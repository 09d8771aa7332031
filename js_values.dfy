/** The parts of the JavaScript runtime that the route handlers and components
    rely on: values produced by `request.json()`, truthiness and the `||`
    default operator, property reads that throw on `null`/`undefined`,
    `Array.prototype.join`, `String.prototype.substring`, and the decimal
    rendering of a non-negative integer (`Date.now()` in a template string). */
module JsValues {

  datatype Option<T> = None | Some(value: T)

  /** A value produced by JSON parsing. JSON numbers are finite, so a real
      stands for them (binary floating-point rounding is not modelled). */
  datatype Json =
    | JNull
    | JBool(b: bool)
    | JNum(n: real)
    | JStr(s: string)
    | JArr(items: seq<Json>)
    | JObj(fields: map<string, Json>)

  /** The result of reading a property: `None` is `undefined`. */
  type JsValue = Option<Json>

  /** The outcome of an expression that may throw. */
  datatype Result<T> = Ok(value: T) | Throws

  /** JavaScript truthiness. `undefined`, `null`, `false`, `0` and `""` are
      falsy; every array and object, even an empty one, is truthy. (NaN and
      `-0`, the remaining falsy values, cannot come out of JSON other than as 0.) */
  predicate Truthy(v: JsValue) {
    match v
    case None => false
    case Some(j) =>
      match j
      case JNull => false
      case JBool(b) => b
      case JNum(n) => n != 0.0
      case JStr(s) => s != ""
      case JArr(_) => true
      case JObj(_) => true
  }

  /** `a || b` where the fallback `b` is a literal. */
  function Or(a: JsValue, b: Json): (r: Json)
    ensures Truthy(a) ==> a == Some(r)
    ensures !Truthy(a) ==> r == b
  {
    if Truthy(a) then a.value else b
  }

  /** The falsy values are exactly these five. */
  lemma FalsyValues(v: JsValue)
    ensures !Truthy(v) <==>
      v in {None, Some(JNull), Some(JBool(false)), Some(JNum(0.0)), Some(JStr(""))}
  {
  }

  /** `v.key`. Reading a property of `undefined` or `null` throws a TypeError;
      an object yields its own property or `undefined`; any other value has no
      property of that name. (The keys read in this model are none of the
      built-in properties of strings, arrays or `Object.prototype`.) */
  function Get(v: JsValue, key: string): (r: Result<JsValue>)
    ensures r.Throws? <==> v == None || v == Some(JNull)
    ensures r.Ok? && r.value.Some? ==> v.value.JObj? && key in v.value.fields && r.value.value == v.value.fields[key]
    ensures v.Some? && v.value.JObj? && key in v.value.fields ==> r == Ok(Some(v.value.fields[key]))
    ensures v.Some? && v.value != JNull && !(v.value.JObj? && key in v.value.fields) ==> r == Ok(None)
  {
    match v
    case None => Throws
    case Some(JNull) => Throws
    case Some(JObj(m)) => Ok(if key in m then Some(m[key]) else None)
    case Some(_) => Ok(None)
  }

  /** `xs.join(sep)` for an array of strings. */
  function Join(xs: seq<string>, sep: string): string
  {
    if |xs| == 0 then ""
    else if |xs| == 1 then xs[0]
    else xs[0] + sep + Join(xs[1..], sep)
  }

  lemma JoinTwo(a: string, b: string, sep: string)
    ensures Join([a, b], sep) == a + sep + b
  {
    assert [a, b][1..] == [b];
  }

  /** Where element `i` starts in `Join(xs, sep)`: after each earlier element
      and its separator. */
  function JoinOffset(xs: seq<string>, sep: string, i: nat): nat
    requires i <= |xs|
  {
    if i == 0 then 0 else JoinOffset(xs, sep, i - 1) + |xs[i - 1]| + |sep|
  }

  lemma {:induction false} JoinOffsetShift(xs: seq<string>, sep: string, i: nat)
    requires 1 <= i <= |xs|
    ensures JoinOffset(xs, sep, i) == |xs[0]| + |sep| + JoinOffset(xs[1..], sep, i - 1)
  {
    if i > 1 {
      JoinOffsetShift(xs, sep, i - 1);
      assert xs[1..][i - 2] == xs[i - 1];
    }
  }

  /** The length of `xs.join(sep)`: the last element ends the string. */
  lemma {:induction false} JoinLength(xs: seq<string>, sep: string)
    requires xs != []
    ensures |Join(xs, sep)| == JoinOffset(xs, sep, |xs| - 1) + |xs[|xs| - 1]|
  {
    if |xs| > 1 {
      JoinLength(xs[1..], sep);
      JoinOffsetShift(xs, sep, |xs| - 1);
    }
  }

  /** Element `i` of `xs.join(sep)` is written, character by character,
      from `JoinOffset(xs, sep, i)` on. */
  lemma {:induction false} JoinElementAt(xs: seq<string>, sep: string, i: nat, k: nat)
    requires i < |xs| && k < |xs[i]|
    ensures JoinOffset(xs, sep, i) + k < |Join(xs, sep)|
    ensures Join(xs, sep)[JoinOffset(xs, sep, i) + k] == xs[i][k]
  {
    if |xs| > 1 {
      var head := xs[0] + sep;
      assert Join(xs, sep) == head + Join(xs[1..], sep);
      if i > 0 {
        JoinElementAt(xs[1..], sep, i - 1, k);
        JoinOffsetShift(xs, sep, i);
      }
    }
  }

  /** Every element but the last is followed by the separator. */
  lemma {:induction false} JoinSeparatorAt(xs: seq<string>, sep: string, i: nat, k: nat)
    requires i < |xs| - 1 && k < |sep|
    ensures JoinOffset(xs, sep, i) + |xs[i]| + k < |Join(xs, sep)|
    ensures Join(xs, sep)[JoinOffset(xs, sep, i) + |xs[i]| + k] == sep[k]
  {
    var head := xs[0] + sep;
    assert Join(xs, sep) == head + Join(xs[1..], sep);
    if i > 0 {
      JoinSeparatorAt(xs[1..], sep, i - 1, k);
      JoinOffsetShift(xs, sep, i);
    } else {
      JoinLength(xs[1..], sep);
    }
  }

  /** `s.substring(start, end)`: both indices are clamped to `[0, |s|]` and
      swapped when `start > end`. */
  function Substring(s: string, start: int, end: int): (r: string)
    ensures |r| <= |s|
    ensures 0 <= start <= end <= |s| ==> r == s[start..end]
    ensures |r| <= if start <= end then end - start else start - end
  {
    var a := Clamp(start, |s|);
    var b := Clamp(end, |s|);
    if a <= b then s[a..b] else s[b..a]
  }

  function Clamp(i: int, len: nat): (r: nat)
    ensures r <= len
  {
    if i < 0 then 0 else if i > len then len else i
  }

  predicate IsDigit(c: char) {
    '0' <= c <= '9'
  }

  function DigitChar(d: nat): (c: char)
    requires d < 10
    ensures IsDigit(c) && c as int - '0' as int == d
  {
    ('0' as int + d) as char
  }

  /** The decimal text of a non-negative integer, as `${n}` renders it
      (JavaScript switches to exponent notation only from 10^21 on). */
  function DecimalString(n: nat): (r: string)
    ensures |r| > 0
    ensures forall i :: 0 <= i < |r| ==> IsDigit(r[i])
    decreases n
  {
    if n < 10 then [DigitChar(n)] else DecimalString(n / 10) + [DigitChar(n % 10)]
  }

  /** The value of a string of decimal digits. */
  function DecimalValue(s: string): nat
    requires forall i :: 0 <= i < |s| ==> IsDigit(s[i])
  {
    if s == [] then 0
    else
      assert IsDigit(s[|s| - 1]);
      10 * DecimalValue(s[..|s| - 1]) + (s[|s| - 1] as int - '0' as int)
  }

  /** Rendering a timestamp in decimal loses nothing: reading the digits back
      gives the same number. */
  lemma {:induction false} DecimalRoundTrip(n: nat)
    ensures DecimalValue(DecimalString(n)) == n
    decreases n
  {
    var r := DecimalString(n);
    if n >= 10 {
      DecimalRoundTrip(n / 10);
      assert r[..|r| - 1] == DecimalString(n / 10);
    }
  }
}

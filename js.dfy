/** JSON data as the JavaScript services and pages of the recipe application see it after
    parsing, and the few language rules the core relies on: truthiness (`||`, `?:`), strict
    equality (`===`), property reads that throw on `null`/`undefined`, `String(v)`,
    `parseInt`, `Number.prototype.toFixed` and `Math.round`.
    Numbers are held exactly, as written in decimal; IEEE-754 doubles are not modelled. */
module Js {
  import opened Text

  datatype Option<+T> = None | Some(value: T)

  /** A JavaScript number as written in JSON: exactly `digits / 10^places`. */
  datatype Number = Number(digits: int, places: nat)

  function Pow10(n: nat): (p: nat)
    ensures p >= 1
  {
    if n == 0 then 1 else 10 * Pow10(n - 1)
  }

  function NumValue(n: Number): real {
    n.digits as real / Pow10(n.places) as real
  }

  /** A parsed JSON value. Objects are maps: the order of their keys is not modelled. */
  datatype Json =
    | JNull
    | JBool(b: bool)
    | JNum(n: Number)
    | JStr(s: string)
    | JArr(items: seq<Json>)
    | JObj(fields: map<string, Json>)

  /** A JavaScript value that came from JSON, or `undefined` (None). */
  type Value = Option<Json>

  /** The outcome of evaluating a JavaScript expression: a value, or a thrown TypeError. */
  datatype Eval<+T> = Ok(value: T) | TypeError

  function Int(i: int): Json {
    JNum(Number(i, 0))
  }

  function Str(s: string): Json {
    JStr(s)
  }

  /** JavaScript truthiness: `undefined`, `null`, `false`, `0` and `''` are falsy. */
  predicate Truthy(v: Value) {
    match v
    case None => false
    case Some(j) =>
      match j
      case JNull => false
      case JBool(b) => b
      case JNum(n) => n.digits != 0
      case JStr(s) => s != ""
      case _ => true
  }

  /** `a || b`. */
  function Or(a: Value, b: Json): (r: Value)
    ensures r.Some?
    ensures Truthy(a) ==> r == a
    ensures !Truthy(a) ==> r == Some(b)
  {
    if Truthy(a) then a else Some(b)
  }

  /** `a === b` on values that came from JSON: primitives compare by value, while two
      objects or arrays are never the same reference, since parsing creates each anew. */
  predicate StrictEq(a: Value, b: Value) {
    match (a, b)
    case (None, None) => true
    case (Some(JNull), Some(JNull)) => true
    case (Some(JBool(x)), Some(JBool(y))) => x == y
    case (Some(JNum(x)), Some(JNum(y))) => NumValue(x) == NumValue(y)
    case (Some(JStr(x)), Some(JStr(y))) => x == y
    case _ => false
  }

  /** Reading the named property of a non-null value. Only objects have the named fields the
      core reads; these names are never `length`, an index or a method name. */
  function Get(j: Json, key: string): Value {
    if j.JObj? && key in j.fields then Some(j.fields[key]) else None
  }

  /** `v.key`: throws a TypeError when `v` is `null` or `undefined`. */
  function Prop(v: Value, key: string): Eval<Value> {
    if v.None? || v.value.JNull? then TypeError else Ok(Get(v.value, key))
  }

  /** `v[key] === target[targetKey]` where both reads succeed. */
  predicate FieldsMatch(v: Json, key: string, target: Json, targetKey: string) {
    !v.JNull? && !target.JNull? && StrictEq(Get(v, key), Get(target, targetKey))
  }

  /** `vals.find(v => v[key] === target[targetKey])` over an array: the first matching
      element, `undefined` when none matches, and a TypeError when a `null` is read
      before a match is found. */
  function FindFirst(vals: seq<Json>, key: string, target: Json, targetKey: string): (r: Eval<Value>)
    ensures r.Ok? && r.value.Some? ==>
              exists i :: 0 <= i < |vals| && vals[i] == r.value.value
                && FieldsMatch(vals[i], key, target, targetKey)
                && forall j :: 0 <= j < i ==> !FieldsMatch(vals[j], key, target, targetKey)
    ensures r == Ok(None) ==> forall i :: 0 <= i < |vals| ==> !FieldsMatch(vals[i], key, target, targetKey)
    ensures r.TypeError? <==>
              exists i :: 0 <= i < |vals| && (vals[i].JNull? || target.JNull?)
                && forall j :: 0 <= j < i ==> !FieldsMatch(vals[j], key, target, targetKey)
  {
    if |vals| == 0 then Ok(None)
    else
      match Prop(Some(vals[0]), key)
      case TypeError => TypeError
      case Ok(x) =>
        match Prop(Some(target), targetKey)
        case TypeError => TypeError
        case Ok(y) =>
          if StrictEq(x, y) then Ok(Some(vals[0]))
          else
            var r := FindFirst(vals[1..], key, target, targetKey);
            assert forall j :: 1 <= j < |vals| ==> vals[j] == vals[1..][j - 1];
            r
  }

  /** `Array.isArray(v)`. */
  predicate IsArray(v: Value) {
    v.Some? && v.value.JArr?
  }

  /** Sets or removes one field, as a JavaScript assignment does once the object is
      serialized: a field whose value is `undefined` is left out of the JSON. */
  function Put(m: map<string, Json>, key: string, v: Value): map<string, Json> {
    if v.Some? then m[key := v.value] else m - {key}
  }

  /** A property name made only of decimal digits, as array and string indices are. */
  predicate IsIndexKey(k: string) {
    |k| >= 1 && forall i :: 0 <= i < |k| ==> IsDigit(k[i])
  }

  /** The own enumerable properties of a list of elements: "0", "1", ... */
  function IndexMap(vals: seq<Json>): (m: map<string, Json>)
    ensures forall k :: k in m ==> IsIndexKey(k)
    ensures forall i :: 0 <= i < |vals| ==> NatToString(i) in m && m[NatToString(i)] == vals[i]
  {
    if |vals| == 0 then map[]
    else
      var m := IndexMap(vals[..|vals| - 1])[NatToString(|vals| - 1) := vals[|vals| - 1]];
      forall i | 0 <= i < |vals| - 1
        ensures m[NatToString(i)] == vals[i]
      {
        if NatToString(i) == NatToString(|vals| - 1) {
          NatToStringInjective(i, |vals| - 1);
        }
      }
      m
  }

  /** The properties `{...j}` copies: an object's fields, the indices of an array or a
      string, and nothing for `null`, booleans and numbers. */
  function Spread(j: Json): (m: map<string, Json>)
    ensures j.JObj? ==> m == j.fields
    ensures !j.JObj? ==> forall k :: k in m ==> IsIndexKey(k)
    ensures !j.JArr? && !j.JObj? && !j.JStr? ==> m == map[]
  {
    match j
    case JObj(f) => f
    case JArr(items) => IndexMap(items)
    case JStr(s) => IndexMap(seq(|s|, i requires 0 <= i < |s| => JStr([s[i]])))
    case _ => map[]
  }

  /** A named (non-index) property reads the same from a spread copy as from the original. */
  lemma SpreadGet(j: Json, k: string)
    requires !IsIndexKey(k)
    ensures (k in Spread(j)) == Get(j, k).Some?
    ensures k in Spread(j) ==> Spread(j)[k] == Get(j, k).value
  {
  }

  /** The same number with trailing zero digits after the point removed. */
  function Normalize(n: Number): (m: Number)
    ensures NumValue(m) == NumValue(n)
    ensures m.places > 0 ==> m.digits % 10 != 0
    decreases n.places
  {
    if n.places > 0 && n.digits % 10 == 0 then
      var q := n.digits / 10;
      assert n.digits == 10 * q;
      assert Pow10(n.places) == 10 * Pow10(n.places - 1);
      assert NumValue(n) == (10 * q) as real / (10 * Pow10(n.places - 1)) as real;
      Normalize(Number(q, n.places - 1))
    else n
  }

  /** `s` padded on the left with zeros to `width` characters. */
  function PadZeros(s: string, width: nat): (r: string)
    ensures |r| == if |s| < width then width else |s|
  {
    if |s| < width then seq(width - |s|, _ => '0') + s else s
  }

  function DivMod(a: nat, p: nat): (nat, nat)
    requires p >= 1
  {
    (a / p, a % p)
  }

  /** `String(n)` for a number: the shortest decimal form. The exponent notation JavaScript
      uses from 1e21 upward and below 1e-6 is not modelled. */
  function NumberToString(n: Number): string {
    var m := Normalize(n);
    if m.places == 0 then IntToString(m.digits)
    else
      var a: nat := if m.digits < 0 then -m.digits else m.digits;
      var parts := DivMod(a, Pow10(m.places));
      (if m.digits < 0 then "-" else "") + NatToString(parts.0) + "." + PadZeros(NatToString(parts.1), m.places)
  }

  /** `String(v)` for a value that came from JSON. */
  function ToJsString(j: Json): string
    decreases j, 1
  {
    match j
    case JNull => "null"
    case JBool(b) => if b then "true" else "false"
    case JNum(n) => NumberToString(n)
    case JStr(s) => s
    case JArr(items) => JoinItems(items, ",")
    case JObj(_) => "[object Object]"
  }

  /** `items.join(sep)`: `null` elements print as the empty string. */
  function JoinItems(items: seq<Json>, sep: string): string
    decreases items, 0
  {
    if |items| == 0 then ""
    else
      var first := if items[0].JNull? then "" else ToJsString(items[0]);
      if |items| == 1 then first else first + sep + JoinItems(items[1..], sep)
  }

  /** An array of strings, as the recipes' ingredient lists are. */
  function StrList(items: seq<string>): (j: Json)
    ensures j.JArr? && |j.items| == |items|
    ensures forall i :: 0 <= i < |items| ==> j.items[i] == JStr(items[i])
  {
    JArr(seq(|items|, i requires 0 <= i < |items| => JStr(items[i])))
  }

  /** `a` is `b` with some elements left out, the rest in their order. */
  predicate Subseq<T(==)>(a: seq<T>, b: seq<T>) {
    |a| == 0 || (|b| > 0 && ((a[0] == b[0] && Subseq(a[1..], b[1..])) || Subseq(a, b[1..])))
  }

  /** `items.filter(keep)` where the callback can throw: the callback runs on every element
      in order, a throw anywhere aborts the whole call, and otherwise the kept elements come
      out in their original order. */
  function Filter(items: seq<Json>, keep: Json -> Eval<bool>): (r: Eval<seq<Json>>)
    ensures r.TypeError? <==> exists i :: 0 <= i < |items| && keep(items[i]).TypeError?
    ensures r.Ok? ==> Subseq(r.value, items)
    ensures r.Ok? ==> forall x :: x in r.value <==> x in items && keep(x) == Ok(true)
    ensures r.Ok? ==> forall x :: multiset(r.value)[x] ==
                                   if keep(x) == Ok(true) then multiset(items)[x] else 0
  {
    if |items| == 0 then Ok([])
    else
      var rest := Filter(items[1..], keep);
      assert forall i :: 1 <= i < |items| ==> items[i] == items[1..][i - 1];
      assert forall x :: x in items <==> x == items[0] || x in items[1..];
      assert items == [items[0]] + items[1..];
      match keep(items[0])
      case TypeError => TypeError
      case Ok(b) =>
        match rest
        case TypeError => TypeError
        case Ok(kept) => Ok(if b then [items[0]] + kept else kept)
  }

  /** `items.map(f)` with a callback that may throw: one result per element, in order, and
      the whole call throws as soon as the callback throws for some element. */
  function MapEach(items: seq<Json>, f: Json -> Eval<Json>): (r: Eval<seq<Json>>)
    ensures r.TypeError? <==> exists i :: 0 <= i < |items| && f(items[i]).TypeError?
    ensures r.Ok? ==> |r.value| == |items|
    ensures r.Ok? ==> forall i :: 0 <= i < |items| ==> f(items[i]) == Ok(r.value[i])
  {
    if |items| == 0 then Ok([])
    else
      var rest := MapEach(items[1..], f);
      assert forall i :: 1 <= i < |items| ==> items[i] == items[1..][i - 1];
      match f(items[0])
      case TypeError => TypeError
      case Ok(y) =>
        match rest
        case TypeError => TypeError
        case Ok(ys) => Ok([y] + ys)
  }

  /** `v.length` for a value that came from JSON. A string's length counts code points,
      which is its UTF-16 length outside the astral planes. */
  function LengthOf(v: Value): (r: Eval<Value>)
    ensures r.TypeError? <==> v.None? || v.value.JNull?
  {
    match v
    case None => TypeError
    case Some(j) =>
      match j
      case JNull => TypeError
      case JArr(items) => Ok(Some(Int(|items|)))
      case JStr(s) => Ok(Some(Int(|s|)))
      case JObj(fields) => Ok(Get(j, "length"))
      case _ => Ok(None)
  }

  /** `String(n)` of an integer is its decimal rendering. */
  lemma IntString(n: int)
    ensures ToJsString(Int(n)) == IntToString(n)
  {
    assert Normalize(Number(n, 0)) == Number(n, 0);
  }

  /** `String(v)` including `undefined`, as a template literal `${v}` prints it. */
  function Template(v: Value): string {
    if v.None? then "undefined" else ToJsString(v.value)
  }

  /** A count printed in a template literal is its decimal digits. */
  lemma TemplateCount(n: nat)
    ensures Template(Some(Int(n))) == NatToString(n)
  {
    IntString(n);
  }

  /** The value of a digit character in bases up to 36, or 36 for any other character. */
  function DigitValue(c: char): (d: nat)
    ensures d <= 36
  {
    if '0' <= c <= '9' then c as int - '0' as int
    else if 'a' <= c <= 'z' then c as int - 'a' as int + 10
    else if 'A' <= c <= 'Z' then c as int - 'A' as int + 10
    else 36
  }

  /** The longest prefix of `s` made of digits of the given radix. */
  function DigitPrefix(s: string, radix: nat): (r: string)
    ensures |r| <= |s| && r == s[..|r|]
    ensures forall i :: 0 <= i < |r| ==> DigitValue(r[i]) < radix
    ensures |r| < |s| ==> DigitValue(s[|r|]) >= radix
  {
    if |s| > 0 && DigitValue(s[0]) < radix then [s[0]] + DigitPrefix(s[1..], radix) else ""
  }

  /** The number the digits spell in the given radix. */
  function DigitsValue(ds: string, radix: nat): nat
  {
    if |ds| == 0 then 0
    else DigitsValue(ds[..|ds| - 1], radix) * radix + DigitValue(ds[|ds| - 1])
  }

  /** `parseInt(s)` with no radix: leading whitespace, an optional sign, a `0x` prefix that
      switches to base 16, then the longest run of digits. `None` is NaN. */
  function ParseInt(s: string): Option<int> {
    var t := TrimLeft(s, IsJsSpace);
    if |t| > 0 && t[0] == '-' then
      match ParseMagnitude(t[1..])
      case None => None
      case Some(m) => Some(-m)
    else if |t| > 0 && t[0] == '+' then ParseMagnitude(t[1..])
    else ParseMagnitude(t)
  }

  /** The unsigned part of `parseInt`: a `0x`/`0X` prefix selects base 16. */
  function ParseMagnitude(u: string): Option<int> {
    var hex := |u| >= 2 && u[0] == '0' && (u[1] == 'x' || u[1] == 'X');
    var radix := if hex then 16 else 10;
    var digits := DigitPrefix(if hex then u[2..] else u, radix);
    if |digits| == 0 then None else Some(DigitsValue(digits, radix))
  }

  /** The decimal digits of a number spell that number. */
  lemma {:induction false} DigitsOfNat(n: nat)
    ensures DigitPrefix(NatToString(n), 10) == NatToString(n)
    ensures DigitsValue(NatToString(n), 10) == n
  {
    var s := NatToString(n);
    AllDigitsPrefix(s);
    if n >= 10 {
      DigitsOfNat(n / 10);
      assert s[..|s| - 1] == NatToString(n / 10);
    }
  }

  lemma {:induction false} AllDigitsPrefix(s: string)
    requires forall i :: 0 <= i < |s| ==> IsDigit(s[i])
    ensures DigitPrefix(s, 10) == s
  {
    if |s| > 0 {
      AllDigitsPrefix(s[1..]);
    }
  }

  /** `parseInt(String(i))` gives `i` back for every integer. */
  lemma ParseIntOfIntToString(i: int)
    ensures ParseInt(IntToString(i)) == Some(i)
  {
    var n: nat := if i < 0 then -i else i;
    var digits := NatToString(n);
    ParseMagnitudeOfNat(n);
    var s := IntToString(i);
    NoLeadingSpace(s);
    if i < 0 {
      assert s[1..] == digits;
    }
  }

  lemma NoLeadingSpace(s: string)
    requires |s| > 0 && (s[0] == '-' || IsDigit(s[0]))
    ensures TrimLeft(s, IsJsSpace) == s
  {
    assert !IsJsSpace(s[0]);
  }

  /** The unsigned part of `parseInt` reads a rendered natural number back. */
  lemma ParseMagnitudeOfNat(n: nat)
    ensures ParseMagnitude(NatToString(n)) == Some(n)
  {
    DigitsOfNat(n);
  }

  /** `Math.round(x)`: the nearest integer, halves rounded up. */
  function JsRound(x: real): (r: int)
    ensures x - 0.5 < r as real <= x + 0.5
  {
    (x + 0.5).Floor
  }

  /** The number `parseFloat(x.toFixed(f))` gives: `x` rounded to `f` decimals, halves
      away from zero, as toFixed rounds the magnitude and then puts the sign back. */
  function ToFixed(x: real, f: nat): (r: Number)
    ensures r.places == f
    ensures x - 1.0 / (2 * Pow10(f)) as real <= NumValue(r) <= x + 1.0 / (2 * Pow10(f)) as real
  {
    var p := Pow10(f) as real;
    var scaled := x * p;
    var n := if x < 0.0 then -JsRound(-scaled) else JsRound(scaled);
    assert scaled - 0.5 <= n as real <= scaled + 0.5;
    ScaleBack(n as real, x, p);
    Number(n, f)
  }

  /** Dividing `|n - x*p| <= 1/2` by `p`. */
  lemma ScaleBack(n: real, x: real, p: real)
    requires p >= 1.0
    requires x * p - 0.5 <= n <= x * p + 0.5
    ensures x - 1.0 / (2.0 * p) <= n / p <= x + 1.0 / (2.0 * p)
  {
    assert n / p - x == (n - x * p) / p;
    assert 0.5 / p == 1.0 / (2.0 * p);
  }
}

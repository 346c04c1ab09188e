/** Python's `json.dumps` (default settings: `ensure_ascii=True`, separators `", "` and
    `": "`) and `json.loads`, over the JSON values of module `Js`, as the catalog service
    uses them to store a recipe's ingredient list in a text column and read it back. */
module PyJson {
  import opened Text
  import opened Js

  // ---------------------------------------------------------------- encoding

  function HexDigit(d: nat): (c: char)
    requires d < 16
  {
    "0123456789abcdef"[d]
  }

  /** Four lower-case hexadecimal digits. */
  function Hex4(n: nat): (s: string)
    requires n < 0x1_0000
    ensures |s| == 4
  {
    var m := n / 16;
    var m2 := m / 16;
    [HexDigit(m2 / 16), HexDigit(m2 % 16), HexDigit(m % 16), HexDigit(n % 16)]
  }

  /** The characters `ensure_ascii` writes as they are: space to tilde, except `"` and `\`. */
  predicate IsPlain(c: char) {
    ' ' <= c <= '~' && c != '"' && c != '\\'
  }

  /** How `json.dumps` writes one character of a string. */
  function Escape(c: char): (e: string)
    ensures |e| >= 1
    ensures IsPlain(c) <==> e == [c]
    ensures !IsPlain(c) ==> |e| >= 2 && e[0] == '\\'
  {
    if c == '"' then "\\\""
    else if c == '\\' then "\\\\"
    else if c == '\n' then "\\n"
    else if c == '\r' then "\\r"
    else if c == '\t' then "\\t"
    else if c == '\U{0008}' then "\\b"
    else if c == '\U{000C}' then "\\f"
    else if IsPlain(c) then [c]
    else if c as int < 0x1_0000 then "\\u" + Hex4(c as int)
    else
      var n := c as int - 0x1_0000;
      "\\u" + Hex4(0xD800 + n / 0x400) + "\\u" + Hex4(0xDC00 + n % 0x400)
  }

  /** The escaped characters of a string, without the quotes. */
  function Escaped(s: string): string {
    if |s| == 0 then "" else Escape(s[0]) + Escaped(s[1..])
  }

  function DumpString(s: string): string {
    "\"" + Escaped(s) + "\""
  }

  /** `repr` of a number: an int as its digits, a float with at least one decimal. The
      exponent forms Python uses from 1e16 upward and below 1e-4 are not modelled. */
  function DumpNumber(n: Number): string {
    if n.places == 0 then IntToString(n.digits)
    else
      var m := Normalize(n);
      if m.places == 0 then IntToString(m.digits) + ".0" else NumberToString(m)
  }

  /** Code-point order on strings. */
  predicate StrLess(a: string, b: string) {
    if |a| == 0 then |b| > 0
    else if |b| == 0 then false
    else if a[0] != b[0] then a[0] < b[0]
    else StrLess(a[1..], b[1..])
  }

  lemma {:induction false} StrLessTotal(a: string, b: string)
    ensures a == b || StrLess(a, b) || StrLess(b, a)
    ensures !(StrLess(a, b) && StrLess(b, a))
  {
    if |a| > 0 && |b| > 0 && a[0] == b[0] {
      StrLessTotal(a[1..], b[1..]);
      if a[1..] == b[1..] {
        assert a == [a[0]] + a[1..] && b == [b[0]] + b[1..];
      }
    }
  }

  lemma {:induction false} StrLessTransitive(a: string, b: string, c: string)
    requires StrLess(a, b) && StrLess(b, c)
    ensures StrLess(a, c)
  {
    if |a| > 0 && |b| > 0 && |c| > 0 && a[0] == b[0] && b[0] == c[0] {
      StrLessTransitive(a[1..], b[1..], c[1..]);
    }
  }

  predicate IsLeast(k: string, keys: set<string>) {
    k in keys && forall o :: o in keys && o != k ==> StrLess(k, o)
  }

  /** A set of keys has a least element. */
  lemma {:induction false} LeastExists(keys: set<string>)
    requires keys != {}
    ensures exists k :: IsLeast(k, keys)
    decreases |keys|
  {
    var x :| x in keys;
    if keys == {x} {
      assert IsLeast(x, keys);
    } else {
      var rest := keys - {x};
      LeastExists(rest);
      var k :| IsLeast(k, rest);
      StrLessTotal(k, x);
      if StrLess(k, x) {
        forall o | o in keys && o != k
          ensures StrLess(k, o)
        {
          if o != x {
            assert o in rest;
          }
        }
        assert IsLeast(k, keys);
      } else {
        forall o | o in keys && o != x
          ensures StrLess(x, o)
        {
          if o != k {
            assert o in rest;
            StrLessTransitive(x, k, o);
          }
        }
        assert IsLeast(x, keys);
      }
    }
  }

  /** The keys of an object in code-point order. */
  function SortedKeys(keys: set<string>): (r: seq<string>)
    ensures |r| == |keys| && forall i :: 0 <= i < |r| ==> r[i] in keys
    decreases |keys|
  {
    if keys == {} then []
    else
      LeastExists(keys);
      var k :| IsLeast(k, keys);
      assert forall k' :: IsLeast(k', keys) ==> k' == k by {
        forall k' | IsLeast(k', keys)
          ensures k' == k
        {
          StrLessTotal(k, k');
        }
      }
      [k] + SortedKeys(keys - {k})
  }

  /** `json.dumps(v)`. Parsed objects do not keep the order of their keys, so an object is
      written with its keys in code-point order. */
  function Dumps(j: Json): string
    decreases j, 1, 0
  {
    match j
    case JNull => "null"
    case JBool(b) => if b then "true" else "false"
    case JNum(n) => DumpNumber(n)
    case JStr(s) => DumpString(s)
    case JArr(items) => "[" + DumpItems(items) + "]"
    case JObj(fields) => "{" + DumpMembers(fields, SortedKeys(fields.Keys)) + "}"
  }

  function DumpItems(items: seq<Json>): string
    decreases items, 0
  {
    if |items| == 0 then ""
    else if |items| == 1 then Dumps(items[0])
    else Dumps(items[0]) + ", " + DumpItems(items[1..])
  }

  function DumpMembers(fields: map<string, Json>, keys: seq<string>): string
    requires forall i :: 0 <= i < |keys| ==> keys[i] in fields
    decreases JObj(fields), 0, |keys|
  {
    if |keys| == 0 then ""
    else
      var member := DumpString(keys[0]) + ": " + Dumps(fields[keys[0]]);
      if |keys| == 1 then member else member + ", " + DumpMembers(fields, keys[1..])
  }

  // ---------------------------------------------------------------- decoding

  /** The whitespace `json.loads` skips between tokens. */
  predicate IsJsonSpace(c: char) {
    c == ' ' || c == '\t' || c == '\n' || c == '\r'
  }

  function SkipWs(s: string): (r: string)
    ensures |r| <= |s|
  {
    TrimLeft(s, IsJsonSpace)
  }

  function HexValue(c: char): (d: nat)
    ensures d <= 16
  {
    if '0' <= c <= '9' then c as int - '0' as int
    else if 'a' <= c <= 'f' then c as int - 'a' as int + 10
    else if 'A' <= c <= 'F' then c as int - 'A' as int + 10
    else 16
  }

  /** The value of four hexadecimal digits. */
  function ReadHex4(s: string): (r: Option<nat>)
    requires |s| >= 4
    ensures r.Some? ==> r.value < 0x1_0000
  {
    var a, b, c, d := HexValue(s[0]), HexValue(s[1]), HexValue(s[2]), HexValue(s[3]);
    if a < 16 && b < 16 && c < 16 && d < 16 then Some(((a * 16 + b) * 16 + c) * 16 + d) else None
  }

  predicate IsSurrogate(n: int) {
    0xD800 <= n <= 0xDFFF
  }

  /** The character a `\u` escape at the start of `s` stands for, with the number of
      characters it spans; a high surrogate followed by a low one form one character. A lone
      surrogate, which Python keeps as such, has no character here. */
  function UnicodeEscape(s: string): (r: Option<(char, nat)>)
    requires |s| >= 2 && s[0] == '\\' && s[1] == 'u'
    ensures r.Some? ==> 6 <= r.value.1 <= |s|
  {
    if |s| < 6 then None
    else
      match ReadHex4(s[2..6])
      case None => None
      case Some(hi) =>
        if 0xD800 <= hi <= 0xDBFF && |s| >= 12 && s[6] == '\\' && s[7] == 'u'
           && ReadHex4(s[8..12]).Some? && 0xDC00 <= ReadHex4(s[8..12]).value <= 0xDFFF then
          var lo := ReadHex4(s[8..12]).value;
          Some(((0x1_0000 + (hi - 0xD800) * 0x400 + (lo - 0xDC00)) as char, 12))
        else if IsSurrogate(hi) then None
        else Some((hi as char, 6))
  }

  /** The character an escape at the start of `s` stands for, with its length. */
  function Unescape(s: string): (r: Option<(char, nat)>)
    requires |s| >= 1 && s[0] == '\\'
    ensures r.Some? ==> 2 <= r.value.1 <= |s|
  {
    if |s| < 2 then None
    else if s[1] == 'u' then UnicodeEscape(s)
    else if s[1] == '"' then Some(('"', 2))
    else if s[1] == '\\' then Some(('\\', 2))
    else if s[1] == '/' then Some(('/', 2))
    else if s[1] == 'b' then Some(('\U{0008}', 2))
    else if s[1] == 'f' then Some(('\U{000C}', 2))
    else if s[1] == 'n' then Some(('\n', 2))
    else if s[1] == 'r' then Some(('\r', 2))
    else if s[1] == 't' then Some(('\t', 2))
    else None
  }

  /** The body of a string literal up to its closing quote: the characters read and what
      follows the quote. Control characters must be escaped. */
  function ParseChars(s: string): (r: Option<(string, string)>)
    ensures r.Some? ==> |r.value.1| < |s|
    decreases |s|
  {
    if |s| == 0 then None
    else if s[0] == '"' then Some(("", s[1..]))
    else if s[0] == '\\' then
      match Unescape(s)
      case None => None
      case Some((c, k)) =>
        match ParseChars(s[k..])
        case None => None
        case Some((t, rest)) => Some(([c] + t, rest))
    else if s[0] < ' ' then None
    else
      match ParseChars(s[1..])
      case None => None
      case Some((t, rest)) => Some(([s[0]] + t, rest))
  }

  function Digits(s: string): (r: string)
    ensures |r| <= |s| && r == s[..|r|]
    ensures forall i :: 0 <= i < |r| ==> IsDigit(r[i])
    ensures |r| < |s| ==> !IsDigit(s[|r|])
  {
    if |s| > 0 && IsDigit(s[0]) then [s[0]] + Digits(s[1..]) else ""
  }

  /** A number literal whose whole digits are followed by a fraction or an exponent,
      which Python reads as a `float`. */
  predicate FloatSyntax(s: string) {
    var t := if |s| > 0 && s[0] == '-' then s[1..] else s;
    var w := |Digits(t)|;
    w < |t| && (t[w] == '.' || t[w] == 'e' || t[w] == 'E')
  }

  /** The float `mantissa * 10^(exp - fracLen)`, kept with at least one decimal place. */
  function FloatOf(mantissa: int, fracLen: nat, exp: int): (n: Number)
    ensures n.places >= 1
  {
    if exp < 0 then Number(mantissa, fracLen + -exp)
    else if exp < fracLen then Number(mantissa, fracLen - exp)
    else Number(mantissa * Pow10(exp - fracLen + 1), 1)
  }

  /** A number: `-?(0|[1-9][0-9]*)(\.[0-9]+)?([eE][-+]?[0-9]+)?`, held exactly. As in
      Python, a literal with a fraction or an exponent is a `float` (at least one decimal
      place here: `5e2` is `500.0`) and any other literal an `int` (no decimal places). */
  function ParseNumber(s: string): (r: Option<(Number, string)>)
    ensures r.Some? ==> |r.value.1| < |s|
    ensures r.Some? ==> (r.value.0.places == 0 <==> !FloatSyntax(s))
  {
    var neg := |s| > 0 && s[0] == '-';
    var t := if neg then s[1..] else s;
    var whole := Digits(t);
    if |whole| == 0 || (|whole| > 1 && whole[0] == '0') then None
    else
      var t1 := t[|whole|..];
      var frac := if |t1| >= 2 && t1[0] == '.' then Digits(t1[1..]) else "";
      if |t1| >= 1 && t1[0] == '.' && |frac| == 0 then None
      else
        var t2 := if |frac| > 0 then t1[1 + |frac|..] else t1;
        var hasExp := |t2| >= 1 && (t2[0] == 'e' || t2[0] == 'E');
        var expSign := if hasExp && |t2| >= 2 && (t2[1] == '-' || t2[1] == '+') then 1 else 0;
        var expDigits := if hasExp then Digits(t2[1 + expSign..]) else "";
        if hasExp && |expDigits| == 0 then None
        else
          var rest := if hasExp then t2[1 + expSign + |expDigits|..] else t2;
          var mantissa: int := DigitsValue(whole + frac, 10);
          var signed: int := if neg then -mantissa else mantissa;
          var e: int := DigitsValue(expDigits, 10);
          var e' := if hasExp && t2[1] == '-' then -e else e;
          var n := if |frac| > 0 || hasExp then FloatOf(signed, |frac|, e') else Number(signed, 0);
          Some((n, rest))
  }

  /** `json.loads` reads `5e2` as the float `500.0` and `15` as the int `15`. */
  lemma ExponentIsFloat()
    ensures ParseNumber("5e2") == Some((Number(5000, 1), ""))
    ensures ParseNumber("15") == Some((Number(15, 0), ""))
  {
    assert Digits("5e2") == "5" && Digits("2") == "2";
    assert DigitsValue("5", 10) == 5 && DigitsValue("2", 10) == 2;
    assert Pow10(3) == 1000;
    assert "15"[..1] == "1";
    assert DigitsValue("15", 10) == 15;
    assert Digits("15"[2..]) == "" && Digits("15") == "15";
    assert "15"[2..] == "" && "15" + "" == "15";
  }

  /** One JSON value, after optional whitespace. */
  function ParseValue(s: string): (r: Option<(Json, string)>)
    ensures r.Some? ==> |r.value.1| < |s|
    decreases |s|, 3
  {
    ParseToken(SkipWs(s))
  }

  /** One JSON value starting at the first character of `t`. */
  function ParseToken(t: string): (r: Option<(Json, string)>)
    ensures r.Some? ==> |r.value.1| < |t|
    decreases |t|, 2
  {
    if |t| == 0 then None
    else if t[0] == '"' then
      match ParseChars(t[1..])
      case None => None
      case Some((str, rest)) => Some((JStr(str), rest))
    else if t[0] == '[' then ParseArray(t[1..])
    else if t[0] == '{' then ParseObject(t[1..])
    else if StartsWith(t, "null") then Some((JNull, t[4..]))
    else if StartsWith(t, "true") then Some((JBool(true), t[4..]))
    else if StartsWith(t, "false") then Some((JBool(false), t[5..]))
    else
      match ParseNumber(t)
      case None => None
      case Some((n, rest)) => Some((JNum(n), rest))
  }

  /** The rest of an array after `[`. */
  function ParseArray(s: string): (r: Option<(Json, string)>)
    ensures r.Some? ==> |r.value.1| < |s|
    decreases |s|, 5
  {
    var t := SkipWs(s);
    if |t| > 0 && t[0] == ']' then Some((JArr([]), t[1..]))
    else
      match ParseItems(t)
      case None => None
      case Some((items, rest)) => Some((JArr(items), rest))
  }

  /** Elements separated by `,` up to the closing `]`. */
  function ParseItems(s: string): (r: Option<(seq<Json>, string)>)
    ensures r.Some? ==> |r.value.1| < |s|
    decreases |s|, 4
  {
    match ParseValue(s)
    case None => None
    case Some((v, rest)) =>
      var t := SkipWs(rest);
      if |t| == 0 then None
      else if t[0] == ']' then Some(([v], t[1..]))
      else if t[0] == ',' then
        match ParseItems(t[1..])
        case None => None
        case Some((more, rest')) => Some(([v] + more, rest'))
      else None
  }

  /** The rest of an object after `{`. */
  function ParseObject(s: string): (r: Option<(Json, string)>)
    ensures r.Some? ==> |r.value.1| < |s|
    decreases |s|, 5
  {
    var t := SkipWs(s);
    if |t| > 0 && t[0] == '}' then Some((JObj(map[]), t[1..]))
    else
      match ParseMembers(t, map[])
      case None => None
      case Some((fields, rest)) => Some((JObj(fields), rest))
  }

  /** `"key": value` pairs separated by `,` up to the closing `}`; a repeated key keeps
      its last value. */
  function ParseMembers(s: string, acc: map<string, Json>): (r: Option<(map<string, Json>, string)>)
    ensures r.Some? ==> |r.value.1| < |s|
    decreases |s|, 4
  {
    var t := SkipWs(s);
    if |t| == 0 || t[0] != '"' then None
    else
      match ParseChars(t[1..])
      case None => None
      case Some((key, afterKey)) =>
        var u := SkipWs(afterKey);
        if |u| == 0 || u[0] != ':' then None
        else
          match ParseValue(u[1..])
          case None => None
          case Some((v, rest)) =>
            var w := SkipWs(rest);
            if |w| == 0 then None
            else if w[0] == '}' then Some((acc[key := v], w[1..]))
            else if w[0] == ',' then ParseMembers(w[1..], acc[key := v])
            else None
  }

  /** `json.loads(s)`: one value, surrounded by optional whitespace only. `None` is a
      raised `JSONDecodeError`. */
  function Loads(s: string): Option<Json> {
    match ParseValue(s)
    case None => None
    case Some((v, rest)) => if SkipWs(rest) == "" then Some(v) else None
  }

  // ---------------------------------------------------------------- round trip


  lemma HexDigitValue(d: nat)
    requires d < 16
    ensures HexValue(HexDigit(d)) == d
  {
  }

  lemma Hex4Digits(n: nat)
    requires n < 0x1_0000
    ensures ReadHex4(Hex4(n)) == Some(n)
  {
    var h := Hex4(n);
    var m := n / 16;
    var m2 := m / 16;
    HexDigitValue(m2 / 16);
    HexDigitValue(m2 % 16);
    HexDigitValue(m % 16);
    HexDigitValue(n % 16);
    assert HexValue(h[0]) == m2 / 16 && HexValue(h[1]) == m2 % 16;
    assert HexValue(h[2]) == m % 16 && HexValue(h[3]) == n % 16;
    Hex4Value(n);
  }

  /** The four base-16 digits of `n` give back `n`. */
  lemma Hex4Value(n: nat)
    requires n < 0x1_0000
    ensures var m := n / 16; var m2 := m / 16;
            m2 / 16 < 16 && ((m2 / 16 * 16 + m2 % 16) * 16 + m % 16) * 16 + n % 16 == n
  {
    var m := n / 16;
    var m2 := m / 16;
    assert m2 / 16 * 16 + m2 % 16 == m2;
    assert m2 * 16 + m % 16 == m;
    assert m * 16 + n % 16 == n;
  }

  /** A character of the Basic Multilingual Plane written as a `\u` escape is read back. */
  lemma BmpEscapeRoundTrip(c: char, rest: string)
    requires !IsPlain(c) && c != '"' && c != '\\' && c != '\n' && c != '\r' && c != '\t'
    requires c != '\U{0008}' && c != '\U{000C}' && c as int < 0x1_0000
    ensures Unescape(Escape(c) + rest) == Some((c, |Escape(c)|))
  {
    var e := Escape(c);
    assert e == "\\u" + Hex4(c as int);
    var s := e + rest;
    Hex4Digits(c as int);
    assert s[2..6] == Hex4(c as int);
    assert s[1] == 'u';
    assert UnicodeEscape(s) == Some((c, 6));
  }

  /** A high and a low surrogate written as two `\u` escapes are read as one character. */
  lemma SurrogatePairRead(s: string, hi: nat, lo: nat)
    requires |s| >= 12 && s[0] == '\\' && s[1] == 'u' && s[6] == '\\' && s[7] == 'u'
    requires ReadHex4(s[2..6]) == Some(hi) && ReadHex4(s[8..12]) == Some(lo)
    requires 0xD800 <= hi <= 0xDBFF && 0xDC00 <= lo <= 0xDFFF
    ensures UnicodeEscape(s) == Some(((0x1_0000 + (hi - 0xD800) * 0x400 + (lo - 0xDC00)) as char, 12))
  {
  }

  function HighSurrogate(c: char): nat
    requires c as int >= 0x1_0000
  {
    0xD800 + (c as int - 0x1_0000) / 0x400
  }

  function LowSurrogate(c: char): nat
    requires c as int >= 0x1_0000
  {
    0xDC00 + (c as int - 0x1_0000) % 0x400
  }

  lemma AstralEscape(c: char)
    requires c as int >= 0x1_0000
    ensures Escape(c) == "\\u" + Hex4(HighSurrogate(c)) + "\\u" + Hex4(LowSurrogate(c))
  {
    assert !IsPlain(c) && c != '"' && c != '\\' && c != '\n' && c != '\r' && c != '\t';
    assert c != '\U{0008}' && c != '\U{000C}';
  }

  lemma PairLayout(h: string, l: string, rest: string)
    requires |h| == 4 && |l| == 4
    ensures var s := "\\u" + h + "\\u" + l + rest;
      |s| >= 12 && s[0] == '\\' && s[1] == 'u' && s[6] == '\\' && s[7] == 'u' && s[2..6] == h && s[8..12] == l
  {
  }

  /** A character beyond the Basic Multilingual Plane, written as a surrogate pair of `\u`
      escapes, is read back. */
  lemma AstralEscapeRoundTrip(c: char, rest: string)
    requires c as int >= 0x1_0000
    ensures Unescape(Escape(c) + rest) == Some((c, |Escape(c)|))
  {
    var hi, lo := HighSurrogate(c), LowSurrogate(c);
    var n := c as int - 0x1_0000;
    assert n == (n / 0x400) * 0x400 + n % 0x400 && n / 0x400 < 0x400;
    AstralEscape(c);
    PairLayout(Hex4(hi), Hex4(lo), rest);
    assert Escape(c) + rest == "\\u" + Hex4(hi) + "\\u" + Hex4(lo) + rest;
    Hex4Digits(hi);
    Hex4Digits(lo);
    SurrogatePairRead(Escape(c) + rest, hi, lo);
  }

  /** Each escape is read back as the character it was written for. */
  lemma EscapeRoundTrip(c: char, rest: string)
    requires !IsPlain(c)
    ensures Unescape(Escape(c) + rest) == Some((c, |Escape(c)|))
  {
    if c == '"' || c == '\\' || c == '\n' || c == '\r' || c == '\t' || c == '\U{0008}' || c == '\U{000C}' {
    } else if c as int < 0x1_0000 {
      BmpEscapeRoundTrip(c, rest);
    } else {
      AstralEscapeRoundTrip(c, rest);
    }
  }

  /** The body of a dumped string is read back up to its closing quote. */
  lemma {:induction false} CharsRoundTrip(s: string, rest: string)
    ensures ParseChars(Escaped(s) + "\"" + rest) == Some((s, rest))
    decreases |s|
  {
    if |s| == 0 {
      assert Escaped(s) + "\"" + rest == "\"" + rest;
    } else {
      var e := Escape(s[0]);
      var tail := Escaped(s[1..]) + "\"" + rest;
      var input := Escaped(s) + "\"" + rest;
      assert input == e + tail;
      CharsRoundTrip(s[1..], rest);
      if IsPlain(s[0]) {
        assert input[0] == s[0] && input[1..] == tail;
      } else {
        EscapeRoundTrip(s[0], tail);
        assert input[|e|..] == tail;
      }
      assert [s[0]] + s[1..] == s;
    }
  }

  /** A dumped string, after optional whitespace, is parsed back. */
  lemma StringRoundTrip(s: string, rest: string)
    ensures ParseValue(DumpString(s) + rest) == Some((JStr(s), rest))
  {
    var input := DumpString(s) + rest;
    assert input == "\"" + (Escaped(s) + "\"" + rest);
    SkipWsNone(input);
    CharsRoundTrip(s, rest);
    TokenString(input, s, rest);
  }

  /** A token opening with `"` is the string literal it starts. */
  lemma TokenString(t: string, s: string, rest: string)
    requires |t| > 0 && t[0] == '"' && ParseChars(t[1..]) == Some((s, rest))
    ensures ParseToken(t) == Some((JStr(s), rest))
  {
  }

  function DumpStrings(items: seq<string>): string {
    if |items| == 0 then ""
    else if |items| == 1 then DumpString(items[0])
    else DumpString(items[0]) + ", " + DumpStrings(items[1..])
  }

  lemma {:induction false} DumpItemsOfStrings(items: seq<string>)
    ensures DumpItems(StrList(items).items) == DumpStrings(items)
    decreases |items|
  {
    if |items| > 1 {
      assert StrList(items).items[1..] == StrList(items[1..]).items;
      DumpItemsOfStrings(items[1..]);
    }
  }

  lemma SkipWsNone(s: string)
    requires |s| > 0 && !IsJsonSpace(s[0])
    ensures SkipWs(s) == s
  {
  }

  /** A value after a separator's space is parsed as without it. */
  lemma ParseValueAfterSpace(s: string)
    requires |s| > 0 && IsJsonSpace(s[0])
    ensures ParseValue(s) == ParseValue(s[1..])
  {
    assert SkipWs(s) == SkipWs(s[1..]);
  }

  /** `ParseItems` when the first element is followed by `]`. */
  lemma ItemsLast(s: string, v: Json, rest: string)
    requires ParseValue(s) == Some((v, "]" + rest))
    ensures ParseItems(s) == Some(([v], rest))
  {
    SkipWsNone("]" + rest);
    assert ("]" + rest)[1..] == rest;
  }

  /** `ParseItems` when the first element is followed by `, ` and more elements. */
  lemma ItemsNext(s: string, v: Json, more: string)
    requires ParseValue(s) == Some((v, ", " + more))
    requires ParseItems(more).Some?
    ensures ParseItems(s) == Some(([v] + ParseItems(more).value.0, ParseItems(more).value.1))
  {
    var tail := ", " + more;
    SkipWsNone(tail);
    assert tail[1..] == " " + more && (" " + more)[1..] == more;
    ParseValueAfterSpace(" " + more);
    assert ParseItems(" " + more) == ParseItems(more);
  }

  /** The elements of a dumped, non-empty list of strings are read back up to `]`. */
  lemma {:induction false} ItemsRoundTrip(items: seq<string>, rest: string)
    requires |items| >= 1
    ensures ParseItems(DumpStrings(items) + "]" + rest) == Some((StrList(items).items, rest))
    decreases |items|
  {
    if |items| == 1 {
      LastItemRoundTrip(items, rest);
    } else {
      ItemsRoundTrip(items[1..], rest);
      NextItemRoundTrip(items, rest);
    }
  }

  lemma LastItemRoundTrip(items: seq<string>, rest: string)
    requires |items| == 1
    ensures ParseItems(DumpStrings(items) + "]" + rest) == Some((StrList(items).items, rest))
  {
    var input := DumpStrings(items) + "]" + rest;
    assert input == DumpString(items[0]) + ("]" + rest);
    StringRoundTrip(items[0], "]" + rest);
    ItemsLast(input, JStr(items[0]), rest);
    assert StrList(items).items == [JStr(items[0])];
  }

  lemma NextItemRoundTrip(items: seq<string>, rest: string)
    requires |items| >= 2
    requires ParseItems(DumpStrings(items[1..]) + "]" + rest) == Some((StrList(items[1..]).items, rest))
    ensures ParseItems(DumpStrings(items) + "]" + rest) == Some((StrList(items).items, rest))
  {
    var input := DumpStrings(items) + "]" + rest;
    var more := DumpStrings(items[1..]) + "]" + rest;
    DumpStringsNext(items, rest);
    StringRoundTrip(items[0], ", " + more);
    ItemsNext(input, JStr(items[0]), more);
    StrListNext(items);
  }

  lemma DumpStringsNext(items: seq<string>, rest: string)
    requires |items| >= 2
    ensures DumpStrings(items) + "]" + rest
            == DumpString(items[0]) + (", " + (DumpStrings(items[1..]) + "]" + rest))
  {
    var x, y := DumpString(items[0]), DumpStrings(items[1..]);
    assert DumpStrings(items) == x + ", " + y;
    Regroup(x, ", ", y, "]", rest);
  }

  lemma Regroup(x: string, c: string, y: string, d: string, r: string)
    ensures x + c + y + d + r == x + (c + (y + d + r))
  {
  }

  lemma StrListNext(items: seq<string>)
    requires |items| >= 1
    ensures StrList(items).items == [JStr(items[0])] + StrList(items[1..]).items
  {
    assert StrList(items).items[1..] == StrList(items[1..]).items;
  }

  lemma TokenArray(t: string)
    requires |t| > 0 && t[0] == '['
    ensures ParseToken(t) == ParseArray(t[1..])
  {
  }

  /** The body of a dumped list of strings, after `[`, is read back. */
  lemma ArrayRoundTrip(items: seq<string>)
    ensures ParseArray(DumpStrings(items) + "]") == Some((StrList(items), ""))
  {
    var body := DumpStrings(items) + "]";
    SkipWsNone(body);
    if |items| == 0 {
      assert body == "]";
      assert StrList(items) == JArr([]);
    } else {
      assert body == DumpStrings(items) + "]" + "";
      ItemsRoundTrip(items, "");
    }
  }

  /** `json.loads(json.dumps(l)) == l` for a list of strings. */
  lemma StringListRoundTrip(items: seq<string>)
    ensures Loads(Dumps(StrList(items))) == Some(StrList(items))
  {
    var text := Dumps(StrList(items));
    DumpItemsOfStrings(items);
    assert text == "[" + (DumpStrings(items) + "]");
    SkipWsNone(text);
    TokenArray(text);
    ArrayRoundTrip(items);
    assert SkipWs("") == "";
  }
}

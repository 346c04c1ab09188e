/** Character and string helpers shared by the JavaScript and the Python parts of the model:
    the two whitespace sets, trimming, splitting on one character, substring search, ASCII
    case mapping and decimal rendering of integers. */
module Text {

  /** The code points JavaScript's String.prototype.trim removes: WhiteSpace and LineTerminator. */
  predicate IsJsSpace(c: char) {
    c == '\t' || c == '\n' || c == '\U{000B}' || c == '\U{000C}' || c == '\r' || c == ' '
    || c == '\U{00A0}' || c == '\U{1680}' || ('\U{2000}' <= c <= '\U{200A}')
    || c == '\U{2028}' || c == '\U{2029}' || c == '\U{202F}' || c == '\U{205F}'
    || c == '\U{3000}' || c == '\U{FEFF}'
  }

  /** The code points for which Python's str.isspace holds, which str.strip() removes. */
  predicate IsPySpace(c: char) {
    c == '\t' || c == '\n' || c == '\U{000B}' || c == '\U{000C}' || c == '\r'
    || ('\U{001C}' <= c <= '\U{001F}') || c == ' ' || c == '\U{0085}' || c == '\U{00A0}'
    || c == '\U{1680}' || ('\U{2000}' <= c <= '\U{200A}') || c == '\U{2028}' || c == '\U{2029}'
    || c == '\U{202F}' || c == '\U{205F}' || c == '\U{3000}'
  }

  /** Drops the leading characters satisfying `ws`. */
  function TrimLeft(s: string, ws: char -> bool): (r: string)
    ensures |r| <= |s|
    ensures r == [] || !ws(r[0])
  {
    if |s| > 0 && ws(s[0]) then TrimLeft(s[1..], ws) else s
  }

  /** `TrimLeft` keeps a suffix, and what it drops is whitespace. */
  lemma {:induction false} TrimLeftDrops(s: string, ws: char -> bool)
    ensures TrimLeft(s, ws) == s[|s| - |TrimLeft(s, ws)|..]
    ensures forall i :: 0 <= i < |s| - |TrimLeft(s, ws)| ==> ws(s[i])
  {
    if |s| > 0 && ws(s[0]) {
      TrimLeftDrops(s[1..], ws);
      assert forall i :: 1 <= i < |s| ==> s[i] == s[1..][i - 1];
    }
  }

  /** Drops the trailing characters satisfying `ws`. */
  function TrimRight(s: string, ws: char -> bool): (r: string)
    ensures |r| <= |s|
    ensures r == [] || !ws(r[|r| - 1])
  {
    if |s| > 0 && ws(s[|s| - 1]) then TrimRight(s[..|s| - 1], ws) else s
  }

  /** `TrimRight` keeps a prefix, and what it drops is whitespace. */
  lemma {:induction false} TrimRightDrops(s: string, ws: char -> bool)
    ensures TrimRight(s, ws) == s[..|TrimRight(s, ws)|]
    ensures forall i :: |TrimRight(s, ws)| <= i < |s| ==> ws(s[i])
  {
    if |s| > 0 && ws(s[|s| - 1]) {
      TrimRightDrops(s[..|s| - 1], ws);
    }
  }

  /** Both ends trimmed: the result neither starts nor ends with whitespace. */
  function Trim(s: string, ws: char -> bool): (r: string)
    ensures r == [] || (!ws(r[0]) && !ws(r[|r| - 1]))
  {
    var left := TrimLeft(s, ws);
    var r := TrimRight(left, ws);
    TrimRightDrops(left, ws);
    assert r != [] ==> r[0] == left[0];
    r
  }

  /** Trimming keeps out a character that was not there. */
  lemma TrimKeepsOut(s: string, ws: char -> bool, c: char)
    requires c !in s
    ensures c !in Trim(s, ws)
  {
    TrimLeftKeepsOut(s, ws, c);
    TrimRightKeepsOut(TrimLeft(s, ws), ws, c);
  }

  lemma TrimLeftKeepsOut(s: string, ws: char -> bool, c: char)
    requires c !in s
    ensures c !in TrimLeft(s, ws)
  {
    TrimLeftDrops(s, ws);
    SliceKeepsOut(s, |s| - |TrimLeft(s, ws)|, |s|, c);
    assert s[|s| - |TrimLeft(s, ws)|..] == s[|s| - |TrimLeft(s, ws)|..|s|];
  }

  lemma TrimRightKeepsOut(s: string, ws: char -> bool, c: char)
    requires c !in s
    ensures c !in TrimRight(s, ws)
  {
    TrimRightDrops(s, ws);
    SliceKeepsOut(s, 0, |TrimRight(s, ws)|, c);
    assert s[..|TrimRight(s, ws)|] == s[0..|TrimRight(s, ws)|];
  }

  /** A slice holds only characters of the whole. */
  lemma SliceKeepsOut(s: string, a: nat, b: nat, c: char)
    requires a <= b <= |s| && c !in s
    ensures c !in s[a..b]
  {
    assert forall j :: 0 <= j < b - a ==> s[a..b][j] == s[a + j];
  }

  /** Every string is its trim with whitespace around it. */
  lemma TrimSplit(s: string, ws: char -> bool) returns (w1: string, w2: string)
    ensures s == w1 + (Trim(s, ws) + w2)
    ensures forall i :: 0 <= i < |w1| ==> ws(w1[i])
    ensures forall i :: 0 <= i < |w2| ==> ws(w2[i])
  {
    var a, b := TrimIsSlice(s, ws);
    w1 := s[..a];
    w2 := s[b..];
    Around(s, a, b);
  }

  /** The trim of `s` is the slice `s[a..b]`, with whitespace outside it. */
  lemma TrimIsSlice(s: string, ws: char -> bool) returns (a: nat, b: nat)
    ensures a <= b <= |s| && Trim(s, ws) == s[a..b]
    ensures forall i :: 0 <= i < a ==> ws(s[i])
    ensures forall i :: b <= i < |s| ==> ws(s[i])
  {
    var left := TrimLeft(s, ws);
    TrimLeftDrops(s, ws);
    a := |s| - |left|;
    var r := TrimRight(left, ws);
    TrimRightDrops(left, ws);
    b := a + |r|;
    assert forall i :: b <= i < |s| ==> s[i] == left[i - a];
  }

  lemma Around(s: string, a: nat, b: nat)
    requires a <= b <= |s|
    ensures s == s[..a] + (s[a..b] + s[b..])
  {
  }

  /** `s.trim()` in JavaScript. */
  function JsTrim(s: string): string { Trim(s, IsJsSpace) }

  /** `s.strip()` in Python. */
  function PyStrip(s: string): string { Trim(s, IsPySpace) }

  /** Joins `parts` with `sep` between consecutive parts. */
  function Join(parts: seq<string>, sep: string): string
  {
    if |parts| == 0 then ""
    else if |parts| == 1 then parts[0]
    else parts[0] + sep + Join(parts[1..], sep)
  }

  /** Position of the first occurrence of `c` in `s`. */
  function IndexOf(s: string, c: char): (i: nat)
    requires c in s
    ensures i < |s| && s[i] == c && c !in s[..i]
  {
    if s[0] == c then 0 else 1 + IndexOf(s[1..], c)
  }

  /** Splitting on one separator character, as both `s.split(',')` in JavaScript and
      `s.split(';')` in Python do: at least one piece, no piece holds the separator,
      and joining the pieces back gives `s`. */
  function Split(s: string, sep: char): (parts: seq<string>)
    ensures |parts| >= 1
    ensures forall i :: 0 <= i < |parts| ==> sep !in parts[i]
    ensures Join(parts, [sep]) == s
    decreases |s|
  {
    if sep in s then
      var i := IndexOf(s, sep);
      var rest := Split(s[i + 1..], sep);
      assert s == s[..i] + [sep] + s[i + 1..];
      assert ([s[..i]] + rest)[1..] == rest;
      [s[..i]] + rest
    else
      [s]
  }

  /** Splitting undoes joining when no part holds the separator. */
  lemma {:induction false} SplitJoin(parts: seq<string>, sep: char)
    requires |parts| >= 1
    requires forall i :: 0 <= i < |parts| ==> sep !in parts[i]
    ensures Split(Join(parts, [sep]), sep) == parts
    decreases |parts|
  {
    if |parts| > 1 {
      var s := Join(parts, [sep]);
      var tail := Join(parts[1..], [sep]);
      assert s == parts[0] + [sep] + tail;
      assert s[|parts[0]|] == sep;
      assert s[..|parts[0]|] == parts[0];
      assert IndexOf(s, sep) == |parts[0]|;
      assert s[|parts[0]| + 1..] == tail;
      SplitJoin(parts[1..], sep);
    }
  }

  /** Splitting a string that starts with a separator-free stretch `w`: `w` joins the
      first piece. */
  lemma SplitPrefix(w: string, s: string, sep: char)
    requires sep !in w
    ensures Split(w + s, sep) == [w + Split(s, sep)[0]] + Split(s, sep)[1..]
  {
    var ws := w + s;
    if sep in s {
      var i := IndexOf(s, sep);
      assert ws[|w| + i] == sep;
      assert sep in ws;
      var j := IndexOf(ws, sep);
      assert j == |w| + i;
      assert ws[..j] == w + s[..i];
      assert ws[j + 1..] == s[i + 1..];
    }
  }

  /** Splitting a string that ends with a separator-free stretch `w`: `w` joins the last
      piece. */
  lemma SplitSuffix(s: string, w: string, sep: char)
    requires sep !in w
    ensures var parts := Split(s, sep);
            Split(s + w, sep) == parts[..|parts| - 1] + [parts[|parts| - 1] + w]
  {
    var parts := Split(s, sep);
    var n := |parts|;
    var q := parts[..n - 1] + [parts[n - 1] + w];
    JoinExtendLast(parts, [sep], w);
    assert forall i :: 0 <= i < n - 1 ==> q[i] == parts[i];
    SeparatorFreeAppend(parts[n - 1], w, sep);
    SplitJoin(q, sep);
  }

  lemma SeparatorFreeAppend(s: string, w: string, sep: char)
    requires sep !in s && sep !in w
    ensures sep !in s + w
  {
    assert forall j :: 0 <= j < |s + w| ==> (s + w)[j] == if j < |s| then s[j] else w[j - |s|];
  }

  /** Extending the last part extends the joined text. */
  lemma {:induction false} JoinExtendLast(parts: seq<string>, sep: string, w: string)
    requires |parts| >= 1
    ensures Join(parts[..|parts| - 1] + [parts[|parts| - 1] + w], sep) == Join(parts, sep) + w
    decreases |parts|
  {
    var n := |parts|;
    var q := parts[..n - 1] + [parts[n - 1] + w];
    if n == 1 {
      assert q == [parts[0] + w];
    } else {
      JoinExtendLast(parts[1..], sep, w);
      assert q[1..] == parts[1..][..n - 2] + [parts[1..][n - 2] + w];
      assert q[0] == parts[0];
      assert parts[0] + sep + (Join(parts[1..], sep) + w) == parts[0] + sep + Join(parts[1..], sep) + w;
    }
  }

  /** Whitespace in front does not change what `TrimLeft` keeps. */
  lemma {:induction false} TrimLeftAfter(w: string, p: string, ws: char -> bool)
    requires forall i :: 0 <= i < |w| ==> ws(w[i])
    ensures TrimLeft(w + p, ws) == TrimLeft(p, ws)
  {
    if |w| > 0 {
      assert (w + p)[0] == w[0];
      assert (w + p)[1..] == w[1..] + p;
      TrimLeftAfter(w[1..], p, ws);
    } else {
      assert w + p == p;
    }
  }

  /** Whitespace behind does not change what `TrimRight` keeps. */
  lemma {:induction false} TrimRightBefore(p: string, w: string, ws: char -> bool)
    requires forall i :: 0 <= i < |w| ==> ws(w[i])
    ensures TrimRight(p + w, ws) == TrimRight(p, ws)
  {
    if |w| > 0 {
      var n := |w| - 1;
      assert (p + w)[|p + w| - 1] == w[n];
      assert (p + w)[..|p + w| - 1] == p + w[..n];
      TrimRightBefore(p, w[..n], ws);
    } else {
      assert p + w == p;
    }
  }

  /** Text behind a string that has some non-whitespace stays after `TrimLeft`. */
  lemma {:induction false} TrimLeftBefore(p: string, w: string, ws: char -> bool)
    requires TrimLeft(p, ws) != []
    ensures TrimLeft(p + w, ws) == TrimLeft(p, ws) + w
  {
    assert (p + w)[0] == p[0];
    if ws(p[0]) {
      assert (p + w)[1..] == p[1..] + w;
      TrimLeftBefore(p[1..], w, ws);
    }
  }

  /** A string all whitespace trims away entirely on the left. */
  lemma TrimLeftBlank(p: string, ws: char -> bool)
    requires TrimLeft(p, ws) == []
    ensures forall i :: 0 <= i < |p| ==> ws(p[i])
  {
    TrimLeftDrops(p, ws);
  }

  /** Whitespace before or after a string does not change what `Trim` keeps. */
  lemma TrimAround(w1: string, p: string, w2: string, ws: char -> bool)
    requires forall i :: 0 <= i < |w1| ==> ws(w1[i])
    requires forall i :: 0 <= i < |w2| ==> ws(w2[i])
    ensures Trim(w1 + p + w2, ws) == Trim(p, ws)
  {
    assert w1 + p + w2 == w1 + (p + w2);
    TrimLeftAfter(w1, p + w2, ws);
    var left := TrimLeft(p, ws);
    if left == [] {
      TrimLeftBlank(p, ws);
      TrimLeftAfter(p, w2, ws);
      TrimLeftAfter(w2, [], ws);
      assert w2 + [] == w2;
      assert TrimLeft(w2, ws) == TrimLeft([], ws);
    } else {
      TrimLeftBefore(p, w2, ws);
      TrimRightBefore(left, w2, ws);
    }
  }

  /** A string already trimmed is its own trim. */
  lemma TrimTrimmed(t: string, ws: char -> bool)
    requires t == [] || (!ws(t[0]) && !ws(t[|t| - 1]))
    ensures Trim(t, ws) == t
  {
  }

  /** `s.includes(t)` in JavaScript and `t in s` for Python strings. */
  predicate Contains(s: string, t: string) {
    exists i :: 0 <= i <= |s| - |t| && OccursAt(s, t, i)
  }

  /** `t` occurs in `s` starting at position `i`. */
  predicate OccursAt(s: string, t: string, i: int) {
    0 <= i <= |s| - |t| && s[i..i + |t|] == t
  }

  /** Whether `s` starts with `p`. */
  predicate StartsWith(s: string, p: string) {
    |p| <= |s| && s[..|p|] == p
  }

  /** Whether `s` ends with `p`. */
  predicate EndsWith(s: string, p: string) {
    |p| <= |s| && s[|s| - |p|..] == p
  }

  function LowerChar(c: char): char {
    if 'A' <= c <= 'Z' then (c as int + 32) as char else c
  }

  function UpperChar(c: char): char {
    if 'a' <= c <= 'z' then (c as int - 32) as char else c
  }

  /** ASCII lower-casing, the model of JavaScript's `toLowerCase`. */
  function Lower(s: string): (r: string)
    ensures |r| == |s| && forall i :: 0 <= i < |s| ==> r[i] == LowerChar(s[i])
  {
    seq(|s|, i requires 0 <= i < |s| => LowerChar(s[i]))
  }

  /** ASCII upper-casing, the model of Python's `upper()` on a hexadecimal string. */
  function Upper(s: string): (r: string)
    ensures |r| == |s| && forall i :: 0 <= i < |s| ==> r[i] == UpperChar(s[i])
  {
    seq(|s|, i requires 0 <= i < |s| => UpperChar(s[i]))
  }

  predicate IsDigit(c: char) { '0' <= c <= '9' }

  function DigitChar(d: nat): (c: char)
    requires d < 10
    ensures IsDigit(c) && c as int - '0' as int == d
  {
    ('0' as int + d) as char
  }

  /** Decimal rendering of a natural number, without leading zeros. */
  function NatToString(n: nat): (s: string)
    ensures |s| >= 1 && forall i :: 0 <= i < |s| ==> IsDigit(s[i])
    ensures |s| > 1 ==> s[0] != '0'
  {
    if n < 10 then [DigitChar(n)] else NatToString(n / 10) + [DigitChar(n % 10)]
  }

  /** Decimal rendering of an integer, `-` for negatives. */
  function IntToString(i: int): string {
    if i < 0 then "-" + NatToString(-i) else NatToString(i)
  }

  /** Different numbers render differently. */
  lemma {:induction false} NatToStringInjective(a: nat, b: nat)
    requires NatToString(a) == NatToString(b)
    ensures a == b
  {
    var s := NatToString(a);
    if a >= 10 && b >= 10 {
      assert s[..|s| - 1] == NatToString(a / 10) && s[..|s| - 1] == NatToString(b / 10);
      NatToStringInjective(a / 10, b / 10);
      assert DigitChar(a % 10) == s[|s| - 1] == DigitChar(b % 10);
    }
  }
}

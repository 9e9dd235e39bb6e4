// Python values and the handful of built-in operations the views, the
// schema builder and the template filters apply to them: truthiness, `or`,
// `dict.get`, `str()`, `int()`, `float()` coercibility, `str.strip()`,
// `str.split()`, `", ".join(...)` and slicing with `[:n]`.

module PyValue {

  datatype Option<+T> = None | Some(value: T)

  /** A decoded JSON document as Python holds it. Dictionaries are keyed by
      text; their iteration order is not modelled. */
  datatype Value =
    | Null
    | Bool(b: bool)
    | Int(i: int)
    | Float(r: real)
    | Str(s: string)
    | Arr(items: seq<Value>)
    | Obj(fields: map<string, Value>)

  /** Python truthiness: None, False, 0, 0.0, "", [] and {} are falsy. */
  predicate Truthy(v: Value) {
    match v
    case Null => false
    case Bool(b) => b
    case Int(i) => i != 0
    case Float(r) => r != 0.0
    case Str(s) => s != ""
    case Arr(xs) => xs != []
    case Obj(m) => m != map[]
  }

  /** `a or b`: the first operand when it is truthy, else the second. */
  function Or(a: Value, b: Value): Value {
    if Truthy(a) then a else b
  }

  /** `d.get(k)`: None when the key is absent. */
  function Get(d: map<string, Value>, k: string): Value {
    if k in d then d[k] else Null
  }

  /** `x in (None, "", 0, "0")`, with Python's `==` (so False and 0.0 are in it too). */
  predicate IsNoneEmptyOrZero(v: Value) {
    match v
    case Null => true
    case Bool(b) => !b
    case Int(i) => i == 0
    case Float(r) => r == 0.0
    case Str(s) => s == "" || s == "0"
    case Arr(_) => false
    case Obj(_) => false
  }

  // ---------------------------------------------------------------------
  // Text

  /** Characters for which Python's `str.isspace()` holds (and which the
      regular expression class `\s` matches). */
  predicate IsSpace(c: char) {
    c == ' ' || ('\t' <= c <= '\r') || ('\U{1c}' <= c <= '\U{1f}') ||
    c == '\U{85}' || c == '\U{a0}' || c == '\U{1680}' ||
    ('\U{2000}' <= c <= '\U{200a}') || c == '\U{2028}' || c == '\U{2029}' ||
    c == '\U{202f}' || c == '\U{205f}' || c == '\U{3000}'
  }

  predicate IsDigit(c: char) { '0' <= c <= '9' }

  predicate IsSlash(c: char) { c == '/' }

  predicate StartsWith(s: string, prefix: string) {
    |prefix| <= |s| && s[..|prefix|] == prefix
  }

  /** `s.startswith(("http://", "https://"))` */
  predicate IsAbsoluteHttp(s: string) {
    StartsWith(s, "http://") || StartsWith(s, "https://")
  }

  /** Removes the leading characters that satisfy `drop` (`lstrip`). */
  function LTrim(s: string, drop: char -> bool): (r: string)
    ensures |r| <= |s| && r == s[|s| - |r|..]
    ensures r != [] ==> !drop(r[0])
    ensures forall k :: 0 <= k < |s| - |r| ==> drop(s[k])
  {
    if s != [] && drop(s[0]) then LTrim(s[1..], drop) else s
  }

  /** Removes the trailing characters that satisfy `drop` (`rstrip`). */
  function RTrim(s: string, drop: char -> bool): (r: string)
    ensures |r| <= |s| && r == s[..|r|]
    ensures r != [] ==> !drop(r[|r| - 1])
    ensures forall k :: |r| <= k < |s| ==> drop(s[k])
  {
    if s != [] && drop(s[|s| - 1]) then RTrim(s[..|s| - 1], drop) else s
  }

  /** `s.strip()`: the leading whitespace dropped, then the trailing. */
  function Strip(s: string): string {
    if s != [] && IsSpace(s[0]) then Strip(s[1..]) else RTrim(s, IsSpace)
  }

  lemma {:induction false} StripTrims(s: string)
    ensures Strip(s) == RTrim(LTrim(s, IsSpace), IsSpace)
  {
    if s != [] && IsSpace(s[0]) {
      StripTrims(s[1..]);
    }
  }

  /** `r` is a contiguous piece of `s` starting where `l`, a suffix of `s`,
      starts; its end characters are kept, and everything cut off on either
      side is dropped. */
  ghost predicate Trimmed(s: string, l: string, r: string, drop: char -> bool) {
    var i := |s| - |l|;
    0 <= i && i + |r| <= |s| && r == s[i..i + |r|] &&
    (forall k :: 0 <= k < i ==> drop(s[k])) &&
    (forall k :: i + |r| <= k < |s| ==> drop(s[k])) &&
    (r != [] ==> !drop(r[0]) && !drop(r[|r| - 1]))
  }

  /** Trimming both ends: `l` is what the left trim leaves of `s`, `r` what
      the right trim leaves of `l`. */
  lemma TrimBoth(s: string, l: string, r: string, drop: char -> bool)
    requires |l| <= |s| && l == s[|s| - |l|..] && (forall k :: 0 <= k < |s| - |l| ==> drop(s[k]))
    requires l != [] ==> !drop(l[0])
    requires |r| <= |l| && r == l[..|r|] && (forall k :: |r| <= k < |l| ==> drop(l[k]))
    requires r != [] ==> !drop(r[|r| - 1])
    ensures Trimmed(s, l, r, drop)
  {
    var i := |s| - |l|;
    forall k | i + |r| <= k < |s| ensures drop(s[k]) {
      assert s[k] == l[k - i];
    }
    if r != [] {
      assert r[0] == l[0];
    }
  }

  lemma {:induction false} TrimsSpec(s: string, drop: char -> bool)
    ensures Trimmed(s, LTrim(s, drop), RTrim(LTrim(s, drop), drop), drop)
  {
    var l := LTrim(s, drop);
    TrimBoth(s, l, RTrim(l, drop), drop);
  }

  /** What `strip()` promises: a contiguous piece of the input with no
      whitespace at either end, everything cut off being whitespace. */
  lemma {:induction false} StripSpec(s: string)
    ensures Trimmed(s, LTrim(s, IsSpace), Strip(s), IsSpace)
  {
    StripTrims(s);
    TrimsSpec(s, IsSpace);
  }

  /** A text with no whitespace at either end is its own `strip()`. */
  lemma StripUnchanged(s: string)
    requires s != [] ==> !IsSpace(s[0]) && !IsSpace(s[|s| - 1])
    ensures Strip(s) == s
  {
  }

  lemma StripIdempotent(s: string)
    ensures Strip(Strip(s)) == Strip(s)
  {
    StripSpec(s);
    StripUnchanged(Strip(s));
  }

  /** The text of `s` before its first `sep` (`s.split(sep)[0]`). */
  function BeforeFirst(s: string, sep: char): (r: string)
    ensures r <= s && sep !in r
    ensures |r| < |s| ==> s[|r|] == sep
  {
    if s == [] || s[0] == sep then [] else [s[0]] + BeforeFirst(s[1..], sep)
  }

  /** The piece before the first separator is the only prefix free of the
      separator that is followed by one or ends the text. */
  lemma BeforeFirstUnique(s: string, sep: char, x: string)
    requires x <= s && sep !in x && (|x| < |s| ==> s[|x|] == sep)
    ensures BeforeFirst(s, sep) == x
  {
  }

  /** `s[:n]` */
  function Take<T>(s: seq<T>, n: nat): (r: seq<T>)
    ensures |r| <= n && |r| <= |s| && r == s[..|r|]
    ensures |s| <= n ==> r == s
  {
    if |s| <= n then s else s[..n]
  }

  /** `sep.join(parts)` */
  function Join(parts: seq<string>, sep: string): string {
    if parts == [] then ""
    else if |parts| == 1 then parts[0]
    else parts[0] + sep + Join(parts[1..], sep)
  }

  /** The joined text starts with the first part, so it is blank only when
      every part is. */
  lemma {:induction false} JoinStartsWithFirst(parts: seq<string>, sep: string)
    requires parts != []
    ensures StartsWith(Join(parts, sep), parts[0])
    ensures Join(parts, sep) == "" <==> forall k :: 0 <= k < |parts| ==> parts[k] == "" && (k > 0 ==> sep == "")
  {
    if |parts| > 1 {
      JoinStartsWithFirst(parts[1..], sep);
      assert forall k :: 1 <= k < |parts| ==> parts[1..][k - 1] == parts[k];
    }
  }

  /** A text field that is left out when empty. */
  function NonEmpty(s: string): (r: Option<string>)
    ensures r.Some? <==> s != ""
    ensures r.Some? ==> r.value == s
  {
    if s == "" then None else Some(s)
  }

  /** `s.replace(old, new)` for single characters. */
  function ReplaceChar(s: string, from: char, to: char): (r: string)
    ensures |r| == |s|
    ensures forall k :: 0 <= k < |s| ==> r[k] == (if s[k] == from then to else s[k])
  {
    seq(|s|, k requires 0 <= k < |s| => if s[k] == from then to else s[k])
  }

  /** The length of the longest prefix of `s` free of whitespace. */
  function WordLength(s: string): (n: nat)
    ensures n <= |s|
    ensures forall k :: 0 <= k < n ==> !IsSpace(s[k])
    ensures n < |s| ==> IsSpace(s[n])
  {
    if s == [] || IsSpace(s[0]) then 0 else 1 + WordLength(s[1..])
  }

  /** A non-empty run of non-whitespace characters. */
  predicate IsWord(w: string) {
    w != "" && forall j :: 0 <= j < |w| ==> !IsSpace(w[j])
  }

  /** `s.split()`: the maximal runs of non-whitespace characters, in order. */
  function Words(s: string): (r: seq<string>)
    ensures forall k :: 0 <= k < |r| ==> IsWord(r[k])
    decreases |s|
  {
    if s == [] then []
    else if IsSpace(s[0]) then Words(s[1..])
    else
      var n := WordLength(s);
      assert IsWord(s[..n]) by {
        assert forall j :: 0 <= j < n ==> s[..n][j] == s[j];
      }
      [s[..n]] + Words(s[n..])
  }

  /** Lower-casing of ASCII letters (enough for the literals it is compared with). */
  function AsciiLower(s: string): (r: string)
    ensures |r| == |s|
  {
    if s == [] then ""
    else [if 'A' <= s[0] <= 'Z' then (s[0] as int + 32) as char else s[0]] + AsciiLower(s[1..])
  }

  // ---------------------------------------------------------------------
  // str(x) for the scalar values the source passes to it

  function DigitChar(d: nat): (c: char)
    requires d < 10
    ensures IsDigit(c)
  {
    ('0' as int + d) as char
  }

  function DigitValue(c: char): (d: nat)
    requires IsDigit(c)
    ensures d < 10 && DigitChar(d) == c
  {
    c as int - '0' as int
  }

  /** The decimal numeral of a natural number. */
  function NatToDecimal(n: nat): (r: string)
    ensures r != [] && forall k :: 0 <= k < |r| ==> IsDigit(r[k])
  {
    if n < 10 then [DigitChar(n)] else NatToDecimal(n / 10) + [DigitChar(n % 10)]
  }

  /** `str(i)` for an int. */
  function IntToDecimal(i: int): (r: string)
    ensures r != [] && IsDigit(r[|r| - 1])
  {
    if i < 0 then "-" + NatToDecimal(-i) else NatToDecimal(i)
  }

  /** The value of a numeral. */
  function DecimalValue(ds: string): nat
    requires forall k :: 0 <= k < |ds| ==> IsDigit(ds[k])
  {
    if ds == [] then 0 else DecimalValue(ds[..|ds| - 1]) * 10 + DigitValue(ds[|ds| - 1])
  }

  lemma {:induction false} DecimalRoundTrip(n: nat)
    ensures DecimalValue(NatToDecimal(n)) == n
  {
    if n >= 10 {
      var r := NatToDecimal(n);
      assert r[..|r| - 1] == NatToDecimal(n / 10);
      DecimalRoundTrip(n / 10);
    }
  }

  /** The values whose `str()` the model spells out; `StrOf` takes any other one's text from a `repr` parameter. */
  predicate Stringable(v: Value) {
    v.Null? || v.Bool? || v.Int? || v.Str?
  }

  /** `str(v)` */
  function PyStr(v: Value): string
    requires Stringable(v)
  {
    match v
    case Null => "None"
    case Bool(b) => if b then "True" else "False"
    case Int(i) => IntToDecimal(i)
    case Str(s) => s
  }

  /** `str(v)` for any value; `repr` stands for the text of the floats,
      lists and dicts whose rendering is not modelled. */
  function StrOf(v: Value, repr: Value -> string): (r: string)
    ensures Stringable(v) ==> r == PyStr(v)
  {
    if Stringable(v) then PyStr(v) else repr(v)
  }

  /** A value that `(v or "").strip()` can be applied to without an AttributeError. */
  predicate StrOrFalsy(v: Value) {
    v.Str? || !Truthy(v)
  }

  /** `(v or "")` for a value that is a string or falsy. */
  function TextOr(v: Value): (r: string)
    requires StrOrFalsy(v)
    ensures r != "" <==> Truthy(v)
  {
    if Truthy(v) then v.s else ""
  }

  // ---------------------------------------------------------------------
  // int(x)

  /** The three outcomes of `int(x)`. */
  datatype IntConv = IntOk(n: int) | ValueErr | TypeErr

  predicate AllDigits(s: string) {
    forall k :: 0 <= k < |s| ==> IsDigit(s[k])
  }

  /** `int(s)` for a string: surrounding whitespace, an optional sign and ASCII digits. */
  function ParseInt(s: string): (r: IntConv)
    ensures !r.TypeErr?
  {
    ParseSigned(Strip(s))
  }

  /** An optional sign followed by one or more ASCII digits. */
  function ParseSigned(t: string): (r: IntConv)
    ensures !r.TypeErr?
  {
    var body := if t != [] && (t[0] == '-' || t[0] == '+') then t[1..] else t;
    if body != [] && AllDigits(body) then
      var n: int := DecimalValue(body);
      IntOk(if t[0] == '-' then -n else n)
    else ValueErr
  }

  /** Truncation toward zero, as `int(x)` does for a float. */
  function Trunc(r: real): (n: int)
    ensures r >= 0.0 ==> n as real <= r < n as real + 1.0
    ensures r < 0.0 ==> n as real - 1.0 < r <= n as real
  {
    if r >= 0.0 then r.Floor else -((-r).Floor)
  }

  /** `int(v)` */
  function PyInt(v: Value): IntConv {
    match v
    case Null => TypeErr
    case Bool(b) => IntOk(if b then 1 else 0)
    case Int(i) => IntOk(i)
    case Float(r) => IntOk(Trunc(r))
    case Str(s) => ParseInt(s)
    case Arr(_) => TypeErr
    case Obj(_) => TypeErr
  }

  lemma ParseDigits(ds: string)
    requires ds != [] && AllDigits(ds)
    ensures ParseInt(ds) == IntOk(DecimalValue(ds))
  {
    StripUnchanged(ds);
  }

  lemma ParseNegativeDigits(ds: string)
    requires ds != [] && AllDigits(ds)
    ensures ParseInt("-" + ds) == IntOk(-(DecimalValue(ds) as int))
  {
    var neg := "-" + ds;
    assert neg[|neg| - 1] == ds[|ds| - 1];
    StripUnchanged(neg);
    assert neg[1..] == ds;
  }

  /** `int(str(i)) == i`: the numeral that `str` writes is read back by `int`. */
  lemma {:induction false} IntStrRoundTrip(i: int)
    ensures PyInt(Str(PyStr(Int(i)))) == IntOk(i)
  {
    var m: nat := if i < 0 then -i else i;
    DecimalRoundTrip(m);
    if i < 0 {
      ParseNegativeDigits(NatToDecimal(m));
    } else {
      ParseDigits(NatToDecimal(m));
    }
  }

  // ---------------------------------------------------------------------
  // float(x): only whether it succeeds

  /** Number of leading ASCII digits. */
  function LeadingDigits(s: string): (n: nat)
    ensures n <= |s| && AllDigits(s[..n]) && (n < |s| ==> !IsDigit(s[n]))
  {
    if s != [] && IsDigit(s[0]) then 1 + LeadingDigits(s[1..]) else 0
  }

  /** An exponent part `e`/`E`, an optional sign and one or more digits, and nothing else. */
  predicate ExponentLiteral(s: string) {
    |s| >= 2 && (s[0] == 'e' || s[0] == 'E') &&
    var t := if s[1] == '+' || s[1] == '-' then s[2..] else s[1..];
    t != [] && AllDigits(t)
  }

  /** Digits, an optional point and fraction (at least one digit in all), an optional exponent. */
  predicate DecimalLiteral(s: string) {
    var i := LeadingDigits(s);
    if i < |s| && s[i] == '.' then
      var j := LeadingDigits(s[i + 1..]);
      i + j > 0 && (i + 1 + j == |s| || ExponentLiteral(s[i + 1 + j..]))
    else
      i > 0 && (i == |s| || ExponentLiteral(s[i..]))
  }

  /** Whether `float(s)` accepts a string (underscore separators and non-ASCII digits aside). */
  predicate FloatLiteral(s: string) {
    var t := Strip(s);
    var body := if t != [] && (t[0] == '-' || t[0] == '+') then t[1..] else t;
    AsciiLower(body) in {"inf", "infinity", "nan"} || DecimalLiteral(body)
  }

  /** Whether `float(v)` succeeds rather than raising TypeError or ValueError. */
  predicate FloatCoercible(v: Value) {
    match v
    case Null => false
    case Bool(_) => true
    case Int(_) => true
    case Float(_) => true
    case Str(s) => FloatLiteral(s)
    case Arr(_) => false
    case Obj(_) => false
  }
}

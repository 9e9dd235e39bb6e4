// The template filters of globe/templatetags/math_filters.py: integer
// division, splitting and stripping text, and the rewriting of Markdown-style
// links into HTML anchors with Django's `escape`. `str()` of the values whose
// text is not modelled is a parameter.

module MathFilters {
  import opened PyValue
  import opened Lists

  /** What a filter gives the template: a value, or an exception that
      escapes it. */
  datatype Outcome<T> = Returned(value: T) | Raised

  // ---------------------------------------------------------------------
  // intdiv

  /** Python's `a // b`: the quotient rounded towards minus infinity. */
  function FloorDiv(a: int, b: int): int
    requires b != 0
  {
    if b > 0 then a / b else (-a) / (-b)
  }

  /** `q` is the floor of a / b: the largest q with q * b <= a for a
      positive divisor, and with q * b >= a for a negative one. */
  predicate IsFloorQuotient(q: int, a: int, b: int) {
    (b > 0 ==> q * b <= a < q * b + b) && (b < 0 ==> q * b + b < a <= q * b)
  }

  lemma FloorDivSpec(a: int, b: int)
    requires b != 0
    ensures IsFloorQuotient(FloorDiv(a, b), a, b)
  {
    var q := FloorDiv(a, b);
    if b < 0 {
      assert (-a) == (-b) * q + (-a) % (-b);
      assert 0 <= (-a) % (-b) < -b;
    }
  }

  /** `intdiv(value, arg)`: `int(value) // int(arg)`, with 0 for a value
      `int()` refuses or a zero divisor; a value of the wrong type raises.
      It raises exactly on a TypeError, returns the floor quotient when both
      sides convert and the divisor is not zero, and 0 otherwise. */
  function IntDiv(value: Value, arg: Value): (r: Outcome<int>)
    ensures r.Raised? <==> PyInt(value).TypeErr? || (PyInt(value).IntOk? && PyInt(arg).TypeErr?)
    ensures PyInt(value).IntOk? && PyInt(arg).IntOk? && PyInt(arg).n != 0 ==>
      r.Returned? && IsFloorQuotient(r.value, PyInt(value).n, PyInt(arg).n)
    ensures r.Returned? && r.value != 0 ==> PyInt(value).IntOk? && PyInt(arg).IntOk? && PyInt(arg).n != 0
  {
    match PyInt(value)
    case TypeErr => Raised
    case ValueErr => Returned(0)
    case IntOk(a) =>
      match PyInt(arg)
      case TypeErr => Raised
      case ValueErr => Returned(0)
      case IntOk(b) =>
        if b == 0 then Returned(0)
        else
          FloorDivSpec(a, b);
          Returned(FloorDiv(a, b))
  }

  // ---------------------------------------------------------------------
  // split

  /** `sep` occurs in `s` at position `j`. */
  predicate OccursAt(s: string, sep: string, j: int) {
    0 <= j && j + |sep| <= |s| && s[j..j + |sep|] == sep
  }

  /** The first occurrence of `sep` in `s` at or after `i`. */
  function FindFrom(s: string, sep: string, i: nat): (r: Option<nat>)
    requires sep != [] && i <= |s|
    ensures r.Some? ==> i <= r.value && OccursAt(s, sep, r.value)
    ensures r.Some? ==> forall j :: i <= j < r.value ==> !OccursAt(s, sep, j)
    ensures r.None? ==> forall j :: i <= j ==> !OccursAt(s, sep, j)
    decreases |s| - i
  {
    if i + |sep| > |s| then None
    else if s[i..i + |sep|] == sep then Some(i)
    else FindFrom(s, sep, i + 1)
  }

  /** `s.split(sep)` for a non-empty separator: the pieces between the
      occurrences found from left to right, without overlap. */
  function SplitOn(s: string, sep: string): (r: seq<string>)
    requires sep != []
    ensures r != []
    decreases |s|
  {
    match FindFrom(s, sep, 0)
    case None => [s]
    case Some(i) => [s[..i]] + SplitOn(s[i + |sep|..], sep)
  }

  /** No occurrence before `i` means none inside the text's first `i`
      characters. */
  lemma PrefixFree(s: string, sep: string, i: nat)
    requires sep != [] && i <= |s| && forall j :: 0 <= j < i ==> !OccursAt(s, sep, j)
    ensures forall j :: !OccursAt(s[..i], sep, j)
  {
    forall j | OccursAt(s[..i], sep, j) ensures false {
      assert s[..i][j..j + |sep|] == s[j..j + |sep|];
      assert OccursAt(s, sep, j);
    }
  }

  /** Joining the pieces with the separator gives the text back. */
  lemma {:induction false} SplitJoin(s: string, sep: string)
    requires sep != []
    ensures Join(SplitOn(s, sep), sep) == s
    decreases |s|
  {
    match FindFrom(s, sep, 0)
    case None =>
    case Some(i) =>
      var rest := s[i + |sep|..];
      SplitJoin(rest, sep);
      var r := SplitOn(s, sep);
      assert r[0] == s[..i] && r[1..] == SplitOn(rest, sep);
      assert s == s[..i] + sep + rest;
  }

  /** No piece contains the separator. With `SplitJoin` this does not yet
      fix where a self-overlapping separator is cut (`"aaa"` by `"aa"`);
      `SplitFirst` and `SplitNone` do: the cut is at the first occurrence. */
  lemma {:induction false} SplitPiecesFree(s: string, sep: string)
    requires sep != []
    ensures forall k, j :: 0 <= k < |SplitOn(s, sep)| ==> !OccursAt(SplitOn(s, sep)[k], sep, j)
    decreases |s|
  {
    match FindFrom(s, sep, 0)
    case None =>
    case Some(i) =>
      var rest := s[i + |sep|..];
      var r, tail := SplitOn(s, sep), SplitOn(rest, sep);
      assert r == [s[..i]] + tail;
      SplitPiecesFree(rest, sep);
      PrefixFree(s, sep, i);
      forall k, j | 0 <= k < |r| ensures !OccursAt(r[k], sep, j) {
        if k > 0 {
          assert r[k] == tail[k - 1];
        }
      }
  }

  /** Text with no occurrence of the separator is one piece. */
  lemma SplitNone(s: string, sep: string)
    requires sep != [] && forall j :: !OccursAt(s, sep, j)
    ensures SplitOn(s, sep) == [s]
  {
  }

  /** The first piece ends where the separator first occurs: `a + sep + b`
      with no occurrence starting inside `a` splits into `a` and the pieces
      of `b`. */
  lemma SplitFirst(a: string, sep: string, b: string)
    requires sep != []
    requires forall j :: 0 <= j < |a| ==> !OccursAt(a + sep + b, sep, j)
    ensures SplitOn(a + sep + b, sep) == [a] + SplitOn(b, sep)
  {
    var s := a + sep + b;
    assert s[|a|..|a| + |sep|] == sep;
    assert OccursAt(s, sep, |a|);
    assert FindFrom(s, sep, 0) == Some(|a|);
    assert s[..|a|] == a && s[|a| + |sep|..] == b;
  }

  /** A piece of the split, stripped, unless it is blank. */
  function StrippedPart(p: string): Option<string> {
    NonEmpty(Strip(p))
  }

  /** `split(value, separator)`: None gives no parts, an empty separator
      (a ValueError that is caught) gives none either; otherwise the
      stripped non-blank pieces, in order. Every part is non-empty and
      already stripped. */
  function Split(value: Value, separator: Value, repr: Value -> string): (r: seq<string>)
    ensures value.Null? || StrOf(separator, repr) == "" ==> r == []
    ensures forall k :: 0 <= k < |r| ==> r[k] != "" && Strip(r[k]) == r[k]
  {
    if value.Null? then []
    else
      var sep := StrOf(separator, repr);
      if sep == "" then []
      else
        var pieces := SplitOn(StrOf(value, repr), sep);
        StrippedParts(pieces, "");
        FilterMap(pieces, StrippedPart)
  }

  /** `e` is not blank and some piece strips to it. */
  predicate StripsTo(pieces: seq<string>, e: string) {
    e != "" && exists k :: 0 <= k < |pieces| && Strip(pieces[k]) == e
  }

  /** Every kept part is non-empty and already stripped; a part is kept
      exactly when some piece strips to it. */
  lemma StrippedParts(pieces: seq<string>, e: string)
    ensures forall k :: 0 <= k < |FilterMap(pieces, StrippedPart)| ==>
      FilterMap(pieces, StrippedPart)[k] != "" && Strip(FilterMap(pieces, StrippedPart)[k]) == FilterMap(pieces, StrippedPart)[k]
    ensures e in FilterMap(pieces, StrippedPart) <==> StripsTo(pieces, e)
  {
    forall i | 0 <= i < |pieces| ensures Strip(Strip(pieces[i])) == Strip(pieces[i]) {
      StripIdempotent(pieces[i]);
    }
    FilterMapAll(pieces, StrippedPart, (e: string) => e != "" && Strip(e) == e);
    FilterMapMember(pieces, StrippedPart, e);
  }

  /** A text is a part exactly when it is the stripped form of some
      piece and not blank. */
  lemma SplitParts(value: Value, separator: Value, repr: Value -> string, e: string)
    ensures !value.Null? && StrOf(separator, repr) != "" ==>
      (e in Split(value, separator, repr) <==> StripsTo(SplitOn(StrOf(value, repr), StrOf(separator, repr)), e))
  {
    if !value.Null? && StrOf(separator, repr) != "" {
      var pieces := SplitOn(StrOf(value, repr), StrOf(separator, repr));
      assert Split(value, separator, repr) == FilterMap(pieces, StrippedPart);
      StrippedParts(pieces, e);
    }
  }

  /** The parts of a text are the kept pieces of its split. */
  lemma SplitText(x: string, separator: Value, repr: Value -> string)
    requires StrOf(separator, repr) != ""
    ensures Split(Str(x), separator, repr) == FilterMap(SplitOn(x, StrOf(separator, repr)), StrippedPart)
  {
    assert StrOf(Str(x), repr) == x;
  }

  /** Kept parts of a text without the separator: its own part, if any. */
  lemma KeptNone(a: string, sep: string)
    requires sep != [] && forall j :: !OccursAt(a, sep, j)
    ensures FilterMap(SplitOn(a, sep), StrippedPart) == Kept(StrippedPart(a))
  {
    SplitNone(a, sep);
    assert FilterMap([a], StrippedPart) == FilterMap([a][..0], StrippedPart) + Kept(StrippedPart(a));
  }

  /** Kept parts of `a + sep + b`: `a`'s part before those of `b`. */
  lemma KeptFirst(a: string, sep: string, b: string)
    requires sep != []
    requires forall j :: 0 <= j < |a| ==> !OccursAt(a + sep + b, sep, j)
    ensures FilterMap(SplitOn(a + sep + b, sep), StrippedPart) ==
      Kept(StrippedPart(a)) + FilterMap(SplitOn(b, sep), StrippedPart)
  {
    SplitFirst(a, sep, b);
    var ps := [a] + SplitOn(b, sep);
    FilterMapCons(ps, StrippedPart);
    assert ps[1..] == SplitOn(b, sep);
  }

  /** The parts come in the order of the text: text without the separator
      is at most one part, and `a + sep + b` with no occurrence starting
      inside `a` gives `a`'s part (if it is not blank) before the parts of
      `b`. */
  lemma SplitInOrder(a: string, b: string, separator: Value, repr: Value -> string)
    requires StrOf(separator, repr) != ""
    ensures (forall j :: !OccursAt(a, StrOf(separator, repr), j)) ==>
      Split(Str(a), separator, repr) == Kept(StrippedPart(a))
    ensures (forall j :: 0 <= j < |a| ==> !OccursAt(a + StrOf(separator, repr) + b, StrOf(separator, repr), j)) ==>
      Split(Str(a + StrOf(separator, repr) + b), separator, repr) ==
        Kept(StrippedPart(a)) + Split(Str(b), separator, repr)
  {
    var sep := StrOf(separator, repr);
    if forall j :: !OccursAt(a, sep, j) {
      SplitText(a, separator, repr);
      KeptNone(a, sep);
    }
    if forall j :: 0 <= j < |a| ==> !OccursAt(a + sep + b, sep, j) {
      SplitText(a + sep + b, separator, repr);
      SplitText(b, separator, repr);
      KeptFirst(a, sep, b);
    }
  }

  // ---------------------------------------------------------------------
  // strip

  /** `strip(value)`: "" for None, else `str(value).strip()`: the text with
      its leading and trailing whitespace cut, which stripping again leaves
      as it is. */
  function StripFilter(value: Value, repr: Value -> string): (r: string)
    ensures value.Null? ==> r == ""
    ensures !value.Null? ==> Trimmed(StrOf(value, repr), LTrim(StrOf(value, repr), IsSpace), r, IsSpace)
    ensures Strip(r) == r
  {
    if value.Null? then ""
    else
      StripSpec(StrOf(value, repr));
      StripIdempotent(StrOf(value, repr));
      Strip(StrOf(value, repr))
  }

  // ---------------------------------------------------------------------
  // HTML escaping

  /** The characters that open a tag or an attribute value. */
  predicate IsMarkup(c: char) {
    c == '<' || c == '>' || c == '"' || c == '\''
  }

  /** The characters `escape` replaces by an entity. */
  predicate IsEscaped(c: char) {
    c == '&' || IsMarkup(c)
  }

  /** The characters of the entities `escape` writes. */
  predicate IsEntityChar(c: char) {
    c == '&' || c == ';' || c == '#' || ('a' <= c <= 'z') || ('0' <= c <= '9')
  }

  /** Django's `escape` on one character: an entity that starts with `&`,
      ends with `;` and holds no markup, or the character itself. */
  function EscapeChar(c: char): (r: string)
    ensures !IsEscaped(c) ==> r == [c]
    ensures IsEscaped(c) ==> |r| >= 4 && r[0] == '&' && r[|r| - 1] == ';'
    ensures IsEscaped(c) ==> forall i :: 0 <= i < |r| ==> IsEntityChar(r[i]) && !IsMarkup(r[i])
  {
    if c == '&' then "&amp;"
    else if c == '<' then "&lt;"
    else if c == '>' then "&gt;"
    else if c == '"' then "&quot;"
    else if c == '\'' then "&#x27;"
    else [c]
  }

  /** Django's `escape`. */
  function Escape(s: string): string {
    if s == [] then "" else EscapeChar(s[0]) + Escape(s[1..])
  }

  predicate Inert(t: string) {
    forall i :: 0 <= i < |t| ==> !IsMarkup(t[i])
  }

  /** The entity at the start of `t` and its length, if there is one. */
  function EntityAt(t: string): Option<(char, nat)> {
    if StartsWith(t, "&amp;") then Some(('&', 5))
    else if StartsWith(t, "&lt;") then Some(('<', 4))
    else if StartsWith(t, "&gt;") then Some(('>', 4))
    else if StartsWith(t, "&quot;") then Some(('"', 6))
    else if StartsWith(t, "&#x27;") then Some(('\'', 6))
    else None
  }

  /** Reads the entities `escape` writes back as the characters they stand for. */
  function Unescape(t: string): string
    decreases |t|
  {
    if t == [] then ""
    else if t[0] == '&' && EntityAt(t).Some? && 0 < EntityAt(t).value.1 <= |t| then
      [EntityAt(t).value.0] + Unescape(t[EntityAt(t).value.1..])
    else [t[0]] + Unescape(t[1..])
  }

  /** The entity of an escaped character is read at the start of any text
      it opens, whole; an `&` in `escape`'s output only ever opens one. */
  lemma EntityHead(c: char, t: string)
    ensures IsEscaped(c) ==> EntityAt(EscapeChar(c) + t) == Some((c, |EscapeChar(c)|))
    ensures forall i :: 0 <= i < |EscapeChar(c)| && EscapeChar(c)[i] == '&' ==> i == 0 && IsEscaped(c)
  {
    var e := EscapeChar(c);
    assert forall i :: 0 <= i < |e| ==> (e + t)[i] == e[i];
    assert (e + t)[..|e|] == e;
    if c == '&' {
      assert EntityAt(e + t) == Some(('&', 5));
    } else if c == '<' {
      assert EntityAt(e + t) == Some(('<', 4));
    } else if c == '>' {
      assert EntityAt(e + t) == Some(('>', 4));
    } else if c == '"' {
      assert e == "&quot;";
      assert (e + t)[1] == 'q';
      assert EntityAt(e + t) == Some(('"', 6));
    } else if c == '\'' {
      assert e == "&#x27;";
      assert (e + t)[1] == '#';
      assert EntityAt(e + t) == Some(('\'', 6));
    }
  }

  /** The entity of a character reads back as that character. */
  lemma EscapeCharBack(c: char, t: string)
    ensures Unescape(EscapeChar(c) + t) == [c] + Unescape(t)
  {
    var e := EscapeChar(c);
    EntityHead(c, t);
    assert (e + t)[|e|..] == t;
    assert (e + t)[0] == e[0];
  }

  lemma {:induction false} EscapeConcat(a: string, b: string)
    ensures Escape(a + b) == Escape(a) + Escape(b)
    decreases |a|
  {
    if a != [] {
      assert (a + b)[0] == a[0];
      assert (a + b)[1..] == a[1..] + b;
      EscapeConcat(a[1..], b);
      var e := EscapeChar(a[0]);
      calc {
        Escape(a + b);
        e + Escape(a[1..] + b);
        e + (Escape(a[1..]) + Escape(b));
        (e + Escape(a[1..])) + Escape(b);
      }
    } else {
      assert a + b == b;
    }
  }

  /** The escaped text reads back as the input: `escape` loses nothing. */
  lemma {:induction false} EscapeUnescape(s: string)
    ensures Unescape(Escape(s)) == s
    decreases |s|
  {
    if s != [] {
      EscapeUnescape(s[1..]);
      EscapeCharBack(s[0], Escape(s[1..]));
    }
  }

  /** The escaped text holds no markup character and no bare `&` (every
      `&` opens an entity); every character of it is one of the input's or
      part of an entity; it is empty only when the input is. */
  lemma {:induction false} EscapeSpec(s: string)
    ensures Inert(Escape(s))
    ensures forall i :: 0 <= i < |Escape(s)| && Escape(s)[i] == '&' ==> EntityAt(Escape(s)[i..]).Some?
    ensures forall i :: 0 <= i < |Escape(s)| ==> Escape(s)[i] in s || IsEntityChar(Escape(s)[i])
    ensures Escape(s) == [] <==> s == []
    decreases |s|
  {
    if s != [] {
      EscapeSpec(s[1..]);
      var e, t := EscapeChar(s[0]), Escape(s[1..]);
      assert Escape(s) == e + t;
      EntityHead(s[0], t);
      forall i | 0 <= i < |e + t|
        ensures !IsMarkup((e + t)[i]) && ((e + t)[i] in s || IsEntityChar((e + t)[i]))
        ensures (e + t)[i] == '&' ==> EntityAt((e + t)[i..]).Some?
      {
        if i >= |e| {
          assert (e + t)[i] == t[i - |e|];
          assert (e + t)[i..] == t[i - |e|..];
          assert t[i - |e|] in s[1..] ==> t[i - |e|] in s;
        } else {
          assert (e + t)[i] == e[i];
          if e[i] == '&' {
            assert (e + t)[i..] == e + t;
          }
        }
      }
    }
  }

  /** Escaping leaves whitespace alone, so it commutes with `strip()`. */
  lemma {:induction false} EscapeStrip(s: string)
    ensures Strip(Escape(s)) == Escape(Strip(s))
    decreases |s|
  {
    if s != [] {
      EscapeHead(s);
    }
    if s != [] && IsSpace(s[0]) {
      EscapeStrip(s[1..]);
    } else {
      EscapeRTrim(s);
    }
  }

  /** The escaped text starts with whitespace exactly when the input does,
      and a leading whitespace character is kept as it is. */
  lemma EscapeHead(s: string)
    requires s != []
    ensures Escape(s) != [] && (IsSpace(Escape(s)[0]) <==> IsSpace(s[0]))
    ensures IsSpace(s[0]) ==> Escape(s)[1..] == Escape(s[1..])
  {
    var e, t := EscapeChar(s[0]), Escape(s[1..]);
    assert Escape(s) == e + t;
    assert (e + t)[0] == e[0];
    if IsSpace(s[0]) {
      assert e == [s[0]];
      assert (e + t)[1..] == t;
    }
  }

  lemma {:induction false} EscapeRTrim(s: string)
    ensures RTrim(Escape(s), IsSpace) == Escape(RTrim(s, IsSpace))
    decreases |s|
  {
    if s != [] {
      var n := |s| - 1;
      var c := s[n];
      EscapeSnoc(s);
      var t, e := Escape(s[..n]), EscapeChar(c);
      if IsSpace(c) {
        assert e == [c];
        RTrimDrops(t, c);
        EscapeRTrim(s[..n]);
      } else {
        RTrimKeeps(t + e);
      }
    }
  }

  lemma EscapeSnoc(s: string)
    requires s != []
    ensures Escape(s) == Escape(s[..|s| - 1]) + EscapeChar(s[|s| - 1])
  {
    var n := |s| - 1;
    assert s == s[..n] + [s[n]];
    EscapeConcat(s[..n], [s[n]]);
    assert Escape([s[n]]) == EscapeChar(s[n]) + Escape([]);
  }

  lemma RTrimDrops(t: string, c: char)
    requires IsSpace(c)
    ensures RTrim(t + [c], IsSpace) == RTrim(t, IsSpace)
  {
    assert (t + [c])[..|t|] == t;
  }

  lemma RTrimKeeps(t: string)
    requires t != [] && !IsSpace(t[|t| - 1])
    ensures RTrim(t, IsSpace) == t
  {
  }

  // ---------------------------------------------------------------------
  // markdown_links

  /** A link as the pattern `\[([^\]]+?)\]\((https?://[^\s)]+)\)` reads it:
      the label (group 1) and the target (group 2). */
  datatype Link = Link(text: string, href: string)

  /** `[^\s)]`: a character the link target may contain. */
  predicate IsHrefChar(c: char) {
    !IsSpace(c) && c != ')'
  }

  predicate AllHref(s: string) {
    forall k :: 0 <= k < |s| ==> IsHrefChar(s[k])
  }

  /** `https?://[^\s)]+` matched as a whole. */
  predicate IsTarget(h: string) {
    (StartsWith(h, "https://") && |h| > 8 && AllHref(h[8..])) ||
    (StartsWith(h, "http://") && |h| > 7 && AllHref(h[7..]))
  }

  /** A label and a target the pattern can match. */
  predicate LinkSyntax(l: Link) {
    l.text != [] && ']' !in l.text && IsTarget(l.href)
  }

  /** `[label](`, the text before a link's target. */
  function Opening(text: string): string {
    "[" + text + "]("
  }

  /** The text a link is written as. */
  function LinkText(l: Link): string {
    Opening(l.text) + (l.href + ")")
  }

  lemma PrefixJoin(t: string, a: string, b: string)
    ensures StartsWith(t, a + b) <==> StartsWith(t, a) && StartsWith(t[|a|..], b)
  {
    if StartsWith(t, a) && StartsWith(t[|a|..], b) {
      assert t[..|a + b|] == t[..|a|] + t[|a|..][..|b|];
    }
    if StartsWith(t, a + b) {
      assert t[..|a|] == (a + b)[..|a|];
      assert t[|a|..][..|b|] == (a + b)[|a|..];
    }
  }

  /** `t` starts with `[label](` exactly when its characters say so. */
  lemma OpeningAt(t: string, text: string)
    ensures StartsWith(t, Opening(text)) <==>
      (|text| + 3 <= |t| && t[0] == '[' && t[1..][..|text|] == text && t[|text| + 1] == ']' && t[|text| + 2] == '(')
  {
    var o := Opening(text);
    var n := |text|;
    if |text| + 3 <= |t| && t[0] == '[' && t[1..][..n] == text && t[n + 1] == ']' && t[n + 2] == '(' {
      forall k | 0 <= k < |o| ensures t[k] == o[k] {
        if 1 <= k <= n {
          assert t[k] == t[1..][..n][k - 1];
        }
      }
      assert t[..|o|] == o;
    }
    if StartsWith(t, o) {
      assert t[..|o|] == o;
      assert forall k :: 0 <= k < |o| ==> t[k] == o[k];
      assert t[1..][..n] == o[1..n + 1];
    }
  }

  /** The length of the longest prefix of target characters (the greedy
      `[^\s)]+`). */
  function HrefRun(s: string): (n: nat)
    ensures n <= |s| && (forall k :: 0 <= k < n ==> IsHrefChar(s[k])) && (n < |s| ==> !IsHrefChar(s[n]))
  {
    if s == [] || !IsHrefChar(s[0]) then 0 else HrefRun(s[1..]) + 1
  }

  lemma HrefRunUnique(s: string, n: nat)
    requires n <= |s| && (forall k :: 0 <= k < n ==> IsHrefChar(s[k])) && (n < |s| ==> !IsHrefChar(s[n]))
    ensures HrefRun(s) == n
  {
  }

  /** The length of the scheme `https?://` at the start of `u`, 0 if none. */
  function SchemeLength(u: string): nat {
    if StartsWith(u, "https://") then 8 else if StartsWith(u, "http://") then 7 else 0
  }

  /** The match of `https?://[^\s)]+\)` at the start of `u`: the target. */
  function TargetAt(u: string): (r: Option<string>)
    ensures r.Some? ==> IsTarget(r.value) && StartsWith(u, r.value + ")")
  {
    var sl := SchemeLength(u);
    if sl == 0 then None
    else
      var run := HrefRun(u[sl..]);
      if run == 0 || sl + run >= |u| || u[sl + run] != ')' then None
      else
        TargetFound(u, sl, run);
        Some(u[..sl + run])
  }

  /** A scheme, a non-empty run of target characters and `)` make a target. */
  lemma TargetFound(u: string, sl: nat, run: nat)
    requires (sl == 8 && StartsWith(u, "https://")) || (sl == 7 && StartsWith(u, "http://"))
    requires 0 < run && sl + run < |u| && u[sl + run] == ')'
    requires forall k :: 0 <= k < run ==> IsHrefChar(u[sl..][k])
    ensures IsTarget(u[..sl + run]) && StartsWith(u, u[..sl + run] + ")")
  {
    var h := u[..sl + run];
    assert h[..sl] == u[..sl];
    forall k | 0 <= k < |h[sl..]| ensures IsHrefChar(h[sl..][k]) {
      assert h[sl..][k] == u[sl..][k];
    }
    assert u[..sl + run + 1] == h + ")";
  }

  /** Every well-formed target followed by `)` is matched, and read back. */
  lemma TargetAtComplete(u: string, h: string)
    requires IsTarget(h) && StartsWith(u, h + ")")
    ensures TargetAt(u) == Some(h)
  {
    assert u[..|h| + 1] == h + ")";
    assert forall k :: 0 <= k < |h| ==> u[k] == h[k];
    assert u[|h|] == ')';
    var sl := if StartsWith(h, "https://") then 8 else 7;
    assert |h| > sl by {
      if sl == 8 && StartsWith(h, "http://") {
        assert h[4] == 's';
      }
    }
    assert u[..7] == h[..7] && u[..8] == h[..8];
    assert SchemeLength(u) == sl;
    assert forall k :: 0 <= k < |h| - sl ==> u[sl..][k] == h[sl..][k];
    assert |h| - sl < |u[sl..]| && u[sl..][|h| - sl] == ')';
    HrefRunUnique(u[sl..], |h| - sl);
    assert u[..sl + (|h| - sl)] == h;
  }

  /** The match of the link pattern at the start of `t`, if any. */
  function LinkAt(t: string): (r: Option<Link>)
    ensures r.Some? ==> LinkSyntax(r.value) && StartsWith(t, LinkText(r.value))
  {
    if t == [] || t[0] != '[' then None
    else
      var text := BeforeFirst(t[1..], ']');
      var n := |text|;
      if text == [] || n + 2 >= |t| || t[n + 2] != '(' then None
      else
        match TargetAt(t[n + 3..])
        case None => None
        case Some(h) =>
          assert t[n + 1] == t[1..][n];
          OpeningAt(t, text);
          PrefixJoin(t, Opening(text), h + ")");
          Some(Link(text, h))
  }

  /** The pattern matches every well-formed link, and reads it back. */
  lemma LinkAtComplete(t: string, l: Link)
    requires LinkSyntax(l) && StartsWith(t, LinkText(l))
    ensures LinkAt(t) == Some(l)
  {
    var n := |l.text|;
    PrefixJoin(t, Opening(l.text), l.href + ")");
    OpeningAt(t, l.text);
    assert t[1..][n] == t[n + 1];
    BeforeFirstUnique(t[1..], ']', l.text);
    TargetAtComplete(t[n + 3..], l.href);
  }

  /** One step of `re.sub`: a link, or a character copied as it is. */
  datatype Piece = Char(c: char) | Anchor(link: Link)

  /** The scan of `pattern.sub(...)`: left to right, a match replaced and
      skipped, any other character kept. */
  function Scan(t: string): seq<Piece>
    decreases |t|
  {
    if t == [] then []
    else match LinkAt(t)
      case Some(l) => [Anchor(l)] + Scan(t[|LinkText(l)|..])
      case None => [Char(t[0])] + Scan(t[1..])
  }

  /** The text a piece stands for in the input. */
  function Source(p: Piece): string {
    match p
    case Char(c) => [c]
    case Anchor(l) => LinkText(l)
  }

  function Sources(ps: seq<Piece>): string {
    if ps == [] then "" else Source(ps[0]) + Sources(ps[1..])
  }

  /** The scan cuts the text into pieces without losing or adding anything. */
  lemma {:induction false} ScanSources(t: string)
    ensures Sources(Scan(t)) == t
    decreases |t|
  {
    if t != [] {
      match LinkAt(t)
      case Some(l) =>
        ScanSources(t[|LinkText(l)|..]);
        LinkSources(t, l);
      case None =>
        ScanSources(t[1..]);
        CharSources(t);
    }
  }

  /** A link at the front: its text, then the rest of the scan. */
  lemma LinkSources(t: string, l: Link)
    requires LinkAt(t) == Some(l)
    requires Sources(Scan(t[|LinkText(l)|..])) == t[|LinkText(l)|..]
    ensures Sources(Scan(t)) == t
  {
    var m := |LinkText(l)|;
    var r := Scan(t);
    assert r == [Anchor(l)] + Scan(t[m..]);
    assert r[1..] == Scan(t[m..]);
    assert t[..m] == LinkText(l);
    assert t == t[..m] + t[m..];
  }

  /** No link at the front: the first character, then the rest of the scan. */
  lemma CharSources(t: string)
    requires t != [] && LinkAt(t).None?
    requires Sources(Scan(t[1..])) == t[1..]
    ensures Sources(Scan(t)) == t
  {
    var r := Scan(t);
    assert r == [Char(t[0])] + Scan(t[1..]);
    assert r[1..] == Scan(t[1..]);
    assert t == [t[0]] + t[1..];
  }

  /** Every link the scan finds is well-formed. */
  lemma {:induction false} ScanLinks(t: string)
    ensures forall k :: 0 <= k < |Scan(t)| && Scan(t)[k].Anchor? ==> LinkSyntax(Scan(t)[k].link)
    decreases |t|
  {
    if t != [] {
      var r := Scan(t);
      match LinkAt(t)
      case Some(l) =>
        ScanLinks(t[|LinkText(l)|..]);
        assert r == [Anchor(l)] + Scan(t[|LinkText(l)|..]);
      case None =>
        ScanLinks(t[1..]);
        assert r == [Char(t[0])] + Scan(t[1..]);
    }
  }

  /** The scan cuts the text into pieces without losing or adding anything,
      and every link it finds is well-formed. */
  lemma ScanSpec(t: string)
    ensures Sources(Scan(t)) == t
    ensures forall k :: 0 <= k < |Scan(t)| && Scan(t)[k].Anchor? ==> LinkSyntax(Scan(t)[k].link)
  {
    ScanSources(t);
    ScanLinks(t);
  }

  /** The label and the target of a link are pieces of its text. */
  lemma InertLink(t: string, l: Link)
    requires Inert(t) && StartsWith(t, LinkText(l))
    ensures Inert(l.text) && Inert(l.href)
  {
    PrefixJoin(t, Opening(l.text), l.href + ")");
    OpeningAt(t, l.text);
    assert forall k :: 0 <= k < |l.text| ==> l.text[k] == t[1..][k];
    var u := t[|l.text| + 3..];
    assert forall k :: 0 <= k < |l.href| ==> l.href[k] == (l.href + ")")[k] == u[k];
  }

  /** On an inert text every piece of the scan is inert. */
  lemma {:induction false} ScanInert(t: string)
    requires Inert(t)
    ensures forall k :: 0 <= k < |Scan(t)| ==>
      (Scan(t)[k].Char? ==> !IsMarkup(Scan(t)[k].c)) &&
      (Scan(t)[k].Anchor? ==> Inert(Scan(t)[k].link.text) && Inert(Scan(t)[k].link.href))
    decreases |t|
  {
    if t != [] {
      var r := Scan(t);
      match LinkAt(t)
      case Some(l) =>
        var m := |LinkText(l)|;
        ScanInert(t[m..]);
        assert r[1..] == Scan(t[m..]);
        InertLink(t, l);
      case None =>
        ScanInert(t[1..]);
        assert r[1..] == Scan(t[1..]);
    }
  }

  lemma InertStrip(s: string)
    requires Inert(s)
    ensures Inert(Strip(s))
  {
    StripSpec(s);
    var i := |s| - |LTrim(s, IsSpace)|;
    assert forall k :: 0 <= k < |Strip(s)| ==> Strip(s)[k] == s[i + k];
  }

  /** The anchor `_replace` writes for a target and a label. */
  function AnchorHtml(href: string, shown: string): string {
    " <a href=\"" + href + "\" target=\"_blank\" rel=\"noopener noreferrer\" " +
    "class=\"text-blue-600 hover:text-blue-800 underline\">" + shown + "</a> "
  }

  /** The label shown: the stripped label, or the target when it is blank. */
  function Shown(l: Link): string {
    if Strip(l.text) != "" then Strip(l.text) else l.href
  }

  /** The target written into the anchor; `again` says whether the target,
      taken from the already escaped text, is escaped a second time. */
  function HrefOut(l: Link, again: bool): string {
    if again then Escape(l.href) else l.href
  }

  /** The label written into the anchor, escaped a second time if `again`. */
  function ShownOut(l: Link, again: bool): string {
    if again then Escape(Shown(l)) else Shown(l)
  }

  /** The output of a piece. */
  function Render(p: Piece, again: bool): string {
    match p
    case Char(c) => [c]
    case Anchor(l) => AnchorHtml(HrefOut(l, again), ShownOut(l, again))
  }

  /** No piece puts a `<`, `>` or quote of the input on the page raw: plain
      characters are not markup, and what an anchor writes as its target
      and its label is inert. */
  predicate RendersInert(ps: seq<Piece>, again: bool) {
    forall k :: 0 <= k < |ps| ==>
      (ps[k].Char? ==> !IsMarkup(ps[k].c)) &&
      (ps[k].Anchor? ==> Inert(HrefOut(ps[k].link, again)) && Inert(ShownOut(ps[k].link, again)))
  }

  function RenderAll(ps: seq<Piece>, again: bool): string {
    if ps == [] then "" else Render(ps[0], again) + RenderAll(ps[1..], again)
  }

  /** A text that does not open with `[` scans its first character as a
      plain piece. */
  lemma ScanPlainHead(t: string)
    requires t != [] && t[0] != '['
    ensures Scan(t) == [Char(t[0])] + Scan(t[1..])
  {
    assert LinkAt(t).None?;
  }

  /** Rendering a plain first piece writes its character. */
  lemma RenderCharHead(c: char, ps: seq<Piece>, again: bool)
    ensures RenderAll([Char(c)] + ps, again) == [c] + RenderAll(ps, again)
  {
    assert ([Char(c)] + ps)[1..] == ps;
  }

  /** A text with no `[` holds no link: every piece is a plain character,
      written out as it stands. */
  lemma {:induction false} PlainRender(t: string, again: bool)
    requires '[' !in t
    ensures RenderAll(Scan(t), again) == t
    decreases |t|
  {
    if t != [] {
      assert t == [t[0]] + t[1..];
      ScanPlainHead(t);
      PlainRender(t[1..], again);
      RenderCharHead(t[0], Scan(t[1..]), again);
    }
  }

  /** Escaping adds no `[`, so a text without one renders as its escape. */
  lemma PlainEscaped(s: string, again: bool)
    ensures '[' !in s ==> RenderAll(Scan(Escape(s)), again) == Escape(s)
  {
    if '[' !in s {
      EscapeSpec(s);
      assert !IsEntityChar('[');
      PlainRender(Escape(s), again);
    }
  }

  /** `markdown_links(value)` as written: the text is escaped, then each
      link's label and target are escaped once more. A falsy value gives
      "", and a text without `[` comes out escaped and otherwise as it is. */
  function MarkdownLinksAsWritten(value: Value, repr: Value -> string): (r: string)
    ensures !Truthy(value) ==> r == ""
    ensures Truthy(value) && '[' !in StrOf(value, repr) ==> r == Escape(StrOf(value, repr))
  {
    if !Truthy(value) then ""
    else
      PlainEscaped(StrOf(value, repr), true);
      RenderAll(Scan(Escape(StrOf(value, repr))), true)
  }

  /** `markdown_links(value)` escaping every character once: the links are
      found in the escaped text and written out as they stand there. A
      falsy value gives "", and a text without `[` comes out escaped and
      otherwise as it is. */
  function MarkdownLinks(value: Value, repr: Value -> string): (r: string)
    ensures !Truthy(value) ==> r == ""
    ensures Truthy(value) && '[' !in StrOf(value, repr) ==> r == Escape(StrOf(value, repr))
  {
    if !Truthy(value) then ""
    else
      PlainEscaped(StrOf(value, repr), false);
      RenderAll(Scan(Escape(StrOf(value, repr))), false)
  }

  /** The scan of an escaped text renders inert, whether or not the links
      are escaped a second time. */
  lemma ScanRendersInert(s: string, again: bool)
    ensures RendersInert(Scan(Escape(s)), again)
  {
    var t := Escape(s);
    EscapeSpec(s);
    ScanInert(t);
    var ps := Scan(t);
    forall k | 0 <= k < |ps| && ps[k].Anchor?
      ensures Inert(HrefOut(ps[k].link, again)) && Inert(ShownOut(ps[k].link, again))
    {
      var l := ps[k].link;
      InertStrip(l.text);
      if again {
        EscapeSpec(l.href);
        EscapeSpec(Shown(l));
      }
    }
  }

  /** The output is rendered from the scan of the escaped text, whose plain characters, targets and shown labels
      are all inert: no `<`, `>` or quote of the input reaches the page raw. */
  lemma MarkdownLinksSafe(value: Value, repr: Value -> string)
    ensures Truthy(value) ==> MarkdownLinks(value, repr) == RenderAll(Scan(Escape(StrOf(value, repr))), false)
    ensures RendersInert(Scan(Escape(StrOf(value, repr))), false)
  {
    ScanRendersInert(StrOf(value, repr), false);
  }

  /** The filter as written is just as safe: escaping twice leaves nothing
      raw either (it only spoils the entities, see `DoubleEscapeShown`). */
  lemma MarkdownLinksAsWrittenSafe(value: Value, repr: Value -> string)
    ensures Truthy(value) ==> MarkdownLinksAsWritten(value, repr) == RenderAll(Scan(Escape(StrOf(value, repr))), true)
    ensures RendersInert(Scan(Escape(StrOf(value, repr))), true)
  {
    ScanRendersInert(StrOf(value, repr), true);
  }

  /** Text made only of characters `escape` leaves alone is its own escape. */
  lemma {:induction false} EscapeIdentity(s: string)
    requires forall k :: 0 <= k < |s| ==> !IsEscaped(s[k])
    ensures Escape(s) == s
    decreases |s|
  {
    if s != [] {
      EscapeIdentity(s[1..]);
    }
  }

  /** Escaping keeps the characters of a target's tail target characters. */
  lemma EscapeHref(rest: string)
    requires rest != [] && AllHref(rest)
    ensures Escape(rest) != [] && AllHref(Escape(rest))
  {
    EscapeSpec(rest);
    var e := Escape(rest);
    forall k | 0 <= k < |e| ensures IsHrefChar(e[k]) {
      if e[k] in rest {
        var j :| 0 <= j < |rest| && rest[j] == e[k];
      }
    }
  }

  lemma EscapeSchemes()
    ensures Escape("https://") == "https://" && Escape("http://") == "http://"
  {
    EscapeIdentity("https://");
    EscapeIdentity("http://");
  }

  /** A target is its scheme followed by a non-empty run of target characters. */
  lemma TargetParts(h: string) returns (scheme: string, rest: string)
    requires IsTarget(h)
    ensures h == scheme + rest && (scheme == "https://" || scheme == "http://")
    ensures rest != [] && AllHref(rest)
  {
    if StartsWith(h, "https://") && |h| > 8 && AllHref(h[8..]) {
      scheme, rest := h[..8], h[8..];
    } else {
      scheme, rest := h[..7], h[7..];
    }
    assert h == scheme + rest;
  }

  /** A scheme followed by a non-empty run of target characters is a target. */
  lemma TargetOf(scheme: string, rest: string)
    requires scheme == "https://" || scheme == "http://"
    requires rest != [] && AllHref(rest)
    ensures IsTarget(scheme + rest)
  {
    var g := scheme + rest;
    assert g[..|scheme|] == scheme && g[|scheme|..] == rest;
  }

  /** Escaping keeps a target well-formed. */
  lemma EscapeTarget(h: string)
    requires IsTarget(h)
    ensures IsTarget(Escape(h))
  {
    var scheme, rest := TargetParts(h);
    EscapeConcat(scheme, rest);
    EscapeSchemes();
    EscapeHref(rest);
    TargetOf(scheme, Escape(rest));
  }

  /** Escaping keeps a label well-formed. */
  lemma EscapeLabel(text: string)
    requires text != [] && ']' !in text
    ensures Escape(text) != [] && ']' !in Escape(text)
  {
    EscapeSpec(text);
  }

  /** The escaped text of a link is the text of the escaped link, which is
      well-formed again. */
  lemma EscapeLink(l: Link)
    requires LinkSyntax(l)
    ensures Escape(LinkText(l)) == LinkText(Link(Escape(l.text), Escape(l.href)))
    ensures LinkSyntax(Link(Escape(l.text), Escape(l.href)))
  {
    EscapeTarget(l.href);
    EscapeLabel(l.text);
    assert Escape("[") == "[" && Escape("](") == "](" && Escape(")") == ")" by {
      EscapeIdentity("[");
      EscapeIdentity("](");
      EscapeIdentity(")");
    }
    EscapeConcat("[", l.text);
    EscapeConcat("[" + l.text, "](");
    EscapeConcat(l.href, ")");
    EscapeConcat(Opening(l.text), l.href + ")");
  }

  /** The label an escaped link shows is the escaped label of the link. */
  lemma ShownEscaped(l: Link)
    ensures Shown(Link(Escape(l.text), Escape(l.href))) == Escape(Shown(l))
  {
    EscapeStrip(l.text);
    EscapeSpec(Strip(l.text));
  }

  /** The template value holding a link's text is truthy and reads as it. */
  lemma LinkValue(l: Link, repr: Value -> string)
    ensures Truthy(Str(LinkText(l))) && StrOf(Str(LinkText(l)), repr) == LinkText(l)
  {
    assert LinkText(l)[0] == '[';
  }

  lemma RenderOne(p: Piece, again: bool)
    ensures RenderAll([p], again) == Render(p, again)
  {
    assert RenderAll([p], again) == Render(p, again) + RenderAll([], again);
  }

  /** The escaped text of a single link scans as that one link, escaped. */
  lemma ScanSingle(l: Link)
    requires LinkSyntax(l)
    ensures Scan(Escape(LinkText(l))) == [Anchor(Link(Escape(l.text), Escape(l.href)))]
  {
    var e := Link(Escape(l.text), Escape(l.href));
    EscapeLink(l);
    var t := LinkText(e);
    assert StartsWith(t, t);
    LinkAtComplete(t, e);
    assert t[|t|..] == [];
  }

  /** The text of a single link becomes exactly its anchor: the target and
      the label shown (the stripped label, or the target when the label is
      blank) each escaped once. */
  lemma SingleLink(l: Link, repr: Value -> string)
    requires LinkSyntax(l)
    ensures MarkdownLinks(Str(LinkText(l)), repr) == AnchorHtml(Escape(l.href), Escape(Shown(l)))
  {
    var e := Link(Escape(l.text), Escape(l.href));
    LinkValue(l, repr);
    ScanSingle(l);
    RenderOne(Anchor(e), false);
    ShownEscaped(l);
  }

  /** The same link as the filter is written: label and target come out
      escaped twice. */
  lemma SingleLinkAsWritten(l: Link, repr: Value -> string)
    requires LinkSyntax(l)
    ensures MarkdownLinksAsWritten(Str(LinkText(l)), repr) ==
      AnchorHtml(Escape(Escape(l.href)), Escape(Escape(Shown(l))))
  {
    var e := Link(Escape(l.text), Escape(l.href));
    LinkValue(l, repr);
    ScanSingle(l);
    RenderOne(Anchor(e), true);
    ShownEscaped(l);
  }

  lemma AmpEscapes()
    ensures Escape("&") == "&amp;" && Escape("&amp;") == "&amp;amp;"
  {
    assert Escape("&") == EscapeChar('&') + Escape([]);
    assert "&amp;" == "&" + "amp;";
    EscapeConcat("&", "amp;");
    EscapeIdentity("amp;");
  }

  lemma AmpLink()
    ensures LinkSyntax(Link("&", "http://x")) && Shown(Link("&", "http://x")) == "&"
    ensures Escape("http://x") == "http://x"
  {
    assert StartsWith("http://x", "http://") && AllHref("http://x"[7..]);
    StripUnchanged("&");
    EscapeIdentity("http://x");
  }

  /** `[&](http://x)`: the page shows the label as `&amp;` instead of `&`,
      because the anchor holds `&amp;amp;`. */
  lemma DoubleEscapeShown(repr: Value -> string)
    ensures var l := Link("&", "http://x");
      MarkdownLinksAsWritten(Str(LinkText(l)), repr) == AnchorHtml("http://x", "&amp;amp;") &&
      MarkdownLinks(Str(LinkText(l)), repr) == AnchorHtml("http://x", "&amp;") &&
      Unescape("&amp;amp;") == "&amp;" && Unescape("&amp;") == "&"
  {
    var l := Link("&", "http://x");
    AmpLink();
    AmpEscapes();
    SingleLinkAsWritten(l, repr);
    SingleLink(l, repr);
    EscapeUnescape("&");
    EscapeUnescape("&amp;");
  }
}

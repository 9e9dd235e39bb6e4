// The three URL normalisers of globe/schema_utils.py. Django's
// `request.build_absolute_uri` is a parameter; the media base URL is the
// GLOBESUGGEST_MEDIA_BASE setting, passed in.

module Urls {
  import opened PyValue

  /** The media base used when the setting is absent. */
  const DefaultMediaBase: string := "https://1matrix.io"

  /** `str(v).strip()` of a truthy value, "" for a falsy one. */
  function StrippedText(v: Value, repr: Value -> string): (t: string)
    ensures t != "" ==> Truthy(v)
  {
    if Truthy(v) then Strip(StrOf(v, repr)) else ""
  }

  /** `_absolute_site_url(request, v)` */
  function AbsoluteSiteUrl(buildAbsoluteUri: string -> string, v: Value, repr: Value -> string): (r: Option<string>)
    ensures r.None? <==> StrippedText(v, repr) == ""
    ensures r.Some? && IsAbsoluteHttp(StrippedText(v, repr)) ==> r.value == StrippedText(v, repr)
    ensures r.Some? && !IsAbsoluteHttp(StrippedText(v, repr)) ==> r.value == buildAbsoluteUri(StrippedText(v, repr))
  {
    if !Truthy(v) then None
    else
      var val := Strip(StrOf(v, repr));
      if val == "" then None
      else if IsAbsoluteHttp(val) then Some(val)
      else Some(buildAbsoluteUri(val))
  }

  /** `_absolute_media_url(v)` against the media base `base`. */
  function AbsoluteMediaUrl(base: string, v: Value, repr: Value -> string): (r: Option<string>)
    ensures r.None? <==> StrippedText(v, repr) == ""
    ensures r.Some? ==> r == ResolveMedia(base, StrippedText(v, repr)) && r.value != ""
  {
    if !Truthy(v) then None
    else
      var val := Strip(StrOf(v, repr));
      if val == "" then None
      else ResolveMedia(base, val)
  }

  /** The part of `_absolute_media_url` after the value is stripped and known
      to be non-empty: absolute URLs pass, anything else hangs off the base
      (trailing slashes removed) with exactly one slash between. */
  function ResolveMedia(base: string, val: string): (r: Option<string>)
    requires val != ""
    ensures r.Some? && r.value != ""
    ensures IsAbsoluteHttp(val) ==> r.value == val
    ensures !IsAbsoluteHttp(val) ==>
      r.value == RTrim(base, IsSlash) + "/" + (if val[0] == '/' then val[1..] else val)
  {
    if IsAbsoluteHttp(val) then Some(val)
    else
      var path := if StartsWith(val, "/") then val else "/" + val;
      assert StartsWith(val, "/") ==> val == "/" + val[1..];
      Some(RTrim(base, IsSlash) + path)
  }

  /** `_normalise_external_url(v)`: only absolute http(s) URLs survive. */
  function NormaliseExternalUrl(v: Value, repr: Value -> string): (r: Option<string>)
    ensures r.Some? <==> IsAbsoluteHttp(StrippedText(v, repr))
    ensures r.Some? ==> r.value == StrippedText(v, repr)
  {
    if !Truthy(v) then None
    else
      var val := Strip(StrOf(v, repr));
      if val == "" then None
      else if IsAbsoluteHttp(val) then Some(val)
      else None
  }

  lemma AbsolutePrefix(s: string, t: string)
    requires IsAbsoluteHttp(s)
    ensures IsAbsoluteHttp(s + t)
  {
    if StartsWith(s, "http://") {
      assert (s + t)[..7] == s[..7];
    } else {
      assert (s + t)[..8] == s[..8];
    }
  }

  /** With an absolute base, a resolved media URL is absolute and carries no
      surrounding whitespace. */
  lemma ResolvedMediaShape(base: string, val: string)
    requires val != "" && !IsSpace(val[|val| - 1])
    requires IsAbsoluteHttp(RTrim(base, IsSlash))
    ensures var u := ResolveMedia(base, val).value;
      IsAbsoluteHttp(u) && Strip(u) == u
  {
    var u := ResolveMedia(base, val).value;
    if IsAbsoluteHttp(val) {
      assert u[0] == 'h';
    } else {
      var b := RTrim(base, IsSlash);
      var rest := "/" + (if val[0] == '/' then val[1..] else val);
      AbsolutePrefix(b, rest);
      assert u == b + rest;
      assert u[|u| - 1] == val[|val| - 1];
      assert u[0] == b[0] == 'h';
    }
    StripUnchanged(u);
  }

  /** A stripped text does not end in whitespace. */
  lemma StrippedLast(s: string)
    ensures Strip(s) != [] ==> !IsSpace(Strip(s)[|Strip(s)| - 1])
  {
    StripSpec(s);
  }

  /** An absolute, stripped URL is its own media URL. */
  lemma MediaOfAbsolute(base: string, u: string, repr: Value -> string)
    requires IsAbsoluteHttp(u) && Strip(u) == u
    ensures AbsoluteMediaUrl(base, Str(u), repr) == Some(u)
  {
    assert StrOf(Str(u), repr) == u;
    assert u != "";
  }

  /** With an absolute base, a resolved media URL is absolute, carries no
      surrounding whitespace and resolves to itself. */
  lemma MediaUrlIdempotent(base: string, v: Value, repr: Value -> string)
    requires IsAbsoluteHttp(RTrim(base, IsSlash))
    requires AbsoluteMediaUrl(base, v, repr).Some?
    ensures var u := AbsoluteMediaUrl(base, v, repr).value;
      IsAbsoluteHttp(u) && Strip(u) == u && AbsoluteMediaUrl(base, Str(u), repr) == Some(u)
  {
    var val := StrippedText(v, repr);
    assert AbsoluteMediaUrl(base, v, repr) == ResolveMedia(base, val);
    StrippedLast(StrOf(v, repr));
    ResolvedMediaShape(base, val);
    MediaOfAbsolute(base, ResolveMedia(base, val).value, repr);
  }

  /** Re-normalising an accepted external URL leaves it as it is. */
  lemma ExternalUrlIdempotent(v: Value, repr: Value -> string)
    requires NormaliseExternalUrl(v, repr).Some?
    ensures NormaliseExternalUrl(Str(NormaliseExternalUrl(v, repr).value), repr) == NormaliseExternalUrl(v, repr)
  {
    StripSpec(StrOf(v, repr));
    StripIdempotent(StrOf(v, repr));
  }
}

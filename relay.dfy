// The analytics relay (`analytics_forward` in globe/views.py): an encrypted
// envelope from the browser is checked for its four keys and passed on,
// byte for byte, to the remote ingest service with the server's API key.
// The JSON decoder, the settings and the HTTP call are parameters.

module Relay {
  import opened PyValue

  /** The request body: bytes that are not UTF-8, or a text together with
      what `json.loads` makes of it (None when it is not JSON). */
  datatype Body = Undecodable | Text(text: string, parsed: Option<Value>)

  /** The settings the view reads; None stands for a setting that is not
      defined. */
  datatype Config = Config(remoteIngestUrl: Option<string>, ingestUrl: Option<string>, apiKey: string)

  /** What the POST to the remote service gives: a response status, an HTTP
      error status, an unreachable host, or any other failure. */
  datatype Sent = Status(code: int) | HttpError(code: int) | Unreachable | Failed

  type Header = (string, string)

  datatype Reply = Forwarded(upstreamStatus: int) | Rejected(status: int, reason: string)

  const EnvelopeKeys: seq<string> := ["alg", "key", "iv", "data"]

  /** `isinstance(parsed, dict) and all(k in parsed for k in ("alg", "key", "iv", "data"))` */
  predicate IsEnvelope(parsed: Value) {
    parsed.Obj? && forall k :: 0 <= k < |EnvelopeKeys| ==> EnvelopeKeys[k] in parsed.fields
  }

  /** The remote URL: the first setting that is defined, stripped. */
  function RemoteUrl(config: Config): string {
    Strip(
      if config.remoteIngestUrl.Some? then config.remoteIngestUrl.value
      else if config.ingestUrl.Some? then config.ingestUrl.value
      else "")
  }

  /** The request headers; the API key travels under two names when set. */
  function Headers(apiKey: string): (r: seq<Header>)
    ensures |r| >= 3 && r[..3] == [("Content-Type", "application/json"), ("Accept", "application/json"), ("Origin", "https://globesuggest.com")]
    ensures apiKey == "" ==> |r| == 3
    ensures apiKey != "" ==> r[3..] == [("X-Globesuggest-Api-Key", apiKey), ("X-GLOBE", apiKey)]
  {
    var base := [("Content-Type", "application/json"), ("Accept", "application/json"), ("Origin", "https://globesuggest.com")];
    if apiKey != "" then base + [("X-Globesuggest-Api-Key", apiKey), ("X-GLOBE", apiKey)] else base
  }

  /** `urllib.request.unwrap`: the URL stripped, one `<...>` wrapping and
      then one `URL:` prefix dropped, each followed by another strip. */
  function Unwrap(url: string): (r: string)
    ensures Strip(r) == r
    ensures (Strip(url) == url && !(|url| >= 2 && url[0] == '<' && url[|url| - 1] == '>') &&
             !(|url| >= 4 && url[..4] == "URL:")) ==> r == url
  {
    var u := Strip(url);
    StripIdempotent(url);
    var u1 :=
      if |u| >= 2 && u[0] == '<' && u[|u| - 1] == '>' then StripIdempotent(u[1..|u| - 1]); Strip(u[1..|u| - 1])
      else u;
    if |u1| >= 4 && u1[..4] == "URL:" then StripIdempotent(u1[4..]); Strip(u1[4..]) else u1
  }

  /** `_splittag`: the URL before its last `#`, the whole URL without one. */
  function CutFragment(u: string): (r: string)
    ensures |r| <= |u| && r == u[..|r|]
    ensures '#' !in u ==> r == u
    ensures '#' in u ==> |r| < |u| && u[|r|] == '#' && '#' !in u[|r| + 1..]
    decreases |u|
  {
    if '#' !in u then u
    else if u[|u| - 1] == '#' then u[..|u| - 1]
    else
      assert '#' in u[..|u| - 1] by {
        var k :| 0 <= k < |u| && u[k] == '#';
        assert u[..|u| - 1][k] == '#';
      }
      var r := CutFragment(u[..|u| - 1]);
      assert u[|r| + 1..] == u[..|u| - 1][|r| + 1..] + [u[|u| - 1]];
      r
  }

  /** The length of the longest prefix holding neither `/` nor `:`. */
  function SchemeLength(u: string): (n: nat)
    ensures n <= |u| && (n < |u| ==> u[n] == '/' || u[n] == ':')
    ensures forall k :: 0 <= k < n ==> u[k] != '/' && u[k] != ':'
  {
    if u == [] || u[0] == '/' || u[0] == ':' then 0
    else 1 + SchemeLength(u[1..])
  }

  /** `_splittype`'s pattern `([^/:]+):` matches at the start: a non-empty
      run free of `/` and `:`, ended by `:`. */
  predicate HasScheme(u: string) {
    0 < SchemeLength(u) < |u| && u[SchemeLength(u)] == ':'
  }

  /** `urllib.request.Request(url, ...)` accepts the URL: after unwrapping
      and cutting the fragment it has a scheme. Otherwise it raises
      `ValueError("unknown url type")` before anything is sent. */
  predicate UrlAccepted(url: string) {
    HasScheme(CutFragment(Unwrap(url)))
  }

  /** `analytics_forward(request)`; `send(url, headers, body)` is the POST.
      A reply is forwarded exactly when the body is an envelope, a URL with
      a scheme is configured and the remote service answers with a status;
      the request text goes out unchanged with the API-key headers and the
      remote status is reported. A 400 answers exactly a body that is text
      but not an envelope, a 502 only comes after the POST was attempted,
      and a configured URL without a scheme makes the outer handler answer
      500 `internal_error` before any POST. */
  function Forward(body: Body, config: Config, send: (string, seq<Header>, string) -> Sent): (reply: Reply)
    ensures reply.Forwarded? <==>
      (body.Text? && body.parsed.Some? && IsEnvelope(body.parsed.value) && RemoteUrl(config) != "" &&
       UrlAccepted(RemoteUrl(config)) &&
       (send(RemoteUrl(config), Headers(config.apiKey), body.text).Status? ||
        send(RemoteUrl(config), Headers(config.apiKey), body.text).HttpError?))
    ensures reply.Forwarded? ==> reply.upstreamStatus == send(RemoteUrl(config), Headers(config.apiKey), body.text).code
    ensures reply.Rejected? ==> reply.status in {400, 500, 502}
    ensures (reply.Rejected? && reply.status == 400) <==>
      (body.Text? && (body.parsed.None? || !IsEnvelope(body.parsed.value)))
    ensures reply.Rejected? && reply.status == 502 ==>
      body.Text? && RemoteUrl(config) != "" && UrlAccepted(RemoteUrl(config)) &&
      (send(RemoteUrl(config), Headers(config.apiKey), body.text).Unreachable? ||
       send(RemoteUrl(config), Headers(config.apiKey), body.text).Failed?)
    ensures reply == Rejected(500, "internal_error") <==>
      (body.Undecodable? ||
       (body.parsed.Some? && IsEnvelope(body.parsed.value) && RemoteUrl(config) != "" && !UrlAccepted(RemoteUrl(config))))
  {
    match body
    case Undecodable => Rejected(500, "internal_error")
    case Text(text, parsed) =>
      if parsed.None? then Rejected(400, "invalid_json")
      else if !IsEnvelope(parsed.value) then Rejected(400, "invalid_envelope")
      else
        var url := RemoteUrl(config);
        if url == "" then Rejected(500, "remote_url_not_configured")
        else if !UrlAccepted(url) then Rejected(500, "internal_error")
        else
          match send(url, Headers(config.apiKey), text)
          case Status(code) => Forwarded(code)
          case HttpError(code) => Forwarded(code)
          case Unreachable => Rejected(502, "upstream_unreachable")
          case Failed => Rejected(502, "upstream_error")
  }

  /** The envelope check: a JSON dict holding all four keys, whatever else
      it holds; a missing key is rejected with a 400 before anything is
      sent, whatever the settings and the remote service. */
  lemma EnvelopeChecked(text: string, parsed: Value, config: Config, send: (string, seq<Header>, string) -> Sent)
    ensures IsEnvelope(parsed) <==>
      (parsed.Obj? && "alg" in parsed.fields && "key" in parsed.fields && "iv" in parsed.fields && "data" in parsed.fields)
    ensures !IsEnvelope(parsed) ==> Forward(Text(text, Some(parsed)), config, send) == Rejected(400, "invalid_envelope")
  {
    if parsed.Obj? && "alg" in parsed.fields && "key" in parsed.fields && "iv" in parsed.fields && "data" in parsed.fields {
      assert forall k :: 0 <= k < |EnvelopeKeys| ==> EnvelopeKeys[k] in parsed.fields;
    }
    if IsEnvelope(parsed) {
      assert EnvelopeKeys[0] in parsed.fields && EnvelopeKeys[1] in parsed.fields;
      assert EnvelopeKeys[2] in parsed.fields && EnvelopeKeys[3] in parsed.fields;
    }
  }

  /** A defined remote-ingest setting wins over the older one, even when it
      is blank: the older setting then changes nothing the view does, and a
      blank newer one answers "remote_url_not_configured" without calling
      the remote service, whatever the older one says. */
  lemma RemoteUrlPrecedence(body: Body, config: Config, older: Option<string>,
                            send: (string, seq<Header>, string) -> Sent, send': (string, seq<Header>, string) -> Sent)
    requires config.remoteIngestUrl.Some?
    ensures Forward(body, config, send) == Forward(body, config.(ingestUrl := older), send)
    ensures Strip(config.remoteIngestUrl.value) == "" ==> Forward(body, config, send) == Forward(body, config, send')
    ensures Strip(config.remoteIngestUrl.value) == "" && body.Text? && body.parsed.Some? && IsEnvelope(body.parsed.value) ==>
      Forward(body, config, send) == Rejected(500, "remote_url_not_configured")
  {
  }

  /** A configured URL without a scheme is refused by the request
      constructor: whatever the remote service would do, the envelope is
      answered with 500 `internal_error` and nothing is sent. A bare host
      and path is such a URL; the same URL with `https://` is not. */
  lemma SchemelessNotSent(text: string, parsed: Value, config: Config,
                          send: (string, seq<Header>, string) -> Sent, send': (string, seq<Header>, string) -> Sent)
    requires IsEnvelope(parsed) && RemoteUrl(config) != "" && !UrlAccepted(RemoteUrl(config))
    ensures Forward(Text(text, Some(parsed)), config, send) == Rejected(500, "internal_error")
    ensures Forward(Text(text, Some(parsed)), config, send) == Forward(Text(text, Some(parsed)), config, send')
  {
  }

  /** A `/` before any `:` leaves the URL without a scheme. */
  lemma SlashFirst(u: string, p: nat)
    requires p < |u| && u[p] == '/' && forall k :: 0 <= k < p ==> u[k] != ':'
    ensures !HasScheme(u)
  {
  }

  /** A `:` after a non-empty run free of `/` and `:` ends the scheme. */
  lemma ColonFirst(u: string, p: nat)
    requires 0 < p < |u| && u[p] == ':' && forall k :: 0 <= k < p ==> u[k] != '/' && u[k] != ':'
    ensures HasScheme(u) && SchemeLength(u) == p
  {
  }

  /** A host and path with no `:` in the host, such as
      `ingest.example.com/api`, has no scheme. */
  lemma BareHostNoScheme(host: string, path: string)
    requires ':' !in host
    ensures !HasScheme(host + "/" + path)
  {
    var u := host + "/" + path;
    assert u[|host|] == '/';
    assert forall k :: 0 <= k < |host| ==> u[k] == host[k];
    SlashFirst(u, |host|);
  }

  /** A scheme free of `/` and `:` in front of `:`, such as `https` in
      `https://ingest.example.com/api`, is the scheme found. */
  lemma SchemeFound(scheme: string, rest: string)
    requires scheme != [] && '/' !in scheme && ':' !in scheme
    ensures HasScheme(scheme + ":" + rest) && SchemeLength(scheme + ":" + rest) == |scheme|
  {
    var u := scheme + ":" + rest;
    assert u[|scheme|] == ':';
    assert forall k :: 0 <= k < |scheme| ==> u[k] == scheme[k];
    ColonFirst(u, |scheme|);
  }

  /** For a stripped URL with no `<...>` wrapping, no `URL:` prefix and no
      `#`, the request constructor accepts it exactly when it has a scheme. */
  lemma PlainUrlAccepted(u: string)
    requires Strip(u) == u && '#' !in u
    requires !(|u| >= 2 && u[0] == '<' && u[|u| - 1] == '>') && !(|u| >= 4 && u[..4] == "URL:")
    ensures UrlAccepted(u) <==> HasScheme(u)
  {
  }
}

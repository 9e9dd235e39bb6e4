// Product identifier resolution in globe/views.py: deciding whether a URL
// segment is a product id (`_looks_like_product_id`), recovering a product id
// from an SEO slug through the upstream search (`_resolve_product_id_from_slug`)
// and the two-path lookup of `_fetch_product_by_identifier`. The upstream
// API, Django's `slugify` and `str()` of the values the model does not spell
// out are parameters.

module Resolver {
  import opened PyValue
  import opened Lists

  // ---------------------------------------------------------------------
  // `_UUID_LIKE_RE = ^[0-9a-fA-F\-]{20,64}$`

  predicate IsIdChar(c: char) {
    '0' <= c <= '9' || 'a' <= c <= 'f' || 'A' <= c <= 'F' || c == '-'
  }

  /** The pattern matches `v` with its repetition taking `n` characters; as in
      Python, `$` matches at the end or just before a final newline. */
  predicate MatchesWith(v: string, n: nat) {
    20 <= n <= 64 && n <= |v| && (forall k :: 0 <= k < n ==> IsIdChar(v[k])) &&
    (n == |v| || (n + 1 == |v| && v[n] == '\n'))
  }

  /** `re.match` succeeds for some length of the repetition. */
  ghost predicate RegexMatches(v: string) {
    exists n: nat :: MatchesWith(v, n)
  }

  /** `v` without one final newline. */
  function IdBody(v: string): (r: string)
    ensures |r| <= |v| && r == v[..|r|]
  {
    if v != "" && v[|v| - 1] == '\n' then v[..|v| - 1] else v
  }

  /** `_looks_like_product_id(value)`: an id-like text is 20 to 65
      characters long, the last one a newline when it is 65, and opens with
      twenty hex digits or dashes. */
  predicate LooksLikeProductId(v: string)
    ensures LooksLikeProductId(v) ==>
      20 <= |v| <= 65 && (|v| == 65 ==> v[64] == '\n') && forall k :: 0 <= k < 20 ==> IsIdChar(v[k])
  {
    v != "" && 20 <= |IdBody(v)| <= 64 && forall k :: 0 <= k < |IdBody(v)| ==> IsIdChar(IdBody(v)[k])
  }

  /** The computed test agrees with the regular expression: 20 to 64 hex
      digits and dashes, optionally followed by one newline. */
  lemma LooksLikeProductIdSpec(v: string)
    ensures LooksLikeProductId(v) <==> RegexMatches(v)
  {
    if LooksLikeProductId(v) {
      assert MatchesWith(v, |IdBody(v)|);
    }
    if RegexMatches(v) {
      var n: nat :| MatchesWith(v, n);
      if n == |v| {
        assert !IsIdChar('\n');
        assert IdBody(v) == v;
      } else {
        assert IdBody(v) == v[..n];
      }
    }
  }

  // ---------------------------------------------------------------------
  // The upstream API and framework helpers

  /** What one upstream call yields: a decoded JSON body, an HTTP error status,
      or any other failure (unreachable host, invalid JSON). */
  datatype Response = Body(json: Value) | HttpError(code: int) | Failed

  /** The outside world: the search and detail endpoints of the upstream
      API (keyed by the query and by the product id), Django's `slugify`, and
      `str()` of values other than None, booleans, integers and strings. */
  datatype Upstream = Upstream(
    search: string -> Response,
    detail: string -> Response,
    slugify: string -> string,
    repr: Value -> string)

  /** `slugify(s) or s` */
  function SlugOr(s: string, env: Upstream): (r: string)
    ensures r == "" <==> s == "" && env.slugify(s) == ""
  {
    if env.slugify(s) != "" then env.slugify(s) else s
  }

  /** The normalised slug of a search item. */
  function ItemSlug(item: map<string, Value>, env: Upstream): string {
    SlugOr(Strip(StrOf(Or(Or(Get(item, "product_slug"), Get(item, "slug")), Str("")), env.repr)), env)
  }

  /** The stripped product id of a search item. */
  function ItemId(item: map<string, Value>, env: Upstream): string {
    Strip(StrOf(Or(Or(Get(item, "product_id"), Get(item, "id")), Str("")), env.repr))
  }

  /** A search item whose normalised slug is the target and whose id is non-blank. */
  predicate Hit(item: Value, target: string, env: Upstream) {
    item.Obj? && ItemSlug(item.fields, env) != "" && ItemSlug(item.fields, env) == target &&
    ItemId(item.fields, env) != ""
  }

  // ---------------------------------------------------------------------
  // `_resolve_product_id_from_slug`

  /** `(slug or "").strip().strip("/")` */
  function NormaliseSlug(slug: string): (r: string)
    ensures r != "" ==> !IsSlash(r[0]) && !IsSlash(r[|r| - 1])
  {
    RTrim(LTrim(Strip(slug), IsSlash), IsSlash)
  }

  /** The query shapes tried in turn: the slug, its hyphen-to-space form when
      different, its first two words when it has two, and its first word. */
  function Candidates(slug: string): (r: seq<string>)
    ensures 1 <= |r| <= 4 && r[0] == slug
  {
    var spaced := ReplaceChar(slug, '-', ' ');
    var words := Words(spaced);
    [slug] + (if spaced != slug then [spaced] else []) +
    (if |words| >= 2 then [words[0] + " " + words[1]] else []) +
    (if words != [] then [words[0]] else [])
  }

  /** The order of the queries: the slug first; then, when replacing its
      hyphens changes it, the hyphen-free spaced form; then the first two
      words when there are two; last the first word whenever there is one. */
  lemma CandidatesSpec(slug: string)
    ensures var r, spaced := Candidates(slug), ReplaceChar(slug, '-', ' ');
      var words := Words(spaced);
      |r| == 1 + (if spaced != slug then 1 else 0) + (if |words| >= 2 then 1 else 0) + (if words != [] then 1 else 0) &&
      r[0] == slug &&
      (spaced != slug ==> r[1] == spaced && '-' !in r[1]) &&
      (|words| >= 2 ==> r[|r| - 2] == words[0] + " " + words[1]) &&
      (words != [] ==> r[|r| - 1] == words[0] && IsWord(r[|r| - 1]))
  {
    var spaced := ReplaceChar(slug, '-', ' ');
    assert forall k :: 0 <= k < |spaced| ==> spaced[k] != '-';
  }

  /** The outcome of the resolution, and of each query within it: a product
      id, nothing (move on to the next query), or an exception raised by `.get`
      on a response that is not a dict. */
  datatype Resolution = NoId | Resolved(id: string) | Raised

  function HitsTarget(target: string, env: Upstream): Value -> bool {
    (item: Value) => Hit(item, target, env)
  }

  /** The id of the first item that hits the target. */
  function FirstHit(items: seq<Value>, target: string, env: Upstream): (r: Option<string>)
    ensures r.Some? <==> exists i :: 0 <= i < |items| && Hit(items[i], target, env)
    ensures r.Some? ==>
      exists i :: 0 <= i < |items| && Hit(items[i], target, env) && r.value == ItemId(items[i].fields, env) &&
        forall j :: 0 <= j < i ==> !Hit(items[j], target, env)
  {
    var i := FirstWhere(items, HitsTarget(target, env));
    if i < |items| then Some(ItemId(items[i].fields, env)) else None
  }

  /** The items of a search response: `data`, else `results`, else nothing. */
  function ResponseItems(json: map<string, Value>): Value {
    Or(Or(Get(json, "data"), Get(json, "results")), Arr([]))
  }

  /** One query's response: the first hit, else the id of a lone item. It
      raises exactly on a body that is not a dict; a picked id is non-blank
      and belongs either to an item that hits the target, the first such, or
      to the only item of the response. */
  function PickFrom(resp: Response, target: string, env: Upstream): (r: Resolution)
    ensures r.Raised? <==> resp.Body? && !resp.json.Obj?
    ensures r.Resolved? ==> (r.id != "" && resp.Body? && resp.json.Obj? &&
        var items := ResponseItems(resp.json.fields);
        items.Arr? &&
        ((exists i :: 0 <= i < |items.items| && Hit(items.items[i], target, env) && r.id == ItemId(items.items[i].fields, env) &&
            forall j :: 0 <= j < i ==> !Hit(items.items[j], target, env)) ||
         (|items.items| == 1 && items.items[0].Obj? && r.id == ItemId(items.items[0].fields, env))))
  {
    if !resp.Body? then NoId
    else if !resp.json.Obj? then Raised
    else
      var items := ResponseItems(resp.json.fields);
      if !items.Arr? then NoId
      else match FirstHit(items.items, target, env)
        case Some(pid) => Resolved(pid)
        case None =>
          if |items.items| == 1 && items.items[0].Obj? && ItemId(items.items[0].fields, env) != "" then
            Resolved(ItemId(items.items[0].fields, env))
          else NoId
  }

  /** The candidates from the first on, with the queries already sent. */
  function ResolveRest(cands: seq<string>, seen: set<string>, target: string, env: Upstream): Resolution
    decreases |cands|
  {
    if cands == [] then NoId
    else
      var q := Strip(cands[0]);
      if q == "" || q in seen then ResolveRest(cands[1..], seen, target, env)
      else match PickFrom(env.search(q), target, env)
        case NoId => ResolveRest(cands[1..], seen + {q}, target, env)
        case r => r
  }

  /** The slug normalised by Django's `slugify` when that leaves anything. */
  function Target(slug: string, env: Upstream): string {
    SlugOr(slug, env)
  }

  /** `_resolve_product_id_from_slug(slug)`: nothing for a blank slug; a
      resolved id is non-blank and was given by the response to one of the
      distinct queries the slug yields. */
  function ResolveProductId(slug: string, env: Upstream): (r: Resolution)
    ensures NormaliseSlug(slug) == "" ==> r == NoId
    ensures var s := NormaliseSlug(slug);
      r.Resolved? ==>
        s != "" && r.id != "" &&
        var qs := Issued(Candidates(s), {});
        NoDuplicates(qs) && exists k :: 0 <= k < |qs| && PickFrom(env.search(qs[k]), Target(s, env), env) == r
  {
    var s := NormaliseSlug(slug);
    if s == "" then NoId
    else
      var target, qs := Target(s, env), Issued(Candidates(s), {});
      ResolveRestIsFirstAnswer(Candidates(s), {}, target, env);
      IssuedSpec(Candidates(s), {});
      if FirstAnswer(qs, target, env).Resolved? then
        FirstAnswerResolved(qs, target, env);
        ResolveRest(Candidates(s), {}, target, env)
      else ResolveRest(Candidates(s), {}, target, env)
  }

  /** The queries sent when none of them settles the resolution. */
  function Issued(cands: seq<string>, seen: set<string>): seq<string>
    decreases |cands|
  {
    if cands == [] then []
    else
      var q := Strip(cands[0]);
      if q == "" || q in seen then Issued(cands[1..], seen)
      else [q] + Issued(cands[1..], seen + {q})
  }

  /** The queries sent are non-blank stripped candidates, never one already
      sent, and never the same twice. */
  lemma {:induction false} IssuedSpec(cands: seq<string>, seen: set<string>)
    ensures var qs := Issued(cands, seen);
      NoDuplicates(qs) &&
      forall k :: 0 <= k < |qs| ==> qs[k] != "" && qs[k] !in seen && exists j :: 0 <= j < |cands| && qs[k] == Strip(cands[j])
  {
    if cands != [] {
      var q := Strip(cands[0]);
      var rest := cands[1..];
      assert forall j :: 0 <= j < |rest| ==> rest[j] == cands[j + 1];
      if q == "" || q in seen {
        IssuedSpec(rest, seen);
      } else {
        IssuedSpec(rest, seen + {q});
        var qs := Issued(cands, seen);
        assert qs == [q] + Issued(rest, seen + {q});
        assert qs[0] == Strip(cands[0]);
      }
    }
  }

  /** The answer of the first query that settles the resolution. */
  function FirstAnswer(qs: seq<string>, target: string, env: Upstream): Resolution {
    if qs == [] then NoId
    else match PickFrom(env.search(qs[0]), target, env)
      case NoId => FirstAnswer(qs[1..], target, env)
      case r => r
  }

  /** The loop over candidates with its `seen_queries` set is the first
      answer among the distinct queries it issues. */
  lemma {:induction false} ResolveRestIsFirstAnswer(cands: seq<string>, seen: set<string>, target: string, env: Upstream)
    ensures ResolveRest(cands, seen, target, env) == FirstAnswer(Issued(cands, seen), target, env)
    decreases |cands|
  {
    if cands != [] {
      var q := Strip(cands[0]);
      if q == "" || q in seen {
        ResolveRestIsFirstAnswer(cands[1..], seen, target, env);
      } else {
        ResolveRestIsFirstAnswer(cands[1..], seen + {q}, target, env);
        assert Issued(cands, seen)[1..] == Issued(cands[1..], seen + {q});
      }
    }
  }

  /** An answer settles on a non-blank id that a query's response gave. */
  lemma {:induction false} FirstAnswerResolved(qs: seq<string>, target: string, env: Upstream)
    requires FirstAnswer(qs, target, env).Resolved?
    ensures FirstAnswer(qs, target, env).id != ""
    ensures exists k :: 0 <= k < |qs| && PickFrom(env.search(qs[k]), target, env) == FirstAnswer(qs, target, env)
  {
    if PickFrom(env.search(qs[0]), target, env).NoId? {
      FirstAnswerResolved(qs[1..], target, env);
      var k :| 0 <= k < |qs[1..]| && PickFrom(env.search(qs[1..][k]), target, env) == FirstAnswer(qs[1..], target, env);
      assert qs[1..][k] == qs[k + 1];
    }
  }

  /** The loop over the items of one response. */
  method ScanItems(items: seq<Value>, target: string, env: Upstream) returns (pid: Option<string>)
    ensures pid == FirstHit(items, target, env)
  {
    for i := 0 to |items|
      invariant FirstWhere(items, HitsTarget(target, env)) >= i
    {
      var item := items[i];
      if !item.Obj? {
        continue;
      }
      var itemSlug := ItemSlug(item.fields, env);
      if itemSlug == "" || itemSlug != target {
        continue;
      }
      var id := ItemId(item.fields, env);
      if id != "" {
        assert HitsTarget(target, env)(item);
        return Some(id);
      }
    }
    return None;
  }

  /** One query of the loop: the search call and the scan of its response. */
  method Query(q: string, target: string, env: Upstream) returns (r: Resolution)
    ensures r == PickFrom(env.search(q), target, env)
  {
    var resp := env.search(q);
    if !resp.Body? {
      return NoId;
    }
    if !resp.json.Obj? {
      return Raised;
    }
    var items := ResponseItems(resp.json.fields);
    if !items.Arr? {
      return NoId;
    }
    var hit := ScanItems(items.items, target, env);
    if hit.Some? {
      return Resolved(hit.value);
    }
    if |items.items| == 1 && items.items[0].Obj? {
      var pid := ItemId(items.items[0].fields, env);
      if pid != "" {
        return Resolved(pid);
      }
    }
    return NoId;
  }

  /** The loop over the candidate queries, with its `seen_queries` set. */
  method ResolveCandidates(candidates: seq<string>, target: string, env: Upstream) returns (r: Resolution)
    ensures r == ResolveRest(candidates, {}, target, env)
  {
    var seen: set<string> := {};
    for i := 0 to |candidates|
      invariant ResolveRest(candidates, {}, target, env) == ResolveRest(candidates[i..], seen, target, env)
    {
      assert candidates[i..][1..] == candidates[i + 1..];
      var q := Strip(candidates[i]);
      if q == "" || q in seen {
        continue;
      }
      seen := seen + {q};
      r := Query(q, target, env);
      if !r.NoId? {
        return;
      }
    }
    assert candidates[|candidates|..] == [];
    return NoId;
  }

  /** `_resolve_product_id_from_slug(slug)` */
  method ResolveProductIdLoop(slug: string, env: Upstream) returns (r: Resolution)
    ensures r == ResolveProductId(slug, env)
  {
    var s := NormaliseSlug(slug);
    if s == "" {
      return NoId;
    }
    r := ResolveCandidates(Candidates(s), Target(s, env), env);
  }

  // ---------------------------------------------------------------------
  // `_fetch_product_by_identifier`

  /** The lookup's outcome: the product, an `Http404("Product not found")`,
      an `Http404("Unable to load product at this time")`, or the exception
      of a non-dict search response, which is not caught. */
  datatype Fetched = Found(product: Value) | NotFound | Unavailable | Crashed

  /** `upstream.get("data") or upstream`, inside the `try` whose generic
      handler turns the error of a non-dict body into "unable to load". */
  function ProductBody(u: Value): (r: Fetched)
    ensures r.Found? <==> u.Obj?
  {
    if u.Obj? then Found(Or(Get(u.fields, "data"), u)) else Unavailable
  }

  /** `_fetch_product_by_identifier(identifier)`: a blank identifier is not
      found, and a product is only ever a dict body of the detail endpoint. */
  function FetchProduct(identifier: string, env: Upstream): (r: Fetched)
    ensures Strip(identifier) == "" ==> r == NotFound
    ensures r.Found? ==> (exists key :: (env.detail(key).Body? && env.detail(key).json.Obj? &&
      r.product == Or(Get(env.detail(key).json.fields, "data"), env.detail(key).json)))
  {
    var id := Strip(identifier);
    if id == "" then NotFound
    else
      var direct := env.detail(id);
      if LooksLikeProductId(id) && !(direct.HttpError? && direct.code == 404) then
        if direct.Body? then ProductBody(direct.json) else Unavailable
      else BySlug(id, env)
  }

  /** The second path: resolve the identifier as a slug, then look the id up. */
  function BySlug(id: string, env: Upstream): Fetched {
    AfterResolve(ResolveProductId(id, env), env)
  }

  /** The lookup that follows the resolution of a slug. */
  function AfterResolve(res: Resolution, env: Upstream): Fetched {
    match res
    case Raised => Crashed
    case NoId => NotFound
    case Resolved(pid) =>
      var resp := env.detail(pid);
      if resp.Body? then ProductBody(resp.json)
      else if resp.HttpError? && resp.code == 404 then NotFound
      else Unavailable
  }

  /** An id-like identifier is looked up directly; only a 404 sends it on to
      the slug path. */
  lemma FetchDirect(identifier: string, env: Upstream)
    requires var id := Strip(identifier);
      id != "" && LooksLikeProductId(id) && !(env.detail(id).HttpError? && env.detail(id).code == 404)
    ensures var direct := env.detail(Strip(identifier));
      FetchProduct(identifier, env) == (if direct.Body? then ProductBody(direct.json) else Unavailable)
  {
  }

  /** Any other identifier, and an id-like one that gave a 404, takes the
      slug path. */
  lemma FetchRoutesBySlug(identifier: string, env: Upstream)
    requires var id := Strip(identifier);
      id != "" && (!LooksLikeProductId(id) || env.detail(id) == HttpError(404))
    ensures FetchProduct(identifier, env) == BySlug(Strip(identifier), env)
  {
  }

  /** On the slug path, "not found" means the slug did not resolve or the
      resolved id gave a 404, and only a non-dict search response escapes
      as an exception. */
  lemma AfterResolveSpec(res: Resolution, env: Upstream)
    ensures AfterResolve(res, env) == NotFound <==> res.NoId? || (res.Resolved? && env.detail(res.id) == HttpError(404))
    ensures AfterResolve(res, env) == Crashed <==> res.Raised?
  {
  }
}

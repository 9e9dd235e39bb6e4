// The search-suggest endpoint (`api_search_suggest` in globe/views.py): the
// query is cleaned and cut, the upstream product search is called, and its
// items are shaped into at most six suggestions for the home page. The
// upstream call and `slugify` are parameters.

module Suggest {
  import opened PyValue
  import opened Lists

  /** What the upstream call gives back: the decoded JSON, an HTTP error
      status, an unreachable host, or any other failure. */
  datatype Upstream = Json(body: Value) | HttpError(code: int) | Unreachable | Failed

  /** The outside world: the search call on a query, `slugify`, and `str()`
      of the values whose text is not modelled. */
  datatype Env = Env(search: string -> Upstream, slugify: string -> string, repr: Value -> string)

  /** One suggestion in the shape the home page's script reads. */
  datatype Suggestion = Suggestion(id: Value, slug: string, title: Value, country: Value, image: Value)

  /** The JSON answer, or an exception that escapes the view. */
  datatype Answer = Answer(results: seq<Suggestion>, error: Option<string>, status: int) | Crashed

  const MaxResults: nat := 6
  const MaxQuery: nat := 120

  /** The query that reaches the search: the stripped text, cut to 120
      characters; none when it is shorter than two characters. */
  function SearchQuery(q: string): (r: Option<string>)
    ensures r.None? <==> |Strip(q)| < 2
    ensures r.Some? ==> 2 <= |r.value| <= MaxQuery && StartsWith(Strip(q), r.value)
    ensures r.Some? && |Strip(q)| <= MaxQuery ==> r.value == Strip(q)
  {
    var t := Strip(q);
    if |t| < 2 then None else Some(Take(t, MaxQuery))
  }

  /** `str(v or "").strip()` */
  function CleanText(v: Value, env: Env): string {
    Strip(StrOf(Or(v, Str("")), env.repr))
  }

  /** The suggestion's slug: the item's own slug when it has one, else the
      slugified name followed by `-` and the product id when there is one. */
  function SlugOf(item: map<string, Value>, name: Value, env: Env): string {
    var rawSlug := Or(Or(Get(item, "product_slug"), Get(item, "slug")), Str(""));
    if Truthy(rawSlug) then Strip(StrOf(rawSlug, env.repr))
    else
      var pid := CleanText(Get(item, "product_id"), env);
      var base := env.slugify(StrOf(name, env.repr));
      if pid != "" then base + "-" + pid else base
  }

  /** One upstream item shaped, or nothing when it has no name or no slug. */
  function ShapeItem(item: map<string, Value>, env: Env): (r: Option<Suggestion>)
    ensures r.Some? ==> r.value.slug != "" && Truthy(r.value.title)
  {
    var name := Or(Or(Or(Get(item, "product_name"), Get(item, "product_title")), Get(item, "name")), Str(""));
    if !Truthy(name) then None
    else
      var slug := SlugOf(item, name, env);
      if slug == "" then None
      else Some(Suggestion(
        Get(item, "product_id"),
        slug,
        name,
        Or(Get(item, "country"), Str("")),
        Or(Or(Get(item, "image"), Get(item, "image_url")), Str(""))))
  }

  /** A suggestion is one the shaping can produce. */
  predicate WellFormed(s: Suggestion) {
    s.slug != "" && Truthy(s.title)
  }

  /** The loop over the items from `acc` on: a non-dict item raises, and the
      loop stops as soon as six suggestions are collected. */
  function ShapeFrom(items: seq<Value>, acc: seq<Suggestion>, env: Env): (r: Option<seq<Suggestion>>)
    requires |acc| < MaxResults
    ensures r.Some? ==> |r.value| <= MaxResults && acc <= r.value
    ensures r.Some? ==> forall k :: |acc| <= k < |r.value| ==> WellFormed(r.value[k])
    decreases |items|
  {
    if items == [] then Some(acc)
    else if !items[0].Obj? then None
    else
      var acc' := acc + Kept(ShapeItem(items[0].fields, env));
      if |acc'| >= MaxResults then Some(acc') else ShapeFrom(items[1..], acc', env)
  }

  /** The shaping of a whole item list. */
  function Shape(items: seq<Value>, env: Env): (r: Option<seq<Suggestion>>)
    ensures r.Some? ==> |r.value| <= MaxResults && forall k :: 0 <= k < |r.value| ==> WellFormed(r.value[k])
  {
    ShapeFrom(items, [], env)
  }

  /** `upstream.get("data") or upstream.get("results") or []`, walked by the
      loop: a list's items; any other truthy value raises (a string or dict
      yields texts that have no `.get`, a number is not iterable). */
  function RawItems(body: map<string, Value>): Option<seq<Value>> {
    var raw := Or(Or(Get(body, "data"), Get(body, "results")), Arr([]));
    if raw.Arr? then Some(raw.items) else None
  }

  /** `api_search_suggest(request)` on the `q` parameter (absent reads as "").
      Every answer with results came from a successful search: at most six
      suggestions, each with a non-empty slug and a truthy title. */
  function SearchSuggest(q: string, env: Env): (a: Answer)
    ensures a.Answer? ==> |a.results| <= MaxResults && (forall k :: 0 <= k < |a.results| ==> WellFormed(a.results[k]))
    ensures a.Answer? && a.results != [] ==> SearchQuery(q).Some? && env.search(SearchQuery(q).value).Json?
  {
    match SearchQuery(q)
    case None => Answer([], None, 200)
    case Some(query) =>
      match env.search(query)
      case HttpError(code) => Answer([], Some("Upstream search error (status " + IntToDecimal(code) + ")."), code)
      case Unreachable => Answer([], Some("Unable to reach product search service."), 502)
      case Failed => Answer([], Some("Unexpected error calling search service."), 502)
      case Json(body) =>
        if !body.Obj? then Crashed
        else
          match RawItems(body.fields)
          case None => Crashed
          case Some(items) =>
            match Shape(items, env)
            case None => Crashed
            case Some(results) => Answer(results, None, 200)
  }

  /** The item shaped as a suggestion, or nothing (a non-dict item raises in
      the loop before this is asked). */
  function SuggestionOf(env: Env): Value -> Option<Suggestion> {
    (v: Value) => if v.Obj? then ShapeItem(v.fields, env) else None
  }

  // ---------------------------------------------------------------------
  // Properties

  /** A query shorter than two characters is answered with no results and
      without calling the search, whatever it would answer. */
  lemma ShortQueryOffline(q: string, env: Env, other: Env)
    requires |Strip(q)| < 2
    ensures SearchSuggest(q, env) == SearchSuggest(q, other) == Answer([], None, 200)
  {
  }

  /** When every item is a dict, the suggestions are the first six of the
      shaped items, in the upstream order. */
  lemma {:induction false} ShapeFromAllDicts(items: seq<Value>, acc: seq<Suggestion>, env: Env)
    requires |acc| < MaxResults
    requires forall i :: 0 <= i < |items| ==> items[i].Obj?
    ensures ShapeFrom(items, acc, env) == Some(Take(acc + FilterMap(items, SuggestionOf(env)), MaxResults))
    decreases |items|
  {
    if items == [] {
      assert acc + FilterMap(items, SuggestionOf(env)) == acc;
    } else {
      var acc' := acc + Kept(ShapeItem(items[0].fields, env));
      if |acc'| < MaxResults {
        ShapeFromAllDicts(items[1..], acc', env);
      }
      ShapeStep(items, acc, env);
    }
  }

  /** One dict item: the loop from it on is the item's suggestion, if any,
      followed by the loop over the rest, cut at six. */
  lemma ShapeStep(items: seq<Value>, acc: seq<Suggestion>, env: Env)
    requires |acc| < MaxResults && items != [] && items[0].Obj?
    requires var acc' := acc + Kept(ShapeItem(items[0].fields, env));
      |acc'| < MaxResults ==>
        ShapeFrom(items[1..], acc', env) == Some(Take(acc' + FilterMap(items[1..], SuggestionOf(env)), MaxResults))
    ensures ShapeFrom(items, acc, env) == Some(Take(acc + FilterMap(items, SuggestionOf(env)), MaxResults))
  {
    var acc' := acc + Kept(ShapeItem(items[0].fields, env));
    ShapeHead(items, acc, env);
    if |acc'| >= MaxResults {
      TakeWhole(acc', FilterMap(items[1..], SuggestionOf(env)), MaxResults);
    }
  }

  /** The shaped items seen from the front. */
  lemma ShapeHead(items: seq<Value>, acc: seq<Suggestion>, env: Env)
    requires items != [] && items[0].Obj?
    ensures acc + FilterMap(items, SuggestionOf(env)) ==
      (acc + Kept(ShapeItem(items[0].fields, env))) + FilterMap(items[1..], SuggestionOf(env))
  {
    var f := SuggestionOf(env);
    var head, rest := Kept(ShapeItem(items[0].fields, env)), FilterMap(items[1..], f);
    assert f(items[0]) == ShapeItem(items[0].fields, env);
    FilterMapCons(items, f);
    assert FilterMap(items, f) == head + rest;
    assert acc + (head + rest) == (acc + head) + rest;
  }

  lemma TakeWhole<T>(a: seq<T>, b: seq<T>, n: nat)
    requires |a| == n
    ensures Take(a + b, n) == a
  {
    assert (a + b)[..n] == a;
  }

  /** The loop raises only on a non-dict item. */
  lemma {:induction false} ShapeFromCrash(items: seq<Value>, acc: seq<Suggestion>, env: Env)
    requires |acc| < MaxResults
    ensures ShapeFrom(items, acc, env).None? ==> exists i :: 0 <= i < |items| && !items[i].Obj?
    decreases |items|
  {
    if items != [] && items[0].Obj? {
      var acc' := acc + Kept(ShapeItem(items[0].fields, env));
      if |acc'| < MaxResults {
        ShapeFromCrash(items[1..], acc', env);
        if ShapeFrom(items, acc, env).None? {
          var i :| 0 <= i < |items[1..]| && !items[1..][i].Obj?;
          assert !items[i + 1].Obj?;
        }
      }
    }
  }

  /** The fallback slug: an item's own slug wins, and then the name plays no
      part; otherwise the slug is built from the slugified name, and the
      product id, when non-blank, can be read back from its tail after a
      `-`. */
  lemma SlugFallback(item: map<string, Value>, name: Value, name': Value, env: Env)
    ensures var rawSlug := Or(Or(Get(item, "product_slug"), Get(item, "slug")), Str(""));
      Truthy(rawSlug) ==> SlugOf(item, name, env) == SlugOf(item, name', env) &&
                          SlugOf(item, name, env) == Strip(SlugOf(item, name, env))
    ensures var rawSlug, pid := Or(Or(Get(item, "product_slug"), Get(item, "slug")), Str("")),
                                CleanText(Get(item, "product_id"), env);
      var slug, base := SlugOf(item, name, env), env.slugify(StrOf(name, env.repr));
      !Truthy(rawSlug) ==>
        StartsWith(slug, base) &&
        (pid != "" ==> |slug| == |base| + 1 + |pid| && slug[|base|] == '-' && slug[|base| + 1..] == pid) &&
        (pid == "" ==> slug == base)
  {
    var rawSlug := Or(Or(Get(item, "product_slug"), Get(item, "slug")), Str(""));
    if Truthy(rawSlug) {
      StripIdempotent(StrOf(rawSlug, env.repr));
    } else {
      var slug, base := SlugOf(item, name, env), env.slugify(StrOf(name, env.repr));
      var pid := CleanText(Get(item, "product_id"), env);
      if pid != "" {
        assert slug == base + "-" + pid;
        assert slug[..|base|] == base;
      } else {
        assert slug[..|base|] == base;
      }
    }
  }

  // ---------------------------------------------------------------------
  // The loop

  /** The shaping loop of `api_search_suggest`. */
  method ShapeLoop(items: seq<Value>, env: Env) returns (r: Option<seq<Suggestion>>)
    ensures r == Shape(items, env)
  {
    var results: seq<Suggestion> := [];
    var i := 0;
    while i < |items|
      invariant 0 <= i <= |items| && |results| < MaxResults
      invariant ShapeFrom(items, [], env) == ShapeFrom(items[i..], results, env)
    {
      assert items[i..][1..] == items[i + 1..];
      var item := items[i];
      if !item.Obj? {
        return None;
      }
      var shaped := ShapeItem(item.fields, env);
      if shaped.Some? {
        results := results + [shaped.value];
        if |results| >= MaxResults {
          return Some(results);
        }
      } else {
        assert results + Kept(shaped) == results;
      }
      i := i + 1;
    }
    return Some(results);
  }
}

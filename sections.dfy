// The optional sections of the product schema (globe/schema_utils.py):
// FAQPage, HowTo, BlogPosting, AggregateRating with its reviews, and the
// seller Organization. Django's URL reversing and `build_absolute_uri` are
// parameters.

module Sections {
  import opened PyValue
  import opened Lists
  import opened Urls
  import opened Graph

  type Record = map<string, Value>

  /** A collection under `key` when `product.get(key) or []` is a list. */
  function ListAt(p: Record, key: string): Option<seq<Value>> {
    var raw := Or(Get(p, key), Arr([]));
    if raw.Arr? then Some(raw.items) else None
  }

  function ItemsAt(p: Record, key: string): seq<Value> {
    match ListAt(p, key)
    case Some(items) => items
    case None => []
  }

  /** `(v or "").strip()` */
  function StrippedOr(v: Value): string
    requires StrOrFalsy(v)
  {
    Strip(TextOr(v))
  }

  // ---------------------------------------------------------------------
  // FAQPage

  predicate FaqItemShaped(item: Value) {
    item.Obj? ==> StrOrFalsy(Get(item.fields, "question")) && StrOrFalsy(Get(item.fields, "answer"))
  }

  predicate FaqShaped(p: Record) {
    forall i :: 0 <= i < |ItemsAt(p, "faqs_formatted")| ==> FaqItemShaped(ItemsAt(p, "faqs_formatted")[i])
  }

  /** One FAQ entry: kept only when both the question and the answer are non-blank. */
  function FaqEntry(item: Value): (r: Option<Question>)
    requires FaqItemShaped(item)
    ensures r.Some? <==>
      item.Obj? && StrippedOr(Get(item.fields, "question")) != "" && StrippedOr(Get(item.fields, "answer")) != ""
  {
    if !item.Obj? then None
    else
      var q := StrippedOr(Get(item.fields, "question"));
      var a := StrippedOr(Get(item.fields, "answer"));
      if q == "" || a == "" then None
      else Some(Question(q, a))
  }

  /** `_build_faq_schema(page_url, product)` */
  function FaqSchema(page: string, p: Record): (r: Option<Node>)
    requires FaqShaped(p)
    ensures r.Some? ==> r.value.FAQPage? && r.value.id == page + "#faqs"
  {
    var entities := FilterMap(ItemsAt(p, "faqs_formatted"), FaqEntry);
    if entities == [] then None else Some(FAQPage(page + "#faqs", entities))
  }

  /** The FAQ node exists exactly when some entry has a non-blank question and answer. */
  lemma FaqSchemaPresent(page: string, p: Record)
    requires FaqShaped(p)
    ensures var items := ItemsAt(p, "faqs_formatted");
      FaqSchema(page, p).Some? <==> exists i :: 0 <= i < |items| && FaqEntry(items[i]).Some?
  {
    FilterMapEmpty(ItemsAt(p, "faqs_formatted"), FaqEntry);
  }

  predicate CleanQuestion(q: Question) {
    q.name != "" && q.answerText != "" && Strip(q.name) == q.name && Strip(q.answerText) == q.answerText
  }

  /** Every question the FAQ node lists is non-blank on both sides and already stripped. */
  lemma FaqQuestionsClean(page: string, p: Record)
    requires FaqShaped(p)
    ensures var r := FaqSchema(page, p);
      r.Some? ==> r.value.id == page + "#faqs" &&
                  forall k :: 0 <= k < |r.value.mainEntity| ==> CleanQuestion(r.value.mainEntity[k])
  {
    var items := ItemsAt(p, "faqs_formatted");
    forall i | 0 <= i < |items| && FaqEntry(items[i]).Some?
      ensures CleanQuestion(FaqEntry(items[i]).value)
    {
      StripIdempotent(TextOr(Get(items[i].fields, "question")));
      StripIdempotent(TextOr(Get(items[i].fields, "answer")));
    }
    FilterMapAll(items, FaqEntry, CleanQuestion);
  }

  method BuildFaqSchema(page: string, p: Record) returns (r: Option<Node>)
    requires FaqShaped(p)
    ensures r == FaqSchema(page, p)
  {
    var faqs := Or(Get(p, "faqs_formatted"), Arr([]));
    if !faqs.Arr? || faqs.items == [] {
      return None;
    }
    assert faqs.items == ItemsAt(p, "faqs_formatted");
    var entities := Collect(faqs.items, FaqEntry);
    if entities == [] {
      return None;
    }
    r := Some(FAQPage(page + "#faqs", entities));
  }

  // ---------------------------------------------------------------------
  // HowTo (import steps)

  const HowToDescription: string :=
    "Step-by-step guidance for importing this product, based on trade documentation and logistics information."

  predicate HowToItemShaped(step: Value) {
    step.Obj? ==> StrOrFalsy(Get(step.fields, "title")) && StrOrFalsy(Get(step.fields, "description"))
  }

  predicate HowToShaped(p: Record) {
    forall i :: 0 <= i < |ItemsAt(p, "how_to_import_steps")| ==>
      HowToItemShaped(ItemsAt(p, "how_to_import_steps")[i])
  }

  /** One enumerated step: kept when its description is non-blank; an unset
      title becomes "Step <idx>". */
  function HowToStepOf(entry: (int, Value)): (r: Option<HowToStep>)
    requires HowToItemShaped(entry.1)
    ensures r.Some? <==> entry.1.Obj? && StrippedOr(Get(entry.1.fields, "description")) != ""
    ensures r.Some? ==> r.value.position == entry.0
  {
    var (idx, step) := entry;
    if !step.Obj? then None
    else
      var title := Get(step.fields, "title");
      var name := Strip(if Truthy(title) then title.s else "Step " + IntToDecimal(idx));
      var desc := StrippedOr(Get(step.fields, "description"));
      if desc == "" then None
      else Some(HowToStep(idx, name, desc))
  }

  /** "How to import <product_title or product_name or 'this product'>" */
  function HowToName(repr: Value -> string, p: Record): string {
    "How to import " + StrOf(Or(Get(p, "product_title"), Or(Get(p, "product_name"), Str("this product"))), repr)
  }

  /** `_build_import_howto(page_url, product)` */
  function ImportHowTo(page: string, repr: Value -> string, p: Record): (r: Option<Node>)
    requires HowToShaped(p)
    ensures r.Some? ==> r.value.HowTo? && r.value.id == page + "#how-to-import"
  {
    var steps := FilterMap(Enumerate(ItemsAt(p, "how_to_import_steps"), 1), HowToStepOf);
    if steps == [] then None
    else Some(HowTo(page + "#how-to-import", HowToName(repr, p), HowToDescription, steps))
  }

  /** A step the HowTo keeps: a dict with a non-blank description. */
  predicate StepKept(step: Value)
    requires HowToItemShaped(step)
  {
    step.Obj? && StrippedOr(Get(step.fields, "description")) != ""
  }

  /** The HowTo node exists exactly when some step has a non-blank description. */
  lemma ImportHowToPresent(page: string, repr: Value -> string, p: Record)
    requires HowToShaped(p)
    ensures var items := ItemsAt(p, "how_to_import_steps");
      ImportHowTo(page, repr, p).Some? <==> exists i :: 0 <= i < |items| && StepKept(items[i])
  {
    var items := ItemsAt(p, "how_to_import_steps");
    var entries := Enumerate(items, 1);
    FilterMapEmpty(entries, HowToStepOf);
    forall i | 0 <= i < |items| ensures HowToStepOf(entries[i]).Some? <==> StepKept(items[i]) {
      assert entries[i].1 == items[i];
    }
  }

  /** Step positions are the 1-based places of the kept entries in the input
      list, so they increase strictly and stay within 1..n; every step has a
      non-blank text. */
  lemma ImportHowToSteps(page: string, repr: Value -> string, p: Record)
    requires HowToShaped(p)
    ensures var n, r := |ItemsAt(p, "how_to_import_steps")|, ImportHowTo(page, repr, p);
      r.Some? ==>
        r.value.id == page + "#how-to-import" &&
        (forall k :: 0 <= k < |r.value.step| ==> 1 <= r.value.step[k].position <= n && r.value.step[k].text != "") &&
        (forall k, l :: 0 <= k < l < |r.value.step| ==> r.value.step[k].position < r.value.step[l].position)
  {
    var items := ItemsAt(p, "how_to_import_steps");
    var entries := Enumerate(items, 1);
    FilterMapIncreasing(entries, HowToStepOf, (e: (int, Value)) => e.0, (s: HowToStep) => s.position, 1, |items|);
    FilterMapAll(entries, HowToStepOf, (s: HowToStep) => s.text != "");
  }

  method BuildImportHowTo(page: string, repr: Value -> string, p: Record) returns (r: Option<Node>)
    requires HowToShaped(p)
    ensures r == ImportHowTo(page, repr, p)
  {
    var raw := Or(Get(p, "how_to_import_steps"), Arr([]));
    if !raw.Arr? || raw.items == [] {
      return None;
    }
    var steps := raw.items;
    assert steps == ItemsAt(p, "how_to_import_steps");
    var entries := Enumerate(steps, 1);
    var howtoSteps: seq<HowToStep> := [];
    for i := 0 to |steps|
      invariant howtoSteps == FilterMap(entries[..i], HowToStepOf)
    {
      assert entries[..i + 1][..i] == entries[..i];
      var idx, step := i + 1, steps[i];
      assert entries[i] == (idx, step);
      if !step.Obj? {
        continue;
      }
      var title := Get(step.fields, "title");
      var name := Strip(if Truthy(title) then title.s else "Step " + IntToDecimal(idx));
      var desc := StrippedOr(Get(step.fields, "description"));
      if desc == "" {
        continue;
      }
      howtoSteps := howtoSteps + [HowToStep(idx, name, desc)];
    }
    assert entries[..|steps|] == entries;
    if howtoSteps == [] {
      return None;
    }
    r := Some(HowTo(page + "#how-to-import", HowToName(repr, p), HowToDescription, howtoSteps));
  }

  // ---------------------------------------------------------------------
  // BlogPosting

  predicate BlogPostShaped(post: Value) {
    post.Obj? ==>
      StrOrFalsy(Get(post.fields, "title")) &&
      StrOrFalsy(Or(Get(post.fields, "summary"), Get(post.fields, "description")))
  }

  predicate BlogShaped(p: Record) {
    forall i :: 0 <= i < |ItemsAt(p, "blog_posts")| ==> BlogPostShaped(ItemsAt(p, "blog_posts")[i])
  }

  /** `product_id or id`, the first argument of the blog detail route. */
  function BlogProductId(p: Record): Value {
    Or(Get(p, "product_id"), Get(p, "id"))
  }

  /** The URL of the idx-th post: the reversed `blog_detail` route made
      absolute, or the product page when there is no product id, the route
      does not reverse, or the result is empty. */
  function BlogUrl(buildAbsoluteUri: string -> string, reverseBlog: (Value, int) -> Option<string>,
                   repr: Value -> string, page: string, productId: Value, idx: int): string
  {
    var blogUrl :=
      if !Truthy(productId) then None
      else match reverseBlog(productId, idx)
        case None => None
        case Some(rel) => AbsoluteSiteUrl(buildAbsoluteUri, Str(rel), repr);
    if blogUrl.Some? && blogUrl.value != "" then blogUrl.value else page
  }

  /** The `@id` of the idx-th post; it ends in a digit. */
  function BlogId(url: string, idx: int): (r: string)
    ensures r != [] && IsDigit(r[|r| - 1])
  {
    url + "#blog-" + IntToDecimal(idx)
  }

  /** The idx-th post: kept when its title is non-blank. */
  function BlogPostingAt(buildAbsoluteUri: string -> string, reverseBlog: (Value, int) -> Option<string>,
                         base: string, repr: Value -> string, page: string, productId: Value, idx: int, post: Value): (r: Option<Node>)
    requires BlogPostShaped(post)
    ensures r.Some? <==> post.Obj? && StrippedOr(Get(post.fields, "title")) != ""
    ensures r.Some? ==> r.value.BlogPosting? && r.value.headline != "" && r.value.id == BlogId(r.value.url, idx)
  {
    if !post.Obj? then None
    else
      var title := StrippedOr(Get(post.fields, "title"));
      if title == "" then None
      else
        var url := BlogUrl(buildAbsoluteUri, reverseBlog, repr, page, productId, idx);
        var image := Get(post.fields, "image");
        var summary := StrippedOr(Or(Get(post.fields, "summary"), Get(post.fields, "description")));
        Some(BlogNode(url, idx, title, if Truthy(image) then AbsoluteMediaUrl(base, image, repr) else None, summary))
  }

  /** The BlogPosting node; the description is left out when the summary is blank. */
  function BlogNode(url: string, idx: int, title: string, image: Option<string>, summary: string): (n: Node)
    ensures n.BlogPosting? && n.url == url && n.id == BlogId(url, idx) && n.headline == title
  {
    BlogPosting(BlogId(url, idx), title, url, image, if summary != "" then Some(summary) else None)
  }

  function BlogPostingOf(buildAbsoluteUri: string -> string, reverseBlog: (Value, int) -> Option<string>,
                         base: string, repr: Value -> string, page: string, productId: Value): ((int, Value)) --> Option<Node>
  {
    (entry: (int, Value)) requires BlogPostShaped(entry.1) =>
      BlogPostingAt(buildAbsoluteUri, reverseBlog, base, repr, page, productId, entry.0, entry.1)
  }

  /** Every node is a BlogPosting whose `@id` ends in a digit. */
  predicate BlogIdsNumbered(r: seq<Node>) {
    forall k :: 0 <= k < |r| ==> r[k].BlogPosting? && r[k].id != [] && IsDigit(r[k].id[|r[k].id| - 1])
  }

  /** `_build_blog_posts_schema(request, page_url, product)` */
  function BlogPostings(buildAbsoluteUri: string -> string, reverseBlog: (Value, int) -> Option<string>,
                        base: string, repr: Value -> string, page: string, p: Record): (r: seq<Node>)
    requires BlogShaped(p)
    ensures BlogIdsNumbered(r)
  {
    var posts := Take(ItemsAt(p, "blog_posts"), 3);
    var f := BlogPostingOf(buildAbsoluteUri, reverseBlog, base, repr, page, BlogProductId(p));
    BlogEntriesShaped(p);
    FilterMapAll(Enumerate(posts, 1), f, (n: Node) => n.BlogPosting? && n.id != [] && IsDigit(n.id[|n.id| - 1]));
    FilterMap(Enumerate(posts, 1), f)
  }

  /** The place of a posting among the first three posts, read back from the end of its `@id`. */
  function BlogRank(n: Node): int {
    if n.id != "" && IsDigit(n.id[|n.id| - 1]) then DigitValue(n.id[|n.id| - 1]) else 0
  }

  lemma BlogIdRank(n: Node, idx: int)
    requires 1 <= idx <= 9 && n.BlogPosting? && n.id == BlogId(n.url, idx)
    ensures BlogRank(n) == idx
  {
    assert IntToDecimal(idx) == [DigitChar(idx)];
    assert n.id[|n.id| - 1] == DigitChar(idx);
  }

  lemma BlogEntriesShaped(p: Record)
    requires BlogShaped(p)
    ensures var entries := Enumerate(Take(ItemsAt(p, "blog_posts"), 3), 1);
      forall i :: 0 <= i < |entries| ==> entries[i].0 == i + 1 && BlogPostShaped(entries[i].1)
  {
    var posts := Take(ItemsAt(p, "blog_posts"), 3);
    forall i | 0 <= i < |posts| ensures BlogPostShaped(posts[i]) {
      assert posts[i] == ItemsAt(p, "blog_posts")[i];
    }
  }

  /** At most three postings, each with a non-blank headline and an `@id`
      that ends in "#blog-<n>" for its place n among the first three posts;
      the places increase, so the `@id`s are pairwise distinct. */
  lemma BlogPostingsSpec(buildAbsoluteUri: string -> string, reverseBlog: (Value, int) -> Option<string>,
                         base: string, repr: Value -> string, page: string, p: Record)
    requires BlogShaped(p)
    ensures var r := BlogPostings(buildAbsoluteUri, reverseBlog, base, repr, page, p);
      |r| <= 3 &&
      (forall k :: 0 <= k < |r| ==>
        r[k].BlogPosting? && r[k].headline != "" && r[k].id == BlogId(r[k].url, BlogRank(r[k])) &&
        1 <= BlogRank(r[k]) <= 3) &&
      (forall k, l :: 0 <= k < l < |r| ==> r[k].id != r[l].id)
  {
    BlogEntriesShaped(p);
    var entries := Enumerate(Take(ItemsAt(p, "blog_posts"), 3), 1);
    var f := BlogPostingOf(buildAbsoluteUri, reverseBlog, base, repr, page, BlogProductId(p));
    var r := FilterMap(entries, f);
    FilterMapLength(entries, f);
    forall i | 0 <= i < |entries| && f(entries[i]).Some?
      ensures var n := f(entries[i]).value;
        n.BlogPosting? && n.headline != "" && n.id == BlogId(n.url, BlogRank(n)) && BlogRank(n) == entries[i].0
    {
      BlogIdRank(f(entries[i]).value, i + 1);
    }
    FilterMapIncreasing(entries, f, (e: (int, Value)) => e.0, BlogRank, 1, 3);
    FilterMapAll(entries, f, (n: Node) =>
      n.BlogPosting? && n.headline != "" && n.id == BlogId(n.url, BlogRank(n)));
    assert forall k, l :: 0 <= k < l < |r| ==> BlogRank(r[k]) < BlogRank(r[l]);
  }

  method BuildBlogPostings(buildAbsoluteUri: string -> string, reverseBlog: (Value, int) -> Option<string>,
                           base: string, repr: Value -> string, page: string, p: Record) returns (items: seq<Node>)
    requires BlogShaped(p)
    ensures items == BlogPostings(buildAbsoluteUri, reverseBlog, base, repr, page, p)
  {
    var raw := Or(Get(p, "blog_posts"), Arr([]));
    if !raw.Arr? {
      return [];
    }
    BlogEntriesShaped(p);
    assert raw.items == ItemsAt(p, "blog_posts");
    items := PostingsLoop(buildAbsoluteUri, reverseBlog, base, repr, page, BlogProductId(p), Take(raw.items, 3));
  }

  /** The loop over `enumerate(blog_posts[:3], start=1)`. */
  method PostingsLoop(buildAbsoluteUri: string -> string, reverseBlog: (Value, int) -> Option<string>,
                      base: string, repr: Value -> string, page: string, productId: Value, posts: seq<Value>) returns (items: seq<Node>)
    requires forall i :: 0 <= i < |posts| ==> BlogPostShaped(posts[i])
    ensures Accepts(Enumerate(posts, 1), BlogPostingOf(buildAbsoluteUri, reverseBlog, base, repr, page, productId))
    ensures items == FilterMap(Enumerate(posts, 1), BlogPostingOf(buildAbsoluteUri, reverseBlog, base, repr, page, productId))
  {
    var entries := Enumerate(posts, 1);
    var f := BlogPostingOf(buildAbsoluteUri, reverseBlog, base, repr, page, productId);
    assert Accepts(entries, f);
    items := [];
    for i := 0 to |posts|
      invariant Accepts(entries[..i], f)
      invariant items == FilterMap(entries[..i], f)
    {
      FilterMapSnoc(entries, i, f);
      var node := BlogPostingAt(buildAbsoluteUri, reverseBlog, base, repr, page, productId, i + 1, posts[i]);
      assert f(entries[i]) == node;
      if node.Some? {
        items := items + [node.value];
      }
    }
    assert entries[..|posts|] == entries;
  }
}

// The product page's JSON-LD graph (`build_product_schema` in
// globe/schema_utils.py): the Product node with its SEO fields, the Offer,
// the seller Organization, the rating, videos, FAQ, import how-to, blog
// posts and the breadcrumb trail, linked by `{"@id": ...}` references. The
// request is reduced to the page URL, `build_absolute_uri`, the blog route
// and the media base; the final `json.dumps` is not modelled.

module Product {
  import opened PyValue
  import opened Lists
  import opened Urls
  import opened Graph
  import opened Sections
  import Media
  import Properties
  import Reviews
  import Seller

  /** What the view supplies: the absolute URL of the page being rendered,
      `request.build_absolute_uri` for other paths, the blog-detail route,
      the media base, and `str()` of the values whose text is not modelled. */
  datatype Site = Site(
    page: string,
    buildAbsoluteUri: string -> string,
    reverseBlog: (Value, int) -> Option<string>,
    mediaBase: string,
    repr: Value -> string)

  // ---------------------------------------------------------------------
  // The Product node's own fields

  /** `product_title or product_name or name` (None when all are falsy). */
  function ProductName(p: Record): Value {
    Or(Or(Get(p, "product_title"), Get(p, "product_name")), Get(p, "name"))
  }

  /** `short_description or description or ""` */
  function ProductDescription(p: Record): Value {
    Or(Or(Get(p, "short_description"), Get(p, "description")), Str(""))
  }

  const KeywordFields: seq<string> := ["focus_keywords", "alt_keyword_1", "alt_keyword_2"]

  /** Fields read as `(product.get(k) or "").strip()`. */
  predicate TextFields(p: Record, keys: seq<string>) {
    forall i :: 0 <= i < |keys| ==> StrOrFalsy(Get(p, keys[i]))
  }

  /** One keyword field, when it is not blank. */
  function KeywordOf(p: Record, k: string): Option<string>
    requires StrOrFalsy(Get(p, k))
  {
    NonEmpty(StrippedOr(Get(p, k)))
  }

  function Keyword(p: Record): string --> Option<string> {
    (k: string) requires StrOrFalsy(Get(p, k)) => KeywordOf(p, k)
  }

  predicate KeywordsShaped(p: Record) {
    StrOrFalsy(Get(p, "focus_keywords")) && StrOrFalsy(Get(p, "alt_keyword_1")) && StrOrFalsy(Get(p, "alt_keyword_2"))
  }

  lemma KeywordsAccepted(p: Record)
    requires KeywordsShaped(p)
    ensures TextFields(p, KeywordFields)
  {
  }

  /** The keywords, in field order. */
  function KeywordList(p: Record): seq<string>
    requires KeywordsShaped(p)
  {
    KeywordsAccepted(p);
    FilterMap(KeywordFields, Keyword(p))
  }

  /** `keywords`: the keywords joined by ", ", left out when there are none. */
  function Keywords(p: Record): Option<string>
    requires KeywordsShaped(p)
  {
    var ks := KeywordList(p);
    if ks == [] then None else Some(Join(ks, ", "))
  }

  /** `countryOfOrigin`: the stripped origin country, when not blank. */
  function Country(p: Record): Option<string>
    requires StrOrFalsy(Get(p, "origin_country"))
  {
    NonEmpty(StrippedOr(Get(p, "origin_country")))
  }

  // ---------------------------------------------------------------------
  // The Offer

  /** `deliveryLeadTime`: the dispatch time when it is set and `int()` of it
      is a positive number of days; a failed conversion is ignored. */
  function LeadTimeDays(d: Value): (r: Option<int>)
    ensures r.Some? ==> r.value > 0
  {
    if IsNoneEmptyOrZero(d) then None
    else
      match PyInt(d)
      case IntOk(n) => if n > 0 then Some(n) else None
      case ValueErr => None
      case TypeErr => None
  }

  /** The Offer node: emitted only when the price is not None, "", 0 or "0";
      `seller` is the organisation's `@id` when there is one. */
  function OfferNode(page: string, repr: Value -> string, p: Record, seller: Option<string>): (r: Option<Node>)
    ensures r.Some? <==> !IsNoneEmptyOrZero(Get(p, "price"))
    ensures r.Some? ==> r.value.Offer? && r.value.id == page + "#offer" && r.value.seller == seller
  {
    var price := Get(p, "price");
    if IsNoneEmptyOrZero(price) then None
    else Some(Offer(
      page + "#offer",
      page,
      Or(Get(p, "currency"), Str("INR")),
      price,
      if Truthy(Get(p, "price_unit")) then Some(StrOf(Get(p, "price_unit"), repr)) else None,
      LeadTimeDays(Get(p, "dispatch_time")),
      if Truthy(Get(p, "moq")) then Some(Get(p, "moq")) else None,
      seller))
  }

  // ---------------------------------------------------------------------
  // Certifications as awards

  predicate CertShaped(c: Value) {
    c.Obj? ==> StrOrFalsy(Get(c.fields, "name"))
  }

  predicate CertsShaped(p: Record) {
    forall i :: 0 <= i < |ItemsAt(p, "certifications")| ==> CertShaped(ItemsAt(p, "certifications")[i])
  }

  /** A certification's stripped name; non-dicts and blank names give none. */
  function CertName(c: Value): Option<string>
    requires CertShaped(c)
  {
    if c.Obj? then NonEmpty(StrippedOr(Get(c.fields, "name"))) else None
  }

  /** The certification names, each once, in first-seen order. */
  function AwardNames(p: Record): seq<string>
    requires CertsShaped(p)
  {
    DedupInto([], FilterMap(ItemsAt(p, "certifications"), CertName))
  }

  /** `award`: one name as a string, several as a list, none left out. */
  function AwardOf(names: seq<string>): (r: Option<Award>)
    ensures r.None? <==> names == []
    ensures r.Some? ==> (r.value.OneAward? <==> |names| == 1)
    ensures r.Some? && r.value.OneAward? ==> r.value.name == names[0]
    ensures r.Some? && r.value.Awards? ==> r.value.names == names
  {
    if names == [] then None
    else if |names| == 1 then Some(OneAward(names[0]))
    else Some(Awards(names))
  }

  // ---------------------------------------------------------------------
  // The graph

  /** The values the schema builder reads are of the kinds its code expects
      (a `.strip()` on a number or a `.get` on a string would raise). */
  predicate ProductShaped(p: Record) {
    OwnFieldsShaped(p) && SectionsShaped(p)
  }

  /** What the Product node's own fields read. */
  predicate OwnFieldsShaped(p: Record) {
    KeywordsShaped(p) && StrOrFalsy(Get(p, "origin_country")) &&
    Properties.PropsShaped(p) && CertsShaped(p)
  }

  /** What the helpers for the other sections read. */
  predicate SectionsShaped(p: Record) {
    Seller.SellerShaped(p) && Reviews.ReviewsShaped(p) && Media.VideosShaped(p) && FaqShaped(p) &&
    HowToShaped(p) && BlogShaped(p)
  }

  /** The `@id` of a node that may be missing. */
  function IdOf(n: Option<Node>): (r: Option<string>)
    ensures r.Some? <==> n.Some?
    ensures r.Some? ==> r.value == n.value.id
  {
    if n.Some? then Some(n.value.id) else None
  }

  /** Home > Product. */
  function Breadcrumbs(site: Site, name: Value): Node {
    BreadcrumbList(site.page + "#breadcrumbs", [
      ListItem(1, AbsoluteSiteUrl(site.buildAbsoluteUri, Str("/"), site.repr), Str("Home")),
      ListItem(2, Some(site.page), name)])
  }

  /** The Product node's own fields, as gathered before the graph is linked. */
  datatype OwnFields = OwnFields(
    images: seq<string>,
    keywords: Option<string>,
    country: Option<string>,
    props: seq<PropertyValue>,
    award: Option<Award>)

  function OwnFieldsOf(site: Site, p: Record): OwnFields
    requires OwnFieldsShaped(p)
  {
    OwnFields(Media.ProductImages(site.mediaBase, site.repr, p), Keywords(p), Country(p), Properties.AdditionalProps(p, site.repr),
              AwardOf(AwardNames(p)))
  }

  /** What the section helpers of `build_product_schema` give before the
      graph is linked. */
  datatype Built = Built(
    offer: Option<Node>,
    org: Option<Node>,
    rating: Option<Node>,
    videos: seq<Node>,
    faq: Option<Node>,
    howto: Option<Node>,
    blogs: seq<Node>)

  /** The sections carry the `@id`s their builders give them, and the offer
      names the organisation, when there is one, as its seller. */
  predicate BuiltWell(page: string, b: Built) {
    (b.offer.Some? ==> b.offer.value.Offer? && b.offer.value.id == page + "#offer" && b.offer.value.seller == IdOf(b.org)) &&
    (b.org.Some? ==> b.org.value.Organization? && b.org.value.id == page + "#seller") &&
    (b.rating.Some? ==>
      b.rating.value.AggregateRating? && b.rating.value.id == page + "#aggregate-rating" &&
      b.rating.value.itemReviewed == page + "#product") &&
    Media.VideoIdsTagged(page, b.videos) &&
    (b.faq.Some? ==> b.faq.value.FAQPage? && b.faq.value.id == page + "#faqs") &&
    (b.howto.Some? ==> b.howto.value.HowTo? && b.howto.value.id == page + "#how-to-import") &&
    BlogIdsNumbered(b.blogs)
  }

  /** Every section helper run on the product. */
  function Gather(site: Site, p: Record): (b: Built)
    requires SectionsShaped(p)
    ensures BuiltWell(site.page, b)
  {
    var org := Seller.SellerOrganization(site.page, site.repr, p);
    Built(
      OfferNode(site.page, site.repr, p, IdOf(org)),
      org,
      Reviews.AggregateRatingSchema(site.page, p),
      Media.VideoObjects(site.mediaBase, site.page, site.repr, p),
      FaqSchema(site.page, p),
      ImportHowTo(site.page, site.repr, p),
      BlogPostings(site.buildAbsoluteUri, site.reverseBlog, site.mediaBase, site.repr, site.page, p))
  }

  /** The sections of the graph, in the order they are appended. */
  datatype Parts = Parts(
    product: Node,
    offer: Option<Node>,
    org: Option<Node>,
    rating: Option<Node>,
    videos: seq<Node>,
    faq: Option<Node>,
    howto: Option<Node>,
    blogs: seq<Node>,
    crumbs: Node)

  /** The Product node, referring to the offer, to the organisation as brand
      and manufacturer, and to the rating, followed by the other sections and
      the breadcrumbs. Sections built as their helpers build them give a
      linked graph. */
  function Link(site: Site, name: Value, description: Value, f: OwnFields, b: Built): (s: Parts)
    ensures BuiltWell(site.page, b) ==> Linked(site.page, s)
  {
    var product := Product(
      site.page + "#product", name, description, site.page, f.images, f.keywords, f.country,
      IdOf(b.offer), f.props, f.award, IdOf(b.org), IdOf(b.org), IdOf(b.rating));
    Parts(product, b.offer, b.org, b.rating, b.videos, b.faq, b.howto, b.blogs, Breadcrumbs(site, name))
  }

  function PartsOf(site: Site, p: Record): (s: Parts)
    requires ProductShaped(p)
    ensures Linked(site.page, s)
  {
    Link(site, ProductName(p), ProductDescription(p), OwnFieldsOf(site, p), Gather(site, p))
  }

  function Assemble(s: Parts): seq<Node> {
    [s.product] + Kept(s.offer) + Kept(s.org) + Kept(s.rating) + s.videos +
    Kept(s.faq) + Kept(s.howto) + s.blogs + [s.crumbs]
  }

  /** `build_product_schema(request, product)`: the `@graph` list. */
  function ProductGraph(site: Site, p: Record): seq<Node>
    requires ProductShaped(p)
  {
    Assemble(PartsOf(site, p))
  }

  // ---------------------------------------------------------------------
  // Properties of the fields

  /** The lead time is taken exactly when the dispatch time converts to a
      positive int: a numeral string or a number of days reads back as that
      number, and a zero, negative or non-numeric value leaves it out. */
  lemma LeadTimeSpec(d: Value)
    ensures LeadTimeDays(d).Some? <==> !IsNoneEmptyOrZero(d) && PyInt(d).IntOk? && PyInt(d).n > 0
    ensures LeadTimeDays(d).Some? ==> LeadTimeDays(d).value == PyInt(d).n
  {
  }

  /** `"14"` and `14` both give a lead time of 14 days. */
  lemma LeadTimeFromNumeral(n: int)
    requires n > 0
    ensures LeadTimeDays(Str(IntToDecimal(n))) == Some(n)
    ensures LeadTimeDays(Int(n)) == Some(n)
  {
    IntStrRoundTrip(n);
    assert PyStr(Int(n)) == IntToDecimal(n);
    ParseDigits("0");
    assert PyInt(Str("0")) == IntOk(0);
  }

  /** The Offer is emitted exactly when the price is set; it then carries
      the price as given, "INR" unless a currency is set, the page URL, the
      organisation as seller when there is one, and a minimum quantity
      exactly when `moq` is truthy. */
  lemma OfferSpec(page: string, repr: Value -> string, p: Record, seller: Option<string>)
    ensures var o := OfferNode(page, repr, p, seller);
      (o.Some? <==> !IsNoneEmptyOrZero(Get(p, "price"))) &&
      (o.Some? ==>
        o.value.Offer? && o.value.id == page + "#offer" && o.value.url == page &&
        o.value.price == Get(p, "price") &&
        o.value.priceCurrency == (if Truthy(Get(p, "currency")) then Get(p, "currency") else Str("INR")) &&
        o.value.deliveryLeadTimeDays == LeadTimeDays(Get(p, "dispatch_time")) &&
        (o.value.eligibleMinQuantity.Some? <==> Truthy(Get(p, "moq"))) &&
        (o.value.unitCode.Some? <==> Truthy(Get(p, "price_unit"))) &&
        o.value.seller == seller)
  {
  }

  /** The keyword loop keeps the non-blank fields, stripped, in field order. */
  lemma KeywordListFields(p: Record)
    requires KeywordsShaped(p)
    ensures KeywordList(p) ==
      Kept(KeywordOf(p, "focus_keywords")) + Kept(KeywordOf(p, "alt_keyword_1")) + Kept(KeywordOf(p, "alt_keyword_2"))
  {
    var f := Keyword(p);
    KeywordsAccepted(p);
    assert KeywordFields[..2][..1][..0] == [];
    assert FilterMap(KeywordFields[..1], f) == Kept(f(KeywordFields[0]));
    assert FilterMap(KeywordFields[..2], f) == Kept(f(KeywordFields[0])) + Kept(f(KeywordFields[1]));
  }

  /** A keyword is a stripped, non-blank field. */
  lemma KeywordOfSpec(p: Record, k: string)
    requires StrOrFalsy(Get(p, k))
    ensures KeywordOf(p, k).None? <==> StrippedOr(Get(p, k)) == ""
    ensures KeywordOf(p, k).Some? ==> KeywordOf(p, k).value != "" && Strip(KeywordOf(p, k).value) == KeywordOf(p, k).value
  {
    StripIdempotent(TextOr(Get(p, k)));
  }

  /** `keywords` is left out exactly when all three fields are blank. */
  lemma KeywordsSpec(p: Record)
    requires KeywordsShaped(p)
    ensures Keywords(p).None? <==>
      StrippedOr(Get(p, "focus_keywords")) == "" && StrippedOr(Get(p, "alt_keyword_1")) == "" &&
      StrippedOr(Get(p, "alt_keyword_2")) == ""
  {
    KeywordListFields(p);
    KeywordOfSpec(p, "focus_keywords");
    KeywordOfSpec(p, "alt_keyword_1");
    KeywordOfSpec(p, "alt_keyword_2");
  }

  /** Each keyword is a stripped, non-blank field. */
  lemma KeywordsClean(p: Record)
    requires KeywordsShaped(p)
    ensures forall k :: k in KeywordList(p) ==> k != "" && Strip(k) == k
  {
    KeywordListFields(p);
    KeywordOfSpec(p, "focus_keywords");
    KeywordOfSpec(p, "alt_keyword_1");
    KeywordOfSpec(p, "alt_keyword_2");
    KeptClean(KeywordOf(p, "focus_keywords"), KeywordOf(p, "alt_keyword_1"), KeywordOf(p, "alt_keyword_2"));
  }

  /** Three optional stripped, non-blank texts give a list of such texts. */
  lemma KeptClean(a: Option<string>, b: Option<string>, c: Option<string>)
    requires a.Some? ==> a.value != "" && Strip(a.value) == a.value
    requires b.Some? ==> b.value != "" && Strip(b.value) == b.value
    requires c.Some? ==> c.value != "" && Strip(c.value) == c.value
    ensures forall k :: k in Kept(a) + Kept(b) + Kept(c) ==> k != "" && Strip(k) == k
  {
    forall k | k in Kept(a) + Kept(b) + Kept(c) ensures k != "" && Strip(k) == k {
      assert k in Kept(a) || k in Kept(b) || k in Kept(c);
    }
  }

  /** The joined text starts with the first keyword, so it is never blank. */
  lemma KeywordsJoined(p: Record)
    requires KeywordsShaped(p)
    ensures Keywords(p).Some? ==> StartsWith(Keywords(p).value, KeywordList(p)[0]) && Keywords(p).value != ""
  {
    var ks := KeywordList(p);
    if ks != [] {
      KeywordsClean(p);
      assert ks[0] in ks;
      JoinStartsWithFirst(ks, ", ");
    }
  }

  /** The award names hold no duplicates, each is a non-blank stripped
      certification name, every such name is among them, and they come in
      the order of first appearance. */
  lemma AwardNamesSpec(p: Record)
    requires CertsShaped(p)
    ensures var names, certs := AwardNames(p), ItemsAt(p, "certifications");
      (forall k :: 0 <= k < |names| ==> names[k] in FilterMap(certs, CertName)) &&
      NoDuplicates(names) &&
      (forall n :: n in names <==> exists i :: 0 <= i < |certs| && CertName(certs[i]) == Some(n)) &&
      (forall n :: n in names ==> n != "") &&
      (forall i, j :: 0 <= i < j < |names| ==>
        FirstIndex(FilterMap(certs, CertName), names[i]) < FirstIndex(FilterMap(certs, CertName), names[j]))
  {
    var certs := ItemsAt(p, "certifications");
    var found := FilterMap(certs, CertName);
    DedupIntoSpec([], found);
    DedupFirstSeen(found);
    forall n ensures n in found <==> exists i :: 0 <= i < |certs| && CertName(certs[i]) == Some(n) {
      FilterMapMember(certs, CertName, n);
    }
  }

  // ---------------------------------------------------------------------
  // References

  /** The `@id`s that references point at. */
  predicate Target(page: string, x: string) {
    x == page + "#product" || x == page + "#offer" || x == page + "#seller" || x == page + "#aggregate-rating"
  }

  lemma SuffixCancel(page: string, s: string, t: string)
    requires page + s == page + t
    ensures s == t
  {
    assert s == (page + s)[|page|..];
  }

  /** A video `@id` is never a target: its tag begins with `#v`. */
  lemma VideoNotTarget(page: string, id: string)
    requires StartsWith(id, page + "#video-")
    ensures !Target(page, id)
  {
    assert id[|page| + 1] == 'v';
  }

  /** A blog `@id` is never a target: it ends in a digit. */
  lemma DigitNotTarget(page: string, id: string)
    requires id != [] && IsDigit(id[|id| - 1])
    ensures !Target(page, id)
  {
  }

  /** The sections as built: the ids and references the builder gives them. */
  predicate Linked(page: string, s: Parts) {
    var P, O, S, R := page + "#product", page + "#offer", page + "#seller", page + "#aggregate-rating";
    s.product.Product? && s.product.id == P &&
    s.product.offers == (if s.offer.Some? then Some(O) else None) &&
    s.product.brand == (if s.org.Some? then Some(S) else None) &&
    s.product.manufacturer == s.product.brand &&
    s.product.aggregateRating == (if s.rating.Some? then Some(R) else None) &&
    (s.offer.Some? ==> s.offer.value.Offer? && s.offer.value.id == O && s.offer.value.seller == s.product.brand) &&
    (s.org.Some? ==> s.org.value.Organization? && s.org.value.id == S) &&
    (s.rating.Some? ==> s.rating.value.AggregateRating? && s.rating.value.id == R && s.rating.value.itemReviewed == P) &&
    Media.VideoIdsTagged(page, s.videos) &&
    (s.faq.Some? ==> s.faq.value.FAQPage? && s.faq.value.id == page + "#faqs") &&
    (s.howto.Some? ==> s.howto.value.HowTo? && s.howto.value.id == page + "#how-to-import") &&
    BlogIdsNumbered(s.blogs) &&
    s.crumbs.BreadcrumbList? && s.crumbs.id == page + "#breadcrumbs"
  }

  lemma CountKept(o: Option<Node>, x: string)
    ensures CountId(Kept(o), x) == if o.Some? && o.value.id == x then 1 else 0
  {
    if o.Some? {
      assert Kept(o)[..0] == [];
    }
  }

  /** The count of an `@id` over the graph, section by section. */
  lemma CountAssembled(s: Parts, x: string)
    ensures CountId(Assemble(s), x) ==
      CountId([s.product], x) + CountId(Kept(s.offer), x) + CountId(Kept(s.org), x) +
      CountId(Kept(s.rating), x) + CountId(s.videos, x) + CountId(Kept(s.faq), x) +
      CountId(Kept(s.howto), x) + CountId(s.blogs, x) + CountId([s.crumbs], x)
  {
    var g1 := [s.product] + Kept(s.offer);
    var g2 := g1 + Kept(s.org);
    var g3 := g2 + Kept(s.rating);
    var g4 := g3 + s.videos;
    var g5 := g4 + Kept(s.faq);
    var g6 := g5 + Kept(s.howto);
    var g7 := g6 + s.blogs;
    CountIdConcat([s.product], Kept(s.offer), x);
    CountIdConcat(g1, Kept(s.org), x);
    CountIdConcat(g2, Kept(s.rating), x);
    CountIdConcat(g3, s.videos, x);
    CountIdConcat(g4, Kept(s.faq), x);
    CountIdConcat(g5, Kept(s.howto), x);
    CountIdConcat(g6, s.blogs, x);
    CountIdConcat(g7, [s.crumbs], x);
  }

  /** `x` is a target whose node is in the graph. */
  predicate PresentTarget(page: string, s: Parts, x: string) {
    x == page + "#product" || (x == page + "#offer" && s.offer.Some?) ||
    (x == page + "#seller" && s.org.Some?) || (x == page + "#aggregate-rating" && s.rating.Some?)
  }

  /** No target is the `@id` of a video, the FAQ, the how-to, a blog post
      or the breadcrumbs. */
  lemma CountOthers(page: string, s: Parts, x: string)
    requires Linked(page, s) && Target(page, x)
    ensures CountId(s.videos, x) == 0 && CountId(Kept(s.faq), x) == 0 && CountId(Kept(s.howto), x) == 0
    ensures CountId(s.blogs, x) == 0 && CountId([s.crumbs], x) == 0
  {
    TargetsDistinct(page);
    CountKept(s.faq, x);
    CountKept(s.howto, x);
    CountKept(Some(s.crumbs), x);
    forall k | 0 <= k < |s.videos| ensures s.videos[k].id != x {
      VideoNotTarget(page, s.videos[k].id);
    }
    CountIdZero(s.videos, x);
    forall k | 0 <= k < |s.blogs| ensures s.blogs[k].id != x {
      DigitNotTarget(page, s.blogs[k].id);
    }
    CountIdZero(s.blogs, x);
  }

  /** Each target occurs once among the product, offer, organisation and
      rating when its node is present, and not at all otherwise. */
  lemma CountHead(page: string, s: Parts, x: string)
    requires Linked(page, s) && Target(page, x)
    ensures CountId([s.product], x) + CountId(Kept(s.offer), x) + CountId(Kept(s.org), x) +
            CountId(Kept(s.rating), x) == if PresentTarget(page, s, x) then 1 else 0
  {
    TargetsDistinct(page);
    CountKept(Some(s.product), x);
    CountKept(s.offer, x);
    CountKept(s.org, x);
    CountKept(s.rating, x);
  }

  /** Each target occurs once in a linked graph when its node is present. */
  lemma CountTarget(page: string, s: Parts, x: string)
    requires Linked(page, s) && Target(page, x)
    ensures CountId(Assemble(s), x) == if PresentTarget(page, s, x) then 1 else 0
  {
    CountAssembled(s, x);
    CountOthers(page, s, x);
    CountHead(page, s, x);
  }

  /** The four target `@id`s differ from each other and from the FAQ,
      how-to and breadcrumb `@id`s. */
  lemma TargetsDistinct(page: string)
    ensures var P, O, S, R := page + "#product", page + "#offer", page + "#seller", page + "#aggregate-rating";
      P != O && P != S && P != R && O != S && O != R && S != R &&
      !Target(page, page + "#faqs") && !Target(page, page + "#how-to-import") && !Target(page, page + "#breadcrumbs")
  {
    var tags := ["#product", "#offer", "#seller", "#aggregate-rating", "#faqs", "#how-to-import", "#breadcrumbs"];
    forall a, b | 0 <= a < b < |tags| ensures page + tags[a] != page + tags[b] {
      if page + tags[a] == page + tags[b] {
        SuffixCancel(page, tags[a], tags[b]);
      }
    }
    assert page + "#product" == page + tags[0] && page + "#offer" == page + tags[1];
    assert page + "#seller" == page + tags[2] && page + "#aggregate-rating" == page + tags[3];
    assert page + "#faqs" == page + tags[4] && page + "#how-to-import" == page + tags[5];
    assert page + "#breadcrumbs" == page + tags[6];
  }

  /** Only the product, the offer and the rating refer to other nodes, and
      only to targets that are present. */
  lemma RefsPresent(page: string, s: Parts, n: Node)
    requires Linked(page, s) && n in Assemble(s)
    ensures forall r :: r in Refs(n) ==> PresentTarget(page, s, r)
  {
    AssembledNode(s, n);
    if n == s.product {
      ProductRefsPresent(page, s);
    } else if s.offer.Some? && n == s.offer.value {
      assert Refs(n) == OptionList(s.product.brand);
    } else if s.rating.Some? && n == s.rating.value {
      assert Refs(n) == [page + "#product"];
    } else {
      NoRefs(page, s, n);
    }
  }

  /** A node of the graph is one of its sections. */
  lemma AssembledNode(s: Parts, n: Node)
    requires n in Assemble(s)
    ensures n == s.product || n in Kept(s.offer) || n in Kept(s.org) || n in Kept(s.rating) ||
            n in s.videos || n in Kept(s.faq) || n in Kept(s.howto) || n in s.blogs || n == s.crumbs
  {
  }

  /** The product refers to the offer, the seller and the rating only when they are present. */
  lemma ProductRefsPresent(page: string, s: Parts)
    requires Linked(page, s)
    ensures forall r :: r in Refs(s.product) ==> PresentTarget(page, s, r)
  {
    var pr := s.product;
    assert Refs(pr) == OptionList(pr.offers) + OptionList(pr.brand) + OptionList(pr.manufacturer) +
                       OptionList(pr.aggregateRating);
  }

  /** The seller, the videos, the FAQ, the how-to, the postings and the breadcrumbs refer to nothing. */
  lemma NoRefs(page: string, s: Parts, n: Node)
    requires Linked(page, s)
    requires n in Kept(s.org) || n in s.videos || n in Kept(s.faq) || n in Kept(s.howto) || n in s.blogs || n == s.crumbs
    ensures Refs(n) == []
  {
    if n in s.videos {
      var k :| 0 <= k < |s.videos| && s.videos[k] == n;
      assert n.VideoObject?;
    } else if n in s.blogs {
      var k :| 0 <= k < |s.blogs| && s.blogs[k] == n;
      assert n.BlogPosting?;
    }
  }

  /** In a linked graph every reference names exactly one node. */
  lemma LinkedResolves(page: string, s: Parts)
    requires Linked(page, s)
    ensures ReferencesResolve(Assemble(s))
  {
    var g := Assemble(s);
    forall i, r | 0 <= i < |g| && r in Refs(g[i])
      ensures CountId(g, r) == 1
    {
      RefsPresent(page, s, g[i]);
      CountTarget(page, s, r);
    }
  }

  // ---------------------------------------------------------------------
  // The graph as built

  /** Every `{"@id": ...}` reference in the product graph names exactly one
      of its nodes: the offer, the seller and the rating are referred to only
      when they are in the graph, and no two nodes share a referenced `@id`. */
  lemma ReferencesResolved(site: Site, p: Record)
    requires ProductShaped(p)
    ensures ReferencesResolve(ProductGraph(site, p))
  {
    LinkedResolves(site.page, PartsOf(site, p));
  }

  /** The graph begins with the Product node, for the page and under the
      product's name, and ends with the breadcrumbs. */
  lemma GraphShape(site: Site, p: Record)
    requires ProductShaped(p)
    ensures var g, product := ProductGraph(site, p), PartsOf(site, p).product;
      g[0] == product && product.Product? && product.id == site.page + "#product" && product.url == site.page &&
      product.name == ProductName(p) && g[|g| - 1] == Breadcrumbs(site, ProductName(p))
  {
    AssembleEnds(PartsOf(site, p));
  }

  lemma AssembleEnds(s: Parts)
    ensures var g := Assemble(s); |g| >= 2 && g[0] == s.product && g[|g| - 1] == s.crumbs
  {
  }

  /** The product refers to the offer exactly when the price is set, to the
      seller (as brand and manufacturer) exactly when the organisation name
      is non-blank, and to the rating exactly when the rating node exists;
      the offer names the seller whenever both exist. */
  lemma ProductRefs(site: Site, p: Record)
    requires ProductShaped(p)
    ensures var s, page := PartsOf(site, p), site.page;
      (s.product.offers.Some? <==> !IsNoneEmptyOrZero(Get(p, "price"))) &&
      (s.product.brand.Some? <==> Seller.OrgName(p) != "") &&
      s.product.manufacturer == s.product.brand &&
      (s.product.aggregateRating.Some? <==> Reviews.AggregateRatingSchema(page, p).Some?) &&
      (s.offer.Some? && s.org.Some? ==> s.offer.value.seller == Some(page + "#seller"))
  {
    GatherPresent(site, p);
  }

  /** Each referenced `@id` occurs once: the product always, the offer, the
      seller and the rating exactly when their nodes are built. */
  lemma TargetsUnique(site: Site, p: Record)
    requires ProductShaped(p)
    ensures var g, page := ProductGraph(site, p), site.page;
      CountId(g, page + "#product") == 1 &&
      CountId(g, page + "#offer") == (if !IsNoneEmptyOrZero(Get(p, "price")) then 1 else 0) &&
      CountId(g, page + "#seller") == (if Seller.OrgName(p) != "" then 1 else 0) &&
      CountId(g, page + "#aggregate-rating") == (if Reviews.AggregateRatingSchema(page, p).Some? then 1 else 0)
  {
    CountTargets(site.page, PartsOf(site, p));
    GatherPresent(site, p);
  }

  /** The sections with a referenced `@id` exist exactly when the price is
      set, the organisation name is non-blank, and the rating helper gives a
      node. */
  lemma GatherPresent(site: Site, p: Record)
    requires SectionsShaped(p)
    ensures var b := Gather(site, p);
      (b.offer.Some? <==> !IsNoneEmptyOrZero(Get(p, "price"))) &&
      (b.org.Some? <==> Seller.OrgName(p) != "") &&
      (b.rating.Some? <==> Reviews.AggregateRatingSchema(site.page, p).Some?)
  {
  }

  /** In a linked graph the product's `@id` occurs once, and the offer's,
      the seller's and the rating's once each when their nodes exist. */
  lemma CountTargets(page: string, s: Parts)
    requires Linked(page, s)
    ensures var g := Assemble(s);
      CountId(g, page + "#product") == 1 &&
      CountId(g, page + "#offer") == (if s.offer.Some? then 1 else 0) &&
      CountId(g, page + "#seller") == (if s.org.Some? then 1 else 0) &&
      CountId(g, page + "#aggregate-rating") == (if s.rating.Some? then 1 else 0)
  {
    TargetsDistinct(page);
    CountTarget(page, s, page + "#product");
    CountTarget(page, s, page + "#offer");
    CountTarget(page, s, page + "#seller");
    CountTarget(page, s, page + "#aggregate-rating");
  }

  /** Home is the site root made absolute; the second crumb is the page,
      under the product's name. */
  lemma BreadcrumbsSpec(site: Site, p: Record)
    ensures Breadcrumbs(site, ProductName(p)).itemListElement ==
      [ListItem(1, Some(site.buildAbsoluteUri("/")), Str("Home")), ListItem(2, Some(site.page), ProductName(p))]
  {
    assert Strip("/") == "/";
  }

  /** The Product node's own fields, each gathered by its own loop. */
  method BuildOwnFields(site: Site, p: Record) returns (f: OwnFields)
    requires OwnFieldsShaped(p)
    ensures f == OwnFieldsOf(site, p)
  {
    var images := Media.CollectProductImages(site.mediaBase, site.repr, p);
    var keywords := CollectKeywords(p);
    var props := Properties.CollectAdditionalProps(p, site.repr);
    var award := CollectAwards(p);
    f := OwnFields(images, keywords, Country(p), props, award);
  }

  /** The keyword loop, then the join. */
  method CollectKeywords(p: Record) returns (keywords: Option<string>)
    requires KeywordsShaped(p)
    ensures keywords == Keywords(p)
  {
    KeywordsAccepted(p);
    var found := Collect(KeywordFields, Keyword(p));
    keywords := if found == [] then None else Some(Join(found, ", "));
  }

  /** The certification loop, then the choice between one name and a list. */
  method CollectAwards(p: Record) returns (award: Option<Award>)
    requires CertsShaped(p)
    ensures award == AwardOf(AwardNames(p))
  {
    var awards := AppendNewKept(ItemsAt(p, "certifications"), CertName, []);
    award := AwardOf(awards);
  }

  /** The section helpers as `build_product_schema` calls them, in its order:
      the offer is built before the organisation and given it as seller
      after. */
  method BuildSections(site: Site, p: Record) returns (b: Built)
    requires SectionsShaped(p)
    ensures b == Gather(site, p)
  {
    var page := site.page;
    var offer := OfferNode(page, site.repr, p, None);
    var org := Seller.BuildSellerOrganization(p, page, site.repr);
    if offer.Some? && org.Some? {
      offer := Some(offer.value.(seller := Some(org.value.id)));
    }
    var rating := Reviews.BuildAggregateRating(page, p);
    var videos := Media.BuildVideoObjects(site.mediaBase, page, site.repr, p);
    var faq := BuildFaqSchema(page, p);
    var howto := BuildImportHowTo(page, site.repr, p);
    var blogs := BuildBlogPostings(site.buildAbsoluteUri, site.reverseBlog, site.mediaBase, site.repr, page, p);
    b := Built(offer, org, rating, videos, faq, howto, blogs);
  }

  /** `build_product_schema`: the Product node first, then each section that
      exists, in the order the source appends them, and the breadcrumbs. */
  method BuildProductSchema(site: Site, p: Record) returns (graph: seq<Node>)
    requires ProductShaped(p)
    ensures graph == ProductGraph(site, p)
  {
    var f := BuildOwnFields(site, p);
    var b := BuildSections(site, p);
    var name := ProductName(p);
    var product := Product(
      site.page + "#product", name, ProductDescription(p), site.page, f.images, f.keywords, f.country,
      IdOf(b.offer), f.props, f.award, IdOf(b.org), IdOf(b.org), IdOf(b.rating));
    graph := [product] + Kept(b.offer) + Kept(b.org) + Kept(b.rating);
    graph := graph + b.videos + Kept(b.faq) + Kept(b.howto) + b.blogs;
    graph := graph + [Breadcrumbs(site, name)];
  }
}

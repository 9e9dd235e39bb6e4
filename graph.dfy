// The JSON-LD `@graph` that globe/schema_utils.py emits, one constructor per
// `@type`. An empty sequence field stands for a key the source leaves out
// (it only sets `image`, `sameAs`, `additionalProperty` and `review` when
// the list is non-empty); `Value` fields hold what the source copies from
// the product record unchanged.

module Graph {
  import opened PyValue

  datatype PropertyValue = PropertyValue(name: string, value: string)

  /** `award`: a single string for one certification, the list for several. */
  datatype Award = OneAward(name: string) | Awards(names: seq<string>)

  datatype PostalAddress = PostalAddress(
    streetAddress: Option<string>,
    addressLocality: Option<string>,
    addressCountry: Option<string>)

  /** A ContactPoint whose `contactType` is always "sales". */
  datatype ContactPoint = ContactPoint(telephone: Option<string>, email: Option<string>)

  /** A Question with its accepted Answer. */
  datatype Question = Question(name: string, answerText: string)

  datatype HowToStep = HowToStep(position: int, name: string, text: string)

  /** A Review; `ratingValue` holds the operand of `float()` (bestRating 5, worstRating 1). */
  datatype Review = Review(
    reviewBody: string,
    name: Option<Value>,
    authorName: Option<Value>,
    ratingValue: Option<Value>)

  /** A BreadcrumbList ListItem: its position and the `@id` and name of its `item`. */
  datatype ListItem = ListItem(position: int, itemId: Option<string>, itemName: Value)

  datatype Node =
    | Product(
        id: string,
        name: Value,
        description: Value,
        url: string,
        image: seq<string>,
        keywords: Option<string>,
        countryOfOrigin: Option<string>,
        offers: Option<string>,
        additionalProperty: seq<PropertyValue>,
        award: Option<Award>,
        brand: Option<string>,
        manufacturer: Option<string>,
        aggregateRating: Option<string>)
    | Offer(
        id: string,
        url: string,
        priceCurrency: Value,
        price: Value,
        unitCode: Option<string>,
        deliveryLeadTimeDays: Option<int>,
        eligibleMinQuantity: Option<Value>,
        seller: Option<string>)
    | Organization(
        id: string,
        orgName: string,
        address: Option<PostalAddress>,
        contactPoint: Option<ContactPoint>,
        website: Option<string>,
        sameAs: seq<string>,
        taxID: Option<string>,
        founder: Option<string>,
        foundingDate: Option<string>)
    | AggregateRating(
        id: string,
        itemReviewed: string,
        ratingValue: Option<Value>,
        reviewCount: Option<int>,
        review: seq<Review>)
    | VideoObject(
        id: string,
        videoName: string,
        description: Value,
        url: string,
        thumbnailUrl: Option<string>,
        contentUrl: Option<string>,
        embedUrl: Option<string>)
    | FAQPage(id: string, mainEntity: seq<Question>)
    | HowTo(id: string, howToName: string, howToDescription: string, step: seq<HowToStep>)
    | BlogPosting(
        id: string,
        headline: string,
        url: string,
        blogImage: Option<string>,
        blogDescription: Option<string>)
    | BreadcrumbList(id: string, itemListElement: seq<ListItem>)

  function OptionList<T>(o: Option<T>): seq<T> {
    match o
    case Some(x) => [x]
    case None => []
  }

  /** The targets of the node's bare `{"@id": X}` references. */
  function Refs(n: Node): seq<string> {
    match n
    case Product(_, _, _, _, _, _, _, offers, _, _, brand, manufacturer, rating) =>
      OptionList(offers) + OptionList(brand) + OptionList(manufacturer) + OptionList(rating)
    case Offer(_, _, _, _, _, _, _, seller) => OptionList(seller)
    case AggregateRating(_, itemReviewed, _, _, _) => [itemReviewed]
    case _ => []
  }

  /** How many nodes of the graph carry the `@id` x. */
  function CountId(graph: seq<Node>, x: string): nat {
    if graph == [] then 0
    else CountId(graph[..|graph| - 1], x) + (if graph[|graph| - 1].id == x then 1 else 0)
  }

  /** Every reference names exactly one node of the graph. */
  predicate ReferencesResolve(graph: seq<Node>) {
    forall i, r :: 0 <= i < |graph| && r in Refs(graph[i]) ==> CountId(graph, r) == 1
  }

  lemma {:induction false} CountIdConcat(g: seq<Node>, h: seq<Node>, x: string)
    ensures CountId(g + h, x) == CountId(g, x) + CountId(h, x)
    decreases |h|
  {
    if h == [] {
      assert g + h == g;
    } else {
      assert (g + h)[..|g + h| - 1] == g + h[..|h| - 1];
      CountIdConcat(g, h[..|h| - 1], x);
    }
  }

  lemma {:induction false} CountIdZero(g: seq<Node>, x: string)
    requires forall i :: 0 <= i < |g| ==> g[i].id != x
    ensures CountId(g, x) == 0
  {
    if g != [] {
      CountIdZero(g[..|g| - 1], x);
    }
  }
}

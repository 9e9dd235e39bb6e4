// The AggregateRating node and its reviews (`_build_reviews_schema` in
// globe/schema_utils.py). A rating is kept as the value `float()` accepts;
// its floating-point value is not modelled.

module Reviews {
  import opened PyValue
  import opened Lists
  import opened Graph
  import opened Sections

  /** The `reviews_data` dict when `product.get("reviews_data") or {}` is a non-empty dict. */
  function ReviewsData(p: Record): Option<Record> {
    var rd := Or(Get(p, "reviews_data"), Obj(map[]));
    if rd.Obj? && rd.fields != map[] then Some(rd.fields) else None
  }

  /** `latest[:5]` when `latest_reviews` is a list, else nothing. */
  function LatestReviews(rd: Record): seq<Value> {
    Take(ItemsAt(rd, "latest_reviews"), 5)
  }

  predicate ReviewItemShaped(item: Value) {
    item.Obj? ==> StrOrFalsy(Get(item.fields, "content"))
  }

  predicate ReviewsShaped(p: Record) {
    ReviewsData(p).Some? ==>
      var latest := LatestReviews(ReviewsData(p).value);
      forall i :: 0 <= i < |latest| ==> ReviewItemShaped(latest[i])
  }

  /** `float(v)` guarded by `v is not None`: the value, when the conversion succeeds. */
  function RatingOf(v: Value): (r: Option<Value>)
    ensures r.Some? <==> v != Null && FloatCoercible(v)
    ensures r.Some? ==> r.value == v
  {
    if v != Null && FloatCoercible(v) then Some(v) else None
  }

  /** `int(v)` guarded by `v is not None`: the number, when the conversion succeeds. */
  function CountOf(v: Value): (r: Option<int>)
    ensures r.Some? <==> v != Null && PyInt(v).IntOk?
    ensures r.Some? ==> PyInt(v) == IntOk(r.value)
  {
    if v == Null then None
    else match PyInt(v)
      case IntOk(n) => Some(n)
      case _ => None
  }

  /** One entry of `latest_reviews`: kept when its content is non-blank. */
  function ReviewOf(item: Value): (r: Option<Review>)
    requires ReviewItemShaped(item)
    ensures r.Some? <==> item.Obj? && StrippedOr(Get(item.fields, "content")) != ""
    ensures r.Some? ==> r.value.reviewBody != "" && r.value.ratingValue == RatingOf(Get(item.fields, "rating"))
  {
    if !item.Obj? then None
    else
      var content := StrippedOr(Get(item.fields, "content"));
      if content == "" then None
      else
        var title, name := Get(item.fields, "title"), Get(item.fields, "name");
        Some(Review(
          content,
          if Truthy(title) then Some(title) else None,
          if Truthy(name) then Some(name) else None,
          RatingOf(Get(item.fields, "rating"))))
  }

  /** Some review carries a rating that `float()` accepted. */
  predicate AnyRated(reviews: seq<Review>) {
    exists k :: 0 <= k < |reviews| && reviews[k].ratingValue.Some?
  }

  /** `_build_reviews_schema(page_url, product)` */
  function AggregateRatingSchema(page: string, p: Record): (r: Option<Node>)
    requires ReviewsShaped(p)
    ensures r.Some? ==> r.value.AggregateRating? && r.value.id == page + "#aggregate-rating" &&
                        r.value.itemReviewed == page + "#product"
  {
    match ReviewsData(p)
    case None => None
    case Some(rd) =>
      var ratingValue := RatingOf(Get(rd, "avg_rating"));
      var reviewCount := CountOf(Get(rd, "total_count"));
      var reviews := FilterMap(LatestReviews(rd), ReviewOf);
      var hasNumbers := ratingValue.Some? || reviewCount.Some? || AnyRated(reviews);
      if !hasNumbers && reviews == [] then None
      else Some(AggregateRating(page + "#aggregate-rating", page + "#product", ratingValue, reviewCount, reviews))
  }

  /** The rating node is emitted exactly when the average converts to a float,
      the count to an int, or one of the first five reviews has content: a
      review rating alone never decides it, since a rated review is a kept one. */
  lemma AggregateRatingPresent(page: string, p: Record)
    requires ReviewsShaped(p)
    ensures AggregateRatingSchema(page, p).Some? <==>
      ReviewsData(p).Some? &&
      var rd := ReviewsData(p).value;
      var latest := LatestReviews(rd);
      (RatingOf(Get(rd, "avg_rating")).Some? || CountOf(Get(rd, "total_count")).Some? ||
       exists i :: 0 <= i < |latest| && latest[i].Obj? && StrippedOr(Get(latest[i].fields, "content")) != "")
  {
    if ReviewsData(p).Some? {
      var latest := LatestReviews(ReviewsData(p).value);
      FilterMapEmpty(latest, ReviewOf);
    }
  }

  /** The node's identity and its link to the product, at most five reviews,
      each with a non-blank body. */
  lemma AggregateRatingShape(page: string, p: Record)
    requires ReviewsShaped(p)
    ensures var r := AggregateRatingSchema(page, p);
      r.Some? ==>
        r.value.id == page + "#aggregate-rating" && r.value.itemReviewed == page + "#product" &&
        |r.value.review| <= 5 &&
        forall k :: 0 <= k < |r.value.review| ==> r.value.review[k].reviewBody != ""
  {
    if ReviewsData(p).Some? {
      var latest := LatestReviews(ReviewsData(p).value);
      FilterMapLength(latest, ReviewOf);
      FilterMapAll(latest, ReviewOf, (v: Review) => v.reviewBody != "");
    }
  }

  lemma AnyRatedSnoc(reviews: seq<Review>, r: Review)
    ensures AnyRated(reviews + [r]) <==> AnyRated(reviews) || r.ratingValue.Some?
  {
    var ext := reviews + [r];
    assert forall k :: 0 <= k < |reviews| ==> ext[k] == reviews[k];
    assert ext[|reviews|] == r;
  }

  /** The loop over `latest[:5]`: the reviews it keeps, and `has_numbers`
      after it, given its value before. */
  method AttachReviews(window: seq<Value>, numbersBefore: bool) returns (reviewNodes: seq<Review>, hasNumbers: bool)
    requires forall i :: 0 <= i < |window| ==> ReviewItemShaped(window[i])
    ensures reviewNodes == FilterMap(window, ReviewOf)
    ensures hasNumbers == (numbersBefore || AnyRated(reviewNodes))
  {
    reviewNodes, hasNumbers := [], numbersBefore;
    for i := 0 to |window|
      invariant reviewNodes == FilterMap(window[..i], ReviewOf)
      invariant hasNumbers == (numbersBefore || AnyRated(reviewNodes))
    {
      assert window[..i + 1][..i] == window[..i];
      var item := window[i];
      if !item.Obj? {
        continue;
      }
      var content := StrippedOr(Get(item.fields, "content"));
      if content == "" {
        continue;
      }
      var title, name, ratingVal := Get(item.fields, "title"), Get(item.fields, "name"), Get(item.fields, "rating");
      var rating := RatingOf(ratingVal);
      if rating.Some? {
        hasNumbers := true;
      }
      var oneReview := Review(content, if Truthy(title) then Some(title) else None,
                              if Truthy(name) then Some(name) else None, rating);
      assert ReviewOf(item) == Some(oneReview);
      AnyRatedSnoc(reviewNodes, oneReview);
      reviewNodes := reviewNodes + [oneReview];
    }
    assert window[..|window|] == window;
  }

  method BuildAggregateRating(page: string, p: Record) returns (r: Option<Node>)
    requires ReviewsShaped(p)
    ensures r == AggregateRatingSchema(page, p)
  {
    var reviewsData := Or(Get(p, "reviews_data"), Obj(map[]));
    if !reviewsData.Obj? || reviewsData.fields == map[] {
      return None;
    }
    var rd := reviewsData.fields;
    var avg, count := Get(rd, "avg_rating"), Get(rd, "total_count");
    var latest := Or(Get(rd, "latest_reviews"), Arr([]));

    var hasNumbers := false;
    var ratingValue := RatingOf(avg);
    if ratingValue.Some? {
      hasNumbers := true;
    }
    var reviewCount := CountOf(count);
    if reviewCount.Some? {
      hasNumbers := true;
    }

    var reviewNodes: seq<Review> := [];
    if latest.Arr? {
      assert Take(latest.items, 5) == LatestReviews(rd);
      reviewNodes, hasNumbers := AttachReviews(Take(latest.items, 5), hasNumbers);
    }
    if !hasNumbers && reviewNodes == [] {
      return None;
    }
    r := Some(AggregateRating(page + "#aggregate-rating", page + "#product", ratingValue, reviewCount, reviewNodes));
  }
}

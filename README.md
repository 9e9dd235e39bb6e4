# Globesuggest product pages: JSON-LD builder, product lookup, analytics and enquiries

This project is a Dafny model of the core of the Globesuggest Django site.
Each part has its own modules, and each module proves what that part promises.

**The JSON-LD graph of a product page** (`globe/schema_utils.py`)
- The three URL normalisers (`Urls`).
- Image and video collection (`Media`).
- The FAQ, import how-to and blog sections (`Sections`).
- The seller organisation (`Seller`).
- The aggregate rating (`Reviews`).
- The `additionalProperty` list (`Properties`).
- `build_product_schema`, which assembles the graph and links its nodes by `@id` (`Product`).
- The graph is a list of typed nodes (`Graph`).
- The product record is a map from text to a JSON-like `Value`, with Python truthiness, `or`, `str()`, `int()` and `strip()` (`PyValue`).

**The views** (`globe/views.py`)
- Deciding whether a URL segment is a product id, resolving an SEO slug to a product id through the upstream search, and the two-path product lookup (`Resolver`).
- The analytics ingest: a store of session rows keyed by (session id, product id) plus an append-only event log, modelled as a class (`Analytics`).
- The lead draft autosave and the explicit enquiry submission, on a lead table (`Leads`).
- The shaping of search suggestions (`Suggest`).
- The envelope check and pass-through of the analytics relay (`Relay`).

**The template filters** (`globe/templatetags`)
- `intdiv`, `split`, `strip` and `markdown_links`, with Django's `escape` (`MathFilters`).
- `extract_youtube_id` (`YoutubeFilters`).

**What is a parameter**
- The upstream API, Django's `reverse`, `build_absolute_uri`, `slugify` and `parse_datetime`, the clock and the decryption of an analytics envelope are function parameters.
- So is `str()` of floats, lists and dicts (`repr`).

**How the loops are modelled**
- Where the source loops or mutates, a method with loop invariants is proved equal to a specification function.
- The properties are lemmas about that function.

## Model

| member | source | states |
|---|---|---|
| Urls.AbsoluteSiteUrl | globe/schema_utils.py:8-26 | for any value (`str()` of floats, lists and dicts through `repr`), None exactly when the stripped text is blank; an absolute http(s) URL is returned stripped and unchanged, anything else goes through `build_absolute_uri` |
| Urls.AbsoluteMediaUrl | globe/schema_utils.py:29-54 | for any value, None exactly when `str()` of it stripped is blank; otherwise the media resolution of the stripped text, never empty |
| Urls.ResolveMedia | globe/schema_utils.py:44-54 | absolute http(s) URLs pass unchanged; anything else is the base without trailing slashes, one `/`, and the value without its leading slash |
| Urls.NormaliseExternalUrl | globe/schema_utils.py:57-71 | for any value, a URL exactly when `str()` of it stripped starts with `http://` or `https://`, and then it is that text; bare usernames never survive |
| Urls.ResolvedMediaShape | globe/schema_utils.py:44-54 | with an absolute base, a resolved media URL is absolute and has no surrounding whitespace |
| Urls.MediaUrlIdempotent | globe/schema_utils.py:29-54 | with an absolute base, a media URL is absolute and stripped, and normalising it again gives it back |
| Urls.ExternalUrlIdempotent | globe/schema_utils.py:57-71 | normalising an accepted external URL again gives it back |
| Media.ProductImagesSpec | globe/schema_utils.py:74-114 | the image list has no duplicates, holds exactly the candidate URLs (single-image keys, then the `images` list, then the five slots), and keeps first-seen order |
| Media.ProductImagesAbsolute | globe/schema_utils.py:74-114 | with an absolute media base every image URL is absolute http(s) and stripped |
| Media.AddKeyedImages | globe/schema_utils.py:81-86 | the loop over image keys appends each new resolved URL once, in key order |
| Media.AddEntryImages | globe/schema_utils.py:89-97 | the loop over the `images` list appends each new resolved `image`/`url` once, in list order |
| Media.CollectProductImages | globe/schema_utils.py:74-114 | the three loops produce exactly the specified image list |
| Media.VideoId | globe/schema_utils.py:138 | a video `@id` is the page URL followed by `#video-` |
| Media.LegacyVideo | globe/schema_utils.py:123-155 | a slot gives a node exactly when its file or its URL is truthy, whatever the type of its title (`str()` of it names the video); the `@id` carries the slot number; a given URL becomes `url`, and `embedUrl` only when it is absolute http(s); `contentUrl` is the file's media URL |
| Media.StructuredVideo | globe/schema_utils.py:173-205 | a node from the `videos` list, whatever the type of its title, is a VideoObject without `embedUrl`, tagged `#video-`, whose `contentUrl` was not seen before |
| Media.VideoObjects | globe/schema_utils.py:117-207 | every video node is a VideoObject whose `@id` is the page URL followed by `#video-` |
| Media.StructuredVideosSpec | globe/schema_utils.py:162-205 | the structured loop only appends, and no appended node repeats a media URL seen before it or carried by another appended node |
| Media.VideoObjectsSpec | globe/schema_utils.py:117-207 | at most three legacy nodes come first, and the structured nodes after them never repeat a media URL |
| Media.StructuredVideosTagged | globe/schema_utils.py:186-188 | the structured loop keeps every node tagged as a video of the page |
| Media.LegacyVideosTagged | globe/schema_utils.py:158-160 | the three legacy slots give nodes tagged as videos of the page |
| Media.CollectSeenUrls | globe/schema_utils.py:166-171 | the loop gathers exactly the `contentUrl`, `embedUrl` and `url` texts of the legacy nodes |
| Media.AppendStructuredVideos | globe/schema_utils.py:173-205 | the loop over `videos`, with its `seen_urls` set, produces exactly the specified nodes |
| Media.BuildVideoObjects | globe/schema_utils.py:117-207 | `_build_video_objects` produces exactly the specified video list |
| Media.CollectLegacyVideos | globe/schema_utils.py:123-160 | the three legacy video slots, taken in order, give exactly the specified legacy videos |
| Sections.FaqEntry | globe/schema_utils.py:219-235 | an entry is kept exactly when it is a dict whose stripped question and answer are both non-blank |
| Sections.FaqSchema | globe/schema_utils.py:210-244 | a present node is an FAQPage with `@id` page + `#faqs` |
| Sections.FaqSchemaPresent | globe/schema_utils.py:214-238 | the FAQ node exists exactly when some entry has a non-blank question and answer |
| Sections.FaqQuestionsClean | globe/schema_utils.py:222-235 | every listed question and answer is non-blank and already stripped |
| Sections.BuildFaqSchema | globe/schema_utils.py:210-244 | the loop over `faqs_formatted` produces exactly the specified FAQ node |
| Sections.HowToStepOf | globe/schema_utils.py:256-270 | a step is kept exactly when it is a dict with a non-blank description, at its 1-based input position |
| Sections.ImportHowTo | globe/schema_utils.py:247-281 | a present node is a HowTo with `@id` page + `#how-to-import` |
| Sections.ImportHowToPresent | globe/schema_utils.py:251-273 | the HowTo exists exactly when some step has a non-blank description |
| Sections.ImportHowToSteps | globe/schema_utils.py:255-270 | step positions lie in 1..n and strictly increase, and every step has text |
| Sections.BuildImportHowTo | globe/schema_utils.py:247-281 | the enumerate loop produces exactly the specified HowTo node |
| Sections.BlogId | globe/schema_utils.py:322 | a posting `@id` is non-empty and ends in a digit |
| Sections.BlogPostingAt | globe/schema_utils.py:295-333 | a post gives a node exactly when it is a dict with a non-blank title; the node has that headline and an `@id` built from its URL and position |
| Sections.BlogNode | globe/schema_utils.py:320-331 | the BlogPosting carries the URL, the headline and the `#blog-<n>` `@id` |
| Sections.BlogPostings | globe/schema_utils.py:284-335 | every node is a BlogPosting whose `@id` ends in a digit |
| Sections.BlogIdRank | globe/schema_utils.py:322 | a posting's position can be read back from its `@id` |
| Sections.BlogPostingsSpec | globe/schema_utils.py:284-335 | at most three postings, each with a non-blank headline and an `@id` ending in its position 1..3; the `@id`s are pairwise distinct |
| Sections.BuildBlogPostings | globe/schema_utils.py:284-335 | the loop over the first three posts produces exactly the specified postings |
| Sections.PostingsLoop | globe/schema_utils.py:295-335 | the loop over the enumerated posts keeps exactly the postings that are built, in order, positions starting at 1 |
| Seller.FirstTextPrefers | globe/schema_utils.py:426-428 | `((a or "") or (b or "")).strip()`: a truthy `a` makes `b` irrelevant, a falsy `a` counts as absent, and the result is already stripped |
| Seller.FoundingDate | globe/schema_utils.py:504-507 | a founding date exactly when the stripped year is four digits, and then it is that year followed by `-01-01` |
| Seller.SellerOrganization | globe/schema_utils.py:417-509 | a node exactly when the organisation name is non-blank; it is an Organization with `@id` page + `#seller` |
| Seller.SellerPresent | globe/schema_utils.py:424-437 | the name is the stripped organisation when truthy, else the user's name; a truthy all-blank organisation suppresses the node |
| Seller.ProfilesSpec | globe/schema_utils.py:483-490 | the social profiles are listed once each, are exactly the accepted profile URLs, and are absolute http(s) |
| Seller.SellerLinks | globe/schema_utils.py:476-493 | the website and the `sameAs` profiles of the node are absolute http(s), without duplicates, each from one of the three social fields |
| Seller.SellerAddressSpec | globe/schema_utils.py:439-454 | an address exactly when the street, city or country is non-blank, holding exactly the non-blank parts; the country is the origin country, else the badge country |
| Seller.SellerContactSpec | globe/schema_utils.py:456-474 | a sales contact exactly when the phone or the e-mail is non-blank, each taken from the product before the user |
| Seller.BuildSellerOrganization | globe/schema_utils.py:417-509 | the builder, with its profile loop, produces exactly the specified node |
| Reviews.RatingOf | globe/schema_utils.py:361-366 | a rating is kept exactly when the value is not None and `float()` accepts it |
| Reviews.CountOf | globe/schema_utils.py:367-372 | a count is kept exactly when the value is not None and `int()` accepts it, and it is that integer |
| Reviews.ReviewOf | globe/schema_utils.py:378-406 | a review is kept exactly when it is a dict with non-blank content; its body is that content and its rating the converted one |
| Reviews.AggregateRatingSchema | globe/schema_utils.py:338-414 | a present node is an AggregateRating with `@id` page + `#aggregate-rating` that points to page + `#product` |
| Reviews.AggregateRatingPresent | globe/schema_utils.py:346-412 | the node exists exactly when the average converts, the count converts, or one of the first five reviews has content |
| Reviews.AggregateRatingShape | globe/schema_utils.py:354-409 | at most five reviews are attached, each with a non-blank body |
| Reviews.AttachReviews | globe/schema_utils.py:374-406 | the loop keeps exactly the reviews with content, and `has_numbers` becomes true exactly when a kept review has a rating |
| Reviews.BuildAggregateRating | globe/schema_utils.py:338-414 | the builder produces exactly the specified rating node |
| Properties.TechDetail | globe/schema_utils.py:597-612 | a technical detail is kept exactly when both its stripped name and description are non-blank, and then carries them |
| Properties.ScalarValue | globe/schema_utils.py:624-637 | for any value, a scalar field is kept exactly when it is not None, "", 0 or "0" and its `str()` stripped is non-blank; it is then named by its caption and carries that stripped text |
| Properties.OptionText | globe/schema_utils.py:648-656 | an option is kept exactly when its text (a dict's `value or ""`, anything else `str()` of it) is non-blank after stripping, and then it is that stripped text |
| Properties.Variation | globe/schema_utils.py:639-665 | a variation is kept exactly when it is a dict with a non-blank stripped name and some non-blank option; the value is its non-blank option texts joined with ", ", in order |
| Properties.ItemText | globe/schema_utils.py:680 | for any item, it is kept exactly when `str()` of it stripped is non-blank, and then it is that text |
| Properties.ListValue | globe/schema_utils.py:676-689 | a list field is kept exactly when `value or []` is a list with a non-blank item; it is named by its caption and its value is the non-blank item texts joined with ", " |
| Properties.ShippingOption | globe/schema_utils.py:691-708 | a shipping option is kept exactly when it is a dict with a non-blank name; it is named "Import shipping option" |
| Properties.ShippingOptionValue | globe/schema_utils.py:697-701 | the value starts with the name; it is the name alone exactly when the image text is blank, and otherwise the name is followed by ` (<image>)` |
| Properties.PackagingParts | globe/schema_utils.py:723-729 | the parts are empty exactly when unit, material and notes are all blank |
| Properties.PackagingEntry | globe/schema_utils.py:716-737 | an entry is kept exactly when one of type, unit, material or notes is non-blank |
| Properties.PackagingNamed | globe/schema_utils.py:722 | a kept entry is named `Packaging – ` followed by the type, or "Option" when the type is blank |
| Properties.Packaging | globe/schema_utils.py:710-737 | a packaging entry is kept exactly when it is a dict with one non-blank field |
| Properties.Compliance | globe/schema_utils.py:739-756 | a note is kept exactly when it is a dict with a non-blank description; it is named by its title or "Important compliance" |
| Properties.PackagingGroupNamed | globe/schema_utils.py:710-737 | every packaging property has a non-blank name |
| Properties.CaptionsNonEmpty | globe/schema_utils.py:615-623 | every caption of the scalar, list and badge field tables is non-empty |
| Properties.GoodsProps | globe/schema_utils.py:597-689 | every property of the goods groups has a non-blank name |
| Properties.TradeProps | globe/schema_utils.py:691-779 | every property of the trade groups has a non-blank name |
| Properties.AdditionalProps | globe/schema_utils.py:594-782 | every `additionalProperty` has a non-blank name |
| Properties.CollectGoodsProps | globe/schema_utils.py:597-689 | the loops over details, scalar fields, variations and lists produce exactly the specified properties |
| Properties.CollectTradeProps | globe/schema_utils.py:691-779 | the loops over shipping, packaging, compliance and badges produce exactly the specified properties |
| Properties.CollectAdditionalProps | globe/schema_utils.py:594-782 | the eight loops, in order, produce exactly the specified `additionalProperty` list |
| Product.LeadTimeDays | globe/schema_utils.py:571-583 | a lead time is always a positive number of days |
| Product.LeadTimeSpec | globe/schema_utils.py:571-583 | a lead time exactly when the dispatch time is set and `int()` of it is positive, and then it is that number |
| Product.LeadTimeFromNumeral | globe/schema_utils.py:574-576 | the text `"14"` and the integer 14 both give 14 days |
| Product.OfferNode | globe/schema_utils.py:557-592 | an Offer exactly when the price is not None, "", 0 or "0"; it has `@id` page + `#offer` and the given seller |
| Product.OfferSpec | globe/schema_utils.py:557-592 | the Offer carries the price as given, currency "INR" unless one is set, the page URL, the lead time, a minimum quantity exactly when `moq` is truthy and a unit exactly when `price_unit` is |
| Product.AwardOf | globe/schema_utils.py:794-795 | no award for no names; a single string for one name; the list for several |
| Product.KeywordListFields | globe/schema_utils.py:541-545 | the keywords are the non-blank stripped fields, in field order |
| Product.KeywordOfSpec | globe/schema_utils.py:543-545 | a keyword is kept exactly when the stripped field is non-blank, and it is stripped |
| Product.KeywordsSpec | globe/schema_utils.py:546-547 | `keywords` is left out exactly when all three fields are blank |
| Product.KeywordsClean | globe/schema_utils.py:541-545 | every keyword is non-blank and stripped |
| Product.KeywordsJoined | globe/schema_utils.py:546-547 | the joined keywords start with the first keyword and are never blank |
| Product.AwardNamesSpec | globe/schema_utils.py:785-793 | the award names have no duplicates, are exactly the non-blank certification names, and keep first-seen order |
| Product.Gather | globe/schema_utils.py:800-836 | the section nodes have the `@id`s the product refers to, and the Offer names the seller when both exist |
| Product.Link | globe/schema_utils.py:524-538 | with well-built sections, the product, its references and the breadcrumbs form a linked graph |
| Product.PartsOf | globe/schema_utils.py:512-860 | the parts of every product page form a linked graph |
| Product.LinkedResolves | globe/schema_utils.py:798-817 | in a linked graph every `{"@id": ...}` reference names exactly one node |
| Product.ReferencesResolved | globe/schema_utils.py:798-817 | every `offers`, `brand`, `manufacturer`, `seller`, `aggregateRating` and `itemReviewed` reference of the product graph names exactly one node in it |
| Product.GraphShape | globe/schema_utils.py:798-860 | the graph starts with the Product node (page `#product`, page URL, product name) and ends with the breadcrumbs |
| Product.AssembleEnds | globe/schema_utils.py:798-860 | the assembled graph has at least two nodes, the product first and the breadcrumbs last |
| Product.ProductRefs | globe/schema_utils.py:590-817 | the product refers to the offer exactly when the price is set, to the seller as brand and manufacturer exactly when the organisation name is non-blank, and to the rating exactly when it exists; the offer names the seller |
| Product.GatherPresent | globe/schema_utils.py:800-817 | the offer, seller and rating nodes exist exactly under those same conditions |
| Product.TargetsUnique | globe/schema_utils.py:798-836 | the product `@id` occurs once; the offer, seller and rating `@id`s occur once when built and not at all otherwise |
| Product.CountTargets | globe/schema_utils.py:798-836 | in a linked graph those four `@id`s occur exactly once each when their nodes exist |
| Product.BreadcrumbsSpec | globe/schema_utils.py:838-860 | exactly two crumbs: position 1 is Home at the site root made absolute, position 2 is the page under the product name |
| Product.BuildOwnFields | globe/schema_utils.py:523-795 | the loops for images, keywords, properties and awards produce exactly the product's own fields |
| Product.CollectKeywords | globe/schema_utils.py:540-547 | the keyword loop and join produce exactly the specified keywords |
| Product.CollectAwards | globe/schema_utils.py:784-795 | the certification loop produces exactly the specified award |
| Product.BuildSections | globe/schema_utils.py:557-836 | the section builders, with the seller written into the offer, produce exactly the specified sections |
| Product.BuildProductSchema | globe/schema_utils.py:512-860 | `build_product_schema` produces exactly the specified graph, in source order |
| Resolver.IdBody | globe/views.py:262 | the id body is a prefix of the value |
| Resolver.LooksLikeProductId | globe/views.py:265-274 | an id-like text is 20 to 65 characters long, the 65th a newline, and opens with twenty hex digits or dashes |
| Resolver.LooksLikeProductIdSpec | globe/views.py:262-274 | the id test holds exactly when `^[0-9a-fA-F\-]{20,64}$` matches, including Python's `$` before one final newline |
| Resolver.SlugOr | globe/views.py:292 | `slugify(s) or s` is blank only when both are |
| Resolver.NormaliseSlug | globe/views.py:287 | a normalised slug neither starts nor ends with `/` |
| Resolver.Candidates | globe/views.py:296-307 | one to four queries, the slug first |
| Resolver.CandidatesSpec | globe/views.py:296-307 | the queries in order: the slug, then its hyphen-free spaced form when it differs, then the first two words when there are two, then the first word when there is one |
| Resolver.FirstHit | globe/views.py:331-352 | an id exactly when some item hits the target; then it is the id of the first such item |
| Resolver.PickFrom | globe/views.py:317-364 | a query raises exactly on a non-dict response; a picked id is non-blank and is that of the first matching item or of the only item |
| Resolver.IssuedSpec | globe/views.py:309-315 | the queries sent are non-blank stripped candidates, none sent twice |
| Resolver.ResolveRestIsFirstAnswer | globe/views.py:309-366 | the candidate loop with `seen_queries` gives the first answer among the distinct queries it sends |
| Resolver.FirstAnswerResolved | globe/views.py:311-364 | a resolved id is non-blank and came from one query's response |
| Resolver.ResolveProductId | globe/views.py:277-366 | a blank slug resolves to nothing; a resolved id is non-blank and was given by one of the distinct queries the slug yields |
| Resolver.ScanItems | globe/views.py:331-352 | the item loop finds exactly the first hit |
| Resolver.Query | globe/views.py:317-364 | one query step gives exactly the specified pick |
| Resolver.ResolveCandidates | globe/views.py:309-366 | the candidate loop gives exactly the specified resolution |
| Resolver.ResolveProductIdLoop | globe/views.py:277-366 | `_resolve_product_id_from_slug` gives exactly the specified resolution |
| Resolver.ProductBody | globe/views.py:390 | a product is found exactly when the upstream body is a dict |
| Resolver.FetchProduct | globe/views.py:369-413 | a blank identifier is not found, and a product is only ever a dict body of the detail endpoint |
| Resolver.FetchDirect | globe/views.py:385-396 | an id-like identifier is looked up directly; only a 404 sends it on to the slug path |
| Resolver.FetchRoutesBySlug | globe/views.py:385-399 | any other identifier, and an id-like one that gave a 404, takes the slug path |
| Resolver.AfterResolveSpec | globe/views.py:399-413 | on the slug path, "not found" means no resolution or a 404 for the resolved id, and only a non-dict search response escapes |
| Analytics.DecryptEnvelope | globe/views.py:85-92 | nothing unless the body is a dict with a truthy key, iv and data |
| Analytics.Payload | globe/views.py:876-883 | a plain payload with `session` and `events` is used as is; a failed decryption gives `{}` |
| Analytics.ParseTs | globe/views.py:903-913 | a falsy timestamp gives no time; a truthy non-text one raises (`parse_datetime` of a non-string); a time only comes from parsing the text |
| Analytics.MergeTexts | globe/views.py:933-949 | each text column becomes the truthy incoming text cut to its limit, else the stored text cut to it (unchanged when it fits) |
| Analytics.MergeFlags | globe/views.py:951-953 | each flag becomes the truthiness of the incoming value when the key is present, else keeps the stored flag |
| Analytics.Clamp | globe/views.py:961-967 | a counter is never negative and `max_scroll_pct` never exceeds 100; an in-range value is kept |
| Analytics.MergeCounters | globe/views.py:955-967 | each counter is the clamped `int(value or 0)` when that converts (0 for a falsy value), else the clamped stored counter |
| Analytics.Increments | globe/views.py:973-977 | each incoming key carries its `int(value or 0)` increment |
| Analytics.MergeDurationsSpec | globe/views.py:969-981 | each strictly positive increment is added to its key's stored value; every other key keeps its value, no key is lost and no value decreases |
| Analytics.UpdateSessionSpec | globe/views.py:927-985 | the stored start is kept, an absent one is filled; a parsed end replaces the stored one; `user_id` is the truthy incoming id, else the stored one, stripped and cut to 64; texts, flags and counters are refreshed as above; durations are merged when a dict comes in; the last section is replaced only by a non-blank one |
| Analytics.UserIdRefreshed | globe/views.py:927 | `str(user_id or stored or "").strip()` is the truthy incoming id, else the stored id stripped |
| Analytics.CounterReplaced | globe/views.py:955-967 | an incoming value that `int()` converts replaces the counter, clamped, whatever was stored; a falsy one resets it to 0 |
| Analytics.CounterKept | globe/views.py:955-959 | an absent or unconvertible counter keeps the stored value |
| Analytics.KeyOf | globe/views.py:895-902 | the session key's product id has at most 64 characters |
| Analytics.IngestData | globe/views.py:890-1025 | on a payload dict, the answer is "missing session_id", with the store untouched, exactly when the snapshot is a dict with a blank session id |
| Analytics.EventOfTied | globe/views.py:990-1014 | only dict events with a non-blank type are kept, each tied to the session with a type of at most 64 characters |
| Analytics.SaveSpec | globe/views.py:987-1025 | saving writes the row under its key and appends exactly the kept events before the first one whose timestamp raises; it answers Saved exactly when the events are a list or text and none raises |
| Analytics.IngestSpec | globe/views.py:864-1025 | an ignored payload leaves the store unchanged; a saved one changes it as above, with a non-blank session id and a product id of at most 64 characters; a start or end time that raises crashes before anything is written |
| Analytics.IngestStep | globe/views.py:864-900 | the payload is ignored for a missing session id exactly when its snapshot is a dict with a blank `session_id`, and an ignored payload writes nothing |
| Analytics.AnalyticsStore.MergeDurationsLoop | globe/views.py:969-981 | the key-by-key loop produces exactly the merged durations |
| Analytics.AnalyticsStore.Refresh | globe/views.py:927-985 | the in-place refresh of the row produces exactly the specified session |
| Analytics.AnalyticsStore.AppendEvents | globe/views.py:990-1015 | the event loop appends exactly the kept events before the first one whose timestamp raises, counts them, reports whether one raised, and touches no session |
| Analytics.AnalyticsStore.SaveAll | globe/views.py:987-1025 | saving the row and then the events gives exactly the specified store and answer |
| Analytics.AnalyticsStore.IngestDict | globe/views.py:885-1025 | the view on a dict payload gives exactly the specified store and answer |
| Analytics.AnalyticsStore.Ingest | globe/views.py:864-1025 | `analytics_ingest` gives exactly the specified store and answer |
| Suggest.SearchQuery | globe/views.py:177-185 | no search below two stripped characters; otherwise the stripped query cut to 120 characters |
| Suggest.ShapeItem | globe/views.py:224-254 | a suggestion has a non-empty slug and a truthy title |
| Suggest.ShapeFrom | globe/views.py:222-257 | the loop yields at most six suggestions and keeps those already collected |
| Suggest.Shape | globe/views.py:222-257 | at most six suggestions, each with a non-empty slug and a truthy title |
| Suggest.ShortQueryOffline | globe/views.py:177-181 | a query under two characters is answered with no results and no search, whatever the search would answer |
| Suggest.SearchSuggest | globe/views.py:172-259 | every answer with results came from a successful search and has at most six well-formed suggestions |
| Suggest.ShapeFromAllDicts | globe/views.py:222-257 | when every item is a dict, the suggestions are the first six shaped items, in upstream order |
| Suggest.ShapeFromCrash | globe/views.py:223-225 | the loop raises only on a non-dict item |
| Suggest.SlugFallback | globe/views.py:233-240 | an item's own slug wins and the name then plays no part; otherwise the slug starts with the slugified name, and a non-blank product id can be read back after a `-` at its end |
| Suggest.ShapeLoop | globe/views.py:222-257 | the shaping loop gives exactly the specified suggestions |
| Leads.Payload | globe/views.py:594-606 | the body when it is a JSON object, otherwise `{}` |
| Leads.ClientIp | globe/views.py:581-591 | the first non-blank `X-Forwarded-For` address, without commas; otherwise `REMOTE_ADDR` |
| Leads.UserAgent | globe/views.py:767 | a prefix of the header, at most 1024 characters, the whole header when it fits |
| Leads.Quantity | globe/views.py:707-714 | a quantity is always positive; None and "" give none; an integer is kept exactly when positive |
| Leads.FormOf | globe/views.py:702-726 | a quantity read from the payload is positive |
| Leads.LatestDraft | globe/views.py:729-739 | the newest draft of the key, with no later one; none when the key has no draft |
| Leads.Promote | globe/views.py:840-846 | the bulk update touches each lead on its own and keeps the table's length |
| Leads.UpsertSpec | globe/views.py:728-770 | exactly one lead is saved: the newest draft of the key when keyed and present, else a new draft; slug, name, page URL, mobile, e-mail and frequency take the typed value and keep the old one when blank; quantity, IP and user agent are replaced; every other lead is unchanged |
| Leads.DraftStep | globe/views.py:693-772 | the autosave stores nothing unless a mobile, e-mail, quantity or frequency was typed; otherwise it is the upsert |
| Leads.UpsertKeepsValid | globe/views.py:728-770 | the upsert keeps every draft tagged as a draft, one draft per keyed pair and every submitted lead stamped |
| Leads.DraftKeepsValid | globe/views.py:693-772 | the autosave keeps the table valid |
| Leads.UpsertReused | globe/views.py:728-748 | saving the same keyed snapshot again updates the draft in place and answers with the same id |
| Leads.DraftReused | globe/views.py:728-748 | a second autosave of a keyed snapshot does not grow the table |
| Leads.SubmitStep | globe/views.py:777-859 | without a mobile or an e-mail the submission is refused with 400 and nothing changes; otherwise one submitted lead is appended, `discuss` when it has a quantity or a frequency and `quick` otherwise |
| Leads.SubmitPromotes | globe/views.py:840-846 | after a keyed submission no draft of its key is left; each is submitted at the submission's time and every other lead is unchanged |
| Leads.RecordKeepsValid | globe/views.py:817-846 | storing a submission keeps the table valid |
| Leads.SubmitKeepsValid | globe/views.py:777-859 | a submission keeps the table valid |
| Leads.LeadStore.SaveDraft | globe/views.py:693-772 | `enquiry_draft` changes the table exactly as specified and keeps it valid |
| Leads.LeadStore.Submit | globe/views.py:777-859 | `enquiry_submit` changes the table exactly as specified and keeps it valid |
| Relay.Headers | globe/views.py:1076-1085 | the three fixed headers come first; the API key follows under two names exactly when it is set |
| Relay.EnvelopeChecked | globe/views.py:1054-1061 | an envelope is a dict holding `alg`, `key`, `iv` and `data`; anything else is rejected with 400 before anything is sent |
| Relay.Forward | globe/views.py:1030-1147 | a reply is forwarded exactly when the body is an envelope, a URL with a scheme is configured and the remote answers with a status, which is reported; a rejection is 400, 500 or 502; 400 exactly for text that is not an envelope; 500 `internal_error` exactly for an undecodable body or an envelope with a configured URL that `Request` refuses; 502 only after the POST failed |
| Relay.Unwrap | globe/views.py:1093-1098 | the URL `Request` works on (`unwrap`: stripped, one `<...>` and one `URL:` dropped) carries no surrounding whitespace |
| Relay.CutFragment | globe/views.py:1093-1098 | `Request` cuts the fragment at the last `#`: the result is the prefix before it, the whole URL when there is none |
| Relay.SchemeLength | globe/views.py:1093-1098 | the scheme candidate of `_splittype`'s `([^/:]+):` is the longest prefix free of `/` and `:` |
| Relay.SlashFirst | globe/views.py:1093-1098 | a `/` before any `:` leaves the URL without a scheme |
| Relay.ColonFirst | globe/views.py:1093-1098 | a `:` after a non-empty run free of `/` and `:` ends the scheme |
| Relay.BareHostNoScheme | globe/views.py:1093-1098 | a host and path with no `:` in the host (`ingest.example.com/api`) has no scheme |
| Relay.SchemeFound | globe/views.py:1093-1098 | `https://...` and any other scheme free of `/` and `:` are found |
| Relay.PlainUrlAccepted | globe/views.py:1093-1098 | a stripped URL without `<...>`, `URL:` or `#` is accepted by `Request` exactly when it has a scheme |
| Relay.SchemelessNotSent | globe/views.py:1093-1098 | for an envelope and a configured URL without a scheme the outer handler (1142-1147) answers 500 `internal_error`, whatever the remote service would do |
| Relay.RemoteUrlPrecedence | globe/views.py:1063-1072 | a defined remote-ingest URL wins: the older setting changes nothing, and a blank one answers `remote_url_not_configured` without calling the remote service |
| MathFilters.FloorDivSpec | globe/templatetags/math_filters.py:12 | `//` gives the floor of the quotient for either sign of the divisor |
| MathFilters.IntDiv | globe/templatetags/math_filters.py:9-14 | the filter raises exactly on a TypeError; it gives the floor quotient when both sides convert and the divisor is not zero; a non-zero result only comes that way |
| MathFilters.FindFrom | globe/templatetags/math_filters.py:41 | the first occurrence of the separator at or after a position, or none |
| MathFilters.SplitOn | globe/templatetags/math_filters.py:41 | `str.split` always gives at least one piece |
| MathFilters.SplitJoin | globe/templatetags/math_filters.py:41 | joining the pieces with the separator gives the text back |
| MathFilters.SplitPiecesFree | globe/templatetags/math_filters.py:41 | no piece contains the separator |
| MathFilters.SplitNone | globe/templatetags/math_filters.py:41 | a text without the separator is one piece |
| MathFilters.SplitFirst | globe/templatetags/math_filters.py:41 | the first cut is at the first occurrence of the separator, also when it overlaps itself |
| MathFilters.Split | globe/templatetags/math_filters.py:31-45 | None or an empty separator give no parts; every part is non-empty and already stripped |
| MathFilters.StrippedParts | globe/templatetags/math_filters.py:45 | every kept part is non-empty and stripped; a part is kept exactly when some piece strips to it |
| MathFilters.SplitParts | globe/templatetags/math_filters.py:32-45 | a text is a part exactly when it is non-blank and some piece of `str(value).split(str(separator))` strips to it |
| MathFilters.SplitInOrder | globe/templatetags/math_filters.py:41-45 | the parts follow the text: a text before the first separator gives its part, when not blank, ahead of the parts of the rest |
| MathFilters.StripFilter | globe/templatetags/math_filters.py:48-60 | None gives ""; otherwise `str(value)` with its leading and trailing whitespace cut, which stripping again leaves as it is |
| MathFilters.EscapeChar | globe/templatetags/math_filters.py:76 | a markup character becomes an entity `&...;` without markup; any other character stays |
| MathFilters.EntityHead | globe/templatetags/math_filters.py:76 | an escaped character's entity is read whole at the start of any text it opens, and its `&` is its first character |
| MathFilters.EscapeUnescape | globe/templatetags/math_filters.py:76 | escaping loses nothing: the entities read back as the input |
| MathFilters.EscapeSpec | globe/templatetags/math_filters.py:76 | the escaped text has no `<`, `>` or quote, and every `&` in it opens an entity; every character comes from the input or an entity; it is empty only when the input is |
| MathFilters.EscapeStrip | globe/templatetags/math_filters.py:83 | escaping commutes with `strip()` |
| MathFilters.TargetAt | globe/templatetags/math_filters.py:77 | a matched target starts with `http://` or `https://`, holds no space or `)`, and is followed by `)` |
| MathFilters.LinkAt | globe/templatetags/math_filters.py:77 | a match is a well-formed link whose text starts the input |
| MathFilters.LinkAtComplete | globe/templatetags/math_filters.py:77 | the pattern matches every well-formed link at the start of the text and reads it back |
| MathFilters.ScanSpec | globe/templatetags/math_filters.py:93 | the substitution's scan cuts the text into pieces without losing or adding anything, and every link it finds is well-formed |
| MathFilters.MarkdownLinksSafe | globe/templatetags/math_filters.py:73-93 | the output renders the scan of the escaped text, and no `<`, `>` or quote of the input reaches it raw: plain characters, targets and shown labels are inert |
| MathFilters.ScanRendersInert | globe/templatetags/math_filters.py:76-93 | the scan of an escaped text renders inert whether or not labels and targets are escaped again |
| MathFilters.MarkdownLinksAsWrittenSafe | globe/templatetags/math_filters.py:73-93 | the filter as written is just as safe: nothing of the input reaches the page raw |
| MathFilters.PlainEscaped | globe/templatetags/math_filters.py:76-93 | a text without `[` holds no link and renders as its escape |
| MathFilters.MarkdownLinks | globe/templatetags/math_filters.py:63-93 | falsy input gives ""; a text without `[` comes out escaped once and otherwise unchanged |
| MathFilters.MarkdownLinksAsWritten | globe/templatetags/math_filters.py:63-93 | as written: falsy input gives ""; a text without `[` comes out escaped once and otherwise unchanged |
| MathFilters.SingleLink | globe/templatetags/math_filters.py:77-91 | a lone link becomes exactly its space-padded anchor: the target, and the stripped label or the target when the label is blank, each escaped once |
| MathFilters.SingleLinkAsWritten | globe/templatetags/math_filters.py:76-91 | as written, the label and the target of a lone link come out escaped twice |
| MathFilters.DoubleEscapeShown | globe/templatetags/math_filters.py:76-84 | `[&](http://x)` shows its label as `&amp;` instead of `&` |
| YoutubeFilters.Try | globe/templatetags/youtube_filters.py:11 | a match of one alternative is that prefix followed by eleven id characters, at that position |
| YoutubeFilters.HitAt | globe/templatetags/youtube_filters.py:11 | a match at a position is one of `v=`, `/shorts/` and `youtu.be/` followed by eleven id characters |
| YoutubeFilters.SearchFrom | globe/templatetags/youtube_filters.py:12-13 | "" exactly when no match starts at or after the position; otherwise group 1 of the first match |
| YoutubeFilters.FoundInUrl | globe/templatetags/youtube_filters.py:11-12 | a found id is eleven id characters that occur in the URL |
| YoutubeFilters.ExtractYoutubeId | globe/templatetags/youtube_filters.py:6-12 | the result is "" or eleven `[A-Za-z0-9_-]` characters that occur in the URL |
| YoutubeFilters.HitAtComplete | globe/templatetags/youtube_filters.py:11 | the anchored pattern finds every match, whatever the order of the alternatives |
| YoutubeFilters.EmptyIffNoMatch | globe/templatetags/youtube_filters.py:11-13 | the result is "" exactly when no prefix followed by eleven id characters occurs anywhere |
| YoutubeFilters.ResultLocated | globe/templatetags/youtube_filters.py:11-13 | a non-empty result is eleven `[A-Za-z0-9_-]` characters right after one of the prefixes, and no match starts before it |
| YoutubeFilters.FirstHitResult | globe/templatetags/youtube_filters.py:12-13 | the result is group 1 of the leftmost match |
| YoutubeFilters.NoEarlierHit | globe/templatetags/youtube_filters.py:11-12 | appending text creates no match before the first one |
| YoutubeFilters.TailIgnored | globe/templatetags/youtube_filters.py:11-13 | whatever follows a match is ignored: appending text does not change a non-empty result |

## Left out

- Decryption of the analytics envelope (RSAES-OAEP of section 7.1 of RFC 8017 with AES-GCM of NIST SP 800-38D) and the private-key cache are a parameter; only the rule that a body without a truthy key, iv and data gives nothing is modelled.
- The upstream HTTP calls (`_call_globesuggest_api`, the relay's `urlopen`) are parameters returning a body, an HTTP error status or a failure; time-outs and logging are not modelled.
- Django's `reverse`, `build_absolute_uri`, `slugify`, `parse_datetime` with its time-zone fix-up, and `timezone.now` are parameters; instants are integers.
- The ORM is a map of session rows, a sequence of events and a sequence of leads; `get_or_create` races, `max_length` enforcement by the database, and lead ids other than table positions are not modelled.
- Lead table order stands for `created_at` order; two leads created in the same instant are not distinguished.
- The final `json.dumps` of the graph is not modelled; the graph is checked as a datatype.
- Dictionary iteration order is not modelled: `section_durations` is merged as a map.
- `str()` of floats, lists and dicts is the parameter `repr`; `str()` of None, booleans, integers and strings is written out.
- `int()` of text accepts an optional sign and ASCII digits around whitespace; underscores and non-ASCII digits are not modelled.
- `str.isdigit()` in the founding date accepts ASCII digits only.
- `float()` of ratings is abstracted to "coercible or not"; the rating value is copied, not converted.
- The `mul` filter is not modelled: it is float arithmetic.
- `split` with a separator that `str()` turns into text is modelled through `repr`; the default separator "," is not a separate case.
- A settings value that is defined but None (`ANALYTICS_REMOTE_INGEST_URL = None`) is not modelled: a setting is either absent or text.
- `extract_youtube_id` of a non-string URL raises a TypeError in Python; the model only takes text.
- Fields that the builder strips or iterates without a type check must be text, falsy, or lists of dicts where the source assumes so (`ProductShaped`, `SellerShaped`, `ReviewsShaped` and the other `Shaped` predicates); the AttributeError, TypeError and ValueError paths of malformed records are not modelled, so the builder is not claimed total.
- Media.StructuredVideo: a structured video whose truthy `index` is not something `int()` accepts (a non-numeral text, a list, a dict) makes `int(...)` raise a ValueError or TypeError (globe/schema_utils.py:185); `Media.IndexArg` excludes it rather than modelling the crash.
- Relay.Forward: the URL check of `urllib.request.Request` (`unwrap`, `_splittag`, `_splittype`) is written out from Python's standard library, which is not part of this model; `urlopen`'s own refusals (an unknown scheme, a missing host) are outcomes of the `send` parameter.
- The breadcrumb `item` `@id`s (the site root and the page URL) are not graph nodes and are not counted as references.
- The source appends `product_node` and `offer_node` to the graph and then mutates them (`setdefault`, `seller`); the model builds each node's final value before assembling the graph, so aliasing is not modelled.
- The counters of an analytics session are replaced by the incoming value and clamped, as the code does, not merged with the stored maximum.
- A payload whose decryption fails becomes `{}`, which the view then ignores as a missing `session_id`, not as an invalid payload.
- The lead's `email` field is written as `enquiry_draft` and `enquiry_submit` write it; the shown `Lead` model does not declare it.
- `_get_client_ip` and the user-agent cut are modelled on the header values the request carries.
- Resolver.Candidates: its own contract states only the count and the first query; the full order is stated by `Resolver.CandidatesSpec`.
- Analytics.ParseTs: the parsing of a text is the parameter `parseTime`; only that a time comes from it, and the falsy and non-text cases, are stated.
- Properties.OptionText: a dict option whose `value` is truthy but not text makes the source raise (`.strip()` of a non-string); that input is excluded by its requires, not modelled as a crash.
- Properties.Variation: a `values` that is neither a list nor text makes the source raise, and a dict `values` (iterated by its keys) is not modelled because the model's dict has no key order; both are excluded by its requires.
- Product.LeadTimeDays: its own contract states only positivity; the exact value is stated by `Product.LeadTimeSpec`.

## Findings

| source | as written | input that shows it | evidently intended | confidence | as-written member | corrected member |
|---|---|---|---|---|---|---|
| globe/templatetags/math_filters.py:76-84 | the whole text is escaped first, and then the label and the target taken from that escaped text are escaped again | `[&](http://x)`: the anchor holds `&amp;amp;`, so the page shows `&amp;` instead of `&` | every character of the input escaped exactly once | not executed | MathFilters.MarkdownLinksAsWritten (shown by MathFilters.DoubleEscapeShown and MathFilters.SingleLinkAsWritten) | MathFilters.MarkdownLinks (MathFilters.SingleLink, MathFilters.MarkdownLinksSafe) |

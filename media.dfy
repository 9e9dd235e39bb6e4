// The image list and the VideoObject nodes of the product schema
// (`_collect_product_images` and `_build_video_objects` in
// globe/schema_utils.py). A product record is the decoded upstream JSON
// object, a map from keys to values.

module Media {
  import opened PyValue
  import opened Lists
  import opened Urls
  import opened Graph

  type Record = map<string, Value>

  // ---------------------------------------------------------------------
  // Images

  /** The single-image keys, read first. */
  const ImageKeys: seq<string> := ["image", "image_url", "thumbnail", "cover_image"]

  /** The numbered image slots, read last. */
  const ImageSlots: seq<string> :=
    ["product_image_1", "product_image_2", "product_image_3", "product_image_4", "product_image_5"]

  /** The `images` collection when it is a list, else nothing. */
  function ImageEntries(p: Record): seq<Value> {
    var raw := Or(Get(p, "images"), Arr([]));
    if raw.Arr? then raw.items else []
  }

  /** `img.get("image") or img.get("url")` */
  function EntryUrl(img: map<string, Value>): Value {
    Or(Get(img, "image"), Get(img, "url"))
  }

  /** The media URL stored under a key (a falsy value gives none). */
  function KeyedMedia(base: string, repr: Value -> string, p: Record): string -> Option<string> {
    (k: string) => AbsoluteMediaUrl(base, Get(p, k), repr)
  }

  /** The media URL of one entry of the `images` collection; non-dicts give none. */
  function EntryMedia(base: string, repr: Value -> string): Value -> Option<string> {
    (img: Value) => if img.Obj? then AbsoluteMediaUrl(base, EntryUrl(img.fields), repr) else None
  }

  /** Every URL the collector meets, in the order it meets them, repeats included. */
  function ImageCandidates(base: string, repr: Value -> string, p: Record): seq<string>
  {
    FilterMap(ImageKeys, KeyedMedia(base, repr, p)) +
    FilterMap(ImageEntries(p), EntryMedia(base, repr)) +
    FilterMap(ImageSlots, KeyedMedia(base, repr, p))
  }

  /** The `image` list of the Product node. */
  function ProductImages(base: string, repr: Value -> string, p: Record): seq<string>
  {
    DedupInto([], ImageCandidates(base, repr, p))
  }

  /** The image list holds each candidate URL exactly once, in first-seen order, and nothing else. */
  lemma ProductImagesSpec(base: string, repr: Value -> string, p: Record)
    ensures var r, c := ProductImages(base, repr, p), ImageCandidates(base, repr, p);
      NoDuplicates(r) &&
      (forall u :: u in r <==> u in c) &&
      (forall i, j :: 0 <= i < j < |r| ==> FirstIndex(c, r[i]) < FirstIndex(c, r[j]))
  {
    var c := ImageCandidates(base, repr, p);
    DedupIntoSpec([], c);
    DedupFirstSeen(c);
  }

  lemma KeyedMediaAbsolute(base: string, repr: Value -> string, p: Record, keys: seq<string>, u: string)
    requires IsAbsoluteHttp(RTrim(base, IsSlash))
    requires u in FilterMap(keys, KeyedMedia(base, repr, p))
    ensures IsAbsoluteHttp(u) && Strip(u) == u
  {
    FilterMapMember(keys, KeyedMedia(base, repr, p), u);
    var i :| 0 <= i < |keys| && KeyedMedia(base, repr, p)(keys[i]) == Some(u);
    MediaUrlIdempotent(base, Get(p, keys[i]), repr);
  }

  lemma EntryMediaAbsolute(base: string, repr: Value -> string, entries: seq<Value>, u: string)
    requires IsAbsoluteHttp(RTrim(base, IsSlash))
    requires u in FilterMap(entries, EntryMedia(base, repr))
    ensures IsAbsoluteHttp(u) && Strip(u) == u
  {
    FilterMapMember(entries, EntryMedia(base, repr), u);
    var i :| 0 <= i < |entries| && EntryMedia(base, repr)(entries[i]) == Some(u);
    MediaUrlIdempotent(base, EntryUrl(entries[i].fields), repr);
  }

  /** With an absolute media base every image URL is absolute and has no surrounding whitespace. */
  lemma ProductImagesAbsolute(base: string, repr: Value -> string, p: Record)
    requires IsAbsoluteHttp(RTrim(base, IsSlash))
    ensures forall u :: u in ProductImages(base, repr, p) ==> IsAbsoluteHttp(u) && Strip(u) == u
  {
    ProductImagesSpec(base, repr, p);
    forall u | u in ProductImages(base, repr, p) ensures IsAbsoluteHttp(u) && Strip(u) == u {
      if u in FilterMap(ImageKeys, KeyedMedia(base, repr, p)) {
        KeyedMediaAbsolute(base, repr, p, ImageKeys, u);
      } else if u in FilterMap(ImageEntries(p), EntryMedia(base, repr)) {
        EntryMediaAbsolute(base, repr, ImageEntries(p), u);
      } else {
        KeyedMediaAbsolute(base, repr, p, ImageSlots, u);
      }
    }
  }

  /** One pass of `_collect_product_images` over a tuple of keys: each truthy
      value's media URL is appended unless already listed. */
  method AddKeyedImages(base: string, repr: Value -> string, p: Record, keys: seq<string>, images: seq<string>)
    returns (out: seq<string>)
    ensures out == DedupInto(images, FilterMap(keys, KeyedMedia(base, repr, p)))
  {
    var keyed := KeyedMedia(base, repr, p);
    assert Accepts(keys, keyed);
    out := images;
    for i := 0 to |keys|
      invariant Accepts(keys[..i], keyed)
      invariant out == DedupInto(images, FilterMap(keys[..i], keyed))
    {
      FilterMapSnoc(keys, i, keyed);
      DedupIntoKept(images, FilterMap(keys[..i], keyed), keyed(keys[i]));
      var url := Get(p, keys[i]);
      if !Truthy(url) {
        continue;
      }
      var absUrl := AbsoluteMediaUrl(base, url, repr);
      if absUrl.Some? && absUrl.value !in out {
        out := out + [absUrl.value];
      }
    }
    assert keys[..|keys|] == keys;
  }

  /** The pass over the `images` collection: dict entries contribute their `image` or `url`. */
  method AddEntryImages(base: string, repr: Value -> string, entries: seq<Value>, images: seq<string>)
    returns (out: seq<string>)
    ensures out == DedupInto(images, FilterMap(entries, EntryMedia(base, repr)))
  {
    var entry := EntryMedia(base, repr);
    assert Accepts(entries, entry);
    out := images;
    for i := 0 to |entries|
      invariant Accepts(entries[..i], entry)
      invariant out == DedupInto(images, FilterMap(entries[..i], entry))
    {
      FilterMapSnoc(entries, i, entry);
      DedupIntoKept(images, FilterMap(entries[..i], entry), entry(entries[i]));
      var img := entries[i];
      if !img.Obj? {
        continue;
      }
      var absUrl := AbsoluteMediaUrl(base, EntryUrl(img.fields), repr);
      if absUrl.Some? && absUrl.value !in out {
        out := out + [absUrl.value];
      }
    }
    assert entries[..|entries|] == entries;
  }

  /** `_collect_product_images(product)` */
  method CollectProductImages(base: string, repr: Value -> string, p: Record) returns (images: seq<string>)
    ensures images == ProductImages(base, repr, p)
  {
    images := AddKeyedImages(base, repr, p, ImageKeys, []);
    var rawImages := Or(Get(p, "images"), Arr([]));
    if rawImages.Arr? {
      assert rawImages.items == ImageEntries(p);
      images := AddEntryImages(base, repr, rawImages.items, images);
    }
    images := AddKeyedImages(base, repr, p, ImageSlots, images);
    var a := FilterMap(ImageKeys, KeyedMedia(base, repr, p));
    var b := FilterMap(ImageEntries(p), EntryMedia(base, repr));
    DedupIntoConcat([], a, b);
    DedupIntoConcat([], a + b, FilterMap(ImageSlots, KeyedMedia(base, repr, p)));
  }

  // ---------------------------------------------------------------------
  // Videos

  /** The value the video names start with: `product_title or product_name or 'Product'`. */
  function VideoTitle(p: Record): Value {
    Or(Get(p, "product_title"), Or(Get(p, "product_name"), Str("Product")))
  }

  /** `short_description or description or ""` */
  function VideoDescription(p: Record): Value {
    Or(Get(p, "short_description"), Or(Get(p, "description"), Str("")))
  }

  /** "<title> – Video <idx>" (with an en dash). */
  function VideoName(repr: Value -> string, p: Record, idx: int): string {
    StrOf(VideoTitle(p), repr) + " \U{2013} Video " + IntToDecimal(idx)
  }

  function VideoId(page: string, idx: int): (r: string)
    ensures StartsWith(r, page + "#video-")
  {
    page + "#video-" + IntToDecimal(idx)
  }

  /** The values one legacy slot reads: a media file, an embed URL that is a
      string when set, and a thumbnail. */
  predicate LegacySlotShaped(p: Record, fileKey: string, urlKey: string, thumbKey: string) {
    StrOrFalsy(Get(p, urlKey))
  }

  /** `add_video(idx, file_key, url_key, thumb_key)`: the node it appends, if any. */
  function LegacyVideo(base: string, page: string, repr: Value -> string, p: Record, idx: int,
                       fileKey: string, urlKey: string, thumbKey: string): (r: Option<Node>)
    requires LegacySlotShaped(p, fileKey, urlKey, thumbKey)
    ensures r.Some? <==> Truthy(Get(p, fileKey)) || Truthy(Get(p, urlKey))
    ensures r.Some? ==> r.value.VideoObject? && r.value.id == VideoId(page, idx)
    ensures r.Some? && Truthy(Get(p, urlKey)) ==>
      r.value.url == Get(p, urlKey).s &&
      (r.value.embedUrl.Some? <==> IsAbsoluteHttp(Get(p, urlKey).s))
    ensures r.Some? ==> r.value.contentUrl == AbsoluteMediaUrl(base, Get(p, fileKey), repr)
  {
    var fileUrl, embedUrl, thumb := Get(p, fileKey), Get(p, urlKey), Get(p, thumbKey);
    if !(Truthy(fileUrl) || Truthy(embedUrl)) then None
    else
      var contentUrl := if Truthy(fileUrl) then AbsoluteMediaUrl(base, fileUrl, repr) else None;
      // `embed or content_url or page_url`: `embed` falls back to
      // `content_url` already, and neither is ever an empty string.
      var embed := if Truthy(embedUrl) then Some(embedUrl.s) else contentUrl;
      var url := if embed.Some? then embed.value else page;
      Some(VideoObject(
        VideoId(page, idx),
        VideoName(repr, p, idx),
        VideoDescription(p),
        url,
        if Truthy(thumb) then AbsoluteMediaUrl(base, thumb, repr) else None,
        contentUrl,
        if embed.Some? && IsAbsoluteHttp(embed.value) then embed else None))
  }

  predicate LegacyShaped(p: Record) {
    LegacySlotShaped(p, "product_video_1", "video_url_1", "product_video_1_thumb") &&
    LegacySlotShaped(p, "product_video_2", "video_url_2", "product_video_2_thumb") &&
    LegacySlotShaped(p, "product_video_3", "video_url_3", "product_video_3_thumb")
  }

  /** The three legacy slots, in order. */
  function LegacyVideos(base: string, page: string, repr: Value -> string, p: Record): (r: seq<Node>)
    requires LegacyShaped(p)
  {
    Kept(LegacyVideo(base, page, repr, p, 1, "product_video_1", "video_url_1", "product_video_1_thumb")) +
    Kept(LegacyVideo(base, page, repr, p, 2, "product_video_2", "video_url_2", "product_video_2_thumb")) +
    Kept(LegacyVideo(base, page, repr, p, 3, "product_video_3", "video_url_3", "product_video_3_thumb"))
  }

  /** The non-empty URLs a video node carries (`contentUrl`, `embedUrl`, `url`). */
  function NodeUrls(n: Node): set<string> {
    if !n.VideoObject? then {}
    else
      (if n.contentUrl.Some? && n.contentUrl.value != "" then {n.contentUrl.value} else {}) +
      (if n.embedUrl.Some? && n.embedUrl.value != "" then {n.embedUrl.value} else {}) +
      (if n.url != "" then {n.url} else {})
  }

  /** `seen_urls` as the source fills it from the legacy videos. */
  function SeenUrls(videos: seq<Node>): set<string> {
    if videos == [] then {} else SeenUrls(videos[..|videos| - 1]) + NodeUrls(videos[|videos| - 1])
  }

  /** An `index` that `int(index or fallback)` accepts. */
  predicate IndexArg(v: Value) {
    !Truthy(v) || PyInt(v).IntOk?
  }

  function VideoIndex(v: Value, fallback: int): int
    requires IndexArg(v)
  {
    if Truthy(v) then PyInt(v).n else fallback
  }

  predicate VideoItemShaped(item: Value) {
    item.Obj? ==>
      IndexArg(Get(item.fields, "index"))
  }

  predicate VideoItemsShaped(items: seq<Value>) {
    forall i :: 0 <= i < |items| ==> VideoItemShaped(items[i])
  }

  /** The node the structured loop builds from one item, given the URLs seen
      so far and the number of nodes built so far; None when it skips the item. */
  function StructuredVideo(base: string, page: string, repr: Value -> string, p: Record, item: Value,
                           seen: set<string>, count: int): (r: Option<Node>)
    requires VideoItemShaped(item)
    ensures r.Some? ==> r.value.VideoObject? && r.value.embedUrl.None? && StartsWith(r.value.id, page + "#video-")
    ensures r.Some? && r.value.contentUrl.Some? ==> r.value.contentUrl.value !in seen
  {
    if !item.Obj? then None
    else
      var videoUrl, thumbUrl := Get(item.fields, "video_url"), Get(item.fields, "thumbnail_url");
      if !Truthy(videoUrl) && !Truthy(thumbUrl) then None
      else
        var contentUrl := AbsoluteMediaUrl(base, videoUrl, repr);
        if contentUrl.Some? && contentUrl.value in seen then None
        else
          var idx := VideoIndex(Get(item.fields, "index"), count + 1);
          Some(VideoObject(
            VideoId(page, idx),
            VideoName(repr, p, idx),
            VideoDescription(p),
            if contentUrl.Some? then contentUrl.value else page,
            if Truthy(thumbUrl) then AbsoluteMediaUrl(base, thumbUrl, repr) else None,
            contentUrl,
            None))
  }

  /** `seen_urls` after a structured node is added. */
  function SeenAfter(seen: set<string>, node: Node): set<string> {
    if node.VideoObject? && node.contentUrl.Some? then seen + {node.contentUrl.value} else seen
  }

  /** The structured `videos` loop from the current item on, given the URLs
      seen so far and the nodes built so far; the nodes at the end. */
  function StructuredVideos(base: string, page: string, repr: Value -> string, p: Record, items: seq<Value>,
                            seen: set<string>, videos: seq<Node>): seq<Node>
    requires VideoItemsShaped(items)
    decreases |items|
  {
    if items == [] then videos
    else
      assert VideoItemShaped(items[0]);
      match StructuredVideo(base, page, repr, p, items[0], seen, |videos|)
      case None => StructuredVideos(base, page, repr, p, items[1..], seen, videos)
      case Some(node) => StructuredVideos(base, page, repr, p, items[1..], SeenAfter(seen, node), videos + [node])
  }

  /** The `videos` collection when it is a list. */
  function VideoItems(p: Record): Option<seq<Value>> {
    var raw := Or(Get(p, "videos"), Arr([]));
    if raw.Arr? then Some(raw.items) else None
  }

  predicate VideosShaped(p: Record) {
    LegacyShaped(p) &&
    (VideoItems(p).Some? ==> VideoItemsShaped(VideoItems(p).value))
  }

  /** The VideoObject nodes of the product schema, all tagged `#video-`
      under the page URL. */
  function VideoObjects(base: string, page: string, repr: Value -> string, p: Record): (r: seq<Node>)
    requires VideosShaped(p)
    ensures VideoIdsTagged(page, r)
  {
    var legacy := LegacyVideos(base, page, repr, p);
    LegacyVideosTagged(base, page, repr, p);
    if VideoItems(p).Some? then
      StructuredVideosTagged(base, page, repr, p, VideoItems(p).value, SeenUrls(legacy), legacy);
      StructuredVideos(base, page, repr, p, VideoItems(p).value, SeenUrls(legacy), legacy)
    else legacy
  }

  /** From index `from` on, `r` holds video nodes without an embed URL, and
      no media file URL among them is in `seen` or repeats an earlier one. */
  predicate FreshContents(r: seq<Node>, from: nat, seen: set<string>)
    requires from <= |r|
  {
    (forall j :: from <= j < |r| ==> r[j].VideoObject? && r[j].embedUrl.None?) &&
    (forall j :: from <= j < |r| && r[j].contentUrl.Some? ==>
      r[j].contentUrl.value !in seen &&
      forall k :: from <= k < j && r[k].contentUrl.Some? ==> r[k].contentUrl != r[j].contentUrl)
  }

  /** Appending one fresh node in front of a fresh tail keeps the whole run fresh. */
  lemma FreshContentsStep(r: seq<Node>, videos: seq<Node>, node: Node, seen: set<string>)
    requires |videos| < |r| && r[..|videos| + 1] == videos + [node]
    requires node.VideoObject? && node.embedUrl.None?
    requires node.contentUrl.Some? ==> node.contentUrl.value !in seen
    requires FreshContents(r, |videos| + 1, SeenAfter(seen, node))
    ensures r[..|videos|] == videos && FreshContents(r, |videos|, seen)
  {
    var n := |videos|;
    assert r[n] == r[..n + 1][n] == node;
    assert r[..n] == r[..n + 1][..n];
    var seen' := SeenAfter(seen, node);
    forall j | n <= j < |r| && r[j].contentUrl.Some?
      ensures r[j].contentUrl.value !in seen
      ensures forall k :: n <= k < j && r[k].contentUrl.Some? ==> r[k].contentUrl != r[j].contentUrl
    {
      if j > n && node.contentUrl.Some? {
        assert node.contentUrl.value in seen';
      }
    }
  }

  lemma VideoItemsTail(items: seq<Value>)
    requires items != [] && VideoItemsShaped(items)
    ensures VideoItemShaped(items[0]) && VideoItemsShaped(items[1..])
  {
    forall i | 0 <= i < |items[1..]| ensures VideoItemShaped(items[1..][i]) {
      assert items[1..][i] == items[i + 1];
    }
  }

  /** The structured loop only appends video nodes; a node with a media file
      never repeats a URL seen before it, nor one of another such node. */
  lemma {:induction false} StructuredVideosSpec(base: string, page: string, repr: Value -> string, p: Record,
                                               items: seq<Value>, seen: set<string>, videos: seq<Node>)
    requires VideoItemsShaped(items)
    ensures var r := StructuredVideos(base, page, repr, p, items, seen, videos);
      |videos| <= |r| && r[..|videos|] == videos && FreshContents(r, |videos|, seen)
    decreases |items|
  {
    if items != [] {
      VideoItemsTail(items);
      var step := StructuredVideo(base, page, repr, p, items[0], seen, |videos|);
      if step.None? {
        StructuredVideosSpec(base, page, repr, p, items[1..], seen, videos);
      } else {
        var node := step.value;
        var seen', videos' := SeenAfter(seen, node), videos + [node];
        StructuredVideosSpec(base, page, repr, p, items[1..], seen', videos');
        FreshContentsStep(StructuredVideos(base, page, repr, p, items[1..], seen', videos'), videos, node, seen);
      }
    }
  }

  /** What `_build_video_objects` promises: the legacy slots come first, in
      slot order and numbered by slot, and no structured node repeats a media
      URL that a legacy node or an earlier structured node already carries. */
  lemma VideoObjectsSpec(base: string, page: string, repr: Value -> string, p: Record)
    requires VideosShaped(p)
    ensures var legacy, r := LegacyVideos(base, page, repr, p), VideoObjects(base, page, repr, p);
      |legacy| <= 3 && |legacy| <= |r| && r[..|legacy|] == legacy &&
      FreshContents(r, |legacy|, SeenUrls(legacy))
  {
    var legacy := LegacyVideos(base, page, repr, p);
    if VideoItems(p).Some? {
      StructuredVideosSpec(base, page, repr, p, VideoItems(p).value, SeenUrls(legacy), legacy);
    }
  }

  /** Every node is a VideoObject whose `@id` is the page URL followed by `#video-`. */
  predicate VideoIdsTagged(page: string, r: seq<Node>) {
    forall k :: 0 <= k < |r| ==> r[k].VideoObject? && StartsWith(r[k].id, page + "#video-")
  }

  lemma {:induction false} StructuredVideosTagged(base: string, page: string, repr: Value -> string, p: Record,
                                                 items: seq<Value>, seen: set<string>, videos: seq<Node>)
    requires VideoItemsShaped(items) && VideoIdsTagged(page, videos)
    ensures VideoIdsTagged(page, StructuredVideos(base, page, repr, p, items, seen, videos))
    decreases |items|
  {
    if items != [] {
      VideoItemsTail(items);
      var step := StructuredVideo(base, page, repr, p, items[0], seen, |videos|);
      if step.None? {
        StructuredVideosTagged(base, page, repr, p, items[1..], seen, videos);
      } else {
        StructuredVideosTagged(base, page, repr, p, items[1..], SeenAfter(seen, step.value), videos + [step.value]);
      }
    }
  }

  lemma LegacyVideosTagged(base: string, page: string, repr: Value -> string, p: Record)
    requires LegacyShaped(p)
    ensures VideoIdsTagged(page, LegacyVideos(base, page, repr, p))
  {
    var v1 := LegacyVideo(base, page, repr, p, 1, "product_video_1", "video_url_1", "product_video_1_thumb");
    var v2 := LegacyVideo(base, page, repr, p, 2, "product_video_2", "video_url_2", "product_video_2_thumb");
    var v3 := LegacyVideo(base, page, repr, p, 3, "product_video_3", "video_url_3", "product_video_3_thumb");
    assert VideoIdsTagged(page, Kept(v1)) && VideoIdsTagged(page, Kept(v2)) && VideoIdsTagged(page, Kept(v3));
  }

  /** The legacy nodes' URLs gathered into `seen_urls`. */
  method CollectSeenUrls(legacy: seq<Node>) returns (seenUrls: set<string>)
    ensures seenUrls == SeenUrls(legacy)
  {
    seenUrls := {};
    for i := 0 to |legacy|
      invariant seenUrls == SeenUrls(legacy[..i])
    {
      assert legacy[..i + 1][..i] == legacy[..i];
      var v := legacy[i];
      if v.VideoObject? {
        if v.contentUrl.Some? && v.contentUrl.value != "" { seenUrls := seenUrls + {v.contentUrl.value}; }
        if v.embedUrl.Some? && v.embedUrl.value != "" { seenUrls := seenUrls + {v.embedUrl.value}; }
        if v.url != "" { seenUrls := seenUrls + {v.url}; }
      }
    }
    assert legacy[..|legacy|] == legacy;
  }

  /** The loop over the structured `videos` collection. */
  method AppendStructuredVideos(base: string, page: string, repr: Value -> string, p: Record, items: seq<Value>,
                                seen: set<string>, legacy: seq<Node>) returns (videos: seq<Node>)
    requires VideoItemsShaped(items)
    ensures videos == StructuredVideos(base, page, repr, p, items, seen, legacy)
  {
    videos := legacy;
    var seenUrls := seen;
    for i := 0 to |items|
      invariant StructuredVideos(base, page, repr, p, items[i..], seenUrls, videos) ==
                StructuredVideos(base, page, repr, p, items, seen, legacy)
    {
      assert items[i..][1..] == items[i + 1..];
      assert items[i..][0] == items[i];
      var item := items[i];
      if !item.Obj? {
        continue;
      }
      var videoUrl, thumbUrl := Get(item.fields, "video_url"), Get(item.fields, "thumbnail_url");
      if !Truthy(videoUrl) && !Truthy(thumbUrl) {
        continue;
      }
      var contentUrl := AbsoluteMediaUrl(base, videoUrl, repr);
      if contentUrl.Some? && contentUrl.value in seenUrls {
        continue;
      }
      var idx := VideoIndex(Get(item.fields, "index"), |videos| + 1);
      var thumbnail := if Truthy(thumbUrl) then AbsoluteMediaUrl(base, thumbUrl, repr) else None;
      var node := VideoObject(VideoId(page, idx), VideoName(repr, p, idx), VideoDescription(p),
                              if contentUrl.Some? then contentUrl.value else page,
                              thumbnail, contentUrl, None);
      if contentUrl.Some? {
        seenUrls := seenUrls + {contentUrl.value};
      }
      videos := videos + [node];
    }
  }

  /** `_build_video_objects(product, page_url)` */
  method BuildVideoObjects(base: string, page: string, repr: Value -> string, p: Record) returns (videos: seq<Node>)
    requires VideosShaped(p)
    ensures videos == VideoObjects(base, page, repr, p)
  {
    videos := CollectLegacyVideos(base, page, repr, p);
    var rawVideos := Or(Get(p, "videos"), Arr([]));
    if rawVideos.Arr? {
      assert rawVideos.items == VideoItems(p).value;
      // Avoid a second VideoObject for a URL a legacy slot already carries.
      var seenUrls := CollectSeenUrls(videos);
      videos := AppendStructuredVideos(base, page, repr, p, rawVideos.items, seenUrls, videos);
    }
  }

  /** The three legacy slots, in order. */
  method CollectLegacyVideos(base: string, page: string, repr: Value -> string, p: Record) returns (videos: seq<Node>)
    requires LegacyShaped(p)
    ensures videos == LegacyVideos(base, page, repr, p)
  {
    videos := [];
    var v1 := LegacyVideo(base, page, repr, p, 1, "product_video_1", "video_url_1", "product_video_1_thumb");
    if v1.Some? { videos := videos + [v1.value]; }
    assert videos == Kept(v1);
    var v2 := LegacyVideo(base, page, repr, p, 2, "product_video_2", "video_url_2", "product_video_2_thumb");
    if v2.Some? { videos := videos + [v2.value]; }
    assert videos == Kept(v1) + Kept(v2);
    var v3 := LegacyVideo(base, page, repr, p, 3, "product_video_3", "video_url_3", "product_video_3_thumb");
    if v3.Some? { videos := videos + [v3.value]; }
    assert videos == Kept(v1) + Kept(v2) + Kept(v3);
  }
}

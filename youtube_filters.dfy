// The `extract_youtube_id` template filter (globe/templatetags/
// youtube_filters.py): the first match of
// `(?:v=|/shorts/|youtu\.be/)([a-zA-Z0-9_-]{11})` anywhere in a URL gives
// the video id, and no match gives "".

module YoutubeFilters {
  import opened PyValue

  /** `[a-zA-Z0-9_-]` */
  predicate IsIdChar(c: char) {
    'a' <= c <= 'z' || 'A' <= c <= 'Z' || '0' <= c <= '9' || c == '_' || c == '-'
  }

  const IdLength: nat := 11

  /** The alternatives before the id, in the order the pattern tries them. */
  const Prefixes: seq<string> := ["v=", "/shorts/", "youtu.be/"]

  /** Eleven id characters: what group 1 captures. */
  predicate IsId(id: string) {
    |id| == IdLength && forall k :: 0 <= k < |id| ==> IsIdChar(id[k])
  }

  /** `x` occurs in `s` at position `i`. */
  predicate Occurs(s: string, i: nat, x: string) {
    i + |x| <= |s| && s[i..i + |x|] == x
  }

  /** A match of the pattern: the alternative that matched, and group 1. */
  datatype Hit = Hit(prefix: string, id: string)

  /** The text a match covers. */
  function Matched(h: Hit): string {
    h.prefix + h.id
  }

  /** One alternative tried at `i`: its prefix, then eleven id characters
      (`{11}` asks nothing of the character after them). */
  function Try(url: string, i: nat, w: string): (r: Option<Hit>)
    ensures r.Some? ==> r.value.prefix == w && IsId(r.value.id) && Occurs(url, i, Matched(r.value))
  {
    var j := i + |w|;
    if Occurs(url, i, w) && j + IdLength <= |url| && IsId(url[j..j + IdLength]) then
      assert url[i..j + IdLength] == url[i..j] + url[j..j + IdLength];
      Some(Hit(w, url[j..j + IdLength]))
    else None
  }

  /** The pattern anchored at `i`: the alternatives in order, falling back
      to the next when the eleven id characters do not follow. */
  function HitAt(url: string, i: nat): (r: Option<Hit>)
    ensures r.Some? ==> r.value.prefix in Prefixes && IsId(r.value.id) && Occurs(url, i, Matched(r.value))
  {
    var a := Try(url, i, Prefixes[0]);
    if a.Some? then a
    else
      var b := Try(url, i, Prefixes[1]);
      if b.Some? then b else Try(url, i, Prefixes[2])
  }

  /** `i` is the first position from `k` on where the pattern matches. */
  predicate FirstHit(url: string, k: nat, i: nat) {
    k <= i <= |url| && HitAt(url, i).Some? && forall j :: k <= j < i ==> HitAt(url, j).None?
  }

  /** `re.search` from position `k` on: group 1 of the first match, "" when
      there is none. */
  function SearchFrom(url: string, k: nat): (r: string)
    ensures r == "" <==> forall j :: k <= j <= |url| ==> HitAt(url, j).None?
    ensures r != "" ==> exists i :: FirstHit(url, k, i) && HitAt(url, i).value.id == r
    decreases |url| + 1 - k
  {
    if k > |url| then ""
    else
      match HitAt(url, k)
      case Some(h) =>
        assert FirstHit(url, k, k);
        h.id
      case None =>
        FirstHitBack(url, k, SearchFrom(url, k + 1));
        SearchFrom(url, k + 1)
  }

  /** No match at `k` moves the first match from `k + 1` back to `k`. */
  lemma FirstHitBack(url: string, k: nat, r: string)
    requires k <= |url| && HitAt(url, k).None?
    requires r != "" ==> exists i :: FirstHit(url, k + 1, i) && HitAt(url, i).value.id == r
    ensures r != "" ==> exists i :: FirstHit(url, k, i) && HitAt(url, i).value.id == r
  {
    if r != "" {
      var i: nat :| FirstHit(url, k + 1, i) && HitAt(url, i).value.id == r;
      assert FirstHit(url, k, i);
    }
  }

  /** The second half of an occurrence occurs right after the first. */
  lemma OccursTail(s: string, i: nat, a: string, b: string)
    requires Occurs(s, i, a + b)
    ensures Occurs(s, i + |a|, b)
  {
    assert s[i + |a|..i + |a| + |b|] == s[i..i + |a + b|][|a|..];
  }

  /** A result of the search is eleven id characters found in the URL. */
  lemma FoundInUrl(url: string, k: nat)
    requires SearchFrom(url, k) != ""
    ensures IsId(SearchFrom(url, k)) && exists at: nat :: Occurs(url, at, SearchFrom(url, k))
  {
    var i: nat :| FirstHit(url, k, i) && HitAt(url, i).value.id == SearchFrom(url, k);
    var h := HitAt(url, i).value;
    OccursTail(url, i, h.prefix, h.id);
    var at: nat := i + |h.prefix|;
    assert Occurs(url, at, SearchFrom(url, k));
  }

  /** `extract_youtube_id(url)`: "" or eleven id characters that occur in
      the URL. */
  function ExtractYoutubeId(url: string): (r: string)
    ensures r != "" ==> IsId(r) && exists i: nat :: Occurs(url, i, r)
  {
    var r := SearchFrom(url, 0);
    if r == "" then r
    else
      FoundInUrl(url, 0);
      r
  }

  // ---------------------------------------------------------------------
  // Matches, independently of the order the pattern tries them in

  /** `url` holds a prefix followed by an id at `i`. */
  predicate MatchesAt(url: string, i: nat, w: string, id: string) {
    w in Prefixes && IsId(id) && Occurs(url, i, w + id)
  }

  /** The alternatives begin with different characters, so at most one
      applies at a position, and the anchored pattern finds every match. */
  lemma HitAtComplete(url: string, i: nat, w: string, id: string)
    requires MatchesAt(url, i, w, id)
    ensures HitAt(url, i) == Some(Hit(w, id))
  {
    assert url[i..i + |w + id|][..|w|] == w;
    assert url[i..i + |w|] == w;
    assert url[i] == w[0];
    assert url[i + |w|..i + |w| + IdLength] == id by {
      assert url[i..i + |w + id|][|w|..] == id;
    }
  }

  /** The same, for every match at `i` at once. */
  lemma HitAtMatches(url: string, i: nat)
    ensures forall w, id :: MatchesAt(url, i, w, id) ==> HitAt(url, i) == Some(Hit(w, id))
  {
    forall w, id | MatchesAt(url, i, w, id)
      ensures HitAt(url, i) == Some(Hit(w, id))
    {
      HitAtComplete(url, i, w, id);
    }
  }

  /** Inside a prefix, a character that could begin another prefix is only
      the final `/`, and a prefix begun there runs past it. */
  lemma PrefixStart(w: string, w2: string, o: nat)
    requires w in Prefixes && w2 in Prefixes && 0 < o < |w| && w[o] == w2[0]
    ensures o + |w2| >= |w|
  {
    assert w2[0] in "v/y";
    if w == "/shorts/" {
      assert forall k :: 0 < k < 7 ==> w[k] !in "v/y";
    } else if w == "youtu.be/" {
      assert forall k :: 0 < k < 8 ==> w[k] !in "v/y";
    }
  }

  /** No alternative occurs strictly inside another one: a prefix that starts
      after an earlier one ends no sooner than it. */
  lemma NoInnerPrefix(v: string, j: nat, w: string, i: nat, w2: string)
    requires w in Prefixes && w2 in Prefixes && j < i
    requires Occurs(v, j, w) && Occurs(v, i, w2)
    ensures i + |w2| >= j + |w|
  {
    var o := i - j;
    if o < |w| {
      assert v[i] == w[o] by { assert v[j..j + |w|][o] == v[i]; }
      assert v[i] == w2[0] by { assert v[i..i + |w2|][0] == v[i]; }
      PrefixStart(w, w2, o);
    }
  }

  /** A match that fits in `u` is a match in `u` with anything appended, and
      back. */
  lemma MatchesAppend(u: string, t: string, i: nat, w: string, id: string)
    requires i + |w + id| <= |u|
    ensures MatchesAt(u, i, w, id) <==> MatchesAt(u + t, i, w, id)
  {
    assert (u + t)[i..i + |w + id|] == u[i..i + |w + id|];
  }

  // ---------------------------------------------------------------------
  // Properties

  /** "" exactly when no prefix followed by eleven id characters occurs
      anywhere in the URL. */
  lemma EmptyIffNoMatch(url: string)
    ensures ExtractYoutubeId(url) == "" <==>
      forall i, w, id :: 0 <= i <= |url| ==> !MatchesAt(url, i, w, id)
  {
    if ExtractYoutubeId(url) == "" {
      forall i, w, id | 0 <= i <= |url|
        ensures !MatchesAt(url, i, w, id)
      {
        HitAtMatches(url, i);
      }
    } else {
      var i: nat :| FirstHit(url, 0, i) && HitAt(url, i).value.id == ExtractYoutubeId(url);
      var h := HitAt(url, i).value;
      assert MatchesAt(url, i, h.prefix, h.id);
    }
  }

  /** A non-empty result is eleven id characters that follow one of the
      prefixes at some position, and no match starts anywhere before it. */
  lemma ResultLocated(url: string)
    ensures var r := ExtractYoutubeId(url);
      r != "" ==> IsId(r) && exists i, w :: 0 <= i <= |url| && MatchesAt(url, i, w, r) &&
                                            forall j, w', id :: 0 <= j < i ==> !MatchesAt(url, j, w', id)
  {
    var r := ExtractYoutubeId(url);
    if r != "" {
      var i: nat :| FirstHit(url, 0, i) && HitAt(url, i).value.id == r;
      var h := HitAt(url, i).value;
      assert MatchesAt(url, i, h.prefix, r);
      forall j, w', id | 0 <= j < i
        ensures !MatchesAt(url, j, w', id)
      {
        HitAtMatches(url, j);
      }
    }
  }

  /** The result is group 1 of the first match. */
  lemma FirstHitResult(url: string, i: nat)
    requires FirstHit(url, 0, i)
    ensures ExtractYoutubeId(url) == HitAt(url, i).value.id
  {
    var r := ExtractYoutubeId(url);
    assert r != "";
    var i': nat :| FirstHit(url, 0, i') && HitAt(url, i').value.id == r;
    assert i' == i;
  }

  /** Appending text creates no match before the first one: a match ending
      inside the URL was there already, and one running past its end would
      hold the first match's prefix strictly inside its own. */
  lemma NoEarlierHit(url: string, tail: string, i: nat, j: nat)
    requires FirstHit(url, 0, i) && j < i
    ensures HitAt(url + tail, j).None?
  {
    var v := url + tail;
    var h := HitAt(url, i).value;
    if HitAt(v, j).Some? {
      var g := HitAt(v, j).value;
      if j + |Matched(g)| <= |url| {
        MatchesAppend(url, tail, j, g.prefix, g.id);
        HitAtComplete(url, j, g.prefix, g.id);
      } else {
        assert v[j..j + |Matched(g)|][..|g.prefix|] == g.prefix;
        assert url[i..i + |Matched(h)|][..|h.prefix|] == h.prefix;
        assert v[i..i + |h.prefix|] == url[i..i + |h.prefix|];
        NoInnerPrefix(v, j, g.prefix, i, h.prefix);
      }
    }
  }

  /** Whatever follows the id is ignored: appending text to a URL that has
      a match leaves the result unchanged. */
  lemma TailIgnored(url: string, tail: string)
    requires ExtractYoutubeId(url) != ""
    ensures ExtractYoutubeId(url + tail) == ExtractYoutubeId(url)
  {
    var v := url + tail;
    var i: nat :| FirstHit(url, 0, i) && HitAt(url, i).value.id == ExtractYoutubeId(url);
    var h := HitAt(url, i).value;
    MatchesAppend(url, tail, i, h.prefix, h.id);
    HitAtComplete(v, i, h.prefix, h.id);
    forall j | 0 <= j < i
      ensures HitAt(v, j).None?
    {
      NoEarlierHit(url, tail, i, j);
    }
    FirstHitResult(v, i);
  }
}

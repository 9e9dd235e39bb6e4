// The seller Organization node (`_build_seller_organization_schema` in
// globe/schema_utils.py): name, postal address, sales contact, website and
// social profiles, GST number, owner and a founding date guessed from the
// export year.

module Seller {
  import opened PyValue
  import opened Lists
  import opened Urls
  import opened Graph
  import opened Sections

  /** `product.get("user") or {}` is a dict. */
  predicate UserIsDict(p: Record) {
    Or(Get(p, "user"), Obj(map[])).Obj?
  }

  /** `user.get(k)` on `product.get("user") or {}`. */
  function UserGet(p: Record, k: string): Value {
    var user := Or(Get(p, "user"), Obj(map[]));
    if user.Obj? then Get(user.fields, k) else Null
  }

  /** `((a or "") or (b or "")).strip()` can be evaluated: `b` is only looked at when `a` is falsy. */
  predicate EitherText(a: Value, b: Value) {
    StrOrFalsy(a) && (!Truthy(a) ==> StrOrFalsy(b))
  }

  /** `((a or "") or (b or "")).strip()` */
  function FirstText(a: Value, b: Value): (r: string)
    requires EitherText(a, b)
    ensures Truthy(a) ==> r == Strip(a.s)
    ensures !Truthy(a) ==> r == Strip(TextOr(b))
  {
    Strip(if Truthy(a) then a.s else TextOr(b))
  }

  /** The first text wins: a truthy `a` makes `b` irrelevant, a falsy `a`
      counts as absent, and the result is already stripped. */
  lemma FirstTextPrefers(a: Value, b: Value, b': Value)
    requires EitherText(a, b) && EitherText(a, b')
    ensures Truthy(a) ==> FirstText(a, b) == FirstText(a, b')
    ensures !Truthy(a) ==> EitherText(Null, b) && FirstText(a, b) == FirstText(Null, b)
    ensures Strip(FirstText(a, b)) == FirstText(a, b)
  {
    StripIdempotent(if Truthy(a) then a.s else TextOr(b));
  }

  /** A product field with a fallback to the same detail on the user record. */
  predicate UserFallback(p: Record, key: string, userKey: string) {
    StrOrFalsy(Get(p, key)) && (!Truthy(Get(p, key)) ==> UserIsDict(p) && StrOrFalsy(UserGet(p, userKey)))
  }

  function Fallback(p: Record, key: string, userKey: string): string
    requires UserFallback(p, key, userKey)
  {
    FirstText(Get(p, key), UserGet(p, userKey))
  }

  /** `org_name`: the organisation, else the user's name, stripped. */
  function OrgName(p: Record): string
    requires UserFallback(p, "organization", "name")
  {
    Fallback(p, "organization", "name")
  }

  const SocialKeys: seq<string> := ["social_media_facebook", "social_media_twitter", "social_media_instagram"]

  /** The fields the builder reads once it knows the seller has a name. */
  predicate DetailsShaped(p: Record) {
    StrOrFalsy(Get(p, "address")) && StrOrFalsy(Get(p, "city")) &&
    EitherText(Get(p, "origin_country"), Get(p, "badge_country")) &&
    UserFallback(p, "contact_number", "phone") && UserFallback(p, "email", "email") &&
    StrOrFalsy(Get(p, "gst_details")) && StrOrFalsy(Get(p, "owner_name")) &&
    StrOrFalsy(Get(p, "badge_year_export"))
  }

  /** The product fields `_build_seller_organization_schema` can evaluate without raising. */
  predicate SellerShaped(p: Record) {
    UserFallback(p, "organization", "name") && (OrgName(p) != "" ==> DetailsShaped(p))
  }

  function SellerAddress(p: Record): Option<PostalAddress>
    requires DetailsShaped(p)
  {
    var street, city := StrippedOr(Get(p, "address")), StrippedOr(Get(p, "city"));
    var country := FirstText(Get(p, "origin_country"), Get(p, "badge_country"));
    if street == "" && city == "" && country == "" then None
    else Some(PostalAddress(NonEmpty(street), NonEmpty(city), NonEmpty(country)))
  }

  function SellerContact(p: Record): Option<ContactPoint>
    requires DetailsShaped(p)
  {
    var phone, email := Fallback(p, "contact_number", "phone"), Fallback(p, "email", "email");
    if phone == "" && email == "" then None
    else Some(ContactPoint(NonEmpty(phone), NonEmpty(email)))
  }

  /** One social profile field, normalised. */
  function SocialUrl(repr: Value -> string, p: Record): string -> Option<string> {
    (key: string) => NormaliseExternalUrl(Get(p, key), repr)
  }

  /** `same_as`: the accepted social profile URLs, first occurrence kept. */
  function SameAs(repr: Value -> string, p: Record): seq<string>
    requires DetailsShaped(p)
  {
    DedupInto([], FilterMap(SocialKeys, SocialUrl(repr, p)))
  }

  /** `f"{year}-01-01"` when the stripped export year is four digits. */
  function FoundingDate(year: string): (r: Option<string>)
    ensures r.Some? <==> |year| == 4 && AllDigits(year)
    ensures r.Some? ==> |r.value| == 10 && r.value[..4] == year && r.value[4..] == "-01-01"
  {
    if AllDigits(year) && |year| == 4 then Some(year + "-01-01") else None
  }

  /** `_build_seller_organization_schema(product, page_url)` */
  function SellerOrganization(page: string, repr: Value -> string, p: Record): (r: Option<Node>)
    requires SellerShaped(p)
    ensures r.Some? <==> OrgName(p) != ""
    ensures r.Some? ==> r.value.Organization? && r.value.id == page + "#seller"
  {
    var name := OrgName(p);
    if name == "" then None
    else Some(Organization(
      page + "#seller",
      name,
      SellerAddress(p),
      SellerContact(p),
      NormaliseExternalUrl(Get(p, "website_url"), repr),
      SameAs(repr, p),
      NonEmpty(StrippedOr(Get(p, "gst_details"))),
      NonEmpty(StrippedOr(Get(p, "owner_name"))),
      FoundingDate(StrippedOr(Get(p, "badge_year_export")))))
  }

  /** The node exists exactly when the organisation or, failing that, the
      user's name is non-blank. A truthy organisation made only of whitespace
      hides the user's name and suppresses the node. */
  lemma SellerPresent(page: string, repr: Value -> string, p: Record)
    requires SellerShaped(p)
    ensures var r := SellerOrganization(page, repr, p);
      (r.Some? <==> OrgName(p) != "") &&
      (r.Some? ==> r.value.Organization? && r.value.id == page + "#seller" && r.value.orgName == OrgName(p))
    ensures Truthy(Get(p, "organization")) ==> OrgName(p) == Strip(Get(p, "organization").s)
    ensures !Truthy(Get(p, "organization")) ==> OrgName(p) == Strip(TextOr(UserGet(p, "name")))
  {
  }

  /** The profiles gathered from `keys` are absolute http(s) URLs, each taken
      from one of the fields and listed once. */
  lemma ProfilesSpec(repr: Value -> string, p: Record, keys: seq<string>)
    ensures var r := DedupInto([], FilterMap(keys, SocialUrl(repr, p)));
      NoDuplicates(r) &&
      (forall u :: u in r <==> exists i :: 0 <= i < |keys| && NormaliseExternalUrl(Get(p, keys[i]), repr) == Some(u)) &&
      (forall k :: 0 <= k < |r| ==> IsAbsoluteHttp(r[k]))
  {
    var found := FilterMap(keys, SocialUrl(repr, p));
    var r := DedupInto([], found);
    DedupIntoSpec([], found);
    forall u ensures u in found <==> exists i :: 0 <= i < |keys| && SocialUrl(repr, p)(keys[i]) == Some(u) {
      FilterMapMember(keys, SocialUrl(repr, p), u);
    }
    forall k | 0 <= k < |r| ensures IsAbsoluteHttp(r[k]) {
      assert r[k] in found;
    }
  }

  /** The seller's node: its website and social profiles are absolute
      http(s) URLs; each profile comes from one of the three social fields
      and is listed once. */
  lemma SellerLinks(page: string, repr: Value -> string, p: Record)
    requires SellerShaped(p) && SellerOrganization(page, repr, p).Some?
    ensures var org := SellerOrganization(page, repr, p).value;
      (org.website.Some? ==> IsAbsoluteHttp(org.website.value)) &&
      NoDuplicates(org.sameAs) &&
      (forall u :: u in org.sameAs <==>
        exists i :: 0 <= i < |SocialKeys| && NormaliseExternalUrl(Get(p, SocialKeys[i]), repr) == Some(u)) &&
      (forall k :: 0 <= k < |org.sameAs| ==> IsAbsoluteHttp(org.sameAs[k]))
  {
    ProfilesSpec(repr, p, SocialKeys);
  }

  /** An address is present exactly when its street, city or country is
      non-blank, and carries exactly the non-blank ones; the country is the
      origin country, else the badge country. */
  lemma SellerAddressSpec(page: string, repr: Value -> string, p: Record)
    requires SellerShaped(p) && SellerOrganization(page, repr, p).Some?
    ensures var org := SellerOrganization(page, repr, p).value;
      var street, city := StrippedOr(Get(p, "address")), StrippedOr(Get(p, "city"));
      var country := FirstText(Get(p, "origin_country"), Get(p, "badge_country"));
      (org.address.Some? <==> street != "" || city != "" || country != "") &&
      (org.address.Some? ==> org.address.value == PostalAddress(NonEmpty(street), NonEmpty(city), NonEmpty(country)))
  {
  }

  /** A sales contact is present exactly when the phone or the e-mail is
      non-blank; each is taken from the product before the user. */
  lemma SellerContactSpec(page: string, repr: Value -> string, p: Record)
    requires SellerShaped(p) && SellerOrganization(page, repr, p).Some?
    ensures var org := SellerOrganization(page, repr, p).value;
      var phone, email := Fallback(p, "contact_number", "phone"), Fallback(p, "email", "email");
      (org.contactPoint.Some? <==> phone != "" || email != "") &&
      (org.contactPoint.Some? ==> org.contactPoint.value == ContactPoint(NonEmpty(phone), NonEmpty(email)))
    ensures Truthy(Get(p, "contact_number")) ==> Fallback(p, "contact_number", "phone") == Strip(Get(p, "contact_number").s)
    ensures Truthy(Get(p, "email")) ==> Fallback(p, "email", "email") == Strip(Get(p, "email").s)
  {
  }

  method BuildSellerOrganization(p: Record, page: string, repr: Value -> string) returns (r: Option<Node>)
    requires SellerShaped(p)
    ensures r == SellerOrganization(page, repr, p)
  {
    var orgName := OrgName(p);
    if orgName == "" {
      return None;
    }
    var address := SellerAddress(p);
    var contact := SellerContact(p);
    var website := NormaliseExternalUrl(Get(p, "website_url"), repr);
    var sameAs := AppendNewKept(SocialKeys, SocialUrl(repr, p), []);
    var gst := StrippedOr(Get(p, "gst_details"));
    var owner := StrippedOr(Get(p, "owner_name"));
    var founded := FoundingDate(StrippedOr(Get(p, "badge_year_export")));
    r := Some(Organization(page + "#seller", orgName, address, contact, website, sameAs,
                           NonEmpty(gst), NonEmpty(owner), founded));
  }
}

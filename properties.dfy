// The `additionalProperty` list of the Product node (`build_product_schema`
// in globe/schema_utils.py): eight groups of name/value pairs read from the
// product record, always in the same order — technical details, the plain
// extra fields, variations, the list fields, import shipping options,
// packaging, compliance notes and the export badge fields.

module Properties {
  import opened PyValue
  import opened Lists
  import opened Graph
  import opened Sections

  /** Both halves of the pair are non-blank. */
  predicate Filled(pv: PropertyValue) {
    pv.name != "" && pv.value != ""
  }

  // ---------------------------------------------------------------------
  // Technical details

  predicate TechShaped(detail: Value) {
    detail.Obj? ==> StrOrFalsy(Get(detail.fields, "name")) && StrOrFalsy(Get(detail.fields, "description"))
  }

  /** A technical detail is kept when both its name and its description are non-blank. */
  function TechDetail(detail: Value): (r: Option<PropertyValue>)
    requires TechShaped(detail)
    ensures r.Some? <==>
      detail.Obj? && StrippedOr(Get(detail.fields, "name")) != "" && StrippedOr(Get(detail.fields, "description")) != ""
    ensures r.Some? ==> (detail.Obj? && Filled(r.value) &&
      r.value.name == StrippedOr(Get(detail.fields, "name")) &&
      r.value.value == StrippedOr(Get(detail.fields, "description")))
  {
    if !detail.Obj? then None
    else
      var name, value := StrippedOr(Get(detail.fields, "name")), StrippedOr(Get(detail.fields, "description"));
      if name == "" || value == "" then None else Some(PropertyValue(name, value))
  }

  // ---------------------------------------------------------------------
  // Scalar fields: the plain extra fields and the export badge fields

  const SimpleExtraFields: seq<(string, string)> := [
    ("hs_code", "HS Code"),
    ("uses", "Uses"),
    ("best_suited_for", "Best suited for"),
    ("primary_uses_title", "Primary uses title"),
    ("other_uses_title", "Other uses title"),
    ("origin_country", "Country of origin"),
    ("dispatch_time", "Dispatch time (days)")]

  const BadgeFields: seq<(string, string)> := [
    ("badge_lead_time", "Lead time (days)"),
    ("badge_port", "Port of loading"),
    ("badge_year_export", "Year of export start"),
    ("badge_country", "Export country"),
    ("badge_region", "Export region")]

  /** A scalar field under its caption: skipped when it is None, "", 0 or "0"
      (so also False and 0.0, which compare equal to 0), or when its text
      `str(raw).strip()` is blank. */
  function ScalarValue(raw: Value, caption: string, repr: Value -> string): (r: Option<PropertyValue>)
    ensures r.Some? <==> !IsNoneEmptyOrZero(raw) && Strip(StrOf(raw, repr)) != ""
    ensures r.Some? ==> r.value.name == caption && r.value.value == Strip(StrOf(raw, repr)) && r.value.value != ""
  {
    if IsNoneEmptyOrZero(raw) then None
    else
      var text := Strip(StrOf(raw, repr));
      if text == "" then None else Some(PropertyValue(caption, text))
  }

  function ScalarProp(p: Record, repr: Value -> string): ((string, string)) -> Option<PropertyValue> {
    (field: (string, string)) => ScalarValue(Get(p, field.0), field.1, repr)
  }

  // ---------------------------------------------------------------------
  // Variations

  /** One option of a variation: a dict whose `value` is a string or falsy
      (`.strip()` raises otherwise), or any other value, which `str()` takes. */
  predicate OptionShaped(opt: Value) {
    opt.Obj? ==> StrOrFalsy(Get(opt.fields, "value"))
  }

  /** The stripped text of one option, when non-blank: a dict's `value or ""`,
      anything else `str(opt)`. */
  function OptionText(opt: Value, repr: Value -> string): (r: Option<string>)
    requires OptionShaped(opt)
    ensures r.Some? <==> Strip(if opt.Obj? then TextOr(Get(opt.fields, "value")) else StrOf(opt, repr)) != ""
    ensures r.Some? ==> r.value == Strip(if opt.Obj? then TextOr(Get(opt.fields, "value")) else StrOf(opt, repr))
  {
    NonEmpty(Strip(if opt.Obj? then TextOr(Get(opt.fields, "value")) else StrOf(opt, repr)))
  }

  function OptionTextOf(repr: Value -> string): Value --> Option<string> {
    (opt: Value) requires OptionShaped(opt) => OptionText(opt, repr)
  }

  /** `var.get("values") or []`. */
  function OptionsOf(variation: Record): Value {
    Or(Get(variation, "values"), Arr([]))
  }

  /** A value the `for` loop can iterate in a known order: a list, or a
      string, whose characters it yields one by one. */
  predicate Iterable(v: Value) {
    v.Arr? || v.Str?
  }

  /** What `for opt in v` yields. */
  function Iterate(v: Value): (r: seq<Value>)
    requires Iterable(v)
    ensures v.Arr? ==> r == v.items
    ensures v.Str? ==> |r| == |v.s| && forall k :: 0 <= k < |r| ==> r[k] == Str([v.s[k]])
  {
    if v.Arr? then v.items else seq(|v.s|, k requires 0 <= k < |v.s| => Str([v.s[k]]))
  }

  predicate VariationShaped(variation: Value) {
    variation.Obj? ==>
      StrOrFalsy(Get(variation.fields, "name")) &&
      (StrippedOr(Get(variation.fields, "name")) != "" ==>
        var opts := OptionsOf(variation.fields);
        Iterable(opts) && forall i :: 0 <= i < |Iterate(opts)| ==> OptionShaped(Iterate(opts)[i]))
  }

  /** The non-blank option texts of a variation, in iteration order. */
  function OptionValues(variation: Record, repr: Value -> string): (r: seq<string>)
    requires Iterable(OptionsOf(variation))
    requires forall i :: 0 <= i < |Iterate(OptionsOf(variation))| ==> OptionShaped(Iterate(OptionsOf(variation))[i])
    ensures forall k :: 0 <= k < |r| ==> r[k] != ""
  {
    var opts := Iterate(OptionsOf(variation));
    FilterMapAll(opts, OptionTextOf(repr), (s: string) => s != "");
    FilterMap(opts, OptionTextOf(repr))
  }

  /** A named variation with at least one non-blank option: its name and the
      options joined by ", ". */
  function Variation(variation: Value, repr: Value -> string): (r: Option<PropertyValue>)
    requires VariationShaped(variation)
    ensures r.Some? <==> variation.Obj? && StrippedOr(Get(variation.fields, "name")) != "" &&
                          OptionValues(variation.fields, repr) != []
    ensures r.Some? ==> Filled(r.value) && r.value.name == StrippedOr(Get(variation.fields, "name")) &&
                        r.value.value == Join(OptionValues(variation.fields, repr), ", ")
  {
    if !variation.Obj? then None
    else
      var vname := StrippedOr(Get(variation.fields, "name"));
      if vname == "" then None
      else
        var values := OptionValues(variation.fields, repr);
        if values == [] then None
        else
          JoinStartsWithFirst(values, ", ");
          Some(PropertyValue(vname, Join(values, ", ")))
  }

  function VariationOf(repr: Value -> string): Value --> Option<PropertyValue> {
    (v: Value) requires VariationShaped(v) => Variation(v, repr)
  }

  // ---------------------------------------------------------------------
  // List fields

  const ListExtraFields: seq<(string, string)> := [
    ("primary_uses_industries", "Primary uses \U{2013} industries"),
    ("other_uses_bullets", "Other uses"),
    ("import_required_documents", "Import \U{2013} required documents"),
    ("import_available_documents", "Import \U{2013} available documents"),
    ("export_required_documents", "Export \U{2013} required documents"),
    ("export_available_documents", "Export \U{2013} available documents")]

  /** `str(v).strip()`, when non-blank. */
  function ItemText(v: Value, repr: Value -> string): (r: Option<string>)
    ensures r.Some? <==> Strip(StrOf(v, repr)) != ""
    ensures r.Some? ==> r.value == Strip(StrOf(v, repr))
  {
    NonEmpty(Strip(StrOf(v, repr)))
  }

  function ItemTextOf(repr: Value -> string): Value -> Option<string> {
    (v: Value) => ItemText(v, repr)
  }

  /** A list field under its caption: its non-blank items, stripped and joined by ", ". */
  function ListValue(v: Value, caption: string, repr: Value -> string): (r: Option<PropertyValue>)
    ensures r.Some? <==> Or(v, Arr([])).Arr? && FilterMap(Or(v, Arr([])).items, ItemTextOf(repr)) != []
    ensures r.Some? ==> (r.value.name == caption && r.value.value != "" &&
      r.value.value == Join(FilterMap(Or(v, Arr([])).items, ItemTextOf(repr)), ", "))
  {
    var raw := Or(v, Arr([]));
    if !raw.Arr? then None
    else
      var values := FilterMap(raw.items, ItemTextOf(repr));
      if values == [] then None
      else
        FilterMapAll(raw.items, ItemTextOf(repr), (s: string) => s != "");
        JoinStartsWithFirst(values, ", ");
        Some(PropertyValue(caption, Join(values, ", ")))
  }

  function ListProp(p: Record, repr: Value -> string): ((string, string)) -> Option<PropertyValue> {
    (field: (string, string)) => ListValue(Get(p, field.0), field.1, repr)
  }

  // ---------------------------------------------------------------------
  // Import shipping options

  predicate ShippingShaped(opt: Value) {
    opt.Obj? ==>
      StrOrFalsy(Get(opt.fields, "name")) &&
      (StrippedOr(Get(opt.fields, "name")) != "" ==> StrOrFalsy(Get(opt.fields, "image")))
  }

  const ShippingCaption: string := "Import shipping option"

  /** A named shipping option, kept when its name is non-blank. */
  function ShippingOption(opt: Value): (r: Option<PropertyValue>)
    requires ShippingShaped(opt)
    ensures r.Some? <==> opt.Obj? && StrippedOr(Get(opt.fields, "name")) != ""
    ensures r.Some? ==> r.value.name == ShippingCaption
  {
    if !opt.Obj? then None
    else
      var name := StrippedOr(Get(opt.fields, "name"));
      if name == "" then None
      else
        var extra := StrippedOr(Get(opt.fields, "image"));
        Some(PropertyValue(ShippingCaption, if extra == "" then name else name + " (" + extra + ")"))
  }

  /** The option's value starts with its name; it is the name alone exactly
      when the `image` text is blank, and otherwise ends with that text in
      brackets, so both read back from the value. */
  lemma ShippingOptionValue(opt: Value)
    requires ShippingShaped(opt) && opt.Obj? && StrippedOr(Get(opt.fields, "name")) != ""
    ensures var name, extra, v := StrippedOr(Get(opt.fields, "name")), StrippedOr(Get(opt.fields, "image")),
                                  ShippingOption(opt).value.value;
      StartsWith(v, name) && (v == name <==> extra == "") &&
      (extra != "" ==> v[|name|..] == " (" + extra + ")")
  {
    var name, extra := StrippedOr(Get(opt.fields, "name")), StrippedOr(Get(opt.fields, "image"));
    var v := ShippingOption(opt).value.value;
    if extra != "" {
      assert v == name + " (" + extra + ")";
      assert v[..|name|] == name && v[|name|..] == " (" + extra + ")";
    }
  }

  // ---------------------------------------------------------------------
  // Packaging details

  const PackagingPrefix: string := "Packaging \U{2013} "

  predicate PackagingShaped(pkg: Value) {
    pkg.Obj? ==>
      StrOrFalsy(Get(pkg.fields, "type")) && StrOrFalsy(Get(pkg.fields, "unit")) &&
      StrOrFalsy(Get(pkg.fields, "material")) && StrOrFalsy(Get(pkg.fields, "notes"))
  }

  /** The non-blank unit, material and notes, in that order. */
  function PackagingParts(unit: string, material: string, notes: string): (r: seq<string>)
    ensures r == [] <==> unit == "" && material == "" && notes == ""
    ensures r != [] ==> r[0] != ""
  {
    (if unit != "" then [unit] else []) + (if material != "" then [material] else []) +
    (if notes != "" then [notes] else [])
  }

  /** A packaging entry from its stripped type, unit, material and notes:
      kept when any is non-blank. */
  function PackagingEntry(ptype: string, unit: string, material: string, notes: string): (r: Option<PropertyValue>)
    ensures r.Some? <==> ptype != "" || unit != "" || material != "" || notes != ""
  {
    var parts := PackagingParts(unit, material, notes);
    if ptype == "" && parts == [] then None
    else Some(PropertyValue(PackagingPrefix + (if ptype != "" then ptype else "Option"), Join(parts, ", ")))
  }

  /** A kept entry is named by the prefix followed by a non-blank type
      ("Option" when it has none); its value is blank exactly when only the
      type was given. */
  lemma PackagingNamed(ptype: string, unit: string, material: string, notes: string)
    requires PackagingEntry(ptype, unit, material, notes).Some?
    ensures var pv := PackagingEntry(ptype, unit, material, notes).value;
      StartsWith(pv.name, PackagingPrefix) && |pv.name| > |PackagingPrefix| &&
      (ptype != "" ==> pv.name == PackagingPrefix + ptype) &&
      (pv.value == "" <==> unit == "" && material == "" && notes == "")
  {
    var parts := PackagingParts(unit, material, notes);
    var name := PackagingPrefix + (if ptype != "" then ptype else "Option");
    assert name[..|PackagingPrefix|] == PackagingPrefix;
    if parts != [] {
      JoinStartsWithFirst(parts, ", ");
    }
  }

  /** One entry of `packaging_details`. */
  function Packaging(pkg: Value): (r: Option<PropertyValue>)
    requires PackagingShaped(pkg)
    ensures r.Some? <==> (pkg.Obj? &&
      (StrippedOr(Get(pkg.fields, "type")) != "" || StrippedOr(Get(pkg.fields, "unit")) != "" ||
       StrippedOr(Get(pkg.fields, "material")) != "" || StrippedOr(Get(pkg.fields, "notes")) != ""))
  {
    if !pkg.Obj? then None
    else PackagingEntry(StrippedOr(Get(pkg.fields, "type")), StrippedOr(Get(pkg.fields, "unit")),
                        StrippedOr(Get(pkg.fields, "material")), StrippedOr(Get(pkg.fields, "notes")))
  }

  // ---------------------------------------------------------------------
  // Compliance notes

  predicate ComplianceShaped(item: Value) {
    item.Obj? ==> StrOrFalsy(Get(item.fields, "title")) && StrOrFalsy(Get(item.fields, "description"))
  }

  /** A note with a non-blank description, named by its title or "Important compliance". */
  function Compliance(item: Value): (r: Option<PropertyValue>)
    requires ComplianceShaped(item)
    ensures r.Some? <==> item.Obj? && StrippedOr(Get(item.fields, "description")) != ""
    ensures r.Some? ==> (item.Obj? && Filled(r.value) && r.value.value == StrippedOr(Get(item.fields, "description")) &&
      (StrippedOr(Get(item.fields, "title")) != "" ==> r.value.name == StrippedOr(Get(item.fields, "title"))) &&
      (StrippedOr(Get(item.fields, "title")) == "" ==> r.value.name == "Important compliance"))
  {
    if !item.Obj? then None
    else
      var title, desc := StrippedOr(Get(item.fields, "title")), StrippedOr(Get(item.fields, "description"));
      if desc == "" then None
      else Some(PropertyValue(if title != "" then title else "Important compliance", desc))
  }

  // ---------------------------------------------------------------------
  // The whole list

  /** The record fields the eight groups can read without raising. */
  predicate PropsShaped(p: Record) {
    (forall i :: 0 <= i < |ItemsAt(p, "technical_details")| ==> TechShaped(ItemsAt(p, "technical_details")[i])) &&
    (forall i :: 0 <= i < |ItemsAt(p, "variations")| ==> VariationShaped(ItemsAt(p, "variations")[i])) &&
    (forall i :: 0 <= i < |ItemsAt(p, "import_shipping_options")| ==>
      ShippingShaped(ItemsAt(p, "import_shipping_options")[i])) &&
    (forall i :: 0 <= i < |ItemsAt(p, "packaging_details")| ==> PackagingShaped(ItemsAt(p, "packaging_details")[i])) &&
    (forall i :: 0 <= i < |ItemsAt(p, "important_compliance")| ==>
      ComplianceShaped(ItemsAt(p, "important_compliance")[i]))
  }

  /** Every property has a non-blank name; its value is blank only for a
      packaging entry that gave nothing but its type. */
  predicate Named(pv: PropertyValue) {
    pv.name != "" && (pv.value == "" ==> StartsWith(pv.name, PackagingPrefix))
  }

  ghost predicate AllNamed(props: seq<PropertyValue>) {
    forall k :: 0 <= k < |props| ==> Named(props[k])
  }

  lemma AllNamedConcat(a: seq<PropertyValue>, b: seq<PropertyValue>)
    requires AllNamed(a) && AllNamed(b)
    ensures AllNamed(a + b)
  {
    assert forall k :: |a| <= k < |a + b| ==> (a + b)[k] == b[k - |a|];
  }

  // The eight groups, each over the items or fields it reads.

  function TechProps(items: seq<Value>): (r: seq<PropertyValue>)
    requires forall i :: 0 <= i < |items| ==> TechShaped(items[i])
    ensures AllNamed(r)
  {
    FilterMapAll(items, TechDetail, Named);
    FilterMap(items, TechDetail)
  }

  function ScalarProps(p: Record, fields: seq<(string, string)>, repr: Value -> string): (r: seq<PropertyValue>)
    requires forall i :: 0 <= i < |fields| ==> fields[i].1 != ""
    ensures AllNamed(r)
  {
    FilterMapAll(fields, ScalarProp(p, repr), Named);
    FilterMap(fields, ScalarProp(p, repr))
  }

  function VariationProps(items: seq<Value>, repr: Value -> string): (r: seq<PropertyValue>)
    requires forall i :: 0 <= i < |items| ==> VariationShaped(items[i])
    ensures AllNamed(r)
  {
    FilterMapAll(items, VariationOf(repr), Named);
    FilterMap(items, VariationOf(repr))
  }

  function ListProps(p: Record, fields: seq<(string, string)>, repr: Value -> string): (r: seq<PropertyValue>)
    requires forall i :: 0 <= i < |fields| ==> fields[i].1 != ""
    ensures AllNamed(r)
  {
    FilterMapAll(fields, ListProp(p, repr), Named);
    FilterMap(fields, ListProp(p, repr))
  }

  function ShippingProps(items: seq<Value>): (r: seq<PropertyValue>)
    requires forall i :: 0 <= i < |items| ==> ShippingShaped(items[i])
    ensures AllNamed(r)
  {
    FilterMapAll(items, ShippingOption, Named);
    FilterMap(items, ShippingOption)
  }

  function PackagingProps(items: seq<Value>): (r: seq<PropertyValue>)
    requires forall i :: 0 <= i < |items| ==> PackagingShaped(items[i])
    ensures AllNamed(r)
  {
    PackagingGroupNamed(items);
    FilterMap(items, Packaging)
  }

  lemma PackagingGroupNamed(items: seq<Value>)
    requires forall i :: 0 <= i < |items| ==> PackagingShaped(items[i])
    ensures Accepts(items, Packaging) && AllNamed(FilterMap(items, Packaging))
  {
    forall i | 0 <= i < |items| && Packaging(items[i]).Some?
      ensures Named(Packaging(items[i]).value)
    {
      var f := items[i].fields;
      PackagingNamed(StrippedOr(Get(f, "type")), StrippedOr(Get(f, "unit")),
                     StrippedOr(Get(f, "material")), StrippedOr(Get(f, "notes")));
    }
    FilterMapAll(items, Packaging, Named);
  }

  function ComplianceProps(items: seq<Value>): (r: seq<PropertyValue>)
    requires forall i :: 0 <= i < |items| ==> ComplianceShaped(items[i])
    ensures AllNamed(r)
  {
    FilterMapAll(items, Compliance, Named);
    FilterMap(items, Compliance)
  }

  lemma CaptionsNonEmpty()
    ensures forall i :: 0 <= i < |SimpleExtraFields| ==> SimpleExtraFields[i].1 != ""
    ensures forall i :: 0 <= i < |ListExtraFields| ==> ListExtraFields[i].1 != ""
    ensures forall i :: 0 <= i < |BadgeFields| ==> BadgeFields[i].1 != ""
  {
  }

  /** The groups read from the goods themselves: technical details, the
      plain extra fields, variations and the list fields. */
  function GoodsProps(p: Record, repr: Value -> string): (r: seq<PropertyValue>)
    requires PropsShaped(p)
    ensures AllNamed(r)
  {
    CaptionsNonEmpty();
    var g1, g2 := TechProps(ItemsAt(p, "technical_details")), ScalarProps(p, SimpleExtraFields, repr);
    var g3, g4 := VariationProps(ItemsAt(p, "variations"), repr), ListProps(p, ListExtraFields, repr);
    AllNamedConcat(g1, g2);
    AllNamedConcat(g1 + g2, g3);
    AllNamedConcat(g1 + g2 + g3, g4);
    g1 + g2 + g3 + g4
  }

  /** The groups about trading the goods: shipping options, packaging,
      compliance notes and the export badge fields. */
  function TradeProps(p: Record, repr: Value -> string): (r: seq<PropertyValue>)
    requires PropsShaped(p)
    ensures AllNamed(r)
  {
    CaptionsNonEmpty();
    var g5, g6 := ShippingProps(ItemsAt(p, "import_shipping_options")), PackagingProps(ItemsAt(p, "packaging_details"));
    var g7, g8 := ComplianceProps(ItemsAt(p, "important_compliance")), ScalarProps(p, BadgeFields, repr);
    AllNamedConcat(g5, g6);
    AllNamedConcat(g5 + g6, g7);
    AllNamedConcat(g5 + g6 + g7, g8);
    g5 + g6 + g7 + g8
  }

  /** The `additionalProperty` list, group by group. Every property has a
      non-blank name, and a blank value only on a packaging entry. */
  function AdditionalProps(p: Record, repr: Value -> string): (r: seq<PropertyValue>)
    requires PropsShaped(p)
    ensures AllNamed(r)
  {
    AllNamedConcat(GoodsProps(p, repr), TradeProps(p, repr));
    GoodsProps(p, repr) + TradeProps(p, repr)
  }

  method CollectGoodsProps(p: Record, repr: Value -> string) returns (props: seq<PropertyValue>)
    requires PropsShaped(p)
    ensures props == GoodsProps(p, repr)
  {
    var tech := Collect(ItemsAt(p, "technical_details"), TechDetail);
    var simple := Collect(SimpleExtraFields, ScalarProp(p, repr));
    var variations := Collect(ItemsAt(p, "variations"), VariationOf(repr));
    var lists := Collect(ListExtraFields, ListProp(p, repr));
    props := tech + simple + variations + lists;
  }

  method CollectTradeProps(p: Record, repr: Value -> string) returns (props: seq<PropertyValue>)
    requires PropsShaped(p)
    ensures props == TradeProps(p, repr)
  {
    var shipping := Collect(ItemsAt(p, "import_shipping_options"), ShippingOption);
    var packaging := Collect(ItemsAt(p, "packaging_details"), Packaging);
    var compliance := Collect(ItemsAt(p, "important_compliance"), Compliance);
    var badges := Collect(BadgeFields, ScalarProp(p, repr));
    props := shipping + packaging + compliance + badges;
  }

  /** The loops over the eight groups, in order. */
  method CollectAdditionalProps(p: Record, repr: Value -> string) returns (props: seq<PropertyValue>)
    requires PropsShaped(p)
    ensures props == AdditionalProps(p, repr)
  {
    var goods := CollectGoodsProps(p, repr);
    var trade := CollectTradeProps(p, repr);
    props := goods + trade;
  }
}

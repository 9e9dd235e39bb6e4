// Product enquiries (`enquiry_draft` and `enquiry_submit` in globe/views.py,
// the `Lead` model in globe/models.py): the product page autosaves a partial
// enquiry as one draft per (session, product), and an explicit submission
// stores a finished lead and promotes the drafts it completes. The lead table
// is a sequence in creation order; a lead's id is its position in it.

module Leads {
  import opened PyValue

  datatype Source = Discuss | Quick | Draft

  datatype Lead = Lead(
    sessionId: string, productId: string, productSlug: string, productName: string,
    quantity: Option<int>, frequency: string, mobile: string, email: string, pageUrl: string,
    source: Source, isDraft: bool, submittedAt: Option<int>,
    sourceIp: Option<string>, userAgent: string)

  /** The parts of the HTTP request the two views read: the decoded JSON body
      (None when it is empty, not UTF-8 or not JSON), the path, the
      `X-Forwarded-For`, `REMOTE_ADDR` and `User-Agent` headers, the clock,
      and `str()` of the values whose text is not modelled. */
  datatype Request = Request(
    json: Option<Value>, path: string, forwardedFor: Option<string>, remoteAddr: Option<string>,
    userAgent: Option<string>, now: int, repr: Value -> string)

  /** The JSON answer of either view. */
  datatype Reply = Ignored | Saved(leadId: nat) | Rejected(status: int, message: string) | Submitted(leadId: nat, message: string)

  const MaxUserAgent: nat := 1024

  /** `_parse_json_body`: the body when it is a JSON object, else `{}`. */
  function Payload(json: Option<Value>): (r: map<string, Value>)
    ensures json.Some? && json.value.Obj? ==> r == json.value.fields
    ensures (json.None? || !json.value.Obj?) ==> r == map[]
  {
    if json.Some? && json.value.Obj? then json.value.fields else map[]
  }

  /** `_get_client_ip`: the first address of `X-Forwarded-For`, else
      `REMOTE_ADDR`. */
  function ClientIp(forwardedFor: Option<string>, remoteAddr: Option<string>): (r: Option<string>)
    ensures forwardedFor.Some? && Strip(BeforeFirst(forwardedFor.value, ',')) != "" ==>
      r == Some(Strip(BeforeFirst(forwardedFor.value, ',')))
    ensures forwardedFor.None? || Strip(BeforeFirst(forwardedFor.value, ',')) == "" ==> r == remoteAddr
    ensures r.Some? && r != remoteAddr ==> ',' !in r.value && r.value != ""
  {
    if forwardedFor.Some? && forwardedFor.value != [] then
      var ip := Strip(BeforeFirst(forwardedFor.value, ','));
      if ip != "" then
        StripSpec(BeforeFirst(forwardedFor.value, ','));
        Some(ip)
      else remoteAddr
    else remoteAddr
  }

  /** `(request.META.get("HTTP_USER_AGENT") or "")[:1024]` */
  function UserAgent(ua: Option<string>): (r: string)
    ensures |r| <= MaxUserAgent
    ensures ua.Some? ==> r <= ua.value && (|ua.value| <= MaxUserAgent ==> r == ua.value)
  {
    if ua.Some? then Take(ua.value, MaxUserAgent) else ""
  }

  /** `str(payload.get(key) or fallback).strip()` */
  function Field(p: map<string, Value>, key: string, fallback: string, repr: Value -> string): string {
    Strip(StrOf(Or(Get(p, key), Str(fallback)), repr))
  }

  /** The quantity: `int()` of the value unless it is None or "", kept only
      when positive; a value `int()` refuses is no quantity. */
  function Quantity(v: Value): (r: Option<int>)
    ensures r.Some? ==> r.value > 0
    ensures v.Null? || v == Str("") ==> r.None?
    ensures v.Int? ==> (r.Some? <==> v.i > 0) && (r.Some? ==> r.value == v.i)
  {
    if v.Null? || v == Str("") then None
    else
      match PyInt(v)
      case IntOk(n) => if n > 0 then Some(n) else None
      case _ => None
  }

  /** What both views read from the payload. */
  datatype Form = Form(
    mobile: string, email: string, quantity: Option<int>, frequency: string,
    sessionId: string, productId: string, productSlug: string, productName: string, pageUrl: string)

  function FormOf(req: Request): (f: Form)
    ensures f.quantity.Some? ==> f.quantity.value > 0
  {
    var p := Payload(req.json);
    Form(
      Field(p, "mobile", "", req.repr), Field(p, "email", "", req.repr), Quantity(Get(p, "quantity")),
      Field(p, "frequency", "", req.repr), Field(p, "session_id", "", req.repr),
      Field(p, "product_id", "", req.repr), Field(p, "product_slug", "", req.repr),
      Field(p, "product_name", "", req.repr), Field(p, "page_url", req.path, req.repr))
  }

  /** Drafts are keyed by a session and a product that are both non-empty. */
  predicate Keyed(sessionId: string, productId: string) {
    sessionId != "" && productId != ""
  }

  predicate IsDraftFor(l: Lead, sessionId: string, productId: string) {
    l.isDraft && l.sessionId == sessionId && l.productId == productId
  }

  /** The newest draft for a key (`order_by("-created_at").first()`): the
      last one in creation order. */
  function LatestDraft(leads: seq<Lead>, sessionId: string, productId: string): (r: Option<nat>)
    ensures r.Some? ==> r.value < |leads| && IsDraftFor(leads[r.value], sessionId, productId)
    ensures r.Some? ==> forall j :: r.value < j < |leads| ==> !IsDraftFor(leads[j], sessionId, productId)
    ensures r.None? ==> forall j :: 0 <= j < |leads| ==> !IsDraftFor(leads[j], sessionId, productId)
  {
    if leads == [] then None
    else if IsDraftFor(leads[|leads| - 1], sessionId, productId) then Some(|leads| - 1)
    else LatestDraft(leads[..|leads| - 1], sessionId, productId)
  }

  /** A fresh draft for a key, every other field at its model default. */
  function NewDraft(sessionId: string, productId: string): Lead {
    Lead(sessionId, productId, "", "", None, "", "", "", "", Draft, true, None, None, "")
  }

  /** The draft after the autosave: non-empty fields overwrite, the quantity
      always does, and the request metadata is refreshed. */
  function Autosaved(base: Lead, f: Form, req: Request): Lead {
    base.(
      productSlug := if f.productSlug != "" then f.productSlug else base.productSlug,
      productName := if f.productName != "" then f.productName else base.productName,
      pageUrl := if f.pageUrl != "" then f.pageUrl else base.pageUrl,
      mobile := if f.mobile != "" then f.mobile else base.mobile,
      email := if f.email != "" then f.email else base.email,
      quantity := f.quantity,
      frequency := if f.frequency != "" then f.frequency else base.frequency,
      sourceIp := ClientIp(req.forwardedFor, req.remoteAddr),
      userAgent := UserAgent(req.userAgent))
  }

  /** An autosave carries something worth keeping. */
  predicate Meaningful(f: Form) {
    f.mobile != "" || f.email != "" || f.quantity.Some? || f.frequency != ""
  }

  /** The upsert of a meaningful snapshot: the newest draft of a keyed
      pair is updated in place, anything else becomes a new draft. */
  function Upsert(leads: seq<Lead>, f: Form, req: Request): (Reply, seq<Lead>) {
    var found := if Keyed(f.sessionId, f.productId) then LatestDraft(leads, f.sessionId, f.productId) else None;
    match found
    case Some(i) => (Saved(i), leads[i := Autosaved(leads[i], f, req)])
    case None => (Saved(|leads|), leads + [Autosaved(NewDraft(f.sessionId, f.productId), f, req)])
  }

  /** `enquiry_draft(request)` on a lead table: the answer and the new
      table. Nothing is stored unless the visitor typed something. */
  function DraftStep(leads: seq<Lead>, req: Request): (r: (Reply, seq<Lead>))
    ensures r.0.Ignored? <==> !Meaningful(FormOf(req))
    ensures r.0.Ignored? ==> r.1 == leads
    ensures r.0.Saved? ==> r == Upsert(leads, FormOf(req), req)
  {
    var f := FormOf(req);
    if !Meaningful(f) then (Ignored, leads) else Upsert(leads, f, req)
  }

  const NoContact := "Please enter your email address or mobile number."
  const Thanks := "Thanks! We received your enquiry. Our team will contact you shortly."

  /** A draft for the key becomes a submitted lead at time `t`. */
  function PromoteOne(l: Lead, sessionId: string, productId: string, t: int): Lead {
    if IsDraftFor(l, sessionId, productId) then l.(isDraft := false, submittedAt := Some(t)) else l
  }

  /** The bulk `update(is_draft=False, submitted_at=t)` on the drafts of a key. */
  function Promote(leads: seq<Lead>, sessionId: string, productId: string, t: int): (r: seq<Lead>)
    ensures |r| == |leads|
    ensures forall i :: 0 <= i < |r| ==> r[i] == PromoteOne(leads[i], sessionId, productId, t)
  {
    seq(|leads|, i requires 0 <= i < |leads| => PromoteOne(leads[i], sessionId, productId, t))
  }

  /** The lead an explicit submission creates. */
  function Submission(f: Form, req: Request): Lead {
    Lead(f.sessionId, f.productId, f.productSlug, f.productName, f.quantity, f.frequency, f.mobile,
      f.email, f.pageUrl, if f.quantity.Some? || f.frequency != "" then Discuss else Quick,
      false, Some(req.now), ClientIp(req.forwardedFor, req.remoteAddr), UserAgent(req.userAgent))
  }

  /** A submission with contact details stored: the new lead is appended
      and, for a keyed pair, its drafts are promoted. */
  function Record(leads: seq<Lead>, f: Form, req: Request): (Reply, seq<Lead>) {
    var created := leads + [Submission(f, req)];
    (Submitted(|leads|, Thanks),
     if Keyed(f.sessionId, f.productId) then Promote(created, f.sessionId, f.productId, req.now) else created)
  }

  /** `enquiry_submit(request)` on a lead table: the answer and the new
      table. A submission without a mobile number or an email is refused and
      changes nothing; otherwise it appends one lead, labelled `discuss`
      when it carries a quantity or a frequency and `quick` otherwise. */
  function SubmitStep(leads: seq<Lead>, req: Request): (r: (Reply, seq<Lead>))
    ensures var (reply, leads') := r;
      var f := FormOf(req);
      (reply.Rejected? <==> f.mobile == "" && f.email == "") &&
      (reply.Rejected? ==> leads' == leads && reply.status == 400) &&
      (reply.Submitted? ==>
        reply.leadId == |leads| && |leads'| == |leads| + 1 &&
        !leads'[reply.leadId].isDraft && leads'[reply.leadId].submittedAt == Some(req.now) &&
        leads'[reply.leadId].source == (if f.quantity.Some? || f.frequency != "" then Discuss else Quick) &&
        (leads'[reply.leadId].mobile != "" || leads'[reply.leadId].email != ""))
  {
    var f := FormOf(req);
    if f.mobile == "" && f.email == "" then (Rejected(400, NoContact), leads) else Record(leads, f, req)
  }

  // ---------------------------------------------------------------------
  // Invariants of the lead table

  /** Every draft was created by the autosave. */
  predicate DraftsTagged(leads: seq<Lead>) {
    forall i :: 0 <= i < |leads| && leads[i].isDraft ==> leads[i].source == Draft
  }

  /** A keyed (session, product) pair has at most one draft. */
  predicate OneDraftPerKey(leads: seq<Lead>) {
    forall i, j :: 0 <= i < j < |leads| && leads[i].isDraft && Keyed(leads[i].sessionId, leads[i].productId) ==>
      !IsDraftFor(leads[j], leads[i].sessionId, leads[i].productId)
  }

  /** Submitted leads carry their submission time. */
  predicate SubmittedStamped(leads: seq<Lead>) {
    forall i :: 0 <= i < |leads| && leads[i].source != Draft ==> leads[i].submittedAt.Some?
  }

  predicate TableValid(leads: seq<Lead>) {
    DraftsTagged(leads) && OneDraftPerKey(leads) && SubmittedStamped(leads)
  }

  // ---------------------------------------------------------------------
  // Properties

  /** A typed text replaces the field; a blank one keeps what it held. */
  predicate TypedOver(now: string, before: string, typed: string) {
    (typed != "" ==> now == typed) && (typed == "" ==> now == before)
  }

  /** `saved` is `base` with the snapshot written into it: the typed
      product slug, product name, page URL, mobile, e-mail and frequency
      replace the stored ones, blank ones keep them; the quantity, the client
      address and the user agent always replace; the key, the draft flag and
      the source are untouched. */
  predicate HoldsSnapshot(base: Lead, saved: Lead, f: Form, req: Request) {
    saved.sessionId == base.sessionId && saved.productId == base.productId &&
    saved.isDraft == base.isDraft && saved.source == base.source && saved.submittedAt == base.submittedAt &&
    TypedOver(saved.productSlug, base.productSlug, f.productSlug) &&
    TypedOver(saved.productName, base.productName, f.productName) &&
    TypedOver(saved.pageUrl, base.pageUrl, f.pageUrl) &&
    TypedOver(saved.mobile, base.mobile, f.mobile) &&
    TypedOver(saved.email, base.email, f.email) &&
    TypedOver(saved.frequency, base.frequency, f.frequency) &&
    saved.quantity == f.quantity &&
    saved.sourceIp == ClientIp(req.forwardedFor, req.remoteAddr) && saved.userAgent == UserAgent(req.userAgent)
  }

  /** The autosave writes the snapshot into the lead it starts from. */
  lemma AutosavedHolds(base: Lead, f: Form, req: Request)
    ensures HoldsSnapshot(base, Autosaved(base, f, req), f, req)
  {
  }

  /** The upsert saves exactly one lead: the newest draft of its key when
      the key is set and has one, a new draft otherwise; the saved lead
      holds the snapshot written over that draft (over empty fields for a
      new one), and every other lead is left as it was. */
  lemma UpsertSpec(leads: seq<Lead>, f: Form, req: Request)
    ensures var (reply, leads') := Upsert(leads, f, req);
      reply.Saved? && reply.leadId < |leads'| && |leads| <= |leads'| <= |leads| + 1 &&
      IsDraftFor(leads'[reply.leadId], f.sessionId, f.productId) &&
      (forall j :: 0 <= j < |leads| && j != reply.leadId ==> leads'[j] == leads[j]) &&
      (forall j :: reply.leadId < j < |leads'| ==> !IsDraftFor(leads'[j], f.sessionId, f.productId)) &&
      (|leads'| == |leads| <==> Keyed(f.sessionId, f.productId) && LatestDraft(leads, f.sessionId, f.productId).Some?)
    ensures var (reply, leads') := Upsert(leads, f, req);
      reply.Saved? && reply.leadId < |leads'| &&
      HoldsSnapshot(if |leads'| == |leads| then leads[reply.leadId] else NewDraft(f.sessionId, f.productId),
                    leads'[reply.leadId], f, req)
  {
    var found := if Keyed(f.sessionId, f.productId) then LatestDraft(leads, f.sessionId, f.productId) else None;
    match found
    case Some(i) =>
      AutosavedHolds(leads[i], f, req);
    case None =>
      AutosavedHolds(NewDraft(f.sessionId, f.productId), f, req);
      var leads' := leads + [Autosaved(NewDraft(f.sessionId, f.productId), f, req)];
      assert leads'[|leads|] == Autosaved(NewDraft(f.sessionId, f.productId), f, req);
  }

  /** The upsert keeps the table valid. */
  lemma UpsertKeepsValid(leads: seq<Lead>, f: Form, req: Request)
    requires TableValid(leads)
    ensures TableValid(Upsert(leads, f, req).1)
  {
    var leads' := Upsert(leads, f, req).1;
    var found := if Keyed(f.sessionId, f.productId) then LatestDraft(leads, f.sessionId, f.productId) else None;
    if found.None? {
      assert leads' == leads + [Autosaved(NewDraft(f.sessionId, f.productId), f, req)];
    }
  }

  /** The autosave keeps the table valid. */
  lemma DraftKeepsValid(leads: seq<Lead>, req: Request)
    requires TableValid(leads)
    ensures TableValid(DraftStep(leads, req).1)
  {
    UpsertKeepsValid(leads, FormOf(req), req);
  }

  /** Saving the same snapshot twice does not grow the table: a keyed draft
      is updated in place from the second autosave on. */
  lemma UpsertReused(leads: seq<Lead>, f: Form, req: Request)
    requires Keyed(f.sessionId, f.productId)
    ensures var (reply, leads') := Upsert(leads, f, req);
      |Upsert(leads', f, req).1| == |leads'| && Upsert(leads', f, req).0 == reply
  {
    var (reply, leads') := Upsert(leads, f, req);
    UpsertSpec(leads, f, req);
    var i := reply.leadId;
    var k := LatestDraft(leads', f.sessionId, f.productId);
    assert k.Some? && k.value >= i;
    UpsertSpec(leads', f, req);
  }

  lemma DraftReused(leads: seq<Lead>, req: Request)
    requires Meaningful(FormOf(req)) && Keyed(FormOf(req).sessionId, FormOf(req).productId)
    ensures var leads' := DraftStep(leads, req).1;
      |DraftStep(leads', req).1| == |leads'| && DraftStep(leads', req).0 == DraftStep(leads, req).0
  {
    UpsertReused(leads, FormOf(req), req);
  }

  /** After a keyed submission no draft of its key is left; each of them is
      now submitted at the submission's time, and every other lead is left
      as it was. */
  lemma SubmitPromotes(leads: seq<Lead>, req: Request)
    requires SubmitStep(leads, req).0.Submitted?
    requires Keyed(FormOf(req).sessionId, FormOf(req).productId)
    ensures var leads' := SubmitStep(leads, req).1;
      var f := FormOf(req);
      (forall j :: 0 <= j < |leads'| ==> !IsDraftFor(leads'[j], f.sessionId, f.productId)) &&
      (forall j :: 0 <= j < |leads| && IsDraftFor(leads[j], f.sessionId, f.productId) ==>
        leads'[j] == leads[j].(isDraft := false, submittedAt := Some(req.now))) &&
      (forall j :: 0 <= j < |leads| && !IsDraftFor(leads[j], f.sessionId, f.productId) ==> leads'[j] == leads[j])
  {
  }

  /** Storing a submission keeps the table valid. */
  lemma RecordKeepsValid(leads: seq<Lead>, f: Form, req: Request)
    requires TableValid(leads)
    ensures TableValid(Record(leads, f, req).1)
  {
    var created := leads + [Submission(f, req)];
    if Keyed(f.sessionId, f.productId) {
      var leads' := Promote(created, f.sessionId, f.productId, req.now);
      assert forall i :: 0 <= i < |leads'| && leads'[i].isDraft ==> leads'[i] == created[i];
    }
  }

  /** A submission keeps the table valid. */
  lemma SubmitKeepsValid(leads: seq<Lead>, req: Request)
    requires TableValid(leads)
    ensures TableValid(SubmitStep(leads, req).1)
  {
    var f := FormOf(req);
    if f.mobile != "" || f.email != "" {
      RecordKeepsValid(leads, f, req);
    }
  }

  // ---------------------------------------------------------------------
  // The lead table

  class LeadStore {
    var leads: seq<Lead>

    predicate Valid()
      reads this
    {
      TableValid(leads)
    }

    constructor()
      ensures leads == [] && Valid()
    {
      leads := [];
    }

    /** `enquiry_draft`: autosave the request's snapshot. */
    method SaveDraft(req: Request) returns (reply: Reply)
      requires Valid()
      modifies this
      ensures (reply, leads) == DraftStep(old(leads), req)
      ensures Valid()
    {
      DraftKeepsValid(leads, req);
      var step := DraftStep(leads, req);
      reply, leads := step.0, step.1;
    }

    /** `enquiry_submit`: store an explicit submission. */
    method Submit(req: Request) returns (reply: Reply)
      requires Valid()
      modifies this
      ensures (reply, leads) == SubmitStep(old(leads), req)
      ensures Valid()
    {
      SubmitKeepsValid(leads, req);
      var step := SubmitStep(leads, req);
      reply, leads := step.0, step.1;
    }
  }
}
